/** When the states of the alerts can be seen, and when the checks accept them (`allPossibleStates` and
    `expAlerts` in cases/case_*.go), both exactly and in plain numbers. */
module StateWindows {
  import opened Labels
  import opened ExpectedAlert
  import opened AlertCompare
  import opened Options
  import opened CaseLabels
  import opened CaseTables
  import opened CaseSamples
  import opened Automaton
  import opened StateOracle

  // ---- timings that show a state

  const LATEST: Duration := 2 * MAX_RTT

  /** An evaluation strictly between `low` and `high` that is the last up to `x`. */
  lemma Spot(low: Time, high: Time, x: Time) returns (e: Time)
    requires 0 <= low < x && x + 1 < high + GROUP_INTERVAL && low + GROUP_INTERVAL <= high
    ensures low < e < high && e <= x < e + GROUP_INTERVAL
  {
    e := if x < high then x else x - GROUP_INTERVAL + 1;
  }

  function Least(a: Time, b: Time): Time {
    if a < b then a else b
  }

  /** All samples take `delay`, and the last evaluation up to `x` is at `e`. */
  lemma LateSees(e: Time, x: Time, p: nat, q: nat, count: nat, delay: Duration) returns (t: Timing, j: nat)
    requires 0 <= e <= x < e + GROUP_INTERVAL && 0 < delay <= LATEST && p < q <= count
    requires At(0, p) + delay <= e && (q < count ==> e < At(0, q) + delay)
    ensures t == Late(e % GROUP_INTERVAL, count, delay) && t.Prompt() && t.Evaluations(x) == j + 1
    ensures t.Instant(j) == e && t.Seen(x) == Delivered(t.delivered, e) && p < t.Seen(x) <= q
  {
    t := Late(e % GROUP_INTERVAL, count, delay);
    LatePrompt(e % GROUP_INTERVAL, count, delay);
    j := EvaluatedAt(t, e, x);
    InOrder(t, e, p);
    if q < count {
      InOrder(t, e, q);
    }
  }

  /** A generator that has seen sample `p` and not yet sample `q`. */
  lemma SeesBetween(p: nat, q: nat, count: nat, x: Time) returns (t: Timing)
    requires p + 2 <= q < count && At(0, p) < x && x + 1 < At(0, q) + GROUP_INTERVAL + LATEST
    ensures t.Prompt() && |t.delivered| == count && p < t.Seen(x) <= q
  {
    var e := Spot(At(0, p), At(0, q) + LATEST, x);
    var j;
    t, j := LateSees(e, x, p, q, count, Least(LATEST, e - At(0, p)));
  }

  /** A generator that has not yet seen sample `q`. */
  lemma SeesUntil(q: nat, count: nat, x: Time) returns (t: Timing)
    requires 2 <= q < count && 0 < x && x + 1 < At(0, q) + GROUP_INTERVAL + LATEST
    ensures t.Prompt() && |t.delivered| == count && t.Seen(x) <= q
  {
    var e := Spot(0, At(0, q) + LATEST, x);
    t := Late(e % GROUP_INTERVAL, count, LATEST);
    LatePrompt(e % GROUP_INTERVAL, count, LATEST);
    var j := EvaluatedAt(t, e, x);
    InOrder(t, e, q);
  }

  /** A generator that has seen sample `p`. */
  lemma SeesFrom(p: nat, count: nat, x: Time) returns (t: Timing)
    requires p < count && At(0, p) < x
    ensures t.Prompt() && |t.delivered| == count && p < t.Seen(x)
  {
    var j;
    t, j := LateSees(x, x, p, count, count, Least(LATEST, x - At(0, p)));
  }

  /** A generator whose alert is pending, with the value of a sample from `p` to before `q`. */
  lemma PendingAt(rule: Rule, a: nat, b: nat, p: nat, q: nat, count: nat, x: Time) returns (t: Timing)
    requires Episode(rule, a, b) && |rule.values| <= count && 0 < rule.hold && a <= p && p + 2 <= q <= b
    requires At(0, p) + GROUP_INTERVAL <= At(0, a) + RoundUp(rule.hold) + LATEST && b < count
    requires At(0, p) < At(0, a) + RoundUp(rule.hold)
    requires At(0, p) < x && x + 1 < Least(At(0, q), At(0, a) + RoundUp(rule.hold)) + GROUP_INTERVAL + LATEST
    ensures t.Prompt() && |t.delivered| == count && p < t.Seen(x) <= q
    ensures StateAt(rule, t, x).Active? && !StateAt(rule, t, x).firing
  {
    var e := Spot(At(0, p), Least(At(0, q), At(0, a) + RoundUp(rule.hold)) + LATEST, x);
    var delay, j := Least(LATEST, e - At(0, p)), 0;
    t, j := LateSees(e, x, p, q, count, delay);
    var m := ActiveAt(rule, t, a, b, x);
    Steps(t, m, j);
    RoundUpIs(rule.hold, j - m);
    assert t.delivered[a] == At(0, a) + delay;
  }

  /** A generator whose alert fires, with the value of a sample from `p` to before `q`. */
  lemma FiringAt(rule: Rule, a: nat, b: nat, p: nat, q: nat, count: nat, x: Time) returns (t: Timing)
    requires Episode(rule, a, b) && |rule.values| <= count && 0 <= rule.hold && a <= p < q <= b < count
    requires At(0, p) + GROUP_INTERVAL <= At(0, q) + LATEST
    requires At(0, a) + RoundUp(rule.hold) + GROUP_INTERVAL <= At(0, q) + LATEST
    requires At(0, a) + RoundUp(rule.hold) < At(0, q)
    requires At(0, p) < x && At(0, a) + RoundUp(rule.hold) < x && x + 1 < At(0, q) + GROUP_INTERVAL + LATEST
    ensures t.Prompt() && |t.delivered| == count && p < t.Seen(x) <= q && Fires(StateAt(rule, t, x))
  {
    RoundUpPositive(rule.hold);
    var low := -Least(-At(0, p), -(At(0, a) + RoundUp(rule.hold)));
    var e := Spot(low, At(0, q) + LATEST, x);
    var j;
    t, j := LateSees(e, x, p, q, count, Least(LATEST, e - low));
    var k := RoundUpSteps(rule.hold);
    FiresInTime(rule, t, a, b, j + 1, k);
  }

  // ---- what can be seen

  /** What a listing says of an alert, but for when it became active. */
  datatype Shown = Nothing | Alerted(state: string, value: real)

  function ShownBy(s: RuleState): Shown {
    if s.Inactive? then Nothing else Alerted(if s.firing then "firing" else "pending", s.value)
  }

  /** Some generator that follows the specification can be seen like this at `ts`. */
  ghost predicate CanShow(rule: Rule, count: nat, ts: int, shown: Shown) {
    exists t: Timing :: t.Prompt() && count <= |t.delivered| && ShownBy(StateAt(rule, t, Moment(ts))) == shown
  }

  lemma Shows(rule: Rule, count: nat, ts: int, shown: Shown, t: Timing)
    requires t.Prompt() && count <= |t.delivered| && ShownBy(StateAt(rule, t, Moment(ts))) == shown
    ensures CanShow(rule, count, ts, shown)
  {
  }

  /** Active for the episode [a, b): the alert became active, and fires, in time. */
  lemma ShownWhen(rule: Rule, t: Timing, a: nat, b: nat, x: Time)
    requires t.Prompt() && |rule.values| <= |t.delivered| && Episode(rule, a, b) && 0 <= rule.hold
    requires a < t.Seen(x) <= b
    ensures var s, n := StateAt(rule, t, x), t.Seen(x);
      && s.Active? && s.value == rule.values[n - 1] && At(0, n - 1) < x
      && (n < |t.delivered| ==> x + 1 < At(0, n) + GROUP_INTERVAL + LATEST)
      && if s.firing then At(0, a) + RoundUp(rule.hold) < x
         else x + 1 < At(0, a) + RoundUp(rule.hold) + GROUP_INTERVAL + LATEST
  {
    var at := Window(rule, t, a, b, x);
    SeenWhen(t, x);
    if t.Seen(x) < |t.delivered| {
      SeenBefore(t, t.Seen(x), x);
    }
  }

  // ---- what a check accepts

  /** An alert as the API lists it, active since `since` milliseconds. */
  function Alert1(labels: LabelSet, annotations: LabelSet, state: string, value: real, since: int): ApiAlert {
    ApiAlert(labels, annotations, state, Some(value), Some(since * 1_000_000))
  }

  /** What is listed, but for when it became active. */
  datatype Look = Look(labels: LabelSet, annotations: LabelSet, state: string, value: Option<real>)

  function LookOf(a: ApiAlert): Look {
    Look(a.labels, a.annotations, a.state, a.value)
  }

  function Looks(s: seq<ApiAlert>): multiset<Look> {
    if s == [] then multiset{} else Looks(s[..|s| - 1]) + multiset{LookOf(s[|s| - 1])}
  }

  lemma {:induction false} LooksConcat(a: seq<ApiAlert>, b: seq<ApiAlert>)
    ensures Looks(a + b) == Looks(a) + Looks(b)
  {
    if b == [] {
      assert a + b == a;
    } else {
      var init := b[..|b| - 1];
      assert (a + b)[..|a + b| - 1] == a + init;
      LooksConcat(a, init);
    }
  }

  lemma LooksOne(a: ApiAlert)
    ensures Looks([a]) == multiset{LookOf(a)}
  {
    assert Looks([a][..0]) == multiset{};
  }

  lemma LooksTwo(a: ApiAlert, b: ApiAlert)
    ensures Looks([a, b]) == multiset{LookOf(a), LookOf(b)}
  {
    LooksOne(a);
    LooksOne(b);
    LooksConcat([a], [b]);
    assert [a] + [b] == [a, b];
  }

  lemma LooksThree(a: ApiAlert, b: ApiAlert, c: ApiAlert)
    ensures Looks([a, b, c]) == multiset{LookOf(a), LookOf(b)} + multiset{LookOf(c)}
  {
    LooksTwo(a, b);
    LooksOne(c);
    LooksConcat([a, b], [c]);
    assert [a, b] + [c] == [a, b, c];
  }

  lemma LooksAround(a: seq<ApiAlert>, x: ApiAlert, b: seq<ApiAlert>)
    ensures Looks(a + ([x] + b)) == Looks(a + b) + multiset{LookOf(x)}
  {
    LooksOne(x);
    LooksConcat([x], b);
    LooksConcat(a, [x] + b);
    LooksConcat(a, b);
  }

  lemma Around(s: seq<ApiAlert>, i: nat)
    requires i < |s|
    ensures s == s[..i] + ([s[i]] + s[i + 1..])
    ensures multiset(s) == multiset(s[..i] + s[i + 1..]) + multiset{s[i]}
  {
    assert s == s[..i] + ([s[i]] + s[i + 1..]);
  }

  lemma LooksNext(a: seq<ApiAlert>, b: seq<ApiAlert>, x: ApiAlert, init: seq<ApiAlert>, rest: seq<ApiAlert>)
    requires multiset(a) == multiset(b) && multiset(a) == multiset(init) + multiset{x}
    requires multiset(b) == multiset(rest) + multiset{x}
    ensures multiset(init) == multiset(rest)
  {
    assert multiset(init) == multiset(a) - multiset{x} == multiset(rest);
  }

  /** The order of a listing does not matter. */
  lemma {:induction false} LooksSame(a: seq<ApiAlert>, b: seq<ApiAlert>)
    requires multiset(a) == multiset(b)
    ensures Looks(a) == Looks(b)
    decreases |a|
  {
    if a == [] {
      assert |multiset(b)| == |b|;
    } else {
      var x, init := a[|a| - 1], a[..|a| - 1];
      assert a == init + [x];
      assert x in multiset(b);
      var i: nat :| i < |b| && b[i] == x;
      Around(b, i);
      LooksAround(b[..i], x, b[i + 1..]);
      LooksNext(a, b, x, init, b[..i] + b[i + 1..]);
      LooksSame(init, b[..i] + b[i + 1..]);
    }
  }

  lemma {:induction false} PairsLookAlike(pairs: seq<(ApiAlert, ApiAlert)>)
    requires forall p :: p in pairs ==> Fits(p.0, p.1, GROUP_INTERVAL)
    ensures Looks(Firsts(pairs)) == Looks(Seconds(pairs))
  {
    if pairs == [] {
    } else {
      var init, last := pairs[..|pairs| - 1], pairs[|pairs| - 1];
      PairsLookAlike(init);
      assert pairs == init + [last] && last in pairs;
    }
  }

  /** Two lists that compare equal look the same. */
  lemma SameLooks(exp: seq<ApiAlert>, act: seq<ApiAlert>)
    requires SameAlerts(exp, act, GROUP_INTERVAL)
    ensures Looks(exp) == Looks(act)
  {
    var pairs: seq<(ApiAlert, ApiAlert)> :| Pairing(pairs, exp, act, GROUP_INTERVAL);
    PairsLookAlike(pairs);
    LooksSame(exp, Firsts(pairs));
    LooksSame(act, Seconds(pairs));
  }

  /** What is listed is active since at most forty seconds after what was expected, and not before. */
  lemma SameTimes(exp: seq<ApiAlert>, act: seq<ApiAlert>, a: ApiAlert) returns (e: ApiAlert)
    requires SameAlerts(exp, act, GROUP_INTERVAL) && a in act
    ensures e in exp && InTime(e, a)
  {
    var pairs: seq<(ApiAlert, ApiAlert)> :| Pairing(pairs, exp, act, GROUP_INTERVAL);
    PairsAt(pairs);
    assert a in multiset(Seconds(pairs));
    var k :| 0 <= k < |pairs| && Seconds(pairs)[k] == a;
    e := pairs[k].0;
    assert pairs[k] in pairs && Firsts(pairs)[k] == e;
    assert e in multiset(Firsts(pairs));
  }

  /** The same alert, active since the same time or up to forty seconds later. */
  predicate InTime(e: ApiAlert, a: ApiAlert) {
    && e.labels == a.labels && e.activeAt.Some? && a.activeAt.Some?
    && e.activeAt.value <= a.activeAt.value <= e.activeAt.value + 40_000_000_000
  }

  lemma Chosen(alternatives: seq<seq<ApiAlert>>, act: seq<ApiAlert>) returns (listing: seq<ApiAlert>)
    requires Accepted(alternatives, act, GROUP_INTERVAL)
    ensures listing in alternatives && SameAlerts(listing, act, GROUP_INTERVAL)
  {
    var k :| 0 <= k < |alternatives| && Accepts(alternatives[k], act, GROUP_INTERVAL);
    listing := alternatives[k];
  }

  /** All are active since one of three times, or up to forty seconds later. */
  lemma AllSince(listing: seq<ApiAlert>, act: seq<ApiAlert>, z: int, first: int, second: int, third: int)
    requires SameAlerts(listing, act, GROUP_INTERVAL)
    requires forall e :: e in listing ==> Started(e, z, first) || Started(e, z, second) || Started(e, z, third)
    ensures forall a :: a in act ==> Since(a, z, first) || Since(a, z, second) || Since(a, z, third)
  {
    forall a | a in act ensures Since(a, z, first) || Since(a, z, second) || Since(a, z, third) {
      var e := SameTimes(listing, act, a);
    }
  }

  predicate Started(a: ApiAlert, z: int, seconds: int) {
    a.activeAt == Some((z + seconds * 1000) * 1_000_000)
  }

  /** Active since at most forty seconds after that many seconds, and not before. */
  predicate Since(a: ApiAlert, z: int, seconds: int) {
    a.activeAt.Some? && 0 <= a.activeAt.value - (z * 1_000_000 + seconds * 1_000_000_000) <= 40_000_000_000
  }

  // ---- PendingAndFiringAndResolved

  /** When each listing of this case can be seen, in milliseconds after the first sample. */
  predicate PfrVisible(ts: int, shown: Shown) {
    match shown
    case Nothing => ts < 160_000 || 1_035_000 < ts < 1_375_000 || 2_010_000 < ts
    case Alerted(state, value) =>
      || (state == "pending" && value == 11.0 && 120_000 < ts < 355_000)
      || (state == "pending" && value == 15.0 && (315_000 < ts < 520_000 || 1_335_000 < ts < 1_735_000))
      || (state == "firing" && value == 15.0 && (480_000 < ts < 835_000 || 1_695_000 < ts < 2_050_000))
      || (state == "firing" && value == 19.0 && 795_000 < ts < 1_075_000)
  }

  /** The state `s` was seen at `ts` by a rule that saw `n` of `count` samples, in the episode that begins
      with sample `a`. */
  ghost predicate Sighted(s: RuleState, ts: int, n: nat, count: nat, a: nat, hold: Duration) {
    && n > 0 && s.Active? && At(0, n - 1) < Moment(ts)
    && (n < count ==> Moment(ts) + 1 < At(0, n) + GROUP_INTERVAL + LATEST)
    && if s.firing then At(0, a) + hold < Moment(ts)
       else Moment(ts) + 1 < At(0, a) + hold + GROUP_INTERVAL + LATEST
  }

  lemma PfrSighted(s: RuleState, ts: int, n: nat)
    requires (8 < n <= 69 && Sighted(s, ts, n, PFR_SAMPLE_COUNT, 8, At(0, 24)))
      || (89 < n <= 134 && Sighted(s, ts, n, PFR_SAMPLE_COUNT, 89, At(0, 24)))
    requires s.value == PfrLevel(n - 1)
    ensures PfrVisible(ts, ShownBy(s))
  {
  }

  lemma PfrSeenOnlyThen(t: Timing, ts: int)
    requires t.Prompt() && PFR_SAMPLE_COUNT <= |t.delivered|
    ensures PfrVisible(ts, ShownBy(StateAt(PfrRule(), t, Moment(ts))))
  {
    var x := Moment(ts);
    var n := t.Seen(x);
    PfrEpisodes();
    Holds();
    if 8 < n <= 69 {
      ShownWhen(PfrRule(), t, 8, 69, x);
      PfrSighted(StateAt(PfrRule(), t, x), ts, n);
    } else if 89 < n <= 134 {
      ShownWhen(PfrRule(), t, 89, 134, x);
      PfrSighted(StateAt(PfrRule(), t, x), ts, n);
    } else {
      PfrQuiet(n);
      Quiet(PfrRule(), t, x);
      SeenByAt(t, PFR_SAMPLE_COUNT, x);
      PfrUnseen(n, ts);
    }
  }

  lemma PfrUnseen(n: nat, ts: int)
    requires (n <= 8 || 69 < n <= 89 || 134 < n) && SeenBy(n, PFR_SAMPLE_COUNT, Moment(ts))
    ensures PfrVisible(ts, Nothing)
  {
  }

  lemma PfrNothingSeen(ts: int)
    requires 0 < ts && PfrVisible(ts, Nothing)
    ensures CanShow(PfrRule(), PFR_SAMPLE_COUNT, ts, Nothing)
  {
    var x, t := Moment(ts), Late(0, PFR_SAMPLE_COUNT, SECOND);
    if ts < 160_000 {
      t := SeesUntil(8, PFR_SAMPLE_COUNT, x);
    } else if ts < 1_375_000 {
      t := SeesBetween(69, 89, PFR_SAMPLE_COUNT, x);
    } else {
      t := SeesFrom(134, PFR_SAMPLE_COUNT, x);
    }
    PfrQuiet(t.Seen(x));
    Quiet(PfrRule(), t, x);
    Shows(PfrRule(), PFR_SAMPLE_COUNT, ts, Nothing, t);
  }

  lemma PfrPendingSeen(ts: int, value: real)
    requires PfrVisible(ts, Alerted("pending", value))
    ensures CanShow(PfrRule(), PFR_SAMPLE_COUNT, ts, Alerted("pending", value))
  {
    var x, t := Moment(ts), Late(0, PFR_SAMPLE_COUNT, SECOND);
    PfrEpisodes();
    Holds();
    if value == 11.0 {
      t := PendingAt(PfrRule(), 8, 69, 8, 21, PFR_SAMPLE_COUNT, x);
    } else if ts < 520_000 {
      t := PendingAt(PfrRule(), 8, 69, 21, 53, PFR_SAMPLE_COUNT, x);
    } else {
      t := PendingAt(PfrRule(), 89, 134, 89, 134, PFR_SAMPLE_COUNT, x);
    }
    PfrStateAt(t, x);
    Shows(PfrRule(), PFR_SAMPLE_COUNT, ts, Alerted("pending", value), t);
  }

  lemma PfrFiringSeen(ts: int, value: real)
    requires PfrVisible(ts, Alerted("firing", value))
    ensures CanShow(PfrRule(), PFR_SAMPLE_COUNT, ts, Alerted("firing", value))
  {
    var x, t := Moment(ts), Late(0, PFR_SAMPLE_COUNT, SECOND);
    PfrEpisodes();
    Holds();
    if value == 19.0 {
      t := FiringAt(PfrRule(), 8, 69, 53, 69, PFR_SAMPLE_COUNT, x);
    } else if ts < 835_000 {
      t := FiringAt(PfrRule(), 8, 69, 21, 53, PFR_SAMPLE_COUNT, x);
    } else {
      t := FiringAt(PfrRule(), 89, 134, 89, 134, PFR_SAMPLE_COUNT, x);
    }
    PfrStateAt(t, x);
    Shows(PfrRule(), PFR_SAMPLE_COUNT, ts, Alerted("firing", value), t);
  }

  /** Exactly when a generator that follows the specification can be seen in each state. */
  lemma PfrVisibleExactly(ts: int, shown: Shown)
    requires 0 < ts
    ensures CanShow(PfrRule(), PFR_SAMPLE_COUNT, ts, shown) <==> PfrVisible(ts, shown)
  {
    forall t: Timing | t.Prompt() && PFR_SAMPLE_COUNT <= |t.delivered|
      ensures PfrVisible(ts, ShownBy(StateAt(PfrRule(), t, Moment(ts))))
    {
      PfrSeenOnlyThen(t, ts);
    }
    if PfrVisible(ts, shown) {
      match shown
      case Nothing => PfrNothingSeen(ts);
      case Alerted(state, value) =>
        if state == "pending" {
          PfrPendingSeen(ts, value);
        } else {
          PfrFiringSeen(ts, value);
        }
    }
  }

  /** Exactly what the check accepts, and when. */
  lemma PfrOfferedExactly(tc: PfrCase, z: int, ts: int, listing: seq<ApiAlert>)
    ensures listing in PfrExpAlerts(tc, z, z + ts) <==>
      || (listing == [] && (0 < ts <= 160_000 || 1_034_000 < ts <= 1_375_000 || 2_010_000 < ts <= 3_610_000))
      || (listing == [Alert1(tc.labels, tc.eleven, "pending", 11.0, z + 120_000)] && 119_000 < ts <= 355_000)
      || (listing == [Alert1(tc.labels, tc.fifteen, "pending", 15.0, z + 120_000)] && 314_000 < ts <= 520_000)
      || (listing == [Alert1(tc.labels, tc.fifteen, "pending", 15.0, z + 1_335_000)] && 1_334_000 < ts <= 1_735_000)
      || (listing == [Alert1(tc.labels, tc.fifteen, "firing", 15.0, z + 120_000)] && 479_000 < ts <= 835_000)
      || (listing == [Alert1(tc.labels, tc.fifteen, "firing", 15.0, z + 1_335_000)] && 1_694_000 < ts <= 2_050_000)
      || (listing == [Alert1(tc.labels, tc.nineteen, "firing", 19.0, z + 120_000)] && 794_000 < ts <= 1_075_000)
  {
    assert z + ts - z == ts;
  }

  /** The instant after `low` and before `high` that is nearest to `ts`. */
  function Nearest(ts: int, low: int, high: int): int {
    if ts <= low then low + 1 else if high <= ts then high - 1 else ts
  }

  lemma PfrShows(tc: PfrCase, z: int, now: int, shown: Shown) returns (t: Timing)
    requires 0 < now && PfrVisible(now, shown)
    ensures t.Prompt() && PFR_SAMPLE_COUNT <= |t.delivered|
    ensures var listing := PfrListing(tc, t, z, Moment(now));
      match shown
      case Nothing => listing == []
      case Alerted(state, value) =>
        Looks(listing) == multiset{Look(tc.labels, PfrAnnotationsOf(tc, value), state, Some(value))}
  {
    PfrVisibleExactly(now, shown);
    t :| t.Prompt() && PFR_SAMPLE_COUNT <= |t.delivered| && ShownBy(StateAt(PfrRule(), t, Moment(now))) == shown;
    var listing := PfrListing(tc, t, z, Moment(now));
    if shown.Alerted? {
      LooksOne(listing[0]);
    }
  }

  /** When the alternatives are offered a generator shows them, within a second. */
  lemma PfrOfferedShown(tc: PfrCase, z: int, ts: int, listing: seq<ApiAlert>) returns (now: int, shown: Shown)
    requires listing in PfrExpAlerts(tc, z, z + ts)
    ensures ts - 1000 <= now <= ts + 1000 && 0 < now && PfrVisible(now, shown)
    ensures match shown
      case Nothing => listing == []
      case Alerted(state, value) =>
        Looks(listing) == multiset{Look(tc.labels, PfrAnnotationsOf(tc, value), state, Some(value))}
  {
    PfrOfferedExactly(tc, z, ts, listing);
    if listing == [] {
      shown := Nothing;
      now := if ts <= 160_000 then Nearest(ts, 0, 160_000)
             else if ts <= 1_375_000 then Nearest(ts, 1_035_000, 1_375_000) else ts;
    } else {
      LooksOne(listing[0]);
      shown := Alerted(listing[0].state, listing[0].value.value);
      now := PfrNearest(ts, shown);
    }
  }

  function PfrNearest(ts: int, shown: Shown): int
    requires shown.Alerted?
  {
    if shown.state == "pending" then
      if shown.value == 11.0 then Nearest(ts, 120_000, 355_000)
      else if ts <= 520_000 then Nearest(ts, 315_000, 520_000) else Nearest(ts, 1_335_000, 1_735_000)
    else if shown.value == 19.0 then Nearest(ts, 795_000, 1_075_000)
    else if ts <= 835_000 then Nearest(ts, 480_000, 835_000) else Nearest(ts, 1_695_000, 2_050_000)
  }

  /** No missed alarm, within a second: what the check accepts is what some generator that follows the
      specification lists at most a second earlier or later, but for when its alert became active; and
      that is at most forty seconds after the first sample of a period. */
  lemma PfrBacked(tc: PfrCase, z: int, ts: int, act: seq<ApiAlert>) returns (t: Timing, now: int)
    requires Accepted(PfrExpAlerts(tc, z, z + ts), act, GROUP_INTERVAL)
    ensures ts - 1000 <= now <= ts + 1000 && t.Prompt() && PFR_SAMPLE_COUNT <= |t.delivered|
    ensures Looks(act) == Looks(PfrListing(tc, t, z, Moment(now)))
    ensures forall a :: a in act ==> Since(a, z, 120) || Since(a, z, 1335)
  {
    var listing := Chosen(PfrExpAlerts(tc, z, z + ts), act);
    var shown;
    now, shown := PfrOfferedShown(tc, z, ts, listing);
    t := PfrShows(tc, z, now, shown);
    SameLooks(listing, act);
    PfrStarted(tc, z, ts, listing);
    AllSince(listing, act, z, 120, 1335, 1335);
  }

  lemma PfrStarted(tc: PfrCase, z: int, ts: int, listing: seq<ApiAlert>)
    requires listing in PfrExpAlerts(tc, z, z + ts)
    ensures forall e :: e in listing ==> Started(e, z, 120) || Started(e, z, 1335)
  {
    PfrOfferedExactly(tc, z, ts, listing);
  }

  // ---- PendingAndResolved_AlwaysInactive

  predicate PrVisible(ts: int, shown: Shown) {
    match shown
    case Nothing => ts < 160_000 || 285_000 < ts
    case Alerted(state, value) => state == "pending" && value == 11.0 && 120_000 < ts < 325_000
  }

  lemma PrSeenOnlyThen(t: Timing, ts: int)
    requires t.Prompt() && PR_SAMPLE_COUNT <= |t.delivered|
    ensures PrVisible(ts, ShownBy(StateAt(PrRule(10.0), t, Moment(ts))))
  {
    PrStateAt(t, Moment(ts));
    SeenByAt(t, PR_SAMPLE_COUNT, Moment(ts));
    PrSighted(t.Seen(Moment(ts)), ts);
  }

  lemma PrSighted(n: nat, ts: int)
    requires SeenBy(n, PR_SAMPLE_COUNT, Moment(ts))
    ensures if 8 < n <= 19 then 120_000 < ts < 325_000 else ts < 160_000 || 285_000 < ts
  {
  }

  /** Exactly when the first rule can be seen in each state; the second one never shows. */
  lemma PrVisibleExactly(ts: int, shown: Shown)
    requires 0 < ts
    ensures CanShow(PrRule(10.0), PR_SAMPLE_COUNT, ts, shown) <==> PrVisible(ts, shown)
    ensures CanShow(PrRule(99.0), PR_SAMPLE_COUNT, ts, shown) ==> shown == Nothing
  {
    forall t: Timing | t.Prompt() && PR_SAMPLE_COUNT <= |t.delivered|
      ensures PrVisible(ts, ShownBy(StateAt(PrRule(10.0), t, Moment(ts))))
      ensures ShownBy(StateAt(PrRule(99.0), t, Moment(ts))) == Nothing
    {
      PrSeenOnlyThen(t, ts);
      PrNeverOver(t, Moment(ts));
    }
    if PrVisible(ts, shown) {
      var t := PrSeen(ts, shown);
      Shows(PrRule(10.0), PR_SAMPLE_COUNT, ts, shown, t);
    }
  }

  lemma PrSeen(ts: int, shown: Shown) returns (t: Timing)
    requires 0 < ts && PrVisible(ts, shown)
    ensures t.Prompt() && PR_SAMPLE_COUNT <= |t.delivered|
    ensures ShownBy(StateAt(PrRule(10.0), t, Moment(ts))) == shown
  {
    var x := Moment(ts);
    PrEpisode();
    Holds();
    if shown.Alerted? {
      t := PendingAt(PrRule(10.0), 8, 19, 8, 19, PR_SAMPLE_COUNT, x);
    } else if ts < 160_000 {
      t := SeesUntil(8, PR_SAMPLE_COUNT, x);
    } else {
      t := SeesFrom(19, PR_SAMPLE_COUNT, x);
    }
    PrStateAt(t, x);
  }

  lemma PrOfferedExactly(tc: PrCase, z: int, ts: int, listing: seq<ApiAlert>)
    ensures listing in PrExpAlerts(tc, z, z + ts) <==>
      || (listing == [] && (0 < ts <= 160_000 || 285_000 < ts <= 3_610_000))
      || (listing == [Alert1(tc.labels, tc.annotations, "pending", 11.0, z + 120_000)] && 119_000 < ts <= 325_000)
  {
    assert z + ts - z == ts;
  }

  lemma PrBacked(tc: PrCase, inactiveLabels: LabelSet, inactiveAnnotations: LabelSet, z: int, ts: int,
                 act: seq<ApiAlert>) returns (t: Timing, now: int)
    requires Accepted(PrExpAlerts(tc, z, z + ts), act, GROUP_INTERVAL)
    ensures ts - 1000 <= now <= ts + 1000 && t.Prompt() && PR_SAMPLE_COUNT <= |t.delivered|
    ensures Looks(act) == Looks(PrListing(tc, inactiveLabels, inactiveAnnotations, t, z, Moment(now)))
    ensures forall a :: a in act ==> Since(a, z, 120)
  {
    var listing := Chosen(PrExpAlerts(tc, z, z + ts), act);
    now, t := PrOfferedShown(tc, inactiveLabels, inactiveAnnotations, z, ts, listing);
    SameLooks(listing, act);
    PrOfferedExactly(tc, z, ts, listing);
    AllSince(listing, act, z, 120, 120, 120);
  }

  lemma PrOfferedShown(tc: PrCase, inactiveLabels: LabelSet, inactiveAnnotations: LabelSet, z: int, ts: int,
                       listing: seq<ApiAlert>) returns (now: int, t: Timing)
    requires listing in PrExpAlerts(tc, z, z + ts)
    ensures ts - 1000 <= now <= ts + 1000 && t.Prompt() && PR_SAMPLE_COUNT <= |t.delivered|
    ensures Looks(PrListing(tc, inactiveLabels, inactiveAnnotations, t, z, Moment(now))) == Looks(listing)
  {
    PrOfferedExactly(tc, z, ts, listing);
    if listing == [] {
      now := if ts <= 160_000 then Nearest(ts, 0, 160_000) else ts;
      t := PrSeen(now, Nothing);
    } else {
      now := Nearest(ts, 120_000, 325_000);
      t := PrSeen(now, Alerted("pending", 11.0));
    }
    PrListed(tc, inactiveLabels, inactiveAnnotations, z, now, t, listing);
  }

  lemma PrListed(tc: PrCase, inactiveLabels: LabelSet, inactiveAnnotations: LabelSet, z: int, now: int, t: Timing,
                 listing: seq<ApiAlert>)
    requires listing == [] || listing == [Alert1(tc.labels, tc.annotations, "pending", 11.0, z + 120_000)]
    requires ShownBy(StateAt(PrRule(10.0), t, Moment(now)))
      == if listing == [] then Nothing else Alerted("pending", 11.0)
    ensures Looks(PrListing(tc, inactiveLabels, inactiveAnnotations, t, z, Moment(now))) == Looks(listing)
  {
    PrNeverOver(t, Moment(now));
    var all := PrListing(tc, inactiveLabels, inactiveAnnotations, t, z, Moment(now));
    assert all == Listed(tc.labels, tc.annotations, z, StateAt(PrRule(10.0), t, Moment(now)));
    if listing != [] {
      LooksOne(listing[0]);
      LooksOne(all[0]);
    }
  }

  // ---- ZeroFor_SmallFor

  predicate ZfVisible(ts: int, shown: Shown) {
    match shown
    case Nothing => ts < 160_000 || 315_000 < ts < 1_435_000 || 1_590_000 < ts
    case Alerted(state, value) =>
      && state == "firing"
      && ((value == 15.0 && 120_000 < ts < 355_000) || (value == 11.0 && 1_395_000 < ts < 1_630_000))
  }

  predicate SfVisible(ts: int, shown: Shown) {
    match shown
    case Nothing => ts < 160_000 || 315_000 < ts
    case Alerted(state, value) =>
      && value == 15.0
      && ((state == "pending" && 120_000 < ts < 190_000) || (state == "firing" && 150_000 < ts < 355_000))
  }

  lemma ZfSeenOnlyThen(t: Timing, ts: int)
    requires t.Prompt() && ZERO_SAMPLE_COUNT <= |t.delivered|
    ensures ZfVisible(ts, ShownBy(StateAt(ZfRule(), t, Moment(ts))))
  {
    ZfStateAt(t, Moment(ts));
    SeenByAt(t, ZERO_SAMPLE_COUNT, Moment(ts));
    ZeroSighted(t.Seen(Moment(ts)), ts);
  }

  /** Where `ts` can be when `n` samples were seen. */
  lemma ZeroSighted(n: nat, ts: int)
    requires SeenBy(n, ZERO_SAMPLE_COUNT, Moment(ts))
    ensures if 8 < n <= 21 then 120_000 < ts < 355_000 else ts < 160_000 || 315_000 < ts
    ensures if 93 < n <= 106 then 1_395_000 < ts < 1_630_000 else ts < 1_435_000 || 1_590_000 < ts
  {
  }

  lemma SfSeenOnlyThen(t: Timing, ts: int)
    requires t.Prompt() && ZERO_SAMPLE_COUNT <= |t.delivered|
    ensures SfVisible(ts, ShownBy(StateAt(SfRule(), t, Moment(ts))))
  {
    var x := Moment(ts);
    ZeroEpisodes();
    Holds();
    SfStateAt(t, x);
    SeenByAt(t, ZERO_SAMPLE_COUNT, x);
    ZeroSighted(t.Seen(x), ts);
    if 8 < t.Seen(x) <= 21 {
      ShownWhen(SfRule(), t, 8, 21, x);
      SfSighted(StateAt(SfRule(), t, x), ts);
    }
  }

  lemma SfSighted(s: RuleState, ts: int)
    requires s.Active? && 120_000 < ts < 355_000 && s.value == 15.0
    requires if s.firing then At(0, 8) + GROUP_INTERVAL < Moment(ts)
             else Moment(ts) + 1 < At(0, 8) + GROUP_INTERVAL + GROUP_INTERVAL + LATEST
    ensures SfVisible(ts, ShownBy(s))
  {
  }

  lemma ZfSeen(ts: int, shown: Shown) returns (t: Timing)
    requires 0 < ts && ZfVisible(ts, shown)
    ensures t.Prompt() && ZERO_SAMPLE_COUNT <= |t.delivered|
    ensures ShownBy(StateAt(ZfRule(), t, Moment(ts))) == shown
  {
    var x := Moment(ts);
    if shown.Alerted? {
      if shown.value == 15.0 {
        t := SeesBetween(8, 21, ZERO_SAMPLE_COUNT, x);
      } else {
        t := SeesBetween(93, 106, ZERO_SAMPLE_COUNT, x);
      }
    } else {
      t := ZeroNothing(ts);
    }
    ZfStateAt(t, x);
  }

  /** Neither rule is active. */
  lemma ZeroNothing(ts: int) returns (t: Timing)
    requires 0 < ts && ZfVisible(ts, Nothing)
    ensures t.Prompt() && ZERO_SAMPLE_COUNT <= |t.delivered|
    ensures t.Seen(Moment(ts)) <= 8 || 21 < t.Seen(Moment(ts)) <= 93 || 106 < t.Seen(Moment(ts))
  {
    if ts < 160_000 {
      t := SeesUntil(8, ZERO_SAMPLE_COUNT, Moment(ts));
    } else if ts < 1_435_000 {
      t := SeesBetween(21, 93, ZERO_SAMPLE_COUNT, Moment(ts));
    } else {
      t := SeesFrom(106, ZERO_SAMPLE_COUNT, Moment(ts));
    }
  }

  lemma SfSeen(ts: int, shown: Shown) returns (t: Timing)
    requires 0 < ts && SfVisible(ts, shown)
    ensures t.Prompt() && ZERO_SAMPLE_COUNT <= |t.delivered|
    ensures ShownBy(StateAt(SfRule(), t, Moment(ts))) == shown
  {
    var x := Moment(ts);
    ZeroEpisodes();
    Holds();
    if shown.Nothing? {
      if ts < 160_000 {
        t := SeesUntil(8, ZERO_SAMPLE_COUNT, x);
      } else {
        t := SeesFrom(21, ZERO_SAMPLE_COUNT, x);
      }
    } else if shown.state == "pending" {
      t := PendingAt(SfRule(), 8, 21, 8, 21, ZERO_SAMPLE_COUNT, x);
    } else {
      t := FiringAt(SfRule(), 8, 21, 8, 21, ZERO_SAMPLE_COUNT, x);
    }
    SfStateAt(t, x);
  }

  /** Exactly when each rule can be seen in each state. */
  lemma ZeroVisibleExactly(ts: int, shown: Shown)
    requires 0 < ts
    ensures CanShow(ZfRule(), ZERO_SAMPLE_COUNT, ts, shown) <==> ZfVisible(ts, shown)
    ensures CanShow(SfRule(), ZERO_SAMPLE_COUNT, ts, shown) <==> SfVisible(ts, shown)
  {
    forall t: Timing | t.Prompt() && ZERO_SAMPLE_COUNT <= |t.delivered|
      ensures ZfVisible(ts, ShownBy(StateAt(ZfRule(), t, Moment(ts))))
      ensures SfVisible(ts, ShownBy(StateAt(SfRule(), t, Moment(ts))))
    {
      ZfSeenOnlyThen(t, ts);
      SfSeenOnlyThen(t, ts);
    }
    if ZfVisible(ts, shown) {
      var t := ZfSeen(ts, shown);
      Shows(ZfRule(), ZERO_SAMPLE_COUNT, ts, shown, t);
    }
    if SfVisible(ts, shown) {
      var t := SfSeen(ts, shown);
      Shows(SfRule(), ZERO_SAMPLE_COUNT, ts, shown, t);
    }
  }

  lemma ZeroOfferedExactly(tc: ZeroCase, z: int, ts: int, listing: seq<ApiAlert>)
    ensures var zf := Alert1(tc.zf, tc.zfAnnotations, "firing", 15.0, z + 120_000);
      listing in ZeroExpAlerts(tc, z, z + ts) <==>
      || (listing == [] && (0 < ts <= 160_000 || 314_000 < ts <= 1_435_000 || 1_590_000 < ts <= 3_610_000))
      || (listing == [zf, Alert1(tc.sf, tc.sfAnnotations, "pending", 15.0, z + 120_000)] && 119_000 < ts <= 190_000)
      || (listing == [zf, Alert1(tc.sf, tc.sfAnnotations, "firing", 15.0, z + 120_000)] && 150_000 < ts <= 355_000)
      || (listing == [Alert1(tc.zf, tc.zfAnnotationsAgain, "firing", 11.0, z + 1_395_000)]
          && 1_394_000 < ts <= 1_630_000)
  {
    assert z + ts - z == ts;
  }

  /** One delivery for all series of the group. */
  function Together(t: Timing): ZeroTimings {
    ZeroTimings(t, t, [t, t, t])
  }

  lemma ZeroListingIs(tc: ZeroCase, t: Timing, mixed: LabelSet, z: int, now: int)
    requires t.Prompt() && ZERO_SAMPLE_COUNT <= |t.delivered|
    ensures Together(t).Prompt()
    ensures var listing, n := ZeroListing(tc, Together(t), mixed, z, Moment(now)), t.Seen(Moment(now));
      var ss := ShownBy(StateAt(SfRule(), t, Moment(now)));
      Looks(listing) ==
        if 8 < n <= 21 && ss.Alerted? then
          multiset{Look(tc.zf, tc.zfAnnotations, "firing", Some(15.0)),
                   Look(tc.sf, tc.sfAnnotations, ss.state, Some(ss.value))}
        else if 93 < n <= 106 then multiset{Look(tc.zf, tc.zfAnnotationsAgain, "firing", Some(11.0))}
        else multiset{}
  {
    var x := Moment(now);
    var n, zs, ss := t.Seen(x), StateAt(ZfRule(), t, x), StateAt(SfRule(), t, x);
    ZfStateAt(t, x);
    SfStateAt(t, x);
    ZfAnnotationsAre(tc, Together(t), x, mixed);
    ZeroListedLooks(tc, ZfAnnotationsOf(tc, [t, t, t], x, mixed), z, zs, ss);
  }

  lemma ZeroListedLooks(tc: ZeroCase, annotations: LabelSet, z: int, zs: RuleState, ss: RuleState)
    ensures Looks(ZeroListed(tc, annotations, z, zs, ss))
      == (if zs.Active? then multiset{Look(tc.zf, annotations, StateName(zs), Some(zs.value))} else multiset{})
       + (if ss.Active? then multiset{Look(tc.sf, tc.sfAnnotations, StateName(ss), Some(ss.value))} else multiset{})
  {
    ListedLooks(tc.zf, annotations, z, zs);
    ListedLooks(tc.sf, tc.sfAnnotations, z, ss);
    LooksConcat(Listed(tc.zf, annotations, z, zs), Listed(tc.sf, tc.sfAnnotations, z, ss));
  }

  lemma ListedLooks(labels: LabelSet, annotations: LabelSet, z: int, s: RuleState)
    ensures Looks(Listed(labels, annotations, z, s))
      == if s.Active? then multiset{Look(labels, annotations, StateName(s), Some(s.value))} else multiset{}
  {
    if s.Active? {
      LooksOne(Listed(labels, annotations, z, s)[0]);
    }
  }

  /** What is offered is what a generator shows, within a second. */
  lemma ZeroOfferedShown(tc: ZeroCase, mixed: LabelSet, z: int, ts: int, listing: seq<ApiAlert>)
    returns (now: int, t: Timing)
    requires listing in ZeroExpAlerts(tc, z, z + ts)
    ensures ts - 1000 <= now <= ts + 1000 && t.Prompt() && ZERO_SAMPLE_COUNT <= |t.delivered|
    ensures Looks(ZeroListing(tc, Together(t), mixed, z, Moment(now))) == Looks(listing)
  {
    ZeroOfferedExactly(tc, z, ts, listing);
    if listing == [] {
      now := if ts <= 160_000 then Nearest(ts, 0, 160_000)
             else if ts <= 1_435_000 then Nearest(ts, 315_000, 1_435_000) else ts;
      t := ZeroNothing(now);
    } else if |listing| == 1 {
      now := Nearest(ts, 1_395_000, 1_630_000);
      t := ZfSeen(now, Alerted("firing", 11.0));
      ZfStateAt(t, Moment(now));
      LooksOne(listing[0]);
    } else {
      now := if listing[1].state == "pending" then Nearest(ts, 120_000, 190_000) else Nearest(ts, 150_000, 355_000);
      t := SfSeen(now, Alerted(listing[1].state, 15.0));
      SfStateAt(t, Moment(now));
      LooksTwo(listing[0], listing[1]);
    }
    ZeroListingIs(tc, t, mixed, z, now);
  }

  lemma ZeroBacked(tc: ZeroCase, mixed: LabelSet, z: int, ts: int, act: seq<ApiAlert>) returns (t: Timing, now: int)
    requires Accepted(ZeroExpAlerts(tc, z, z + ts), act, GROUP_INTERVAL)
    ensures ts - 1000 <= now <= ts + 1000 && Together(t).Prompt()
    ensures Looks(act) == Looks(ZeroListing(tc, Together(t), mixed, z, Moment(now)))
    ensures forall a :: a in act ==> Since(a, z, 120) || Since(a, z, 1395)
  {
    var listing := Chosen(ZeroExpAlerts(tc, z, z + ts), act);
    now, t := ZeroOfferedShown(tc, mixed, z, ts, listing);
    ZeroListingIs(tc, t, mixed, z, now);
    SameLooks(listing, act);
    ZeroStarted(tc, z, ts, listing);
    AllSince(listing, act, z, 120, 1395, 1395);
  }

  lemma ZeroStarted(tc: ZeroCase, z: int, ts: int, listing: seq<ApiAlert>)
    requires listing in ZeroExpAlerts(tc, z, z + ts)
    ensures forall e :: e in listing ==> Started(e, z, 120) || Started(e, z, 1395)
  {
    ZeroOfferedExactly(tc, z, ts, listing);
  }

  // ---- NewAlerts_OrderCheck

  predicate R11Visible(ts: int, shown: Shown) {
    match shown
    case Nothing => ts < 160_000 || 1_095_000 < ts
    case Alerted(state, value) =>
      && value == 11.0
      && ((state == "pending" && 120_000 < ts < 340_000) || (state == "firing" && 300_000 < ts < 1_135_000))
  }

  predicate R12Visible(ts: int, shown: Shown) {
    match shown
    case Nothing => ts < 520_000 || 975_000 < ts
    case Alerted(state, value) =>
      && value == 11.0
      && ((state == "pending" && 480_000 < ts < 700_000) || (state == "firing" && 660_000 < ts < 1_015_000))
  }

  lemma R11SeenOnlyThen(t: Timing, ts: int)
    requires t.Prompt() && ORDER_SAMPLE_COUNT <= |t.delivered|
    ensures R11Visible(ts, ShownBy(StateAt(R11Rule(), t, Moment(ts))))
  {
    var x := Moment(ts);
    R11Episode();
    Holds();
    R11StateAt(t, x);
    SeenByAt(t, ORDER_SAMPLE_COUNT, x);
    OrderSighted(t.Seen(x), ts);
    if 8 < t.Seen(x) <= 73 {
      ShownWhen(R11Rule(), t, 8, 73, x);
    }
  }

  lemma R12SeenOnlyThen(t: Timing, ts: int)
    requires t.Prompt() && ORDER_SAMPLE_COUNT <= |t.delivered|
    ensures R12Visible(ts, ShownBy(StateAt(R12Rule(), t, Moment(ts))))
  {
    var x := Moment(ts);
    R12Episode();
    Holds();
    R12StateAt(t, x);
    SeenByAt(t, ORDER_SAMPLE_COUNT, x);
    OrderSighted(t.Seen(x), ts);
    if 32 < t.Seen(x) <= 65 {
      ShownWhen(R12Rule(), t, 32, 65, x);
    }
  }

  lemma OrderSighted(n: nat, ts: int)
    requires SeenBy(n, ORDER_SAMPLE_COUNT, Moment(ts))
    ensures if 8 < n <= 73 then 120_000 < ts < 1_135_000 else ts < 160_000 || 1_095_000 < ts
    ensures if 32 < n <= 65 then 480_000 < ts < 1_015_000 else ts < 520_000 || 975_000 < ts
  {
  }

  /** A generator that shows the first variant only, or neither. */
  lemma R11Seen(ts: int, shown: Shown) returns (t: Timing)
    requires 0 < ts && R11Visible(ts, shown) && (shown.Alerted? ==> R12Visible(ts, Nothing))
    ensures t.Prompt() && ORDER_SAMPLE_COUNT <= |t.delivered|
    ensures ShownBy(StateAt(R11Rule(), t, Moment(ts))) == shown
    ensures StateAt(R12Rule(), t, Moment(ts)) == Inactive
  {
    var x := Moment(ts);
    R11Episode();
    Holds();
    if shown.Nothing? {
      if ts < 160_000 {
        t := SeesUntil(8, ORDER_SAMPLE_COUNT, x);
      } else {
        t := SeesFrom(73, ORDER_SAMPLE_COUNT, x);
      }
    } else if shown.state == "pending" {
      t := PendingAt(R11Rule(), 8, 73, 8, 32, ORDER_SAMPLE_COUNT, x);
    } else if ts < 520_000 {
      t := FiringAt(R11Rule(), 8, 73, 8, 32, ORDER_SAMPLE_COUNT, x);
    } else {
      t := FiringAt(R11Rule(), 8, 73, 65, 73, ORDER_SAMPLE_COUNT, x);
    }
    R11StateAt(t, x);
    R12StateAt(t, x);
  }

  /** A generator that shows both; then the first variant fires. */
  lemma R12Seen(ts: int, state: string) returns (t: Timing)
    requires R12Visible(ts, Alerted(state, 11.0))
    ensures t.Prompt() && ORDER_SAMPLE_COUNT <= |t.delivered|
    ensures ShownBy(StateAt(R12Rule(), t, Moment(ts))) == Alerted(state, 11.0)
    ensures ShownBy(StateAt(R11Rule(), t, Moment(ts))) == Alerted("firing", 11.0)
  {
    var x := Moment(ts);
    R12Episode();
    Holds();
    if state == "pending" {
      t := PendingAt(R12Rule(), 32, 65, 32, 65, ORDER_SAMPLE_COUNT, x);
    } else {
      t := FiringAt(R12Rule(), 32, 65, 32, 65, ORDER_SAMPLE_COUNT, x);
    }
    R11StateAt(t, x);
    R12StateAt(t, x);
    SeenByAt(t, ORDER_SAMPLE_COUNT, x);
    R11FiresFirst(t.Seen(x), t.Seen(x), x, StateAt(R11Rule(), t, x), StateAt(R12Rule(), t, x));
  }

  /** A generator that does not show the second variant. */
  lemma R12NotSeen(ts: int) returns (t: Timing)
    requires 0 < ts && R12Visible(ts, Nothing)
    ensures t.Prompt() && ORDER_SAMPLE_COUNT <= |t.delivered| && StateAt(R12Rule(), t, Moment(ts)) == Inactive
  {
    if ts < 520_000 {
      t := SeesUntil(32, ORDER_SAMPLE_COUNT, Moment(ts));
    } else {
      t := SeesFrom(65, ORDER_SAMPLE_COUNT, Moment(ts));
    }
    R12StateAt(t, Moment(ts));
  }

  /** And one that shows the first variant firing, whatever the second does. */
  lemma R11Fires(ts: int) returns (t: Timing)
    requires 300_000 < ts < 1_135_000
    ensures t.Prompt() && ORDER_SAMPLE_COUNT <= |t.delivered|
    ensures ShownBy(StateAt(R11Rule(), t, Moment(ts))) == Alerted("firing", 11.0)
  {
    R11Episode();
    Holds();
    t := FiringAt(R11Rule(), 8, 73, 8, 73, ORDER_SAMPLE_COUNT, Moment(ts));
    R11StateAt(t, Moment(ts));
  }

  /** Exactly when each variant can be seen in each state. */
  lemma OrderVisibleExactly(ts: int, shown: Shown)
    requires 0 < ts
    ensures CanShow(R11Rule(), ORDER_SAMPLE_COUNT, ts, shown) <==> R11Visible(ts, shown)
    ensures CanShow(R12Rule(), ORDER_SAMPLE_COUNT, ts, shown) <==> R12Visible(ts, shown)
  {
    forall t: Timing | t.Prompt() && ORDER_SAMPLE_COUNT <= |t.delivered|
      ensures R11Visible(ts, ShownBy(StateAt(R11Rule(), t, Moment(ts))))
      ensures R12Visible(ts, ShownBy(StateAt(R12Rule(), t, Moment(ts))))
    {
      R11SeenOnlyThen(t, ts);
      R12SeenOnlyThen(t, ts);
    }
    if R11Visible(ts, shown) {
      R11CanShow(ts, shown);
    }
    if R12Visible(ts, shown) {
      R12CanShow(ts, shown);
    }
  }

  lemma R11CanShow(ts: int, shown: Shown)
    requires 0 < ts && R11Visible(ts, shown)
    ensures CanShow(R11Rule(), ORDER_SAMPLE_COUNT, ts, shown)
  {
    if shown == Alerted("firing", 11.0) {
      var t := R11Fires(ts);
      Shows(R11Rule(), ORDER_SAMPLE_COUNT, ts, shown, t);
    } else {
      var t := R11Seen(ts, shown);
      Shows(R11Rule(), ORDER_SAMPLE_COUNT, ts, shown, t);
    }
  }

  lemma R12CanShow(ts: int, shown: Shown)
    requires 0 < ts && R12Visible(ts, shown)
    ensures CanShow(R12Rule(), ORDER_SAMPLE_COUNT, ts, shown)
  {
    if shown.Alerted? {
      var t := R12Seen(ts, shown.state);
      Shows(R12Rule(), ORDER_SAMPLE_COUNT, ts, shown, t);
    } else {
      var t := R12NotSeen(ts);
      Shows(R12Rule(), ORDER_SAMPLE_COUNT, ts, shown, t);
    }
  }

  lemma OrderOfferedExactly(tc: OrderCase, z: int, ts: int, listing: seq<ApiAlert>)
    ensures var pending := Alert1(tc.r11, tc.r1Annotations, "pending", 11.0, z + 120_000);
      var firing := Alert1(tc.r11, tc.r1Annotations, "firing", 11.0, z + 120_000);
      listing in OrderExpAlerts(tc, z, z + ts) <==>
      || (listing == [] && (0 < ts <= 160_000 || 1_095_000 < ts <= 3_610_000))
      || (listing == [pending] && 119_000 < ts <= 340_000)
      || (listing == [firing] && (299_000 < ts <= 520_000 || 975_000 < ts <= 1_135_000))
      || (listing == [firing, Alert1(tc.r12, tc.r1Annotations, "pending", 11.0, z + 480_000)]
          && 479_000 < ts <= 700_000)
      || (listing == [firing, Alert1(tc.r12, tc.r1Annotations, "firing", 11.0, z + 480_000),
                      Alert1(tc.r2, tc.r2Annotations, "firing", 2.0, z + 660_000)]
          && 659_000 < ts <= 1_135_000)
  {
    assert z + ts - z == ts;
  }

  lemma OrderListingLooks(tc: OrderCase, t: Timing, z: int, now: int)
    requires t.Prompt() && ORDER_SAMPLE_COUNT <= |t.delivered|
    ensures var s11, s12 := StateAt(R11Rule(), t, Moment(now)), StateAt(R12Rule(), t, Moment(now));
      Looks(OrderListing(tc, t, t, z, Moment(now)))
      == (if s11.Active? then multiset{Look(tc.r11, tc.r1Annotations, StateName(s11), Some(s11.value))}
          else multiset{})
       + (if s12.Active? then multiset{Look(tc.r12, tc.r1Annotations, StateName(s12), Some(s12.value))}
          else multiset{})
       + (if Fires(s12) then multiset{Look(tc.r2, tc.r2Annotations, "firing", Some(2.0))} else multiset{})
  {
    var s11, s12 := StateAt(R11Rule(), t, Moment(now)), StateAt(R12Rule(), t, Moment(now));
    OrderListingIs(tc, t, t, z, Moment(now));
    var a, b := Listed(tc.r11, tc.r1Annotations, z, s11), Listed(tc.r12, tc.r1Annotations, z, s12);
    ListedLooks(tc.r11, tc.r1Annotations, z, s11);
    ListedLooks(tc.r12, tc.r1Annotations, z, s12);
    ListedLooks(tc.r2, tc.r2Annotations, z, R2State(s12));
    LooksConcat(a, b);
    LooksConcat(a + b, Listed(tc.r2, tc.r2Annotations, z, R2State(s12)));
  }

  lemma ShowsFirst(tc: OrderCase, z: int, now: int, shown: Shown) returns (t: Timing)
    requires 0 < now && R11Visible(now, shown) && (shown.Alerted? ==> R12Visible(now, Nothing))
    ensures t.Prompt() && ORDER_SAMPLE_COUNT <= |t.delivered|
    ensures Looks(OrderListing(tc, t, t, z, Moment(now)))
      == if shown.Alerted? then multiset{Look(tc.r11, tc.r1Annotations, shown.state, Some(11.0))} else multiset{}
  {
    t := R11Seen(now, shown);
    OrderListingLooks(tc, t, z, now);
  }

  lemma ShowsBoth(tc: OrderCase, z: int, now: int, state: string) returns (t: Timing)
    requires R12Visible(now, Alerted(state, 11.0))
    ensures t.Prompt() && ORDER_SAMPLE_COUNT <= |t.delivered|
    ensures Looks(OrderListing(tc, t, t, z, Moment(now)))
      == BothLook(tc, state) + if state == "firing" then multiset{R2Look(tc)} else multiset{}
  {
    t := R12Seen(now, state);
    OrderListingLooks(tc, t, z, now);
  }

  function BothLook(tc: OrderCase, state: string): multiset<Look> {
    multiset{Look(tc.r11, tc.r1Annotations, "firing", Some(11.0)), Look(tc.r12, tc.r1Annotations, state, Some(11.0))}
  }

  function R2Look(tc: OrderCase): Look {
    Look(tc.r2, tc.r2Annotations, "firing", Some(2.0))
  }

  /** What is offered is what a generator shows, within a second, unless it is the second variant firing
      when it must have resolved. */
  lemma OrderOfferedShown(tc: OrderCase, z: int, ts: int, listing: seq<ApiAlert>) returns (now: int, t: Timing)
    requires listing in OrderExpAlerts(tc, z, z + ts) && (|listing| == 3 ==> ts <= 1_015_000)
    ensures ts - 1000 <= now <= ts + 1000 && t.Prompt() && ORDER_SAMPLE_COUNT <= |t.delivered|
    ensures Looks(OrderListing(tc, t, t, z, Moment(now))) == Looks(listing)
  {
    if |listing| <= 1 {
      now, t := FirstOffered(tc, z, ts, listing);
    } else {
      now, t := BothOffered(tc, z, ts, listing);
    }
  }

  lemma BothOffered(tc: OrderCase, z: int, ts: int, listing: seq<ApiAlert>) returns (now: int, t: Timing)
    requires listing in OrderExpAlerts(tc, z, z + ts) && 1 < |listing| && (|listing| == 3 ==> ts <= 1_015_000)
    ensures ts - 1000 <= now <= ts + 1000 && t.Prompt() && ORDER_SAMPLE_COUNT <= |t.delivered|
    ensures Looks(OrderListing(tc, t, t, z, Moment(now))) == Looks(listing)
  {
    OrderOfferedExactly(tc, z, ts, listing);
    if |listing| == 2 {
      TwoLook(tc, z, listing);
      now := Nearest(ts, 480_000, 700_000);
      t := ShowsBoth(tc, z, now, "pending");
    } else {
      ThreeLook(tc, z, listing);
      now := Nearest(ts, 660_000, 1_015_000);
      t := ShowsBoth(tc, z, now, "firing");
    }
  }

  lemma TwoLook(tc: OrderCase, z: int, listing: seq<ApiAlert>)
    requires listing == [Alert1(tc.r11, tc.r1Annotations, "firing", 11.0, z + 120_000),
                         Alert1(tc.r12, tc.r1Annotations, "pending", 11.0, z + 480_000)]
    ensures Looks(listing) == BothLook(tc, "pending")
  {
    LooksTwo(listing[0], listing[1]);
  }

  lemma ThreeLook(tc: OrderCase, z: int, listing: seq<ApiAlert>)
    requires listing == [Alert1(tc.r11, tc.r1Annotations, "firing", 11.0, z + 120_000),
                         Alert1(tc.r12, tc.r1Annotations, "firing", 11.0, z + 480_000),
                         Alert1(tc.r2, tc.r2Annotations, "firing", 2.0, z + 660_000)]
    ensures Looks(listing) == BothLook(tc, "firing") + multiset{R2Look(tc)}
  {
    LooksThree(listing[0], listing[1], listing[2]);
  }

  lemma FirstOffered(tc: OrderCase, z: int, ts: int, listing: seq<ApiAlert>) returns (now: int, t: Timing)
    requires listing in OrderExpAlerts(tc, z, z + ts) && |listing| <= 1
    ensures ts - 1000 <= now <= ts + 1000 && t.Prompt() && ORDER_SAMPLE_COUNT <= |t.delivered|
    ensures Looks(OrderListing(tc, t, t, z, Moment(now))) == Looks(listing)
  {
    OrderOfferedExactly(tc, z, ts, listing);
    if listing == [] {
      now := if ts <= 160_000 then Nearest(ts, 0, 160_000) else ts;
      t := ShowsFirst(tc, z, now, Nothing);
    } else {
      LooksOne(listing[0]);
      now := if listing[0].state == "pending" then Nearest(ts, 120_000, 340_000)
             else if ts <= 520_000 then Nearest(ts, 300_000, 520_000) else Nearest(ts, 975_000, 1_135_000);
      t := ShowsFirst(tc, z, now, Alerted(listing[0].state, 11.0));
    }
  }

  lemma OrderBacked(tc: OrderCase, z: int, ts: int, act: seq<ApiAlert>) returns (t: Timing, now: int)
    requires Accepted(OrderExpAlerts(tc, z, z + ts), act, GROUP_INTERVAL) && (|act| == 3 ==> ts <= 1_015_000)
    ensures ts - 1000 <= now <= ts + 1000 && OrderPrompt(t, t)
    ensures Looks(act) == Looks(OrderListing(tc, t, t, z, Moment(now)))
    ensures forall a :: a in act ==> Since(a, z, 120) || Since(a, z, 480) || Since(a, z, 660)
  {
    var listing := Chosen(OrderExpAlerts(tc, z, z + ts), act);
    SameLooks(listing, act);
    SameCount(listing, act);
    now, t := OrderOfferedShown(tc, z, ts, listing);
    OrderStarted(tc, z, ts, listing);
    AllSince(listing, act, z, 120, 480, 660);
  }

  lemma SameCount(a: seq<ApiAlert>, b: seq<ApiAlert>)
    requires Looks(a) == Looks(b)
    ensures |a| == |b|
  {
    LooksSize(a);
    LooksSize(b);
  }

  lemma {:induction false} LooksSize(s: seq<ApiAlert>)
    ensures |Looks(s)| == |s|
  {
    if s == [] {
    } else {
      LooksSize(s[..|s| - 1]);
    }
  }

  lemma OrderStarted(tc: OrderCase, z: int, ts: int, listing: seq<ApiAlert>)
    requires listing in OrderExpAlerts(tc, z, z + ts)
    ensures forall e :: e in listing ==> Started(e, z, 120) || Started(e, z, 480) || Started(e, z, 660)
  {
    OrderOfferedExactly(tc, z, ts, listing);
  }

  /** In those two minutes no generator that follows the specification lists three alerts. */
  lemma OrderUnbacked(tc: OrderCase, t: Timing, u: Timing, z: int, now: int)
    requires OrderPrompt(t, u) && 1_015_000 <= now
    ensures |OrderListing(tc, t, u, z, Moment(now))| < 3
  {
    R12SeenOnlyThen(u, now);
    OrderListingIs(tc, t, u, z, Moment(now));
  }
}
