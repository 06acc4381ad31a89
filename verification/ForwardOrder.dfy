/** Match order under a clock that does not run backwards: an expectation that a match left behind at
    its very deadline is lost for good. */
module ForwardOrder {
  import opened Labels
  import opened ExpectedAlert
  import opened Options
  import opened Reception
  import opened Conservation
  import opened Verdict
  import opened MatchOrder

  /** Two resends, the first before the second: expected together, or at least a resend
      delay apart, or with the next state of the first between them. */
  predicate Apart(x: Expected, y: Expected) {
    || x.ts == y.ts
    || x.ts + RESEND_DELAY <= y.ts
    || (x.nextState != ZERO_TIME && x.nextState <= y.ts)
  }

  ghost predicate Spaced(q: seq<Expected>, tolerance: Duration) {
    && (forall ea :: ea in q && ea.resend ==> ea.timeTolerance == tolerance)
    && (forall x, y :: x in q && y in q && x.resend && y.resend && x.orderingID < y.orderingID ==> Apart(x, y))
  }

  lemma SpacedByIndex(r: seq<Expected>, tolerance: Duration)
    requires Ordered(r)
    requires forall i :: 0 <= i < |r| && r[i].resend ==> r[i].timeTolerance == tolerance
    requires forall i, j :: 0 <= i < j < |r| && r[i].resend && r[j].resend ==> Apart(r[i], r[j])
    ensures Spaced(r, tolerance)
  {
    forall x, y | x in r && y in r && x.resend && y.resend && x.orderingID < y.orderingID ensures Apart(x, y) {
      var i :| 0 <= i < |r| && r[i] == x;
      var j :| 0 <= j < |r| && r[j] == y;
      assert i < j;
    }
  }

  lemma PairApart(q: seq<Expected>, now: Time, tolerance: Duration, i: nat, j: nat)
    requires Ordered(q) && Scheduled(q) && Spaced(q, tolerance) && i < j < |q| == |Rebase(q, now)|
    requires forall ea :: ea in q ==> !ea.ShouldBeIgnored()
    requires Rebase(q, now)[i].resend && Rebase(q, now)[j].resend
    ensures Apart(Rebase(q, now)[i], Rebase(q, now)[j])
  {
    var n := Lead(q);
    RebaseAt(q, now);
    assert q[i] in q && q[j] in q;
    if i < n <= j {
      assert q[n] in q && InTurn(q[i], q[n]);
      assert n == j || InTurn(q[n], q[j]);
    }
  }

  lemma RebaseSpaced(q: seq<Expected>, now: Time, tolerance: Duration)
    requires Ordered(q) && Scheduled(q) && Spaced(q, tolerance)
    requires forall ea :: ea in q ==> !ea.ShouldBeIgnored()
    ensures Spaced(Rebase(q, now), tolerance)
  {
    var r := Rebase(q, now);
    RebaseAt(q, now);
    forall i, j | 0 <= i < j < |r| && r[i].resend && r[j].resend ensures Apart(r[i], r[j]) {
      PairApart(q, now, tolerance, i, j);
    }
    forall i | 0 <= i < |r| && r[i].resend ensures r[i].timeTolerance == tolerance {
      assert q[i] in q;
    }
    RebaseScheduled(q, now);
    SpacedByIndex(r, tolerance);
  }

  /** Never due again, when no alert arrives before `bar`. */
  predicate Dead(ea: Expected, bar: Option<Time>) {
    ea.ShouldBeIgnored() || (bar.Some? && ea.Deadline() <= bar.value)
  }

  /** Each match that leaves an expectation behind at its deadline kills it: it stays at its deadline,
      or is rescheduled past its own next state. */
  lemma LeftBehindDies(q: seq<Expected>, now: Time, k: nat, tolerance: Duration, i: nat)
    requires Ordered(q) && Scheduled(q) && Swept(q, now)
    requires Spaced(q, tolerance) && tolerance + 2 * MAX_RTT <= RESEND_DELAY
    requires k < |Select(q, now, {Due})|
    requires i < |AddBack(Select(q, now, {Waiting}), Select(q, now, {Due})[k + 1..])|
    requires var left := AddBack(Select(q, now, {Waiting}), Select(q, now, {Due})[k + 1..]);
      |Rebase(left, now)| == |left| && left[i].orderingID <= Select(q, now, {Due})[k].orderingID
    ensures var left := AddBack(Select(q, now, {Waiting}), Select(q, now, {Due})[k + 1..]);
      && left[i] in q && left[i].orderingID < Select(q, now, {Due})[k].orderingID
      && left[i].Deadline() == now && Dead(Rebase(left, now)[i], Some(now))
      && (i < Lead(left) ==> Rebase(left, now)[i].ShouldBeIgnored())
  {
    var x := Select(q, now, {Due})[k];
    var left := AddBack(Select(q, now, {Waiting}), Select(q, now, {Due})[k + 1..]);
    DueAt(q, now, k, None);
    assert left[i] in q && FateOf(left[i], now) == Waiting by {
      assert left[i] in left;
      AfterMatch(q, now, k);
    }
    BehindIsEarlier(q, left[i], x, now);
    RebaseAt(left, now);
    if i < Lead(left) {
      assert left[i].resend;
      assert x.resend ==> Apart(left[i], x);
    }
  }

  ghost predicate MatchesRise(s: Series) {
    forall i, j :: 0 <= i < j < |s.matched| ==> s.matched[i].expected.orderingID < s.matched[j].expected.orderingID
  }

  /** All that is queued comes after all that was matched, or is dead. */
  ghost predicate LaterOrDead(s: Series, bar: Option<Time>) {
    forall i, ea :: 0 <= i < |s.matched| && ea in s.queue ==>
      s.matched[i].expected.orderingID < ea.orderingID || Dead(ea, bar)
  }

  ghost predicate Rising(s: Series, bar: Option<Time>, tolerance: Duration) {
    && Ordered(s.queue) && Scheduled(s.queue) && Spaced(s.queue, tolerance)
    && MatchesRise(s) && LaterOrDead(s, bar)
  }

  lemma SweepRising(s: Series, bar: Option<Time>, tolerance: Duration, now: Time)
    requires Rising(s, bar, tolerance)
    ensures Rising(Sweep(s, now), bar, tolerance) && Swept(Sweep(s, now).queue, now)
  {
    SelectOrdered(s.queue, now, {Due, Waiting});
    SelectIn(s.queue, now, {Due, Waiting});
  }

  /** The bar after an arrival: it is raised when something queued is at its very deadline. */
  ghost function Raised(q: seq<Expected>, bar: Option<Time>, now: Time): Option<Time> {
    if exists ea :: ea in q && ea.Deadline() == now then Some(now) else bar
  }

  /** What is left of a queue after a match comes later than the match, or is dead. */
  ghost predicate LeftLater(left: seq<Expected>, orderingID: int, bar: Option<Time>) {
    forall ea :: ea in left ==> orderingID < ea.orderingID || Dead(ea, bar)
  }

  lemma LeftLaterOrDead(q: seq<Expected>, now: Time, k: nat, tolerance: Duration, bar: Option<Time>)
    requires Ordered(q) && Scheduled(q) && Swept(q, now)
    requires Spaced(q, tolerance) && tolerance + 2 * MAX_RTT <= RESEND_DELAY
    requires k < |Select(q, now, {Due})|
    ensures var left := Rebase(AddBack(Select(q, now, {Waiting}), Select(q, now, {Due})[k + 1..]), now);
      LeftLater(left, Select(q, now, {Due})[k].orderingID, Raised(q, bar, now))
  {
    var left := AddBack(Select(q, now, {Waiting}), Select(q, now, {Due})[k + 1..]);
    var x := Select(q, now, {Due})[k];
    RebaseAt(left, now);
    forall ea | ea in Rebase(left, now) ensures x.orderingID < ea.orderingID || Dead(ea, Raised(q, bar, now)) {
      var i :| 0 <= i < |left| && Rebase(left, now)[i] == ea;
      if left[i].orderingID <= x.orderingID {
        LeftBehindDies(q, now, k, tolerance, i);
      }
    }
  }

  /** The queue after a match is as orderly as before. */
  lemma LeftSpaced(q: seq<Expected>, now: Time, k: nat, tolerance: Duration)
    requires Ordered(q) && Scheduled(q) && Swept(q, now) && Spaced(q, tolerance)
    requires k < |Select(q, now, {Due})|
    ensures var left := Rebase(AddBack(Select(q, now, {Waiting}), Select(q, now, {Due})[k + 1..]), now);
      Ordered(left) && Scheduled(left) && Spaced(left, tolerance)
  {
    var left := AddBack(Select(q, now, {Waiting}), Select(q, now, {Due})[k + 1..]);
    AfterMatch(q, now, k);
    RebaseScheduled(left, now);
    RebaseSpaced(left, now, tolerance);
  }

  lemma ExtendRising(s: Series, left: seq<Expected>, m: Match, now: Time, bar: Option<Time>, bar': Option<Time>)
    requires MatchesRise(s) && LaterOrDead(s, bar) && m.expected in s.queue && !Dead(m.expected, bar)
    requires LeftLater(left, m.expected.orderingID, bar')
    ensures var r := s.(queue := left, matched := s.matched + [m]);
      MatchesRise(r) && LaterOrDead(r, bar')
  {
    forall i | 0 <= i < |s.matched| ensures s.matched[i].expected.orderingID < m.expected.orderingID {
      assert m.expected in s.queue;
    }
  }

  lemma MatchRising(s: Series, bar: Option<Time>, tolerance: Duration, now: Time, a: Alert, k: nat)
    requires Rising(s, bar, tolerance) && Swept(s.queue, now) && tolerance + 2 * MAX_RTT <= RESEND_DELAY
    requires bar.Some? ==> bar.value <= now
    requires k == FirstMatch(Select(s.queue, now, {Due}), now, a) < |Select(s.queue, now, {Due})|
    ensures Rising(Receive(s, now, a), Raised(s.queue, bar, now), tolerance)
  {
    var exp := Select(s.queue, now, {Due});
    var left := Rebase(AddBack(Select(s.queue, now, {Waiting}), exp[k + 1..]), now);
    LeftLaterOrDead(s.queue, now, k, tolerance, bar);
    LeftSpaced(s.queue, now, k, tolerance);
    DueAt(s.queue, now, k, bar);
    ExtendRising(s, left, Match(now, exp[k], a), now, bar, Raised(s.queue, bar, now));
    MatchLeaves(s, now, a, exp, left, k);
  }

  lemma DueAt(q: seq<Expected>, now: Time, k: nat, bar: Option<Time>)
    requires k < |Select(q, now, {Due})| && (bar.Some? ==> bar.value <= now)
    ensures var x := Select(q, now, {Due})[k]; x in q && FateOf(x, now) == Due && !Dead(x, bar)
  {
    assert Select(q, now, {Due})[k] in Select(q, now, {Due});
    SelectIn(q, now, {Due});
  }

  lemma SameQueueRising(s: Series, r: Series, bar: Option<Time>, bar': Option<Time>, tolerance: Duration)
    requires Rising(s, bar, tolerance) && r.matched == s.matched
    requires Ordered(r.queue) && forall ea :: ea in r.queue ==> ea in s.queue
    requires forall ea :: Dead(ea, bar) ==> Dead(ea, bar')
    ensures Rising(r, bar', tolerance)
  {
  }

  lemma ReceiveRising(s: Series, bar: Option<Time>, tolerance: Duration, now: Time, a: Alert)
    requires Rising(s, bar, tolerance) && Swept(s.queue, now) && tolerance + 2 * MAX_RTT <= RESEND_DELAY
    requires bar.Some? ==> bar.value <= now
    ensures Rising(Receive(s, now, a), Raised(s.queue, bar, now), tolerance)
  {
    var exp := Select(s.queue, now, {Due});
    var k := FirstMatch(exp, now, a);
    if exp != [] && k < |exp| {
      MatchRising(s, bar, tolerance, now, a, k);
    } else {
      SelectIn(s.queue, now, {Due});
      SelectOrdered(s.queue, now, {Due});
      PartsFit(s.queue, now, exp);
      SameQueueRising(s, Receive(s, now, a), bar, Raised(s.queue, bar, now), tolerance);
    }
  }

  /** The time of the last arrival that found something at its very deadline. */
  ghost function Bar(s: Series, id: LabelSet, events: seq<Event>): Option<Time> {
    if events == [] then None else
    var before, e := events[..|events| - 1], events[|events| - 1];
    if OffDeadline(Run(s, id, before).queue, id, e) then Bar(s, id, before) else Some(e.now)
  }

  /** No alert of the label set is stamped earlier than one before it that arrived at the very
      deadline of something queued. */
  ghost predicate NeverBack(s: Series, id: LabelSet, events: seq<Event>) {
    events != [] ==>
      var before, e := events[..|events| - 1], events[|events| - 1];
      && NeverBack(s, id, before)
      && (e.Request? && AlertsOf(e.batch, id) != [] && Bar(s, id, before).Some? ==> Bar(s, id, before).value <= e.now)
  }

  lemma ArrivalRising(s: Series, bar: Option<Time>, tolerance: Duration, id: LabelSet, e: Event)
    requires Rising(s, bar, tolerance) && tolerance + 2 * MAX_RTT <= RESEND_DELAY
    requires e.Request? && AlertsOf(e.batch, id) != [] && (bar.Some? ==> bar.value <= e.now)
    ensures Rising(Step(s, id, e), if OffDeadline(s.queue, id, e) then bar else Some(e.now), tolerance)
  {
    var swept, a := Sweep(s, e.now), AlertsOf(e.batch, id)[0];
    SweepRising(s, bar, tolerance, e.now);
    ReceiveRising(swept, bar, tolerance, e.now, a);
    SelectIn(s.queue, e.now, {Due, Waiting});
    assert OffDeadline(s.queue, id, e) ==> Raised(swept.queue, bar, e.now) == bar;
    SameQueueRising(Receive(swept, e.now, a), Step(s, id, e), Raised(swept.queue, bar, e.now),
                    if OffDeadline(s.queue, id, e) then bar else Some(e.now), tolerance);
  }

  /** Match order without any condition on deadlines: matches rise as long as no arrival at a deadline
      is followed by one that is stamped earlier. */
  lemma {:induction false} RunRising(s: Series, id: LabelSet, events: seq<Event>, tolerance: Duration)
    requires Rising(s, None, tolerance) && tolerance + 2 * MAX_RTT <= RESEND_DELAY
    requires NeverBack(s, id, events)
    ensures Rising(Run(s, id, events), Bar(s, id, events), tolerance)
  {
    if events == [] {
    } else {
      var before, e := events[..|events| - 1], events[|events| - 1];
      RunRising(s, id, before, tolerance);
      var t := Run(s, id, before);
      if e.Request? && AlertsOf(e.batch, id) != [] {
        ArrivalRising(t, Bar(s, id, before), tolerance, id, e);
      } else {
        SweepRising(t, Bar(s, id, before), tolerance, e.now);
      }
    }
  }

  // ---- what can still break the order

  /** An alert at `now` is matched with an expectation that does not come after `orderingID`. */
  ghost predicate MatchesEarlier(q: seq<Expected>, now: Time, a: Alert, orderingID: int) {
    var exp := Select(q, now, {Due});
    var k := FirstMatch(exp, now, a);
    k < |exp| && exp[k].orderingID <= orderingID
  }

  /** A first notification before `orderingID` is at its very deadline. */
  ghost predicate FirstAtDeadline(q: seq<Expected>, now: Time, orderingID: int) {
    exists ea :: ea in q && !ea.resend && ea.orderingID < orderingID && ea.Deadline() == now
  }

  lemma BreakFrom(q: seq<Expected>, now: Time, k: nat, tolerance: Duration, now': Time, a': Alert)
    requires Ordered(q) && Scheduled(q) && Swept(q, now)
    requires Spaced(q, tolerance) && tolerance + 2 * MAX_RTT <= RESEND_DELAY
    requires k < |Select(q, now, {Due})|
    requires MatchesEarlier(Rebase(AddBack(Select(q, now, {Waiting}), Select(q, now, {Due})[k + 1..]), now),
                            now', a', Select(q, now, {Due})[k].orderingID)
    ensures FirstAtDeadline(q, now, Select(q, now, {Due})[k].orderingID)
  {
    var left := AddBack(Select(q, now, {Waiting}), Select(q, now, {Due})[k + 1..]);
    var exp' := Select(Rebase(left, now), now', {Due});
    var k' := FirstMatch(exp', now', a');
    DueAt(Rebase(left, now), now', k', None);
    RebaseAt(left, now);
    var i :| 0 <= i < |left| && Rebase(left, now)[i] == exp'[k'];
    LiveBehind(q, now, k, tolerance, i);
  }

  /** What a match leaves behind alive has a first notification at its deadline before it. */
  lemma LiveBehind(q: seq<Expected>, now: Time, k: nat, tolerance: Duration, i: nat)
    requires Ordered(q) && Scheduled(q) && Swept(q, now)
    requires Spaced(q, tolerance) && tolerance + 2 * MAX_RTT <= RESEND_DELAY
    requires k < |Select(q, now, {Due})|
    requires i < |AddBack(Select(q, now, {Waiting}), Select(q, now, {Due})[k + 1..])|
    requires var left := AddBack(Select(q, now, {Waiting}), Select(q, now, {Due})[k + 1..]);
      && |Rebase(left, now)| == |left| && left[i].orderingID <= Select(q, now, {Due})[k].orderingID
      && !Rebase(left, now)[i].ShouldBeIgnored()
    ensures FirstAtDeadline(q, now, Select(q, now, {Due})[k].orderingID)
  {
    var left := AddBack(Select(q, now, {Waiting}), Select(q, now, {Due})[k + 1..]);
    LeftBehindDies(q, now, k, tolerance, i);
    if left[i].resend {
      var n := Lead(left);
      assert left[n].orderingID <= left[i].orderingID by {
        AfterMatch(q, now, k);
      }
      LeftBehindDies(q, now, k, tolerance, n);
    }
  }

  /** A candidate that would match is not passed over for a later one. */
  lemma FirstMatchUpTo(exp: seq<Expected>, now: Time, a: Alert, ea: Expected)
    requires Ordered(exp) && ea in exp && ea.Matches(now, a) == Matched
    ensures FirstMatch(exp, now, a) < |exp| && exp[FirstMatch(exp, now, a)].orderingID <= ea.orderingID
  {
    var i :| 0 <= i < |exp| && exp[i] == ea;
    assert FirstMatch(exp, now, a) <= i;
  }

  lemma BreakTo(q: seq<Expected>, now: Time, k: nat, ea: Expected, now': Time, a': Alert)
    requires Ordered(q) && Scheduled(q) && Swept(q, now)
    requires k < |Select(q, now, {Due})|
    requires ea in q && !ea.resend && ea.orderingID < Select(q, now, {Due})[k].orderingID && ea.Deadline() == now
    requires ea.Matches(now', a') == Matched
    ensures MatchesEarlier(Rebase(AddBack(Select(q, now, {Waiting}), Select(q, now, {Due})[k + 1..]), now), now', a',
                           Select(q, now, {Due})[k].orderingID)
  {
    var left := AddBack(Select(q, now, {Waiting}), Select(q, now, {Due})[k + 1..]);
    AfterMatch(q, now, k);
    assert FateOf(ea, now) == Waiting && ea in left;
    RebaseKeeps(left, now, ea);
    RebaseScheduled(left, now);
    MatchesExactly(ea, now', a');
    SelectIn(Rebase(left, now), now', {Due});
    SelectOrdered(Rebase(left, now), now', {Due});
    FirstMatchUpTo(Select(Rebase(left, now), now', {Due}), now', a', ea);
  }

  lemma RebaseKeeps(q: seq<Expected>, now: Time, ea: Expected)
    requires ea in q && !ea.resend
    ensures ea in Rebase(q, now)
  {
    RebaseAt(q, now);
    var i :| 0 <= i < |q| && q[i] == ea;
    assert Rebase(q, now)[i] == ea;
  }

  /** Exactly when the order can still be broken after a match: when a first notification before it was
      at its very deadline. (By `RunRising` only an alert that is stamped earlier can then do it.) */
  lemma BreakableExactly(s: Series, now: Time, a: Alert, k: nat, tolerance: Duration)
    requires Ordered(s.queue) && Scheduled(s.queue) && Swept(s.queue, now)
    requires Spaced(s.queue, tolerance) && tolerance + 2 * MAX_RTT <= RESEND_DELAY
    requires forall ea :: ea in s.queue ==> 0 <= ea.timeTolerance
    requires k == FirstMatch(Select(s.queue, now, {Due}), now, a) < |Select(s.queue, now, {Due})|
    ensures var id := Select(s.queue, now, {Due})[k].orderingID;
      (exists now', a' :: MatchesEarlier(Receive(s, now, a).queue, now', a', id)) <==> FirstAtDeadline(s.queue, now, id)
  {
    var exp := Select(s.queue, now, {Due});
    var left := Rebase(AddBack(Select(s.queue, now, {Waiting}), exp[k + 1..]), now);
    MatchLeaves(s, now, a, exp, left, k);
    if now', a' :| MatchesEarlier(left, now', a', exp[k].orderingID) {
      BreakFrom(s.queue, now, k, tolerance, now', a');
    }
    if ea :| ea in s.queue && !ea.resend && ea.orderingID < exp[k].orderingID && ea.Deadline() == now {
      var a' := Alert(ea.alert.labels, ea.alert.annotations, ZERO_TIME, ZERO_TIME, NoURL);
      MatchesExactly(ea, ea.ts + 1, a');
      BreakTo(s.queue, now, k, ea, ea.ts + 1, a');
    }
  }

  /** The clock does not run backwards. */
  ghost predicate Forward(events: seq<Event>) {
    forall i, j :: 0 <= i < j < |events| ==> events[i].now <= events[j].now
  }

  lemma {:induction false} BarReached(s: Series, id: LabelSet, events: seq<Event>)
    ensures var bar := Bar(s, id, events);
      bar.Some? ==> exists i :: 0 <= i < |events| && events[i].now == bar.value
  {
    if events == [] {
    } else {
      var before := events[..|events| - 1];
      BarReached(s, id, before);
      assert forall i :: 0 <= i < |before| ==> before[i] == events[i];
    }
  }

  lemma {:induction false} ForwardNeverBack(s: Series, id: LabelSet, events: seq<Event>)
    requires Forward(events)
    ensures NeverBack(s, id, events)
  {
    if events == [] {
    } else {
      var before := events[..|events| - 1];
      ForwardNeverBack(s, id, before);
      BarReached(s, id, before);
      assert forall i :: 0 <= i < |before| ==> before[i] == events[i];
    }
  }

  lemma {:induction false} OffDeadlineNeverBack(s: Series, id: LabelSet, events: seq<Event>)
    requires RunOffDeadline(s, id, events)
    ensures NeverBack(s, id, events) && Bar(s, id, events) == None
  {
    if events == [] {
    } else {
      OffDeadlineNeverBack(s, id, events[..|events| - 1]);
    }
  }
}
