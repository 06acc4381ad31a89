/** No false alarm: an alert generator that follows the specification is never blamed for the
    alerts it lists (`allPossibleStates` and `expAlerts` in cases/case_*.go). */
module StateOracle {
  import opened Labels
  import opened ExpectedAlert
  import opened AlertCompare
  import opened Options
  import opened CaseLabels
  import opened CaseTables
  import opened CaseSamples
  import opened Automaton

  // Seconds, as the windows are written in.
  const RW: int := 15
  const GI: int := 30

  /** `ts`, in milliseconds, is in (start, end], with time for a late sample to arrive. */
  predicate Between(ts: int, start: int, end: int) {
    start * 1000 < ts <= (end + 10) * 1000
  }

  /** The instant a relative timestamp in milliseconds stands for. */
  function Moment(ts: int): Time {
    ts * MILLISECOND
  }

  /** Appends an alternative when it is possible. */
  function When(possible: bool, alternative: seq<ApiAlert>): seq<seq<ApiAlert>> {
    if possible then [alternative] else []
  }

  function StateName(s: RuleState): string
    requires s.Active?
  {
    if s.firing then "firing" else "pending"
  }

  /** How the API lists an alert in state `s`. */
  function Listed(labels: LabelSet, annotations: LabelSet, zeroTime: int, s: RuleState): seq<ApiAlert> {
    if s.Inactive? then []
    else [ApiAlert(labels, annotations, StateName(s), Some(s.value), Some(Moment(zeroTime) + s.activeAt))]
  }

  function Exp(labels: LabelSet, annotations: LabelSet, state: string, value: real, zeroTime: int,
               sample: nat): ApiAlert
  {
    ApiAlert(labels, annotations, state, Some(value), Some(Moment(zeroTime + sample * RW * 1000)))
  }

  lemma AcceptedIn(alternatives: seq<seq<ApiAlert>>, alternative: seq<ApiAlert>, listing: seq<ApiAlert>,
                   act: seq<ApiAlert>)
    requires alternative in alternatives && DistinctLabels(alternative)
    requires AllFit(alternative, listing, GROUP_INTERVAL) && multiset(act) == multiset(listing)
    ensures Accepted(alternatives, act, GROUP_INTERVAL)
  {
    FitsInOrder(alternative, listing, GROUP_INTERVAL);
    SameAlertsOf(alternative, alternative, listing, act, GROUP_INTERVAL);
    var k :| 0 <= k < |alternatives| && alternatives[k] == alternative;
    assert Accepts(alternatives[k], act, GROUP_INTERVAL);
  }

  /** An alert active for less than 40 seconds after its sample is in the accepted range. */
  lemma ListedFits(labels: LabelSet, annotations: LabelSet, zeroTime: int, sample: nat, s: RuleState)
    requires s.Active? && At(0, sample) < s.activeAt < At(0, sample) + GROUP_INTERVAL + 2 * MAX_RTT
    ensures AllFit([Exp(labels, annotations, StateName(s), s.value, zeroTime, sample)],
                   Listed(labels, annotations, zeroTime, s), GROUP_INTERVAL)
  {
  }

  lemma Holds()
    ensures RoundUp(0) == 0 && RoundUp(RW_INTERVAL) == GROUP_INTERVAL
    ensures RoundUp(12 * RW_INTERVAL) == At(0, 12) && RoundUp(24 * RW_INTERVAL) == At(0, 24)
  {
  }

  /** Active from `sample` on, and firing since the `for` duration is over. */
  ghost predicate ActiveFor(s: RuleState, sample: nat, x: Time, hold: Duration) {
    && s.Active?
    && At(0, sample) < s.activeAt < At(0, sample) + GROUP_INTERVAL + 2 * MAX_RTT
    && (s.firing <==> s.activeAt + hold <= x)
  }

  /** An evaluation less than a group interval before `x` saw `n` of at least `count` samples. */
  ghost predicate SeenBy(n: nat, count: nat, x: Time) {
    && (n > 0 ==> At(0, n - 1) < x)
    && (n < count ==> x < At(0, n) + GROUP_INTERVAL + 2 * MAX_RTT)
  }

  lemma SeenByAt(t: Timing, count: nat, x: Time)
    requires t.Prompt() && count <= |t.delivered|
    ensures SeenBy(t.Seen(x), count, x)
  {
    SeenWhen(t, x);
  }

  // ---- PendingAndResolved_AlwaysInactive

  datatype PrStates = PrStates(inactive: bool, pending: bool)

  function PrPossibleStates(ts: int): PrStates {
    PrStates(
      Between(ts, 0, 8 * RW + GI) || Between(ts, 19 * RW, 240 * RW),
      Between(ts, 8 * RW - 1, 19 * RW + GI))
  }

  function PrExpAlerts(tc: PrCase, zeroTime: int, ts: int): seq<seq<ApiAlert>> {
    var can := PrPossibleStates(ts - zeroTime);
    When(can.inactive, [])
    + When(can.pending, [Exp(tc.labels, tc.annotations, "pending", 11.0, zeroTime, 8)])
  }

  function PrRule(threshold: real): Rule {
    Rule(Values(PR_SAMPLES), threshold, 12 * RW_INTERVAL)
  }

  /** The alerts of both rules of the group. */
  function PrListing(tc: PrCase, inactiveLabels: LabelSet, inactiveAnnotations: LabelSet, t: Timing, zeroTime: int,
                     x: Time): seq<ApiAlert>
  {
    Listed(tc.labels, tc.annotations, zeroTime, StateAt(PrRule(10.0), t, x))
    + Listed(inactiveLabels, inactiveAnnotations, zeroTime, StateAt(PrRule(99.0), t, x))
  }

  lemma PrEpisode()
    ensures Episode(PrRule(10.0), 8, 19) && |PrRule(10.0).values| == PR_SAMPLE_COUNT
    ensures forall k :: 0 <= k < PR_SAMPLE_COUNT ==> PrRule(10.0).values[k] == PrLevel(k)
  {
    PrLevels(0);
    forall k | 0 <= k < PR_SAMPLE_COUNT ensures Values(PR_SAMPLES)[k] == PrLevel(k) {
      PrLevels(k);
    }
  }

  /** The first rule is resolved before it would fire. */
  lemma PrStateAt(t: Timing, x: Time)
    requires t.Prompt() && PR_SAMPLE_COUNT <= |t.delivered|
    ensures var s, n := StateAt(PrRule(10.0), t, x), t.Seen(x);
      if 8 < n <= 19 then ActiveFor(s, 8, x, At(0, 12)) && !s.firing && s.value == 11.0 else s == Inactive
  {
    PrEpisode();
    SeenByAt(t, PR_SAMPLE_COUNT, x);
    Holds();
    if 8 < t.Seen(x) <= 19 {
      var at := Window(PrRule(10.0), t, 8, 19, x);
      PrStaysPending(t.Seen(x), at);
    } else {
      Quiet(PrRule(10.0), t, x);
    }
  }

  /** The `for` duration is never over before a sample resolves the alert. */
  lemma PrStaysPending(n: nat, at: Time)
    requires n <= 19 && At(0, 8) < at
    ensures At(0, n) + 2 * MAX_RTT <= at + At(0, 12)
  {
  }

  lemma PrNeverOver(t: Timing, x: Time)
    ensures StateAt(PrRule(99.0), t, x) == Inactive
  {
    PrEpisode();
    Quiet(PrRule(99.0), t, x);
  }

  lemma PrPossible(n: nat, ts: int)
    requires n > 0 ==> At(0, n - 1) < Moment(ts)
    requires n < PR_SAMPLE_COUNT ==> Moment(ts) < At(0, n) + GROUP_INTERVAL + 2 * MAX_RTT
    requires 0 < ts <= PR_TEST_SAMPLES * RW * 1000
    ensures !(8 < n <= 19) ==> PrPossibleStates(ts).inactive
    ensures 8 < n <= 19 ==> PrPossibleStates(ts).pending
  {
  }

  /** `act` lists, in any order, the alerts of a conforming generator at `ts`, until the test ends. */
  ghost predicate PrConforms(tc: PrCase, inactiveLabels: LabelSet, inactiveAnnotations: LabelSet, t: Timing,
                             zeroTime: int, ts: int, act: seq<ApiAlert>)
  {
    && t.Prompt() && PR_SAMPLE_COUNT <= |t.delivered|
    && zeroTime < ts <= zeroTime + PR_TEST_SAMPLES * RW * 1000
    && multiset(act) == multiset(
         PrListing(tc, inactiveLabels, inactiveAnnotations, t, zeroTime, Moment(ts - zeroTime)))
  }

  lemma PrNoFalseAlarm(tc: PrCase, inactiveLabels: LabelSet, inactiveAnnotations: LabelSet, t: Timing,
                       zeroTime: int, ts: int, act: seq<ApiAlert>)
    requires PrConforms(tc, inactiveLabels, inactiveAnnotations, t, zeroTime, ts, act)
    ensures Accepted(PrExpAlerts(tc, zeroTime, ts), act, GROUP_INTERVAL)
  {
    var x := Moment(ts - zeroTime);
    var s := StateAt(PrRule(10.0), t, x);
    PrStateAt(t, x);
    PrNeverOver(t, x);
    SeenWhen(t, x);
    PrPossible(t.Seen(x), ts - zeroTime);
    var listing := Listed(tc.labels, tc.annotations, zeroTime, s);
    assert PrListing(tc, inactiveLabels, inactiveAnnotations, t, zeroTime, x) == listing;
    if s.Active? {
      ListedFits(tc.labels, tc.annotations, zeroTime, 8, s);
      AcceptedIn(PrExpAlerts(tc, zeroTime, ts), [Exp(tc.labels, tc.annotations, "pending", 11.0, zeroTime, 8)],
                 listing, act);
    } else {
      AcceptedIn(PrExpAlerts(tc, zeroTime, ts), [], listing, act);
    }
  }

  // ---- PendingAndFiringAndResolved

  datatype PfrStates = PfrStates(
    inactive: bool,
    pending1: bool, pending2: bool,
    firing1: bool, firing2: bool,
    pendingAgain: bool, firingAgain: bool)

  function PfrPossibleStates(ts: int): PfrStates {
    PfrStates(
      Between(ts, 0, 8 * RW + GI) || Between(ts, 69 * RW - 1, 89 * RW + GI) || Between(ts, 134 * RW, 240 * RW),
      Between(ts, 8 * RW - 1, 21 * RW + GI),
      Between(ts, 21 * RW - 1, 32 * RW + GI),
      Between(ts, 32 * RW - 1, 53 * RW + GI),
      Between(ts, 53 * RW - 1, 69 * RW + GI),
      Between(ts, 89 * RW - 1, 113 * RW + GI),
      Between(ts, 113 * RW - 1, 134 * RW + GI))
  }

  function PfrExpAlerts(tc: PfrCase, zeroTime: int, ts: int): seq<seq<ApiAlert>> {
    var can := PfrPossibleStates(ts - zeroTime);
    When(can.inactive, [])
    + When(can.pending1, [Exp(tc.labels, tc.eleven, "pending", 11.0, zeroTime, 8)])
    + When(can.pending2 || can.pendingAgain,
           [Exp(tc.labels, tc.fifteen, "pending", 15.0, zeroTime, if can.pendingAgain then 89 else 8)])
    + When(can.firing1 || can.firingAgain,
           [Exp(tc.labels, tc.fifteen, "firing", 15.0, zeroTime, if can.firingAgain then 89 else 8)])
    + When(can.firing2, [Exp(tc.labels, tc.nineteen, "firing", 19.0, zeroTime, 8)])
  }

  function PfrRule(): Rule {
    Rule(Values(PFR_SAMPLES), 10.0, 24 * RW_INTERVAL)
  }

  /** What the annotation template expands to, which shows the value. */
  function PfrAnnotationsOf(tc: PfrCase, value: real): LabelSet {
    if value == 11.0 then tc.eleven else if value == 15.0 then tc.fifteen else tc.nineteen
  }

  function PfrListing(tc: PfrCase, t: Timing, zeroTime: int, x: Time): seq<ApiAlert> {
    var s := StateAt(PfrRule(), t, x);
    if s.Inactive? then [] else Listed(tc.labels, PfrAnnotationsOf(tc, s.value), zeroTime, s)
  }

  lemma PfrEpisodes()
    ensures |PfrRule().values| == PFR_SAMPLE_COUNT
    ensures forall k :: 0 <= k < PFR_SAMPLE_COUNT ==> PfrRule().values[k] == PfrLevel(k)
    ensures Episode(PfrRule(), 8, 69) && Episode(PfrRule(), 89, 134)
  {
    PfrLevels(0);
    forall k | 0 <= k < PFR_SAMPLE_COUNT ensures Values(PFR_SAMPLES)[k] == PfrLevel(k) {
      PfrLevels(k);
    }
  }

  lemma PfrStateAt(t: Timing, x: Time)
    requires t.Prompt() && PFR_SAMPLE_COUNT <= |t.delivered|
    ensures var s, n := StateAt(PfrRule(), t, x), t.Seen(x);
      if 8 < n <= 69 then ActiveFor(s, 8, x, At(0, 24)) && s.value == PfrLevel(n - 1)
      else if 89 < n <= 134 then ActiveFor(s, 89, x, At(0, 24)) && s.value == PfrLevel(n - 1)
      else s == Inactive
  {
    PfrEpisodes();
    SeenWhen(t, x);
    Holds();
    var n := t.Seen(x);
    if 8 < n <= 69 {
      var at := Window(PfrRule(), t, 8, 69, x);
    } else if 89 < n <= 134 {
      var at := Window(PfrRule(), t, 89, 134, x);
    } else {
      PfrQuiet(n);
      Quiet(PfrRule(), t, x);
    }
  }

  lemma PfrQuiet(n: nat)
    requires n <= 8 || 69 < n <= 89 || 134 < n
    ensures PfrRule().Result(n) == None
  {
    PfrEpisodes();
  }

  lemma PfrIdle(n: nat, ts: int)
    requires n <= 8 || 69 < n <= 89 || 134 < n
    requires n > 0 ==> At(0, n - 1) < Moment(ts)
    requires n < PFR_SAMPLE_COUNT ==> Moment(ts) < At(0, n) + GROUP_INTERVAL + 2 * MAX_RTT
    requires 0 < ts <= PFR_SAMPLE_COUNT * RW * 1000
    ensures PfrPossibleStates(ts).inactive
  {
  }

  /** `act` lists, in any order, the alerts of a conforming generator at `ts`, until the test ends. */
  ghost predicate PfrConforms(tc: PfrCase, t: Timing, zeroTime: int, ts: int, act: seq<ApiAlert>) {
    && t.Prompt() && PFR_SAMPLE_COUNT <= |t.delivered|
    && zeroTime < ts <= zeroTime + PFR_SAMPLE_COUNT * RW * 1000
    && multiset(act) == multiset(PfrListing(tc, t, zeroTime, Moment(ts - zeroTime)))
  }

  lemma PfrNoFalseAlarm(tc: PfrCase, t: Timing, zeroTime: int, ts: int, act: seq<ApiAlert>)
    requires PfrConforms(tc, t, zeroTime, ts, act)
    ensures Accepted(PfrExpAlerts(tc, zeroTime, ts), act, GROUP_INTERVAL)
  {
    var x := Moment(ts - zeroTime);
    var s, n := StateAt(PfrRule(), t, x), t.Seen(x);
    if s.Inactive? {
      PfrStateAt(t, x);
      SeenWhen(t, x);
      PfrIdle(n, ts - zeroTime);
      AcceptedIn(PfrExpAlerts(tc, zeroTime, ts), [], [], act);
    } else {
      PfrActive(tc, t, zeroTime, ts, act);
    }
  }

  lemma PfrActive(tc: PfrCase, t: Timing, zeroTime: int, ts: int, act: seq<ApiAlert>)
    requires t.Prompt() && PFR_SAMPLE_COUNT <= |t.delivered|
    requires StateAt(PfrRule(), t, Moment(ts - zeroTime)).Active?
    requires multiset(act) == multiset(PfrListing(tc, t, zeroTime, Moment(ts - zeroTime)))
    ensures Accepted(PfrExpAlerts(tc, zeroTime, ts), act, GROUP_INTERVAL)
  {
    var x := Moment(ts - zeroTime);
    var s, n := StateAt(PfrRule(), t, x), t.Seen(x);
    PfrStateAt(t, x);
    SeenWhen(t, x);
    var sample := if n <= 69 then 8 else 89;
    var annotations := PfrAnnotationsOf(tc, s.value);
    ListedFits(tc.labels, annotations, zeroTime, sample, s);
    PfrAlternative(tc, zeroTime, ts, s, n);
    AcceptedIn(PfrExpAlerts(tc, zeroTime, ts), [Exp(tc.labels, annotations, StateName(s), s.value, zeroTime, sample)],
               Listed(tc.labels, annotations, zeroTime, s), act);
  }

  lemma PfrAlternative(tc: PfrCase, zeroTime: int, ts: int, s: RuleState, n: nat)
    requires 8 < n <= 69 || 89 < n <= 134
    requires var x := Moment(ts - zeroTime);
      && At(0, n - 1) < x < At(0, n) + GROUP_INTERVAL + 2 * MAX_RTT
      && ActiveFor(s, if n <= 69 then 8 else 89, x, At(0, 24)) && s.value == PfrLevel(n - 1)
    ensures [Exp(tc.labels, PfrAnnotationsOf(tc, s.value), StateName(s), s.value, zeroTime, if n <= 69 then 8 else 89)]
      in PfrExpAlerts(tc, zeroTime, ts)
  {
    var can := PfrPossibleStates(ts - zeroTime);
    if n <= 69 {
      assert !can.pendingAgain && !can.firingAgain;
      if n <= 21 {
        assert can.pending1 && !s.firing;
      } else if n <= 53 {
        assert if s.firing then can.firing1 else can.pending2;
      } else {
        assert can.firing2 && s.firing;
      }
    } else {
      assert if s.firing then can.firingAgain else can.pendingAgain;
    }
  }

  // ---- ZeroFor_SmallFor

  datatype ZeroStates = ZeroStates(inactive: bool, zfFiring: bool, zfFiringAgain: bool, sfPending: bool, sfFiring: bool)

  function ZeroPossibleStates(ts: int): ZeroStates {
    ZeroStates(
      Between(ts, 0, 8 * RW + GI) || Between(ts, 21 * RW - 1, 93 * RW + GI) || Between(ts, 106 * RW, 240 * RW),
      Between(ts, 8 * RW - 1, 21 * RW + GI),
      Between(ts, 93 * RW - 1, 106 * RW + GI),
      Between(ts, 8 * RW - 1, 8 * RW + 2 * GI),
      Between(ts, 8 * RW + GI, 21 * RW + GI))
  }

  function ZeroExpAlerts(tc: ZeroCase, zeroTime: int, ts: int): seq<seq<ApiAlert>> {
    var can := ZeroPossibleStates(ts - zeroTime);
    var zf := Exp(tc.zf, tc.zfAnnotations, "firing", 15.0, zeroTime, 8);
    When(can.inactive, [])
    + When(can.zfFiring && can.sfPending, [zf, Exp(tc.sf, tc.sfAnnotations, "pending", 15.0, zeroTime, 8)])
    + When(can.zfFiring && can.sfFiring, [zf, Exp(tc.sf, tc.sfAnnotations, "firing", 15.0, zeroTime, 8)])
    + When(can.zfFiringAgain, [Exp(tc.zf, tc.zfAnnotationsAgain, "firing", 11.0, zeroTime, 93)])
  }

  function ZfRule(): Rule {
    Rule(Values(ZERO_SAMPLES), 10.0, 0)
  }

  function SfRule(): Rule {
    Rule(Values(ZERO_SAMPLES), 13.0, RW_INTERVAL)
  }

  /** When the samples of each series arrive: those of the two rules, and the three that the
      annotation's template queries. */
  datatype ZeroTimings = ZeroTimings(zf: Timing, sf: Timing, templates: seq<Timing>)
  {
    /** One group, so one evaluation grid; each series is delivered on its own. */
    ghost predicate Prompt() {
      && zf.Prompt() && sf.Prompt() && sf.phase == zf.phase
      && ZERO_SAMPLE_COUNT <= |zf.delivered| && ZERO_SAMPLE_COUNT <= |sf.delivered|
      && |templates| == 3
      && forall i :: 0 <= i < 3 ==>
           templates[i].Prompt() && templates[i].phase == zf.phase && ZERO_SAMPLE_COUNT <= |templates[i].delivered|
    }
  }

  /** After `n` samples the i-th template series shows `factor` times its number. */
  predicate Shows(i: nat, n: nat, factor: int) {
    var template := Values(TemplateSamples(i));
    0 < n <= |template| && template[n - 1] == (factor * i) as real
  }

  /** What the annotation expands to; `mixed` is its text while the template series disagree. */
  function ZfAnnotationsOf(tc: ZeroCase, templates: seq<Timing>, x: Time, mixed: LabelSet): LabelSet {
    if forall i :: 0 <= i < |templates| ==> Shows(i + 1, templates[i].Seen(x), 1) then tc.zfAnnotations
    else if forall i :: 0 <= i < |templates| ==> Shows(i + 1, templates[i].Seen(x), 2) then tc.zfAnnotationsAgain
    else mixed
  }

  function ZeroListing(tc: ZeroCase, t: ZeroTimings, mixed: LabelSet, zeroTime: int, x: Time): seq<ApiAlert> {
    ZeroListed(tc, ZfAnnotationsOf(tc, t.templates, x, mixed), zeroTime,
               StateAt(ZfRule(), t.zf, x), StateAt(SfRule(), t.sf, x))
  }

  lemma ZeroEpisodes()
    ensures |Values(ZERO_SAMPLES)| == ZERO_SAMPLE_COUNT
    ensures forall k :: 0 <= k < ZERO_SAMPLE_COUNT ==> Values(ZERO_SAMPLES)[k] == ZeroLevel(k)
    ensures Episode(ZfRule(), 8, 21) && Episode(ZfRule(), 93, 106) && Episode(SfRule(), 8, 21)
  {
    ZeroLevels(0);
    forall k | 0 <= k < ZERO_SAMPLE_COUNT ensures Values(ZERO_SAMPLES)[k] == ZeroLevel(k) {
      ZeroLevels(k);
    }
  }

  /** The first rule's state at `x`, when its last evaluation saw `n` samples. */
  ghost predicate ZfIs(n: nat, x: Time, s: RuleState) {
    if 8 < n <= 21 then ActiveFor(s, 8, x, 0) && s.firing && s.value == 15.0
    else if 93 < n <= 106 then ActiveFor(s, 93, x, 0) && s.firing && s.value == 11.0
    else s == Inactive
  }

  /** The same of the second rule. */
  ghost predicate SfIs(n: nat, x: Time, s: RuleState) {
    if 8 < n <= 21 then ActiveFor(s, 8, x, GROUP_INTERVAL) && s.value == 15.0 else s == Inactive
  }

  lemma ZfStateAt(t: Timing, x: Time)
    requires t.Prompt() && ZERO_SAMPLE_COUNT <= |t.delivered|
    ensures ZfIs(t.Seen(x), x, StateAt(ZfRule(), t, x))
  {
    ZeroEpisodes();
    SeenWhen(t, x);
    Holds();
    var n := t.Seen(x);
    if 8 < n <= 21 {
      var at := Window(ZfRule(), t, 8, 21, x);
      FiresAtOnce(ZfRule(), t, x);
    } else if 93 < n <= 106 {
      var at := Window(ZfRule(), t, 93, 106, x);
      FiresAtOnce(ZfRule(), t, x);
    } else {
      Quiet(ZfRule(), t, x);
    }
  }

  /** Without a `for` duration an alert is never pending. */
  lemma {:induction false} NeverPending(rule: Rule, t: Timing, j: nat)
    requires rule.hold == 0
    ensures var s := After(rule, t, j); s.Active? ==> s.firing && s.activeAt <= t.Instant(j - 1)
  {
    if j == 0 {
    } else {
      NeverPending(rule, t, j - 1);
    }
  }

  lemma FiresAtOnce(rule: Rule, t: Timing, x: Time)
    requires rule.hold == 0
    ensures var s := StateAt(rule, t, x); s.Active? ==> s.firing
  {
    NeverPending(rule, t, t.Evaluations(x));
  }

  lemma SfStateAt(t: Timing, x: Time)
    requires t.Prompt() && ZERO_SAMPLE_COUNT <= |t.delivered|
    ensures SfIs(t.Seen(x), x, StateAt(SfRule(), t, x))
  {
    ZeroEpisodes();
    SeenWhen(t, x);
    Holds();
    if 8 < t.Seen(x) <= 21 {
      var at := Window(SfRule(), t, 8, 21, x);
    } else {
      Quiet(SfRule(), t, x);
    }
  }

  lemma ZeroPossible(n: nat, ts: int, s: RuleState)
    requires SeenBy(n, ZERO_SAMPLE_COUNT, Moment(ts))
    requires 0 < ts <= ZERO_TEST_SAMPLES * RW * 1000
    ensures n <= 8 || 21 < n <= 93 || 106 < n ==> ZeroPossibleStates(ts).inactive
    ensures 8 < n <= 21 ==> ZeroPossibleStates(ts).zfFiring
    ensures 93 < n <= 106 ==> ZeroPossibleStates(ts).zfFiringAgain
    ensures 8 < n <= 21 && ActiveFor(s, 8, Moment(ts), GROUP_INTERVAL) ==>
      if s.firing then ZeroPossibleStates(ts).sfFiring else ZeroPossibleStates(ts).sfPending
  {
  }

  /** Whatever the template series have in common with the rule's own: their values change long
      after the first firing period and long before the second. */
  lemma ZfAnnotationsAre(tc: ZeroCase, t: ZeroTimings, x: Time, mixed: LabelSet)
    requires t.Prompt()
    ensures 8 < t.zf.Seen(x) <= 21 ==> ZfAnnotationsOf(tc, t.templates, x, mixed) == tc.zfAnnotations
    ensures 93 < t.zf.Seen(x) <= 106 ==> ZfAnnotationsOf(tc, t.templates, x, mixed) == tc.zfAnnotationsAgain
  {
    var n := t.zf.Seen(x);
    if 8 < n <= 21 || 93 < n <= 106 {
      forall i | 0 <= i < 3 ensures Shows(i + 1, t.templates[i].Seen(x), if n <= 21 then 1 else 2) {
        TemplateSeen(t.zf, t.templates[i], x);
        TemplateShows(i + 1, t.templates[i].Seen(x));
      }
      assert n > 21 ==> !Shows(1, t.templates[0].Seen(x), 1);
    }
  }

  /** How far a template series can be when the rule's own series is in a firing period. */
  lemma TemplateSeen(t: Timing, v: Timing, x: Time)
    requires t.Prompt() && v.Prompt() && ZERO_SAMPLE_COUNT <= |t.delivered| && ZERO_SAMPLE_COUNT <= |v.delivered|
    ensures 8 < t.Seen(x) <= 21 ==> 5 < v.Seen(x) <= 28
    ensures 93 < t.Seen(x) <= 106 ==> 28 < v.Seen(x) <= 229
  {
    SeenByAt(t, ZERO_SAMPLE_COUNT, x);
    SeenByAt(v, ZERO_SAMPLE_COUNT, x);
    NearSeen(t.Seen(x), v.Seen(x), x);
  }

  lemma NearSeen(n: nat, m: nat, x: Time)
    requires SeenBy(n, ZERO_SAMPLE_COUNT, x) && SeenBy(m, ZERO_SAMPLE_COUNT, x)
    ensures 8 < n <= 21 ==> 5 < m <= 28
    ensures 93 < n <= 106 ==> 28 < m <= 229
  {
  }

  lemma TemplateShows(i: nat, n: nat)
    requires i > 0
    ensures 0 < n <= 28 ==> Shows(i, n, 1)
    ensures 28 < n <= 229 ==> Shows(i, n, 2) && !Shows(i, n, 1)
  {
    if 0 < n <= 229 {
      TemplateLevels(i, n - 1);
    }
  }

  lemma ZeroBoth(tc: ZeroCase, zeroTime: int, ts: int, zs: RuleState, ss: RuleState, act: seq<ApiAlert>)
    requires tc.Distinct() && ZeroPossibleStates(ts - zeroTime).zfFiring
    requires ActiveFor(zs, 8, Moment(ts - zeroTime), 0) && zs.firing && zs.value == 15.0
    requires ActiveFor(ss, 8, Moment(ts - zeroTime), GROUP_INTERVAL) && ss.value == 15.0
    requires if ss.firing then ZeroPossibleStates(ts - zeroTime).sfFiring
             else ZeroPossibleStates(ts - zeroTime).sfPending
    requires multiset(act) == multiset(
      Listed(tc.zf, tc.zfAnnotations, zeroTime, zs) + Listed(tc.sf, tc.sfAnnotations, zeroTime, ss))
    ensures Accepted(ZeroExpAlerts(tc, zeroTime, ts), act, GROUP_INTERVAL)
  {
    ListedFits(tc.zf, tc.zfAnnotations, zeroTime, 8, zs);
    ListedFits(tc.sf, tc.sfAnnotations, zeroTime, 8, ss);
    AcceptedIn(ZeroExpAlerts(tc, zeroTime, ts),
               [Exp(tc.zf, tc.zfAnnotations, "firing", 15.0, zeroTime, 8),
                Exp(tc.sf, tc.sfAnnotations, StateName(ss), 15.0, zeroTime, 8)],
               Listed(tc.zf, tc.zfAnnotations, zeroTime, zs) + Listed(tc.sf, tc.sfAnnotations, zeroTime, ss), act);
  }

  /** `act` lists, in any order, the alerts of a conforming generator at `ts`, until the test ends. */
  ghost predicate ZeroConforms(tc: ZeroCase, t: ZeroTimings, mixed: LabelSet, zeroTime: int, ts: int,
                               act: seq<ApiAlert>)
  {
    && t.Prompt()
    && zeroTime < ts <= zeroTime + ZERO_TEST_SAMPLES * RW * 1000
    && multiset(act) == multiset(ZeroListing(tc, t, mixed, zeroTime, Moment(ts - zeroTime)))
  }

  /** The rule has seen the samples of the first firing period begin, and not yet end. */
  predicate InFirstPeriod(t: Timing, ts: int) {
    8 < t.Seen(Moment(ts)) <= 21
  }

  function ZeroListed(tc: ZeroCase, annotations: LabelSet, zeroTime: int, zs: RuleState, ss: RuleState): seq<ApiAlert> {
    Listed(tc.zf, annotations, zeroTime, zs) + Listed(tc.sf, tc.sfAnnotations, zeroTime, ss)
  }

  /** What a conforming generator lists, when the two rules last saw `n` and `m` samples. */
  ghost predicate ZeroObserved(tc: ZeroCase, zeroTime: int, ts: int, n: nat, m: nat, annotations: LabelSet,
                               zs: RuleState, ss: RuleState)
  {
    && 0 < ts - zeroTime <= ZERO_TEST_SAMPLES * RW * 1000
    && SeenBy(n, ZERO_SAMPLE_COUNT, Moment(ts - zeroTime)) && SeenBy(m, ZERO_SAMPLE_COUNT, Moment(ts - zeroTime))
    && ZfIs(n, Moment(ts - zeroTime), zs) && SfIs(m, Moment(ts - zeroTime), ss)
    && (8 < n <= 21 ==> annotations == tc.zfAnnotations)
    && (93 < n <= 106 ==> annotations == tc.zfAnnotationsAgain)
  }

  lemma ZeroAlike(tc: ZeroCase, zeroTime: int, ts: int, n: nat, m: nat, annotations: LabelSet,
                  zs: RuleState, ss: RuleState, act: seq<ApiAlert>)
    requires tc.Distinct() && ZeroObserved(tc, zeroTime, ts, n, m, annotations, zs, ss)
    requires multiset(act) == multiset(ZeroListed(tc, annotations, zeroTime, zs, ss))
    requires 8 < n <= 21 <==> 8 < m <= 21
    ensures Accepted(ZeroExpAlerts(tc, zeroTime, ts), act, GROUP_INTERVAL)
  {
    ZeroPossible(n, ts - zeroTime, zs);
    ZeroPossible(m, ts - zeroTime, ss);
    if 8 < n <= 21 {
      ZeroBoth(tc, zeroTime, ts, zs, ss, act);
    } else if 93 < n <= 106 {
      ZeroAgain(tc, zeroTime, ts, zs, act);
    } else {
      ZeroNone(tc, zeroTime, ts, act);
    }
  }

  lemma ZeroAgain(tc: ZeroCase, zeroTime: int, ts: int, zs: RuleState, act: seq<ApiAlert>)
    requires ZeroPossibleStates(ts - zeroTime).zfFiringAgain
    requires ActiveFor(zs, 93, Moment(ts - zeroTime), 0) && zs.firing && zs.value == 11.0
    requires multiset(act) == multiset(ZeroListed(tc, tc.zfAnnotationsAgain, zeroTime, zs, Inactive))
    ensures Accepted(ZeroExpAlerts(tc, zeroTime, ts), act, GROUP_INTERVAL)
  {
    var listing := Listed(tc.zf, tc.zfAnnotationsAgain, zeroTime, zs);
    assert ZeroListed(tc, tc.zfAnnotationsAgain, zeroTime, zs, Inactive) == listing;
    ListedFits(tc.zf, tc.zfAnnotationsAgain, zeroTime, 93, zs);
    AcceptedIn(ZeroExpAlerts(tc, zeroTime, ts),
               [Exp(tc.zf, tc.zfAnnotationsAgain, "firing", 11.0, zeroTime, 93)], listing, act);
  }

  lemma ZeroNone(tc: ZeroCase, zeroTime: int, ts: int, act: seq<ApiAlert>)
    requires ZeroPossibleStates(ts - zeroTime).inactive && multiset(act) == multiset{}
    ensures Accepted(ZeroExpAlerts(tc, zeroTime, ts), act, GROUP_INTERVAL)
  {
    assert ZeroExpAlerts(tc, zeroTime, ts)[0] == [];
    AcceptedIn(ZeroExpAlerts(tc, zeroTime, ts), [], [], act);
  }

  /** While only one of the two rules has seen the first period, just one alert is listed. */
  lemma ZeroApart(tc: ZeroCase, zeroTime: int, ts: int, n: nat, m: nat, annotations: LabelSet,
                  zs: RuleState, ss: RuleState, act: seq<ApiAlert>)
    requires ZeroObserved(tc, zeroTime, ts, n, m, annotations, zs, ss)
    requires multiset(act) == multiset(ZeroListed(tc, annotations, zeroTime, zs, ss))
    requires !(8 < n <= 21 <==> 8 < m <= 21)
    ensures !Accepted(ZeroExpAlerts(tc, zeroTime, ts), act, GROUP_INTERVAL)
  {
    OneOfTwo(tc, annotations, zeroTime, Moment(ts - zeroTime), n, m, zs, ss);
    SameSize(ZeroListed(tc, annotations, zeroTime, zs, ss), act);
    ZeroSizes(tc, zeroTime, ts);
    OnlyOneListed(ZeroExpAlerts(tc, zeroTime, ts), act);
  }

  lemma OneOfTwo(tc: ZeroCase, annotations: LabelSet, zeroTime: int, x: Time, n: nat, m: nat,
                 zs: RuleState, ss: RuleState)
    requires SeenBy(n, ZERO_SAMPLE_COUNT, x) && SeenBy(m, ZERO_SAMPLE_COUNT, x) && ZfIs(n, x, zs) && SfIs(m, x, ss)
    requires !(8 < n <= 21 <==> 8 < m <= 21)
    ensures x < At(0, 30) && |ZeroListed(tc, annotations, zeroTime, zs, ss)| == 1
  {
    assert n <= 93 && m <= 93;
  }

  lemma ZeroSizes(tc: ZeroCase, zeroTime: int, ts: int)
    requires Moment(ts - zeroTime) < At(0, 30)
    ensures var alternatives := ZeroExpAlerts(tc, zeroTime, ts);
      forall k :: 0 <= k < |alternatives| ==> |alternatives[k]| != 1
  {
    assert !ZeroPossibleStates(ts - zeroTime).zfFiringAgain;
  }

  lemma OnlyOneListed(alternatives: seq<seq<ApiAlert>>, act: seq<ApiAlert>)
    requires |act| == 1 && forall k :: 0 <= k < |alternatives| ==> |alternatives[k]| != 1
    ensures !Accepted(alternatives, act, GROUP_INTERVAL)
  {
    forall exp, pairs | Pairing(pairs, exp, act, GROUP_INTERVAL) ensures |exp| == 1 {
      PairsAt(pairs);
      assert |multiset(exp)| == |exp| && |multiset(act)| == |act|;
      assert |multiset(Firsts(pairs))| == |pairs| == |multiset(Seconds(pairs))|;
    }
  }

  /** However the series are delivered, each as promptly as promised: a generator that follows the
      specification is accepted if and only if its two rules are in the first firing period together. */
  lemma ZeroAcceptedExactly(tc: ZeroCase, t: ZeroTimings, mixed: LabelSet, zeroTime: int, ts: int, act: seq<ApiAlert>)
    requires tc.Distinct() && ZeroConforms(tc, t, mixed, zeroTime, ts, act)
    ensures Accepted(ZeroExpAlerts(tc, zeroTime, ts), act, GROUP_INTERVAL)
      <==> (InFirstPeriod(t.zf, ts - zeroTime) <==> InFirstPeriod(t.sf, ts - zeroTime))
  {
    var x := Moment(ts - zeroTime);
    var n, m, annotations := t.zf.Seen(x), t.sf.Seen(x), ZfAnnotationsOf(tc, t.templates, x, mixed);
    var zs, ss := StateAt(ZfRule(), t.zf, x), StateAt(SfRule(), t.sf, x);
    ZfStateAt(t.zf, x);
    SfStateAt(t.sf, x);
    SeenByAt(t.zf, ZERO_SAMPLE_COUNT, x);
    SeenByAt(t.sf, ZERO_SAMPLE_COUNT, x);
    ZfAnnotationsAre(tc, t, x, mixed);
    if 8 < n <= 21 <==> 8 < m <= 21 {
      ZeroAlike(tc, zeroTime, ts, n, m, annotations, zs, ss, act);
    } else {
      ZeroApart(tc, zeroTime, ts, n, m, annotations, zs, ss, act);
    }
  }

  /** No false alarm when the two series arrive together, as they do when the samples of one timestamp
      are written in one request. */
  lemma ZeroNoFalseAlarm(tc: ZeroCase, t: ZeroTimings, mixed: LabelSet, zeroTime: int, ts: int, act: seq<ApiAlert>)
    requires tc.Distinct() && ZeroConforms(tc, t, mixed, zeroTime, ts, act) && t.zf == t.sf
    ensures Accepted(ZeroExpAlerts(tc, zeroTime, ts), act, GROUP_INTERVAL)
  {
    ZeroAcceptedExactly(tc, t, mixed, zeroTime, ts, act);
  }

  // ---- NewAlerts_OrderCheck

  datatype OrderStates = OrderStates(
    r11Inactive: bool, r11Pending: bool, r11Firing: bool,
    r12Inactive: bool, r12Pending: bool, r12Firing: bool)

  /** The window of r12Firing ends with that of r11, later than r12 resolves. */
  function OrderPossibleStates(ts: int): OrderStates {
    OrderStates(
      Between(ts, 0, 8 * RW + GI) || Between(ts, 73 * RW, 240 * RW),
      Between(ts, 8 * RW - 1, 20 * RW + GI),
      Between(ts, 20 * RW - 1, 73 * RW + GI),
      Between(ts, 0, 32 * RW + GI) || Between(ts, 65 * RW, 240 * RW),
      Between(ts, 32 * RW - 1, 44 * RW + GI),
      Between(ts, 44 * RW - 1, 73 * RW + GI))
  }

  function R11Exp(tc: OrderCase, state: string, zeroTime: int): ApiAlert {
    Exp(tc.r11, tc.r1Annotations, state, 11.0, zeroTime, 8)
  }

  function R12Exp(tc: OrderCase, state: string, zeroTime: int): ApiAlert {
    Exp(tc.r12, tc.r1Annotations, state, 11.0, zeroTime, 32)
  }

  function R2Exp(tc: OrderCase, zeroTime: int): ApiAlert {
    Exp(tc.r2, tc.r2Annotations, "firing", 2.0, zeroTime, 44)
  }

  function OrderExpAlerts(tc: OrderCase, zeroTime: int, ts: int): seq<seq<ApiAlert>> {
    var can := OrderPossibleStates(ts - zeroTime);
    When(can.r11Inactive && can.r12Inactive, [])
    + When(can.r11Pending && can.r12Inactive, [R11Exp(tc, "pending", zeroTime)])
    + When(can.r11Firing && can.r12Inactive, [R11Exp(tc, "firing", zeroTime)])
    + When(can.r11Firing && can.r12Pending, [R11Exp(tc, "firing", zeroTime), R12Exp(tc, "pending", zeroTime)])
    + When(can.r11Firing && can.r12Firing,
           [R11Exp(tc, "firing", zeroTime), R12Exp(tc, "firing", zeroTime), R2Exp(tc, zeroTime)])
  }

  function R11Rule(): Rule {
    Rule(Values(R11_SAMPLES), 10.0, 12 * RW_INTERVAL)
  }

  function R12Rule(): Rule {
    Rule(Values(R12_SAMPLES), 10.0, 12 * RW_INTERVAL)
  }

  /** The second rule adds up the firing ALERTS series that the first rule wrote in the same
      evaluation of the group, and has no `for` duration. */
  function R2After(r11: Rule, r12: Rule, t: Timing, u: Timing, j: nat): RuleState {
    if j == 0 then Inactive else
    var both := Fires(After(r11, t, j)) && Fires(After(r12, u, j));
    Evaluate(R2After(r11, r12, t, u, j - 1), t.Instant(j - 1), if both then Some(2.0) else None, 0)
  }

  function OrderListed(tc: OrderCase, zeroTime: int, s11: RuleState, s12: RuleState, s2: RuleState): seq<ApiAlert> {
    Listed(tc.r11, tc.r1Annotations, zeroTime, s11) + Listed(tc.r12, tc.r1Annotations, zeroTime, s12)
    + Listed(tc.r2, tc.r2Annotations, zeroTime, s2)
  }

  /** The samples of variant one arrive by `t`, those of variant two by `u`. */
  function OrderListing(tc: OrderCase, t: Timing, u: Timing, zeroTime: int, x: Time): seq<ApiAlert> {
    OrderListed(tc, zeroTime, StateAt(R11Rule(), t, x), StateAt(R12Rule(), u, x),
                R2After(R11Rule(), R12Rule(), t, u, t.Evaluations(x)))
  }

  lemma R11Episode()
    ensures |R11Rule().values| == 94 && Episode(R11Rule(), 8, 73)
    ensures forall k :: 0 <= k < 94 ==> R11Rule().values[k] == R11Level(k)
  {
    R11Levels(0);
    forall k | 0 <= k < 94 ensures Values(R11_SAMPLES)[k] == R11Level(k) {
      R11Levels(k);
    }
  }

  lemma R12Episode()
    ensures |R12Rule().values| == 86 && Episode(R12Rule(), 32, 65)
    ensures forall k :: 0 <= k < 86 ==> R12Rule().values[k] == R12Level(k)
  {
    R12Levels(0);
    forall k | 0 <= k < 86 ensures Values(R12_SAMPLES)[k] == R12Level(k) {
      R12Levels(k);
    }
  }

  /** The states of the two variants at `x`, when their last evaluations saw `n` samples. */
  ghost predicate R11Is(n: nat, x: Time, s: RuleState) {
    if 8 < n <= 73 then ActiveFor(s, 8, x, At(0, 12)) && s.value == 11.0 else s == Inactive
  }

  ghost predicate R12Is(n: nat, x: Time, s: RuleState) {
    if 32 < n <= 65 then ActiveFor(s, 32, x, At(0, 12)) && s.value == 11.0 else s == Inactive
  }

  lemma R11StateAt(t: Timing, x: Time)
    requires t.Prompt() && ORDER_SAMPLE_COUNT <= |t.delivered|
    ensures R11Is(t.Seen(x), x, StateAt(R11Rule(), t, x))
  {
    R11Episode();
    SeenWhen(t, x);
    Holds();
    if 8 < t.Seen(x) <= 73 {
      var at := Window(R11Rule(), t, 8, 73, x);
    } else {
      Quiet(R11Rule(), t, x);
    }
  }

  lemma R12StateAt(t: Timing, x: Time)
    requires t.Prompt() && ORDER_SAMPLE_COUNT <= |t.delivered|
    ensures R12Is(t.Seen(x), x, StateAt(R12Rule(), t, x))
  {
    R12Episode();
    SeenWhen(t, x);
    Holds();
    if 32 < t.Seen(x) <= 65 {
      var at := Window(R12Rule(), t, 32, 65, x);
    } else {
      Quiet(R12Rule(), t, x);
    }
  }

  lemma EvaluationsAt(t: Timing, j: nat)
    requires t.Prompt() && j > 0
    ensures t.Evaluations(t.Instant(j - 1)) == j
  {
  }

  /** Two series of one group: one evaluation grid, each delivered on its own. */
  ghost predicate OrderPrompt(t: Timing, u: Timing) {
    && t.Prompt() && u.Prompt() && t.phase == u.phase
    && ORDER_SAMPLE_COUNT <= |t.delivered| && ORDER_SAMPLE_COUNT <= |u.delivered|
  }

  /** Whenever variant two fires, variant one has been firing for long. */
  lemma R11FiresToo(t: Timing, u: Timing, j: nat)
    requires OrderPrompt(t, u) && Fires(After(R12Rule(), u, j))
    ensures Fires(After(R11Rule(), t, j))
  {
    if j > 0 {
      EvaluationsAt(t, j);
      EvaluationsAt(u, j);
      R11FiresTooAt(t, u, t.Instant(j - 1));
    }
  }

  lemma R11FiresTooAt(t: Timing, u: Timing, x: Time)
    requires OrderPrompt(t, u) && Fires(StateAt(R12Rule(), u, x))
    ensures Fires(StateAt(R11Rule(), t, x))
  {
    R12StateAt(u, x);
    R11StateAt(t, x);
    SeenByAt(t, ORDER_SAMPLE_COUNT, x);
    SeenByAt(u, ORDER_SAMPLE_COUNT, x);
    R11FiresFirst(t.Seen(x), u.Seen(x), x, StateAt(R11Rule(), t, x), StateAt(R12Rule(), u, x));
  }

  /** Alerts become active at evaluations. */
  lemma {:induction false} OnGrid(rule: Rule, t: Timing, j: nat) returns (m: nat)
    requires After(rule, t, j).Active?
    ensures m < j && After(rule, t, j).activeAt == t.Instant(m)
  {
    if After(rule, t, j - 1).Active? {
      m := OnGrid(rule, t, j - 1);
    } else {
      m := j - 1;
    }
  }

  /** The evaluation at which an alert starts to fire. */
  lemma StartsToFire(rule: Rule, t: Timing, j: nat, k: nat)
    requires rule.hold == k * GROUP_INTERVAL && k > 0 && j > 0
    requires Fires(After(rule, t, j)) && !Fires(After(rule, t, j - 1))
    ensures After(rule, t, j).activeAt + rule.hold == t.Instant(j - 1)
  {
    var m := OnGrid(rule, t, j);
    assert t.Instant(j - 1) - t.Instant(m) == (j - 1 - m) * GROUP_INTERVAL;
    assert After(rule, t, j - 1).Active?;
    assert t.Instant(j - 2) - t.Instant(m) == (j - 2 - m) * GROUP_INTERVAL;
    assert j - 2 - m < k <= j - 1 - m;
  }

  lemma R12Hold()
    ensures R12Rule().hold == 6 * GROUP_INTERVAL == At(0, 12)
  {
  }

  function R2State(s12: RuleState): RuleState {
    if Fires(s12) then Active(s12.activeAt + At(0, 12), true, 2.0) else Inactive
  }

  /** Variant one fires at every evaluation at which variant two does. */
  ghost predicate FiresAlways(r11: Rule, r12: Rule, t: Timing, u: Timing) {
    forall j: nat :: Fires(After(r12, u, j)) ==> Fires(After(r11, t, j))
  }

  /** The second rule fires exactly while variant two of the first rule does, since that fired. */
  lemma {:induction false} R2Follows(r11: Rule, r12: Rule, t: Timing, u: Timing, j: nat)
    requires FiresAlways(r11, r12, t, u) && t.phase == u.phase && r12.hold == 6 * GROUP_INTERVAL == At(0, 12)
    ensures R2After(r11, r12, t, u, j) == R2State(After(r12, u, j))
  {
    if j == 0 {
    } else {
      R2Follows(r11, r12, t, u, j - 1);
      var s, s' := After(r12, u, j - 1), After(r12, u, j);
      if Fires(s') {
        R2Starts(r12, u, j);
      }
      R2Still(s, s', u.Instant(j - 1));
      R2Next(r11, r12, t, u, j);
    }
  }

  /** Variant two fires on, or starts to: then its `for` duration is just over. */
  lemma R2Starts(r12: Rule, u: Timing, j: nat)
    requires j > 0 && Fires(After(r12, u, j)) && r12.hold == 6 * GROUP_INTERVAL == At(0, 12)
    ensures var s, s' := After(r12, u, j - 1), After(r12, u, j);
      && s'.activeAt + At(0, 12) <= u.Instant(j - 1)
      && if Fires(s) then s'.activeAt == s.activeAt else s'.activeAt + At(0, 12) == u.Instant(j - 1)
  {
    if !Fires(After(r12, u, j - 1)) {
      StartsToFire(r12, u, j, 6);
    }
  }

  lemma R2Next(r11: Rule, r12: Rule, t: Timing, u: Timing, j: nat)
    requires j > 0 && t.phase == u.phase && FiresAlways(r11, r12, t, u)
    ensures R2After(r11, r12, t, u, j)
      == Evaluate(R2After(r11, r12, t, u, j - 1), u.Instant(j - 1),
                  if Fires(After(r12, u, j)) then Some(2.0) else None, 0)
  {
    assert Fires(After(r12, u, j)) ==> Fires(After(r11, t, j));
  }

  lemma R2Still(s: RuleState, s': RuleState, e: Time)
    requires Fires(s') ==>
      && s'.activeAt + At(0, 12) <= e
      && if Fires(s) then s'.activeAt == s.activeAt else s'.activeAt + At(0, 12) == e
    ensures Evaluate(R2State(s), e, if Fires(s') then Some(2.0) else None, 0) == R2State(s')
  {
  }

  /** What can be observed at `ts`, and fits the windows. */
  ghost predicate OrderFits(ts: int, s11: RuleState, s12: RuleState) {
    var can := OrderPossibleStates(ts);
    && (if s11.Inactive? then can.r11Inactive else if s11.firing then can.r11Firing else can.r11Pending)
    && (if s12.Inactive? then can.r12Inactive else if s12.firing then can.r12Firing else can.r12Pending)
    && (s12.Active? ==> Fires(s11))
  }

  ghost predicate OrderObserved(ts: int, s11: RuleState, s12: RuleState) {
    && (s11.Active? ==> ActiveFor(s11, 8, Moment(ts), At(0, 12)) && s11.value == 11.0)
    && (s12.Active? ==> ActiveFor(s12, 32, Moment(ts), At(0, 12)) && s12.value == 11.0)
  }

  /** What can be observed of the two variants lies inside the windows, on its own and together. */
  lemma OrderPossible(n: nat, m: nat, ts: int, s11: RuleState, s12: RuleState)
    requires SeenBy(n, ORDER_SAMPLE_COUNT, Moment(ts)) && SeenBy(m, ORDER_SAMPLE_COUNT, Moment(ts))
    requires 0 < ts <= ORDER_SAMPLE_COUNT * RW * 1000
    requires R11Is(n, Moment(ts), s11) && R12Is(m, Moment(ts), s12)
    ensures OrderFits(ts, s11, s12)
  {
    R11Possible(n, ts, s11);
    R12Possible(m, ts, s12);
    if s12.Active? {
      R11FiresFirst(n, m, Moment(ts), s11, s12);
    }
  }

  lemma R11Possible(n: nat, ts: int, s: RuleState)
    requires SeenBy(n, ORDER_SAMPLE_COUNT, Moment(ts)) && 0 < ts <= ORDER_SAMPLE_COUNT * RW * 1000
    requires R11Is(n, Moment(ts), s)
    ensures var can := OrderPossibleStates(ts);
      if s.Inactive? then can.r11Inactive else if s.firing then can.r11Firing else can.r11Pending
  {
  }

  lemma R12Possible(n: nat, ts: int, s: RuleState)
    requires SeenBy(n, ORDER_SAMPLE_COUNT, Moment(ts)) && 0 < ts <= ORDER_SAMPLE_COUNT * RW * 1000
    requires R12Is(n, Moment(ts), s)
    ensures var can := OrderPossibleStates(ts);
      if s.Inactive? then can.r12Inactive else if s.firing then can.r12Firing else can.r12Pending
  {
  }

  /** Variant two is not even pending before variant one fires. */
  lemma R11FiresFirst(n: nat, m: nat, x: Time, s11: RuleState, s12: RuleState)
    requires SeenBy(n, ORDER_SAMPLE_COUNT, x) && SeenBy(m, ORDER_SAMPLE_COUNT, x)
    requires R11Is(n, x, s11) && R12Is(m, x, s12) && s12.Active?
    ensures Fires(s11)
  {
  }

  function OrderAlternative(tc: OrderCase, zeroTime: int, s11: RuleState, s12: RuleState): seq<ApiAlert>
    requires s11.Active?
  {
    if s12.Inactive? then [R11Exp(tc, StateName(s11), zeroTime)]
    else if s12.firing then [R11Exp(tc, "firing", zeroTime), R12Exp(tc, "firing", zeroTime), R2Exp(tc, zeroTime)]
    else [R11Exp(tc, "firing", zeroTime), R12Exp(tc, "pending", zeroTime)]
  }

  lemma OrderAlternativeIn(tc: OrderCase, zeroTime: int, ts: int, s11: RuleState, s12: RuleState)
    requires s11.Active? && OrderFits(ts - zeroTime, s11, s12)
    ensures OrderAlternative(tc, zeroTime, s11, s12) in OrderExpAlerts(tc, zeroTime, ts)
  {
  }

  lemma OrderAlternativeFits(tc: OrderCase, zeroTime: int, ts: int, s11: RuleState, s12: RuleState)
    requires s11.Active? && (s12.Active? ==> Fires(s11)) && OrderObserved(ts, s11, s12)
    ensures AllFit(OrderAlternative(tc, zeroTime, s11, s12),
                   OrderListed(tc, zeroTime, s11, s12, R2State(s12)), GROUP_INTERVAL)
  {
    ListedFits(tc.r11, tc.r1Annotations, zeroTime, 8, s11);
    if s12.Active? {
      ListedFits(tc.r12, tc.r1Annotations, zeroTime, 32, s12);
    }
    if Fires(s12) {
      ListedFits(tc.r2, tc.r2Annotations, zeroTime, 44, R2State(s12));
    }
  }

  lemma OrderStateAt(t: Timing, u: Timing, ts: int)
    requires OrderPrompt(t, u)
    requires 0 < ts <= ORDER_SAMPLE_COUNT * RW * 1000
    ensures var s11, s12 := StateAt(R11Rule(), t, Moment(ts)), StateAt(R12Rule(), u, Moment(ts));
      OrderObserved(ts, s11, s12) && OrderFits(ts, s11, s12)
  {
    var x := Moment(ts);
    R11StateAt(t, x);
    R12StateAt(u, x);
    SeenByAt(t, ORDER_SAMPLE_COUNT, x);
    SeenByAt(u, ORDER_SAMPLE_COUNT, x);
    OrderPossible(t.Seen(x), u.Seen(x), ts, StateAt(R11Rule(), t, x), StateAt(R12Rule(), u, x));
  }

  lemma OrderNone(tc: OrderCase, zeroTime: int, ts: int, s11: RuleState, s12: RuleState)
    requires s11.Inactive? && OrderFits(ts - zeroTime, s11, s12)
    ensures [] in OrderExpAlerts(tc, zeroTime, ts) && OrderListed(tc, zeroTime, s11, s12, R2State(s12)) == []
  {
    assert OrderExpAlerts(tc, zeroTime, ts)[0] == [];
  }

  lemma OrderAccepted(tc: OrderCase, zeroTime: int, ts: int, s11: RuleState, s12: RuleState, act: seq<ApiAlert>)
    requires tc.Distinct() && OrderObserved(ts - zeroTime, s11, s12) && OrderFits(ts - zeroTime, s11, s12)
    requires multiset(act) == multiset(OrderListed(tc, zeroTime, s11, s12, R2State(s12)))
    ensures Accepted(OrderExpAlerts(tc, zeroTime, ts), act, GROUP_INTERVAL)
  {
    var listing := OrderListed(tc, zeroTime, s11, s12, R2State(s12));
    if s11.Inactive? {
      OrderNone(tc, zeroTime, ts, s11, s12);
      AcceptedIn(OrderExpAlerts(tc, zeroTime, ts), [], listing, act);
    } else {
      OrderAlternativeIn(tc, zeroTime, ts, s11, s12);
      OrderAlternativeFits(tc, zeroTime, ts - zeroTime, s11, s12);
      OrderAlternativeDistinct(tc, zeroTime, s11, s12);
      AcceptedIn(OrderExpAlerts(tc, zeroTime, ts), OrderAlternative(tc, zeroTime, s11, s12), listing, act);
    }
  }

  lemma OrderAlternativeDistinct(tc: OrderCase, zeroTime: int, s11: RuleState, s12: RuleState)
    requires tc.Distinct() && s11.Active?
    ensures DistinctLabels(OrderAlternative(tc, zeroTime, s11, s12))
  {
  }

  /** `act` lists, in any order, the alerts of a conforming generator at `ts`, until the test ends. */
  ghost predicate OrderConforms(tc: OrderCase, t: Timing, u: Timing, zeroTime: int, ts: int, act: seq<ApiAlert>) {
    && OrderPrompt(t, u)
    && zeroTime < ts <= zeroTime + ORDER_SAMPLE_COUNT * RW * 1000
    && multiset(act) == multiset(OrderListing(tc, t, u, zeroTime, Moment(ts - zeroTime)))
  }

  /** No false alarm, however the two series are delivered. */
  lemma OrderNoFalseAlarm(tc: OrderCase, t: Timing, u: Timing, zeroTime: int, ts: int, act: seq<ApiAlert>)
    requires tc.Distinct() && OrderConforms(tc, t, u, zeroTime, ts, act)
    ensures Accepted(OrderExpAlerts(tc, zeroTime, ts), act, GROUP_INTERVAL)
  {
    var x := Moment(ts - zeroTime);
    var s11, s12 := StateAt(R11Rule(), t, x), StateAt(R12Rule(), u, x);
    OrderStateAt(t, u, ts - zeroTime);
    assert OrderListing(tc, t, u, zeroTime, x) == OrderListed(tc, zeroTime, s11, s12, R2State(s12)) by {
      OrderListingIs(tc, t, u, zeroTime, x);
    }
    OrderAccepted(tc, zeroTime, ts, s11, s12, act);
  }

  lemma R11FiresAlways(t: Timing, u: Timing)
    requires OrderPrompt(t, u)
    ensures FiresAlways(R11Rule(), R12Rule(), t, u)
  {
    forall j: nat | Fires(After(R12Rule(), u, j)) ensures Fires(After(R11Rule(), t, j)) {
      R11FiresToo(t, u, j);
    }
  }

  lemma R2At(t: Timing, u: Timing, x: Time)
    requires OrderPrompt(t, u)
    ensures R2After(R11Rule(), R12Rule(), t, u, t.Evaluations(x)) == R2State(StateAt(R12Rule(), u, x))
  {
    R11FiresAlways(t, u);
    R12Hold();
    R2Follows(R11Rule(), R12Rule(), t, u, t.Evaluations(x));
    assert t.Evaluations(x) == u.Evaluations(x);
  }

  lemma OrderListingIs(tc: OrderCase, t: Timing, u: Timing, zeroTime: int, x: Time)
    requires OrderPrompt(t, u)
    ensures var s11, s12 := StateAt(R11Rule(), t, x), StateAt(R12Rule(), u, x);
      OrderListing(tc, t, u, zeroTime, x) == OrderListed(tc, zeroTime, s11, s12, R2State(s12))
  {
    R2At(t, u, x);
  }

  /** Exactly when variant two can be firing, and when it is offered as firing. The window is a second
      wider at its start, and two minutes wider at its end, which is that of variant one. */
  lemma OrderWindowExactly(tc: OrderCase, zeroTime: int, ts: int)
    ensures (exists u: Timing ::
               u.Prompt() && ORDER_SAMPLE_COUNT <= |u.delivered| && Fires(StateAt(R12Rule(), u, Moment(ts))))
      <==> 660_000 < ts < 1_015_000
    ensures [R11Exp(tc, "firing", zeroTime), R12Exp(tc, "firing", zeroTime), R2Exp(tc, zeroTime)]
        in OrderExpAlerts(tc, zeroTime, zeroTime + ts)
      <==> 659_000 < ts <= 1_135_000
  {
    R12Offered(tc, zeroTime, ts);
    R12Episode();
    Holds();
    FiringExactly(R12Rule(), 32, 65, ORDER_SAMPLE_COUNT, Moment(ts));
    forall u: Timing | u.Prompt() && ORDER_SAMPLE_COUNT <= |u.delivered| && Fires(StateAt(R12Rule(), u, Moment(ts)))
      ensures 32 < u.Seen(Moment(ts)) <= 65
    {
      R12StateAt(u, Moment(ts));
    }
  }

  lemma R12Offered(tc: OrderCase, zeroTime: int, ts: int)
    ensures [R11Exp(tc, "firing", zeroTime), R12Exp(tc, "firing", zeroTime), R2Exp(tc, zeroTime)]
        in OrderExpAlerts(tc, zeroTime, zeroTime + ts)
      <==> 659_000 < ts <= 1_135_000
  {
    var can := OrderPossibleStates(ts);
    assert zeroTime + ts - zeroTime == ts;
    assert can.r11Firing && can.r12Firing <==> 659_000 < ts <= 1_135_000;
  }

  /** The same of variant one: here only the first second, and the last instant, are too much. */
  lemma R11WindowExactly(ts: int)
    ensures (exists t: Timing ::
               t.Prompt() && ORDER_SAMPLE_COUNT <= |t.delivered| && Fires(StateAt(R11Rule(), t, Moment(ts))))
      <==> 300_000 < ts < 1_135_000
    ensures OrderPossibleStates(ts).r11Firing <==> 299_000 < ts <= 1_135_000
  {
    R11Episode();
    Holds();
    FiringExactly(R11Rule(), 8, 73, ORDER_SAMPLE_COUNT, Moment(ts));
    forall t: Timing | t.Prompt() && ORDER_SAMPLE_COUNT <= |t.delivered| && Fires(StateAt(R11Rule(), t, Moment(ts)))
      ensures 8 < t.Seen(Moment(ts)) <= 73
    {
      R11StateAt(t, Moment(ts));
    }
  }

  // ---- a generator that is blamed because two series arrive apart

  /** Every sample arrives `delay` after its timestamp; the group is evaluated 5 seconds into the grid. */
  function Delayed(delay: Duration): Timing {
    Late(5 * SECOND, ZERO_SAMPLE_COUNT, delay)
  }

  lemma DelayedEvaluated(delay: Duration)
    ensures Delayed(delay).Seen(Moment(130_000)) == Delivered(Delayed(delay).delivered, 125 * SECOND)
  {
    var t := Delayed(delay);
    assert t.Evaluations(Moment(130_000)) == 5;
    assert t.Instant(4) == 125 * SECOND;
  }

  lemma DelayedSees(delay: Duration)
    requires 0 < delay <= 2 * MAX_RTT
    ensures Delayed(delay).Prompt()
    ensures InFirstPeriod(Delayed(delay), 130_000) <==> delay <= 5 * SECOND
  {
    DelayedEvaluated(delay);
    InOrder(Delayed(delay), 125 * SECOND, 8);
    InOrder(Delayed(delay), 125 * SECOND, 9);
  }

  /** The samples of the first rule arrive after one second, those of the second after ten. */
  function ApartTimings(): ZeroTimings {
    ZeroTimings(Delayed(SECOND), Delayed(10 * SECOND), [Delayed(SECOND), Delayed(SECOND), Delayed(SECOND)])
  }

  lemma ApartPrompt()
    ensures ApartTimings().Prompt()
    ensures InFirstPeriod(ApartTimings().zf, 130_000) && !InFirstPeriod(ApartTimings().sf, 130_000)
  {
    DelayedSees(SECOND);
    DelayedSees(10 * SECOND);
  }

  lemma ApartIsBlamed(tc: ZeroCase, mixed: LabelSet, zeroTime: int, act: seq<ApiAlert>)
    requires tc.Distinct() && act == ZeroListing(tc, ApartTimings(), mixed, zeroTime, Moment(130_000))
    ensures ZeroConforms(tc, ApartTimings(), mixed, zeroTime, zeroTime + 130_000, act)
    ensures !Accepted(ZeroExpAlerts(tc, zeroTime, zeroTime + 130_000), act, GROUP_INTERVAL)
  {
    ApartPrompt();
    BlamedFor(tc, ApartTimings(), mixed, zeroTime, 130_000, act);
  }

  lemma BlamedFor(tc: ZeroCase, t: ZeroTimings, mixed: LabelSet, zeroTime: int, ts: int, act: seq<ApiAlert>)
    requires tc.Distinct() && t.Prompt() && 0 < ts <= ZERO_TEST_SAMPLES * RW * 1000
    requires act == ZeroListing(tc, t, mixed, zeroTime, Moment(ts))
    requires InFirstPeriod(t.zf, ts) && !InFirstPeriod(t.sf, ts)
    ensures ZeroConforms(tc, t, mixed, zeroTime, zeroTime + ts, act)
    ensures !Accepted(ZeroExpAlerts(tc, zeroTime, zeroTime + ts), act, GROUP_INTERVAL)
  {
    assert zeroTime + ts - zeroTime == ts;
    ZeroAcceptedExactly(tc, t, mixed, zeroTime, zeroTime + ts, act);
  }

  // ---- the checks of the test cases

  /** When the alternatives have distinct label sets, what is accepted is what they list. */
  lemma AcceptedOrAllowed(alternatives: seq<seq<ApiAlert>>, act: seq<ApiAlert>)
    requires forall k :: 0 <= k < |alternatives| ==> DistinctLabels(alternatives[k])
    ensures Allowed(alternatives, act, GROUP_INTERVAL) <==> Accepted(alternatives, act, GROUP_INTERVAL)
  {
    if Allowed(alternatives, act, GROUP_INTERVAL) {
      var k :| 0 <= k < |alternatives| && SameAlerts(alternatives[k], act, GROUP_INTERVAL);
      assert Accepts(alternatives[k], act, GROUP_INTERVAL);
    }
    if Accepted(alternatives, act, GROUP_INTERVAL) {
      var k :| 0 <= k < |alternatives| && Accepts(alternatives[k], act, GROUP_INTERVAL);
      assert SameAlerts(alternatives[k], act, GROUP_INTERVAL);
    }
  }

  /** A check accepts exactly the listings that fit one of its alternatives. */
  method Check(alternatives: seq<seq<ApiAlert>>, alerts: array<ApiAlert>) returns (ok: bool)
    requires WellFormed(alternatives)
    modifies alerts
    ensures ok <==> Accepted(alternatives, old(alerts[..]), GROUP_INTERVAL)
  {
    AcceptedOrAllowed(alternatives, alerts[..]);
    ok := CheckAlerts(alternatives, alerts, GROUP_INTERVAL);
  }

  ghost predicate WellFormed(alternatives: seq<seq<ApiAlert>>) {
    forall k :: 0 <= k < |alternatives| ==> AllActive(alternatives[k]) && DistinctLabels(alternatives[k])
  }

  lemma BothWellFormed(a: seq<seq<ApiAlert>>, b: seq<seq<ApiAlert>>)
    requires WellFormed(a) && WellFormed(b)
    ensures WellFormed(a + b)
  {
  }

  lemma PfrWellFormed(tc: PfrCase, zeroTime: int, ts: int)
    ensures WellFormed(PfrExpAlerts(tc, zeroTime, ts))
  {
    var can := PfrPossibleStates(ts - zeroTime);
    var pending1 := [Exp(tc.labels, tc.eleven, "pending", 11.0, zeroTime, 8)];
    var pending2 := [Exp(tc.labels, tc.fifteen, "pending", 15.0, zeroTime, if can.pendingAgain then 89 else 8)];
    var firing1 := [Exp(tc.labels, tc.fifteen, "firing", 15.0, zeroTime, if can.firingAgain then 89 else 8)];
    var firing2 := [Exp(tc.labels, tc.nineteen, "firing", 19.0, zeroTime, 8)];
    BothWellFormed(When(can.inactive, []), When(can.pending1, pending1));
    var some := When(can.inactive, []) + When(can.pending1, pending1);
    BothWellFormed(some, When(can.pending2 || can.pendingAgain, pending2));
    some := some + When(can.pending2 || can.pendingAgain, pending2);
    BothWellFormed(some, When(can.firing1 || can.firingAgain, firing1));
    some := some + When(can.firing1 || can.firingAgain, firing1);
    BothWellFormed(some, When(can.firing2, firing2));
  }

  method PfrCheckAlerts(tc: PfrCase, zeroTime: int, ts: int, alerts: array<ApiAlert>) returns (ok: bool)
    modifies alerts
    ensures ok <==> Accepted(PfrExpAlerts(tc, zeroTime, ts), old(alerts[..]), GROUP_INTERVAL)
    ensures forall t :: PfrConforms(tc, t, zeroTime, ts, old(alerts[..])) ==>
      ok
  {
    ghost var act := alerts[..];
    PfrWellFormed(tc, zeroTime, ts);
    ok := Check(PfrExpAlerts(tc, zeroTime, ts), alerts);
    forall t | PfrConforms(tc, t, zeroTime, ts, act)
      ensures ok
    {
      PfrNoFalseAlarm(tc, t, zeroTime, ts, act);
    }
  }

  lemma PrWellFormed(tc: PrCase, zeroTime: int, ts: int)
    ensures WellFormed(PrExpAlerts(tc, zeroTime, ts))
  {
  }

  method PrCheckAlerts(tc: PrCase, zeroTime: int, ts: int, alerts: array<ApiAlert>) returns (ok: bool)
    modifies alerts
    ensures ok <==> Accepted(PrExpAlerts(tc, zeroTime, ts), old(alerts[..]), GROUP_INTERVAL)
    ensures forall labels, annotations, t :: PrConforms(tc, labels, annotations, t, zeroTime, ts, old(alerts[..])) ==>
      ok
  {
    ghost var act := alerts[..];
    PrWellFormed(tc, zeroTime, ts);
    ok := Check(PrExpAlerts(tc, zeroTime, ts), alerts);
    forall labels, annotations, t | PrConforms(tc, labels, annotations, t, zeroTime, ts, act)
      ensures ok
    {
      PrNoFalseAlarm(tc, labels, annotations, t, zeroTime, ts, act);
    }
  }

  lemma ZeroWellFormed(tc: ZeroCase, zeroTime: int, ts: int)
    requires tc.Distinct()
    ensures WellFormed(ZeroExpAlerts(tc, zeroTime, ts))
  {
  }

  method ZeroCheckAlerts(tc: ZeroCase, zeroTime: int, ts: int, alerts: array<ApiAlert>) returns (ok: bool)
    requires tc.Distinct()
    modifies alerts
    ensures ok <==> Accepted(ZeroExpAlerts(tc, zeroTime, ts), old(alerts[..]), GROUP_INTERVAL)
    ensures forall t, mixed :: ZeroConforms(tc, t, mixed, zeroTime, ts, old(alerts[..])) ==>
      (ok <==> (InFirstPeriod(t.zf, ts - zeroTime) <==> InFirstPeriod(t.sf, ts - zeroTime)))
  {
    ghost var act := alerts[..];
    ZeroWellFormed(tc, zeroTime, ts);
    ok := Check(ZeroExpAlerts(tc, zeroTime, ts), alerts);
    forall t, mixed | ZeroConforms(tc, t, mixed, zeroTime, ts, act)
      ensures (ok <==> (InFirstPeriod(t.zf, ts - zeroTime) <==> InFirstPeriod(t.sf, ts - zeroTime)))
    {
      ZeroAcceptedExactly(tc, t, mixed, zeroTime, ts, act);
    }
  }

  lemma OrderThreeDistinct(tc: OrderCase, zeroTime: int)
    requires tc.Distinct()
    ensures DistinctLabels([R11Exp(tc, "firing", zeroTime)] + [R12Exp(tc, "firing", zeroTime), R2Exp(tc, zeroTime)])
  {
  }

  lemma OrderWellFormed(tc: OrderCase, zeroTime: int, ts: int)
    requires tc.Distinct()
    ensures WellFormed(OrderExpAlerts(tc, zeroTime, ts))
  {
    var can := OrderPossibleStates(ts - zeroTime);
    var pending, firing := [R11Exp(tc, "pending", zeroTime)], [R11Exp(tc, "firing", zeroTime)];
    var two := firing + [R12Exp(tc, "pending", zeroTime)];
    var three := firing + [R12Exp(tc, "firing", zeroTime), R2Exp(tc, zeroTime)];
    OrderThreeDistinct(tc, zeroTime);
    var some := When(can.r11Inactive && can.r12Inactive, []);
    BothWellFormed(some, When(can.r11Pending && can.r12Inactive, pending));
    some := some + When(can.r11Pending && can.r12Inactive, pending);
    BothWellFormed(some, When(can.r11Firing && can.r12Inactive, firing));
    some := some + When(can.r11Firing && can.r12Inactive, firing);
    BothWellFormed(some, When(can.r11Firing && can.r12Pending, two));
    some := some + When(can.r11Firing && can.r12Pending, two);
    BothWellFormed(some, When(can.r11Firing && can.r12Firing, three));
  }

  method OrderCheckAlerts(tc: OrderCase, zeroTime: int, ts: int, alerts: array<ApiAlert>) returns (ok: bool)
    requires tc.Distinct()
    modifies alerts
    ensures ok <==> Accepted(OrderExpAlerts(tc, zeroTime, ts), old(alerts[..]), GROUP_INTERVAL)
    ensures forall t, u :: OrderConforms(tc, t, u, zeroTime, ts, old(alerts[..])) ==>
      ok
  {
    ghost var act := alerts[..];
    OrderWellFormed(tc, zeroTime, ts);
    ok := Check(OrderExpAlerts(tc, zeroTime, ts), alerts);
    forall t, u | OrderConforms(tc, t, u, zeroTime, ts, act)
      ensures ok
    {
      OrderNoFalseAlarm(tc, t, u, zeroTime, ts, act);
    }
  }
}
