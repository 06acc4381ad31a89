/** How an alerting rule behaves by the specification (specification.md, pending, firing and inactive
    state conditions), evaluated on a regular grid while samples trickle in. */
module Automaton {
  import opened ExpectedAlert
  import opened Options
  import opened CaseTables

  datatype RuleState = Inactive | Active(activeAt: Time, firing: bool, value: real)

  /** One evaluation at `e`, of a rule whose expression gives `result`. */
  function Evaluate(s: RuleState, e: Time, result: Option<real>, hold: Duration): RuleState {
    if result.None? then Inactive
    else
      var activeAt := if s.Active? then s.activeAt else e;
      Active(activeAt, e - activeAt >= hold, result.value)
  }

  /** When the group is evaluated, and when each sample arrives. Instants are relative to the
      zero time of the test case. */
  datatype Timing = Timing(phase: Duration, delivered: seq<Time>)
  {
    /** Any phase of the evaluation grid; each sample is delivered after its timestamp and
        within 10 seconds of it. */
    ghost predicate Prompt() {
      && 0 <= phase < GROUP_INTERVAL
      && forall k :: 0 <= k < |delivered| ==> At(0, k) < delivered[k] <= At(0, k) + 2 * MAX_RTT
    }

    function Instant(j: int): Time {
      phase + j * GROUP_INTERVAL
    }

    /** How many evaluations there were up to `x`. */
    function Evaluations(x: Time): nat {
      if x < phase then 0 else (x - phase) / GROUP_INTERVAL + 1
    }

    /** How many samples the last evaluation up to `x` could see. */
    function Seen(x: Time): nat {
      if x < phase then 0 else Delivered(delivered, Instant(Evaluations(x) - 1))
    }
  }

  /** The number of samples delivered by instant `e`. */
  function Delivered(d: seq<Time>, e: Time): (n: nat)
    ensures n <= |d|
    ensures n > 0 ==> d[n - 1] <= e
    ensures forall k :: n <= k < |d| ==> e < d[k]
  {
    if d == [] then 0 else if d[|d| - 1] <= e then |d| else Delivered(d[..|d| - 1], e)
  }

  /** A rule `metric > threshold`, with its `for` duration. */
  datatype Rule = Rule(values: seq<real>, threshold: real, hold: Duration)
  {
    /** The expression's result when `n` samples have arrived: it looks at the latest one. */
    function Result(n: nat): Option<real> {
      if n == 0 || values == [] then None
      else
        var v := values[if n < |values| then n - 1 else |values| - 1];
        if v > threshold then Some(v) else None
    }
  }

  /** The state after `j` evaluations. */
  function After(rule: Rule, t: Timing, j: nat): RuleState {
    if j == 0 then Inactive else
    var e := t.Instant(j - 1);
    Evaluate(After(rule, t, j - 1), e, rule.Result(Delivered(t.delivered, e)), rule.hold)
  }

  function StateAt(rule: Rule, t: Timing, x: Time): RuleState {
    After(rule, t, t.Evaluations(x))
  }

  /** Samples `a` up to before `b` are over the threshold; sample `b`, and the three before `a`, are not. */
  ghost predicate Episode(rule: Rule, a: nat, b: nat) {
    && a < b < |rule.values|
    && (forall i :: a <= i < b ==> rule.values[i] > rule.threshold)
    && (forall i :: 0 <= i < a <= i + 3 ==> rule.values[i] <= rule.threshold)
    && rule.values[b] <= rule.threshold
  }

  /** Evaluation `m` is the first to see sample `a`. */
  predicate FirstToSee(t: Timing, a: nat, m: nat)
    requires a < |t.delivered|
  {
    t.delivered[a] <= t.Instant(m) && (m == 0 || t.Instant(m - 1) < t.delivered[a])
  }

  lemma {:induction false} FirstUpTo(t: Timing, a: nat, j: nat) returns (m: nat)
    requires a < |t.delivered| && t.delivered[a] <= t.Instant(j)
    ensures FirstToSee(t, a, m)
  {
    if j > 0 && t.delivered[a] <= t.Instant(j - 1) {
      m := FirstUpTo(t, a, j - 1);
    } else {
      m := j;
    }
  }

  /** Each sample is seen. */
  lemma SomeFirst(t: Timing, a: nat) returns (m: nat)
    requires t.Prompt() && a < |t.delivered|
    ensures FirstToSee(t, a, m)
  {
    m := FirstUpTo(t, a, a + 1);
  }

  lemma FirstSeenWhen(t: Timing, a: nat, m: nat)
    requires t.Prompt() && a < |t.delivered| && FirstToSee(t, a, m)
    ensures At(0, a) < t.Instant(m) < At(0, a) + GROUP_INTERVAL + 2 * MAX_RTT
  {
  }

  lemma InOrder(t: Timing, e: Time, k: nat)
    requires t.Prompt() && k < |t.delivered|
    ensures k < Delivered(t.delivered, e) <==> t.delivered[k] <= e
  {
    var n := Delivered(t.delivered, e);
    if k < n {
      assert t.delivered[k] <= At(0, k) + 2 * MAX_RTT && At(0, n - 1) < t.delivered[n - 1];
    }
  }

  /** Just before the first evaluation that sees `a` nothing was over the threshold: an evaluation
      at most one group interval earlier saw one of the three samples before `a`, or none. */
  lemma QuietBefore(rule: Rule, t: Timing, a: nat, b: nat, m: nat)
    requires t.Prompt() && |rule.values| <= |t.delivered| && Episode(rule, a, b)
    requires FirstToSee(t, a, m)
    ensures After(rule, t, m) == Inactive
  {
    if m > 0 {
      var n := Delivered(t.delivered, t.Instant(m - 1));
      InOrder(t, t.Instant(m - 1), a);
      if a >= 3 {
        assert At(0, a) < t.delivered[a] && t.delivered[a - 3] <= At(0, a - 3) + 2 * MAX_RTT;
        InOrder(t, t.Instant(m - 1), a - 3);
      }
      assert n == 0 || a <= (n - 1) + 3;
    }
  }

  lemma ResultIn(rule: Rule, a: nat, b: nat, n: nat)
    requires Episode(rule, a, b) && a < n <= b
    ensures rule.Result(n) == Some(rule.values[n - 1])
  {
  }

  lemma SeenSince(t: Timing, a: nat, b: nat, j: nat)
    requires t.Prompt() && a < b < |t.delivered| && j > 1
    requires Delivered(t.delivered, t.Instant(j - 1)) <= b
    requires t.delivered[a] <= t.Instant(j - 2)
    ensures a < Delivered(t.delivered, t.Instant(j - 2)) <= b
  {
    InOrder(t, t.Instant(j - 2), a);
    InOrder(t, t.Instant(j - 2), b);
    InOrder(t, t.Instant(j - 1), b);
  }

  lemma ActiveNext(rule: Rule, t: Timing, a: nat, b: nat, j: nat, at: Time)
    requires Episode(rule, a, b) && j > 0
    requires a < Delivered(t.delivered, t.Instant(j - 1)) <= b
    requires var s := After(rule, t, j - 1); if s.Active? then s.activeAt == at else at == t.Instant(j - 1)
    ensures After(rule, t, j) == ActiveFrom(rule, t, at, j)
  {
    ResultIn(rule, a, b, Delivered(t.delivered, t.Instant(j - 1)));
  }

  /** Active since `at`, with the value the `j`-th evaluation saw. */
  function ActiveFrom(rule: Rule, t: Timing, at: Time, j: nat): RuleState
    requires 0 < j && 0 < Delivered(t.delivered, t.Instant(j - 1)) <= |rule.values|
  {
    Active(at, t.Instant(j - 1) - at >= rule.hold, rule.values[Delivered(t.delivered, t.Instant(j - 1)) - 1])
  }

  /** As long as an episode is what evaluations see, the alert is active since the first one. */
  lemma {:induction false} ActiveSince(rule: Rule, t: Timing, a: nat, b: nat, j: nat) returns (m: nat)
    requires t.Prompt() && |rule.values| <= |t.delivered| && Episode(rule, a, b)
    requires j > 0 && a < Delivered(t.delivered, t.Instant(j - 1)) <= b
    ensures m < j && FirstToSee(t, a, m)
    ensures After(rule, t, j) == ActiveFrom(rule, t, t.Instant(m), j)
  {
    InOrder(t, t.Instant(j - 1), a);
    if j == 1 || t.Instant(j - 2) < t.delivered[a] {
      m := j - 1;
      QuietBefore(rule, t, a, b, m);
    } else {
      SeenSince(t, a, b, j);
      m := ActiveSince(rule, t, a, b, j - 1);
    }
    ActiveNext(rule, t, a, b, j, t.Instant(m));
  }

  /** The least multiple of the group interval that is not below `hold`. */
  function RoundUp(hold: Duration): Duration {
    (hold + GROUP_INTERVAL - 1) / GROUP_INTERVAL * GROUP_INTERVAL
  }

  lemma RoundUpIs(hold: Duration, k: nat)
    requires 0 <= hold
    ensures if k * GROUP_INTERVAL < hold then (k + 1) * GROUP_INTERVAL <= RoundUp(hold)
            else RoundUp(hold) <= k * GROUP_INTERVAL
  {
    var q := (hold + GROUP_INTERVAL - 1) / GROUP_INTERVAL;
    assert hold <= q * GROUP_INTERVAL < hold + GROUP_INTERVAL;
    if k * GROUP_INTERVAL < hold {
      assert k < q;
    } else {
      assert q <= k;
    }
  }

  lemma LastEvaluation(t: Timing, x: Time)
    requires t.phase <= x
    ensures var j := t.Evaluations(x); 0 < j && t.Instant(j - 1) <= x < t.Instant(j)
  {
  }

  /** Where in time the observation can be, by what the last evaluation before it saw. */
  lemma SeenWhen(t: Timing, x: Time)
    requires t.Prompt()
    ensures var n := t.Seen(x);
      && n <= |t.delivered|
      && (n > 0 ==> At(0, n - 1) < x)
      && (n < |t.delivered| ==> x < At(0, n) + GROUP_INTERVAL + 2 * MAX_RTT)
  {
    if t.phase <= x {
      LastEvaluation(t, x);
    }
  }

  /** The window lemma. When the last evaluation before `x` saw a sample of the episode [a, b):
      the alert is active with that sample's value since some `at` less than one group interval and
      the delivery time after sample `a`; it is firing exactly from `at` plus the `for`
      duration, rounded up to whole group intervals, and it then fired before the next sample came. */
  lemma Window(rule: Rule, t: Timing, a: nat, b: nat, x: Time) returns (at: Time)
    requires t.Prompt() && |rule.values| <= |t.delivered| && Episode(rule, a, b) && 0 <= rule.hold
    requires a < t.Seen(x) <= b
    ensures At(0, a) < at < At(0, a) + GROUP_INTERVAL + 2 * MAX_RTT
    ensures StateAt(rule, t, x) == Active(at, at + RoundUp(rule.hold) <= x, rule.values[t.Seen(x) - 1])
    ensures at + RoundUp(rule.hold) <= x ==> at + RoundUp(rule.hold) < At(0, t.Seen(x)) + 2 * MAX_RTT
  {
    var m := ActiveAt(rule, t, a, b, x);
    at := t.Instant(m);
    FirstSeenWhen(t, a, m);
    FiringWhen(rule, t, m, x);
    var e := t.Instant(t.Evaluations(x) - 1);
    NextSampleLate(t, e);
    assert StateAt(rule, t, x) == Active(at, e - at >= rule.hold, rule.values[t.Seen(x) - 1]);
  }

  lemma ActiveAt(rule: Rule, t: Timing, a: nat, b: nat, x: Time) returns (m: nat)
    requires t.Prompt() && |rule.values| <= |t.delivered| && Episode(rule, a, b)
    requires a < t.Seen(x) <= b
    ensures t.phase <= x && m < t.Evaluations(x) && FirstToSee(t, a, m)
    ensures StateAt(rule, t, x) == ActiveFrom(rule, t, t.Instant(m), t.Evaluations(x))
  {
    LastEvaluation(t, x);
    m := ActiveSince(rule, t, a, b, t.Evaluations(x));
  }

  /** The first sample not seen at `e` comes within its delivery time. */
  lemma NextSampleLate(t: Timing, e: Time)
    requires t.Prompt()
    ensures var n := Delivered(t.delivered, e); n < |t.delivered| ==> e < At(0, n) + 2 * MAX_RTT
  {
  }

  lemma FiringWhen(rule: Rule, t: Timing, m: nat, x: Time)
    requires t.phase <= x && m < t.Evaluations(x) && 0 <= rule.hold
    ensures var e := t.Instant(t.Evaluations(x) - 1);
      && (e - t.Instant(m) >= rule.hold <==> t.Instant(m) + RoundUp(rule.hold) <= x)
      && (e - t.Instant(m) >= rule.hold ==> t.Instant(m) + RoundUp(rule.hold) <= e)
  {
    LastEvaluation(t, x);
    var k := t.Evaluations(x) - 1 - m;
    assert t.Instant(m + k) - t.Instant(m) == k * GROUP_INTERVAL;
    RoundUpIs(rule.hold, k);
    assert t.Instant(m + k + 1) - t.Instant(m) == (k + 1) * GROUP_INTERVAL;
  }

  /** Outside episodes the alert is inactive. */
  lemma Quiet(rule: Rule, t: Timing, x: Time)
    requires rule.Result(t.Seen(x)) == None
    ensures StateAt(rule, t, x) == Inactive
  {
    if t.phase <= x {
      LastEvaluation(t, x);
    }
  }

  predicate Fires(s: RuleState) {
    s.Active? && s.firing
  }

  // ---- when an alert can be firing at all

  /** Every sample arrives `delay` after its timestamp. */
  function Late(phase: Duration, count: nat, delay: Duration): Timing {
    Timing(phase, seq(count, k requires 0 <= k < count => At(0, k) + delay))
  }

  lemma LatePrompt(phase: Duration, count: nat, delay: Duration)
    requires 0 <= phase < GROUP_INTERVAL && 0 < delay <= 2 * MAX_RTT
    ensures Late(phase, count, delay).Prompt()
  {
  }

  /** The grid with an evaluation at `e`, the last before `x`. */
  lemma EvaluatedAt(t: Timing, e: Time, x: Time) returns (j: nat)
    requires 0 <= e <= x < e + GROUP_INTERVAL && t.phase == e % GROUP_INTERVAL
    ensures t.Instant(j) == e && t.Evaluations(x) == j + 1 && t.Seen(x) == Delivered(t.delivered, e)
  {
    j := e / GROUP_INTERVAL;
    assert e == j * GROUP_INTERVAL + t.phase;
    assert t.Evaluations(x) == j + 1;
  }

  /** An alert that could be seen `k` group intervals before the `j`-th evaluation fires after it, if
      these make up its `for` duration. */
  lemma FiresInTime(rule: Rule, t: Timing, a: nat, b: nat, j: nat, k: nat)
    requires t.Prompt() && |rule.values| <= |t.delivered| && Episode(rule, a, b)
    requires j > 0 && a < Delivered(t.delivered, t.Instant(j - 1)) <= b
    requires rule.hold <= k * GROUP_INTERVAL && t.delivered[a] <= t.Instant(j - 1) - k * GROUP_INTERVAL
    ensures Fires(After(rule, t, j))
  {
    var m := ActiveSince(rule, t, a, b, j);
    ActiveEarly(t, a, m, j - 1, k);
    FiresFrom(rule, t, t.Instant(m), j, After(rule, t, j));
  }

  lemma FiresFrom(rule: Rule, t: Timing, at: Time, j: nat, s: RuleState)
    requires 0 < j && 0 < Delivered(t.delivered, t.Instant(j - 1)) <= |rule.values|
    requires s == ActiveFrom(rule, t, at, j) && rule.hold <= t.Instant(j - 1) - at
    ensures Fires(s)
  {
  }

  lemma ActiveEarly(t: Timing, a: nat, m: nat, j: nat, k: nat)
    requires t.Prompt() && a < |t.delivered| && m <= j && FirstToSee(t, a, m)
    requires t.delivered[a] <= t.Instant(j) - k * GROUP_INTERVAL
    ensures k * GROUP_INTERVAL <= t.Instant(j) - t.Instant(m)
  {
    if m > j - k {
      Steps(t, j - k, m - 1);
      Steps(t, j - k, j);
    } else {
      Steps(t, m, j - k);
      Steps(t, j - k, j);
    }
  }

  lemma Steps(t: Timing, i: int, j: int)
    requires i <= j
    ensures t.Instant(j) == t.Instant(i) + (j - i) * GROUP_INTERVAL >= t.Instant(i)
  {
  }

  lemma RoundUpSteps(hold: Duration) returns (k: nat)
    requires 0 <= hold
    ensures RoundUp(hold) == k * GROUP_INTERVAL >= hold
  {
    k := (hold + GROUP_INTERVAL - 1) / GROUP_INTERVAL;
  }

  /** Some prompt generator sees the episode and fires at `x`. */
  ghost predicate CanFire(rule: Rule, a: nat, b: nat, count: nat, x: Time) {
    exists t: Timing :: t.Prompt() && count <= |t.delivered| && a < t.Seen(x) <= b && Fires(StateAt(rule, t, x))
  }

  /** As early, or as late, as can be: the samples come just in time for an evaluation at `x`, or as late
      as allowed, and the last evaluation is as early as the grid allows. */
  lemma FiresAt(rule: Rule, a: nat, b: nat, count: nat, x: Time)
    requires Episode(rule, a, b) && |rule.values| <= count && 0 <= rule.hold
    requires RoundUp(rule.hold) + GROUP_INTERVAL <= (b - a) * RW_INTERVAL
    requires At(0, a) + RoundUp(rule.hold) < x && x + 1 < At(0, b) + GROUP_INTERVAL + 2 * MAX_RTT
    ensures CanFire(rule, a, b, count, x)
  {
    var r := RoundUp(rule.hold);
    var spare := x - r - At(0, a);
    var delay := if spare < 2 * MAX_RTT then spare else 2 * MAX_RTT;
    var e := if x < At(0, b) + 2 * MAX_RTT then x else x - GROUP_INTERVAL + 1;
    RoundUpPositive(rule.hold);
    Spare(a, b, r, x, delay, e);
    FiresWhenLate(rule, a, b, count, x, delay, e);
  }

  lemma RoundUpPositive(hold: Duration)
    requires 0 <= hold
    ensures 0 <= RoundUp(hold)
  {
    var k := RoundUpSteps(hold);
  }

  lemma Spare(a: nat, b: nat, r: Duration, x: Time, delay: Duration, e: Time)
    requires 0 <= r && r + GROUP_INTERVAL <= (b - a) * RW_INTERVAL
    requires At(0, a) + r < x && x + 1 < At(0, b) + GROUP_INTERVAL + 2 * MAX_RTT
    requires delay == if x - r - At(0, a) < 2 * MAX_RTT then x - r - At(0, a) else 2 * MAX_RTT
    requires e == if x < At(0, b) + 2 * MAX_RTT then x else x - GROUP_INTERVAL + 1
    ensures 0 < delay <= 2 * MAX_RTT && e <= x < e + GROUP_INTERVAL
    ensures At(0, a) + delay + r <= e < At(0, b) + delay
  {
    assert At(0, b) == At(0, a) + (b - a) * RW_INTERVAL;
  }

  lemma FiresWhenLate(rule: Rule, a: nat, b: nat, count: nat, x: Time, delay: Duration, e: Time)
    requires Episode(rule, a, b) && |rule.values| <= count && 0 <= rule.hold
    requires 0 < delay <= 2 * MAX_RTT && e <= x < e + GROUP_INTERVAL && 0 <= RoundUp(rule.hold)
    requires At(0, a) + delay + RoundUp(rule.hold) <= e < At(0, b) + delay
    ensures CanFire(rule, a, b, count, x)
  {
    var t := Late(e % GROUP_INTERVAL, count, delay);
    LatePrompt(e % GROUP_INTERVAL, count, delay);
    var j := EvaluatedAt(t, e, x);
    InOrder(t, e, a);
    InOrder(t, e, b);
    var k := RoundUpSteps(rule.hold);
    FiresInTime(rule, t, a, b, j + 1, k);
  }

  /** Exactly when an alert can be firing for an episode that outlasts its `for` duration: from that
      duration after the first sample, until the sample that resolves it must have been seen (to the
      nanosecond: both that sample's arrival and the last evaluation come strictly before). */
  lemma FiringExactly(rule: Rule, a: nat, b: nat, count: nat, x: Time)
    requires Episode(rule, a, b) && |rule.values| <= count && 0 <= rule.hold
    requires RoundUp(rule.hold) + GROUP_INTERVAL <= (b - a) * RW_INTERVAL
    ensures CanFire(rule, a, b, count, x)
      <==> At(0, a) + RoundUp(rule.hold) < x && x + 1 < At(0, b) + GROUP_INTERVAL + 2 * MAX_RTT
  {
    if CanFire(rule, a, b, count, x) {
      var t: Timing :| t.Prompt() && count <= |t.delivered| && a < t.Seen(x) <= b && Fires(StateAt(rule, t, x));
      var at := Window(rule, t, a, b, x);
      SeenBefore(t, b, x);
    }
    if At(0, a) + RoundUp(rule.hold) < x && x + 1 < At(0, b) + GROUP_INTERVAL + 2 * MAX_RTT {
      FiresAt(rule, a, b, count, x);
    }
  }

  lemma SeenBefore(t: Timing, b: nat, x: Time)
    requires t.Prompt() && t.Seen(x) <= b < |t.delivered|
    ensures x + 1 < At(0, b) + GROUP_INTERVAL + 2 * MAX_RTT
  {
    if t.phase <= x {
      LastEvaluation(t, x);
      InOrder(t, t.Instant(t.Evaluations(x) - 1), b);
    }
  }

  // ---- when an alert fires and resolves

  /** The rule is over its threshold in one episode only. */
  ghost predicate OnlyEpisode(rule: Rule, a: nat, b: nat) {
    Episode(rule, a, b) && forall n: nat :: !(a < n <= b) ==> rule.Result(n) == None
  }

  lemma FirstUnique(t: Timing, a: nat, m: nat, m': nat)
    requires a < |t.delivered| && FirstToSee(t, a, m) && FirstToSee(t, a, m')
    ensures m == m'
  {
  }

  lemma SeesWhen(t: Timing, a: nat, m: nat, j: nat)
    requires t.Prompt() && a < |t.delivered| && FirstToSee(t, a, m)
    ensures a < Delivered(t.delivered, t.Instant(j)) <==> m <= j
  {
    InOrder(t, t.Instant(j), a);
    if m <= j {
      Steps(t, m, j);
    } else {
      Steps(t, j, m - 1);
    }
  }

  lemma FiresIffHeld(rule: Rule, t: Timing, m: nat, j: nat)
    requires m <= j && 0 <= rule.hold
    ensures t.Instant(j) - t.Instant(m) >= rule.hold <==> t.Instant(m) + RoundUp(rule.hold) <= t.Instant(j)
  {
    Steps(t, m, j);
    RoundUpIs(rule.hold, j - m);
  }

  /** An alert fires at exactly the evaluations from its `for` duration, rounded up, after the first that
      saw the episode, to before the first that saw it end. */
  lemma FiresBetween(rule: Rule, t: Timing, a: nat, b: nat, m: nat, m': nat, j: nat)
    requires t.Prompt() && |rule.values| <= |t.delivered| && OnlyEpisode(rule, a, b) && 0 <= rule.hold
    requires FirstToSee(t, a, m) && FirstToSee(t, b, m')
    ensures Fires(After(rule, t, j + 1))
      <==> t.Instant(m) + RoundUp(rule.hold) <= t.Instant(j) && j < m'
  {
    SeesWhen(t, a, m, j);
    SeesWhen(t, b, m', j);
    RoundUpPositive(rule.hold);
    if m <= j < m' {
      FiresSince(rule, t, a, b, m, j);
    } else if j < m {
      Steps(t, j + 1, m);
    }
  }

  lemma FiresSince(rule: Rule, t: Timing, a: nat, b: nat, m: nat, j: nat)
    requires t.Prompt() && |rule.values| <= |t.delivered| && Episode(rule, a, b) && 0 <= rule.hold
    requires FirstToSee(t, a, m) && m <= j && a < Delivered(t.delivered, t.Instant(j)) <= b
    ensures Fires(After(rule, t, j + 1)) <==> t.Instant(m) + RoundUp(rule.hold) <= t.Instant(j)
  {
    assert t.Instant(j + 1 - 1) == t.Instant(j);
    var m' := ActiveSince(rule, t, a, b, j + 1);
    FirstUnique(t, a, m, m');
    FiresIffHeld(rule, t, m, j);
  }

  /** The rule is over its threshold in two episodes only. */
  ghost predicate TwoEpisodes(rule: Rule, a: nat, b: nat, c: nat, d: nat) {
    && Episode(rule, a, b) && Episode(rule, c, d) && b <= c
    && forall n: nat :: !(a < n <= b) && !(c < n <= d) ==> rule.Result(n) == None
  }

  /** With two episodes the alert fires at exactly the evaluations of each. */
  lemma FiresTwice(rule: Rule, t: Timing, a: nat, b: nat, c: nat, d: nat, ma: nat, mb: nat, mc: nat, md: nat, j: nat)
    requires t.Prompt() && |rule.values| <= |t.delivered| && TwoEpisodes(rule, a, b, c, d) && 0 <= rule.hold
    requires FirstToSee(t, a, ma) && FirstToSee(t, b, mb) && FirstToSee(t, c, mc) && FirstToSee(t, d, md)
    ensures Fires(After(rule, t, j + 1))
      <==> || (t.Instant(ma) + RoundUp(rule.hold) <= t.Instant(j) && j < mb)
           || (t.Instant(mc) + RoundUp(rule.hold) <= t.Instant(j) && j < md)
  {
    SeesWhen(t, a, ma, j);
    SeesWhen(t, b, mb, j);
    SeesWhen(t, c, mc, j);
    SeesWhen(t, d, md, j);
    RoundUpPositive(rule.hold);
    if ma <= j < mb {
      FiresSince(rule, t, a, b, ma, j);
      NotYetHeld(rule, t, mc, j);
    } else if mc <= j < md {
      FiresSince(rule, t, c, d, mc, j);
    } else {
      NotYetHeld(rule, t, ma, j);
      NotYetHeld(rule, t, mc, j);
    }
  }

  lemma NotYetHeld(rule: Rule, t: Timing, m: nat, j: nat)
    requires 0 <= RoundUp(rule.hold)
    ensures j < m ==> t.Instant(j) < t.Instant(m) + RoundUp(rule.hold)
  {
    if j < m {
      Steps(t, j + 1, m);
    }
  }

  /** The value an active alert shows is that of the latest sample its evaluation saw. */
  lemma ValueSeen(rule: Rule, t: Timing, a: nat, b: nat, j: nat)
    requires t.Prompt() && |rule.values| <= |t.delivered| && Episode(rule, a, b)
    requires a < Delivered(t.delivered, t.Instant(j)) <= b
    ensures var s := After(rule, t, j + 1);
      s.Active? && s.value == rule.values[Delivered(t.delivered, t.Instant(j)) - 1]
  {
    LatestSeen(rule, t, a, b, j + 1, t.Instant(j));
  }

  lemma LatestSeen(rule: Rule, t: Timing, a: nat, b: nat, i: nat, last: Time)
    requires t.Prompt() && |rule.values| <= |t.delivered| && Episode(rule, a, b)
    requires i > 0 && last == t.Instant(i - 1) && a < Delivered(t.delivered, last) <= b
    ensures var s := After(rule, t, i);
      s.Active? && s.value == rule.values[Delivered(t.delivered, last) - 1]
  {
    var m := ActiveSince(rule, t, a, b, i);
  }
}
