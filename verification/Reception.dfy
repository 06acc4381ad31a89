/** What the alert receiver does to the expectations of ONE label set.
    The receiver never lets one label set influence another, so its whole behaviour is the
    product of these per-series steps; AlertServer.dfy proves the imperative code against them. */
module Reception {
  import opened Labels
  import opened ExpectedAlert

  /** What becomes of a queued expectation when the queue is looked at. */
  datatype Fate =
    | Ignored  // dropped whatever the time
    | Excused  // past its deadline, but it need not have come
    | Overdue  // past its deadline
    | Due      // inside its open window
    | Waiting  // before its window, or exactly at its deadline

  function FateOf(ea: Expected, now: Time): Fate {
    if ea.ShouldBeIgnored() then Ignored
    else if ea.Deadline() < now then (if ea.CanBeIgnored() then Excused else Overdue)
    else if ea.ts < now < ea.Deadline() then Due
    else Waiting
  }

  /** The state this alert is in ends at `t`, before the alert is overdue; the very instant it is expected at
      does not count. */
  predicate EndsBefore(ea: Expected, t: Time) {
    t != 0 && (t < ea.ts || ea.ts < t < ea.ts + ea.timeTolerance + 10_000_000_000)
  }

  /** What becomes of an expectation, in nanoseconds. */
  lemma FateExactly(ea: Expected, now: Time)
    ensures var deadline := ea.ts + ea.timeTolerance + 10_000_000_000;
      var dead := || (ea.resolved && ea.ts > ea.resolvedTime + 900_000_000_000)
                  || (ea.nextState != 0 && ea.nextState < ea.ts);
      var spared := EndsBefore(ea, ea.nextState) || (!ea.resolved && EndsBefore(ea, ea.resolvedTime));
      && (FateOf(ea, now) == Ignored <==> dead)
      && (FateOf(ea, now) == Excused <==> !dead && deadline < now && spared)
      && (FateOf(ea, now) == Overdue <==> !dead && deadline < now && !spared)
      && (FateOf(ea, now) == Due <==> !dead && ea.ts < now < deadline)
      && (FateOf(ea, now) == Waiting <==> !dead && (now == deadline || (now < deadline && now <= ea.ts)))
  {
  }

  function Select(q: seq<Expected>, now: Time, fates: set<Fate>): seq<Expected> {
    if q == [] then []
    else (if FateOf(q[0], now) in fates then [q[0]] else []) + Select(q[1..], now, fates)
  }

  function Insert(x: Expected, q: seq<Expected>): seq<Expected> {
    if q == [] then [x]
    else if x.orderingID < q[0].orderingID then [x] + q
    else [q[0]] + Insert(x, q[1..])
  }

  /** Sorted by OrderingID. */
  function Sorted(q: seq<Expected>): seq<Expected> {
    if q == [] then [] else Insert(q[|q| - 1], Sorted(q[..|q| - 1]))
  }

  /** The queue is only sorted again when something was put back. */
  function AddBack(q: seq<Expected>, back: seq<Expected>): seq<Expected> {
    if back == [] then q else Sorted(q + back)
  }

  /** After a match at `now`, the leading resends are expected one resend delay later. */
  function Rebase(q: seq<Expected>, now: Time): seq<Expected> {
    if q == [] || !q[0].resend then q
    else [q[0].(ts := now + (RESEND_DELAY - MAX_RTT))] + Rebase(q[1..], now)
  }

  function FirstMatch(exp: seq<Expected>, now: Time, a: Alert): (k: nat)
    ensures k <= |exp|
    ensures forall i :: 0 <= i < k ==> exp[i].Matches(now, a) != Matched
    ensures k < |exp| ==> exp[k].Matches(now, a) == Matched
  {
    if exp == [] then 0
    else if exp[0].Matches(now, a) == Matched then 0
    else 1 + FirstMatch(exp[1..], now, a)
  }

  /** Is the head of the skipped expectations forgiven? `after` says that the last forgiven one
      was a resend, in which case a following resend has a stale time and is forgiven too. */
  predicate Forgiven(ea: Expected, after: bool) {
    ea.CanBeIgnored() || (after && ea.resend)
  }

  function AfterSkip(ea: Expected, after: bool): bool {
    if ea.CanBeIgnored() then ea.resend else after && ea.resend
  }

  /** The expectations skipped by a match that count as missed (`forgiven` false),
      or that are silently dropped (`forgiven` true). */
  function Skipped(exp: seq<Expected>, after: bool, forgiven: bool): seq<Expected> {
    if exp == [] then [] else
    (if Forgiven(exp[0], after) == forgiven then [exp[0]] else [])
    + Skipped(exp[1..], AfterSkip(exp[0], after), forgiven)
  }

  datatype Match = Match(now: Time, expected: Expected, alert: Alert)
  datatype Unexpected = Unexpected(now: Time, alert: Alert)
  datatype Mismatch = Mismatch(now: Time, expected: Expected, alert: Alert, error: MatchError)

  /** Everything the receiver knows, or did, about one label set. */
  datatype Series = Series(
    queue: seq<Expected>,
    matched: seq<Match>,
    missed: seq<Expected>,
    dropped: seq<Expected>,
    unexpected: seq<Unexpected>,
    mismatches: seq<Mismatch>)

  /** The part of every request, and of the periodic cleanup, that looks at the time only. */
  function Sweep(s: Series, now: Time): Series {
    s.(queue := Select(s.queue, now, {Due, Waiting}),
       missed := s.missed + Select(s.queue, now, {Overdue}),
       dropped := s.dropped + Select(s.queue, now, {Ignored, Excused}))
  }

  /** The `k`-th candidate is hit; those before it are settled, those after it are put back. */
  function MatchedAt(s: Series, now: Time, a: Alert, exp: seq<Expected>, rest: seq<Expected>, k: nat): Series
    requires k < |exp|
  {
    s.(queue := Rebase(AddBack(rest, exp[k + 1..]), now),
       matched := s.matched + [Match(now, exp[k], a)],
       missed := s.missed + Skipped(exp[..k], false, false),
       dropped := s.dropped + Skipped(exp[..k], false, true))
  }

  /** The first alert of this label set in a request. */
  function Receive(s: Series, now: Time, a: Alert): Series {
    var exp := Select(s.queue, now, {Due});
    var rest := Select(s.queue, now, {Waiting});
    if exp == [] then s.(unexpected := s.unexpected + [Unexpected(now, a)])
    else
      var k := FirstMatch(exp, now, a);
      if k < |exp| then MatchedAt(s, now, a, exp, rest, k)
      else
        s.(queue := AddBack(rest, exp),
           mismatches := s.mismatches + [Mismatch(now, exp[0], a, exp[0].Matches(now, a).error)])
  }

  /** Further alerts of the label set in the same request find nothing left to match. */
  function Duplicates(now: Time, als: seq<Alert>): seq<Unexpected> {
    if als == [] then [] else Duplicates(now, als[..|als| - 1]) + [Unexpected(now, als[|als| - 1])]
  }

  /** A non-empty request whose alerts of this label set are `als`. */
  function Serve(s: Series, now: Time, als: seq<Alert>): Series {
    var swept := Sweep(s, now);
    if als == [] then swept
    else
      var r := Receive(swept, now, als[0]);
      r.(unexpected := r.unexpected + Duplicates(now, als[1..]))
  }

  datatype Event = Request(now: Time, batch: seq<Alert>) | Cleanup(now: Time)

  function AlertsOf(batch: seq<Alert>, id: LabelSet): (r: seq<Alert>)
    ensures forall a :: a in r <==> a in batch && a.labels == id
  {
    if batch == [] then [] else
    AlertsOf(batch[..|batch| - 1], id)
    + (if batch[|batch| - 1].labels == id then [batch[|batch| - 1]] else [])
  }

  /** An empty request does nothing at all. */
  function Step(s: Series, id: LabelSet, e: Event): Series {
    match e
    case Request(now, batch) => if batch == [] then s else Serve(s, now, AlertsOf(batch, id))
    case Cleanup(now) => Sweep(s, now)
  }

  function Run(s: Series, id: LabelSet, events: seq<Event>): Series {
    if events == [] then s else Step(Run(s, id, events[..|events| - 1]), id, events[|events| - 1])
  }
}
