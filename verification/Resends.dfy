/** Rescheduling resends after every match keeps up with a sender that drifts. */
module Resends {
  import opened Labels
  import opened ExpectedAlert
  import opened Reception
  import opened Conservation
  import opened Verdict
  import opened MatchOrder

  /** The position of the first expectation that is not to be ignored. */
  function FirstLive(q: seq<Expected>): (n: nat)
    ensures n <= |q|
    ensures forall i :: 0 <= i < n ==> q[i].ShouldBeIgnored()
    ensures n < |q| ==> !q[n].ShouldBeIgnored()
  {
    if q == [] || !q[0].ShouldBeIgnored() then 0 else 1 + FirstLive(q[1..])
  }

  /** A resend is next. */
  predicate ResendNext(q: seq<Expected>) {
    FirstLive(q) < |q| && q[FirstLive(q)].resend
  }

  function RebasedTs(m: Time): Time {
    m + (RESEND_DELAY - MAX_RTT)
  }

  /** The queue as a match at `m` leaves it. */
  ghost predicate RebasedAt(q: seq<Expected>, m: Time, tolerance: Duration) {
    && Ordered(q) && Scheduled(q)
    && (forall ea :: ea in q ==> tolerance <= ea.timeTolerance)
    && (ResendNext(q) ==> q[FirstLive(q)].ts == RebasedTs(m))
  }

  predicate Delivers(id: LabelSet, e: Event) {
    e.Request? && AlertsOf(e.batch, id) != []
  }

  /** The time of the last arrival for the label set, `m` before the first. */
  function LastArrival(m: Time, id: LabelSet, events: seq<Event>): Time {
    if events == [] then m
    else if Delivers(id, events[|events| - 1]) then events[|events| - 1].now
    else LastArrival(m, id, events[..|events| - 1])
  }

  /** While resends remain, the alert comes back alone within the tolerance of one resend delay after
      the last arrival, with the payload of the next resend; cleanups and the requests
      of other series fall anywhere before the window closes. */
  ghost predicate KeepsUp(s: Series, m: Time, tolerance: Duration, id: LabelSet, events: seq<Event>) {
    events != [] ==>
      var before, e := events[..|events| - 1], events[|events| - 1];
      var q, last := Run(s, id, before).queue, LastArrival(m, id, before);
      && KeepsUp(s, m, tolerance, id, before)
      && ResendNext(q)
      && if Delivers(id, e) then
           && |AlertsOf(e.batch, id)| == 1
           && RebasedTs(last) < e.now < RebasedTs(last) + tolerance + 2 * MAX_RTT
           && q[FirstLive(q)].alert.labels == id
           && q[FirstLive(q)].ContentMatches(e.now, AlertsOf(e.batch, id)[0])
         else
           e.now <= RebasedTs(last) + tolerance + 2 * MAX_RTT
  }

  /** Each arrival matched with the lowest-ordered resend left at that moment. */
  function ResendMatches(s: Series, id: LabelSet, events: seq<Event>): seq<Match> {
    if events == [] then [] else
    var before, e := events[..|events| - 1], events[|events| - 1];
    var q := Run(s, id, before).queue;
    ResendMatches(s, id, before)
    + if Delivers(id, e) && ResendNext(q) then [Match(e.now, q[FirstLive(q)], AlertsOf(e.batch, id)[0])] else []
  }

  lemma IgnoredIs(ea: Expected, now: Time)
    ensures FateOf(ea, now) == Ignored <==> ea.ShouldBeIgnored()
  {
  }

  lemma {:induction false} SelectHead(q: seq<Expected>, now: Time, f: set<Fate>)
    requires FirstLive(q) < |q| && Ignored !in f && FateOf(q[FirstLive(q)], now) in f
    ensures |Select(q, now, f)| > 0 && Select(q, now, f)[0] == q[FirstLive(q)]
  {
    IgnoredIs(q[0], now);
    if q[0].ShouldBeIgnored() {
      assert q[1..][FirstLive(q[1..])] == q[FirstLive(q)];
      SelectHead(q[1..], now, f);
      assert Select(q, now, f) == Select(q[1..], now, f);
    } else {
      assert FirstLive(q) == 0;
    }
  }

  /** No live expectation is past its deadline while the next resend is not. */
  lemma NothingOverdue(q: seq<Expected>, m: Time, tolerance: Duration, now: Time)
    requires RebasedAt(q, m, tolerance) && ResendNext(q)
    requires now <= RebasedTs(m) + tolerance + 2 * MAX_RTT
    ensures Select(q, now, {Overdue}) == []
    ensures forall ea :: ea in q && !ea.ShouldBeIgnored() ==> FateOf(ea, now) in {Due, Waiting}
  {
    forall ea | ea in q && !ea.ShouldBeIgnored() ensures FateOf(ea, now) in {Due, Waiting} {
      var i :| 0 <= i < |q| && q[i] == ea;
      var head := q[FirstLive(q)];
      assert head in q;
      if i != FirstLive(q) {
        assert FirstLive(q) < i;
        assert InTurn(head, ea);
      }
    }
    SelectNone(q, now, {Overdue});
  }

  lemma {:induction false} SelectNone(q: seq<Expected>, now: Time, f: set<Fate>)
    requires forall ea :: ea in q ==> FateOf(ea, now) !in f
    ensures Select(q, now, f) == []
  {
    if q == [] {
    } else {
      assert q[0] in q && forall ea :: ea in q[1..] ==> ea in q;
      SelectNone(q[1..], now, f);
    }
  }

  lemma SweepKeepsRebased(s: Series, m: Time, tolerance: Duration, now: Time)
    requires RebasedAt(s.queue, m, tolerance) && ResendNext(s.queue)
    requires now <= RebasedTs(m) + tolerance + 2 * MAX_RTT
    ensures var r := Sweep(s, now);
      && RebasedAt(r.queue, m, tolerance) && ResendNext(r.queue) && Swept(r.queue, now)
      && FirstLive(r.queue) == 0 && r.queue[0] == s.queue[FirstLive(s.queue)]
      && r.missed == s.missed
  {
    NothingOverdue(s.queue, m, tolerance, now);
    SelectOrdered(s.queue, now, {Due, Waiting});
    SelectIn(s.queue, now, {Due, Waiting});
    assert s.queue[FirstLive(s.queue)] in s.queue;
    SelectHead(s.queue, now, {Due, Waiting});
  }

  lemma RebaseNext(q: seq<Expected>, now: Time)
    requires forall i :: 0 <= i < |q| && !q[i].resend ==> !q[i].ShouldBeIgnored()
    requires ResendNext(Rebase(q, now))
    ensures Rebase(q, now)[FirstLive(Rebase(q, now))].ts == RebasedTs(now)
  {
    RebaseAt(q, now);
    var r, n, f := Rebase(q, now), Lead(q), FirstLive(Rebase(q, now));
    assert n < |q| ==> r[n] == q[n];
    assert f < n;
    assert r[f] == q[f].(ts := now + RESEND_DELAY - MAX_RTT);
  }

  /** What a match leaves is ready for the next resend. */
  lemma LeftRebased(q: seq<Expected>, tolerance: Duration, now: Time, k: nat)
    requires Ordered(q) && Scheduled(q) && Swept(q, now)
    requires forall ea :: ea in q ==> tolerance <= ea.timeTolerance
    requires k < |Select(q, now, {Due})|
    ensures RebasedAt(Rebase(AddBack(Select(q, now, {Waiting}), Select(q, now, {Due})[k + 1..]), now), now, tolerance)
  {
    var left := AddBack(Select(q, now, {Waiting}), Select(q, now, {Due})[k + 1..]);
    AfterMatch(q, now, k);
    RebaseScheduled(left, now);
    assert forall i :: 0 <= i < |left| ==> left[i] in left;
    forall ea | ea in Rebase(left, now) ensures tolerance <= ea.timeTolerance {
      RebaseAt(left, now);
      var i :| 0 <= i < |left| && Rebase(left, now)[i] == ea;
      assert left[i] in q;
    }
    if ResendNext(Rebase(left, now)) {
      RebaseNext(left, now);
    }
  }

  /** The next resend is due and is the first to match. */
  lemma ReceiveResend(s: Series, m: Time, tolerance: Duration, now: Time, a: Alert)
    requires RebasedAt(s.queue, m, tolerance) && ResendNext(s.queue) && Swept(s.queue, now)
    requires FirstLive(s.queue) == 0
    requires RebasedTs(m) < now < RebasedTs(m) + tolerance + 2 * MAX_RTT
    requires s.queue[0].alert.labels == a.labels && s.queue[0].ContentMatches(now, a)
    ensures var r := Receive(s, now, a);
      && RebasedAt(r.queue, now, tolerance)
      && r.matched == s.matched + [Match(now, s.queue[0], a)]
      && r.missed == s.missed && r.unexpected == s.unexpected && r.mismatches == s.mismatches
  {
    NextIsDue(s.queue, m, now, a, tolerance);
    MatchAtHead(s, now, a, Select(s.queue, now, {Due}), Select(s.queue, now, {Waiting}));
    LeftRebased(s.queue, tolerance, now, 0);
  }

  lemma NextIsDue(q: seq<Expected>, m: Time, now: Time, a: Alert, tolerance: Duration)
    requires RebasedAt(q, m, tolerance) && ResendNext(q) && FirstLive(q) == 0
    requires RebasedTs(m) < now < RebasedTs(m) + tolerance + 2 * MAX_RTT
    requires q[0].alert.labels == a.labels && q[0].ContentMatches(now, a)
    ensures var exp := Select(q, now, {Due});
      exp != [] && exp[0] == q[0] && FirstMatch(exp, now, a) == 0
  {
    assert q[0] in q;
    assert FateOf(q[0], now) == Due;
    SelectHead(q, now, {Due});
    MatchesExactly(q[0], now, a);
  }

  /** What is received when the first candidate matches. */
  lemma MatchAtHead(s: Series, now: Time, a: Alert, exp: seq<Expected>, rest: seq<Expected>)
    requires exp == Select(s.queue, now, {Due}) && rest == Select(s.queue, now, {Waiting})
    requires exp != [] && FirstMatch(exp, now, a) == 0
    ensures Receive(s, now, a) == s.(
      queue := Rebase(AddBack(rest, exp[1..]), now),
      matched := s.matched + [Match(now, exp[0], a)])
  {
    MatchedAtHead(s, now, a, exp, rest);
  }

  lemma MatchedAtHead(s: Series, now: Time, a: Alert, exp: seq<Expected>, rest: seq<Expected>)
    requires exp != []
    ensures MatchedAt(s, now, a, exp, rest, 0) == s.(
      queue := Rebase(AddBack(rest, exp[1..]), now),
      matched := s.matched + [Match(now, exp[0], a)])
  {
    assert Skipped(exp[..0], false, false) == [] && Skipped(exp[..0], false, true) == [];
  }

  lemma StepKeepsUp(s: Series, m: Time, tolerance: Duration, id: LabelSet, e: Event)
    requires RebasedAt(s.queue, m, tolerance) && ResendNext(s.queue)
    requires if Delivers(id, e) then
        && |AlertsOf(e.batch, id)| == 1
        && RebasedTs(m) < e.now < RebasedTs(m) + tolerance + 2 * MAX_RTT
        && s.queue[FirstLive(s.queue)].alert.labels == id
        && s.queue[FirstLive(s.queue)].ContentMatches(e.now, AlertsOf(e.batch, id)[0])
      else
        e.now <= RebasedTs(m) + tolerance + 2 * MAX_RTT
    ensures var r := Step(s, id, e);
      && RebasedAt(r.queue, if Delivers(id, e) then e.now else m, tolerance)
      && r.matched == s.matched +
          (if Delivers(id, e) then [Match(e.now, s.queue[FirstLive(s.queue)], AlertsOf(e.batch, id)[0])] else [])
      && r.missed == s.missed && r.unexpected == s.unexpected && r.mismatches == s.mismatches
  {
    SweepKeepsRebased(s, m, tolerance, e.now);
    if Delivers(id, e) {
      var als := AlertsOf(e.batch, id);
      assert als[0] in als && als[1..] == [];
      ReceiveResend(Sweep(s, e.now), m, tolerance, e.now, als[0]);
    }
  }

  /** Rebasing sustains itself: from a match at `m` on, for any number of resends and any cleanups
      and requests of other series in between, each arrival that keeps up matches the lowest-ordered
      resend left, and nothing about the label set is missed, unexpected or mismatched. */
  lemma {:induction false} ResendsSustained(s: Series, m: Time, tolerance: Duration, id: LabelSet, events: seq<Event>)
    requires RebasedAt(s.queue, m, tolerance)
    requires KeepsUp(s, m, tolerance, id, events)
    ensures var r := Run(s, id, events);
      && RebasedAt(r.queue, LastArrival(m, id, events), tolerance)
      && r.matched == s.matched + ResendMatches(s, id, events)
      && r.missed == s.missed && r.unexpected == s.unexpected && r.mismatches == s.mismatches
  {
    if events == [] {
    } else {
      var before, e := events[..|events| - 1], events[|events| - 1];
      ResendsSustained(s, m, tolerance, id, before);
      StepKeepsUp(Run(s, id, before), LastArrival(m, id, before), tolerance, id, e);
    }
  }

  /** What every run keeps, whatever the clock does. */
  ghost predicate Orderly(q: seq<Expected>, tolerance: Duration) {
    Ordered(q) && Scheduled(q) && forall ea :: ea in q ==> tolerance <= ea.timeTolerance
  }

  lemma SweepOrderly(q: seq<Expected>, tolerance: Duration, now: Time)
    requires Orderly(q, tolerance)
    ensures Orderly(Select(q, now, {Due, Waiting}), tolerance) && Swept(Select(q, now, {Due, Waiting}), now)
  {
    SelectOrdered(q, now, {Due, Waiting});
    SelectIn(q, now, {Due, Waiting});
  }

  /** Nothing matched, and all is put back. */
  lemma PutBackOrderly(q: seq<Expected>, tolerance: Duration, now: Time)
    requires Orderly(q, tolerance)
    ensures Orderly(AddBack(Select(q, now, {Waiting}), Select(q, now, {Due})), tolerance)
  {
    SelectIn(q, now, {Due});
    SelectOrdered(q, now, {Due});
    PartsFit(q, now, Select(q, now, {Due}));
    var left := AddBack(Select(q, now, {Waiting}), Select(q, now, {Due}));
    assert forall ea :: ea in left ==> ea in q;
  }

  lemma MatchOrderly(q: seq<Expected>, tolerance: Duration, now: Time, k: nat)
    requires Orderly(q, tolerance) && Swept(q, now) && k < |Select(q, now, {Due})|
    ensures var left := Rebase(AddBack(Select(q, now, {Waiting}), Select(q, now, {Due})[k + 1..]), now);
      RebasedAt(left, now, tolerance) && Orderly(left, tolerance)
  {
    LeftRebased(q, tolerance, now, k);
  }

  /** The three outcomes for the queue. */
  lemma QueueAfterReceive(s: Series, now: Time, a: Alert, exp: seq<Expected>, rest: seq<Expected>, k: nat)
    requires exp == Select(s.queue, now, {Due}) && rest == Select(s.queue, now, {Waiting})
    requires k == FirstMatch(exp, now, a)
    ensures var r := Receive(s, now, a);
      if exp == [] then r.queue == s.queue && r.matched == s.matched
      else if k < |exp| then r.queue == Rebase(AddBack(rest, exp[k + 1..]), now)
      else r.queue == AddBack(rest, exp) && r.matched == s.matched
  {
  }

  lemma ReceiveOrderly(s: Series, tolerance: Duration, now: Time, a: Alert)
    requires Orderly(s.queue, tolerance) && Swept(s.queue, now)
    ensures Orderly(Receive(s, now, a).queue, tolerance)
    ensures |Receive(s, now, a).matched| > |s.matched| ==> RebasedAt(Receive(s, now, a).queue, now, tolerance)
  {
    var exp := Select(s.queue, now, {Due});
    var k := FirstMatch(exp, now, a);
    QueueAfterReceive(s, now, a, exp, Select(s.queue, now, {Waiting}), k);
    if k < |exp| {
      MatchOrderly(s.queue, tolerance, now, k);
    } else {
      PutBackOrderly(s.queue, tolerance, now);
    }
  }

  lemma StepOrderly(s: Series, id: LabelSet, e: Event, tolerance: Duration)
    requires Orderly(s.queue, tolerance)
    ensures Orderly(Step(s, id, e).queue, tolerance)
    ensures |Step(s, id, e).matched| > |s.matched| ==> RebasedAt(Step(s, id, e).queue, e.now, tolerance)
  {
    SweepOrderly(s.queue, tolerance, e.now);
    if Delivers(id, e) {
      ReceiveOrderly(Sweep(s, e.now), tolerance, e.now, AlertsOf(e.batch, id)[0]);
    }
  }

  lemma {:induction false} RunOrderly(s: Series, id: LabelSet, events: seq<Event>, tolerance: Duration)
    requires Orderly(s.queue, tolerance)
    ensures Orderly(Run(s, id, events).queue, tolerance)
  {
    if events == [] {
    } else {
      RunOrderly(s, id, events[..|events| - 1], tolerance);
      StepOrderly(Run(s, id, events[..|events| - 1]), id, events[|events| - 1], tolerance);
    }
  }

  /** Every match of a run starts such a chain, whatever happened before. */
  lemma MatchStartsChain(s: Series, id: LabelSet, tolerance: Duration, before: seq<Event>, e: Event)
    requires Orderly(s.queue, tolerance)
    requires |Step(Run(s, id, before), id, e).matched| > |Run(s, id, before).matched|
    ensures RebasedAt(Step(Run(s, id, before), id, e).queue, e.now, tolerance)
  {
    RunOrderly(s, id, before, tolerance);
    StepOrderly(Run(s, id, before), id, e, tolerance);
  }
}
