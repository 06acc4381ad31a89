/** The expectations of a label set are matched in their order, although resends are rescheduled. */
module MatchOrder {
  import opened Labels
  import opened ExpectedAlert
  import opened Reception
  import opened Conservation
  import opened Verdict

  /** Strictly increasing OrderingIDs. */
  ghost predicate Ordered(q: seq<Expected>) {
    forall i, j :: 0 <= i < j < |q| ==> q[i].orderingID < q[j].orderingID
  }

  ghost predicate DistinctIDs(q: seq<Expected>) {
    forall i, j :: 0 <= i < j < |q| ==> q[i].orderingID != q[j].orderingID
  }

  /** What every table of expectations guarantees, and rescheduling keeps, of x before y:
      their times do not decrease while neither is to be ignored, and a resend is over
      by the time a later first notification is due. */
  predicate InTurn(x: Expected, y: Expected) {
    && (!x.ShouldBeIgnored() && !y.ShouldBeIgnored() ==> x.ts <= y.ts)
    && (x.resend && !y.resend ==> x.nextState != ZERO_TIME && x.nextState <= y.ts)
  }

  ghost predicate Scheduled(q: seq<Expected>) {
    && (forall x, y :: x in q && y in q && x.orderingID < y.orderingID ==> InTurn(x, y))
    && (forall y :: y in q && !y.resend ==> !y.ShouldBeIgnored())
  }

  lemma {:induction false} SelectOrdered(q: seq<Expected>, now: Time, f: set<Fate>)
    requires Ordered(q)
    ensures Ordered(Select(q, now, f))
  {
    if q == [] {
    } else {
      SelectOrdered(q[1..], now, f);
      SelectIn(q[1..], now, f);
      var tail := Select(q[1..], now, f);
      forall j | 0 <= j < |tail| ensures q[0].orderingID < tail[j].orderingID {
        assert tail[j] in q[1..];
      }
    }
  }

  lemma {:induction false} InsertOrdered(x: Expected, q: seq<Expected>)
    requires Ordered(q) && forall ea :: ea in q ==> ea.orderingID != x.orderingID
    ensures Ordered(Insert(x, q))
  {
    if q != [] && q[0].orderingID < x.orderingID {
      assert forall ea :: ea in q[1..] ==> ea in q;
      InsertOrdered(x, q[1..]);
      InsertIn(x, q[1..]);
      var tail := Insert(x, q[1..]);
      forall j | 0 <= j < |tail| ensures q[0].orderingID < tail[j].orderingID {
        assert tail[j] in tail;
      }
    } else if q != [] {
      assert q[0] in q;
    }
  }

  /** Sorting by OrderingID, for the distinct ids of one label set. */
  lemma {:induction false} SortedOrdered(q: seq<Expected>)
    requires DistinctIDs(q)
    ensures Ordered(Sorted(q))
  {
    if q == [] {
    } else {
      var last := |q| - 1;
      SortedOrdered(q[..last]);
      SortedIn(q[..last]);
      InsertOrdered(q[last], Sorted(q[..last]));
    }
  }

  /** Putting back what was taken out restores an ordered queue. */
  lemma AddBackOrdered(q: seq<Expected>, back: seq<Expected>)
    requires Ordered(q) && Ordered(back)
    requires forall x, y :: x in q && y in back ==> x.orderingID != y.orderingID
    ensures Ordered(AddBack(q, back))
    ensures forall ea :: ea in AddBack(q, back) <==> ea in q || ea in back
  {
    var all := q + back;
    forall i, j | 0 <= i < j < |all| ensures all[i].orderingID != all[j].orderingID {
      if i < |q| <= j {
        assert q[i] in q && back[j - |q|] in back;
      }
    }
    SortedOrdered(all);
    SortedIn(all);
  }

  lemma PairRebased(q: seq<Expected>, now: Time, i: nat, j: nat)
    requires Ordered(q) && Scheduled(q) && i < j < |q| == |Rebase(q, now)|
    requires forall ea :: ea in q ==> !ea.ShouldBeIgnored()
    ensures InTurn(Rebase(q, now)[i], Rebase(q, now)[j])
  {
    var n := Lead(q);
    RebaseAt(q, now);
    assert q[i] in q && q[j] in q;
    assert InTurn(q[i], q[j]);
    if i < n <= j {
      assert q[n] in q;
      assert InTurn(q[i], q[n]);
      assert n == j || InTurn(q[n], q[j]);
    }
  }

  lemma ScheduledByIndex(r: seq<Expected>)
    requires Ordered(r)
    requires forall i, j :: 0 <= i < j < |r| ==> InTurn(r[i], r[j])
    requires forall i :: 0 <= i < |r| && !r[i].resend ==> !r[i].ShouldBeIgnored()
    ensures Scheduled(r)
  {
    forall x, y | x in r && y in r && x.orderingID < y.orderingID ensures InTurn(x, y) {
      var i :| 0 <= i < |r| && r[i] == x;
      var j :| 0 <= j < |r| && r[j] == y;
      assert i < j;
    }
  }

  /** The schedule survives rebasing: a rebased resend that would overtake the next first
      notification has gone past its own next state, and is ignored from then on. */
  lemma RebaseScheduled(q: seq<Expected>, now: Time)
    requires Ordered(q) && Scheduled(q)
    requires forall ea :: ea in q ==> !ea.ShouldBeIgnored()
    ensures Ordered(Rebase(q, now)) && Scheduled(Rebase(q, now))
  {
    var r := Rebase(q, now);
    assert Ordered(r) && |r| == |q| && forall i :: 0 <= i < |r| && !r[i].resend ==> r[i] == q[i] && r[i] in q by {
      RebaseAt(q, now);
    }
    forall i, j | 0 <= i < j < |r| ensures InTurn(r[i], r[j]) {
      PairRebased(q, now, i, j);
    }
    ScheduledByIndex(r);
  }

  /** Matched in strictly increasing order, and all that is queued comes later still. */
  ghost predicate MatchedInOrder(s: Series) {
    && (forall i, j :: 0 <= i < j < |s.matched| ==>
          s.matched[i].expected.orderingID < s.matched[j].expected.orderingID)
    && (forall i, ea :: 0 <= i < |s.matched| && ea in s.queue ==>
          s.matched[i].expected.orderingID < ea.orderingID)
  }

  ghost predicate InOrder(s: Series) {
    Ordered(s.queue) && Scheduled(s.queue) && MatchedInOrder(s)
  }

  /** No alert of the label set arrives at the very deadline of a queued expectation. */
  ghost predicate OffDeadline(q: seq<Expected>, id: LabelSet, e: Event) {
    e.Request? && AlertsOf(e.batch, id) != [] ==>
      forall ea :: ea in q && !ea.ShouldBeIgnored() ==> ea.Deadline() != e.now
  }

  ghost predicate RunOffDeadline(s: Series, id: LabelSet, events: seq<Event>) {
    events != [] ==>
      var before := events[..|events| - 1];
      RunOffDeadline(s, id, before) && OffDeadline(Run(s, id, before).queue, id, events[|events| - 1])
  }

  lemma SweepInOrder(s: Series, now: Time)
    requires InOrder(s)
    ensures InOrder(Sweep(s, now)) && Swept(Sweep(s, now).queue, now)
  {
    SelectOrdered(s.queue, now, {Due, Waiting});
    SelectIn(s.queue, now, {Due, Waiting});
  }

  lemma OrderedAfter(exp: seq<Expected>, k: nat)
    requires Ordered(exp) && k < |exp|
    ensures Ordered(exp[k + 1..])
    ensures forall ea :: ea in exp[k + 1..] <==> ea in exp && exp[k].orderingID < ea.orderingID
  {
    var after := exp[k + 1..];
    forall ea | ea in exp && exp[k].orderingID < ea.orderingID ensures ea in after {
      var i :| 0 <= i < |exp| && exp[i] == ea;
      assert after[i - k - 1] == ea;
    }
    forall ea | ea in after ensures ea in exp && exp[k].orderingID < ea.orderingID {
      var j :| 0 <= j < |after| && after[j] == ea;
      assert exp[j + k + 1] == ea;
    }
  }

  /** The Due and the Waiting part of a queue can be put together again. */
  lemma PartsFit(q: seq<Expected>, now: Time, back: seq<Expected>)
    requires Ordered(q) && Ordered(back)
    requires forall ea :: ea in back ==> ea in q && FateOf(ea, now) == Due
    ensures var left := AddBack(Select(q, now, {Waiting}), back);
      && Ordered(left)
      && forall ea :: ea in left <==> (ea in q && FateOf(ea, now) == Waiting) || ea in back
  {
    var rest := Select(q, now, {Waiting});
    SelectIn(q, now, {Waiting});
    SelectOrdered(q, now, {Waiting});
    forall x, y | x in rest && y in back ensures x.orderingID != y.orderingID {
      var i :| 0 <= i < |q| && q[i] == x;
      var j :| 0 <= j < |q| && q[j] == y;
      assert i != j;
    }
    AddBackOrdered(rest, back);
  }

  /** The queue after a match, before it is rebased. */
  lemma AfterMatch(q: seq<Expected>, now: Time, k: nat)
    requires Ordered(q) && Scheduled(q) && Swept(q, now)
    requires k < |Select(q, now, {Due})|
    ensures var exp := Select(q, now, {Due});
      var left := AddBack(Select(q, now, {Waiting}), exp[k + 1..]);
      && Ordered(left) && Scheduled(left)
      && (forall ea :: ea in left <==> ea in q && (FateOf(ea, now) == Waiting || exp[k].orderingID < ea.orderingID))
  {
    var exp := Select(q, now, {Due});
    SelectIn(q, now, {Due});
    SelectOrdered(q, now, {Due});
    OrderedAfter(exp, k);
    PartsFit(q, now, exp[k + 1..]);
  }

  lemma BehindIsEarlier(q: seq<Expected>, ea: Expected, x: Expected, now: Time)
    requires Ordered(q) && Scheduled(q) && ea in q && x in q
    requires FateOf(ea, now) == Waiting && FateOf(x, now) == Due && ea.orderingID <= x.orderingID
    ensures ea.orderingID < x.orderingID && InTurn(ea, x) && ea.Deadline() == now
  {
    var i :| 0 <= i < |q| && q[i] == ea;
    var j :| 0 <= j < |q| && q[j] == x;
    assert i != j;
  }

  /** Exactly when a match leaves an earlier expectation behind that may still be matched, and so
      may break the order: when one was queued whose deadline is the very moment of the match. */
  lemma LeftBehindExactly(q: seq<Expected>, now: Time, k: nat)
    requires Ordered(q) && Scheduled(q) && Swept(q, now)
    requires k < |Select(q, now, {Due})|
    ensures var exp := Select(q, now, {Due});
      var left := AddBack(Select(q, now, {Waiting}), exp[k + 1..]);
      (exists ea :: ea in left && ea.orderingID <= exp[k].orderingID)
      <==> (exists ea :: ea in q && ea.orderingID < exp[k].orderingID && ea.Deadline() == now)
  {
    var exp := Select(q, now, {Due});
    var left := AddBack(Select(q, now, {Waiting}), exp[k + 1..]);
    SelectIn(q, now, {Due});
    AfterMatch(q, now, k);
    assert exp[k] in exp;
    if ea :| ea in left && ea.orderingID <= exp[k].orderingID {
      BehindIsEarlier(q, ea, exp[k], now);
    }
    if ea :| ea in q && ea.orderingID < exp[k].orderingID && ea.Deadline() == now {
      assert FateOf(ea, now) == Waiting;
      assert ea in left;
    }
  }

  lemma LeftAfter(q: seq<Expected>, now: Time, k: nat)
    requires Ordered(q) && Scheduled(q) && Swept(q, now)
    requires forall ea :: ea in q ==> ea.Deadline() != now
    requires k < |Select(q, now, {Due})|
    ensures var exp := Select(q, now, {Due});
      var left := AddBack(Select(q, now, {Waiting}), exp[k + 1..]);
      && Ordered(left) && Scheduled(left)
      && forall ea :: ea in left ==> ea in q && exp[k].orderingID < ea.orderingID
  {
    AfterMatch(q, now, k);
    LeftBehindExactly(q, now, k);
  }

  /** All of `left` comes after `id`, under an id that `q` has. */
  ghost predicate LaterOf(left: seq<Expected>, q: seq<Expected>, id: int) {
    forall i :: 0 <= i < |left| ==>
      && id < left[i].orderingID
      && exists ea :: ea in q && ea.orderingID == left[i].orderingID
  }

  lemma RebaseLater(left: seq<Expected>, q: seq<Expected>, id: int, now: Time)
    requires forall ea :: ea in left ==> ea in q && id < ea.orderingID
    ensures LaterOf(Rebase(left, now), q, id)
  {
    RebaseAt(left, now);
    forall i | 0 <= i < |left|
      ensures id < Rebase(left, now)[i].orderingID
      ensures exists ea :: ea in q && ea.orderingID == Rebase(left, now)[i].orderingID
    {
      assert left[i] in left;
    }
  }

  /** What is left to match comes after the match, and was queued before it. */
  lemma LeftIsLater(q: seq<Expected>, now: Time, k: nat)
    requires Ordered(q) && Scheduled(q) && Swept(q, now)
    requires forall ea :: ea in q ==> ea.Deadline() != now
    requires k < |Select(q, now, {Due})|
    ensures var exp := Select(q, now, {Due});
      var left := Rebase(AddBack(Select(q, now, {Waiting}), exp[k + 1..]), now);
      Ordered(left) && Scheduled(left) && LaterOf(left, q, exp[k].orderingID)
  {
    var exp := Select(q, now, {Due});
    var left := AddBack(Select(q, now, {Waiting}), exp[k + 1..]);
    LeftAfter(q, now, k);
    RebaseLater(left, q, exp[k].orderingID, now);
    RebaseScheduled(left, now);
  }

  lemma MatchKeepsOrder(s: Series, now: Time, a: Alert, k: nat)
    requires InOrder(s) && Swept(s.queue, now)
    requires forall ea :: ea in s.queue ==> ea.Deadline() != now
    requires k == FirstMatch(Select(s.queue, now, {Due}), now, a) < |Select(s.queue, now, {Due})|
    ensures InOrder(Receive(s, now, a))
  {
    var exp := Select(s.queue, now, {Due});
    var left := Rebase(AddBack(Select(s.queue, now, {Waiting}), exp[k + 1..]), now);
    LeftIsLater(s.queue, now, k);
    assert exp[k] in s.queue by {
      SelectIn(s.queue, now, {Due});
    }
    ExtendOrder(s, left, Match(now, exp[k], a));
    MatchLeaves(s, now, a, exp, left, k);
    SameOrder(s.(queue := left, matched := s.matched + [Match(now, exp[k], a)]), Receive(s, now, a));
  }

  lemma SameOrder(s: Series, r: Series)
    requires InOrder(s) && r.queue == s.queue && r.matched == s.matched
    ensures InOrder(r)
  {
  }

  lemma MatchLeaves(s: Series, now: Time, a: Alert, exp: seq<Expected>, left: seq<Expected>, k: nat)
    requires exp == Select(s.queue, now, {Due}) && k == FirstMatch(exp, now, a) < |exp|
    requires left == Rebase(AddBack(Select(s.queue, now, {Waiting}), exp[k + 1..]), now)
    ensures Receive(s, now, a).queue == left && Receive(s, now, a).matched == s.matched + [Match(now, exp[k], a)]
  {
  }

  lemma ExtendOrder(s: Series, left: seq<Expected>, m: Match)
    requires MatchedInOrder(s) && m.expected in s.queue
    requires LaterOf(left, s.queue, m.expected.orderingID)
    ensures MatchedInOrder(s.(queue := left, matched := s.matched + [m]))
  {
    forall i, ea | 0 <= i < |s.matched| + 1 && ea in left
      ensures (s.matched + [m])[i].expected.orderingID < ea.orderingID
    {
      var j :| 0 <= j < |left| && left[j] == ea;
    }
  }

  lemma ReceiveInOrder(s: Series, now: Time, a: Alert)
    requires InOrder(s) && Swept(s.queue, now)
    requires forall ea :: ea in s.queue ==> ea.Deadline() != now
    ensures InOrder(Receive(s, now, a))
  {
    var exp := Select(s.queue, now, {Due});
    var k := FirstMatch(exp, now, a);
    if exp == [] {
    } else if k < |exp| {
      MatchKeepsOrder(s, now, a, k);
    } else {
      SelectIn(s.queue, now, {Due});
      SelectOrdered(s.queue, now, {Due});
      PartsFit(s.queue, now, exp);
    }
  }

  /** Match order: whatever the clock does, as long as no alert arrives at the very deadline of a
      queued expectation, the matched expectations have strictly increasing OrderingIDs. */
  lemma {:induction false} RunInOrder(s: Series, id: LabelSet, events: seq<Event>)
    requires InOrder(s) && RunOffDeadline(s, id, events)
    ensures InOrder(Run(s, id, events))
  {
    if events == [] {
    } else {
      var before, e := events[..|events| - 1], events[|events| - 1];
      RunInOrder(s, id, before);
      var t := Run(s, id, before);
      SweepInOrder(t, e.now);
      SelectIn(t.queue, e.now, {Due, Waiting});
      if e.Request? && AlertsOf(e.batch, id) != [] {
        ReceiveInOrder(Sweep(t, e.now), e.now, AlertsOf(e.batch, id)[0]);
      }
    }
  }
}
