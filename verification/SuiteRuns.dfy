/** What the theorems about the receiver say of the suite's own tables. */
module SuiteRuns {
  import opened Labels
  import opened ExpectedAlert
  import opened Reception
  import opened Conservation
  import opened Verdict
  import opened MatchOrder
  import opened ForwardOrder
  import opened Resends
  import opened ServerState
  import opened CaseLabels
  import opened CaseTables
  import opened TestSuite

  /** On the suite's own tables: from any match on, at whatever point of whatever run, resends that
      keep up are matched one after the other, and nothing is missed, unexpected or mismatched. */
  lemma SuiteResends(cases: set<Case>, z: Time, id: LabelSet, before: seq<Event>, e: Event, events: seq<Event>)
    requires ZERO_TIME <= z
    requires var s := Run(Fresh(SuiteQueue(cases, z, id)), id, before);
      |Step(s, id, e).matched| > |s.matched| && KeepsUp(Step(s, id, e), e.now, GROUP_INTERVAL, id, events)
    ensures var m := Step(Run(Fresh(SuiteQueue(cases, z, id)), id, before), id, e);
      var r := Run(m, id, events);
      && r.matched == m.matched + ResendMatches(m, id, events)
      && r.missed == m.missed && r.unexpected == m.unexpected && r.mismatches == m.mismatches
  {
    SuiteGood(cases, z, id);
    var s := Fresh(SuiteQueue(cases, z, id));
    MatchStartsChain(s, id, GROUP_INTERVAL, before, e);
    ResendsSustained(Step(Run(s, id, before), id, e), e.now, GROUP_INTERVAL, id, events);
  }

  // ---- a clock that runs back can break the order

  /** At `now` `first` is at its deadline, `second` is due, and nothing else before `first` is. */
  ghost predicate AtDeadline(q: seq<Expected>, now: Time, first: Expected, second: Expected) {
    && first in q && second in q && !first.resend && !first.ShouldBeIgnored()
    && first.Deadline() == now && FateOf(second, now) == Due
    && forall ea :: ea in q && FateOf(ea, now) == Due ==> first.orderingID < ea.orderingID
  }

  lemma OneAlert(s: Series, id: LabelSet, now: Time, a: Alert)
    requires a.labels == id
    ensures Step(s, id, Request(now, [a])).queue == Receive(Sweep(s, now), now, a).queue
    ensures Step(s, id, Request(now, [a])).matched == Receive(Sweep(s, now), now, a).matched
  {
    assert AlertsOf([a], id) == [a];
  }

  lemma {:induction false} SelectAgain(q: seq<Expected>, now: Time)
    ensures Select(Select(q, now, {Due, Waiting}), now, {Due}) == Select(q, now, {Due})
  {
    if q == [] {
    } else {
      SelectAgain(q[1..], now);
      var rest := Select(q[1..], now, {Due, Waiting});
      if FateOf(q[0], now) in {Due, Waiting} {
        assert Select(q, now, {Due, Waiting}) == [q[0]] + rest && ([q[0]] + rest)[1..] == rest;
      } else {
        assert Select(q, now, {Due, Waiting}) == rest;
      }
    }
  }

  /** A request at the deadline of `first` is matched with a later expectation. */
  lemma LaterMatches(q: seq<Expected>, now: Time, a: Alert, first: Expected, second: Expected) returns (k: nat)
    requires Ordered(q) && AtDeadline(q, now, first, second) && second.Matches(now, a) == Matched
    ensures var exp := Select(q, now, {Due});
      k == FirstMatch(exp, now, a) < |exp| && first.orderingID < exp[k].orderingID
  {
    var exp := Select(q, now, {Due});
    SelectOrdered(q, now, {Due});
    SelectIn(q, now, {Due});
    FirstMatchUpTo(exp, now, a, second);
    k := FirstMatch(exp, now, a);
    assert exp[k] in exp;
  }

  lemma SweptAtDeadline(q: seq<Expected>, now: Time, first: Expected, second: Expected)
    requires Ordered(q) && Scheduled(q) && AtDeadline(q, now, first, second)
    ensures var swept := Select(q, now, {Due, Waiting});
      Ordered(swept) && Scheduled(swept) && Swept(swept, now) && AtDeadline(swept, now, first, second)
  {
    SelectOrdered(q, now, {Due, Waiting});
    SelectIn(q, now, {Due, Waiting});
  }

  lemma FirstRequest(s: Series, id: LabelSet, now: Time, now': Time, a: Alert, first: Expected, second: Expected)
    requires a.labels == id && s.matched == [] && Ordered(s.queue) && Scheduled(s.queue)
    requires AtDeadline(s.queue, now, first, second)
    requires second.Matches(now, a) == Matched && first.Matches(now', a) == Matched
    ensures var r := Step(s, id, Request(now, [a]));
      |r.matched| == 1 && MatchesEarlier(r.queue, now', a, r.matched[0].expected.orderingID)
  {
    var swept := Sweep(s, now);
    SweptAtDeadline(s.queue, now, first, second);
    var k := LaterMatches(swept.queue, now, a, first, second);
    BreakTo(swept.queue, now, k, first, now', a);
    var exp := Select(swept.queue, now, {Due});
    MatchLeaves(swept, now, a, exp, Rebase(AddBack(Select(swept.queue, now, {Waiting}), exp[k + 1..]), now), k);
    OneAlert(s, id, now, a);
  }

  lemma SecondRequest(s: Series, id: LabelSet, now: Time, a: Alert)
    requires a.labels == id && |s.matched| == 1
    requires MatchesEarlier(s.queue, now, a, s.matched[0].expected.orderingID)
    ensures !MatchesRise(Step(s, id, Request(now, [a])))
  {
    SelectAgain(s.queue, now);
    OneAlert(s, id, now, a);
    var exp := Select(Sweep(s, now).queue, now, {Due});
    var k := FirstMatch(exp, now, a);
    var left := Rebase(AddBack(Select(Sweep(s, now).queue, now, {Waiting}), exp[k + 1..]), now);
    MatchLeaves(Sweep(s, now), now, a, exp, left, k);
    var matched := Step(s, id, Request(now, [a])).matched;
    assert matched == s.matched + [Match(now, exp[k], a)];
    assert matched[0].expected.orderingID >= matched[1].expected.orderingID;
  }

  lemma RunOfTwo(s: Series, id: LabelSet, e: Event, e': Event)
    ensures Run(s, id, [e, e']) == Step(Step(s, id, e), id, e')
  {
    assert [e, e'][..1] == [e] && [e][..0] == [];
    assert Run(s, id, [e]) == Step(Run(s, id, []), id, e);
  }

  /** The two requests break the order, wherever the second goes back into the window of `first`. */
  lemma TwoRequests(s: Series, id: LabelSet, now: Time, now': Time, a: Alert, first: Expected, second: Expected)
    requires a.labels == id && s.matched == [] && Ordered(s.queue) && Scheduled(s.queue)
    requires AtDeadline(s.queue, now, first, second)
    requires second.Matches(now, a) == Matched && first.Matches(now', a) == Matched
    ensures !MatchesRise(Run(s, id, [Request(now, [a]), Request(now', [a])]))
  {
    FirstRequest(s, id, now, now', a, first, second);
    SecondRequest(Step(s, id, Request(now, [a])), id, now', a);
    RunOfTwo(s, id, Request(now, [a]), Request(now', [a]));
  }

  /** A firing block and the resolved block after it, at the deadline of the first resolved notification. */
  lemma ResolvedAtDeadline(f: Block, r: Block)
    requires BlockOk(f) && BlockOk(r) && f.until <= r.from && f.firstTolerance == GROUP_INTERVAL
    requires !r.firstResend && r.firstTolerance == 2 * GROUP_INTERVAL && 1 < Count(r)
    ensures AtDeadline(Rows(f, 1, 1) + Rows(r, 1 + Count(f), 1), r.from + 70 * SECOND,
                       Row(r, 0, 1 + Count(f)), Row(r, 1, 2 + Count(f)))
  {
    FiringIsOver(f, r.from + 70 * SECOND);
    FirstOfRows(r, 1 + Count(f));
    RowIs(r, 0, 1 + Count(f));
    RowIs(r, 1, 2 + Count(f));
  }

  lemma FiringIsOver(f: Block, now: Time)
    requires BlockOk(f) && f.firstTolerance == GROUP_INTERVAL && f.until + GROUP_INTERVAL + 2 * MAX_RTT <= now
    ensures forall ea :: ea in Rows(f, 1, 1) ==> ea.Deadline() < now
  {
    var firing := Rows(f, 1, 1);
    RowsAt(f, 1, 1, Count(f));
    forall ea | ea in firing ensures ea.Deadline() < now {
      var i :| 0 <= i < |firing| && firing[i] == ea;
      RowIs(f, i, 1 + i);
    }
  }

  lemma FirstOfRows(r: Block, firstID: int)
    requires 1 < Count(r)
    ensures var first, second := Row(r, 0, firstID), Row(r, 1, firstID + 1);
      && first in Rows(r, firstID, 1) && second in Rows(r, firstID, 1)
      && forall ea :: ea in Rows(r, firstID, 1) ==> ea == first || first.orderingID < ea.orderingID
  {
    var resolved := Rows(r, firstID, 1);
    RowsAt(r, firstID, 1, Count(r));
    assert resolved[0] == Row(r, 0, firstID) && resolved[1] == Row(r, 1, firstID + 1);
    forall ea | ea in resolved ensures ea == resolved[0] || resolved[0].orderingID < ea.orderingID {
      var i :| 0 <= i < |resolved| && resolved[i] == ea;
    }
  }

  lemma ChainOfBoth(blocks: seq<Block>, firstID: int)
    requires |blocks| == 2
    ensures Chain(blocks, firstID, 1) == Rows(blocks[0], firstID, 1) + Rows(blocks[1], firstID + Count(blocks[0]), 1)
  {
    var next := firstID + Count(blocks[0]);
    assert Chain(blocks[1..][1..], next + Count(blocks[1]), 1) == [];
    assert Chain(blocks[1..], next, 1) == Rows(blocks[1], next, 1);
  }

  /** The queue of the label set that the first part of a table is about. */
  lemma QueueOfFirst(table: seq<Expected>, a: seq<Expected>, la: LabelSet, rest: seq<Expected>)
    requires table == a + rest && PartsFitTogether(a, la, rest, la)
    ensures QueueFrom(table, la) == a
  {
    ProjectConcat(a, rest, ExpectedKey, la);
    ProjectUniform(a, ExpectedKey, la, la);
    assert Project(table, ExpectedKey, la) == a;
    GoodQueueFrom(table, la);
  }

  lemma R11Queue(tc: OrderCase, z: Time)
    requires ZERO_TIME <= z && tc.Distinct()
    ensures QueueFrom(OrderTable(tc, z), tc.r11) == Chain(R11Blocks(tc, z), 1, 1)
  {
    OrderParts(tc, z, tc.r11);
    QueueOfFirst(OrderTable(tc, z), Chain(R11Blocks(tc, z), 1, 1), tc.r11,
                 LaterTable(LaterBlocks(tc.r12, tc.r1Annotations, z),
                            LaterBlocks(tc.r2, tc.r2Annotations, z), 1 + Total(R11Blocks(tc, z))));
  }

  /** An alert of variant one, at `seconds` after it resolves. */
  function R11Request(tc: OrderCase, z: Time, seconds: int): Event {
    Request(At(z, 73) + seconds * SECOND, [Alert(tc.r11, tc.r1Annotations, ZERO_TIME, ZERO_TIME, NoURL)])
  }

  /** The `i`-th notification that variant one is resolved. */
  function R11Resolved(tc: OrderCase, z: Time, i: nat): Expected {
    var blocks := R11Blocks(tc, z);
    Row(blocks[1], i, 1 + Count(blocks[0]) + i)
  }

  lemma R11AtDeadline(tc: OrderCase, z: Time)
    requires ZERO_TIME <= z
    ensures AtDeadline(Chain(R11Blocks(tc, z), 1, 1), At(z, 73) + 70 * SECOND,
                       R11Resolved(tc, z, 0), R11Resolved(tc, z, 1))
  {
    var blocks := R11Blocks(tc, z);
    ChainOfBoth(blocks, 1);
    CountIs(blocks[1], 1);
    R11Sequence(tc, z);
    assert BlockOk(blocks[0]) && BlockOk(blocks[1]);
    ResolvedAtDeadline(blocks[0], blocks[1]);
  }

  lemma R11Breaks(tc: OrderCase, z: Time, q: seq<Expected>)
    requires ZERO_TIME <= z && q == Chain(R11Blocks(tc, z), 1, 1) && Ordered(q) && Scheduled(q)
    ensures !MatchesRise(Run(Fresh(q), tc.r11, [R11Request(tc, z, 70), R11Request(tc, z, 65)]))
  {
    var a, first, second := R11Request(tc, z, 70).batch[0], R11Resolved(tc, z, 0), R11Resolved(tc, z, 1);
    R11AtDeadline(tc, z);
    MatchesExactly(second, At(z, 73) + 70 * SECOND, a);
    MatchesExactly(first, At(z, 73) + 65 * SECOND, a);
    TwoRequests(Fresh(q), tc.r11, At(z, 73) + 70 * SECOND, At(z, 73) + 65 * SECOND, a, first, second);
  }

  /** The order can break with a clock that runs back: the resolved alert of variant one arrives exactly
      at the deadline of its first notification, and matches a later one; an alert that is stamped
      five seconds earlier then matches the first. */
  lemma ClockBackBreaksOrder(z: Time)
    requires ZERO_TIME <= z
    ensures !MatchesRise(Run(Fresh(SuiteQueue({OrderTest}, z, ORDER.r11)), ORDER.r11,
                             [R11Request(ORDER, z, 70), R11Request(ORDER, z, 65)]))
  {
    OrderDistinct();
    OwnerIs(OrderTest, ORDER.r11);
    R11Queue(ORDER, z);
    SuiteGood({OrderTest}, z, ORDER.r11);
    R11Breaks(ORDER, z, SuiteQueue({OrderTest}, z, ORDER.r11));
  }
}
