/** The senders of the suite's own cases: a generator that follows the specification, from its samples to
    the records of the alert receiver. */
module SenderRuns {
  import opened Labels
  import opened ExpectedAlert
  import opened Reception
  import opened Verdict
  import opened ServerState
  import opened CaseLabels
  import opened CaseTables
  import opened CaseSamples
  import opened Automaton
  import opened Notifications
  import opened NotificationRuns
  import opened Sender
  import opened TestSuite
  import SuiteRuns
  import StateOracle

  // ---- the queues of the label sets

  /** What a sender needs of the blocks of a label set. */
  ghost predicate Usable(bs: seq<Block>) {
    bs != [] && Sequence(bs) && forall i: nat :: i < |bs| ==> BlockFine(bs, i)
  }

  lemma CountPositive(b: Block)
    requires b.from < b.until
    ensures 0 < Count(b)
  {
    CountIs(b, 0);
  }

  lemma PlainUsable(bs: seq<Block>)
    requires bs != [] && Sequence(bs) && forall i :: 0 <= i < |bs| ==> !bs[i].firstResend
    ensures Usable(bs)
  {
    forall i: nat | i < |bs| ensures BlockFine(bs, i) {
      assert BlockOk(bs[i]);
      CountPositive(bs[i]);
    }
  }

  lemma PfrUsable(tc: PfrCase, z: Time)
    requires ZERO_TIME <= z
    ensures Usable(PfrBlocks(tc, z))
  {
    PfrSequence(tc, z);
    var bs := PfrBlocks(tc, z);
    forall i: nat | i < |bs| ensures BlockFine(bs, i) {
      CountPositive(bs[i]);
    }
  }

  /** The queue of a label set that only the rest of a table mentions. */
  lemma QueueOfRest(table: seq<Expected>, a: seq<Expected>, la: LabelSet, rest: seq<Expected>, id: LabelSet)
    requires table == a + rest && AllOf(a, la) && id != la && Good(Project(rest, ExpectedKey, id))
    ensures QueueFrom(table, id) == Project(rest, ExpectedKey, id)
  {
    ProjectConcat(a, rest, ExpectedKey, id);
    ProjectUniform(a, ExpectedKey, id, la);
    assert Project(table, ExpectedKey, id) == Project(rest, ExpectedKey, id);
    GoodQueueFrom(table, id);
  }

  lemma RestTable(table: seq<Expected>, a: seq<Expected>, la: LabelSet, rest: seq<Expected>, id: LabelSet,
                  bs: seq<Block>, firstID: int, stride: nat)
    requires table == a + rest && AllOf(a, la) && id != la && stride > 0 && Usable(bs)
    requires Project(rest, ExpectedKey, id) == Chain(bs, firstID, stride)
    ensures Table(QueueFrom(table, id), bs)
  {
    GoodChain(bs, firstID, stride);
    QueueOfRest(table, a, la, rest, id);
    ChainTable(bs, firstID, stride);
  }

  /** Two label sets that fire and resolve together. */
  lemma TwoTables(table: seq<Expected>, a: seq<Expected>, la: LabelSet, x: seq<Block>, lx: LabelSet,
                  y: seq<Block>, ly: LabelSet, firstID: int)
    requires |x| == |y| == 2 && table == a + LaterTable(x, y, firstID) && AllOf(a, la)
    requires la != lx && la != ly && lx != ly && Usable(x) && Usable(y)
    requires Count(x[0]) == Count(y[0]) && x[0].alert.labels == lx && y[0].alert.labels == ly
    requires Count(x[1]) == Count(y[1]) && x[1].alert.labels == lx && y[1].alert.labels == ly
    ensures Table(QueueFrom(table, lx), x) && Table(QueueFrom(table, ly), y)
  {
    LaterProject(x, y, firstID, lx, ly, lx);
    LaterProject(x, y, firstID, lx, ly, ly);
    RestTable(table, a, la, LaterTable(x, y, firstID), lx, x, firstID, 2);
    RestTable(table, a, la, LaterTable(x, y, firstID), ly, y, firstID + 1, 2);
  }

  lemma LaterTables(tc: OrderCase, z: Time)
    requires ZERO_TIME <= z && tc.Distinct()
    ensures Table(QueueFrom(OrderTable(tc, z), tc.r12), LaterBlocks(tc.r12, tc.r1Annotations, z))
    ensures Table(QueueFrom(OrderTable(tc, z), tc.r2), LaterBlocks(tc.r2, tc.r2Annotations, z))
  {
    LaterSequence(tc.r12, tc.r1Annotations, z);
    LaterSequence(tc.r2, tc.r2Annotations, z);
    PlainUsable(LaterBlocks(tc.r12, tc.r1Annotations, z));
    PlainUsable(LaterBlocks(tc.r2, tc.r2Annotations, z));
    ChainAllOf(R11Blocks(tc, z), 1, 1, tc.r11);
    TwoTables(OrderTable(tc, z), Chain(R11Blocks(tc, z), 1, 1), tc.r11,
              LaterBlocks(tc.r12, tc.r1Annotations, z), tc.r12, LaterBlocks(tc.r2, tc.r2Annotations, z), tc.r2,
              1 + Total(R11Blocks(tc, z)));
  }

  lemma R11Table(tc: OrderCase, z: Time)
    requires ZERO_TIME <= z && tc.Distinct()
    ensures Table(QueueFrom(OrderTable(tc, z), tc.r11), R11Blocks(tc, z))
  {
    R11Sequence(tc, z);
    PlainUsable(R11Blocks(tc, z));
    SuiteRuns.R11Queue(tc, z);
    ChainTable(R11Blocks(tc, z), 1, 1);
  }

  lemma ZfTable(tc: ZeroCase, z: Time)
    requires ZERO_TIME <= z && tc.Distinct()
    ensures Table(QueueFrom(ZeroTable(tc, z), tc.zf), ZfBlocks(tc, z))
  {
    ZfSequence(tc, z);
    PlainUsable(ZfBlocks(tc, z));
    ZeroParts(tc, z, tc.zf);
    SuiteRuns.QueueOfFirst(ZeroTable(tc, z), Chain(ZfBlocks(tc, z), 1, 1), tc.zf,
                           Chain(SfBlocks(tc, z), 1 + Total(ZfBlocks(tc, z)), 1));
    ChainTable(ZfBlocks(tc, z), 1, 1);
  }

  lemma SfTable(tc: ZeroCase, z: Time)
    requires ZERO_TIME <= z && tc.Distinct()
    ensures Table(QueueFrom(ZeroTable(tc, z), tc.sf), SfBlocks(tc, z))
  {
    SfSequence(tc, z);
    PlainUsable(SfBlocks(tc, z));
    ZfGood(tc, z);
    SfGood(tc, z, 1 + Total(ZfBlocks(tc, z)));
    LoneTable(ZeroTable(tc, z), Chain(ZfBlocks(tc, z), 1, 1), tc.zf, SfBlocks(tc, z), tc.sf,
              1 + Total(ZfBlocks(tc, z)));
  }

  lemma LoneTable(table: seq<Expected>, a: seq<Expected>, la: LabelSet, bs: seq<Block>, id: LabelSet, firstID: int)
    requires table == a + Chain(bs, firstID, 1) && AllOf(a, la) && AllOf(Chain(bs, firstID, 1), id) && id != la
    requires Usable(bs)
    ensures Table(QueueFrom(table, id), bs)
  {
    ProjectUniform(Chain(bs, firstID, 1), ExpectedKey, id, id);
    RestTable(table, a, la, Chain(bs, firstID, 1), id, bs, firstID, 1);
  }

  lemma PfrTableIs(tc: PfrCase, z: Time)
    requires ZERO_TIME <= z
    ensures Table(QueueFrom(PfrTable(tc, z), tc.labels), PfrBlocks(tc, z))
  {
    PfrUsable(tc, z);
    GoodChain(PfrBlocks(tc, z), 1, 1);
    ChainAllOf(PfrBlocks(tc, z), 1, 1, tc.labels);
    ProjectUniform(PfrTable(tc, z), ExpectedKey, tc.labels, tc.labels);
    GoodQueueFrom(PfrTable(tc, z), tc.labels);
    ChainTable(PfrBlocks(tc, z), 1, 1);
  }

  /** The blocks of each label set of the suite that is ever sent. */
  function BlocksOf(id: LabelSet, z: Time): seq<Block> {
    if id == PFR.labels then PfrBlocks(PFR, z)
    else if id == ORDER.r11 then R11Blocks(ORDER, z)
    else if id == ORDER.r12 then LaterBlocks(ORDER.r12, ORDER.r1Annotations, z)
    else if id == ORDER.r2 then LaterBlocks(ORDER.r2, ORDER.r2Annotations, z)
    else if id == ZERO.zf then ZfBlocks(ZERO, z)
    else if id == ZERO.sf then SfBlocks(ZERO, z)
    else []
  }

  lemma BlocksAre(z: Time)
    ensures BlocksOf(PFR.labels, z) == PfrBlocks(PFR, z) && BlocksOf(ORDER.r11, z) == R11Blocks(ORDER, z)
    ensures BlocksOf(ORDER.r12, z) == LaterBlocks(ORDER.r12, ORDER.r1Annotations, z)
    ensures BlocksOf(ORDER.r2, z) == LaterBlocks(ORDER.r2, ORDER.r2Annotations, z)
    ensures BlocksOf(ZERO.zf, z) == ZfBlocks(ZERO, z) && BlocksOf(ZERO.sf, z) == SfBlocks(ZERO, z)
  {
    GroupsDiffer();
    OrderDistinct();
    ZeroDistinct();
  }

  lemma SuiteTable(cases: set<Case>, z: Time, id: LabelSet)
    requires ZERO_TIME <= z && OwnerOf(id) in cases && BlocksOf(id, z) != []
    ensures Table(SuiteQueue(cases, z, id), BlocksOf(id, z))
  {
    if id == PFR.labels {
      OwnerIs(PfrTest, id);
      PfrTableIs(PFR, z);
    } else if id == ORDER.r11 {
      OwnerIs(OrderTest, id);
      OrderDistinct();
      R11Table(ORDER, z);
    } else if id == ORDER.r12 || id == ORDER.r2 {
      OwnerIs(OrderTest, id);
      OrderDistinct();
      LaterTables(ORDER, z);
    } else if id == ZERO.zf {
      OwnerIs(ZeroTest, id);
      ZeroDistinct();
      ZfTable(ZERO, z);
    } else {
      OwnerIs(ZeroTest, id);
      ZeroDistinct();
      SfTable(ZERO, z);
    }
  }

  /** When the test of a case is over. */
  function TestUntil(c: Case, z: Time): Time {
    match c
    case PfrTest => At(z, PFR_SAMPLE_COUNT)
    case OrderTest => At(z, ORDER_SAMPLE_COUNT)
    case ZeroTest => At(z, ZERO_TEST_SAMPLES)
    case PrTest => At(z, PR_TEST_SAMPLES)
  }

  /** In seconds after the zero time. */
  lemma TestsEnd(z: Time)
    ensures TestUntil(PfrTest, z) == z + 2250 * SECOND && TestUntil(OrderTest, z) == z + 1410 * SECOND
    ensures TestUntil(ZeroTest, z) == z + 1905 * SECOND && TestUntil(PrTest, z) == z + 900 * SECOND
  {
  }

  /** By then every alert of the case has resolved for the last time, and its sender has said so. */
  lemma ResolvedInTime(z: Time, id: LabelSet)
    requires BlocksOf(id, z) != []
    ensures Nth(BlocksOf(id, z), |BlocksOf(id, z)| - 1).from + SIGHT + MAX_RTT <= TestUntil(OwnerOf(id), z)
  {
    if id == PFR.labels {
      OwnerIs(PfrTest, id);
    } else if id in {ORDER.r11, ORDER.r12, ORDER.r2} {
      OwnerIs(OrderTest, id);
    } else {
      OwnerIs(ZeroTest, id);
    }
  }

  /** On the suite's own tables, for every label set, and at any moment: the records of a sender that
      follows the specification are clean if and only if it has begun to say that the alert resolved for
      the last time, and each of its notifications so far was in time. */
  lemma SuiteSender(cases: set<Case>, z: Time, id: LabelSet, plan: seq<Segment>, fixedEnd: bool, notes: seq<Note>,
                    events: seq<Event>)
    requires ZERO_TIME <= z && OwnerOf(id) in cases && Conforms(BlocksOf(id, z), plan)
    requires KeepsTo(BlocksOf(id, z), plan, fixedEnd, notes) && OnSchedule(notes, id, events)
    ensures Deliveries(id, events) <= |notes|
    ensures Clean(Run(Fresh(SuiteQueue(cases, z, id)), id, events))
      <==> LastBegun(BlocksOf(id, z), notes, Deliveries(id, events))
           && AllInTime(BlocksOf(id, z), plan, fixedEnd, notes, Deliveries(id, events))
  {
    SuiteTable(cases, z, id);
    CleanExactly(SuiteQueue(cases, z, id), BlocksOf(id, z), plan, fixedEnd, notes, id, events);
  }

  /** When the test of its case is over, and all that arrived until then is handled: if and only if each of
      its notifications was in time. */
  lemma SuiteSenderAtEnd(cases: set<Case>, z: Time, id: LabelSet, plan: seq<Segment>, fixedEnd: bool,
                         notes: seq<Note>, events: seq<Event>, until: Time)
    requires ZERO_TIME <= z && OwnerOf(id) in cases && Conforms(BlocksOf(id, z), plan)
    requires KeepsTo(BlocksOf(id, z), plan, fixedEnd, notes) && OnSchedule(notes, id, events)
    requires TestUntil(OwnerOf(id), z) <= until && AllArrived(notes, Deliveries(id, events), until)
    ensures Deliveries(id, events) <= |notes|
    ensures Clean(Run(Fresh(SuiteQueue(cases, z, id)), id, events))
      <==> AllInTime(BlocksOf(id, z), plan, fixedEnd, notes, Deliveries(id, events))
  {
    SuiteSender(cases, z, id, plan, fixedEnd, notes, events);
    ResolvedInTime(z, id);
    BegunUntil(BlocksOf(id, z), plan, fixedEnd, notes, Deliveries(id, events), until);
  }

  /** No sender whose firing alerts end relative to when they fired is ever clean. */
  lemma SuiteFixedEnd(cases: set<Case>, z: Time, id: LabelSet, plan: seq<Segment>, notes: seq<Note>,
                      events: seq<Event>)
    requires ZERO_TIME <= z && OwnerOf(id) in cases && Conforms(BlocksOf(id, z), plan)
    requires KeepsTo(BlocksOf(id, z), plan, true, notes) && OnSchedule(notes, id, events)
    ensures !Clean(Run(Fresh(SuiteQueue(cases, z, id)), id, events))
  {
    SuiteTable(cases, z, id);
    EndsAtOfStart(SuiteQueue(cases, z, id), BlocksOf(id, z), plan, notes, id, events);
  }

  // ---- all label sets together

  /** The label sets that a generator sends in these cases. */
  function SentLabels(cases: set<Case>): set<LabelSet> {
    set id | id in LabelsOf(PfrTest) + LabelsOf(OrderTest) + LabelsOf(ZeroTest) && OwnerOf(id) in cases
  }

  /** What is sent for one label set. */
  datatype Sending = Sending(plan: seq<Segment>, notes: seq<Note>)

  /** A generator that follows the specification for all of them. */
  ghost predicate Generates(cases: set<Case>, z: Time, sent: map<LabelSet, Sending>, events: seq<Event>) {
    && sent.Keys == SentLabels(cases)
    && forall id :: id in sent ==>
         && Conforms(BlocksOf(id, z), sent[id].plan)
         && KeepsTo(BlocksOf(id, z), sent[id].plan, false, sent[id].notes)
         && OnSchedule(sent[id].notes, id, events) && Deliveries(id, events) <= |sent[id].notes|
  }

  /** Nothing is sent but for these label sets. */
  ghost predicate NoOthersSent(sent: map<LabelSet, Sending>, events: seq<Event>) {
    forall id :: id !in sent ==> Deliveries(id, events) == 0
  }

  /** All that is sent for the label set came in time. */
  ghost predicate Punctually(z: Time, id: LabelSet, x: Sending, events: seq<Event>)
    requires Deliveries(id, events) <= |x.notes|
  {
    AllInTime(BlocksOf(id, z), x.plan, false, x.notes, Deliveries(id, events))
  }

  lemma {:induction false} NothingExpectedOf(id: LabelSet, events: seq<Event>)
    ensures Run(Fresh([]), id, events).queue == [] && Run(Fresh([]), id, events).missed == []
    ensures Clean(Run(Fresh([]), id, events)) <==> Deliveries(id, events) == 0
  {
    if events == [] {
    } else {
      NothingExpectedOf(id, events[..|events| - 1]);
    }
  }

  lemma UnsentQueue(cases: set<Case>, z: Time, id: LabelSet)
    requires id !in SentLabels(cases)
    ensures SuiteQueue(cases, z, id) == []
  {
    if OwnerOf(id) in cases {
      assert OwnerOf(id) == PrTest;
    }
  }

  /** Its sender has begun to say that the alert resolved for the last time, and all that was sent for the
      label set came in time; or nothing was to be sent, and was. */
  ghost predicate Flawless(z: Time, id: LabelSet, sent: map<LabelSet, Sending>, events: seq<Event>)
    requires id in sent ==> Deliveries(id, events) <= |sent[id].notes|
  {
    if id in sent then
      LastBegun(BlocksOf(id, z), sent[id].notes, Deliveries(id, events)) && Punctually(z, id, sent[id], events)
    else Deliveries(id, events) == 0
  }

  lemma SeriesCleanExactly(cases: set<Case>, z: Time, sent: map<LabelSet, Sending>, events: seq<Event>, id: LabelSet)
    requires ZERO_TIME <= z && Generates(cases, z, sent, events)
    ensures Clean(Run(Fresh(SuiteQueue(cases, z, id)), id, events)) <==> Flawless(z, id, sent, events)
  {
    if id in sent {
      SuiteSender(cases, z, id, sent[id].plan, false, sent[id].notes, events);
    } else {
      UnsentQueue(cases, z, id);
      NothingExpectedOf(id, events);
    }
  }

  /** The records of the whole suite are clean if and only if every sender has begun to say that its alert
      resolved for the last time, all notifications so far were in time, and nothing else was sent. */
  lemma SuiteCleanExactly(cases: set<Case>, z: Time, sent: map<LabelSet, Sending>, events: seq<Event>)
    requires ZERO_TIME <= z && Generates(cases, z, sent, events)
    ensures SuiteClean(cases, z, events) <==> forall id :: Flawless(z, id, sent, events)
  {
    forall id ensures Clean(Run(Fresh(SuiteQueue(cases, z, id)), id, events)) <==> Flawless(z, id, sent, events) {
      SeriesCleanExactly(cases, z, sent, events, id);
    }
  }

  /** When a conforming generator gets a "yes". Once the tests of all cases are over and what arrived until
      then is handled: exactly when the suite was stopped, no loop found an error, and all its
      notifications were in time. */
  lemma ConformingGetsYes(tests: map<string, int>, cases: set<Case>, z: Time, sent: map<LabelSet, Sending>,
                          events: seq<Event>, acts: seq<Act>, until: Time)
    requires ZERO_TIME <= z && Generates(cases, z, sent, events) && NoOthersSent(sent, events)
    requires forall c :: c in cases ==> TestUntil(c, z) <= until
    requires forall id :: id in sent ==> AllArrived(sent[id].notes, Deliveries(id, events), until)
    ensures Successful(tests, cases, z, events, acts) <==>
      && StoppedBy(tests, acts) && NeverFails(tests, Decisions(acts))
      && forall id :: id in sent ==> Punctually(z, id, sent[id], events)
  {
    SuiteCleanExactly(cases, z, sent, events);
    forall id ensures Flawless(z, id, sent, events) <==> (id in sent ==> Punctually(z, id, sent[id], events)) {
      if id in sent {
        BegunAtEnd(z, id, sent[id], events, until);
      }
    }
  }

  lemma BegunAtEnd(z: Time, id: LabelSet, x: Sending, events: seq<Event>, until: Time)
    requires Conforms(BlocksOf(id, z), x.plan) && KeepsTo(BlocksOf(id, z), x.plan, false, x.notes)
    requires Deliveries(id, events) <= |x.notes| && AllArrived(x.notes, Deliveries(id, events), until)
    requires TestUntil(OwnerOf(id), z) <= until
    ensures LastBegun(BlocksOf(id, z), x.notes, Deliveries(id, events))
  {
    ResolvedInTime(z, id);
    BegunUntil(BlocksOf(id, z), x.plan, false, x.notes, Deliveries(id, events), until);
  }

  // ---- what a generator sends

  /** How many notifications there are from `from` until before `until`. */
  function SendsUntil(from: Time, until: Time): nat {
    if from < until then (until - from + RESEND_DELAY - 1) / RESEND_DELAY else 0
  }

  lemma SendsUntilIs(from: Time, until: Time)
    requires from < until
    ensures var n := SendsUntil(from, until);
      0 < n && from + (n - 1) * RESEND_DELAY < until <= from + n * RESEND_DELAY
  {
    var d, n := until - from + RESEND_DELAY - 1, SendsUntil(from, until);
    assert d == RESEND_DELAY * n + d % RESEND_DELAY;
  }

  /** Resolved notifications end after 15 minutes, or when the alert is active again. */
  function ResolvedSends(resolved: Time, again: Time): nat {
    if SendsUntil(resolved, again) < RESOLVED_SENDS then SendsUntil(resolved, again) else RESOLVED_SENDS
  }

  /** A change that happens at `at` is seen by an evaluation at `seen`. */
  predicate InSight(at: Time, seen: Time) {
    at < seen < at + SIGHT
  }

  /** An alert that fires and resolves once. */
  function OncePlan(fired: Time, resolved: Time): seq<Segment> {
    [Segment(fired, SendsUntil(fired, resolved), fired), Segment(resolved, RESOLVED_SENDS, fired)]
  }

  /** An alert that fires twice; it is active again at `again`. */
  function TwicePlan(fired: Time, resolved: Time, again: Time, fired2: Time, resolved2: Time): seq<Segment> {
    [Segment(fired, SendsUntil(fired, resolved), fired), Segment(resolved, ResolvedSends(resolved, again), fired)]
    + OncePlan(fired2, resolved2)
  }

  /** An alert whose annotations change while it fires for the first time: its first notification with
      the new ones is the first not before `changed`. */
  function ChangingPlan(fired: Time, changed: Time, resolved: Time, again: Time, fired2: Time, resolved2: Time)
    : seq<Segment>
  {
    var next := fired + SendsUntil(fired, changed) * RESEND_DELAY;
    [Segment(fired, SendsUntil(fired, changed), fired), Segment(next, SendsUntil(next, resolved), fired),
     Segment(resolved, ResolvedSends(resolved, again), fired)]
    + OncePlan(fired2, resolved2)
  }

  lemma ResolvesWhen(a: Block, b: Block, first: Time, resolved: Time, fired: Time, sends: nat)
    requires ResolvedBlock(b) && !a.resolved && b.alert == a.alert && b.from == a.until == a.resolvedTime
    requires InSight(b.from, resolved) && first < resolved
    ensures Resolves(a, Segment(first, SendsUntil(first, resolved), fired), b, Segment(resolved, sends, fired))
  {
    SendsUntilIs(first, resolved);
  }

  lemma ChangesWhen(a: Block, b: Block, fired: Time, changed: Time, sends: nat)
    requires FiringBlock(b) && b.firstResend && !a.resolved && b.from == a.until && b.resolvedTime == a.resolvedTime
    requires b.alert.labels == a.alert.labels && b.alert.annotations != a.alert.annotations
    requires b.alert.startsAt == a.alert.startsAt && InSight(b.from, changed) && fired < changed
    ensures var n := SendsUntil(fired, changed);
      Changes(a, Segment(fired, n, fired), b, Segment(fired + n * RESEND_DELAY, sends, fired))
  {
    SendsUntilIs(fired, changed);
  }

  lemma FiresAgainWhen(a: Block, b: Block, resolved: Time, again: Time, fired: Time, fired2: Time, sends: nat)
    requires a.resolved && b.alert.labels == a.alert.labels && a.nextState != ZERO_TIME && a.until <= b.from
    requires a.nextState + SIGHT + MAX_RTT <= b.from || a.from + RESOLVED_LIMIT <= b.from
    requires FiringBlock(b) && !b.firstResend && b.alert.startsAt == b.from && InSight(b.from, fired2)
    requires again == fired2 - (b.from - a.nextState) && resolved < again
    ensures FiresAgain(a, Segment(resolved, ResolvedSends(resolved, again), fired), b, Segment(fired2, sends, fired2))
  {
    SendsUntilIs(resolved, again);
    var n, c := SendsUntil(resolved, again), ResolvedSends(resolved, again);
    assert (c - 1) * RESEND_DELAY <= (n - 1) * RESEND_DELAY;
  }

  lemma OnceConforms(bs: seq<Block>, fired: Time, resolved: Time)
    requires |bs| == 2 && FiringBlock(bs[0]) && !bs[0].firstResend && bs[0].alert.startsAt == bs[0].from
    requires ResolvedBlock(bs[1]) && bs[1].alert == bs[0].alert && bs[1].from == bs[0].until == bs[0].resolvedTime
    requires bs[1].until == bs[1].from + RESOLVED_LIMIT
    requires InSight(bs[0].from, fired) && InSight(bs[1].from, resolved)
    ensures Conforms(bs, OncePlan(fired, resolved))
  {
    var plan := OncePlan(fired, resolved);
    ResolvesWhen(bs[0], bs[1], fired, resolved, fired, RESOLVED_SENDS);
    assert Linked(bs, plan, 0) && Linked(bs, plan, 1);
    assert LinkedTo(bs, plan, 1);
  }

  lemma R11Shape(tc: OrderCase, z: Time)
    requires ZERO_TIME <= z
    ensures var b := R11Blocks(tc, z);
      && |b| == 2 && FiringBlock(b[0]) && !b[0].firstResend && b[0].alert.startsAt == b[0].from
      && ResolvedBlock(b[1]) && b[1].alert == b[0].alert && b[1].from == b[0].until == b[0].resolvedTime
      && b[1].until == b[1].from + RESOLVED_LIMIT && b[0].from == At(z, 20) && b[1].from == At(z, 73)
  {
  }

  lemma LaterShape(labels: LabelSet, annotations: LabelSet, z: Time)
    requires ZERO_TIME <= z
    ensures var b := LaterBlocks(labels, annotations, z);
      && |b| == 2 && FiringBlock(b[0]) && !b[0].firstResend && b[0].alert.startsAt == b[0].from
      && ResolvedBlock(b[1]) && b[1].alert == b[0].alert && b[1].from == b[0].until == b[0].resolvedTime
      && b[1].until == b[1].from + RESOLVED_LIMIT && b[0].from == At(z, 44) && b[1].from == At(z, 65)
  {
  }

  lemma SfShape(tc: ZeroCase, z: Time)
    requires ZERO_TIME <= z
    ensures var b := SfBlocks(tc, z);
      && |b| == 2 && FiringBlock(b[0]) && !b[0].firstResend && b[0].alert.startsAt == b[0].from
      && ResolvedBlock(b[1]) && b[1].alert == b[0].alert && b[1].from == b[0].until == b[0].resolvedTime
      && b[1].until == b[1].from + RESOLVED_LIMIT && b[0].from == At(z, 8) + GROUP_INTERVAL && b[1].from == At(z, 21)
  {
  }

  /** The zero-`for` alert is active again as soon as it fires again. */
  lemma ZfConforms(tc: ZeroCase, z: Time, fired: Time, resolved: Time, fired2: Time, resolved2: Time)
    requires ZERO_TIME <= z && InSight(At(z, 8), fired) && InSight(At(z, 21), resolved)
    requires InSight(At(z, 93), fired2) && InSight(At(z, 106), resolved2)
    ensures Conforms(ZfBlocks(tc, z), TwicePlan(fired, resolved, fired2, fired2, resolved2))
  {
    var bs, plan := ZfBlocks(tc, z), TwicePlan(fired, resolved, fired2, fired2, resolved2);
    ResolvesWhen(bs[0], bs[1], fired, resolved, fired, ResolvedSends(resolved, fired2));
    FiresAgainWhen(bs[1], bs[2], resolved, fired2, fired, fired2, SendsUntil(fired2, resolved2));
    ResolvesWhen(bs[2], bs[3], fired2, resolved2, fired2, RESOLVED_SENDS);
    LinksOf(bs, plan, 4);
  }

  /** The blocks of the case that changes its annotations. */
  ghost predicate ChangingShape(bs: seq<Block>, z: Time) {
    && |bs| == 5 && (forall i :: 0 <= i < 5 ==> (if i == 2 || i == 4 then ResolvedBlock(bs[i]) else FiringBlock(bs[i])))
    && !bs[0].firstResend && bs[0].alert.startsAt == bs[0].from == At(z, 32)
    && bs[1].firstResend && bs[1].from == bs[0].until == At(z, 53) && bs[1].resolvedTime == bs[0].resolvedTime
    && bs[1].alert.labels == bs[0].alert.labels && bs[1].alert.annotations != bs[0].alert.annotations
    && bs[1].alert.startsAt == bs[0].alert.startsAt
    && bs[2].alert == bs[1].alert && bs[2].from == bs[1].until == bs[1].resolvedTime == At(z, 69)
    && bs[2].nextState == bs[2].until == At(z, 89) && ZERO_TIME < At(z, 89)
    && !bs[3].firstResend && bs[3].alert.startsAt == bs[3].from == At(z, 113)
    && bs[3].alert.labels == bs[2].alert.labels
    && bs[4].alert == bs[3].alert && bs[4].from == bs[3].until == bs[3].resolvedTime == At(z, 134)
    && bs[4].until == bs[4].from + RESOLVED_LIMIT
  }

  lemma PfrShape(tc: PfrCase, z: Time)
    requires ZERO_TIME <= z && tc.fifteen != tc.nineteen
    ensures ChangingShape(PfrBlocks(tc, z), z)
  {
  }

  lemma ChangingConforms(bs: seq<Block>, z: Time, fired: Time, changed: Time, resolved: Time, again: Time,
                         fired2: Time, resolved2: Time)
    requires ChangingShape(bs, z)
    requires InSight(At(z, 32), fired) && InSight(At(z, 53), changed) && InSight(At(z, 69), resolved)
    requires InSight(At(z, 89), again) && fired2 == again + At(0, 24) && InSight(At(z, 134), resolved2)
    ensures Conforms(bs, ChangingPlan(fired, changed, resolved, again, fired2, resolved2))
  {
    var plan := ChangingPlan(fired, changed, resolved, again, fired2, resolved2);
    var next := fired + SendsUntil(fired, changed) * RESEND_DELAY;
    SendsUntilIs(fired, changed);
    ChangesWhen(bs[0], bs[1], fired, changed, SendsUntil(next, resolved));
    ResolvesWhen(bs[1], bs[2], next, resolved, fired, ResolvedSends(resolved, again));
    FiresAgainWhen(bs[2], bs[3], resolved, again, fired, fired2, SendsUntil(fired2, resolved2));
    ResolvesWhen(bs[3], bs[4], fired2, resolved2, fired2, RESOLVED_SENDS);
    LinksOf(bs, plan, 5);
  }

  lemma PfrConforms(tc: PfrCase, z: Time, fired: Time, changed: Time, resolved: Time, again: Time, fired2: Time,
                    resolved2: Time)
    requires ZERO_TIME <= z && tc.fifteen != tc.nineteen
    requires InSight(At(z, 32), fired) && InSight(At(z, 53), changed) && InSight(At(z, 69), resolved)
    requires InSight(At(z, 89), again) && fired2 == again + At(0, 24) && InSight(At(z, 134), resolved2)
    ensures Conforms(PfrBlocks(tc, z), ChangingPlan(fired, changed, resolved, again, fired2, resolved2))
  {
    PfrShape(tc, z);
    ChangingConforms(PfrBlocks(tc, z), z, fired, changed, resolved, again, fired2, resolved2);
  }

  lemma {:induction false} LinksOf(bs: seq<Block>, plan: seq<Segment>, n: nat)
    requires forall i: nat :: i < n ==> Linked(bs, plan, i)
    ensures LinkedTo(bs, plan, n)
  {
    if n == 0 {
    } else {
      LinksOf(bs, plan, n - 1);
    }
  }

  // ---- from the samples to the plan

  lemma EarlierIndex(t: Timing, i: nat, j: nat)
    ensures t.Instant(i) < t.Instant(j) <==> i < j
  {
    if i < j {
      Steps(t, i + 1, j);
    } else {
      Steps(t, j, i);
    }
  }

  lemma R11Only()
    ensures OnlyEpisode(StateOracle.R11Rule(), 8, 73) && |StateOracle.R11Rule().values| <= ORDER_SAMPLE_COUNT
    ensures RoundUp(StateOracle.R11Rule().hold) == At(0, 12) && 0 <= StateOracle.R11Rule().hold
  {
    StateOracle.Holds();
    StateOracle.R11Episode();
  }

  lemma R12Only()
    ensures OnlyEpisode(StateOracle.R12Rule(), 32, 65) && |StateOracle.R12Rule().values| <= ORDER_SAMPLE_COUNT
    ensures RoundUp(StateOracle.R12Rule().hold) == At(0, 12) && 0 <= StateOracle.R12Rule().hold
  {
    StateOracle.Holds();
    StateOracle.R12Episode();
  }

  lemma SfOnly()
    ensures OnlyEpisode(StateOracle.SfRule(), 8, 21) && |StateOracle.SfRule().values| <= ZERO_SAMPLE_COUNT
    ensures RoundUp(StateOracle.SfRule().hold) == GROUP_INTERVAL && 0 <= StateOracle.SfRule().hold
  {
    StateOracle.Holds();
    StateOracle.ZeroEpisodes();
  }

  lemma ZfTwo()
    ensures TwoEpisodes(StateOracle.ZfRule(), 8, 21, 93, 106) && |StateOracle.ZfRule().values| <= ZERO_SAMPLE_COUNT
    ensures RoundUp(StateOracle.ZfRule().hold) == 0 && 0 <= StateOracle.ZfRule().hold
  {
    StateOracle.Holds();
    StateOracle.ZeroEpisodes();
  }

  lemma PfrTwo()
    ensures TwoEpisodes(StateOracle.PfrRule(), 8, 69, 89, 134) && |StateOracle.PfrRule().values| <= PFR_SAMPLE_COUNT
    ensures RoundUp(StateOracle.PfrRule().hold) == At(0, 24) && 0 <= StateOracle.PfrRule().hold
  {
    StateOracle.Holds();
    StateOracle.PfrEpisodes();
  }

  /** Prompt samples give variant one a plan that conforms. */
  lemma R11Schedule(z: Time, t: Timing, m: nat, m': nat)
    requires ZERO_TIME <= z && t.Prompt() && ORDER_SAMPLE_COUNT <= |t.delivered|
    requires FirstToSee(t, 8, m) && FirstToSee(t, 73, m')
    ensures Conforms(R11Blocks(ORDER, z), OncePlan(z + t.Instant(m) + At(0, 12), z + t.Instant(m')))
  {
    R11Shape(ORDER, z);
    FirstSeenWhen(t, 8, m);
    FirstSeenWhen(t, 73, m');
    OnceConforms(R11Blocks(ORDER, z), z + t.Instant(m) + At(0, 12), z + t.Instant(m'));
  }

  /** It fires at exactly the evaluations between the two ends of the plan. */
  lemma R11Fires(t: Timing, m: nat, m': nat, j: nat)
    requires t.Prompt() && ORDER_SAMPLE_COUNT <= |t.delivered| && FirstToSee(t, 8, m) && FirstToSee(t, 73, m')
    ensures Fires(Automaton.After(StateOracle.R11Rule(), t, j + 1))
      <==> t.Instant(m) + At(0, 12) <= t.Instant(j) < t.Instant(m')
  {
    R11Only();
    FiresBetween(StateOracle.R11Rule(), t, 8, 73, m, m', j);
    EarlierIndex(t, j, m');
  }

  /** And variant two. */
  lemma R12Schedule(z: Time, t: Timing, m: nat, m': nat)
    requires ZERO_TIME <= z && t.Prompt() && ORDER_SAMPLE_COUNT <= |t.delivered|
    requires FirstToSee(t, 32, m) && FirstToSee(t, 65, m')
    ensures Conforms(LaterBlocks(ORDER.r12, ORDER.r1Annotations, z),
                     OncePlan(z + t.Instant(m) + At(0, 12), z + t.Instant(m')))
  {
    LaterShape(ORDER.r12, ORDER.r1Annotations, z);
    FirstSeenWhen(t, 32, m);
    FirstSeenWhen(t, 65, m');
    OnceConforms(LaterBlocks(ORDER.r12, ORDER.r1Annotations, z), z + t.Instant(m) + At(0, 12), z + t.Instant(m'));
  }

  /** It fires at exactly the evaluations between the two ends of its plan. */
  lemma R12Fires(t: Timing, m: nat, m': nat, j: nat)
    requires t.Prompt() && ORDER_SAMPLE_COUNT <= |t.delivered| && FirstToSee(t, 32, m) && FirstToSee(t, 65, m')
    ensures Fires(Automaton.After(StateOracle.R12Rule(), t, j + 1))
      <==> t.Instant(m) + At(0, 12) <= t.Instant(j) < t.Instant(m')
  {
    R12Only();
    FiresBetween(StateOracle.R12Rule(), t, 32, 65, m, m', j);
    EarlierIndex(t, j, m');
  }

  /** And the rule with the small `for` duration. */
  lemma SfSchedule(z: Time, t: Timing, m: nat, m': nat)
    requires ZERO_TIME <= z && t.Prompt() && ZERO_SAMPLE_COUNT <= |t.delivered|
    requires FirstToSee(t, 8, m) && FirstToSee(t, 21, m')
    ensures Conforms(SfBlocks(ZERO, z), OncePlan(z + t.Instant(m) + GROUP_INTERVAL, z + t.Instant(m')))
  {
    SfShape(ZERO, z);
    FirstSeenWhen(t, 8, m);
    FirstSeenWhen(t, 21, m');
    OnceConforms(SfBlocks(ZERO, z), z + t.Instant(m) + GROUP_INTERVAL, z + t.Instant(m'));
  }

  /** It fires at exactly the evaluations between the two ends of its plan. */
  lemma SfFires(t: Timing, m: nat, m': nat, j: nat)
    requires t.Prompt() && ZERO_SAMPLE_COUNT <= |t.delivered| && FirstToSee(t, 8, m) && FirstToSee(t, 21, m')
    ensures Fires(Automaton.After(StateOracle.SfRule(), t, j + 1))
      <==> t.Instant(m) + GROUP_INTERVAL <= t.Instant(j) < t.Instant(m')
  {
    SfOnly();
    FiresBetween(StateOracle.SfRule(), t, 8, 21, m, m', j);
    EarlierIndex(t, j, m');
  }

  /** The dependent rule has the plan of variant two, whatever the samples of variant one do. */
  lemma R2Schedule(z: Time, u: Timing, m: nat, m': nat)
    requires ZERO_TIME <= z && u.Prompt() && ORDER_SAMPLE_COUNT <= |u.delivered|
    requires FirstToSee(u, 32, m) && FirstToSee(u, 65, m')
    ensures Conforms(LaterBlocks(ORDER.r2, ORDER.r2Annotations, z),
                     OncePlan(z + u.Instant(m) + At(0, 12), z + u.Instant(m')))
  {
    LaterShape(ORDER.r2, ORDER.r2Annotations, z);
    FirstSeenWhen(u, 32, m);
    FirstSeenWhen(u, 65, m');
    OnceConforms(LaterBlocks(ORDER.r2, ORDER.r2Annotations, z), z + u.Instant(m) + At(0, 12), z + u.Instant(m'));
  }

  lemma R2Fires(t: Timing, u: Timing, m: nat, m': nat, j: nat)
    requires StateOracle.OrderPrompt(t, u) && FirstToSee(u, 32, m) && FirstToSee(u, 65, m')
    ensures Fires(StateOracle.R2After(StateOracle.R11Rule(), StateOracle.R12Rule(), t, u, j + 1))
      <==> u.Instant(m) + At(0, 12) <= u.Instant(j) < u.Instant(m')
  {
    R12Fires(u, m, m', j);
    StateOracle.R11FiresAlways(t, u);
    StateOracle.R12Hold();
    StateOracle.R2Follows(StateOracle.R11Rule(), StateOracle.R12Rule(), t, u, j + 1);
  }

  /** The zero-`for` alert fires in two periods. */
  lemma ZfSchedule(z: Time, t: Timing, ma: nat, mb: nat, mc: nat, md: nat)
    requires ZERO_TIME <= z && t.Prompt() && ZERO_SAMPLE_COUNT <= |t.delivered|
    requires FirstToSee(t, 8, ma) && FirstToSee(t, 21, mb) && FirstToSee(t, 93, mc) && FirstToSee(t, 106, md)
    ensures Conforms(ZfBlocks(ZERO, z), ZfPlan(z, t, ma, mb, mc, md))
  {
    FirstSeenWhen(t, 8, ma);
    FirstSeenWhen(t, 21, mb);
    FirstSeenWhen(t, 93, mc);
    FirstSeenWhen(t, 106, md);
    ZfConforms(ZERO, z, z + t.Instant(ma), z + t.Instant(mb), z + t.Instant(mc), z + t.Instant(md));
  }

  lemma ZfFires(t: Timing, ma: nat, mb: nat, mc: nat, md: nat, j: nat)
    requires t.Prompt() && ZERO_SAMPLE_COUNT <= |t.delivered|
    requires FirstToSee(t, 8, ma) && FirstToSee(t, 21, mb) && FirstToSee(t, 93, mc) && FirstToSee(t, 106, md)
    ensures Fires(Automaton.After(StateOracle.ZfRule(), t, j + 1))
      <==> t.Instant(ma) <= t.Instant(j) < t.Instant(mb) || t.Instant(mc) <= t.Instant(j) < t.Instant(md)
  {
    ZfTwo();
    FiresTwice(StateOracle.ZfRule(), t, 8, 21, 93, 106, ma, mb, mc, md, j);
    EarlierIndex(t, j, mb);
    EarlierIndex(t, j, md);
  }

  function ZfPlan(z: Time, t: Timing, ma: nat, mb: nat, mc: nat, md: nat): seq<Segment> {
    TwicePlan(z + t.Instant(ma), z + t.Instant(mb), z + t.Instant(mc), z + t.Instant(mc), z + t.Instant(md))
  }

  /** The plan of the case that changes its annotations: `mv` is the first evaluation to see the new value. */
  function PfrPlan(z: Time, t: Timing, ma: nat, mv: nat, mb: nat, mc: nat, md: nat): seq<Segment> {
    ChangingPlan(z + t.Instant(ma) + At(0, 24), z + t.Instant(mv), z + t.Instant(mb), z + t.Instant(mc),
                 z + t.Instant(mc) + At(0, 24), z + t.Instant(md))
  }

  lemma PfrAnnotationsDiffer()
    ensures PFR.fifteen != PFR.nineteen
  {
    var a, b := "The value is 15 15", "The value is 19 19";
    assert a[14] != b[14];
    assert PFR.fifteen[1].value == a && PFR.nineteen[1].value == b;
  }

  lemma PfrSchedule(z: Time, t: Timing, ma: nat, mv: nat, mb: nat, mc: nat, md: nat)
    requires ZERO_TIME <= z && t.Prompt() && PFR_SAMPLE_COUNT <= |t.delivered|
    requires FirstToSee(t, 8, ma) && FirstToSee(t, 53, mv) && FirstToSee(t, 69, mb)
    requires FirstToSee(t, 89, mc) && FirstToSee(t, 134, md)
    ensures Conforms(PfrBlocks(PFR, z), PfrPlan(z, t, ma, mv, mb, mc, md))
  {
    PfrAnnotationsDiffer();
    FirstSeenWhen(t, 8, ma);
    FirstSeenWhen(t, 53, mv);
    FirstSeenWhen(t, 69, mb);
    FirstSeenWhen(t, 89, mc);
    FirstSeenWhen(t, 134, md);
    PfrConforms(PFR, z, z + t.Instant(ma) + At(0, 24), z + t.Instant(mv), z + t.Instant(mb), z + t.Instant(mc),
                z + t.Instant(mc) + At(0, 24), z + t.Instant(md));
  }

  lemma PfrFires(t: Timing, ma: nat, mb: nat, mc: nat, md: nat, j: nat)
    requires t.Prompt() && PFR_SAMPLE_COUNT <= |t.delivered|
    requires FirstToSee(t, 8, ma) && FirstToSee(t, 69, mb) && FirstToSee(t, 89, mc) && FirstToSee(t, 134, md)
    ensures Fires(Automaton.After(StateOracle.PfrRule(), t, j + 1))
      <==> || t.Instant(ma) + At(0, 24) <= t.Instant(j) < t.Instant(mb)
           || t.Instant(mc) + At(0, 24) <= t.Instant(j) < t.Instant(md)
  {
    PfrTwo();
    FiresTwice(StateOracle.PfrRule(), t, 8, 69, 89, 134, ma, mb, mc, md, j);
    EarlierIndex(t, j, mb);
    EarlierIndex(t, j, md);
  }

  /** While it fires for the first time its value is 15 until an evaluation sees the new one, then 19. */
  lemma PfrShows(t: Timing, ma: nat, mv: nat, mb: nat, j: nat)
    requires t.Prompt() && PFR_SAMPLE_COUNT <= |t.delivered|
    requires FirstToSee(t, 8, ma) && FirstToSee(t, 53, mv) && FirstToSee(t, 69, mb)
    requires t.Instant(ma) + At(0, 24) <= t.Instant(j) && j < mb
    ensures var s := Automaton.After(StateOracle.PfrRule(), t, j + 1);
      s.Active? && s.value == if j < mv then 15.0 else 19.0
  {
    var n := Delivered(t.delivered, t.Instant(j));
    PfrTwo();
    StateOracle.PfrEpisodes();
    FirstSeenWhen(t, 8, ma);
    EarlierIndex(t, j, ma);
    SeesWhen(t, 8, ma, j);
    SeesWhen(t, 53, mv, j);
    SeesWhen(t, 69, mb, j);
    ValueSeen(StateOracle.PfrRule(), t, 8, 69, j);
    InOrder(t, t.Instant(j), 21);
  }

  // ---- from the samples to the records

  /** What the records of a sender say: at any moment whether its alert has resolved for the last time, and
      whether all was in time; at the end of the test only the latter. */
  ghost predicate JudgedByTime(cases: set<Case>, z: Time, id: LabelSet, plan: seq<Segment>, notes: seq<Note>,
                               events: seq<Event>)
  {
    var bs, k := BlocksOf(id, z), Deliveries(id, events);
    var clean := Clean(Run(Fresh(SuiteQueue(cases, z, id)), id, events));
    && k <= |notes|
    && (clean <==> LastBegun(bs, notes, k) && AllInTime(bs, plan, false, notes, k))
    && (AllArrived(notes, k, TestUntil(OwnerOf(id), z)) ==> (clean <==> AllInTime(bs, plan, false, notes, k)))
  }

  lemma Judged(cases: set<Case>, z: Time, id: LabelSet, c: Case, plan: seq<Segment>, notes: seq<Note>,
               events: seq<Event>)
    requires ZERO_TIME <= z && id in LabelsOf(c) && c in cases && Conforms(BlocksOf(id, z), plan)
    requires KeepsTo(BlocksOf(id, z), plan, false, notes) && OnSchedule(notes, id, events)
    ensures JudgedByTime(cases, z, id, plan, notes, events)
  {
    OwnerIs(c, id);
    SuiteSender(cases, z, id, plan, false, notes, events);
    if AllArrived(notes, Deliveries(id, events), TestUntil(OwnerOf(id), z)) {
      SuiteSenderAtEnd(cases, z, id, plan, false, notes, events, TestUntil(OwnerOf(id), z));
    }
  }

  /** From the samples of variant one to its records: whatever the phase of the evaluations and the delays
      of the samples and of the notifications. */
  lemma R11Reception(cases: set<Case>, z: Time, t: Timing, m: nat, m': nat, notes: seq<Note>, events: seq<Event>)
    requires ZERO_TIME <= z && OrderTest in cases && t.Prompt() && ORDER_SAMPLE_COUNT <= |t.delivered|
    requires FirstToSee(t, 8, m) && FirstToSee(t, 73, m')
    requires KeepsTo(BlocksOf(ORDER.r11, z), OncePlan(z + t.Instant(m) + At(0, 12), z + t.Instant(m')), false, notes)
    requires OnSchedule(notes, ORDER.r11, events)
    ensures JudgedByTime(cases, z, ORDER.r11, OncePlan(z + t.Instant(m) + At(0, 12), z + t.Instant(m')), notes, events)
  {
    BlocksAre(z);
    R11Schedule(z, t, m, m');
    Judged(cases, z, ORDER.r11, OrderTest, OncePlan(z + t.Instant(m) + At(0, 12), z + t.Instant(m')), notes, events);
  }

  /** The same of variant two. */
  lemma R12Reception(cases: set<Case>, z: Time, t: Timing, m: nat, m': nat, notes: seq<Note>, events: seq<Event>)
    requires ZERO_TIME <= z && OrderTest in cases && t.Prompt() && ORDER_SAMPLE_COUNT <= |t.delivered|
    requires FirstToSee(t, 32, m) && FirstToSee(t, 65, m')
    requires KeepsTo(BlocksOf(ORDER.r12, z), OncePlan(z + t.Instant(m) + At(0, 12), z + t.Instant(m')), false, notes)
    requires OnSchedule(notes, ORDER.r12, events)
    ensures JudgedByTime(cases, z, ORDER.r12, OncePlan(z + t.Instant(m) + At(0, 12), z + t.Instant(m')), notes, events)
  {
    BlocksAre(z);
    R12Schedule(z, t, m, m');
    Judged(cases, z, ORDER.r12, OrderTest, OncePlan(z + t.Instant(m) + At(0, 12), z + t.Instant(m')), notes, events);
  }

  /** The same of the dependent rule, from the samples of variant two. */
  lemma R2Reception(cases: set<Case>, z: Time, u: Timing, m: nat, m': nat, notes: seq<Note>, events: seq<Event>)
    requires ZERO_TIME <= z && OrderTest in cases && u.Prompt() && ORDER_SAMPLE_COUNT <= |u.delivered|
    requires FirstToSee(u, 32, m) && FirstToSee(u, 65, m')
    requires KeepsTo(BlocksOf(ORDER.r2, z), OncePlan(z + u.Instant(m) + At(0, 12), z + u.Instant(m')), false, notes)
    requires OnSchedule(notes, ORDER.r2, events)
    ensures JudgedByTime(cases, z, ORDER.r2, OncePlan(z + u.Instant(m) + At(0, 12), z + u.Instant(m')), notes, events)
  {
    BlocksAre(z);
    R2Schedule(z, u, m, m');
    Judged(cases, z, ORDER.r2, OrderTest, OncePlan(z + u.Instant(m) + At(0, 12), z + u.Instant(m')), notes, events);
  }

  /** The same of the rule with the small `for` duration. */
  lemma SfReception(cases: set<Case>, z: Time, t: Timing, m: nat, m': nat, notes: seq<Note>, events: seq<Event>)
    requires ZERO_TIME <= z && ZeroTest in cases && t.Prompt() && ZERO_SAMPLE_COUNT <= |t.delivered|
    requires FirstToSee(t, 8, m) && FirstToSee(t, 21, m')
    requires KeepsTo(BlocksOf(ZERO.sf, z), OncePlan(z + t.Instant(m) + GROUP_INTERVAL, z + t.Instant(m')), false, notes)
    requires OnSchedule(notes, ZERO.sf, events)
    ensures JudgedByTime(cases, z, ZERO.sf, OncePlan(z + t.Instant(m) + GROUP_INTERVAL, z + t.Instant(m')), notes,
                         events)
  {
    BlocksAre(z);
    SfSchedule(z, t, m, m');
    Judged(cases, z, ZERO.sf, ZeroTest, OncePlan(z + t.Instant(m) + GROUP_INTERVAL, z + t.Instant(m')), notes, events);
  }

  /** The same of the zero-`for` alert. */
  lemma ZfReception(cases: set<Case>, z: Time, t: Timing, ma: nat, mb: nat, mc: nat, md: nat, notes: seq<Note>,
                    events: seq<Event>)
    requires ZERO_TIME <= z && ZeroTest in cases && t.Prompt() && ZERO_SAMPLE_COUNT <= |t.delivered|
    requires FirstToSee(t, 8, ma) && FirstToSee(t, 21, mb) && FirstToSee(t, 93, mc) && FirstToSee(t, 106, md)
    requires KeepsTo(BlocksOf(ZERO.zf, z), ZfPlan(z, t, ma, mb, mc, md), false, notes)
    requires OnSchedule(notes, ZERO.zf, events)
    ensures JudgedByTime(cases, z, ZERO.zf, ZfPlan(z, t, ma, mb, mc, md), notes, events)
  {
    BlocksAre(z);
    ZfSchedule(z, t, ma, mb, mc, md);
    Judged(cases, z, ZERO.zf, ZeroTest, ZfPlan(z, t, ma, mb, mc, md), notes, events);
  }

  /** The same of the alert whose annotations change while it fires. */
  lemma PfrReception(cases: set<Case>, z: Time, t: Timing, ma: nat, mv: nat, mb: nat, mc: nat, md: nat,
                     notes: seq<Note>, events: seq<Event>)
    requires ZERO_TIME <= z && PfrTest in cases && t.Prompt() && PFR_SAMPLE_COUNT <= |t.delivered|
    requires FirstToSee(t, 8, ma) && FirstToSee(t, 53, mv) && FirstToSee(t, 69, mb)
    requires FirstToSee(t, 89, mc) && FirstToSee(t, 134, md)
    requires KeepsTo(BlocksOf(PFR.labels, z), PfrPlan(z, t, ma, mv, mb, mc, md), false, notes)
    requires OnSchedule(notes, PFR.labels, events)
    ensures JudgedByTime(cases, z, PFR.labels, PfrPlan(z, t, ma, mv, mb, mc, md), notes, events)
  {
    BlocksAre(z);
    PfrSchedule(z, t, ma, mv, mb, mc, md);
    Judged(cases, z, PFR.labels, PfrTest, PfrPlan(z, t, ma, mv, mb, mc, md), notes, events);
  }
}
