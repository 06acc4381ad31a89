/** The tables of alerts each test case expects (`ExpectedAlerts` in cases/case_*.go),
    and what the alert receiver relies on in them. */
module CaseTables {
  import opened Labels
  import opened CaseLabels
  import opened ExpectedAlert
  import opened Reception
  import opened MatchOrder
  import opened ForwardOrder
  import opened ServerState

  const RW_INTERVAL: Duration := 15 * SECOND
  const GROUP_INTERVAL: Duration := 30 * SECOND

  /** One loop of a table: the alert every resend delay, from `from` to before `until`. */
  datatype Block = Block(
    alert: Alert,
    from: Time,
    until: Time,
    nextState: Time,
    resolved: bool,
    resolvedTime: Time,
    firstResend: bool,
    firstTolerance: Duration)

  /** `4 * ResendDelay`, or `4 * groupInterval` if that is longer. */
  const ENDS_AT_DELTA: Duration :=
    if 4 * RESEND_DELAY < 4 * GROUP_INTERVAL then 4 * GROUP_INTERVAL else 4 * RESEND_DELAY

  function Count(b: Block): nat
  {
    if b.from < b.until then (b.until - b.from + RESEND_DELAY - 1) / RESEND_DELAY else 0
  }

  function Row(b: Block, i: nat, orderingID: int): Expected {
    Expected(orderingID, if i == 0 then b.firstTolerance else GROUP_INTERVAL, b.from + i * RESEND_DELAY,
             b.nextState, b.resolved, i != 0 || b.firstResend, b.resolvedTime, ENDS_AT_DELTA, b.alert)
  }

  /** The first `n` rows of a block, numbered from `firstID` in steps of `stride`. */
  function RowsTo(b: Block, firstID: int, stride: nat, n: nat): seq<Expected> {
    if n == 0 then [] else RowsTo(b, firstID, stride, n - 1) + [Row(b, n - 1, firstID + (n - 1) * stride)]
  }

  function Rows(b: Block, firstID: int, stride: nat): seq<Expected> {
    RowsTo(b, firstID, stride, Count(b))
  }

  /** The first `n` rows of two blocks with the same times, alternating. */
  function AlternatingTo(a: Block, b: Block, firstID: int, n: nat): seq<Expected> {
    if n == 0 then [] else
    AlternatingTo(a, b, firstID, n - 1)
    + [Row(a, n - 1, firstID + (n - 1) * 2)] + [Row(b, n - 1, firstID + 1 + (n - 1) * 2)]
  }

  function Alternating(a: Block, b: Block, firstID: int): seq<Expected> {
    AlternatingTo(a, b, firstID, Count(a))
  }

  lemma {:induction false} RowsAt(b: Block, firstID: int, stride: nat, n: nat)
    ensures |RowsTo(b, firstID, stride, n)| == n
    ensures forall i :: 0 <= i < n ==> RowsTo(b, firstID, stride, n)[i] == Row(b, i, firstID + i * stride)
  {
    if n == 0 {
    } else {
      RowsAt(b, firstID, stride, n - 1);
    }
  }

  lemma CountIs(b: Block, n: nat)
    ensures n < Count(b) <==> b.from + n * RESEND_DELAY < b.until
  {
    if b.from < b.until {
      var d, q := b.until - b.from + RESEND_DELAY - 1, Count(b);
      assert d == RESEND_DELAY * q + d % RESEND_DELAY;
      if n < q {
        assert RESEND_DELAY * (n + 1) <= RESEND_DELAY * q;
      } else {
        assert RESEND_DELAY * q <= RESEND_DELAY * n;
      }
    }
  }

  method AppendBlock(exp: seq<Expected>, orderingID: int, b: Block) returns (exp': seq<Expected>, orderingID': int)
    ensures exp' == exp + Rows(b, orderingID + 1, 1)
    ensures orderingID' == orderingID + Count(b)
  {
    exp', orderingID' := exp, orderingID;
    var ts := b.from;
    ghost var n := 0;
    CountIs(b, 0);
    while ts < b.until
      invariant ts == b.from + n * RESEND_DELAY
      invariant n <= Count(b) && orderingID' == orderingID + n
      invariant exp' == exp + RowsTo(b, orderingID + 1, 1, n)
      decreases b.until - ts
    {
      CountIs(b, n);
      orderingID' := orderingID' + 1;
      var first := ts == b.from;
      exp' := exp' + [Expected(orderingID', if first then b.firstTolerance else GROUP_INTERVAL, ts, b.nextState,
                               b.resolved, !first || b.firstResend, b.resolvedTime, ENDS_AT_DELTA, b.alert)];
      ts := ts + RESEND_DELAY;
      n := n + 1;
    }
    CountIs(b, n);
  }

  method AppendAlternating(exp: seq<Expected>, orderingID: int, a: Block, b: Block)
    returns (exp': seq<Expected>, orderingID': int)
    requires b == a.(alert := b.alert)
    ensures exp' == exp + Alternating(a, b, orderingID + 1)
    ensures orderingID' == orderingID + 2 * Count(a)
  {
    exp', orderingID' := exp, orderingID;
    var ts := a.from;
    ghost var n := 0;
    CountIs(a, 0);
    while ts < a.until
      invariant ts == a.from + n * RESEND_DELAY
      invariant n <= Count(a) && orderingID' == orderingID + 2 * n
      invariant exp' == exp + AlternatingTo(a, b, orderingID + 1, n)
      decreases a.until - ts
    {
      CountIs(a, n);
      var first := ts == a.from;
      var ea := Expected(orderingID' + 1, if first then a.firstTolerance else GROUP_INTERVAL, ts, a.nextState,
                         a.resolved, !first || a.firstResend, a.resolvedTime, ENDS_AT_DELTA, a.alert);
      exp' := exp' + [ea];
      exp' := exp' + [ea.(orderingID := orderingID' + 2, alert := b.alert)];
      orderingID' := orderingID' + 2;
      ts := ts + RESEND_DELAY;
      n := n + 1;
    }
    CountIs(a, n);
  }

  /** Consecutive blocks of one label set, numbered on. */
  function Chain(blocks: seq<Block>, firstID: int, stride: nat): seq<Expected> {
    if blocks == [] then [] else
    Rows(blocks[0], firstID, stride) + Chain(blocks[1..], firstID + Count(blocks[0]) * stride, stride)
  }

  // ---- the tables

  function At(zeroTime: Time, k: nat): Time {
    zeroTime + k * RW_INTERVAL
  }

  function Firing(labels: LabelSet, annotations: LabelSet, startsAt: Time, from: Time, until: Time, nextState: Time,
                  resolvedTime: Time, firstResend: bool): Block
  {
    Block(Alert(labels, annotations, startsAt, ZERO_TIME, NoURL), from, until, nextState, false, resolvedTime,
          firstResend, GROUP_INTERVAL)
  }

  /** The first resolved alert may come a whole group interval later than usual. */
  function Resolved(labels: LabelSet, annotations: LabelSet, startsAt: Time, from: Time, until: Time,
                    nextState: Time): Block
  {
    Block(Alert(labels, annotations, startsAt, ZERO_TIME, NoURL), from, until, nextState, true, from,
          false, 2 * GROUP_INTERVAL)
  }

  function PfrBlocks(tc: PfrCase, z: Time): seq<Block> {
    [Firing(tc.labels, tc.fifteen, At(z, 32), At(z, 32), At(z, 53), At(z, 53), At(z, 69), false),
     Firing(tc.labels, tc.nineteen, At(z, 32), At(z, 53), At(z, 69), At(z, 69), At(z, 69), true),
     Resolved(tc.labels, tc.nineteen, At(z, 32), At(z, 69), At(z, 89), At(z, 89)),
     Firing(tc.labels, tc.fifteen, At(z, 113), At(z, 113), At(z, 134), At(z, 134), At(z, 134), false),
     Resolved(tc.labels, tc.fifteen, At(z, 113), At(z, 134), At(z, 134) + RESOLVED_LIMIT, ZERO_TIME)]
  }

  function R11Blocks(tc: OrderCase, z: Time): seq<Block> {
    [Firing(tc.r11, tc.r1Annotations, At(z, 20), At(z, 20), At(z, 73), At(z, 73), At(z, 73), false),
     Resolved(tc.r11, tc.r1Annotations, At(z, 20), At(z, 73), At(z, 73) + RESOLVED_LIMIT, ZERO_TIME)]
  }

  /** r12 and r2 fire and resolve at the same times. */
  function LaterBlocks(labels: LabelSet, annotations: LabelSet, z: Time): seq<Block> {
    [Firing(labels, annotations, At(z, 44), At(z, 44), At(z, 65), At(z, 65), At(z, 65), false),
     Resolved(labels, annotations, At(z, 44), At(z, 65), At(z, 65) + RESOLVED_LIMIT, ZERO_TIME)]
  }

  function ZfBlocks(tc: ZeroCase, z: Time): seq<Block> {
    [Firing(tc.zf, tc.zfAnnotations, At(z, 8), At(z, 8), At(z, 21), At(z, 21), At(z, 21), false),
     Resolved(tc.zf, tc.zfAnnotations, At(z, 8), At(z, 21), At(z, 21) + RESOLVED_LIMIT, At(z, 93)),
     Firing(tc.zf, tc.zfAnnotationsAgain, At(z, 93), At(z, 93), At(z, 106), At(z, 106), At(z, 106), false),
     Resolved(tc.zf, tc.zfAnnotationsAgain, At(z, 93), At(z, 106), At(z, 106) + RESOLVED_LIMIT, ZERO_TIME)]
  }

  function SfBlocks(tc: ZeroCase, z: Time): seq<Block> {
    var start := At(z, 8) + GROUP_INTERVAL;
    [Firing(tc.sf, tc.sfAnnotations, start, start, At(z, 21), At(z, 21), At(z, 21), false),
     Resolved(tc.sf, tc.sfAnnotations, start, At(z, 21), At(z, 21) + RESOLVED_LIMIT, ZERO_TIME)]
  }

  method AppendBlocks(exp: seq<Expected>, orderingID: int, blocks: seq<Block>)
    returns (exp': seq<Expected>, orderingID': int)
    ensures exp' == exp + Chain(blocks, orderingID + 1, 1)
    ensures orderingID' == orderingID + Total(blocks)
  {
    exp', orderingID' := exp, orderingID;
    var i := 0;
    while i < |blocks|
      invariant 0 <= i <= |blocks|
      invariant exp' + Chain(blocks[i..], orderingID' + 1, 1) == exp + Chain(blocks, orderingID + 1, 1)
      invariant orderingID' + Total(blocks[i..]) == orderingID + Total(blocks)
    {
      assert blocks[i..][0] == blocks[i] && blocks[i..][1..] == blocks[i + 1..];
      exp', orderingID' := AppendBlock(exp', orderingID', blocks[i]);
      i := i + 1;
    }
  }

  function Total(blocks: seq<Block>): nat {
    if blocks == [] then 0 else Count(blocks[0]) + Total(blocks[1..])
  }

  function PfrTable(tc: PfrCase, z: Time): seq<Expected> {
    Chain(PfrBlocks(tc, z), 1, 1)
  }

  method PfrExpectedAlerts(tc: PfrCase, zeroTime: Time) returns (exp: seq<Expected>)
    ensures exp == PfrTable(tc, zeroTime)
  {
    var orderingID;
    exp, orderingID := AppendBlocks([], 0, PfrBlocks(tc, zeroTime));
  }

  function LaterTable(r12: seq<Block>, r2: seq<Block>, firstID: int): seq<Expected>
    requires |r12| == |r2| == 2
  {
    Alternating(r12[0], r2[0], firstID) + Alternating(r12[1], r2[1], firstID + 2 * Count(r12[0]))
  }

  function OrderTable(tc: OrderCase, z: Time): seq<Expected> {
    Chain(R11Blocks(tc, z), 1, 1)
    + LaterTable(LaterBlocks(tc.r12, tc.r1Annotations, z), LaterBlocks(tc.r2, tc.r2Annotations, z),
                 1 + Total(R11Blocks(tc, z)))
  }

  method OrderExpectedAlerts(tc: OrderCase, zeroTime: Time) returns (exp: seq<Expected>)
    ensures exp == OrderTable(tc, zeroTime)
  {
    var r12, r2 := LaterBlocks(tc.r12, tc.r1Annotations, zeroTime), LaterBlocks(tc.r2, tc.r2Annotations, zeroTime);
    var orderingID;
    exp, orderingID := AppendBlocks([], 0, R11Blocks(tc, zeroTime));
    exp, orderingID := AppendAlternating(exp, orderingID, r12[0], r2[0]);
    exp, orderingID := AppendAlternating(exp, orderingID, r12[1], r2[1]);
  }

  function ZeroTable(tc: ZeroCase, z: Time): seq<Expected> {
    Chain(ZfBlocks(tc, z), 1, 1) + Chain(SfBlocks(tc, z), 1 + Total(ZfBlocks(tc, z)), 1)
  }

  method ZeroExpectedAlerts(tc: ZeroCase, zeroTime: Time) returns (exp: seq<Expected>)
    ensures exp == ZeroTable(tc, zeroTime)
  {
    var orderingID;
    exp, orderingID := AppendBlocks([], 0, ZfBlocks(tc, zeroTime));
    exp, orderingID := AppendBlocks(exp, orderingID, SfBlocks(tc, zeroTime));
  }

  // ---- what the tables guarantee

  /** Everything the receiver relies on in the queue of one label set. */
  ghost predicate Good(q: seq<Expected>) {
    && Ordered(q) && Scheduled(q) && Spaced(q, GROUP_INTERVAL)
    && (forall ea :: ea in q ==> GROUP_INTERVAL <= ea.timeTolerance)
    && (forall ea :: ea in q && !ea.resend ==> !ea.CanBeIgnored())
  }

  ghost predicate BlockOk(b: Block) {
    && ZERO_TIME < b.from < b.until
    && GROUP_INTERVAL <= b.firstTolerance
    && (b.firstResend ==> b.firstTolerance == GROUP_INTERVAL)
    && (b.nextState == ZERO_TIME || b.until <= b.nextState)
    && (b.resolved ==> b.until <= b.resolvedTime + RESOLVED_LIMIT)
    && (!b.firstResend ==> !Row(b, 0, 0).CanBeIgnored())
  }

  ghost predicate Follows(a: Block, b: Block) {
    a.until <= b.from && a.nextState != ZERO_TIME && a.nextState <= b.from
  }

  ghost predicate Sequence(blocks: seq<Block>) {
    && (forall k :: 0 <= k < |blocks| ==> BlockOk(blocks[k]))
    && (forall k :: 0 < k < |blocks| ==> Follows(blocks[k - 1], blocks[k]))
  }

  /** What the receiver sees in a row of a block. */
  ghost predicate RowOf(b: Block, ea: Expected) {
    && b.from <= ea.ts < b.until && ea.nextState == b.nextState && ea.alert == b.alert
    && (!ea.resend ==> ea.ts == b.from && !ea.CanBeIgnored())
    && !ea.ShouldBeIgnored() && GROUP_INTERVAL <= ea.timeTolerance
    && (ea.resend ==> ea.timeTolerance == GROUP_INTERVAL)
  }

  lemma RowIs(b: Block, i: nat, orderingID: int)
    requires BlockOk(b) && i < Count(b)
    ensures RowOf(b, Row(b, i, orderingID))
  {
    CountIs(b, i);
  }

  /** All of `q` are rows of `b` with ids in [low, high). */
  ghost predicate RowsWithin(q: seq<Expected>, b: Block, low: int, high: int) {
    forall ea :: ea in q ==> RowOf(b, ea) && low <= ea.orderingID < high
  }

  lemma {:induction false} RowsAre(b: Block, firstID: int, stride: nat, n: nat)
    requires BlockOk(b) && stride > 0 && n <= Count(b)
    ensures RowsWithin(RowsTo(b, firstID, stride, n), b, firstID, firstID + n * stride)
  {
    if n == 0 {
    } else {
      RowsAre(b, firstID, stride, n - 1);
      RowIs(b, n - 1, firstID + (n - 1) * stride);
      assert (n - 1) * stride + stride == n * stride;
      assert (n - 1) * stride >= 0;
    }
  }

  lemma RowPair(b: Block, i: nat, j: nat, firstID: int, stride: nat)
    requires BlockOk(b) && i < j < Count(b) && stride > 0
    ensures var x, y := Row(b, i, firstID + i * stride), Row(b, j, firstID + j * stride);
      x.orderingID < y.orderingID && InTurn(x, y) && Apart(x, y)
  {
    assert i * stride + stride == (i + 1) * stride <= j * stride;
  }

  lemma RowsOrdered(b: Block, firstID: int, stride: nat)
    requires BlockOk(b) && stride > 0
    ensures Ordered(Rows(b, firstID, stride))
    ensures var q := Rows(b, firstID, stride);
      forall i, j :: 0 <= i < j < |q| ==> InTurn(q[i], q[j]) && Apart(q[i], q[j])
  {
    var q := Rows(b, firstID, stride);
    RowsAt(b, firstID, stride, Count(b));
    forall i, j | 0 <= i < j < |q|
      ensures q[i].orderingID < q[j].orderingID && InTurn(q[i], q[j]) && Apart(q[i], q[j])
    {
      RowPair(b, i, j, firstID, stride);
    }
  }

  lemma GoodRows(b: Block, firstID: int, stride: nat)
    requires BlockOk(b) && stride > 0
    ensures Good(Rows(b, firstID, stride))
    ensures RowsWithin(Rows(b, firstID, stride), b, firstID, firstID + Count(b) * stride)
  {
    var q := Rows(b, firstID, stride);
    RowsAre(b, firstID, stride, Count(b));
    RowsOrdered(b, firstID, stride);
    assert forall i :: 0 <= i < |q| ==> q[i] in q;
    ScheduledByIndex(q);
    SpacedByIndex(q, GROUP_INTERVAL);
  }

  lemma GoodConcat(a: seq<Expected>, b: seq<Expected>, t: Time)
    requires Good(a) && Good(b)
    requires forall x, y :: x in a && y in b ==> x.orderingID < y.orderingID
    requires forall x :: x in a ==> x.ts <= t && x.nextState != ZERO_TIME && x.nextState <= t
    requires forall y :: y in b ==> t <= y.ts
    ensures Good(a + b)
  {
    forall i, j | 0 <= i < j < |a + b| ensures (a + b)[i].orderingID < (a + b)[j].orderingID {
      if i < |a| <= j {
        assert a[i] in a && b[j - |a|] in b;
      }
    }
  }

  lemma SequenceTail(blocks: seq<Block>)
    requires Sequence(blocks) && |blocks| > 1
    ensures Sequence(blocks[1..]) && Follows(blocks[0], blocks[1])
  {
    assert Follows(blocks[0], blocks[1]);
    forall k | 0 < k < |blocks| - 1 ensures Follows(blocks[1..][k - 1], blocks[1..][k]) {
      assert Follows(blocks[k], blocks[k + 1]);
    }
  }

  /** All of `q` come with ids from `low` on, not before `t`. */
  ghost predicate NotBefore(q: seq<Expected>, low: int, t: Time) {
    forall ea :: ea in q ==> low <= ea.orderingID && t <= ea.ts
  }

  lemma GoodPrepend(head: seq<Expected>, tail: seq<Expected>, b: Block, low: int, high: int, t: Time)
    requires Good(head) && RowsWithin(head, b, low, high) && low <= high
    requires Good(tail) && NotBefore(tail, high, t)
    requires b.until <= t && b.nextState != ZERO_TIME && b.nextState <= t && b.from <= t
    ensures Good(head + tail) && NotBefore(head + tail, low, b.from)
  {
    GoodConcat(head, tail, t);
  }

  lemma GoodChainStep(blocks: seq<Block>, firstID: int, stride: nat)
    requires Sequence(blocks) && |blocks| > 1 && stride > 0
    requires var tail := Chain(blocks[1..], firstID + Count(blocks[0]) * stride, stride);
      Good(tail) && NotBefore(tail, firstID + Count(blocks[0]) * stride, blocks[1].from)
    ensures Good(Chain(blocks, firstID, stride)) && NotBefore(Chain(blocks, firstID, stride), firstID, blocks[0].from)
  {
    var next := firstID + Count(blocks[0]) * stride;
    assert firstID <= next;
    GoodRows(blocks[0], firstID, stride);
    SequenceTail(blocks);
    GoodPrepend(Rows(blocks[0], firstID, stride), Chain(blocks[1..], next, stride), blocks[0], firstID, next,
                blocks[1].from);
  }

  lemma GoodChainLast(blocks: seq<Block>, firstID: int, stride: nat)
    requires Sequence(blocks) && |blocks| == 1 && stride > 0
    ensures Good(Chain(blocks, firstID, stride)) && NotBefore(Chain(blocks, firstID, stride), firstID, blocks[0].from)
  {
    GoodRows(blocks[0], firstID, stride);
    assert blocks[1..] == [] && Chain(blocks, firstID, stride) == Rows(blocks[0], firstID, stride);
  }

  /** Consecutive blocks that follow each other are what the receiver relies on. */
  lemma {:induction false} GoodChain(blocks: seq<Block>, firstID: int, stride: nat)
    requires Sequence(blocks) && stride > 0
    ensures Good(Chain(blocks, firstID, stride))
    ensures blocks != [] ==> NotBefore(Chain(blocks, firstID, stride), firstID, blocks[0].from)
  {
    if |blocks| == 1 {
      GoodChainLast(blocks, firstID, stride);
    } else if |blocks| > 1 {
      SequenceTail(blocks);
      GoodChain(blocks[1..], firstID + Count(blocks[0]) * stride, stride);
      GoodChainStep(blocks, firstID, stride);
    }
  }

  lemma {:induction false} RowsAllOf(b: Block, firstID: int, stride: nat, n: nat)
    ensures AllOf(RowsTo(b, firstID, stride, n), b.alert.labels)
  {
    if n == 0 {
    } else {
      RowsAllOf(b, firstID, stride, n - 1);
    }
  }

  lemma {:induction false} ChainAllOf(blocks: seq<Block>, firstID: int, stride: nat, id: LabelSet)
    requires forall k :: 0 <= k < |blocks| ==> blocks[k].alert.labels == id
    ensures AllOf(Chain(blocks, firstID, stride), id)
  {
    if blocks == [] {
    } else {
      RowsAllOf(blocks[0], firstID, stride, Count(blocks[0]));
      ChainAllOf(blocks[1..], firstID + Count(blocks[0]) * stride, stride, id);
    }
  }

  lemma {:induction false} SortedOf(q: seq<Expected>)
    requires Ordered(q)
    ensures Sorted(q) == q
  {
    if q == [] {
    } else {
      var last := |q| - 1;
      SortedOf(q[..last]);
      InsertLast(q[last], q[..last]);
      assert q == q[..last] + [q[last]];
    }
  }

  lemma {:induction false} InsertLast(x: Expected, q: seq<Expected>)
    requires forall i :: 0 <= i < |q| ==> q[i].orderingID < x.orderingID
    ensures Insert(x, q) == q + [x]
  {
    if q == [] {
    } else {
      InsertLast(x, q[1..]);
    }
  }

  lemma PfrSequence(tc: PfrCase, z: Time)
    requires ZERO_TIME <= z
    ensures Sequence(PfrBlocks(tc, z))
  {
  }

  lemma R11Sequence(tc: OrderCase, z: Time)
    requires ZERO_TIME <= z
    ensures Sequence(R11Blocks(tc, z))
  {
  }

  lemma LaterSequence(labels: LabelSet, annotations: LabelSet, z: Time)
    requires ZERO_TIME <= z
    ensures Sequence(LaterBlocks(labels, annotations, z))
  {
  }

  lemma ZfSequence(tc: ZeroCase, z: Time)
    requires ZERO_TIME <= z
    ensures Sequence(ZfBlocks(tc, z))
  {
  }

  lemma SfSequence(tc: ZeroCase, z: Time)
    requires ZERO_TIME <= z
    ensures Sequence(SfBlocks(tc, z))
  {
  }

  lemma ProjectTwo(q: seq<Expected>, x: Expected, y: Expected, id: LabelSet)
    requires ExpectedKey(x) != ExpectedKey(y)
    ensures Project(q + [x] + [y], ExpectedKey, id) ==
      if id == ExpectedKey(x) then Project(q, ExpectedKey, id) + [x]
      else if id == ExpectedKey(y) then Project(q, ExpectedKey, id) + [y]
      else Project(q, ExpectedKey, id)
  {
    ProjectOne(q, x, ExpectedKey, id);
    ProjectOne(q + [x], y, ExpectedKey, id);
  }

  lemma {:induction false} AlternatingFirst(a: Block, b: Block, firstID: int, n: nat)
    requires a.alert.labels != b.alert.labels
    ensures Project(AlternatingTo(a, b, firstID, n), ExpectedKey, a.alert.labels) == RowsTo(a, firstID, 2, n)
  {
    if n == 0 {
    } else {
      AlternatingFirst(a, b, firstID, n - 1);
      var x, y := Row(a, n - 1, firstID + (n - 1) * 2), Row(b, n - 1, firstID + 1 + (n - 1) * 2);
      ProjectTwo(AlternatingTo(a, b, firstID, n - 1), x, y, a.alert.labels);
      assert AlternatingTo(a, b, firstID, n) == AlternatingTo(a, b, firstID, n - 1) + [x] + [y];
      assert RowsTo(a, firstID, 2, n) == RowsTo(a, firstID, 2, n - 1) + [x];
    }
  }

  lemma {:induction false} AlternatingSecond(a: Block, b: Block, firstID: int, n: nat)
    requires a.alert.labels != b.alert.labels
    ensures Project(AlternatingTo(a, b, firstID, n), ExpectedKey, b.alert.labels) == RowsTo(b, firstID + 1, 2, n)
  {
    if n == 0 {
    } else {
      AlternatingSecond(a, b, firstID, n - 1);
      var x, y := Row(a, n - 1, firstID + (n - 1) * 2), Row(b, n - 1, firstID + 1 + (n - 1) * 2);
      ProjectTwo(AlternatingTo(a, b, firstID, n - 1), x, y, b.alert.labels);
      assert AlternatingTo(a, b, firstID, n) == AlternatingTo(a, b, firstID, n - 1) + [x] + [y];
      assert RowsTo(b, firstID + 1, 2, n) == RowsTo(b, firstID + 1, 2, n - 1) + [y];
    }
  }

  lemma {:induction false} AlternatingNone(a: Block, b: Block, firstID: int, n: nat, id: LabelSet)
    requires a.alert.labels != b.alert.labels && id != a.alert.labels && id != b.alert.labels
    ensures Project(AlternatingTo(a, b, firstID, n), ExpectedKey, id) == []
  {
    if n == 0 {
    } else {
      AlternatingNone(a, b, firstID, n - 1, id);
      var x, y := Row(a, n - 1, firstID + (n - 1) * 2), Row(b, n - 1, firstID + 1 + (n - 1) * 2);
      ProjectTwo(AlternatingTo(a, b, firstID, n - 1), x, y, id);
      assert AlternatingTo(a, b, firstID, n) == AlternatingTo(a, b, firstID, n - 1) + [x] + [y];
    }
  }

  /** The part of two alternating blocks that concerns one label set. */
  lemma AlternatingRows(a: Block, b: Block, firstID: int, id: LabelSet)
    requires a.alert.labels != b.alert.labels && Count(a) == Count(b)
    ensures id == a.alert.labels ==> Project(Alternating(a, b, firstID), ExpectedKey, id) == Rows(a, firstID, 2)
    ensures id == b.alert.labels ==> Project(Alternating(a, b, firstID), ExpectedKey, id) == Rows(b, firstID + 1, 2)
    ensures id != a.alert.labels && id != b.alert.labels ==> Project(Alternating(a, b, firstID), ExpectedKey, id) == []
  {
    if id == a.alert.labels {
      AlternatingFirst(a, b, firstID, Count(a));
    } else if id == b.alert.labels {
      AlternatingSecond(a, b, firstID, Count(a));
    } else {
      AlternatingNone(a, b, firstID, Count(a), id);
    }
  }

  lemma ChainOfTwo(blocks: seq<Block>, firstID: int)
    requires |blocks| == 2
    ensures Chain(blocks, firstID, 2)
      == Rows(blocks[0], firstID, 2) + Rows(blocks[1], firstID + 2 * Count(blocks[0]), 2)
  {
    var next := firstID + 2 * Count(blocks[0]);
    assert Chain(blocks[1..][1..], next + 2 * Count(blocks[1]), 2) == [];
    assert Chain(blocks[1..], next, 2) == Rows(blocks[1], next, 2);
  }

  lemma LaterProjectOf(a: seq<Block>, b: seq<Block>, firstID: int, id: LabelSet, x: seq<Block>, xID: int)
    requires |a| == |b| == |x| == 2
    requires Project(Alternating(a[0], b[0], firstID), ExpectedKey, id) == Rows(x[0], xID, 2)
    requires Project(Alternating(a[1], b[1], firstID + 2 * Count(a[0])), ExpectedKey, id)
      == Rows(x[1], xID + 2 * Count(x[0]), 2)
    ensures Project(LaterTable(a, b, firstID), ExpectedKey, id) == Chain(x, xID, 2)
  {
    ProjectConcat(Alternating(a[0], b[0], firstID), Alternating(a[1], b[1], firstID + 2 * Count(a[0])), ExpectedKey,
                  id);
    ChainOfTwo(x, xID);
  }

  /** Two alternating pairs of blocks, seen from one label set. */
  lemma LaterProject(a: seq<Block>, b: seq<Block>, firstID: int, la: LabelSet, lb: LabelSet, id: LabelSet)
    requires |a| == |b| == 2 && la != lb
    requires Count(a[0]) == Count(b[0]) && a[0].alert.labels == la && b[0].alert.labels == lb
    requires Count(a[1]) == Count(b[1]) && a[1].alert.labels == la && b[1].alert.labels == lb
    ensures id == la ==> Project(LaterTable(a, b, firstID), ExpectedKey, id) == Chain(a, firstID, 2)
    ensures id == lb ==> Project(LaterTable(a, b, firstID), ExpectedKey, id) == Chain(b, firstID + 1, 2)
    ensures id != la && id != lb ==> Project(LaterTable(a, b, firstID), ExpectedKey, id) == []
  {
    var next := firstID + 2 * Count(a[0]);
    AlternatingRows(a[0], b[0], firstID, id);
    AlternatingRows(a[1], b[1], next, id);
    if id == la {
      LaterProjectOf(a, b, firstID, id, a, firstID);
    } else if id == lb {
      LaterProjectOf(a, b, firstID, id, b, firstID + 1);
    } else {
      ProjectConcat(Alternating(a[0], b[0], firstID), Alternating(a[1], b[1], next), ExpectedKey, id);
    }
  }

  lemma GoodEmpty()
    ensures Good([])
  {
  }

  /** The queue the receiver builds for a label set from a table. */
  function QueueFrom(table: seq<Expected>, id: LabelSet): seq<Expected> {
    AddBack([], Project(table, ExpectedKey, id))
  }

  lemma GoodQueueFrom(table: seq<Expected>, id: LabelSet)
    requires Good(Project(table, ExpectedKey, id))
    ensures Good(QueueFrom(table, id)) && QueueFrom(table, id) == Project(table, ExpectedKey, id)
  {
    var q := Project(table, ExpectedKey, id);
    assert [] + q == q;
    SortedOf(q);
  }

  /** The first part concerns one label set that the rest does not mention. */
  ghost predicate PartsFitTogether(a: seq<Expected>, la: LabelSet, rest: seq<Expected>, id: LabelSet) {
    && AllOf(a, la) && Good(a) && Good(Project(rest, ExpectedKey, id))
    && Project(rest, ExpectedKey, la) == []
  }

  lemma GoodParts(table: seq<Expected>, a: seq<Expected>, la: LabelSet, rest: seq<Expected>, id: LabelSet)
    requires table == a + rest && PartsFitTogether(a, la, rest, id)
    ensures Good(QueueFrom(table, id))
  {
    PartGood(a, la, rest, id);
    ProjectConcat(a, rest, ExpectedKey, id);
    GoodQueueFrom(table, id);
  }

  lemma PartGood(a: seq<Expected>, la: LabelSet, rest: seq<Expected>, id: LabelSet)
    requires PartsFitTogether(a, la, rest, id)
    ensures Good(Project(a, ExpectedKey, id) + Project(rest, ExpectedKey, id))
  {
    ProjectUniform(a, ExpectedKey, id, la);
    var mine, others := Project(a, ExpectedKey, id), Project(rest, ExpectedKey, id);
    if id == la {
      assert mine + others == a;
    } else {
      assert mine + others == others;
    }
  }

  /** A table of one label set. */
  lemma GoodOne(table: seq<Expected>, la: LabelSet, id: LabelSet)
    requires AllOf(table, la) && Good(table)
    ensures Good(Project(table, ExpectedKey, id)) && (id != la ==> Project(table, ExpectedKey, id) == [])
  {
    ProjectUniform(table, ExpectedKey, id, la);
    GoodEmpty();
  }

  lemma PfrGood(tc: PfrCase, z: Time, id: LabelSet)
    requires ZERO_TIME <= z
    ensures Good(QueueFrom(PfrTable(tc, z), id))
  {
    PfrSequence(tc, z);
    GoodChain(PfrBlocks(tc, z), 1, 1);
    ChainAllOf(PfrBlocks(tc, z), 1, 1, tc.labels);
    GoodOne(PfrTable(tc, z), tc.labels, id);
    GoodQueueFrom(PfrTable(tc, z), id);
  }

  lemma ZfGood(tc: ZeroCase, z: Time)
    requires ZERO_TIME <= z
    ensures Good(Chain(ZfBlocks(tc, z), 1, 1)) && AllOf(Chain(ZfBlocks(tc, z), 1, 1), tc.zf)
  {
    ZfSequence(tc, z);
    GoodChain(ZfBlocks(tc, z), 1, 1);
    ChainAllOf(ZfBlocks(tc, z), 1, 1, tc.zf);
  }

  lemma SfGood(tc: ZeroCase, z: Time, firstID: int)
    requires ZERO_TIME <= z
    ensures Good(Chain(SfBlocks(tc, z), firstID, 1)) && AllOf(Chain(SfBlocks(tc, z), firstID, 1), tc.sf)
  {
    SfSequence(tc, z);
    GoodChain(SfBlocks(tc, z), firstID, 1);
    ChainAllOf(SfBlocks(tc, z), firstID, 1, tc.sf);
  }

  lemma SfProjects(tc: ZeroCase, z: Time, firstID: int, id: LabelSet)
    requires ZERO_TIME <= z && tc.Distinct()
    ensures var sf := Chain(SfBlocks(tc, z), firstID, 1);
      Good(Project(sf, ExpectedKey, id)) && Project(sf, ExpectedKey, tc.zf) == []
  {
    var sf := Chain(SfBlocks(tc, z), firstID, 1);
    SfGood(tc, z, firstID);
    GoodOne(sf, tc.sf, id);
    GoodOne(sf, tc.sf, tc.zf);
  }

  lemma ZeroGood(tc: ZeroCase, z: Time, id: LabelSet)
    requires ZERO_TIME <= z && tc.Distinct()
    ensures Good(QueueFrom(ZeroTable(tc, z), id))
  {
    ZeroParts(tc, z, id);
    var next := 1 + Total(ZfBlocks(tc, z));
    GoodParts(ZeroTable(tc, z), Chain(ZfBlocks(tc, z), 1, 1), tc.zf, Chain(SfBlocks(tc, z), next, 1), id);
  }

  lemma ZeroParts(tc: ZeroCase, z: Time, id: LabelSet)
    requires ZERO_TIME <= z && tc.Distinct()
    ensures PartsFitTogether(Chain(ZfBlocks(tc, z), 1, 1), tc.zf,
                             Chain(SfBlocks(tc, z), 1 + Total(ZfBlocks(tc, z)), 1), id)
  {
    ZfGood(tc, z);
    SfProjects(tc, z, 1 + Total(ZfBlocks(tc, z)), id);
  }

  lemma LaterGood(tc: OrderCase, z: Time, firstID: int, id: LabelSet)
    requires ZERO_TIME <= z && tc.Distinct()
    ensures var r12, r2 := LaterBlocks(tc.r12, tc.r1Annotations, z), LaterBlocks(tc.r2, tc.r2Annotations, z);
      && Good(Project(LaterTable(r12, r2, firstID), ExpectedKey, id))
      && Project(LaterTable(r12, r2, firstID), ExpectedKey, tc.r11) == []
  {
    var r12, r2 := LaterBlocks(tc.r12, tc.r1Annotations, z), LaterBlocks(tc.r2, tc.r2Annotations, z);
    LaterProject(r12, r2, firstID, tc.r12, tc.r2, id);
    LaterProject(r12, r2, firstID, tc.r12, tc.r2, tc.r11);
    LaterSequence(tc.r12, tc.r1Annotations, z);
    LaterSequence(tc.r2, tc.r2Annotations, z);
    GoodChain(r12, firstID, 2);
    GoodChain(r2, firstID + 1, 2);
    GoodEmpty();
  }

  lemma OrderParts(tc: OrderCase, z: Time, id: LabelSet)
    requires ZERO_TIME <= z && tc.Distinct()
    ensures var r12, r2 := LaterBlocks(tc.r12, tc.r1Annotations, z), LaterBlocks(tc.r2, tc.r2Annotations, z);
      PartsFitTogether(Chain(R11Blocks(tc, z), 1, 1), tc.r11, LaterTable(r12, r2, 1 + Total(R11Blocks(tc, z))), id)
  {
    R11Sequence(tc, z);
    GoodChain(R11Blocks(tc, z), 1, 1);
    ChainAllOf(R11Blocks(tc, z), 1, 1, tc.r11);
    LaterGood(tc, z, 1 + Total(R11Blocks(tc, z)), id);
  }

  lemma OrderGood(tc: OrderCase, z: Time, id: LabelSet)
    requires ZERO_TIME <= z && tc.Distinct()
    ensures Good(QueueFrom(OrderTable(tc, z), id))
  {
    OrderParts(tc, z, id);
    var r12, r2 := LaterBlocks(tc.r12, tc.r1Annotations, z), LaterBlocks(tc.r2, tc.r2Annotations, z);
    GoodParts(OrderTable(tc, z), Chain(R11Blocks(tc, z), 1, 1), tc.r11,
              LaterTable(r12, r2, 1 + Total(R11Blocks(tc, z))), id);
  }
}
