/** Whole runs of a sender against the table of its label set. */
module NotificationRuns {
  import opened Labels
  import opened ExpectedAlert
  import opened Reception
  import opened Conservation
  import opened Verdict
  import opened MatchOrder
  import opened Resends
  import opened CaseTables
  import opened Hits
  import opened Notifications

  // ---- the table

  /** A block without rows. */
  const NO_BLOCK: Block := Block(Alert([], [], ZERO_TIME, ZERO_TIME, NoURL), ZERO_TIME, ZERO_TIME, ZERO_TIME, false,
                                 ZERO_TIME, false, 0)

  function Nth(bs: seq<Block>, i: nat): Block {
    if i < |bs| then bs[i] else NO_BLOCK
  }

  /** The index of the first row of block `i`. */
  function Offset(bs: seq<Block>, i: nat): nat {
    if i == 0 then 0 else Offset(bs, i - 1) + Count(Nth(bs, i - 1))
  }

  /** A block has rows; the first begins with a first notification, and of two neighbours not both go
      on without one. */
  predicate BlockFine(bs: seq<Block>, i: nat) {
    && 0 < Count(Nth(bs, i))
    && (Nth(bs, i).firstResend ==> Nth(bs, i).firstTolerance == GROUP_INTERVAL)
    && (Nth(bs, i).firstResend ==> i > 0 && !Nth(bs, i - 1).firstResend)
  }

  ghost predicate RowsAtOffset(q: seq<Expected>, o: nat, b: Block) {
    o + Count(b) <= |q| && forall x :: o <= x < o + Count(b) ==> q[x] == Row(b, x - o, q[x].orderingID)
  }

  /** The rows of the first `n` blocks, numbered in whatever way. */
  ghost predicate RowsOf(q: seq<Expected>, bs: seq<Block>, n: nat) {
    n > 0 ==> RowsOf(q, bs, n - 1) && BlockFine(bs, n - 1) && RowsAtOffset(q, Offset(bs, n - 1), Nth(bs, n - 1))
  }

  ghost predicate Healthy(q: seq<Expected>) {
    forall ea :: ea in q ==> !ea.ShouldBeIgnored() && 0 <= ea.timeTolerance && (!ea.resend ==> !ea.CanBeIgnored())
  }

  ghost predicate Filled(q: seq<Expected>, bs: seq<Block>) {
    RowsOf(q, bs, |bs|) && |q| == Offset(bs, |bs|)
  }

  ghost predicate Table(q: seq<Expected>, bs: seq<Block>) {
    Filled(q, bs) && Ordered(q) && Scheduled(q) && Healthy(q)
  }

  lemma {:induction false} OffsetGrows(bs: seq<Block>, i: nat, j: nat)
    requires i <= j
    ensures Offset(bs, i) <= Offset(bs, j)
  {
    if i == j {
    } else {
      OffsetGrows(bs, i, j - 1);
    }
  }

  /** The block from `j` on that a row belongs to. */
  lemma {:induction false} BlockFrom(bs: seq<Block>, j: nat, n: nat, x: nat) returns (h: nat)
    requires j <= n && Offset(bs, j) <= x < Offset(bs, n)
    ensures j <= h < n && Offset(bs, h) <= x < Offset(bs, h) + Count(Nth(bs, h))
  {
    if Offset(bs, n - 1) <= x {
      h := n - 1;
    } else {
      h := BlockFrom(bs, j, n - 1, x);
    }
  }

  lemma {:induction false} FineAt(q: seq<Expected>, bs: seq<Block>, n: nat, i: nat)
    requires RowsOf(q, bs, n) && i < n
    ensures BlockFine(bs, i) && RowsAtOffset(q, Offset(bs, i), Nth(bs, i))
  {
    if i == n - 1 {
    } else {
      FineAt(q, bs, n - 1, i);
    }
  }

  lemma RowAt(q: seq<Expected>, bs: seq<Block>, i: nat, x: nat)
    requires Filled(q, bs) && i < |bs| && Offset(bs, i) <= x < Offset(bs, i) + Count(Nth(bs, i))
    ensures x < |q| && q[x] == Row(Nth(bs, i), x - Offset(bs, i), q[x].orderingID)
    ensures BlockFine(bs, i)
  {
    FineAt(q, bs, |bs|, i);
  }

  // ---- the notifications

  predicate GoesOnFrom(x: Note, y: Note) {
    y.seg == x.seg && y.nth == x.nth + 1
  }

  predicate MovesOnFrom(x: Note, y: Note) {
    y.seg == x.seg + 1 && y.nth == 0
  }

  /** The first `n` notifications take `count` blocks in turn. */
  predicate InTurns(count: nat, notes: seq<Note>, n: nat)
    requires n <= |notes|
  {
    n > 0 ==>
      && InTurns(count, notes, n - 1) && notes[n - 1].seg < count
      && if n == 1 then notes[0].seg == 0 && notes[0].nth == 0
         else GoesOnFrom(notes[n - 2], notes[n - 1]) || MovesOnFrom(notes[n - 2], notes[n - 1])
  }

  /** All of them do; those of the last block, which begins with a first notification, are as many as its
      rows. */
  predicate InSequence(bs: seq<Block>, notes: seq<Note>) {
    && notes != [] && |bs| > 0 && InTurns(|bs|, notes, |notes|)
    && !Nth(bs, |bs| - 1).firstResend
    && var last := notes[|notes| - 1]; last.seg + 1 == |bs| && last.nth + 1 == Count(Nth(bs, last.seg))
  }

  lemma {:induction false} TurnAt(count: nat, notes: seq<Note>, n: nat, k: nat)
    requires n <= |notes| && InTurns(count, notes, n) && k < n
    ensures notes[k].seg < count
    ensures if k == 0 then notes[0].seg == 0 && notes[0].nth == 0
            else GoesOnFrom(notes[k - 1], notes[k]) || MovesOnFrom(notes[k - 1], notes[k])
  {
    if k == n - 1 {
    } else {
      TurnAt(count, notes, n - 1, k);
    }
  }

  /** The block after that of the notification before `k`. */
  function NextSeg(notes: seq<Note>, k: nat): nat
    requires k <= |notes|
  {
    if k == 0 then 0 else notes[k - 1].seg + 1
  }

  function LeftOf(b: Block, nth: nat): nat {
    if nth < Count(b) then Count(b) - (nth + 1) else 0
  }

  /** What is left in front when the notification `x` is settled. */
  function ViewAfter(bs: seq<Block>, x: Note): View {
    var b, d := Nth(bs, x.seg), Nth(bs, x.seg + 1);
    View(LeftOf(b, x.nth), b, if d.firstResend then Count(d) else 0, d, RebasedTs(x.now))
  }

  /** What is left in front when the first `k` notifications are settled. */
  function ViewAt(bs: seq<Block>, notes: seq<Note>, k: nat): View
    requires k <= |notes|
  {
    if k == 0 then View(0, NO_BLOCK, 0, Nth(bs, 0), ZERO_TIME) else ViewAfter(bs, notes[k - 1])
  }

  /** What a notification that moves on is meant for. */
  function Target(b: Block, ts: Time): Expected {
    if b.firstResend then Resend(b, ts) else Row(b, 0, 0)
  }

  /** The `k`-th notification settles the expectation it is meant for, and passes over nothing that
      counts as missed. */
  ghost predicate Fits(bs: seq<Block>, notes: seq<Note>, k: nat)
    requires k < |notes|
  {
    var y, v := notes[k], ViewAt(bs, notes, k);
    if y.seg < NextSeg(notes, k) then GoesOn(v, y.now, y.alert)
    else MovesOn(v, Target(Nth(bs, y.seg), v.ts), y.now, y.alert)
  }

  ghost predicate AllFit(bs: seq<Block>, notes: seq<Note>, k: nat)
    requires k <= |notes|
  {
    forall i :: 0 <= i < k ==> Fits(bs, notes, i)
  }

  /** Until `now`, what comes after the first expectation of block `j` is not due yet. */
  ghost predicate NotYet(bs: seq<Block>, j: nat, now: Time) {
    && (j < |bs| && !Nth(bs, j).firstResend ==> now <= Nth(bs, j).from + RESEND_DELAY)
    && (forall h: nat :: j < h < |bs| ==> now <= Nth(bs, h).from)
  }

  /** Until `now` no resend is overdue. */
  ghost predicate Soon(v: View, now: Time) {
    && (v.n > 0 && !Over(v.b, v.ts) ==> now < v.ts + GROUP_INTERVAL + 2 * MAX_RTT)
    && (v.c > 0 ==> !Over(v.d, v.ts) && now < v.ts + GROUP_INTERVAL + 2 * MAX_RTT)
  }

  /** A notification that goes on does not match the next block. */
  ghost predicate KeepsOff(b: Block, ts: Time, y: Note) {
    && Target(b, ts).Matches(y.now, y.alert) != Matched
    && (!b.firstResend ==> y.now <= Row(b, 0, 0).Deadline())
  }

  /** A notification that moves on does not match what is left of the block before. */
  ghost predicate LeavesBehind(v: View, y: Note) {
    v.n > 0 && !Over(v.b, v.ts) ==> Resend(v.b, v.ts).Matches(y.now, y.alert) != Matched && (v.c == 0 ==> v.ts < y.now)
  }

  /** The `k`-th notification comes in its time, and can be told from those of the other blocks. */
  ghost predicate Fair(bs: seq<Block>, notes: seq<Note>, k: nat)
    requires k < |notes|
  {
    var y, v, j := notes[k], ViewAt(bs, notes, k), NextSeg(notes, k);
    && Soon(v, y.now) && NotYet(bs, j, y.now)
    && if y.seg < j then j < |bs| ==> KeepsOff(Nth(bs, j), v.ts, y) else LeavesBehind(v, y)
  }

  /** As long as all notifications before it fit, each is fair. */
  ghost predicate AllFair(bs: seq<Block>, notes: seq<Note>) {
    forall k :: 0 <= k < |notes| && AllFit(bs, notes, k) ==> Fair(bs, notes, k)
  }

  // ---- the queue between two notifications

  /** How many rows are settled when the notification `x` is. */
  function DoneAfter(bs: seq<Block>, x: Note): nat {
    Offset(bs, x.seg) + x.nth + 1
  }

  /** The notification was meant for a row that is there. */
  predicate HadRow(bs: seq<Block>, x: Note) {
    x.seg < |bs| && x.nth < Count(Nth(bs, x.seg))
  }

  lemma DoneIs(bs: seq<Block>, x: Note)
    requires HadRow(bs, x)
    ensures DoneAfter(bs, x) + ViewAfter(bs, x).n == Offset(bs, x.seg + 1) <= Offset(bs, |bs|)
  {
    OffsetGrows(bs, x.seg + 1, |bs|);
  }

  /** The leading resends of what is left: those of the block, and of the next if it goes on without a
      first notification. */
  lemma LeadOfRows(q: seq<Expected>, bs: seq<Block>, i: nat, p: nat)
    requires Filled(q, bs) && i < |bs| && Offset(bs, i) < p <= Offset(bs, i + 1) <= |q|
    ensures var d := Nth(bs, i + 1);
      Lead(q[p..]) == Offset(bs, i + 1) - p + (if d.firstResend then Count(d) else 0)
  {
    var d, end := Nth(bs, i + 1), Offset(bs, i + 1);
    var c := if d.firstResend then Count(d) else 0;
    if i + 1 < |bs| {
      OffsetGrows(bs, i + 2, |bs|);
    }
    forall x | p <= x < end + c ensures x < |q| && q[x].resend {
      ResendAt(q, bs, i, x);
    }
    if end + c < |q| {
      FirstBehind(q, bs, i + 1, c);
    }
    LeadIs(q[p..], end - p + c);
  }

  lemma ResendAt(q: seq<Expected>, bs: seq<Block>, i: nat, x: nat)
    requires Filled(q, bs) && i < |bs| && Offset(bs, i) < x
    requires var d := Nth(bs, i + 1); x < Offset(bs, i + 1) + (if d.firstResend then Count(d) else 0)
    ensures x < |q| && q[x].resend
  {
    RowAt(q, bs, if x < Offset(bs, i + 1) then i else i + 1, x);
  }

  /** A block that goes on without a first notification is followed by one that does not. */
  lemma FirstBehind(q: seq<Expected>, bs: seq<Block>, j: nat, c: nat)
    requires Filled(q, bs) && j <= |bs| && c == (if Nth(bs, j).firstResend then Count(Nth(bs, j)) else 0)
    requires Offset(bs, j) + c < |q|
    ensures !q[Offset(bs, j) + c].resend
  {
    var h := if Nth(bs, j).firstResend then j + 1 else j;
    assert Offset(bs, h) == Offset(bs, j) + c;
    var i := BlockFrom(bs, h, |bs|, Offset(bs, h));
    FineAt(q, bs, |bs|, h);
    RowAt(q, bs, h, Offset(bs, h));
  }

  /** The queue when the notification `x` is settled. */
  function QueueAfter(q: seq<Expected>, bs: seq<Block>, x: Note): seq<Expected> {
    if DoneAfter(bs, x) <= |q| then Left(q, DoneAfter(bs, x), x.now) else []
  }

  lemma LeftIs(q: seq<Expected>, bs: seq<Block>, x: Note)
    requires Filled(q, bs) && HadRow(bs, x)
    ensures DoneAfter(bs, x) <= |q|
    ensures var v, p, left := ViewAfter(bs, x), DoneAfter(bs, x), QueueAfter(q, bs, x);
      && |left| == |q| - p && v.n + v.c <= |left|
      && forall y :: 0 <= y < |left| ==> left[y] == if y < v.n + v.c then q[p + y].(ts := v.ts) else q[p + y]
  {
    DoneIs(bs, x);
    LeadOfRows(q, bs, x.seg, DoneAfter(bs, x));
    RebaseAt(q[DoneAfter(bs, x)..], x.now);
  }

  lemma LeftCounts(q: seq<Expected>, bs: seq<Block>, x: Note)
    requires Filled(q, bs) && HadRow(bs, x)
    ensures var v, p := ViewAfter(bs, x), DoneAfter(bs, x);
      && p + v.n == Offset(bs, x.seg + 1) && p <= |q| && QueueAfter(q, bs, x) == Left(q, p, x.now)
      && |QueueAfter(q, bs, x)| == |q| - p && v.n + v.c <= |q| - p
  {
    LeftIs(q, bs, x);
    DoneIs(bs, x);
  }

  lemma LeftAt(q: seq<Expected>, bs: seq<Block>, x: Note, y: nat, i: nat)
    requires Filled(q, bs) && HadRow(bs, x) && DoneAfter(bs, x) + y == i < |q|
    ensures var v, left := ViewAfter(bs, x), QueueAfter(q, bs, x);
      y < |left| && left[y] == if y < v.n + v.c then q[i].(ts := v.ts) else q[i]
  {
    LeftIs(q, bs, x);
  }

  lemma RowIsLate(b: Block, j: nat, ea: Expected, ts: Time)
    requires (j > 0 || b.firstResend) && (b.firstResend ==> b.firstTolerance == GROUP_INTERVAL)
    requires ea == Row(b, j, ea.orderingID)
    ensures Rescheduled(b, ea.(ts := ts), ts)
  {
  }

  lemma RowsLate(q: seq<Expected>, bs: seq<Block>, h: nat, i: nat, ts: Time)
    requires Filled(q, bs) && h < |bs| && Offset(bs, h) <= i < Offset(bs, h) + Count(Nth(bs, h))
    requires Offset(bs, h) < i || Nth(bs, h).firstResend
    ensures i < |q| && Rescheduled(Nth(bs, h), q[i].(ts := ts), ts)
  {
    RowAt(q, bs, h, i);
    RowIsLate(Nth(bs, h), i - Offset(bs, h), q[i], ts);
  }

  lemma LeftLate(q: seq<Expected>, bs: seq<Block>, x: Note, y: nat)
    requires Filled(q, bs) && HadRow(bs, x) && y < ViewAfter(bs, x).n + ViewAfter(bs, x).c
    ensures DoneAfter(bs, x) <= |q|
    ensures var v, left := ViewAfter(bs, x), QueueAfter(q, bs, x);
      y < |left| && Rescheduled(if y < v.n then v.b else v.d, left[y], v.ts)
  {
    var v, p := ViewAfter(bs, x), DoneAfter(bs, x);
    LeftCounts(q, bs, x);
    LeftAt(q, bs, x, y, p + y);
    RowsLate(q, bs, if y < v.n then x.seg else x.seg + 1, p + y, v.ts);
  }

  /** Behind the rescheduled resends comes a first notification. */
  lemma FirstOfNext(q: seq<Expected>, bs: seq<Block>, j: nat)
    requires Filled(q, bs) && Healthy(q) && Offset(bs, j) < |q| && j < |bs| && !Nth(bs, j).firstResend
    ensures var ea := q[Offset(bs, j)]; ea == Row(Nth(bs, j), 0, ea.orderingID) && !ea.CanBeIgnored()
  {
    FineAt(q, bs, |bs|, j);
    RowAt(q, bs, j, Offset(bs, j));
    assert q[Offset(bs, j)] in q;
  }

  lemma QueueSeen(q: seq<Expected>, bs: seq<Block>, x: Note)
    requires Filled(q, bs) && Healthy(q) && HadRow(bs, x)
    ensures DoneAfter(bs, x) <= |q|
    ensures Seen(QueueAfter(q, bs, x), ViewAfter(bs, x))
  {
    var v := ViewAfter(bs, x);
    LeftCounts(q, bs, x);
    forall y | 0 <= y < v.n + v.c ensures Rescheduled(if y < v.n then v.b else v.d, QueueAfter(q, bs, x)[y], v.ts) {
      LeftLate(q, bs, x, y);
    }
    if v.c == 0 && v.n < |QueueAfter(q, bs, x)| {
      NextIsFirst(q, bs, x);
      FirstOfNext(q, bs, x.seg + 1);
      LeftAt(q, bs, x, v.n, Offset(bs, x.seg + 1));
    }
  }

  lemma NextIsFirst(q: seq<Expected>, bs: seq<Block>, x: Note)
    requires Filled(q, bs) && HadRow(bs, x) && ViewAfter(bs, x).c == 0 && Offset(bs, x.seg + 1) < |q|
    ensures x.seg + 1 < |bs| && !Nth(bs, x.seg + 1).firstResend
  {
    var h := BlockFrom(bs, x.seg + 1, |bs|, Offset(bs, x.seg + 1));
    FineAt(q, bs, |bs|, x.seg + 1);
  }

  lemma RowNotBefore(b: Block, j: nat, ea: Expected)
    requires ea == Row(b, j, ea.orderingID)
    ensures b.from <= ea.ts && (0 < j ==> b.from + RESEND_DELAY <= ea.ts)
  {
  }

  lemma QuietBehind(q: seq<Expected>, bs: seq<Block>, j: nat, x: nat, now: Time)
    requires Filled(q, bs) && Healthy(q) && NotYet(bs, j, now)
    requires j <= |bs| && Offset(bs, j) + (if Nth(bs, j).firstResend then Count(Nth(bs, j)) else 1) <= x < |q|
    ensures Quiet(q[x], now)
  {
    var h := BlockFrom(bs, j, |bs|, x);
    RowAt(q, bs, h, x);
    RowNotBefore(Nth(bs, h), x - Offset(bs, h), q[x]);
    assert q[x] in q;
  }

  lemma QueueCalm(q: seq<Expected>, bs: seq<Block>, x: Note, now: Time)
    requires Filled(q, bs) && Healthy(q) && HadRow(bs, x)
    requires Soon(ViewAfter(bs, x), now) && NotYet(bs, x.seg + 1, now)
    ensures DoneAfter(bs, x) <= |q|
    ensures Calm(QueueAfter(q, bs, x), ViewAfter(bs, x), now)
  {
    LeftCounts(q, bs, x);
    var v, left := ViewAfter(bs, x), QueueAfter(q, bs, x);
    forall y | v.n + (if v.c > 0 then v.c else 1) <= y < |left| ensures Quiet(left[y], now) {
      QuietLeft(q, bs, x, y, now);
    }
  }

  lemma QuietLeft(q: seq<Expected>, bs: seq<Block>, x: Note, y: nat, now: Time)
    requires Filled(q, bs) && Healthy(q) && HadRow(bs, x) && NotYet(bs, x.seg + 1, now)
    requires DoneAfter(bs, x) <= |q|
    requires ViewAfter(bs, x).n + (if ViewAfter(bs, x).c > 0 then ViewAfter(bs, x).c else 1) <= y
    requires y < |QueueAfter(q, bs, x)|
    ensures Quiet(QueueAfter(q, bs, x)[y], now)
  {
    LeftCounts(q, bs, x);
    LeftAt(q, bs, x, y, DoneAfter(bs, x) + y);
    if ViewAfter(bs, x).c == 0 {
      NextIsFirst(q, bs, x);
    }
    QuietBehind(q, bs, x.seg + 1, DoneAfter(bs, x) + y, now);
  }

  // ---- the stages of a run

  function QueueAt(q: seq<Expected>, bs: seq<Block>, notes: seq<Note>, k: nat): seq<Expected>
    requires k <= |notes|
  {
    if k == 0 then q else QueueAfter(q, bs, notes[k - 1])
  }

  function DoneAt(bs: seq<Block>, notes: seq<Note>, k: nat): nat
    requires k <= |notes|
  {
    if k == 0 then 0 else DoneAfter(bs, notes[k - 1])
  }

  predicate HadRows(bs: seq<Block>, notes: seq<Note>, k: nat)
    requires k <= |notes|
  {
    k > 0 ==> HadRow(bs, notes[k - 1])
  }

  /** The first `k` notifications arrived and fit, and nothing is held against the sender. */
  ghost predicate Stage(q: seq<Expected>, bs: seq<Block>, notes: seq<Note>, k: nat, s: Series)
    requires k <= |notes|
  {
    && !Dirty(s) && HadRows(bs, notes, k) && ViewAt(bs, notes, k).n <= |QueueAt(q, bs, notes, k)|
    && Standing(s, QueueAt(q, bs, notes, k), ViewAt(bs, notes, k))
  }

  lemma QueueAtIs(q: seq<Expected>, bs: seq<Block>, notes: seq<Note>, k: nat)
    requires Filled(q, bs) && |bs| > 0 && k <= |notes| && HadRows(bs, notes, k)
    ensures var v, left := ViewAt(bs, notes, k), QueueAt(q, bs, notes, k);
      && DoneAt(bs, notes, k) + v.n == Offset(bs, NextSeg(notes, k)) && DoneAt(bs, notes, k) <= |q|
      && |left| == |q| - DoneAt(bs, notes, k) && v.n + v.c <= |left|
    ensures QueueAt(q, bs, notes, k) ==
      if k == 0 then q else Left(q, DoneAt(bs, notes, k), notes[k - 1].now)
  {
    if k > 0 {
      LeftCounts(q, bs, notes[k - 1]);
    }
  }

  lemma QueueAtSeen(q: seq<Expected>, bs: seq<Block>, notes: seq<Note>, k: nat)
    requires Filled(q, bs) && Healthy(q) && |bs| > 0 && k <= |notes| && HadRows(bs, notes, k)
    ensures Seen(QueueAt(q, bs, notes, k), ViewAt(bs, notes, k))
  {
    if k > 0 {
      QueueSeen(q, bs, notes[k - 1]);
    } else {
      FineAt(q, bs, |bs|, 0);
      FirstOfNext(q, bs, 0);
    }
  }

  lemma QueueAtCalm(q: seq<Expected>, bs: seq<Block>, notes: seq<Note>, k: nat, now: Time)
    requires Filled(q, bs) && Healthy(q) && |bs| > 0 && k <= |notes| && HadRows(bs, notes, k)
    requires Soon(ViewAt(bs, notes, k), now) && NotYet(bs, NextSeg(notes, k), now)
    ensures Calm(QueueAt(q, bs, notes, k), ViewAt(bs, notes, k), now)
  {
    if k > 0 {
      QueueCalm(q, bs, notes[k - 1], now);
    } else {
      FineAt(q, bs, |bs|, 0);
      forall x | 1 <= x < |q| ensures Quiet(q[x], now) {
        QuietBehind(q, bs, 0, x, now);
      }
    }
  }

  lemma TailOrdered(q: seq<Expected>, p: nat)
    requires Ordered(q) && Scheduled(q) && p <= |q|
    ensures Ordered(q[p..]) && Scheduled(q[p..])
  {
    assert forall ea :: ea in q[p..] ==> ea in q;
  }

  lemma QueueAtOrdered(q: seq<Expected>, bs: seq<Block>, notes: seq<Note>, k: nat)
    requires Table(q, bs) && |bs| > 0 && k <= |notes| && HadRows(bs, notes, k)
    ensures var v, left := ViewAt(bs, notes, k), QueueAt(q, bs, notes, k);
      v.n <= |left| && Ordered(Rest(left, v)) && Scheduled(Rest(left, v))
  {
    var v, left, p := ViewAt(bs, notes, k), QueueAt(q, bs, notes, k), DoneAt(bs, notes, k);
    QueueAtIs(q, bs, notes, k);
    if k > 0 {
      TailOrdered(q, p);
      assert forall ea :: ea in q[p..] ==> ea in q;
      RebaseScheduled(q[p..], notes[k - 1].now);
    }
    TailOrdered(left, v.n);
  }

  /** What the front of the next block is. */
  lemma NextTarget(q: seq<Expected>, bs: seq<Block>, notes: seq<Note>, k: nat)
    requires Filled(q, bs) && Healthy(q) && k <= |notes| && HadRows(bs, notes, k) && NextSeg(notes, k) < |bs|
    ensures var v := ViewAt(bs, notes, k);
      TargetOf(QueueAt(q, bs, notes, k), v, Target(Nth(bs, NextSeg(notes, k)), v.ts))
  {
    var v, left, j := ViewAt(bs, notes, k), QueueAt(q, bs, notes, k), NextSeg(notes, k);
    QueueAtIs(q, bs, notes, k);
    FineAt(q, bs, |bs|, j);
    OffsetGrows(bs, j + 1, |bs|);
    if v.c > 0 {
      LeftLate(q, bs, notes[k - 1], v.n);
    } else {
      TargetIsFirst(q, bs, notes, k);
    }
  }

  lemma TargetIsFirst(q: seq<Expected>, bs: seq<Block>, notes: seq<Note>, k: nat)
    requires Filled(q, bs) && Healthy(q) && k <= |notes| && HadRows(bs, notes, k) && NextSeg(notes, k) < |bs|
    requires ViewAt(bs, notes, k).c == 0 && Offset(bs, NextSeg(notes, k)) < |q|
    requires !Nth(bs, NextSeg(notes, k)).firstResend
    requires ViewAt(bs, notes, k).n < |QueueAt(q, bs, notes, k)|
    ensures var ea := QueueAt(q, bs, notes, k)[ViewAt(bs, notes, k).n];
      ea == Row(Nth(bs, NextSeg(notes, k)), 0, ea.orderingID)
  {
    FirstOfNext(q, bs, NextSeg(notes, k));
    if k > 0 {
      LeftCounts(q, bs, notes[k - 1]);
      LeftAt(q, bs, notes[k - 1], ViewAt(bs, notes, k).n, Offset(bs, NextSeg(notes, k)));
    }
  }

  lemma SoonBefore(v: View, bs: seq<Block>, j: nat, now: Time, earlier: Time)
    requires Soon(v, now) && NotYet(bs, j, now) && earlier <= now
    ensures Soon(v, earlier) && NotYet(bs, j, earlier)
  {
  }

  lemma OverdueIsLate(b: Block, v: View, y: Note, now: Time)
    requires Target(b, v.ts).Deadline() < now <= y.now && !b.firstResend
    ensures !KeepsOff(b, v.ts, y) && !MovesOn(v, Target(b, v.ts), y.now, y.alert)
  {
    MatchesExactly(Target(b, v.ts), y.now, y.alert);
  }

  lemma OverdueInTable(q: seq<Expected>, bs: seq<Block>, notes: seq<Note>, k: nat)
    requires Table(q, bs) && k <= |notes| && HadRows(bs, notes, k)
    requires ViewAt(bs, notes, k).c == 0 && ViewAt(bs, notes, k).n < |QueueAt(q, bs, notes, k)|
    ensures NextSeg(notes, k) < |bs| && !Nth(bs, NextSeg(notes, k)).firstResend
  {
    if k > 0 {
      LeftCounts(q, bs, notes[k - 1]);
      NextIsFirst(q, bs, notes[k - 1]);
    } else {
      FineAt(q, bs, |bs|, 0);
    }
  }

  lemma OverdueIsTarget(q: seq<Expected>, bs: seq<Block>, notes: seq<Note>, k: nat, now: Time)
    requires Table(q, bs) && k <= |notes| && HadRows(bs, notes, k) && NextSeg(notes, k) < |bs|
    requires FirstOverdue(QueueAt(q, bs, notes, k), ViewAt(bs, notes, k), now)
    ensures Target(Nth(bs, NextSeg(notes, k)), ViewAt(bs, notes, k).ts).Deadline() < now
  {
    NextTarget(q, bs, notes, k);
  }

  lemma NextTurn(bs: seq<Block>, notes: seq<Note>, k: nat)
    requires k < |notes| && InTurns(|bs|, notes, |notes|) && Fair(bs, notes, k) && Fits(bs, notes, k)
    requires NextSeg(notes, k) < |bs|
    ensures var b, v, y := Nth(bs, NextSeg(notes, k)), ViewAt(bs, notes, k), notes[k];
      KeepsOff(b, v.ts, y) || MovesOn(v, Target(b, v.ts), y.now, y.alert)
  {
    TurnAt(|bs|, notes, |notes|, k);
  }

  /** An overdue first notification is not what the next notification settles. */
  lemma OverdueMisfits(q: seq<Expected>, bs: seq<Block>, notes: seq<Note>, k: nat, now: Time)
    requires Table(q, bs) && k < |notes| && HadRows(bs, notes, k) && Fair(bs, notes, k) && now <= notes[k].now
    requires InTurns(|bs|, notes, |notes|)
    requires FirstOverdue(QueueAt(q, bs, notes, k), ViewAt(bs, notes, k), now)
    ensures !Fits(bs, notes, k)
  {
    OverdueInTable(q, bs, notes, k);
    OverdueIsTarget(q, bs, notes, k, now);
    OverdueIsLate(Nth(bs, NextSeg(notes, k)), ViewAt(bs, notes, k), notes[k], now);
    if Fits(bs, notes, k) {
      NextTurn(bs, notes, k);
    }
  }

  /** A sweep before the next notification. */
  lemma StageSwept(q: seq<Expected>, bs: seq<Block>, notes: seq<Note>, k: nat, s: Series, now: Time)
    requires Table(q, bs) && k < |notes| && InTurns(|bs|, notes, |notes|) && Fair(bs, notes, k)
    requires Stage(q, bs, notes, k, s) && now <= notes[k].now
    ensures var r := Sweep(s, now);
      || (Dirty(r) && !Fits(bs, notes, k) && NextSeg(notes, k) < |bs|)
      || (Stage(q, bs, notes, k, r) && r.queue == Rest(QueueAt(q, bs, notes, k), ViewAt(bs, notes, k))
          && Swept(r.queue, now))
  {
    var v, left := ViewAt(bs, notes, k), QueueAt(q, bs, notes, k);
    TurnAt(|bs|, notes, |notes|, k);
    SoonBefore(v, bs, NextSeg(notes, k), notes[k].now, now);
    QueueAtSeen(q, bs, notes, k);
    QueueAtCalm(q, bs, notes, k, now);
    SweepStanding(s, left, v, now);
    if FirstOverdue(left, v, now) {
      OverdueInTable(q, bs, notes, k);
      OverdueMisfits(q, bs, notes, k, now);
    }
  }

  /** The next notification, when it goes on with the block. */
  lemma GoesOnStage(q: seq<Expected>, bs: seq<Block>, notes: seq<Note>, k: nat, s: Series)
    requires Table(q, bs) && 0 < k < |notes| && Fair(bs, notes, k) && HadRows(bs, notes, k) && !Dirty(s)
    requires GoesOnFrom(notes[k - 1], notes[k]) && notes[k].seg < |bs|
    requires ViewAt(bs, notes, k).n <= |QueueAt(q, bs, notes, k)|
    requires s.queue == Rest(QueueAt(q, bs, notes, k), ViewAt(bs, notes, k)) && Swept(s.queue, notes[k].now)
    ensures var r := Receive(s, notes[k].now, notes[k].alert);
      if Fits(bs, notes, k) then Stage(q, bs, notes, k + 1, r) else Dirty(r)
  {
    var v, left, y := ViewAt(bs, notes, k), QueueAt(q, bs, notes, k), notes[k];
    QueueAtSeen(q, bs, notes, k);
    QueueAtCalm(q, bs, notes, k, y.now);
    QueueAtOrdered(q, bs, notes, k);
    NextFails(q, bs, notes, k);
    GoesOnReceived(s, left, v, y.now, y.alert);
    if Fits(bs, notes, k) {
      HitMeans(s, Receive(s, y.now, y.alert), Rebase(left[1..], y.now), []);
      LeftNext(q, bs, notes, k, 1);
      ViewNext(q, bs, notes, k);
    }
  }

  /** What comes after the block does not match a notification that goes on with it. */
  lemma NextFails(q: seq<Expected>, bs: seq<Block>, notes: seq<Note>, k: nat)
    requires Filled(q, bs) && Healthy(q) && 0 < k < |notes| && Fair(bs, notes, k) && HadRows(bs, notes, k)
    requires GoesOnFrom(notes[k - 1], notes[k])
    ensures var v, left, y := ViewAt(bs, notes, k), QueueAt(q, bs, notes, k), notes[k];
      && (v.c > 0 ==> Resend(v.d, v.ts).Matches(y.now, y.alert) != Matched)
      && (v.c == 0 && v.n < |left| ==> left[v.n].Matches(y.now, y.alert) != Matched)
  {
    var v, left, y, j := ViewAt(bs, notes, k), QueueAt(q, bs, notes, k), notes[k], NextSeg(notes, k);
    QueueAtIs(q, bs, notes, k);
    if v.c == 0 && v.n < |left| {
      NextIsFirst(q, bs, notes[k - 1]);
    }
    if j < |bs| {
      NextTarget(q, bs, notes, k);
      MatchesById(left[v.n], Target(Nth(bs, j), v.ts), y.now, y.alert);
    }
  }

  /** The queue after a notification that takes `n` rows. */
  lemma LeftNext(q: seq<Expected>, bs: seq<Block>, notes: seq<Note>, k: nat, n: nat)
    requires Filled(q, bs) && |bs| > 0 && k < |notes| && HadRows(bs, notes, k) && HadRow(bs, notes[k])
    requires n <= |QueueAt(q, bs, notes, k)| && DoneAfter(bs, notes[k]) == DoneAt(bs, notes, k) + n
    ensures Rebase(QueueAt(q, bs, notes, k)[n..], notes[k].now) == QueueAt(q, bs, notes, k + 1)
  {
    RebasedNext(q, bs, notes, k, n, DoneAfter(bs, notes[k]));
    ViewNext(q, bs, notes, k);
  }

  lemma RebasedNext(q: seq<Expected>, bs: seq<Block>, notes: seq<Note>, k: nat, n: nat, done: nat)
    requires Filled(q, bs) && |bs| > 0 && k < |notes| && HadRows(bs, notes, k)
    requires n <= |QueueAt(q, bs, notes, k)| && done == DoneAt(bs, notes, k) + n
    ensures done <= |q| && Rebase(QueueAt(q, bs, notes, k)[n..], notes[k].now) == Left(q, done, notes[k].now)
  {
    QueueAtIs(q, bs, notes, k);
    RebaseLeft(q, QueueAt(q, bs, notes, k), k == 0, DoneAt(bs, notes, k), if k == 0 then 0 else notes[k - 1].now, n,
               notes[k].now);
  }

  lemma ViewNext(q: seq<Expected>, bs: seq<Block>, notes: seq<Note>, k: nat)
    requires Filled(q, bs) && |bs| > 0 && k < |notes| && HadRow(bs, notes[k])
    ensures DoneAfter(bs, notes[k]) <= |q|
    ensures QueueAt(q, bs, notes, k + 1) == Left(q, DoneAfter(bs, notes[k]), notes[k].now)
    ensures ViewAt(bs, notes, k + 1).n <= |QueueAt(q, bs, notes, k + 1)|
  {
    QueueAtIs(q, bs, notes, k + 1);
  }

  lemma RebaseLeft(q: seq<Expected>, left: seq<Expected>, whole: bool, p: nat, m: Time, n: nat, now: Time)
    requires p + n <= |q| && |left| == |q| - p && (whole ==> p == 0)
    requires left == if whole then q else Left(q, p, m)
    ensures Rebase(left[n..], now) == Left(q, p + n, now)
  {
    if !whole {
      LeftRest(q, p, m, n, now);
    }
  }

  /** The next notification, when it moves on to the next block. */
  lemma MovesOnStage(q: seq<Expected>, bs: seq<Block>, notes: seq<Note>, k: nat, s: Series)
    requires Table(q, bs) && k < |notes| && Fair(bs, notes, k) && HadRows(bs, notes, k) && !Dirty(s)
    requires notes[k].seg == NextSeg(notes, k) < |bs| && notes[k].nth == 0
    requires ViewAt(bs, notes, k).n <= |QueueAt(q, bs, notes, k)|
    requires s.queue == Rest(QueueAt(q, bs, notes, k), ViewAt(bs, notes, k)) && Swept(s.queue, notes[k].now)
    ensures var r := Receive(s, notes[k].now, notes[k].alert);
      if Fits(bs, notes, k) then Stage(q, bs, notes, k + 1, r) else Dirty(r)
  {
    var v, left, y := ViewAt(bs, notes, k), QueueAt(q, bs, notes, k), notes[k];
    QueueAtSeen(q, bs, notes, k);
    QueueAtCalm(q, bs, notes, k, y.now);
    QueueAtOrdered(q, bs, notes, k);
    NextTarget(q, bs, notes, k);
    MovesOnReceived(s, left, v, Target(Nth(bs, y.seg), v.ts), y.now, y.alert);
    if Fits(bs, notes, k) {
      QueueAtIs(q, bs, notes, k);
      FineAt(q, bs, |bs|, y.seg);
      LeftNext(q, bs, notes, k, v.n + 1);
      ViewNext(q, bs, notes, k);
    }
  }

  lemma StageReceived(q: seq<Expected>, bs: seq<Block>, notes: seq<Note>, k: nat, s: Series)
    requires Table(q, bs) && k < |notes| && InTurns(|bs|, notes, |notes|) && Fair(bs, notes, k)
    requires Stage(q, bs, notes, k, s) && Swept(s.queue, notes[k].now)
    requires s.queue == Rest(QueueAt(q, bs, notes, k), ViewAt(bs, notes, k))
    ensures var r := Receive(s, notes[k].now, notes[k].alert);
      if Fits(bs, notes, k) then Stage(q, bs, notes, k + 1, r) else Dirty(r)
  {
    TurnAt(|bs|, notes, |notes|, k);
    if notes[k].seg < NextSeg(notes, k) {
      GoesOnStage(q, bs, notes, k, s);
    } else {
      MovesOnStage(q, bs, notes, k, s);
    }
  }

  // ---- whole runs

  /** How many notifications of the label set arrived. */
  function Deliveries(id: LabelSet, events: seq<Event>): nat {
    if events == [] then 0 else
    Deliveries(id, events[..|events| - 1]) + if Delivers(id, events[|events| - 1]) then 1 else 0
  }

  /** What may happen when `k` notifications arrived: the next one, or something else before it. */
  ghost predicate Punctual(notes: seq<Note>, id: LabelSet, k: nat, e: Event) {
    if Delivers(id, e) then k < |notes| && e.now == notes[k].now && AlertsOf(e.batch, id) == [notes[k].alert]
    else k < |notes| ==> e.now <= notes[k].now
  }

  /** The notifications arrive in their turn and at their time; cleanups and the requests of other
      series fall anywhere in between, but not after the next notification is due. */
  ghost predicate OnSchedule(notes: seq<Note>, id: LabelSet, events: seq<Event>) {
    events != [] ==>
      var before, e := events[..|events| - 1], events[|events| - 1];
      OnSchedule(notes, id, before) && Punctual(notes, id, Deliveries(id, before), e)
  }

  /** Where the run stands after `k` notifications. A first notification that is late may have been
      missed before it arrives; in the last block there is none to come. */
  ghost predicate Reached(q: seq<Expected>, bs: seq<Block>, notes: seq<Note>, k: nat, s: Series)
    requires k <= |notes|
  {
    if AllFit(bs, notes, k) then
      Stage(q, bs, notes, k, s) || (NextSeg(notes, k) < |bs| && k < |notes| && !Fits(bs, notes, k) && Dirty(s))
    else Dirty(s)
  }

  lemma AllFitNext(bs: seq<Block>, notes: seq<Note>, k: nat)
    requires k < |notes|
    ensures AllFit(bs, notes, k + 1) <==> AllFit(bs, notes, k) && Fits(bs, notes, k)
  {
  }

  /** One notification in its turn. */
  lemma JustReceived(q: seq<Expected>, bs: seq<Block>, notes: seq<Note>, k: nat, s: Series)
    requires Table(q, bs) && InTurns(|bs|, notes, |notes|) && AllFair(bs, notes) && k < |notes|
    requires Reached(q, bs, notes, k, s)
    ensures var r := Receive(Sweep(s, notes[k].now), notes[k].now, notes[k].alert);
      if AllFit(bs, notes, k + 1) then Stage(q, bs, notes, k + 1, r) else Dirty(r)
  {
    var y := notes[k];
    var swept := Sweep(s, y.now);
    AllFitNext(bs, notes, k);
    if Dirty(s) {
      StillDirty(s, y.now, y.alert);
      StillDirty(swept, y.now, y.alert);
    } else {
      StageSwept(q, bs, notes, k, s, y.now);
      if Dirty(swept) {
        StillDirty(swept, y.now, y.alert);
      } else {
        StageReceived(q, bs, notes, k, swept);
      }
    }
  }

  /** At the end no row is left. */
  lemma NothingLeft(q: seq<Expected>, bs: seq<Block>, notes: seq<Note>, s: Series)
    requires Table(q, bs) && InSequence(bs, notes) && Stage(q, bs, notes, |notes|, s)
    ensures s.queue == []
  {
    LeftCounts(q, bs, notes[|notes| - 1]);
  }

  /** A sweep between notifications, or after the last. */
  lemma SweptReached(q: seq<Expected>, bs: seq<Block>, notes: seq<Note>, k: nat, s: Series, now: Time)
    requires Table(q, bs) && InSequence(bs, notes) && AllFair(bs, notes) && k <= |notes|
    requires Reached(q, bs, notes, k, s) && (k < |notes| ==> now <= notes[k].now)
    ensures Reached(q, bs, notes, k, Sweep(s, now))
  {
    if Dirty(s) {
      StillDirty(s, now, notes[0].alert);
    } else if k < |notes| {
      StageSwept(q, bs, notes, k, s, now);
    } else {
      NothingLeft(q, bs, notes, s);
    }
  }

  lemma EventReached(q: seq<Expected>, bs: seq<Block>, notes: seq<Note>, k: nat, s: Series,
                     id: LabelSet, e: Event)
    requires Table(q, bs) && InSequence(bs, notes) && AllFair(bs, notes) && k <= |notes|
    requires Reached(q, bs, notes, k, s) && Punctual(notes, id, k, e)
    ensures Delivers(id, e) ==> k < |notes|
    ensures Reached(q, bs, notes, if Delivers(id, e) then k + 1 else k, Step(s, id, e))
  {
    if Delivers(id, e) {
      OneDelivered(s, id, e, notes[k].alert);
      JustReceived(q, bs, notes, k, s);
    } else {
      SweptReached(q, bs, notes, k, s, e.now);
    }
  }

  lemma RunNext(q: seq<Expected>, id: LabelSet, events: seq<Event>)
    requires events != []
    ensures var before, e := events[..|events| - 1], events[|events| - 1];
      && Run(Fresh(q), id, events) == Step(Run(Fresh(q), id, before), id, e)
      && Deliveries(id, events) == if Delivers(id, e) then Deliveries(id, before) + 1 else Deliveries(id, before)
  {
  }

  lemma ReachedNext(q: seq<Expected>, bs: seq<Block>, notes: seq<Note>, id: LabelSet, before: seq<Event>,
                    events: seq<Event>, e: Event)
    requires Table(q, bs) && InSequence(bs, notes) && AllFair(bs, notes)
    requires events != [] && before == events[..|events| - 1] && e == events[|events| - 1]
    requires Deliveries(id, before) <= |notes| && Punctual(notes, id, Deliveries(id, before), e)
    requires Reached(q, bs, notes, Deliveries(id, before), Run(Fresh(q), id, before))
    ensures Deliveries(id, events) <= |notes|
    ensures Reached(q, bs, notes, Deliveries(id, events), Run(Fresh(q), id, events))
  {
    EventReached(q, bs, notes, Deliveries(id, before), Run(Fresh(q), id, before), id, e);
    RunNext(q, id, events);
  }

  lemma {:induction false} RunReached(q: seq<Expected>, bs: seq<Block>, notes: seq<Note>, id: LabelSet,
                                      events: seq<Event>)
    requires Table(q, bs) && InSequence(bs, notes) && AllFair(bs, notes) && OnSchedule(notes, id, events)
    ensures Deliveries(id, events) <= |notes|
    ensures Reached(q, bs, notes, Deliveries(id, events), Run(Fresh(q), id, events))
  {
    if events == [] {
    } else {
      var before := events[..|events| - 1];
      RunReached(q, bs, notes, id, before);
      ReachedNext(q, bs, notes, id, before, events, events[|events| - 1]);
    }
  }

  /** When a notification has just arrived, something is held against the sender if and only if one
      of them so far did not fit. */
  lemma DirtyExactly(q: seq<Expected>, bs: seq<Block>, notes: seq<Note>, id: LabelSet,
                     events: seq<Event>)
    requires Table(q, bs) && InSequence(bs, notes) && AllFair(bs, notes) && OnSchedule(notes, id, events)
    requires events != [] && Delivers(id, events[|events| - 1])
    ensures Deliveries(id, events) <= |notes|
    ensures Dirty(Run(Fresh(q), id, events)) <==> !AllFit(bs, notes, Deliveries(id, events))
  {
    var before, e := events[..|events| - 1], events[|events| - 1];
    var k, s := Deliveries(id, before), Run(Fresh(q), id, before);
    RunReached(q, bs, notes, id, before);
    RunNext(q, id, events);
    OneDelivered(s, id, e, notes[k].alert);
    JustReceived(q, bs, notes, k, s);
  }

  /** Once the last block has begun, all that is queued are resends. */
  lemma OnlyResends(q: seq<Expected>, bs: seq<Block>, notes: seq<Note>, k: nat, s: Series)
    requires Table(q, bs) && |bs| > 0 && k <= |notes| && NextSeg(notes, k) == |bs| && Stage(q, bs, notes, k, s)
    ensures forall ea :: ea in s.queue ==> ea.resend
  {
    QueueAtIs(q, bs, notes, k);
    QueueAtSeen(q, bs, notes, k);
  }

  lemma LastInTable(q: seq<Expected>, bs: seq<Block>, j: nat)
    requires Filled(q, bs) && j < |bs| && !Nth(bs, |bs| - 1).firstResend
    ensures Offset(bs, j) <= Offset(bs, |bs| - 1) < |q| && !q[Offset(bs, |bs| - 1)].resend
  {
    OffsetGrows(bs, j, |bs| - 1);
    FineAt(q, bs, |bs|, |bs| - 1);
  }

  lemma KindKept(q: seq<Expected>, bs: seq<Block>, notes: seq<Note>, k: nat, y: nat, x: nat)
    requires Filled(q, bs) && |bs| > 0 && k <= |notes| && HadRows(bs, notes, k)
    requires x < |q| && DoneAt(bs, notes, k) + y == x
    ensures y < |QueueAt(q, bs, notes, k)| && QueueAt(q, bs, notes, k)[y].resend == q[x].resend
  {
    if k > 0 {
      LeftAt(q, bs, notes[k - 1], y, x);
    }
  }

  /** Before that the first notification of the last block is still there. */
  lemma LastIsLeft(q: seq<Expected>, bs: seq<Block>, notes: seq<Note>, k: nat) returns (y: nat)
    requires Table(q, bs) && k <= |notes| && HadRows(bs, notes, k) && NextSeg(notes, k) < |bs|
    requires !Nth(bs, |bs| - 1).firstResend
    ensures ViewAt(bs, notes, k).n <= y < |QueueAt(q, bs, notes, k)| && !QueueAt(q, bs, notes, k)[y].resend
  {
    LastInTable(q, bs, NextSeg(notes, k));
    QueueAtIs(q, bs, notes, k);
    y := Offset(bs, |bs| - 1) - DoneAt(bs, notes, k);
    KindKept(q, bs, notes, k, y, Offset(bs, |bs| - 1));
  }

  lemma LastIsQueued(q: seq<Expected>, bs: seq<Block>, notes: seq<Note>, k: nat, s: Series)
    requires Table(q, bs) && k <= |notes| && NextSeg(notes, k) < |bs| && Stage(q, bs, notes, k, s)
    requires !Nth(bs, |bs| - 1).firstResend
    ensures exists ea :: ea in s.queue && !ea.resend
  {
    var y := LastIsLeft(q, bs, notes, k);
    InRest(QueueAt(q, bs, notes, k), ViewAt(bs, notes, k), y);
    assert QueueAt(q, bs, notes, k)[y] in s.queue;
  }

  lemma InRest(q: seq<Expected>, v: View, y: nat)
    requires v.n <= y < |q|
    ensures q[y] in Rest(q, v)
  {
    assert q[y] == q[v.n..][y - v.n];
  }

  /** At any moment the records are clean if and only if the last block has begun, and all notifications
      so far fit. */
  lemma CleanWhenFit(q: seq<Expected>, bs: seq<Block>, notes: seq<Note>, id: LabelSet,
                     events: seq<Event>)
    requires Table(q, bs) && InSequence(bs, notes) && AllFair(bs, notes) && OnSchedule(notes, id, events)
    ensures Deliveries(id, events) <= |notes|
    ensures Clean(Run(Fresh(q), id, events))
      <==> NextSeg(notes, Deliveries(id, events)) == |bs| && AllFit(bs, notes, Deliveries(id, events))
  {
    var k, s := Deliveries(id, events), Run(Fresh(q), id, events);
    RunReached(q, bs, notes, id, events);
    if !Dirty(s) {
      if k > 0 {
        TurnAt(|bs|, notes, |notes|, k - 1);
      }
      if NextSeg(notes, k) == |bs| {
        OnlyResends(q, bs, notes, k, s);
      } else {
        LastIsQueued(q, bs, notes, k, s);
      }
    }
  }
}
