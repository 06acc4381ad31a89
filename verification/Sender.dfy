/** A sender that follows the specification (specification.md, sending alerts): exactly when the receiver
    has nothing to blame it for. */
module Sender {
  import opened Labels
  import opened ExpectedAlert
  import opened Reception
  import opened Verdict
  import opened Resends
  import opened CaseTables
  import opened Hits
  import opened Notifications
  import opened NotificationRuns

  /** What is sent for one block: the first notification at `first`, then one every resend delay,
      `sends` in all, for an alert that fired at `fired`. */
  datatype Segment = Segment(first: Time, sends: nat, fired: Time)
  {
    function Sent(j: nat): Time {
      first + j * RESEND_DELAY
    }
  }

  const NO_SEGMENT: Segment := Segment(ZERO_TIME, 0, ZERO_TIME)

  function SegmentAt(plan: seq<Segment>, i: nat): Segment {
    if i < |plan| then plan[i] else NO_SEGMENT
  }

  /** The `j`-th notification. A firing alert is said to end four resend delays after the evaluation that
      sends it, or with `fixedEnd`, after it fired. */
  function Payload(b: Block, sg: Segment, j: nat, fixedEnd: bool): Alert {
    b.alert.(startsAt := sg.fired,
             endsAt := if b.resolved then sg.first else (if fixedEnd then sg.fired else sg.Sent(j)) + ENDS_AT_DELTA,
             generatorURL := ParsableURL)
  }

  /** A late sample and an evaluation: how long after its sample a change is seen. */
  const SIGHT: Duration := GROUP_INTERVAL + 2 * MAX_RTT

  /** The shape of a firing block. */
  predicate FiringBlock(b: Block) {
    && !b.resolved && ZERO_TIME < b.alert.startsAt <= b.from && b.firstTolerance == GROUP_INTERVAL
    && b.nextState == b.until && b.from + RESEND_DELAY + SIGHT + MAX_RTT <= b.until
    && (b.resolvedTime == b.until || b.until + RESEND_DELAY + SIGHT <= b.resolvedTime)
  }

  /** The shape of a resolved block. */
  predicate ResolvedBlock(b: Block) {
    && b.resolved && b.resolvedTime == b.from && b.firstTolerance == 2 * GROUP_INTERVAL && !b.firstResend
    && ZERO_TIME < b.alert.startsAt < b.from && b.from + RESEND_DELAY < b.until <= b.from + RESOLVED_LIMIT
    && (b.until - b.from) % RESEND_DELAY == 0 && (b.nextState == ZERO_TIME || b.until <= b.nextState)
  }

  const RESOLVED_SENDS: nat := 15

  predicate Starts(b: Block, sg: Segment) {
    b.from < sg.first < b.from + SIGHT
  }

  /** A period of firing begins. */
  predicate Begins(b: Block, sg: Segment) {
    FiringBlock(b) && !b.firstResend && b.alert.startsAt == b.from && sg.fired == sg.first && Starts(b, sg)
  }

  /** The alert resolves: its last firing notification is at most a resend delay ago. */
  predicate Resolves(a: Block, x: Segment, b: Block, sg: Segment) {
    && ResolvedBlock(b) && !a.resolved && b.alert == a.alert && b.from == a.until == a.resolvedTime && Starts(b, sg)
    && sg.fired == x.fired && 0 < x.sends && x.Sent(x.sends - 1) < sg.first <= x.Sent(x.sends)
  }

  /** The annotations change while the alert fires on: the next notification has the new ones. */
  predicate Changes(a: Block, x: Segment, b: Block, sg: Segment) {
    && FiringBlock(b) && b.firstResend && !a.resolved && b.from == a.until && b.resolvedTime == a.resolvedTime
    && b.alert.labels == a.alert.labels && b.alert.annotations != a.alert.annotations
    && b.alert.startsAt == a.alert.startsAt && sg.fired == x.fired
    && 0 < x.sends && sg.first == x.Sent(x.sends) && b.from < sg.first && x.Sent(x.sends - 1) < b.from + SIGHT
  }

  /** When the alert becomes active again: as long before it fires as its block is behind the next state
      of the resolved block. */
  function ActiveAgain(a: Block, b: Block, sg: Segment): Time {
    sg.first - (b.from - a.nextState)
  }

  /** A new period: resolved notifications end after 15 minutes, or when the alert is active again. */
  predicate FiresAgain(a: Block, x: Segment, b: Block, sg: Segment) {
    && Begins(b, sg) && a.resolved && b.alert.labels == a.alert.labels && a.nextState != ZERO_TIME
    && (a.nextState + SIGHT + MAX_RTT <= b.from || a.from + RESOLVED_LIMIT <= b.from) && a.until <= b.from
    && 0 < x.sends <= RESOLVED_SENDS && x.Sent(x.sends - 1) < ActiveAgain(a, b, sg)
    && (x.sends == RESOLVED_SENDS || ActiveAgain(a, b, sg) <= x.Sent(x.sends))
  }

  predicate Linked(bs: seq<Block>, plan: seq<Segment>, i: nat) {
    var b, sg := Nth(bs, i), SegmentAt(plan, i);
    if i == 0 then Begins(b, sg) else
    var a, x := Nth(bs, i - 1), SegmentAt(plan, i - 1);
    if b.resolved then Resolves(a, x, b, sg)
    else if b.firstResend then Changes(a, x, b, sg)
    else FiresAgain(a, x, b, sg)
  }

  predicate LinkedTo(bs: seq<Block>, plan: seq<Segment>, n: nat) {
    n > 0 ==> LinkedTo(bs, plan, n - 1) && Linked(bs, plan, n - 1)
  }

  /** What a generator with prompt samples sends for the blocks of one label set. */
  predicate Conforms(bs: seq<Block>, plan: seq<Segment>) {
    && |plan| == |bs| > 0 && LinkedTo(bs, plan, |bs|)
    && var b := Nth(bs, |bs| - 1);
      b.resolved && b.until == b.from + RESOLVED_LIMIT && SegmentAt(plan, |bs| - 1).sends == RESOLVED_SENDS
  }

  lemma {:induction false} LinkedAt(bs: seq<Block>, plan: seq<Segment>, n: nat, i: nat)
    requires LinkedTo(bs, plan, n) && i < n
    ensures Linked(bs, plan, i)
  {
    if i == n - 1 {
    } else {
      LinkedAt(bs, plan, n - 1, i);
    }
  }

  /** Each notification takes no longer than the round trip that is allowed for. */
  predicate NoteOf(bs: seq<Block>, plan: seq<Segment>, fixedEnd: bool, y: Note) {
    var b, sg := Nth(bs, y.seg), SegmentAt(plan, y.seg);
    && y.seg < |bs| && y.nth < sg.sends
    && sg.Sent(y.nth) <= y.now <= sg.Sent(y.nth) + MAX_RTT && y.alert == Payload(b, sg, y.nth, fixedEnd)
  }

  /** `y` is the notification after `x`: the next one for the same block, or the first one for the next. */
  predicate SentAfter(plan: seq<Segment>, x: Note, y: Note) {
    if x.nth + 1 < SegmentAt(plan, x.seg).sends then GoesOnFrom(x, y) else MovesOnFrom(x, y)
  }

  predicate KeepsUpTo(bs: seq<Block>, plan: seq<Segment>, fixedEnd: bool, notes: seq<Note>, n: nat)
    requires n <= |notes|
  {
    n > 0 ==>
      && KeepsUpTo(bs, plan, fixedEnd, notes, n - 1) && NoteOf(bs, plan, fixedEnd, notes[n - 1])
      && if n == 1 then notes[0].seg == 0 && notes[0].nth == 0
         else SentAfter(plan, notes[n - 2], notes[n - 1])
  }

  /** The notifications as they arrive. */
  predicate KeepsTo(bs: seq<Block>, plan: seq<Segment>, fixedEnd: bool, notes: seq<Note>) {
    && notes != [] && KeepsUpTo(bs, plan, fixedEnd, notes, |notes|)
    && var last := notes[|notes| - 1]; last.seg + 1 == |bs| && last.nth + 1 == SegmentAt(plan, last.seg).sends
  }

  lemma {:induction false} NoteAt(bs: seq<Block>, plan: seq<Segment>, fixedEnd: bool, notes: seq<Note>, n: nat, k: nat)
    requires n <= |notes| && KeepsUpTo(bs, plan, fixedEnd, notes, n) && k < n
    ensures NoteOf(bs, plan, fixedEnd, notes[k])
    ensures if k == 0 then notes[0].seg == 0 && notes[0].nth == 0
            else SentAfter(plan, notes[k - 1], notes[k])
  {
    if k == n - 1 {
    } else {
      NoteAt(bs, plan, fixedEnd, notes, n - 1, k);
    }
  }

  /** A notification after `x` for the same block is in time: there is an expectation for it, which is
      not rescheduled to that very instant, is not over, and allows for how late the alert resolved. */
  predicate ResendInTime(b: Block, sg: Segment, fixedEnd: bool, x: Note, y: Note) {
    && y.nth < Count(b) && RebasedTs(x.now) < y.now
    && if b.resolved then sg.first < b.from + GROUP_INTERVAL else RebasedTs(x.now) <= b.nextState && !fixedEnd
  }

  /** The first notification for the next block is in time: no expectation is left of the block before
      that was rescheduled to just when its next state begins; and with new annotations it is a resend. */
  predicate ChangeInTime(a: Block, b: Block, fixedEnd: bool, x: Note, y: Note) {
    && (LeftOf(a, x.nth) == 0 || RebasedTs(x.now) != a.nextState)
    && (b.firstResend ==> RebasedTs(x.now) < y.now && !fixedEnd)
  }

  /** Exactly when the `k`-th notification is in time for the receiver. */
  predicate InTime(bs: seq<Block>, plan: seq<Segment>, fixedEnd: bool, notes: seq<Note>, k: nat)
    requires k < |notes|
  {
    var y := notes[k];
    var b, sg := Nth(bs, y.seg), SegmentAt(plan, y.seg);
    if k > 0 && y.seg == notes[k - 1].seg then ResendInTime(b, sg, fixedEnd, notes[k - 1], y)
    else if b.resolved || b.firstResend then
      k > 0 && ChangeInTime(Nth(bs, notes[k - 1].seg), b, fixedEnd, notes[k - 1], y)
    else sg.first < b.from + GROUP_INTERVAL
  }

  predicate AllInTime(bs: seq<Block>, plan: seq<Segment>, fixedEnd: bool, notes: seq<Note>, k: nat)
    requires k <= |notes|
  {
    forall i :: 0 <= i < k ==> InTime(bs, plan, fixedEnd, notes, i)
  }

  // ---- the blocks

  predicate Shaped(b: Block) {
    FiringBlock(b) || ResolvedBlock(b)
  }

  lemma ShapeOf(bs: seq<Block>, plan: seq<Segment>, i: nat)
    requires LinkedTo(bs, plan, |bs|) && i < |bs|
    ensures Linked(bs, plan, i) && Shaped(Nth(bs, i)) && Nth(bs, i).from + RESEND_DELAY < Nth(bs, i).until
  {
    LinkedAt(bs, plan, |bs|, i);
  }

  lemma {:induction false} FromsGrow(bs: seq<Block>, plan: seq<Segment>, i: nat, h: nat)
    requires LinkedTo(bs, plan, |bs|) && i < h < |bs|
    ensures Nth(bs, i).until <= Nth(bs, h).from
  {
    ShapeOf(bs, plan, h);
    ShapeOf(bs, plan, h - 1);
    if i == h - 1 {
    } else {
      FromsGrow(bs, plan, i, h - 1);
    }
  }

  /** Each alert fires after its block begins, and within sight of it. */
  lemma {:induction false} FiredWhen(bs: seq<Block>, plan: seq<Segment>, i: nat)
    requires LinkedTo(bs, plan, |bs|) && i < |bs|
    ensures var b, sg := Nth(bs, i), SegmentAt(plan, i);
      b.alert.startsAt < sg.fired < b.alert.startsAt + SIGHT && sg.fired <= sg.first
  {
    ShapeOf(bs, plan, i);
    if i == 0 {
    } else {
      ShapeOf(bs, plan, i - 1);
      FiredWhen(bs, plan, i - 1);
    }
  }

  lemma CountOfLimit(b: Block)
    requires b.until == b.from + RESOLVED_LIMIT
    ensures Count(b) == RESOLVED_SENDS
  {
    CountIs(b, RESOLVED_SENDS);
    CountIs(b, RESOLVED_SENDS - 1);
  }

  lemma CountOfWhole(b: Block)
    requires ResolvedBlock(b)
    ensures b.until == b.from + Count(b) * RESEND_DELAY && 0 < Count(b)
  {
    var d, n := b.until - b.from, (b.until - b.from) / RESEND_DELAY;
    assert d == n * RESEND_DELAY;
    CountIs(b, 0);
    CountIs(b, n);
    CountIs(b, n - 1);
  }

  // ---- what each kind of notification matches

  /** The first notification of a period. */
  lemma BeginsFits(b: Block, sg: Segment, fixedEnd: bool, now: Time)
    requires Begins(b, sg) && sg.first <= now <= sg.first + MAX_RTT
    ensures Row(b, 0, 0).Matches(now, Payload(b, sg, 0, fixedEnd)) == Matched <==> sg.first < b.from + GROUP_INTERVAL
  {
    MatchesExactly(Row(b, 0, 0), now, Payload(b, sg, 0, fixedEnd));
  }

  /** The first notification that an alert is resolved. */
  lemma ResolvesFits(b: Block, sg: Segment, fixedEnd: bool, now: Time)
    requires ResolvedBlock(b) && Starts(b, sg) && sg.first <= now <= sg.first + MAX_RTT
    requires b.alert.startsAt < sg.fired < b.alert.startsAt + SIGHT
    ensures Row(b, 0, 0).Matches(now, Payload(b, sg, 0, fixedEnd)) == Matched
  {
    MatchesExactly(Row(b, 0, 0), now, Payload(b, sg, 0, fixedEnd));
  }

  /** A firing resend, of an alert that started in time. */
  lemma FiringFits(b: Block, sg: Segment, j: nat, fixedEnd: bool, ts: Time, now: Time)
    requires FiringBlock(b) && sg.Sent(j) <= now <= sg.Sent(j) + MAX_RTT && sg.fired + RESEND_DELAY <= now
    requires b.alert.startsAt < sg.fired < b.alert.startsAt + GROUP_INTERVAL
    ensures Resend(b, ts).Matches(now, Payload(b, sg, j, fixedEnd)) == Matched
      <==> ts < now < ts + GROUP_INTERVAL + 2 * MAX_RTT && !fixedEnd
  {
    MatchesExactly(Resend(b, ts), now, Payload(b, sg, j, fixedEnd));
  }

  /** A resolved resend, of an alert that started in time. */
  lemma ResolvingFits(b: Block, sg: Segment, j: nat, fixedEnd: bool, ts: Time, now: Time)
    requires ResolvedBlock(b) && Starts(b, sg)
    requires b.alert.startsAt < sg.fired < b.alert.startsAt + GROUP_INTERVAL
    ensures Resend(b, ts).Matches(now, Payload(b, sg, j, fixedEnd)) == Matched
      <==> ts < now < ts + GROUP_INTERVAL + 2 * MAX_RTT && sg.first < b.from + GROUP_INTERVAL
  {
    MatchesExactly(Resend(b, ts), now, Payload(b, sg, j, fixedEnd));
  }

  /** A resolved notification is no firing one. */
  lemma ResolvedNotFiring(a: Block, b: Block, sg: Segment, fixedEnd: bool, ts: Time, now: Time)
    requires FiringBlock(a) && b.resolved && sg.first <= now && ZERO_TIME < sg.first
    ensures Resend(a, ts).Matches(now, Payload(b, sg, 0, fixedEnd)) != Matched
  {
    MatchesExactly(Resend(a, ts), now, Payload(b, sg, 0, fixedEnd));
  }

  lemma AnnotationsTell(ea: Expected, now: Time, a: Alert)
    requires ea.alert.annotations != a.annotations
    ensures ea.Matches(now, a) != Matched
  {
    MatchesExactly(ea, now, a);
  }

  /** A firing notification is no resolved one: it would end too late, or with a fixed end, the first
      resend comes before anything resolved is due. */
  lemma FiringNotResolved(b: Block, sg: Segment, j: nat, fixedEnd: bool, d: Block, now: Time)
    requires FiringBlock(b) && ResolvedBlock(d) && sg.Sent(j) <= now <= sg.Sent(j) + MAX_RTT && ZERO_TIME < sg.first
    requires fixedEnd ==> now <= d.from
    ensures Row(d, 0, 0).Matches(now, Payload(b, sg, j, fixedEnd)) != Matched
  {
    MatchesExactly(Row(d, 0, 0), now, Payload(b, sg, j, fixedEnd));
  }

  lemma FiringOver(b: Block, ts: Time)
    requires FiringBlock(b)
    ensures Over(b, ts) <==> b.nextState < ts
  {
  }

  /** What is left of a firing block just when the next state has begun. */
  lemma FiringForgiven(b: Block, ts: Time)
    requires FiringBlock(b) && b.nextState < ts + GROUP_INTERVAL + 2 * MAX_RTT
    ensures Resend(b, ts).CanBeIgnored() <==> ts != b.nextState
  {
  }

  // ---- the times of the notifications

  /** Notifications for a block end within sight of the next, or before it. */
  lemma SentBefore(bs: seq<Block>, plan: seq<Segment>, i: nat, j: nat)
    requires LinkedTo(bs, plan, |bs|) && i + 1 < |bs| && j < SegmentAt(plan, i).sends
    ensures var d, sent := Nth(bs, i + 1), SegmentAt(plan, i).Sent(j);
      && ((d.resolved || d.firstResend) == !Nth(bs, i).resolved)
      && if d.resolved || d.firstResend then sent < d.from + SIGHT else sent + MAX_RTT <= d.from
  {
    ShapeOf(bs, plan, i);
    ShapeOf(bs, plan, i + 1);
    SentOrder(SegmentAt(plan, i), j);
  }

  lemma SentOrder(sg: Segment, j: nat)
    requires j < sg.sends
    ensures sg.Sent(j) <= sg.Sent(sg.sends - 1)
  {
    assert (sg.sends - 1 - j) * RESEND_DELAY >= 0;
  }

  lemma NotYetFrom(bs: seq<Block>, plan: seq<Segment>, j: nat, now: Time)
    requires LinkedTo(bs, plan, |bs|)
    requires j < |bs| ==>
      now <= Nth(bs, j).from + SIGHT + MAX_RTT + (if Nth(bs, j).firstResend then RESEND_DELAY else 0)
    ensures NotYet(bs, j, now)
  {
    forall h: nat | j < h < |bs| ensures now <= Nth(bs, h).from {
      ShapeOf(bs, plan, j);
      FromsGrow(bs, plan, j, h);
    }
  }

  /** All before the `k`-th are in time. */
  ghost predicate Ready(bs: seq<Block>, plan: seq<Segment>, fixedEnd: bool, notes: seq<Note>, k: nat) {
    && Conforms(bs, plan) && KeepsTo(bs, plan, fixedEnd, notes) && k < |notes|
    && AllInTime(bs, plan, fixedEnd, notes, k)
  }

  lemma HadRowBefore(bs: seq<Block>, plan: seq<Segment>, fixedEnd: bool, notes: seq<Note>, k: nat)
    requires Ready(bs, plan, fixedEnd, notes, k) && k > 0
    ensures HadRow(bs, notes[k - 1])
  {
    var x := notes[k - 1];
    NoteAt(bs, plan, fixedEnd, notes, |notes|, k - 1);
    ShapeOf(bs, plan, x.seg);
    CountIs(Nth(bs, x.seg), 0);
    assert InTime(bs, plan, fixedEnd, notes, k - 1);
  }

  /** The `k`-th is the first of a period. */
  predicate PeriodFirst(bs: seq<Block>, notes: seq<Note>, k: nat)
    requires k < |notes|
  {
    var b := Nth(bs, notes[k].seg);
    (k == 0 || notes[k].seg != notes[k - 1].seg) && !b.resolved && !b.firstResend
  }

  lemma {:induction false} StartedInTime(bs: seq<Block>, plan: seq<Segment>, fixedEnd: bool, notes: seq<Note>, k: nat)
    requires Ready(bs, plan, fixedEnd, notes, k) && !PeriodFirst(bs, notes, k)
    ensures SegmentAt(plan, notes[k].seg).fired < Nth(bs, notes[k].seg).alert.startsAt + GROUP_INTERVAL
  {
    NoteAt(bs, plan, fixedEnd, notes, |notes|, k);
    ShapeOf(bs, plan, notes[k].seg);
    if k > 0 {
      NoteAt(bs, plan, fixedEnd, notes, |notes|, k - 1);
      ShapeOf(bs, plan, notes[k - 1].seg);
      assert InTime(bs, plan, fixedEnd, notes, k - 1);
      if !PeriodFirst(bs, notes, k - 1) {
        StartedInTime(bs, plan, fixedEnd, notes, k - 1);
      }
    }
  }

  /** A notification that goes on. */
  lemma GoesOnWhen(bs: seq<Block>, plan: seq<Segment>, fixedEnd: bool, x: Note, y: Note)
    requires NoteOf(bs, plan, fixedEnd, x) && NoteOf(bs, plan, fixedEnd, y) && GoesOnFrom(x, y)
    ensures var sg, ts := SegmentAt(plan, y.seg), RebasedTs(x.now);
      y.now <= ts + 2 * MAX_RTT && ts <= sg.Sent(y.nth) && sg.Sent(y.nth) == sg.Sent(x.nth) + RESEND_DELAY
      && sg.first + RESEND_DELAY <= y.now
  {
    var sg := SegmentAt(plan, y.seg);
    assert x.nth * RESEND_DELAY >= 0;
  }

  /** A notification that moves on within a period. */
  lemma MovesOnWhen(bs: seq<Block>, plan: seq<Segment>, fixedEnd: bool, x: Note, y: Note)
    requires LinkedTo(bs, plan, |bs|) && NoteOf(bs, plan, fixedEnd, x) && NoteOf(bs, plan, fixedEnd, y)
    requires MovesOnFrom(x, y) && x.nth + 1 == SegmentAt(plan, x.seg).sends
    requires Nth(bs, y.seg).resolved || Nth(bs, y.seg).firstResend
    ensures var sg, ts := SegmentAt(plan, y.seg), RebasedTs(x.now);
      y.now <= ts + 2 * MAX_RTT && ts <= SegmentAt(plan, x.seg).Sent(x.nth) + RESEND_DELAY
      && SegmentAt(plan, x.seg).Sent(x.nth) < sg.first <= y.now
  {
    ShapeOf(bs, plan, y.seg);
  }

  // ---- the first notification of a period

  /** Resolved notifications do not end before their rows. */
  lemma EnoughSends(a: Block, x: Segment, b: Block, sg: Segment)
    requires FiresAgain(a, x, b, sg) && ResolvedBlock(a) && Starts(a, x)
    ensures Count(a) <= x.sends
  {
    CountOfWhole(a);
    assert x.sends < Count(a) ==> x.sends * RESEND_DELAY <= (Count(a) - 1) * RESEND_DELAY;
  }

  lemma NoneLeftBefore(bs: seq<Block>, plan: seq<Segment>, fixedEnd: bool, notes: seq<Note>, k: nat)
    requires Ready(bs, plan, fixedEnd, notes, k) && PeriodFirst(bs, notes, k)
    ensures ViewAt(bs, notes, k).n == 0 && ViewAt(bs, notes, k).c == 0 && notes[k].seg == NextSeg(notes, k)
    ensures Begins(Nth(bs, notes[k].seg), SegmentAt(plan, notes[k].seg)) && notes[k].nth == 0
  {
    var y := notes[k];
    NoteAt(bs, plan, fixedEnd, notes, |notes|, k);
    ShapeOf(bs, plan, y.seg);
    if k > 0 {
      var x := notes[k - 1];
      NoteAt(bs, plan, fixedEnd, notes, |notes|, k - 1);
      ShapeOf(bs, plan, x.seg);
      EnoughSends(Nth(bs, x.seg), SegmentAt(plan, x.seg), Nth(bs, y.seg), SegmentAt(plan, y.seg));
    }
  }

  lemma PeriodFirstFits(bs: seq<Block>, plan: seq<Segment>, fixedEnd: bool, notes: seq<Note>, k: nat)
    requires Ready(bs, plan, fixedEnd, notes, k) && PeriodFirst(bs, notes, k)
    ensures Fair(bs, notes, k) && (Fits(bs, notes, k) <==> InTime(bs, plan, fixedEnd, notes, k))
  {
    var y := notes[k];
    NoneLeftBefore(bs, plan, fixedEnd, notes, k);
    NoteAt(bs, plan, fixedEnd, notes, |notes|, k);
    NotYetFrom(bs, plan, y.seg, y.now);
    BeginsFits(Nth(bs, y.seg), SegmentAt(plan, y.seg), fixedEnd, y.now);
  }

  // ---- a notification that moves on within a period

  /** Everything about two notifications, the second of which moves on within a period. */
  ghost predicate Moving(bs: seq<Block>, plan: seq<Segment>, fixedEnd: bool, x: Note, y: Note) {
    && LinkedTo(bs, plan, |bs|) && NoteOf(bs, plan, fixedEnd, x) && NoteOf(bs, plan, fixedEnd, y)
    && MovesOnFrom(x, y) && x.nth + 1 == SegmentAt(plan, x.seg).sends && HadRow(bs, x)
    && (Nth(bs, y.seg).resolved || Nth(bs, y.seg).firstResend)
    && SegmentAt(plan, y.seg).fired < Nth(bs, y.seg).alert.startsAt + GROUP_INTERVAL
  }

  /** What is left of the block before is passed over, or is over. */
  lemma PassesOver(bs: seq<Block>, plan: seq<Segment>, fixedEnd: bool, x: Note, y: Note)
    requires Moving(bs, plan, fixedEnd, x, y)
    ensures var v := ViewAfter(bs, x);
      && LeavesBehind(v, y)
      && (v.n == 0 || Over(v.b, v.ts) || Resend(v.b, v.ts).CanBeIgnored() <==> v.n == 0 || v.ts != v.b.nextState)
  {
    var a, b, sg, ts := Nth(bs, x.seg), Nth(bs, y.seg), SegmentAt(plan, y.seg), RebasedTs(x.now);
    ShapeOf(bs, plan, x.seg);
    ShapeOf(bs, plan, y.seg);
    MovesOnWhen(bs, plan, fixedEnd, x, y);
    FiringOver(a, ts);
    FiringForgiven(a, ts);
    if b.resolved {
      ResolvedNotFiring(a, b, sg, fixedEnd, ts, y.now);
    } else {
      AnnotationsTell(Resend(a, ts), y.now, y.alert);
    }
  }

  lemma MovesInTime(bs: seq<Block>, plan: seq<Segment>, fixedEnd: bool, x: Note, y: Note)
    requires Moving(bs, plan, fixedEnd, x, y)
    ensures var v := ViewAfter(bs, x); Soon(v, y.now) && NotYet(bs, y.seg, y.now)
  {
    ShapeOf(bs, plan, x.seg);
    ShapeOf(bs, plan, y.seg);
    MovesOnWhen(bs, plan, fixedEnd, x, y);
    NotYetFrom(bs, plan, y.seg, y.now);
    if Nth(bs, y.seg).firstResend {
      FiringOver(Nth(bs, y.seg), RebasedTs(x.now));
    }
  }

  /** What a notification that moves on is meant for. */
  lemma TargetMatches(bs: seq<Block>, plan: seq<Segment>, fixedEnd: bool, x: Note, y: Note)
    requires Moving(bs, plan, fixedEnd, x, y)
    ensures var b, ts := Nth(bs, y.seg), RebasedTs(x.now);
      Target(b, ts).Matches(y.now, y.alert) == Matched <==> (b.firstResend ==> ts < y.now && !fixedEnd)
  {
    var b, sg, ts := Nth(bs, y.seg), SegmentAt(plan, y.seg), RebasedTs(x.now);
    ShapeOf(bs, plan, y.seg);
    FiredWhen(bs, plan, y.seg);
    FiredWhen(bs, plan, x.seg);
    MovesOnWhen(bs, plan, fixedEnd, x, y);
    if b.resolved {
      ResolvesFits(b, sg, fixedEnd, y.now);
    } else {
      FiredBefore(SegmentAt(plan, x.seg), sg, y.now);
      FiringFits(b, sg, 0, fixedEnd, ts, y.now);
    }
  }

  lemma FiredBefore(x: Segment, sg: Segment, now: Time)
    requires 0 < x.sends && sg.first == x.Sent(x.sends) && sg.fired == x.fired <= x.first && sg.first <= now
    ensures sg.fired + RESEND_DELAY <= now
  {
    assert x.sends * RESEND_DELAY >= RESEND_DELAY;
  }

  lemma IsMoving(bs: seq<Block>, plan: seq<Segment>, fixedEnd: bool, notes: seq<Note>, k: nat)
    requires Ready(bs, plan, fixedEnd, notes, k) && k > 0 && notes[k].seg != notes[k - 1].seg
    requires !PeriodFirst(bs, notes, k)
    ensures Moving(bs, plan, fixedEnd, notes[k - 1], notes[k])
  {
    NoteAt(bs, plan, fixedEnd, notes, |notes|, k - 1);
    NoteAt(bs, plan, fixedEnd, notes, |notes|, k);
    HadRowBefore(bs, plan, fixedEnd, notes, k);
    StartedInTime(bs, plan, fixedEnd, notes, k);
  }

  lemma MovesOnFits(bs: seq<Block>, plan: seq<Segment>, fixedEnd: bool, notes: seq<Note>, k: nat)
    requires Ready(bs, plan, fixedEnd, notes, k) && k > 0 && notes[k].seg != notes[k - 1].seg
    requires !PeriodFirst(bs, notes, k)
    ensures Fair(bs, notes, k) && (Fits(bs, notes, k) <==> InTime(bs, plan, fixedEnd, notes, k))
  {
    IsMoving(bs, plan, fixedEnd, notes, k);
    MovesInTime(bs, plan, fixedEnd, notes[k - 1], notes[k]);
    PassesOver(bs, plan, fixedEnd, notes[k - 1], notes[k]);
    TargetMatches(bs, plan, fixedEnd, notes[k - 1], notes[k]);
  }

  // ---- a notification that goes on

  /** Everything about two notifications, the second of which goes on. */
  ghost predicate Going(bs: seq<Block>, plan: seq<Segment>, fixedEnd: bool, x: Note, y: Note) {
    && LinkedTo(bs, plan, |bs|) && NoteOf(bs, plan, fixedEnd, x) && NoteOf(bs, plan, fixedEnd, y)
    && GoesOnFrom(x, y) && HadRow(bs, x)
    && SegmentAt(plan, y.seg).fired < Nth(bs, y.seg).alert.startsAt + GROUP_INTERVAL
    && (fixedEnd && !Nth(bs, y.seg).resolved ==> y.nth == 1 && !Nth(bs, y.seg).firstResend)
    && (y.seg + 1 == |bs| ==> Nth(bs, y.seg).resolved)
  }

  lemma GoesInTime(bs: seq<Block>, plan: seq<Segment>, fixedEnd: bool, x: Note, y: Note)
    requires Going(bs, plan, fixedEnd, x, y)
    ensures var v := ViewAfter(bs, x); Soon(v, y.now) && NotYet(bs, y.seg + 1, y.now)
  {
    ShapeOf(bs, plan, y.seg);
    GoesOnWhen(bs, plan, fixedEnd, x, y);
    if y.seg + 1 < |bs| {
      ShapeOf(bs, plan, y.seg + 1);
      SentBefore(bs, plan, y.seg, y.nth);
      if Nth(bs, y.seg + 1).firstResend {
        FiringOver(Nth(bs, y.seg + 1), RebasedTs(x.now));
      }
    }
    NotYetFrom(bs, plan, y.seg + 1, y.now);
  }

  lemma GoesKeepsOff(bs: seq<Block>, plan: seq<Segment>, fixedEnd: bool, x: Note, y: Note)
    requires Going(bs, plan, fixedEnd, x, y) && y.seg + 1 < |bs|
    ensures KeepsOff(Nth(bs, y.seg + 1), RebasedTs(x.now), y)
  {
    var b, d, sg, ts := Nth(bs, y.seg), Nth(bs, y.seg + 1), SegmentAt(plan, y.seg), RebasedTs(x.now);
    ShapeOf(bs, plan, y.seg);
    ShapeOf(bs, plan, y.seg + 1);
    SentBefore(bs, plan, y.seg, y.nth);
    FiredWhen(bs, plan, y.seg);
    GoesOnWhen(bs, plan, fixedEnd, x, y);
    if d.firstResend {
      AnnotationsTell(Target(d, ts), y.now, y.alert);
    } else if d.resolved {
      FiringNotResolved(b, sg, y.nth, fixedEnd, d, y.now);
    } else {
      MatchesExactly(Row(d, 0, 0), y.now, y.alert);
    }
  }

  /** While rows of a resolved block are left, their resends are not over. */
  lemma ResolvingAlive(b: Block, sg: Segment, j: nat, ts: Time)
    requires ResolvedBlock(b) && Starts(b, sg) && j < Count(b) && ts <= sg.Sent(j)
    ensures !Over(b, ts)
  {
    CountOfWhole(b);
    assert j * RESEND_DELAY <= (Count(b) - 1) * RESEND_DELAY;
  }

  lemma GoesOnIs(bs: seq<Block>, plan: seq<Segment>, fixedEnd: bool, x: Note, y: Note)
    requires Going(bs, plan, fixedEnd, x, y)
    ensures GoesOn(ViewAfter(bs, x), y.now, y.alert)
      <==> ResendInTime(Nth(bs, y.seg), SegmentAt(plan, y.seg), fixedEnd, x, y)
  {
    var b, sg, ts := Nth(bs, y.seg), SegmentAt(plan, y.seg), RebasedTs(x.now);
    ShapeOf(bs, plan, y.seg);
    FiredWhen(bs, plan, y.seg);
    GoesOnWhen(bs, plan, fixedEnd, x, y);
    if b.resolved {
      ResolvingFits(b, sg, y.nth, fixedEnd, ts, y.now);
      if y.nth < Count(b) {
        ResolvingAlive(b, sg, y.nth, ts);
      }
    } else {
      FiringFits(b, sg, y.nth, fixedEnd, ts, y.now);
      FiringOver(b, ts);
    }
  }

  lemma IsGoing(bs: seq<Block>, plan: seq<Segment>, fixedEnd: bool, notes: seq<Note>, k: nat)
    requires Ready(bs, plan, fixedEnd, notes, k) && k > 0 && notes[k].seg == notes[k - 1].seg
    ensures Going(bs, plan, fixedEnd, notes[k - 1], notes[k])
  {
    NoteAt(bs, plan, fixedEnd, notes, |notes|, k - 1);
    NoteAt(bs, plan, fixedEnd, notes, |notes|, k);
    HadRowBefore(bs, plan, fixedEnd, notes, k);
    StartedInTime(bs, plan, fixedEnd, notes, k);
    assert InTime(bs, plan, fixedEnd, notes, k - 1);
  }

  lemma GoesOnFits(bs: seq<Block>, plan: seq<Segment>, fixedEnd: bool, notes: seq<Note>, k: nat)
    requires Ready(bs, plan, fixedEnd, notes, k) && k > 0 && notes[k].seg == notes[k - 1].seg
    ensures Fair(bs, notes, k) && (Fits(bs, notes, k) <==> InTime(bs, plan, fixedEnd, notes, k))
  {
    var x, y := notes[k - 1], notes[k];
    IsGoing(bs, plan, fixedEnd, notes, k);
    GoesInTime(bs, plan, fixedEnd, x, y);
    if y.seg + 1 < |bs| {
      GoesKeepsOff(bs, plan, fixedEnd, x, y);
    }
    GoesOnIs(bs, plan, fixedEnd, x, y);
  }

  // ---- the records

  lemma NoteFits(bs: seq<Block>, plan: seq<Segment>, fixedEnd: bool, notes: seq<Note>, k: nat)
    requires Ready(bs, plan, fixedEnd, notes, k)
    ensures Fair(bs, notes, k) && (Fits(bs, notes, k) <==> InTime(bs, plan, fixedEnd, notes, k))
  {
    if PeriodFirst(bs, notes, k) {
      PeriodFirstFits(bs, plan, fixedEnd, notes, k);
    } else if k > 0 && notes[k].seg == notes[k - 1].seg {
      GoesOnFits(bs, plan, fixedEnd, notes, k);
    } else {
      NoteAt(bs, plan, fixedEnd, notes, |notes|, k);
      ShapeOf(bs, plan, 0);
      MovesOnFits(bs, plan, fixedEnd, notes, k);
    }
  }

  lemma AllInTimeNext(bs: seq<Block>, plan: seq<Segment>, fixedEnd: bool, notes: seq<Note>, k: nat)
    requires k < |notes|
    ensures AllInTime(bs, plan, fixedEnd, notes, k + 1)
      <==> AllInTime(bs, plan, fixedEnd, notes, k) && InTime(bs, plan, fixedEnd, notes, k)
  {
  }

  lemma {:induction false} AllFitInTime(bs: seq<Block>, plan: seq<Segment>, fixedEnd: bool, notes: seq<Note>, k: nat)
    requires Conforms(bs, plan) && KeepsTo(bs, plan, fixedEnd, notes) && k <= |notes|
    ensures AllFit(bs, notes, k) <==> AllInTime(bs, plan, fixedEnd, notes, k)
  {
    if k == 0 {
    } else {
      AllFitInTime(bs, plan, fixedEnd, notes, k - 1);
      AllFitNext(bs, notes, k - 1);
      AllInTimeNext(bs, plan, fixedEnd, notes, k - 1);
      if AllFit(bs, notes, k - 1) {
        NoteFits(bs, plan, fixedEnd, notes, k - 1);
      }
    }
  }

  lemma NotesFair(bs: seq<Block>, plan: seq<Segment>, fixedEnd: bool, notes: seq<Note>)
    requires Conforms(bs, plan) && KeepsTo(bs, plan, fixedEnd, notes)
    ensures AllFair(bs, notes)
  {
    forall k | 0 <= k < |notes| && AllFit(bs, notes, k) ensures Fair(bs, notes, k) {
      AllFitInTime(bs, plan, fixedEnd, notes, k);
      NoteFits(bs, plan, fixedEnd, notes, k);
    }
  }

  lemma {:induction false} TurnsOf(bs: seq<Block>, plan: seq<Segment>, fixedEnd: bool, notes: seq<Note>, n: nat)
    requires n <= |notes| && KeepsUpTo(bs, plan, fixedEnd, notes, n)
    ensures InTurns(|bs|, notes, n)
  {
    if n == 0 {
    } else {
      TurnsOf(bs, plan, fixedEnd, notes, n - 1);
    }
  }

  lemma SequenceOf(bs: seq<Block>, plan: seq<Segment>, fixedEnd: bool, notes: seq<Note>)
    requires Conforms(bs, plan) && KeepsTo(bs, plan, fixedEnd, notes)
    ensures InSequence(bs, notes)
  {
    TurnsOf(bs, plan, fixedEnd, notes, |notes|);
    CountOfLimit(Nth(bs, |bs| - 1));
  }

  /** Exactly when a sender that follows the specification is blamed, just after one of its notifications:
      when one of them so far was not in time. */
  lemma BlamedExactly(q: seq<Expected>, bs: seq<Block>, plan: seq<Segment>, fixedEnd: bool, notes: seq<Note>,
                      id: LabelSet, events: seq<Event>)
    requires Table(q, bs) && Conforms(bs, plan) && KeepsTo(bs, plan, fixedEnd, notes) && OnSchedule(notes, id, events)
    requires events != [] && Delivers(id, events[|events| - 1])
    ensures Deliveries(id, events) <= |notes|
    ensures Dirty(Run(Fresh(q), id, events))
      <==> !AllInTime(bs, plan, fixedEnd, notes, Deliveries(id, events))
  {
    SequenceOf(bs, plan, fixedEnd, notes);
    NotesFair(bs, plan, fixedEnd, notes);
    DirtyExactly(q, bs, notes, id, events);
    AllFitInTime(bs, plan, fixedEnd, notes, Deliveries(id, events));
  }

  /** No false alarm at reception. At any moment the records of a sender that follows the specification are
      clean if and only if it has begun to say that the alert resolved for the last time, and each of its
      notifications so far was in time. */
  lemma CleanExactly(q: seq<Expected>, bs: seq<Block>, plan: seq<Segment>, fixedEnd: bool, notes: seq<Note>,
                     id: LabelSet, events: seq<Event>)
    requires Table(q, bs) && Conforms(bs, plan) && KeepsTo(bs, plan, fixedEnd, notes) && OnSchedule(notes, id, events)
    ensures Deliveries(id, events) <= |notes|
    ensures Clean(Run(Fresh(q), id, events))
      <==> LastBegun(bs, notes, Deliveries(id, events))
           && AllInTime(bs, plan, fixedEnd, notes, Deliveries(id, events))
  {
    SequenceOf(bs, plan, fixedEnd, notes);
    NotesFair(bs, plan, fixedEnd, notes);
    CleanWhenFit(q, bs, notes, id, events);
    AllFitInTime(bs, plan, fixedEnd, notes, Deliveries(id, events));
  }

  /** Of the first `k` notifications one was for the last block. */
  predicate LastBegun(bs: seq<Block>, notes: seq<Note>, k: nat)
    requires k <= |notes|
  {
    k > 0 && notes[k - 1].seg + 1 == |bs|
  }

  /** All notifications that arrive by `until` are among the first `k`. */
  predicate AllArrived(notes: seq<Note>, k: nat, until: Time) {
    forall i :: k <= i < |notes| ==> until < notes[i].now
  }

  /** The first notification from the `k`-th on for the last block. */
  lemma {:induction false} LastBegins(count: nat, notes: seq<Note>, k: nat) returns (i: nat)
    requires InTurns(count, notes, |notes|) && k < |notes| && NextSeg(notes, k) < count
    requires notes[|notes| - 1].seg + 1 == count
    ensures k <= i < |notes| && notes[i].seg + 1 == count && notes[i].nth == 0
    decreases |notes| - k
  {
    TurnAt(count, notes, |notes|, k);
    if notes[k].seg + 1 == count {
      i := k;
    } else {
      i := LastBegins(count, notes, k + 1);
    }
  }

  /** The last block has begun when all that arrives until long enough after its start has arrived. */
  lemma BegunUntil(bs: seq<Block>, plan: seq<Segment>, fixedEnd: bool, notes: seq<Note>, k: nat, until: Time)
    requires Conforms(bs, plan) && KeepsTo(bs, plan, fixedEnd, notes) && k <= |notes| && AllArrived(notes, k, until)
    requires Nth(bs, |bs| - 1).from + SIGHT + MAX_RTT <= until
    ensures LastBegun(bs, notes, k)
  {
    SequenceOf(bs, plan, fixedEnd, notes);
    if k > 0 {
      TurnAt(|bs|, notes, |notes|, k - 1);
    }
    if NextSeg(notes, k) < |bs| {
      var i := LastBegins(|bs|, notes, k);
      NoteAt(bs, plan, fixedEnd, notes, |notes|, i);
      LinkedAt(bs, plan, |bs|, |bs| - 1);
      assert false;
    }
  }

  // ---- an end that is counted from the start

  predicate FiringResend(bs: seq<Block>, y: Note) {
    !Nth(bs, y.seg).resolved && (y.nth > 0 || Nth(bs, y.seg).firstResend)
  }

  lemma FixedEndInTime(bs: seq<Block>, plan: seq<Segment>, notes: seq<Note>, k: nat)
    requires Conforms(bs, plan) && KeepsTo(bs, plan, true, notes) && k < |notes|
    ensures InTime(bs, plan, true, notes, k) <==> InTime(bs, plan, false, notes, k) && !FiringResend(bs, notes[k])
  {
    NoteAt(bs, plan, true, notes, |notes|, k);
    ShapeOf(bs, plan, notes[k].seg);
  }

  /** A first block is long enough for a resend. */
  lemma SecondResends(bs: seq<Block>, plan: seq<Segment>, fixedEnd: bool, notes: seq<Note>)
    requires Conforms(bs, plan) && KeepsTo(bs, plan, fixedEnd, notes)
    ensures |notes| >= 2 && FiringResend(bs, notes[1])
  {
    NoteAt(bs, plan, fixedEnd, notes, |notes|, 0);
    ShapeOf(bs, plan, 0);
    assert |bs| > 1;
    ShapeOf(bs, plan, 1);
    var x, sg := SegmentAt(plan, 0), SegmentAt(plan, 1);
    assert sg.first <= x.Sent(x.sends);
    assert x.sends >= 2;
    NoteAt(bs, plan, fixedEnd, notes, |notes|, 1);
  }

  /** When the end of a firing alert is counted from when it fired, as the specification is worded, the
      records are never clean, and from the second notification on something is held against the sender. */
  lemma EndsAtOfStart(q: seq<Expected>, bs: seq<Block>, plan: seq<Segment>, notes: seq<Note>, id: LabelSet,
                      events: seq<Event>)
    requires Table(q, bs) && Conforms(bs, plan) && KeepsTo(bs, plan, true, notes) && OnSchedule(notes, id, events)
    ensures !Clean(Run(Fresh(q), id, events))
    ensures Deliveries(id, events) >= 2 ==> Dirty(Run(Fresh(q), id, events))
  {
    if Deliveries(id, events) >= 2 {
      FixedEndBlamed(q, bs, plan, notes, id, events);
    } else {
      FixedEndTooEarly(bs, plan, notes, Deliveries(id, events));
      CleanExactly(q, bs, plan, true, notes, id, events);
    }
  }

  lemma FixedEndBlamed(q: seq<Expected>, bs: seq<Block>, plan: seq<Segment>, notes: seq<Note>, id: LabelSet,
                       events: seq<Event>)
    requires Table(q, bs) && Conforms(bs, plan) && KeepsTo(bs, plan, true, notes) && OnSchedule(notes, id, events)
    requires Deliveries(id, events) >= 2
    ensures Dirty(Run(Fresh(q), id, events))
  {
    SecondResends(bs, plan, true, notes);
    FixedEndInTime(bs, plan, notes, 1);
    StaysBlamed(q, bs, plan, true, notes, id, events, 1);
  }

  lemma FixedEndTooEarly(bs: seq<Block>, plan: seq<Segment>, notes: seq<Note>, k: nat)
    requires Conforms(bs, plan) && KeepsTo(bs, plan, true, notes) && k < 2
    ensures k <= |notes| && !LastBegun(bs, notes, k)
  {
    SecondResends(bs, plan, true, notes);
    NoteAt(bs, plan, true, notes, |notes|, 0);
    LinkedAt(bs, plan, |bs|, 0);
  }

  /** A notification that was not in time is held against the sender for good. */
  lemma StaysBlamed(q: seq<Expected>, bs: seq<Block>, plan: seq<Segment>, fixedEnd: bool, notes: seq<Note>,
                    id: LabelSet, events: seq<Event>, k: nat)
    requires Table(q, bs) && Conforms(bs, plan) && KeepsTo(bs, plan, fixedEnd, notes) && OnSchedule(notes, id, events)
    requires k < |notes| && k < Deliveries(id, events) && !InTime(bs, plan, fixedEnd, notes, k)
    ensures Dirty(Run(Fresh(q), id, events))
  {
    SequenceOf(bs, plan, fixedEnd, notes);
    NotesFair(bs, plan, fixedEnd, notes);
    RunReached(q, bs, notes, id, events);
    AllFitInTime(bs, plan, fixedEnd, notes, Deliveries(id, events));
  }

  // ---- the tables of the suite

  lemma {:induction false} OffsetTail(bs: seq<Block>, i: nat)
    requires bs != []
    ensures Offset(bs, i + 1) == Count(bs[0]) + Offset(bs[1..], i)
  {
    if i == 0 {
      assert Offset(bs, 1) == Offset(bs, 0) + Count(Nth(bs, 0));
    } else {
      OffsetTail(bs, i - 1);
      assert Nth(bs, i) == Nth(bs[1..], i - 1);
    }
  }

  lemma RowsShifted(a: seq<Expected>, q: seq<Expected>, o: nat, b: Block)
    requires RowsAtOffset(q, o, b)
    ensures RowsAtOffset(a + q, |a| + o, b)
  {
    forall x | |a| + o <= x < |a| + o + Count(b)
      ensures (a + q)[x] == Row(b, x - (|a| + o), (a + q)[x].orderingID)
    {
      assert (a + q)[x] == q[x - |a|];
    }
  }

  lemma RowsInFront(b: Block, firstID: int, stride: nat, rest: seq<Expected>)
    ensures |Rows(b, firstID, stride)| == Count(b) && RowsAtOffset(Rows(b, firstID, stride) + rest, 0, b)
  {
    RowsAt(b, firstID, stride, Count(b));
  }

  lemma {:induction false} ChainRows(bs: seq<Block>, firstID: int, stride: nat, i: nat)
    requires i < |bs|
    ensures RowsAtOffset(Chain(bs, firstID, stride), Offset(bs, i), Nth(bs, i))
    decreases |bs|
  {
    var next := firstID + Count(bs[0]) * stride;
    var front, rest := Rows(bs[0], firstID, stride), Chain(bs[1..], next, stride);
    RowsInFront(bs[0], firstID, stride, rest);
    if i == 0 {
    } else {
      ChainRows(bs[1..], next, stride, i - 1);
      OffsetTail(bs, i - 1);
      RowsShifted(front, rest, Offset(bs[1..], i - 1), Nth(bs, i));
    }
  }

  lemma {:induction false} ChainLength(bs: seq<Block>, firstID: int, stride: nat)
    ensures |Chain(bs, firstID, stride)| == Offset(bs, |bs|)
  {
    if bs == [] {
    } else {
      ChainLength(bs[1..], firstID + Count(bs[0]) * stride, stride);
      RowsInFront(bs[0], firstID, stride, []);
      OffsetTail(bs, |bs| - 1);
    }
  }

  lemma {:induction false} ChainFilled(bs: seq<Block>, firstID: int, stride: nat, n: nat)
    requires n <= |bs| && forall i: nat :: i < |bs| ==> BlockFine(bs, i)
    ensures RowsOf(Chain(bs, firstID, stride), bs, n)
  {
    if n == 0 {
    } else {
      ChainFilled(bs, firstID, stride, n - 1);
      ChainRows(bs, firstID, stride, n - 1);
      assert BlockFine(bs, n - 1);
    }
  }

  lemma {:induction false} ChainAlive(bs: seq<Block>, firstID: int, stride: nat)
    requires (forall i :: 0 <= i < |bs| ==> BlockOk(bs[i])) && stride > 0
    ensures forall ea :: ea in Chain(bs, firstID, stride) ==>
      !ea.ShouldBeIgnored() && GROUP_INTERVAL <= ea.timeTolerance
  {
    if bs == [] {
    } else {
      ChainAlive(bs[1..], firstID + Count(bs[0]) * stride, stride);
      RowsAre(bs[0], firstID, stride, Count(bs[0]));
    }
  }

  lemma ChainTable(bs: seq<Block>, firstID: int, stride: nat)
    requires Sequence(bs) && stride > 0 && forall i: nat :: i < |bs| ==> BlockFine(bs, i)
    ensures Table(Chain(bs, firstID, stride), bs)
  {
    GoodChain(bs, firstID, stride);
    ChainAlive(bs, firstID, stride);
    ChainFilled(bs, firstID, stride, |bs|);
    ChainLength(bs, firstID, stride);
  }

  // ---- notifications that all take equally long

  /** How many notifications there are for the first `i` blocks. */
  function TotalSends(plan: seq<Segment>, i: nat): nat {
    if i == 0 then 0 else TotalSends(plan, i - 1) + SegmentAt(plan, i - 1).sends
  }

  function NoteFor(bs: seq<Block>, plan: seq<Segment>, fixedEnd: bool, rtt: Duration, i: nat, j: nat): Note {
    Note(i, j, SegmentAt(plan, i).Sent(j) + rtt, Payload(Nth(bs, i), SegmentAt(plan, i), j, fixedEnd))
  }

  datatype Place = Place(seg: nat, nth: nat)

  /** What the `k`-th notification is meant for. */
  function PlaceOf(plan: seq<Segment>, k: nat): Place {
    if k == 0 then Place(0, 0) else
    var x := PlaceOf(plan, k - 1);
    if x.nth + 1 < SegmentAt(plan, x.seg).sends then Place(x.seg, x.nth + 1) else Place(x.seg + 1, 0)
  }

  function NoteNumber(bs: seq<Block>, plan: seq<Segment>, fixedEnd: bool, rtt: Duration, k: nat): Note {
    NoteFor(bs, plan, fixedEnd, rtt, PlaceOf(plan, k).seg, PlaceOf(plan, k).nth)
  }

  /** The first `n` notifications. */
  function NotesTo(bs: seq<Block>, plan: seq<Segment>, fixedEnd: bool, rtt: Duration, n: nat): seq<Note> {
    if n == 0 then [] else NotesTo(bs, plan, fixedEnd, rtt, n - 1) + [NoteNumber(bs, plan, fixedEnd, rtt, n - 1)]
  }

  lemma {:induction false} NotesToAt(bs: seq<Block>, plan: seq<Segment>, fixedEnd: bool, rtt: Duration, n: nat, k: nat)
    requires k < n
    ensures |NotesTo(bs, plan, fixedEnd, rtt, n)| == n
    ensures NotesTo(bs, plan, fixedEnd, rtt, n)[k] == NoteNumber(bs, plan, fixedEnd, rtt, k)
  {
    if n == 1 {
    } else if k == n - 1 {
      NotesToAt(bs, plan, fixedEnd, rtt, n - 1, 0);
    } else {
      NotesToAt(bs, plan, fixedEnd, rtt, n - 1, k);
    }
  }

  predicate AllSend(plan: seq<Segment>) {
    forall i: nat :: i < |plan| ==> 0 < SegmentAt(plan, i).sends
  }

  /** The notifications reach block `i` after those of the blocks before it. */
  lemma {:induction false} PlaceIs(plan: seq<Segment>, i: nat, j: nat)
    requires AllSend(plan) && i < |plan| && j < SegmentAt(plan, i).sends
    ensures PlaceOf(plan, TotalSends(plan, i) + j) == Place(i, j)
    decreases i, j
  {
    if j > 0 {
      PlaceIs(plan, i, j - 1);
    } else if i > 0 {
      PlaceIs(plan, i - 1, SegmentAt(plan, i - 1).sends - 1);
    }
  }

  /** Up to the last notification every place is one of the plan. */
  lemma {:induction false} PlaceInPlan(plan: seq<Segment>, i: nat, k: nat)
    requires AllSend(plan) && i <= |plan| && k < TotalSends(plan, i)
    ensures PlaceOf(plan, k).seg < i && PlaceOf(plan, k).nth < SegmentAt(plan, PlaceOf(plan, k).seg).sends
  {
    if TotalSends(plan, i - 1) <= k {
      PlaceIs(plan, i - 1, k - TotalSends(plan, i - 1));
    } else {
      PlaceInPlan(plan, i - 1, k);
    }
  }

  lemma {:induction false} UniformTo(bs: seq<Block>, plan: seq<Segment>, fixedEnd: bool, rtt: Duration, total: nat,
                                     n: nat)
    requires AllSend(plan) && |bs| == |plan| && total == TotalSends(plan, |plan|) && n <= total && 0 <= rtt <= MAX_RTT
    ensures |NotesTo(bs, plan, fixedEnd, rtt, total)| == total
    ensures KeepsUpTo(bs, plan, fixedEnd, NotesTo(bs, plan, fixedEnd, rtt, total), n)
  {
    var notes := NotesTo(bs, plan, fixedEnd, rtt, total);
    if n == 0 {
      if total > 0 {
        NotesToAt(bs, plan, fixedEnd, rtt, total, 0);
      }
    } else {
      UniformTo(bs, plan, fixedEnd, rtt, total, n - 1);
      NotesToAt(bs, plan, fixedEnd, rtt, total, n - 1);
      PlaceInPlan(plan, |plan|, n - 1);
      if n > 1 {
        NotesToAt(bs, plan, fixedEnd, rtt, total, n - 2);
      }
    }
  }

  /** Notifications that each take `rtt` follow the plan. */
  lemma UniformKeepsTo(bs: seq<Block>, plan: seq<Segment>, fixedEnd: bool, rtt: Duration)
    requires AllSend(plan) && |bs| == |plan| > 0 && 0 <= rtt <= MAX_RTT
    ensures KeepsTo(bs, plan, fixedEnd, NotesTo(bs, plan, fixedEnd, rtt, TotalSends(plan, |plan|)))
  {
    var n, total := |plan| - 1, TotalSends(plan, |plan|);
    UniformTo(bs, plan, fixedEnd, rtt, total, total);
    PlaceIs(plan, n, SegmentAt(plan, n).sends - 1);
    NotesToAt(bs, plan, fixedEnd, rtt, total, total - 1);
  }

  /** What a plan needs for its notifications to be in time when each takes `rtt`. */
  predicate SegmentInTime(bs: seq<Block>, plan: seq<Segment>, rtt: Duration, i: nat) {
    var b, sg := Nth(bs, i), SegmentAt(plan, i);
    && 0 < sg.sends <= Count(b)
    && (b.resolved || !b.firstResend ==> sg.first < b.from + GROUP_INTERVAL)
    && (!b.resolved && 1 < sg.sends ==> RebasedTs(sg.Sent(sg.sends - 2) + rtt) <= b.nextState)
    && (sg.sends == Count(b) || RebasedTs(sg.Sent(sg.sends - 1) + rtt) != b.nextState)
  }

  lemma ResendPair(bs: seq<Block>, plan: seq<Segment>, rtt: Duration, i: nat, x: Note, y: Note)
    requires SegmentInTime(bs, plan, rtt, i) && y.nth < SegmentAt(plan, i).sends
    requires x.now == SegmentAt(plan, i).Sent(x.nth) + rtt && y.now == SegmentAt(plan, i).Sent(y.nth) + rtt
    requires y.nth == x.nth + 1 && (Nth(bs, i).resolved ==> !Nth(bs, i).firstResend)
    ensures ResendInTime(Nth(bs, i), SegmentAt(plan, i), false, x, y)
  {
    var sg := SegmentAt(plan, i);
    assert x.nth * RESEND_DELAY <= (sg.sends - 2) * RESEND_DELAY;
  }

  lemma ChangePair(bs: seq<Block>, plan: seq<Segment>, rtt: Duration, i: nat, x: Note, y: Note)
    requires SegmentInTime(bs, plan, rtt, i) && Linked(bs, plan, i + 1) && !Nth(bs, i).resolved
    requires x.nth + 1 == SegmentAt(plan, i).sends && y.nth == 0
    requires x.now == SegmentAt(plan, i).Sent(x.nth) + rtt && y.now == SegmentAt(plan, i + 1).Sent(y.nth) + rtt
    ensures ChangeInTime(Nth(bs, i), Nth(bs, i + 1), false, x, y)
  {
  }

  /** A notification of the plan that takes `rtt`. */
  predicate Uniform(bs: seq<Block>, plan: seq<Segment>, rtt: Duration, y: Note) {
    && y.seg < |bs| && y.nth < SegmentAt(plan, y.seg).sends
    && y.now == SegmentAt(plan, y.seg).Sent(y.nth) + rtt
  }

  lemma UniformAt(bs: seq<Block>, plan: seq<Segment>, rtt: Duration, total: nat, k: nat)
    requires AllSend(plan) && |bs| == |plan| && total == TotalSends(plan, |plan|) && k < total
    ensures var notes := NotesTo(bs, plan, false, rtt, total);
      && |notes| == total && Uniform(bs, plan, rtt, notes[k])
      && notes[k].seg == PlaceOf(plan, k).seg && notes[k].nth == PlaceOf(plan, k).nth
  {
    NotesToAt(bs, plan, false, rtt, total, k);
    PlaceInPlan(plan, |plan|, k);
  }

  lemma UniformPair(bs: seq<Block>, plan: seq<Segment>, rtt: Duration, x: Note, y: Note)
    requires Conforms(bs, plan) && forall i: nat :: i < |bs| ==> SegmentInTime(bs, plan, rtt, i)
    requires Uniform(bs, plan, rtt, x) && Uniform(bs, plan, rtt, y) && SentAfter(plan, x, y)
    ensures y.seg == x.seg ==> ResendInTime(Nth(bs, y.seg), SegmentAt(plan, y.seg), false, x, y)
    ensures y.seg != x.seg && (Nth(bs, y.seg).resolved || Nth(bs, y.seg).firstResend) ==>
      ChangeInTime(Nth(bs, x.seg), Nth(bs, y.seg), false, x, y)
  {
    ShapeOf(bs, plan, y.seg);
    assert SegmentInTime(bs, plan, rtt, x.seg);
    if y.seg == x.seg {
      ResendPair(bs, plan, rtt, y.seg, x, y);
    } else if Nth(bs, y.seg).resolved || Nth(bs, y.seg).firstResend {
      ChangePair(bs, plan, rtt, x.seg, x, y);
    }
  }

  lemma PairIsInTime(bs: seq<Block>, plan: seq<Segment>, rtt: Duration, notes: seq<Note>, k: nat)
    requires k < |notes| && SegmentInTime(bs, plan, rtt, notes[k].seg)
    requires var b := Nth(bs, notes[k].seg);
      && (k > 0 && notes[k].seg == notes[k - 1].seg ==>
            ResendInTime(b, SegmentAt(plan, notes[k].seg), false, notes[k - 1], notes[k]))
      && (k > 0 && notes[k].seg != notes[k - 1].seg && (b.resolved || b.firstResend) ==>
            ChangeInTime(Nth(bs, notes[k - 1].seg), b, false, notes[k - 1], notes[k]))
      && (k == 0 ==> !b.resolved && !b.firstResend)
    ensures InTime(bs, plan, false, notes, k)
  {
  }

  /** Such notifications are all in time. */
  lemma UniformInTime(bs: seq<Block>, plan: seq<Segment>, rtt: Duration, notes: seq<Note>, k: nat)
    requires Conforms(bs, plan) && AllSend(plan) && k < |notes|
    requires notes == NotesTo(bs, plan, false, rtt, TotalSends(plan, |plan|))
    requires |notes| == TotalSends(plan, |plan|)
    requires forall i: nat :: i < |bs| ==> SegmentInTime(bs, plan, rtt, i)
    ensures InTime(bs, plan, false, notes, k)
  {
    UniformAt(bs, plan, rtt, |notes|, k);
    if k > 0 {
      UniformAt(bs, plan, rtt, |notes|, k - 1);
      UniformPair(bs, plan, rtt, notes[k - 1], notes[k]);
    } else {
      LinkedAt(bs, plan, |bs|, 0);
    }
    PairIsInTime(bs, plan, rtt, notes, k);
  }

  /** One request for each of the first `n` notifications, and nothing else. */
  function RequestsTo(notes: seq<Note>, n: nat): seq<Event>
    requires n <= |notes|
  {
    if n == 0 then [] else RequestsTo(notes, n - 1) + [Request(notes[n - 1].now, [notes[n - 1].alert])]
  }

  lemma {:induction false} RequestsOnSchedule(notes: seq<Note>, id: LabelSet, n: nat)
    requires n <= |notes| && forall k :: 0 <= k < n ==> notes[k].alert.labels == id
    ensures OnSchedule(notes, id, RequestsTo(notes, n)) && Deliveries(id, RequestsTo(notes, n)) == n
    ensures n > 0 ==> RequestsTo(notes, n) != [] && Delivers(id, RequestsTo(notes, n)[|RequestsTo(notes, n)| - 1])
  {
    if n == 0 {
    } else {
      RequestsOnSchedule(notes, id, n - 1);
      var events, before, e := RequestsTo(notes, n), RequestsTo(notes, n - 1),
                               Request(notes[n - 1].now, [notes[n - 1].alert]);
      assert events[..|events| - 1] == before && events[|events| - 1] == e;
      assert AlertsOf(e.batch, id) == [notes[n - 1].alert];
    }
  }
}
