/** Runs of conforming generators on the suite's own tables: two that are blamed, one that is not, and one
    that gets a "yes". */
module SenderExamples {
  import opened Labels
  import opened ExpectedAlert
  import opened Reception
  import opened Verdict
  import opened Resends
  import opened CaseLabels
  import opened CaseTables
  import opened CaseSamples
  import opened Automaton
  import opened Hits
  import opened Notifications
  import opened NotificationRuns
  import opened Sender
  import opened SenderRuns
  import opened TestSuite

  /** One request for each of the first `n` notifications of a plan; each takes one second. */
  function RunOf(bs: seq<Block>, plan: seq<Segment>, n: nat): seq<Event>
    requires n <= |AllNotes(bs, plan)|
  {
    RequestsTo(AllNotes(bs, plan), n)
  }

  function AllNotes(bs: seq<Block>, plan: seq<Segment>): seq<Note> {
    NotesTo(bs, plan, false, SECOND, TotalSends(plan, |plan|))
  }

  lemma SendsPositive(bs: seq<Block>, plan: seq<Segment>)
    requires Conforms(bs, plan)
    ensures AllSend(plan)
  {
    forall i: nat | i < |plan| ensures 0 < SegmentAt(plan, i).sends {
      if i + 1 < |plan| {
        LinkedAt(bs, plan, |bs|, i + 1);
      }
      ShapeOf(bs, plan, i);
    }
  }

  lemma {:induction false} SameLabels(bs: seq<Block>, plan: seq<Segment>, i: nat)
    requires Conforms(bs, plan) && i < |bs|
    ensures Nth(bs, i).alert.labels == Nth(bs, 0).alert.labels
  {
    if i > 0 {
      SameLabels(bs, plan, i - 1);
      LinkedAt(bs, plan, |bs|, i);
    }
  }

  /** Such requests are on schedule. */
  lemma RunIsOnSchedule(bs: seq<Block>, plan: seq<Segment>, n: nat)
    requires Conforms(bs, plan) && 0 < n <= TotalSends(plan, |plan|)
    ensures var notes, id := AllNotes(bs, plan), Nth(bs, 0).alert.labels;
      && |notes| == TotalSends(plan, |plan|) && KeepsTo(bs, plan, false, notes)
      && OnSchedule(notes, id, RunOf(bs, plan, n)) && Deliveries(id, RunOf(bs, plan, n)) == n
      && RunOf(bs, plan, n) != [] && Delivers(id, RunOf(bs, plan, n)[|RunOf(bs, plan, n)| - 1])
  {
    var notes, id := AllNotes(bs, plan), Nth(bs, 0).alert.labels;
    SendsPositive(bs, plan);
    UniformKeepsTo(bs, plan, false, SECOND);
    NotesToAt(bs, plan, false, SECOND, TotalSends(plan, |plan|), 0);
    forall k | 0 <= k < |notes| ensures notes[k].alert.labels == id {
      NoteAt(bs, plan, false, notes, |notes|, k);
      SameLabels(bs, plan, notes[k].seg);
    }
    RequestsOnSchedule(notes, id, n);
  }

  /** A generator whose `k`-th notification is not in time is blamed as soon as it arrives. */
  lemma BlamedAt(q: seq<Expected>, bs: seq<Block>, plan: seq<Segment>, k: nat)
    requires Table(q, bs) && Conforms(bs, plan) && k < TotalSends(plan, |plan|)
    requires |AllNotes(bs, plan)| == TotalSends(plan, |plan|) && !InTime(bs, plan, false, AllNotes(bs, plan), k)
    ensures Dirty(Run(Fresh(q), Nth(bs, 0).alert.labels, RunOf(bs, plan, k + 1)))
  {
    RunIsOnSchedule(bs, plan, k + 1);
    BlamedExactly(q, bs, plan, false, AllNotes(bs, plan), Nth(bs, 0).alert.labels, RunOf(bs, plan, k + 1));
  }

  /** Samples that take ten seconds, and each just miss an evaluation: the alert fires 39 seconds late. */
  lemma SlowTiming(z: Time)
    ensures var t := Late(9 * SECOND, ORDER_SAMPLE_COUNT, 10 * SECOND);
      && t.Prompt() && FirstToSee(t, 8, 5) && FirstToSee(t, 73, 37)
      && SlowPlan(z) == OncePlan(z + t.Instant(5) + At(0, 12), z + t.Instant(37))
  {
    LatePrompt(9 * SECOND, ORDER_SAMPLE_COUNT, 10 * SECOND);
  }

  lemma SlowConforms(z: Time)
    requires ZERO_TIME <= z
    ensures Conforms(R11Blocks(ORDER, z), SlowPlan(z))
  {
    SlowTiming(z);
    R11Schedule(z, Late(9 * SECOND, ORDER_SAMPLE_COUNT, 10 * SECOND), 5, 37);
  }

  /** Its start is then out of the tolerance: the sender of these samples is blamed with its first
      notification. */
  lemma SlowIsBlamed(z: Time)
    requires ZERO_TIME <= z
    ensures 1 <= |AllNotes(R11Blocks(ORDER, z), SlowPlan(z))|
    ensures Dirty(Run(Fresh(SuiteQueue({OrderTest}, z, ORDER.r11)), ORDER.r11,
                      RunOf(R11Blocks(ORDER, z), SlowPlan(z), 1)))
  {
    SlowConforms(z);
    R11TableOf(z);
    SlowBlamed(SuiteQueue({OrderTest}, z, ORDER.r11), R11Blocks(ORDER, z), SlowPlan(z), z, ORDER.r11);
  }

  lemma R11TableOf(z: Time)
    requires ZERO_TIME <= z
    ensures var b := R11Blocks(ORDER, z);
      && Table(SuiteQueue({OrderTest}, z, ORDER.r11), b) && |b| == 2 && b[0].alert.labels == ORDER.r11
      && b[0].from == z + 300 * SECOND && b[0].until == b[0].nextState == b[1].from == z + 1095 * SECOND
      && b[1].until == b[1].from + RESOLVED_LIMIT
  {
    OwnerIs(OrderTest, ORDER.r11);
    BlocksAre(z);
    SuiteTable({OrderTest}, z, ORDER.r11);
  }

  lemma SlowBlamed(q: seq<Expected>, bs: seq<Block>, plan: seq<Segment>, z: Time, id: LabelSet)
    requires Table(q, bs) && Conforms(bs, plan) && plan == SlowPlan(z) && bs[0].from == z + 300 * SECOND
    requires id == bs[0].alert.labels
    ensures 1 <= |AllNotes(bs, plan)| && Dirty(Run(Fresh(q), id, RunOf(bs, plan, 1)))
  {
    SlowLate(bs, plan, z);
    BlamedAt(q, bs, plan, 0);
  }

  function SlowPlan(z: Time): seq<Segment> {
    OncePlan(z + 339 * SECOND, z + 1119 * SECOND)
  }

  lemma SlowLate(bs: seq<Block>, plan: seq<Segment>, z: Time)
    requires plan == SlowPlan(z) && Conforms(bs, plan) && bs[0].from == z + 300 * SECOND
    ensures 0 < TotalSends(plan, |plan|) == |AllNotes(bs, plan)| && !InTime(bs, plan, false, AllNotes(bs, plan), 0)
  {
    assert TotalSends(plan, 2) == TotalSends(plan, 1) + RESOLVED_SENDS;
    RunIsOnSchedule(bs, plan, 1);
    NotesToAt(bs, plan, false, SECOND, TotalSends(plan, |plan|), 0);
    LinkedAt(bs, plan, |bs|, 0);
  }

  /** Samples that take one second, evaluated two seconds into the grid. */
  lemma FastTiming(z: Time)
    ensures var t := Late(2 * SECOND, ORDER_SAMPLE_COUNT, SECOND);
      && t.Prompt() && FirstToSee(t, 8, 4) && FirstToSee(t, 73, 37)
      && FastPlan(z) == OncePlan(z + t.Instant(4) + At(0, 12), z + t.Instant(37))
  {
    LatePrompt(2 * SECOND, ORDER_SAMPLE_COUNT, SECOND);
  }

  lemma FastConforms(z: Time)
    requires ZERO_TIME <= z
    ensures Conforms(R11Blocks(ORDER, z), FastPlan(z))
  {
    FastTiming(z);
    R11Schedule(z, Late(2 * SECOND, ORDER_SAMPLE_COUNT, SECOND), 4, 37);
  }

  /** When the test of the case is over nineteen notifications of their sender have arrived, and its
      records are clean. */
  lemma FastIsClean(z: Time)
    requires ZERO_TIME <= z
    ensures var notes := AllNotes(R11Blocks(ORDER, z), FastPlan(z));
      19 <= |notes| && notes[18].now <= TestUntil(OrderTest, z) && AllArrived(notes, 19, TestUntil(OrderTest, z))
    ensures Clean(Run(Fresh(SuiteQueue({OrderTest}, z, ORDER.r11)), ORDER.r11,
                      RunOf(R11Blocks(ORDER, z), FastPlan(z), 19)))
  {
    FastConforms(z);
    R11TableOf(z);
    FastArrived(R11Blocks(ORDER, z), z);
    FastClean(SuiteQueue({OrderTest}, z, ORDER.r11), R11Blocks(ORDER, z), FastPlan(z), z, ORDER.r11);
  }

  lemma FastArrived(bs: seq<Block>, z: Time)
    ensures var notes := AllNotes(bs, FastPlan(z));
      && |notes| == 29 && notes[18].now <= TestUntil(OrderTest, z)
      && AllArrived(notes, 19, TestUntil(OrderTest, z)) && notes[18].seg == 1
  {
    var plan, notes := FastPlan(z), AllNotes(bs, FastPlan(z));
    FastSends(z);
    NotesToAt(bs, plan, false, SECOND, 29, 0);
    forall i | 18 <= i < 29 ensures notes[i].seg == 1 && notes[i].now == z + (1113 + 60 * (i - 14)) * SECOND {
      FastNote(bs, z, i);
    }
  }

  lemma FastNote(bs: seq<Block>, z: Time, i: nat)
    requires 14 <= i < 29
    ensures var notes := AllNotes(bs, FastPlan(z));
      |notes| == 29 && notes[i].seg == 1 && notes[i].now == z + (1113 + 60 * (i - 14)) * SECOND
  {
    var plan := FastPlan(z);
    FastSends(z);
    NotesToAt(bs, plan, false, SECOND, 29, i);
    assert TotalSends(plan, 1) == 14;
    PlaceIs(plan, 1, i - 14);
  }

  lemma FastClean(q: seq<Expected>, bs: seq<Block>, plan: seq<Segment>, z: Time, id: LabelSet)
    requires Table(q, bs) && plan == FastPlan(z) && Conforms(bs, plan) && |bs| == 2 && id == bs[0].alert.labels
    requires bs[0].from == z + 300 * SECOND && bs[0].until == bs[0].nextState == bs[1].from == z + 1095 * SECOND
    requires bs[1].until == bs[1].from + RESOLVED_LIMIT
    ensures |AllNotes(bs, plan)| == 29 && Clean(Run(Fresh(q), id, RunOf(bs, plan, 19)))
  {
    var notes := AllNotes(bs, plan);
    FastSends(z);
    FastArrived(bs, z);
    RunIsOnSchedule(bs, plan, 19);
    SendsPositive(bs, plan);
    ShapeOf(bs, plan, 0);
    ShapeOf(bs, plan, 1);
    forall i: nat | i < 2 ensures SegmentInTime(bs, plan, SECOND, i) {
      FastSegments(bs, z, i);
    }
    forall k | 0 <= k < 19 ensures InTime(bs, plan, false, notes, k) {
      UniformInTime(bs, plan, SECOND, notes, k);
    }
    CleanExactly(q, bs, plan, false, notes, id, RunOf(bs, plan, 19));
  }

  function FastPlan(z: Time): seq<Segment> {
    OncePlan(z + 302 * SECOND, z + 1112 * SECOND)
  }

  lemma FastSends(z: Time)
    ensures FastPlan(z) == [Segment(z + 302 * SECOND, 14, z + 302 * SECOND),
                            Segment(z + 1112 * SECOND, RESOLVED_SENDS, z + 302 * SECOND)]
    ensures TotalSends(FastPlan(z), 2) == 29
  {
    SendsUntilIs(z + 302 * SECOND, z + 1112 * SECOND);
    assert TotalSends(FastPlan(z), 2) == TotalSends(FastPlan(z), 1) + RESOLVED_SENDS;
  }

  lemma FastSegments(bs: seq<Block>, z: Time, i: nat)
    requires |bs| == 2 && !bs[0].resolved && !bs[0].firstResend && bs[1].resolved && i < 2
    requires bs[0].from == z + 300 * SECOND && bs[0].until == bs[0].nextState == bs[1].from == z + 1095 * SECOND
    requires bs[1].until == bs[1].from + RESOLVED_LIMIT
    ensures SegmentInTime(bs, FastPlan(z), SECOND, i)
  {
    FastSends(z);
    CountIs(bs[0], 13);
    CountIs(bs[0], 14);
    CountOfLimit(bs[1]);
  }

  /** A value that changes while the alert fires: its new sample arrives just after an evaluation at which
      the alert is sent once more with the old annotations. */
  lemma ChangeTiming(z: Time)
    ensures var t := Late(20 * SECOND, PFR_SAMPLE_COUNT, 10 * SECOND);
      && t.Prompt() && FirstToSee(t, 8, 4) && FirstToSee(t, 53, 27) && FirstToSee(t, 69, 35)
      && FirstToSee(t, 89, 45) && FirstToSee(t, 134, 67) && ChangePlan(z) == PfrPlan(z, t, 4, 27, 35, 45, 67)
  {
    LatePrompt(20 * SECOND, PFR_SAMPLE_COUNT, 10 * SECOND);
  }

  lemma ChangeConforms(z: Time)
    requires ZERO_TIME <= z
    ensures Conforms(PfrBlocks(PFR, z), ChangePlan(z))
  {
    ChangeTiming(z);
    PfrSchedule(z, Late(20 * SECOND, PFR_SAMPLE_COUNT, 10 * SECOND), 4, 27, 35, 45, 67);
  }

  /** The firing expectations for the old annotations were rescheduled past their next state: the sender is
      blamed with its sixth notification. */
  lemma ChangeIsBlamed(z: Time)
    requires ZERO_TIME <= z
    ensures 6 <= |AllNotes(PfrBlocks(PFR, z), ChangePlan(z))|
    ensures Dirty(Run(Fresh(SuiteQueue({PfrTest}, z, PFR.labels)), PFR.labels,
                      RunOf(PfrBlocks(PFR, z), ChangePlan(z), 6)))
  {
    ChangeConforms(z);
    PfrTableOf(z);
    ChangeBlamed(SuiteQueue({PfrTest}, z, PFR.labels), PfrBlocks(PFR, z), ChangePlan(z), z, PFR.labels);
  }

  lemma PfrTableOf(z: Time)
    requires ZERO_TIME <= z
    ensures var b := PfrBlocks(PFR, z);
      && Table(SuiteQueue({PfrTest}, z, PFR.labels), b) && b[0].alert.labels == PFR.labels
      && b[0].nextState == z + 795 * SECOND && !b[0].resolved
  {
    OwnerIs(PfrTest, PFR.labels);
    BlocksAre(z);
    SuiteTable({PfrTest}, z, PFR.labels);
  }

  lemma ChangeBlamed(q: seq<Expected>, bs: seq<Block>, plan: seq<Segment>, z: Time, id: LabelSet)
    requires Table(q, bs) && Conforms(bs, plan) && plan == ChangePlan(z) && id == bs[0].alert.labels
    requires bs[0].nextState == z + 795 * SECOND && !bs[0].resolved
    ensures 6 <= |AllNotes(bs, plan)| && Dirty(Run(Fresh(q), id, RunOf(bs, plan, 6)))
  {
    ChangeLate(bs, plan, z);
    BlamedAt(q, bs, plan, 5);
  }

  function ChangePlan(z: Time): seq<Segment> {
    ChangingPlan(z + 500 * SECOND, z + 830 * SECOND, z + 1070 * SECOND, z + 1370 * SECOND, z + 1730 * SECOND,
                 z + 2030 * SECOND)
  }

  lemma ChangeLate(bs: seq<Block>, plan: seq<Segment>, z: Time)
    requires plan == ChangePlan(z) && Conforms(bs, plan) && bs[0].nextState == z + 795 * SECOND && !bs[0].resolved
    ensures 6 <= TotalSends(plan, |plan|) == |AllNotes(bs, plan)| && !InTime(bs, plan, false, AllNotes(bs, plan), 5)
  {
    var total := TotalSends(plan, |plan|);
    SendsUntilIs(z + 500 * SECOND, z + 830 * SECOND);
    assert SegmentAt(plan, 0).sends == 6;
    TotalGrows(plan, 1, |plan|);
    SendsPositive(bs, plan);
    PlaceIs(plan, 0, 4);
    PlaceIs(plan, 0, 5);
    NotesToAt(bs, plan, false, SECOND, total, 4);
    NotesToAt(bs, plan, false, SECOND, total, 5);
  }

  lemma {:induction false} TotalGrows(plan: seq<Segment>, i: nat, j: nat)
    requires i <= j
    ensures TotalSends(plan, i) <= TotalSends(plan, j)
  {
    if i == j {
    } else {
      TotalGrows(plan, i, j - 1);
    }
  }

  // ---- a generator that gets a "yes"

  /** Samples of the case that changes its value, which take one second, evaluated two seconds into the grid. */
  lemma QuickTiming(z: Time)
    ensures var t := Late(2 * SECOND, PFR_SAMPLE_COUNT, SECOND);
      && t.Prompt() && FirstToSee(t, 8, 4) && FirstToSee(t, 53, 27) && FirstToSee(t, 69, 35)
      && FirstToSee(t, 89, 45) && FirstToSee(t, 134, 67) && QuickPlan(z) == PfrPlan(z, t, 4, 27, 35, 45, 67)
  {
    LatePrompt(2 * SECOND, PFR_SAMPLE_COUNT, SECOND);
  }

  function QuickPlan(z: Time): seq<Segment> {
    ChangingPlan(z + 482 * SECOND, z + 812 * SECOND, z + 1052 * SECOND, z + 1352 * SECOND, z + 1712 * SECOND,
                 z + 2012 * SECOND)
  }

  lemma QuickConforms(z: Time)
    requires ZERO_TIME <= z
    ensures Conforms(PfrBlocks(PFR, z), QuickPlan(z))
  {
    QuickTiming(z);
    PfrSchedule(z, Late(2 * SECOND, PFR_SAMPLE_COUNT, SECOND), 4, 27, 35, 45, 67);
  }

  lemma QuickSends(z: Time)
    ensures QuickPlan(z) == [
      Segment(z + 482 * SECOND, 6, z + 482 * SECOND), Segment(z + 842 * SECOND, 4, z + 482 * SECOND),
      Segment(z + 1052 * SECOND, 5, z + 482 * SECOND), Segment(z + 1712 * SECOND, 5, z + 1712 * SECOND),
      Segment(z + 2012 * SECOND, RESOLVED_SENDS, z + 1712 * SECOND)]
  {
    SendsUntilIs(z + 482 * SECOND, z + 812 * SECOND);
    SendsUntilIs(z + 842 * SECOND, z + 1052 * SECOND);
    SendsUntilIs(z + 1052 * SECOND, z + 1352 * SECOND);
    SendsUntilIs(z + 1712 * SECOND, z + 2012 * SECOND);
  }

  lemma QuickTotal(z: Time)
    ensures TotalSends(QuickPlan(z), 4) == 20 && TotalSends(QuickPlan(z), |QuickPlan(z)|) == 35
  {
    var plan := QuickPlan(z);
    QuickSends(z);
    assert TotalSends(plan, 1) == 6;
    assert TotalSends(plan, 2) == 10;
    assert TotalSends(plan, 3) == 15;
    assert TotalSends(plan, 4) == 20;
    assert TotalSends(plan, 5) == 35;
  }

  lemma QuickSegments(bs: seq<Block>, z: Time, i: nat)
    requires ChangingShape(bs, z) && i < 5 && bs[0].nextState == bs[1].from
    ensures SegmentInTime(bs, QuickPlan(z), SECOND, i)
  {
    QuickSends(z);
    CountIs(bs[i], QuickPlan(z)[i].sends - 1);
    CountIs(bs[i], QuickPlan(z)[i].sends);
  }

  lemma QuickNote(bs: seq<Block>, z: Time, i: nat)
    requires 20 <= i < 35
    ensures var notes := AllNotes(bs, QuickPlan(z));
      |notes| == 35 && notes[i].seg == 4 && notes[i].now == z + (2013 + 60 * (i - 20)) * SECOND
  {
    var plan := QuickPlan(z);
    QuickSends(z);
    QuickTotal(z);
    NotesToAt(bs, plan, false, SECOND, 35, i);
    PlaceIs(plan, 4, i - 20);
  }

  /** Twenty-four of its notifications arrive before the test of the case is over. */
  lemma QuickArrived(bs: seq<Block>, z: Time)
    ensures var notes := AllNotes(bs, QuickPlan(z));
      |notes| == 35 && notes[23].now <= TestUntil(PfrTest, z) && AllArrived(notes, 24, TestUntil(PfrTest, z))
  {
    var notes := AllNotes(bs, QuickPlan(z));
    QuickNote(bs, z, 20);
    forall i | 20 <= i < 35 ensures notes[i].now == z + (2013 + 60 * (i - 20)) * SECOND {
      QuickNote(bs, z, i);
    }
  }

  lemma QuickInTime(bs: seq<Block>, z: Time)
    requires ChangingShape(bs, z) && bs[0].nextState == bs[1].from && Conforms(bs, QuickPlan(z))
    ensures |AllNotes(bs, QuickPlan(z))| == 35 && AllInTime(bs, QuickPlan(z), false, AllNotes(bs, QuickPlan(z)), 24)
  {
    var plan, notes := QuickPlan(z), AllNotes(bs, QuickPlan(z));
    QuickTotal(z);
    QuickNote(bs, z, 20);
    SendsPositive(bs, plan);
    forall i: nat | i < 5 ensures SegmentInTime(bs, plan, SECOND, i) {
      QuickSegments(bs, z, i);
    }
    forall k | 0 <= k < 24 ensures InTime(bs, plan, false, notes, k) {
      UniformInTime(bs, plan, SECOND, notes, k);
    }
  }

  lemma {:induction false} NothingForOthers(notes: seq<Note>, n: nat, id: LabelSet, other: LabelSet)
    requires n <= |notes| && id != other && forall k :: 0 <= k < n ==> notes[k].alert.labels == id
    ensures Deliveries(other, RequestsTo(notes, n)) == 0
  {
    if n == 0 {
    } else {
      NothingForOthers(notes, n - 1, id, other);
      var events, e := RequestsTo(notes, n), Request(notes[n - 1].now, [notes[n - 1].alert]);
      assert events[..|events| - 1] == RequestsTo(notes, n - 1) && events[|events| - 1] == e;
      assert AlertsOf(e.batch, other) == [];
    }
  }

  lemma OnlyPfrIsSent()
    ensures SentLabels({PfrTest}) == {PFR.labels}
  {
    OwnerIs(PfrTest, PFR.labels);
    forall id | id in SentLabels({PfrTest}) ensures id == PFR.labels {
      assert OwnerOf(id) == PfrTest;
    }
  }

  function QuickRun(z: Time): seq<Event>
    requires |AllNotes(PfrBlocks(PFR, z), QuickPlan(z))| == 35
  {
    RunOf(PfrBlocks(PFR, z), QuickPlan(z), 24)
  }

  lemma QuickOthers(bs: seq<Block>, z: Time, id: LabelSet)
    requires Conforms(bs, QuickPlan(z)) && id == Nth(bs, 0).alert.labels
    ensures |AllNotes(bs, QuickPlan(z))| == 35
    ensures forall other :: other != id ==> Deliveries(other, RunOf(bs, QuickPlan(z), 24)) == 0
  {
    var plan, notes := QuickPlan(z), AllNotes(bs, QuickPlan(z));
    QuickTotal(z);
    RunIsOnSchedule(bs, plan, 24);
    forall k | 0 <= k < 24 ensures notes[k].alert.labels == id {
      NoteAt(bs, plan, false, notes, |notes|, k);
      SameLabels(bs, plan, notes[k].seg);
    }
    forall other | other != id ensures Deliveries(other, RunOf(bs, plan, 24)) == 0 {
      NothingForOthers(notes, 24, id, other);
    }
  }

  /** A suite that runs one case with one sender. */
  lemma LoneSenderGetsYes(tests: map<string, int>, c: Case, z: Time, id: LabelSet, x: Sending, events: seq<Event>,
                          acts: seq<Act>)
    requires ZERO_TIME <= z && SentLabels({c}) == {id} && Generates({c}, z, map[id := x], events)
    requires forall other :: other != id ==> Deliveries(other, events) == 0
    requires AllArrived(x.notes, Deliveries(id, events), TestUntil(c, z)) && Punctually(z, id, x, events)
    requires StoppedBy(tests, acts) && NeverFails(tests, Decisions(acts))
    ensures Successful(tests, {c}, z, events, acts)
  {
    ConformingGetsYes(tests, {c}, z, map[id := x], events, acts, TestUntil(c, z));
  }

  lemma LoneGenerates(c: Case, z: Time, id: LabelSet, x: Sending, events: seq<Event>)
    requires SentLabels({c}) == {id} && Conforms(BlocksOf(id, z), x.plan)
    requires KeepsTo(BlocksOf(id, z), x.plan, false, x.notes) && OnSchedule(x.notes, id, events)
    requires Deliveries(id, events) <= |x.notes|
    ensures Generates({c}, z, map[id := x], events)
  {
  }

  lemma QuickGenerates(bs: seq<Block>, z: Time, id: LabelSet)
    requires ZERO_TIME <= z && SentLabels({PfrTest}) == {id} && bs == BlocksOf(id, z)
    requires Conforms(bs, QuickPlan(z)) && id == Nth(bs, 0).alert.labels
    ensures |AllNotes(bs, QuickPlan(z))| == 35
    ensures var events := RunOf(bs, QuickPlan(z), 24);
      && Generates({PfrTest}, z, map[id := Sending(QuickPlan(z), AllNotes(bs, QuickPlan(z)))], events)
      && Deliveries(id, events) == 24
  {
    QuickTotal(z);
    RunIsOnSchedule(bs, QuickPlan(z), 24);
    LoneGenerates(PfrTest, z, id, Sending(QuickPlan(z), AllNotes(bs, QuickPlan(z))), RunOf(bs, QuickPlan(z), 24));
  }

  lemma QuickSuccess(bs: seq<Block>, z: Time, id: LabelSet, tests: map<string, int>, acts: seq<Act>)
    requires ZERO_TIME <= z && SentLabels({PfrTest}) == {id} && bs == BlocksOf(id, z)
    requires Conforms(bs, QuickPlan(z)) && id == Nth(bs, 0).alert.labels
    requires ChangingShape(bs, z) && bs[0].nextState == bs[1].from
    requires StoppedBy(tests, acts) && NeverFails(tests, Decisions(acts))
    ensures |AllNotes(bs, QuickPlan(z))| == 35
    ensures Successful(tests, {PfrTest}, z, RunOf(bs, QuickPlan(z), 24), acts)
  {
    QuickGenerates(bs, z, id);
    QuickOthers(bs, z, id);
    QuickArrived(bs, z);
    QuickInTime(bs, z);
    LoneSenderGetsYes(tests, PfrTest, z, id, Sending(QuickPlan(z), AllNotes(bs, QuickPlan(z))),
                      RunOf(bs, QuickPlan(z), 24), acts);
  }

  /** A conforming generator gets a "yes": at the end of the test of its case, when a loop has found the
      group over and another finds none left. */
  lemma QuickGetsYes(z: Time, testUntil: int)
    requires ZERO_TIME <= z
    ensures var notes := AllNotes(PfrBlocks(PFR, z), QuickPlan(z));
      |notes| == 35 && notes[23].now <= TestUntil(PfrTest, z) && AllArrived(notes, 24, TestUntil(PfrTest, z))
    ensures var tests, acts := map[PFR_GROUP := testUntil], [Removal(map[PFR_GROUP := Finished]), Look];
      Successful(tests, {PfrTest}, z, QuickRun(z), acts)
  {
    var tests, acts := map[PFR_GROUP := testUntil], [Removal(map[PFR_GROUP := Finished]), Look];
    QuickConforms(z);
    PfrAnnotationsDiffer();
    PfrShape(PFR, z);
    BlocksAre(z);
    OnlyPfrIsSent();
    GroupIsOver(tests, acts);
    QuickArrived(PfrBlocks(PFR, z), z);
    QuickSuccess(PfrBlocks(PFR, z), z, PFR.labels, tests, acts);
  }

  lemma GroupIsOver(tests: map<string, int>, acts: seq<Act>)
    requires tests.Keys == {PFR_GROUP} && acts == [Removal(map[PFR_GROUP := Finished]), Look]
    ensures StoppedBy(tests, acts) && NeverFails(tests, Decisions(acts))
  {
    var d: Decision := map[PFR_GROUP := Finished];
    assert acts[..1] == [Removal(d)] && acts[..1][..0] == [];
    assert Decisions([]) == [];
    assert Decisions(acts[..1]) == [d];
    assert Decisions(acts) == [d];
    assert [d][..0] == [];
    assert FirstDecision([], PFR_GROUP) == Status.Active;
    assert PFR_GROUP in [d][0] && Decided([d], PFR_GROUP);
    OverExactly(tests, [d]);
  }
}
