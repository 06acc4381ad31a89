/** The tables of expected alerts row by row, in plain numbers and words (`ExpectedAlerts` in cases/case_*.go),
    and where their annotations come from (the annotation templates in `RuleGroup` of the same files). */
module CaseRows {
  import opened Labels
  import opened CaseLabels
  import opened ExpectedAlert
  import opened CaseTables
  import opened NotificationRuns
  import opened Sender

  /** A row; all times are seconds after the zero time, and `next` is 0 when there is no next state. */
  function Plain(z: Time, id: int, at: int, tolerance: int, next: int, resolved: bool, resend: bool, end: int,
                 start: int, labels: LabelSet, annotations: LabelSet): Expected
  {
    Expected(id, tolerance * 1_000_000_000, z + at * 1_000_000_000, if next == 0 then 0 else z + next * 1_000_000_000,
             resolved, resend, z + end * 1_000_000_000, 240_000_000_000,
             Alert(labels, annotations, z + start * 1_000_000_000, 0, NoURL))
  }

  lemma {:induction false} ChainIDs(bs: seq<Block>, firstID: int, stride: nat, k: nat)
    requires k < |Chain(bs, firstID, stride)|
    ensures Chain(bs, firstID, stride)[k].orderingID == firstID + k * stride
    decreases |bs|
  {
    var n := Count(bs[0]);
    RowsAt(bs[0], firstID, stride, n);
    if k >= n {
      ChainIDs(bs[1..], firstID + n * stride, stride, k - n);
      assert (k - n) * stride + n * stride == k * stride;
    }
  }

  /** The `j`-th row of the `i`-th block. */
  lemma ChainAt(bs: seq<Block>, firstID: int, i: nat, j: nat)
    requires i < |bs| && j < Count(Nth(bs, i))
    ensures var q, k := Chain(bs, firstID, 1), Offset(bs, i) + j;
      k < |q| && q[k] == Row(Nth(bs, i), j, firstID + k)
  {
    var q, o := Chain(bs, firstID, 1), Offset(bs, i);
    ChainRows(bs, firstID, 1, i);
    RowIn(q, o, Nth(bs, i), j);
    ChainIDs(bs, firstID, 1, o + j);
  }

  lemma RowIn(q: seq<Expected>, o: nat, b: Block, j: nat)
    requires RowsAtOffset(q, o, b) && j < Count(b)
    ensures o + j < |q| && q[o + j] == Row(b, j, q[o + j].orderingID)
  {
  }

  /** How many rows a block has when they span this many seconds. */
  lemma RowCount(b: Block, seconds: nat, n: nat)
    requires b.until == b.from + seconds * SECOND && 60 * n < seconds + 60 <= 60 * n + 60
    ensures Count(b) == n
  {
    CountIs(b, n);
    if n > 0 {
      CountIs(b, n - 1);
    }
  }

  // ---- PendingAndFiringAndResolved

  /** The annotations of this case with the given summary. */
  function Summary(summary: string): LabelSet {
    [Label("description", "SimpleAlert is firing"), Label("summary", summary)]
  }

  lemma PfrOffsets(tc: PfrCase, z: Time)
    ensures var bs := PfrBlocks(tc, z);
      && Count(bs[0]) == 6 && Count(bs[1]) == 4 && Count(bs[2]) == 5 && Count(bs[3]) == 6 && Count(bs[4]) == 15
      && Offset(bs, 0) == 0 && Offset(bs, 1) == 6 && Offset(bs, 2) == 10 && Offset(bs, 3) == 15 && Offset(bs, 4) == 21
      && Offset(bs, 5) == 36
  {
    var bs := PfrBlocks(tc, z);
    RowCount(bs[0], 315, 6);
    RowCount(bs[1], 240, 4);
    RowCount(bs[2], 300, 5);
    RowCount(bs[3], 315, 6);
    RowCount(bs[4], 900, 15);
    assert Offset(bs, 1) == 6;
    assert Offset(bs, 2) == 10;
    assert Offset(bs, 3) == 15;
    assert Offset(bs, 4) == 21;
  }

  /** The alert fires with the value 15, then 19, resolves, and does so again with 15. */
  function PfrRow(z: Time, k: nat): Expected {
    var labels := [Label("alertname", "PendingAndFiringAndResolved_SimpleAlert"), Label("foo", "bar"),
                   Label("rulegroup", "PendingAndFiringAndResolved")];
    if k < 6 then
      Plain(z, k + 1, 480 + 60 * k, 30, 795, false, k > 0, 1035, 480, labels, Summary("The value is 15 15"))
    else if k < 10 then
      Plain(z, k + 1, 795 + 60 * (k - 6), 30, 1035, false, true, 1035, 480, labels, Summary("The value is 19 19"))
    else if k < 15 then
      Plain(z, k + 1, 1035 + 60 * (k - 10), if k == 10 then 60 else 30, 1335, true, k > 10, 1035, 480, labels,
            Summary("The value is 19 19"))
    else if k < 21 then
      Plain(z, k + 1, 1695 + 60 * (k - 15), 30, 2010, false, k > 15, 2010, 1695, labels, Summary("The value is 15 15"))
    else
      Plain(z, k + 1, 2010 + 60 * (k - 21), if k == 21 then 60 else 30, 0, true, k > 21, 2010, 1695, labels,
            Summary("The value is 15 15"))
  }

  /** Every row of the table. */
  lemma PfrRows(z: Time, k: nat)
    requires k < 36
    ensures |PfrTable(PFR, z)| == 36 && PfrTable(PFR, z)[k] == PfrRow(z, k)
  {
    var bs := PfrBlocks(PFR, z);
    PfrOffsets(PFR, z);
    ChainLength(bs, 1, 1);
    if k < 6 {
      ChainAt(bs, 1, 0, k);
    } else if k < 10 {
      ChainAt(bs, 1, 1, k - 6);
    } else if k < 15 {
      ChainAt(bs, 1, 2, k - 10);
    } else if k < 21 {
      ChainAt(bs, 1, 3, k - 15);
    } else {
      ChainAt(bs, 1, 4, k - 21);
    }
  }

  // ---- ZeroFor_SmallFor

  /** The annotations of the first rule, with what its query template expands to. */
  function QueryText(text: string): LabelSet {
    [Label("description", "This should immediately fire"), Label("template_query_test", text),
     Label("template_test", "1.049M 1Mi 2m 15s 95.9% 2022-01-25 12:36:43 +0000 UTC")]
  }

  lemma ZfOffsets(tc: ZeroCase, z: Time)
    ensures var bs := ZfBlocks(tc, z);
      && Count(bs[0]) == 4 && Count(bs[1]) == 15 && Count(bs[2]) == 4 && Count(bs[3]) == 15
      && Offset(bs, 0) == 0 && Offset(bs, 1) == 4 && Offset(bs, 2) == 19 && Offset(bs, 3) == 23 && Offset(bs, 4) == 38
  {
    var bs := ZfBlocks(tc, z);
    RowCount(bs[0], 195, 4);
    RowCount(bs[1], 900, 15);
    RowCount(bs[2], 195, 4);
    RowCount(bs[3], 900, 15);
    assert Offset(bs, 1) == 4;
    assert Offset(bs, 2) == 19;
    assert Offset(bs, 3) == 23;
  }

  lemma SfOffsets(tc: ZeroCase, z: Time)
    ensures var bs := SfBlocks(tc, z);
      Count(bs[0]) == 3 && Count(bs[1]) == 15 && Offset(bs, 0) == 0 && Offset(bs, 1) == 3 && Offset(bs, 2) == 18
  {
    var bs := SfBlocks(tc, z);
    RowCount(bs[0], 165, 3);
    RowCount(bs[1], 900, 15);
    assert Offset(bs, 1) == 3;
  }

  /** The rows of the first rule, which fires twice. */
  function ZfRow(z: Time, k: nat): Expected {
    var labels := [Label("alertname", "ZeroFor_SmallFor_ZeroFor"), Label("foo", "bar"),
                   Label("rulegroup", "ZeroFor_SmallFor")];
    var first := QueryText("Args are: foo bar 99. first_id:101,101:1,102:2,103:3,");
    var again := QueryText("Args are: foo bar 99. first_id:101,101:2,102:4,103:6,");
    if k < 4 then Plain(z, k + 1, 120 + 60 * k, 30, 315, false, k > 0, 315, 120, labels, first)
    else if k < 19 then
      Plain(z, k + 1, 315 + 60 * (k - 4), if k == 4 then 60 else 30, 1395, true, k > 4, 315, 120, labels, first)
    else if k < 23 then Plain(z, k + 1, 1395 + 60 * (k - 19), 30, 1590, false, k > 19, 1590, 1395, labels, again)
    else Plain(z, k + 1, 1590 + 60 * (k - 23), if k == 23 then 60 else 30, 0, true, k > 23, 1590, 1395, labels, again)
  }

  /** The rows of the second rule, numbered on. */
  function SfRow(z: Time, k: nat): Expected {
    var labels := [Label("alertname", "ZeroFor_SmallFor_SmallFor"), Label("ba_dum", "tss"),
                   Label("rulegroup", "ZeroFor_SmallFor")];
    var annotations := [
      Label("description", "This should fire after an interval"),
      Label("template_test", "This Part IS TESTING the strings. ::1 127.0.0.1. 7815. replaced text. .")];
    if k < 3 then Plain(z, k + 39, 150 + 60 * k, 30, 315, false, k > 0, 315, 150, labels, annotations)
    else Plain(z, k + 39, 315 + 60 * (k - 3), if k == 3 then 60 else 30, 0, true, k > 3, 315, 150, labels, annotations)
  }

  lemma ZfRows(z: Time, k: nat)
    requires k < 38
    ensures var q := Chain(ZfBlocks(ZERO, z), 1, 1); |q| == Total(ZfBlocks(ZERO, z)) == 38 && q[k] == ZfRow(z, k)
  {
    var bs := ZfBlocks(ZERO, z);
    ZfOffsets(ZERO, z);
    ChainLength(bs, 1, 1);
    TotalIs(bs);
    if k < 4 {
      ChainAt(bs, 1, 0, k);
    } else if k < 19 {
      ChainAt(bs, 1, 1, k - 4);
    } else if k < 23 {
      ChainAt(bs, 1, 2, k - 19);
    } else {
      ChainAt(bs, 1, 3, k - 23);
    }
  }

  lemma {:induction false} TotalIs(bs: seq<Block>)
    ensures Total(bs) == Offset(bs, |bs|)
  {
    if bs == [] {
    } else {
      TotalIs(bs[1..]);
      OffsetTail(bs, |bs| - 1);
    }
  }

  lemma SfRows(z: Time, k: nat)
    requires k < 18
    ensures var q := Chain(SfBlocks(ZERO, z), 39, 1); |q| == 18 && q[k] == SfRow(z, k)
  {
    var bs := SfBlocks(ZERO, z);
    SfOffsets(ZERO, z);
    ChainLength(bs, 39, 1);
    if k < 3 {
      ChainAt(bs, 39, 0, k);
    } else {
      ChainAt(bs, 39, 1, k - 3);
    }
  }

  /** Every row of the table. */
  lemma ZeroRows(z: Time, k: nat)
    requires k < 56
    ensures |ZeroTable(ZERO, z)| == 56
    ensures ZeroTable(ZERO, z)[k] == if k < 38 then ZfRow(z, k) else SfRow(z, k - 38)
  {
    ZfRows(z, if k < 38 then k else 0);
    SfRows(z, if k < 38 then 0 else k - 38);
  }

  // ---- NewAlerts_OrderCheck

  lemma {:induction false} AlternatingAt(a: Block, b: Block, firstID: int, n: nat, k: nat)
    requires k < 2 * n
    ensures |AlternatingTo(a, b, firstID, n)| == 2 * n
    ensures AlternatingTo(a, b, firstID, n)[k] == Row(if k % 2 == 0 then a else b, k / 2, firstID + k)
  {
    if n == 1 {
    } else if k < 2 * n - 2 {
      AlternatingAt(a, b, firstID, n - 1, k);
    } else {
      AlternatingAt(a, b, firstID, n - 1, 0);
    }
  }

  /** The rows of the first variant. */
  function R11Row(z: Time, k: nat): Expected {
    var labels := [Label("alertname", "NewAlerts_OrderCheck_Rule1"), Label("foo", "bar"),
                   Label("rulegroup", "NewAlerts_OrderCheck"), Label("variant", "one")];
    var annotations := [Label("description", "This should produce more alerts later")];
    if k < 14 then Plain(z, k + 1, 300 + 60 * k, 30, 1095, false, k > 0, 1095, 300, labels, annotations)
    else Plain(z, k + 1, 1095 + 60 * (k - 14), if k == 14 then 60 else 30, 0, true, k > 14, 1095, 300, labels,
               annotations)
  }

  /** Those of the second variant and of the second rule, alternating and numbered on. */
  function LaterRow(z: Time, k: nat): Expected {
    var labels :=
      if k % 2 == 0 then [Label("alertname", "NewAlerts_OrderCheck_Rule1"), Label("foo", "bar"),
                          Label("rulegroup", "NewAlerts_OrderCheck"), Label("variant", "two")]
      else [Label("alertname", "NewAlerts_OrderCheck_Rule2"), Label("alertstate", "firing"), Label("ba_dum", "tss"),
            Label("foo", "baz"), Label("rulegroup", "NewAlerts_OrderCheck")];
    var annotations :=
      if k % 2 == 0 then [Label("description", "This should produce more alerts later")]
      else [Label("description", "Based on ALERTS. Old alertname was NewAlerts_OrderCheck_Rule1. foo was bar.")];
    if k < 12 then Plain(z, k + 30, 660 + 60 * (k / 2), 30, 975, false, k > 1, 975, 660, labels, annotations)
    else Plain(z, k + 30, 975 + 60 * ((k - 12) / 2), if k < 14 then 60 else 30, 0, true, k > 13, 975, 660, labels,
               annotations)
  }

  lemma R11Rows(z: Time, k: nat)
    requires k < 29
    ensures var q := Chain(R11Blocks(ORDER, z), 1, 1); |q| == Total(R11Blocks(ORDER, z)) == 29 && q[k] == R11Row(z, k)
  {
    var bs := R11Blocks(ORDER, z);
    RowCount(bs[0], 795, 14);
    RowCount(bs[1], 900, 15);
    assert Offset(bs, 1) == 14;
    ChainLength(bs, 1, 1);
    TotalIs(bs);
    if k < 14 {
      ChainAt(bs, 1, 0, k);
    } else {
      ChainAt(bs, 1, 1, k - 14);
    }
  }

  lemma LaterRows(z: Time, k: nat)
    requires k < 42
    ensures var q := LaterTable(LaterBlocks(ORDER.r12, ORDER.r1Annotations, z),
                                LaterBlocks(ORDER.r2, ORDER.r2Annotations, z), 30);
      |q| == 42 && q[k] == LaterRow(z, k)
  {
    var a, b := LaterBlocks(ORDER.r12, ORDER.r1Annotations, z), LaterBlocks(ORDER.r2, ORDER.r2Annotations, z);
    RowCount(a[0], 315, 6);
    RowCount(a[1], 900, 15);
    AlternatingAt(a[0], b[0], 30, 6, if k < 12 then k else 0);
    AlternatingAt(a[1], b[1], 42, 15, if k < 12 then 0 else k - 12);
  }

  /** Every row of the table. */
  lemma OrderRows(z: Time, k: nat)
    requires k < 71
    ensures |OrderTable(ORDER, z)| == 71
    ensures OrderTable(ORDER, z)[k] == if k < 29 then R11Row(z, k) else LaterRow(z, k - 29)
  {
    R11Rows(z, if k < 29 then k else 0);
    LaterRows(z, if k < 29 then 0 else k - 29);
  }
}
