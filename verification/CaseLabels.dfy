/** The label sets, annotations and intervals of the test cases (cases/case_*.go). */
module CaseLabels {
  import opened Labels

  const PFR_GROUP: string := "PendingAndFiringAndResolved"
  const PFR_LABELS: LabelSet := [
    Label("alertname", "PendingAndFiringAndResolved_SimpleAlert"), Label("foo", "bar"), Label("rulegroup", PFR_GROUP)]

  const ORDER_GROUP: string := "NewAlerts_OrderCheck"
  const R11_LABELS: LabelSet := [
    Label("alertname", "NewAlerts_OrderCheck_Rule1"), Label("foo", "bar"), Label("rulegroup", ORDER_GROUP),
    Label("variant", "one")]
  const R12_LABELS: LabelSet := [
    Label("alertname", "NewAlerts_OrderCheck_Rule1"), Label("foo", "bar"), Label("rulegroup", ORDER_GROUP),
    Label("variant", "two")]
  const R2_LABELS: LabelSet := [
    Label("alertname", "NewAlerts_OrderCheck_Rule2"), Label("alertstate", "firing"), Label("ba_dum", "tss"),
    Label("foo", "baz"), Label("rulegroup", ORDER_GROUP)]

  const ZERO_GROUP: string := "ZeroFor_SmallFor"
  const ZF_LABELS: LabelSet := [
    Label("alertname", "ZeroFor_SmallFor_ZeroFor"), Label("foo", "bar"), Label("rulegroup", ZERO_GROUP)]
  const SF_LABELS: LabelSet := [
    Label("alertname", "ZeroFor_SmallFor_SmallFor"), Label("ba_dum", "tss"), Label("rulegroup", ZERO_GROUP)]

  const PR_GROUP: string := "PendingAndResolved_AlwaysInactive"
  const R1_ANNOTATIONS: LabelSet := [Label("description", "This should produce more alerts later")]
  const R2_ANNOTATIONS: LabelSet := [
    Label("description", "Based on ALERTS. Old alertname was NewAlerts_OrderCheck_Rule1. foo was bar.")]
  const SF_ANNOTATIONS: LabelSet := [
    Label("description", "This should fire after an interval"),
    Label("template_test", "This Part IS TESTING the strings. ::1 127.0.0.1. 7815. replaced text. .")]

  function PfrAnnotations(summary: string): LabelSet {
    [Label("description", "SimpleAlert is firing"), Label("summary", summary)]
  }

  function ZfAnnotations(query: string): LabelSet {
    [Label("description", "This should immediately fire"),
     Label("template_query_test", query),
     Label("template_test", "1.049M 1Mi 2m 15s 95.9% 2022-01-25 12:36:43 +0000 UTC")]
  }

  const ZF_QUERY: string := "Args are: foo bar 99. first_id:101,101:1,102:2,103:3,"
  const ZF_QUERY_AGAIN: string := "Args are: foo bar 99. first_id:101,101:2,102:4,103:6,"

  /** The fields of the test cases, as their constructors set them. */
  datatype PfrCase = PfrCase(labels: LabelSet, eleven: LabelSet, fifteen: LabelSet, nineteen: LabelSet)
  datatype OrderCase = OrderCase(r11: LabelSet, r12: LabelSet, r2: LabelSet, r1Annotations: LabelSet,
                                 r2Annotations: LabelSet)
  {
    predicate Distinct() {
      r11 != r12 && r11 != r2 && r12 != r2
    }
  }
  datatype ZeroCase = ZeroCase(zf: LabelSet, sf: LabelSet, zfAnnotations: LabelSet, zfAnnotationsAgain: LabelSet,
                               sfAnnotations: LabelSet)
  {
    predicate Distinct() {
      zf != sf
    }
  }
  datatype PrCase = PrCase(labels: LabelSet, annotations: LabelSet)

  const PFR: PfrCase := PfrCase(PFR_LABELS, PfrAnnotations("The value is 11 11"),
                                PfrAnnotations("The value is 15 15"), PfrAnnotations("The value is 19 19"))
  const ORDER: OrderCase := OrderCase(R11_LABELS, R12_LABELS, R2_LABELS, R1_ANNOTATIONS, R2_ANNOTATIONS)
  const ZERO: ZeroCase := ZeroCase(ZF_LABELS, SF_LABELS, ZfAnnotations(ZF_QUERY), ZfAnnotations(ZF_QUERY_AGAIN),
                                   SF_ANNOTATIONS)

  lemma OrderDistinct()
    ensures ORDER.Distinct()
  {
    assert R11_LABELS[3].value[0] != R12_LABELS[3].value[0];
    assert |R11_LABELS| == |R12_LABELS| == 4 && |R2_LABELS| == 5;
  }

  lemma ZeroDistinct()
    ensures ZERO.Distinct()
  {
    assert ZF_LABELS[1].name[0] != SF_LABELS[1].name[0];
  }

  /** The label sets of different groups are told apart by their `rulegroup` label. */
  lemma GroupsDiffer()
    ensures PFR.labels !in {ZERO.zf, ZERO.sf, ORDER.r11, ORDER.r12, ORDER.r2}
    ensures {ZERO.zf, ZERO.sf} !! {ORDER.r11, ORDER.r12, ORDER.r2}
  {
    assert |PFR_LABELS| == |ZF_LABELS| == |SF_LABELS| == 3;
    assert |R11_LABELS| == |R12_LABELS| == 4 && |R2_LABELS| == 5;
    assert |PFR_LABELS[2].value| == 27 && |ZF_LABELS[2].value| == |SF_LABELS[2].value| == 16;
  }
}
