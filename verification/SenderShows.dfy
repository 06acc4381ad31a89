/** What a sender says: each notification carries the labels of its rule and the annotations of the value that
    its alert shows, in words that no table is asked for. */
module SenderShows {
  import opened Labels
  import opened ExpectedAlert
  import opened CaseLabels
  import opened CaseTables
  import opened CaseRows
  import opened CaseSamples
  import opened Automaton
  import opened Notifications
  import opened Sender
  import opened SenderRuns
  import opened StateOracle

  // ---- the annotation templates

  function Digits(n: nat): string {
    if n < 10 then ["0123456789"[n]] else Digits(n / 10) + ["0123456789"[n % 10]]
  }

  lemma TwoDigits(n: nat)
    requires 10 <= n < 100
    ensures Digits(n) == ["0123456789"[n / 10], "0123456789"[n % 10]]
  {
    assert Digits(n / 10) == ["0123456789"[n / 10]];
  }

  lemma Texts()
    ensures Digits(11) == "11" && Digits(15) == "15" && Digits(19) == "19"
    ensures "The value is " + "11" + " " + "11" == "The value is 11 11"
    ensures "The value is " + "15" + " " + "15" == "The value is 15 15"
    ensures "The value is " + "19" + " " + "19" == "The value is 19 19"
  {
    TwoDigits(11);
    TwoDigits(15);
    TwoDigits(19);
  }

  /** "The value is {{$value}} {{.Value}}" */
  lemma PfrExpands(n: nat)
    requires n in {11, 15, 19}
    ensures PfrAnnotationsOf(PFR, n as real) == Summary("The value is " + Digits(n) + " " + Digits(n))
  {
    Texts();
    if n == 11 {
      assert PfrAnnotationsOf(PFR, 11.0) == Summary("The value is 11 11");
    } else if n == 15 {
      assert PfrAnnotationsOf(PFR, 15.0) == Summary("The value is 15 15");
    } else {
      assert PfrAnnotationsOf(PFR, 19.0) == Summary("The value is 19 19");
    }
  }

  /** One of the three series that the query template lists. */
  function Item(i: nat, factor: nat): string {
    Digits(100 + i) + ":" + Digits(factor * i) + ","
  }

  lemma Numbers()
    ensures Digits(101) == "101" && Digits(102) == "102" && Digits(103) == "103"
    ensures Digits(1) == "1" && Digits(2) == "2" && Digits(3) == "3" && Digits(4) == "4" && Digits(6) == "6"
  {
    assert Digits(1) == "1";
    assert Digits(10) == "10";
  }

  lemma Items()
    ensures Item(1, 1) == "101:1," && Item(2, 1) == "102:2," && Item(3, 1) == "103:3,"
    ensures Item(1, 2) == "101:2," && Item(2, 2) == "102:4," && Item(3, 2) == "103:6,"
  {
    Numbers();
  }

  lemma QueryTexts()
    ensures "Args are: foo bar 99. first_id:" + "101" + "," + "101:1," + "102:2," + "103:3,"
      == "Args are: foo bar 99. first_id:101,101:1,102:2,103:3,"
    ensures "Args are: foo bar 99. first_id:" + "101" + "," + "101:2," + "102:4," + "103:6,"
      == "Args are: foo bar 99. first_id:101,101:2,102:4,103:6,"
  {
  }

  /** The arguments, the identifier of the first series, and each series with its value. */
  lemma ZfExpands(factor: nat)
    requires factor in {1, 2}
    ensures (if factor == 1 then ZERO.zfAnnotations else ZERO.zfAnnotationsAgain)
      == QueryText("Args are: foo bar 99. first_id:" + Digits(101) + "," + Item(1, factor) + Item(2, factor)
                   + Item(3, factor))
  {
    Numbers();
    Items();
    QueryTexts();
    if factor == 1 {
      assert ZERO.zfAnnotations == QueryText("Args are: foo bar 99. first_id:101,101:1,102:2,103:3,");
    } else {
      assert ZERO.zfAnnotationsAgain == QueryText("Args are: foo bar 99. first_id:101,101:2,102:4,103:6,");
    }
  }

  lemma R2Text()
    ensures "Based on ALERTS. Old alertname was " + "NewAlerts_OrderCheck_Rule1" + ". foo was " + "bar" + "."
      == "Based on ALERTS. Old alertname was NewAlerts_OrderCheck_Rule1. foo was bar."
  {
    assert "Based on ALERTS. Old alertname was " + "NewAlerts_OrderCheck_Rule1"
      == "Based on ALERTS. Old alertname was NewAlerts_OrderCheck_Rule1";
    assert "Based on ALERTS. Old alertname was NewAlerts_OrderCheck_Rule1" + ". foo was "
      == "Based on ALERTS. Old alertname was NewAlerts_OrderCheck_Rule1. foo was ";
    assert "Based on ALERTS. Old alertname was NewAlerts_OrderCheck_Rule1. foo was " + "bar"
      == "Based on ALERTS. Old alertname was NewAlerts_OrderCheck_Rule1. foo was bar";
  }

  lemma R12Labels()
    ensures Get(ORDER.r12, "alertname") == "NewAlerts_OrderCheck_Rule1" && Get(ORDER.r12, "foo") == "bar"
  {
    assert "foo"[0] != "alertname"[0];
    assert Get(ORDER.r12, "foo") == Get(ORDER.r12[1..], "foo");
  }

  /** "Based on ALERTS. Old alertname was {{$labels.alertname}}. foo was {{.Labels.foo}}." */
  lemma R2Expands()
    ensures ORDER.r2Annotations == [
      Label("description", "Based on ALERTS. Old alertname was " + Get(ORDER.r12, "alertname") + ". foo was "
                           + Get(ORDER.r12, "foo") + ".")]
  {
    R2Text();
    R12Labels();
  }

  // ---- what a notification says

  /** Sent by the evaluation at `e`, within the round trip that is allowed for. */
  predicate SentBy(z: Time, e: Time, y: Note) {
    z + e <= y.now <= z + e + 5_000_000_000
  }

  /** A firing alert: when it fired, and four minutes from now as its end. */
  predicate SaysFiring(rule: Rule, s: RuleState, z: Time, e: Time, labels: LabelSet, annotations: LabelSet, y: Note) {
    && Fires(s) && SentBy(z, e, y)
    && y.alert == Alert(labels, annotations, z + s.activeAt + RoundUp(rule.hold), z + e + 240_000_000_000,
                        ParsableURL)
  }

  /** A resolved one: when it fired, and when the first evaluation saw it resolved. */
  predicate SaysResolved(rule: Rule, s: RuleState, z: Time, e: Time, end: Time, labels: LabelSet,
                         annotations: LabelSet, y: Note)
  {
    && s.Active? && SentBy(z, e, y) && end <= e
    && y.alert == Alert(labels, annotations, z + s.activeAt + RoundUp(rule.hold), z + end, ParsableURL)
  }

  lemma Minutes(t: Timing, j: nat, n: nat)
    ensures t.Instant(j) + n * RESEND_DELAY == t.Instant(j + 2 * n)
  {
    Steps(t, j, j + 2 * n);
  }

  /** While an episode is seen the alert is active since the first evaluation that saw it. */
  lemma ActiveWhile(rule: Rule, t: Timing, a: nat, b: nat, m: nat, m': nat, j: nat)
    requires t.Prompt() && |rule.values| <= |t.delivered| && Episode(rule, a, b)
    requires FirstToSee(t, a, m) && FirstToSee(t, b, m') && m <= j < m'
    ensures After(rule, t, j + 1).Active? && After(rule, t, j + 1).activeAt == t.Instant(m)
  {
    SeesWhen(t, a, m, j);
    SeesWhen(t, b, m', j);
    assert t.Instant(j + 1 - 1) == t.Instant(j);
    var m'' := ActiveSince(rule, t, a, b, j + 1);
    FirstUnique(t, a, m, m'');
  }

  /** The part of a plan that an episode leads to: one block sent while the alert fires. */
  lemma FiringSent(rule: Rule, t: Timing, z: Time, a: nat, b: nat, m: nat, m': nat, from: nat, bk: Block, sg: Segment,
                   y: Note) returns (j: nat)
    requires t.Prompt() && |rule.values| <= |t.delivered| && Episode(rule, a, b) && 0 <= rule.hold
    requires FirstToSee(t, a, m) && FirstToSee(t, b, m') && !bk.resolved
    requires sg.fired == z + t.Instant(m) + RoundUp(rule.hold) <= sg.first == z + t.Instant(from)
    requires sg.Sent(y.nth) < z + t.Instant(m')
    requires sg.Sent(y.nth) <= y.now <= sg.Sent(y.nth) + MAX_RTT && y.alert == Payload(bk, sg, y.nth, false)
    ensures from <= j == from + 2 * y.nth && j < m'
    ensures SaysFiring(rule, After(rule, t, j + 1), z, t.Instant(j), bk.alert.labels, bk.alert.annotations, y)
  {
    j := from + 2 * y.nth;
    Minutes(t, from, y.nth);
    EarlierIndex(t, j, m');
    RoundUpPositive(rule.hold);
    EarlierIndex(t, j, m);
    ActiveWhile(rule, t, a, b, m, m', j);
    SeesWhen(t, a, m, j);
    SeesWhen(t, b, m', j);
    FiresSince(rule, t, a, b, m, j);
  }

  /** The block sent when it has resolved: `s` is what the evaluation before saw. */
  lemma ResolvedSent(rule: Rule, t: Timing, z: Time, a: nat, b: nat, m: nat, m': nat, bk: Block, sg: Segment, y: Note)
    returns (j: nat)
    requires t.Prompt() && |rule.values| <= |t.delivered| && Episode(rule, a, b) && 0 <= rule.hold
    requires FirstToSee(t, a, m) && FirstToSee(t, b, m') && m < m' && bk.resolved
    requires sg.fired == z + t.Instant(m) + RoundUp(rule.hold) && sg.first == z + t.Instant(m')
    requires sg.Sent(y.nth) <= y.now <= sg.Sent(y.nth) + MAX_RTT && y.alert == Payload(bk, sg, y.nth, false)
    ensures j == m' + 2 * y.nth
    ensures SaysResolved(rule, After(rule, t, m'), z, t.Instant(j), t.Instant(m'), bk.alert.labels,
                         bk.alert.annotations, y)
  {
    j := m' + 2 * y.nth;
    Minutes(t, m', y.nth);
    ActiveWhile(rule, t, a, b, m, m', m' - 1);
    Steps(t, m', j);
  }

  // ---- PendingAndFiringAndResolved

  /** When it fires again its value is 15. */
  lemma PfrShowsAgain(t: Timing, mc: nat, md: nat, j: nat)
    requires t.Prompt() && PFR_SAMPLE_COUNT <= |t.delivered|
    requires FirstToSee(t, 89, mc) && FirstToSee(t, 134, md) && mc <= j < md
    ensures After(PfrRule(), t, j + 1).Active? && After(PfrRule(), t, j + 1).value == 15.0
  {
    PfrEpisodes();
    SeesWhen(t, 89, mc, j);
    SeesWhen(t, 134, md, j);
    ValueSeen(PfrRule(), t, 89, 134, j);
  }

  /** The evaluations that are the first to see the alert become active, change its value, resolve, become
      active again and resolve again. */
  ghost predicate PfrSights(t: Timing, ma: nat, mv: nat, mb: nat, mc: nat, md: nat) {
    && t.Prompt() && PFR_SAMPLE_COUNT <= |t.delivered|
    && FirstToSee(t, 8, ma) && FirstToSee(t, 53, mv) && FirstToSee(t, 69, mb)
    && FirstToSee(t, 89, mc) && FirstToSee(t, 134, md)
  }

  lemma PfrOrder(t: Timing, ma: nat, mv: nat, mb: nat, mc: nat, md: nat)
    requires PfrSights(t, ma, mv, mb, mc, md)
    ensures ma + 12 < mv < mb - 1 && mc + 12 < md
    ensures t.Instant(ma) + At(0, 24) == t.Instant(ma + 12) && t.Instant(mc) + At(0, 24) == t.Instant(mc + 12)
  {
    FirstSeenWhen(t, 8, ma);
    FirstSeenWhen(t, 53, mv);
    FirstSeenWhen(t, 69, mb);
    FirstSeenWhen(t, 89, mc);
    FirstSeenWhen(t, 134, md);
    Steps(t, ma, ma + 12);
    Steps(t, mc, mc + 12);
    EarlierIndex(t, ma + 12, mv);
    EarlierIndex(t, mv, mb - 1);
    EarlierIndex(t, mc + 12, md);
  }

  /** `y` is one of the notifications of this part of a plan. */
  predicate SentFor(b: Block, sg: Segment, y: Note) {
    && y.nth < sg.sends && sg.Sent(y.nth) <= y.now <= sg.Sent(y.nth) + MAX_RTT
    && y.alert == Payload(b, sg, y.nth, false)
  }

  lemma SendsUntilBefore(from: Time, until: Time, n: nat)
    requires n < SendsUntil(from, until)
    ensures from + n * RESEND_DELAY < until
  {
    SendsUntilIs(from, until);
    assert n * RESEND_DELAY <= (SendsUntil(from, until) - 1) * RESEND_DELAY;
  }

  /** The annotations that go with what an active alert shows. */
  function PfrWords(tc: PfrCase, s: RuleState): LabelSet {
    if s.Active? then PfrAnnotationsOf(tc, s.value) else []
  }

  /** Firing, with the annotations of the value that the `j`-th evaluation saw. */
  predicate PfrSaysNow(tc: PfrCase, z: Time, t: Timing, j: nat, y: Note) {
    var s := After(PfrRule(), t, j + 1);
    SaysFiring(PfrRule(), s, z, t.Instant(j), tc.labels, PfrWords(tc, s), y)
  }

  /** Resolved at the `m`-th evaluation, with the annotations of the value that the one before it saw. */
  predicate PfrSaysEnd(tc: PfrCase, z: Time, t: Timing, m: nat, j: nat, y: Note) {
    var s := After(PfrRule(), t, m);
    SaysResolved(PfrRule(), s, z, t.Instant(j), t.Instant(m), tc.labels, PfrWords(tc, s), y)
  }

  /** Before the value changes. */
  lemma PfrSends15(tc: PfrCase, t: Timing, z: Time, ma: nat, mv: nat, mb: nat, mc: nat, md: nat, b: Block,
                   sg: Segment, y: Note)
    returns (j: nat)
    requires PfrSights(t, ma, mv, mb, mc, md) && !b.resolved && SentFor(b, sg, y)
    requires var fired := z + t.Instant(ma) + At(0, 24);
      sg == Segment(fired, SendsUntil(fired, z + t.Instant(mv)), fired)
    requires b.alert.labels == tc.labels && b.alert.annotations == tc.fifteen
    ensures PfrSaysNow(tc, z, t, j, y)
  {
    PfrOrder(t, ma, mv, mb, mc, md);
    PfrEpisodes();
    Holds();
    SendsUntilBefore(sg.first, z + t.Instant(mv), y.nth);
    EarlierIndex(t, mv, mb);
    j := FiringSent(PfrRule(), t, z, 8, 69, ma, mb, ma + 12, b, sg, y);
    Minutes(t, ma + 12, y.nth);
    EarlierIndex(t, j, mv);
    Steps(t, ma + 12, j);
    PfrShows(t, ma, mv, mb, j);
  }

  /** And from then on. */
  lemma PfrSends19(tc: PfrCase, t: Timing, z: Time, ma: nat, mv: nat, mb: nat, mc: nat, md: nat, b: Block,
                   sg: Segment, y: Note)
    returns (j: nat)
    requires PfrSights(t, ma, mv, mb, mc, md) && !b.resolved && SentFor(b, sg, y)
    requires var fired := z + t.Instant(ma) + At(0, 24);
      var next := fired + SendsUntil(fired, z + t.Instant(mv)) * RESEND_DELAY;
      sg == Segment(next, SendsUntil(next, z + t.Instant(mb)), fired)
    requires b.alert.labels == tc.labels && b.alert.annotations == tc.nineteen
    ensures PfrSaysNow(tc, z, t, j, y)
  {
    var n := SendsUntil(sg.fired, z + t.Instant(mv));
    PfrOrder(t, ma, mv, mb, mc, md);
    PfrEpisodes();
    Holds();
    EarlierIndex(t, ma + 12, mv);
    SendsUntilIs(sg.fired, z + t.Instant(mv));
    Minutes(t, ma + 12, n);
    SendsUntilBefore(sg.first, z + t.Instant(mb), y.nth);
    j := FiringSent(PfrRule(), t, z, 8, 69, ma, mb, ma + 12 + 2 * n, b, sg, y);
    Steps(t, ma + 12 + 2 * n, j);
    EarlierIndex(t, j, mv);
    PfrShows(t, ma, mv, mb, j);
  }

  lemma PfrSendsAgain(tc: PfrCase, t: Timing, z: Time, ma: nat, mv: nat, mb: nat, mc: nat, md: nat, b: Block,
                      sg: Segment, y: Note)
    returns (j: nat)
    requires PfrSights(t, ma, mv, mb, mc, md) && !b.resolved && SentFor(b, sg, y)
    requires var fired := z + t.Instant(mc) + At(0, 24);
      sg == Segment(fired, SendsUntil(fired, z + t.Instant(md)), fired)
    requires b.alert.labels == tc.labels && b.alert.annotations == tc.fifteen
    ensures PfrSaysNow(tc, z, t, j, y)
  {
    PfrOrder(t, ma, mv, mb, mc, md);
    PfrEpisodes();
    Holds();
    SendsUntilBefore(sg.first, z + t.Instant(md), y.nth);
    j := FiringSent(PfrRule(), t, z, 89, 134, mc, md, mc + 12, b, sg, y);
    PfrShowsAgain(t, mc, md, j);
  }

  /** After it resolved for the first time. */
  lemma PfrSendsAfter(tc: PfrCase, t: Timing, z: Time, ma: nat, mv: nat, mb: nat, mc: nat, md: nat, b: Block,
                      sg: Segment, y: Note)
    returns (j: nat)
    requires PfrSights(t, ma, mv, mb, mc, md) && b.resolved && SentFor(b, sg, y)
    requires sg.first == z + t.Instant(mb) && sg.fired == z + t.Instant(ma) + At(0, 24)
    requires b.alert.labels == tc.labels && b.alert.annotations == tc.nineteen
    ensures PfrSaysEnd(tc, z, t, mb, j, y)
  {
    PfrOrder(t, ma, mv, mb, mc, md);
    PfrEpisodes();
    Holds();
    j := ResolvedSent(PfrRule(), t, z, 8, 69, ma, mb, b, sg, y);
    Steps(t, ma + 12, mb - 1);
    PfrShows(t, ma, mv, mb, mb - 1);
  }

  /** After it resolved again. */
  lemma PfrSendsAtLast(tc: PfrCase, t: Timing, z: Time, ma: nat, mv: nat, mb: nat, mc: nat, md: nat, b: Block,
                       sg: Segment, y: Note)
    returns (j: nat)
    requires PfrSights(t, ma, mv, mb, mc, md) && b.resolved && SentFor(b, sg, y)
    requires sg.first == z + t.Instant(md) && sg.fired == z + t.Instant(mc) + At(0, 24)
    requires b.alert.labels == tc.labels && b.alert.annotations == tc.fifteen
    ensures PfrSaysEnd(tc, z, t, md, j, y)
  {
    PfrOrder(t, ma, mv, mb, mc, md);
    PfrEpisodes();
    Holds();
    j := ResolvedSent(PfrRule(), t, z, 89, 134, mc, md, b, sg, y);
    PfrShowsAgain(t, mc, md, md - 1);
  }

  lemma NoteSent(bs: seq<Block>, plan: seq<Segment>, notes: seq<Note>, k: nat)
    requires |bs| == |plan| && KeepsTo(bs, plan, false, notes) && k < |notes|
    ensures notes[k].seg < |bs| && SentFor(bs[notes[k].seg], plan[notes[k].seg], notes[k])
  {
    NoteAt(bs, plan, false, notes, |notes|, k);
  }

  /** Each notification before the alert resolves says that it fires, with the annotations of the value that
      its evaluation saw; each one after that, with those of the last value it had. */
  lemma PfrSends(tc: PfrCase, z: Time, t: Timing, ma: nat, mv: nat, mb: nat, mc: nat, md: nat, notes: seq<Note>, k: nat)
    returns (j: nat)
    requires PfrSights(t, ma, mv, mb, mc, md)
    requires KeepsTo(PfrBlocks(tc, z), PfrPlan(z, t, ma, mv, mb, mc, md), false, notes) && k < |notes|
    ensures notes[k].seg < 5
    ensures notes[k].seg in {0, 1, 3} ==> PfrSaysNow(tc, z, t, j, notes[k])
    ensures notes[k].seg == 2 ==> PfrSaysEnd(tc, z, t, mb, j, notes[k])
    ensures notes[k].seg == 4 ==> PfrSaysEnd(tc, z, t, md, j, notes[k])
  {
    NoteSent(PfrBlocks(tc, z), PfrPlan(z, t, ma, mv, mb, mc, md), notes, k);
    if notes[k].seg < 2 {
      j := PfrSendsSooner(tc, z, t, ma, mv, mb, mc, md, notes[k]);
    } else {
      j := PfrSendsLater(tc, z, t, ma, mv, mb, mc, md, notes[k]);
    }
  }

  lemma PfrSendsSooner(tc: PfrCase, z: Time, t: Timing, ma: nat, mv: nat, mb: nat, mc: nat, md: nat, y: Note)
    returns (j: nat)
    requires PfrSights(t, ma, mv, mb, mc, md) && y.seg < 2
    requires SentFor(PfrBlocks(tc, z)[y.seg], PfrPlan(z, t, ma, mv, mb, mc, md)[y.seg], y)
    ensures PfrSaysNow(tc, z, t, j, y)
  {
    var bs, plan := PfrBlocks(tc, z), PfrPlan(z, t, ma, mv, mb, mc, md);
    if y.seg == 0 {
      j := PfrSends15(tc, t, z, ma, mv, mb, mc, md, bs[0], plan[0], y);
    } else {
      j := PfrSends19(tc, t, z, ma, mv, mb, mc, md, bs[1], plan[1], y);
    }
  }

  lemma PfrSendsLater(tc: PfrCase, z: Time, t: Timing, ma: nat, mv: nat, mb: nat, mc: nat, md: nat, y: Note)
    returns (j: nat)
    requires PfrSights(t, ma, mv, mb, mc, md) && 2 <= y.seg < 5
    requires SentFor(PfrBlocks(tc, z)[y.seg], PfrPlan(z, t, ma, mv, mb, mc, md)[y.seg], y)
    ensures y.seg == 3 ==> PfrSaysNow(tc, z, t, j, y)
    ensures y.seg == 2 ==> PfrSaysEnd(tc, z, t, mb, j, y)
    ensures y.seg == 4 ==> PfrSaysEnd(tc, z, t, md, j, y)
  {
    var bs, plan := PfrBlocks(tc, z), PfrPlan(z, t, ma, mv, mb, mc, md);
    if y.seg == 2 {
      j := PfrSendsAfter(tc, t, z, ma, mv, mb, mc, md, bs[2], plan[2], y);
    } else if y.seg == 3 {
      j := PfrSendsAgain(tc, t, z, ma, mv, mb, mc, md, bs[3], plan[3], y);
    } else {
      j := PfrSendsAtLast(tc, t, z, ma, mv, mb, mc, md, bs[4], plan[4], y);
    }
  }

  // ---- ZeroFor_SmallFor

  /** The evaluations that are the first to see the first rule's alert fire, resolve, fire and resolve again. */
  ghost predicate ZfSights(t: ZeroTimings, ma: nat, mb: nat, mc: nat, md: nat) {
    && t.Prompt()
    && FirstToSee(t.zf, 8, ma) && FirstToSee(t.zf, 21, mb) && FirstToSee(t.zf, 93, mc) && FirstToSee(t.zf, 106, md)
  }

  lemma ZfOrder(t: ZeroTimings, ma: nat, mb: nat, mc: nat, md: nat)
    requires ZfSights(t, ma, mb, mc, md)
    ensures ma < mb && mc < md
  {
    FirstSeenWhen(t.zf, 8, ma);
    FirstSeenWhen(t.zf, 21, mb);
    FirstSeenWhen(t.zf, 93, mc);
    FirstSeenWhen(t.zf, 106, md);
    EarlierIndex(t.zf, ma, mb);
    EarlierIndex(t.zf, mc, md);
  }

  lemma SeenThen(t: Timing, j: nat)
    requires t.Prompt()
    ensures t.Seen(t.Instant(j)) == Delivered(t.delivered, t.Instant(j))
  {
    EvaluationsAt(t, j + 1);
    assert t.Instant(j + 1 - 1) == t.Instant(j);
  }

  lemma SeenWhile(t: Timing, a: nat, b: nat, m: nat, m': nat, j: nat)
    requires t.Prompt() && a < |t.delivered| && b < |t.delivered| && FirstToSee(t, a, m) && FirstToSee(t, b, m')
    ensures m <= j < m' <==> a < t.Seen(t.Instant(j)) <= b
  {
    SeenThen(t, j);
    SeesWhen(t, a, m, j);
    SeesWhen(t, b, m', j);
  }

  /** In both periods the template series show what the annotation of that period says. */
  lemma ZfWords(tc: ZeroCase, t: ZeroTimings, mixed: LabelSet, ma: nat, mb: nat, mc: nat, md: nat, j: nat)
    requires ZfSights(t, ma, mb, mc, md)
    ensures ma <= j < mb ==> ZfAnnotationsOf(tc, t.templates, t.zf.Instant(j), mixed) == tc.zfAnnotations
    ensures mc <= j < md ==> ZfAnnotationsOf(tc, t.templates, t.zf.Instant(j), mixed) == tc.zfAnnotationsAgain
  {
    SeenWhile(t.zf, 8, 21, ma, mb, j);
    SeenWhile(t.zf, 93, 106, mc, md, j);
    ZfAnnotationsAre(tc, t, t.zf.Instant(j), mixed);
  }

  /** A notification of one of the two periods, `again` the second. */
  lemma ZfSendsFiring(t: ZeroTimings, z: Time, ma: nat, mb: nat, mc: nat, md: nat, again: bool, b: Block, sg: Segment,
                      y: Note) returns (j: nat)
    requires ZfSights(t, ma, mb, mc, md) && !b.resolved && SentFor(b, sg, y)
    requires var fired := z + t.zf.Instant(if again then mc else ma);
      sg == Segment(fired, SendsUntil(fired, z + t.zf.Instant(if again then md else mb)), fired)
    ensures (if again then mc else ma) <= j < if again then md else mb
    ensures SaysFiring(ZfRule(), After(ZfRule(), t.zf, j + 1), z, t.zf.Instant(j), b.alert.labels,
                       b.alert.annotations, y)
  {
    ZeroEpisodes();
    Holds();
    ZfOrder(t, ma, mb, mc, md);
    SendsUntilBefore(sg.first, z + t.zf.Instant(if again then md else mb), y.nth);
    if again {
      j := FiringSent(ZfRule(), t.zf, z, 93, 106, mc, md, mc, b, sg, y);
    } else {
      j := FiringSent(ZfRule(), t.zf, z, 8, 21, ma, mb, ma, b, sg, y);
    }
  }

  lemma ZfSendsResolved(t: ZeroTimings, z: Time, ma: nat, mb: nat, mc: nat, md: nat, again: bool, b: Block,
                        sg: Segment, y: Note) returns (j: nat)
    requires ZfSights(t, ma, mb, mc, md) && b.resolved && SentFor(b, sg, y)
    requires sg.fired == z + t.zf.Instant(if again then mc else ma)
    requires sg.first == z + t.zf.Instant(if again then md else mb)
    ensures var m := if again then md else mb;
      SaysResolved(ZfRule(), After(ZfRule(), t.zf, m), z, t.zf.Instant(j), t.zf.Instant(m), b.alert.labels,
                   b.alert.annotations, y)
  {
    ZeroEpisodes();
    Holds();
    ZfOrder(t, ma, mb, mc, md);
    if again {
      j := ResolvedSent(ZfRule(), t.zf, z, 93, 106, mc, md, b, sg, y);
    } else {
      j := ResolvedSent(ZfRule(), t.zf, z, 8, 21, ma, mb, b, sg, y);
    }
  }

  /** What the template expands to at the `j`-th evaluation. */
  function ZfText(tc: ZeroCase, t: ZeroTimings, mixed: LabelSet, j: nat): LabelSet {
    ZfAnnotationsOf(tc, t.templates, t.zf.Instant(j), mixed)
  }

  /** Resolved at the `m`-th evaluation, with the text of the one before it. */
  predicate ZfSaysEnd(tc: ZeroCase, z: Time, t: ZeroTimings, mixed: LabelSet, m: nat, j: nat, y: Note) {
    m > 0 && SaysResolved(ZfRule(), After(ZfRule(), t.zf, m), z, t.zf.Instant(j), t.zf.Instant(m), tc.zf,
                          ZfText(tc, t, mixed, m - 1), y)
  }

  predicate ZfSaysNow(tc: ZeroCase, z: Time, t: ZeroTimings, mixed: LabelSet, j: nat, y: Note) {
    SaysFiring(ZfRule(), After(ZfRule(), t.zf, j + 1), z, t.zf.Instant(j), tc.zf, ZfText(tc, t, mixed, j), y)
  }

  lemma ZfSays(tc: ZeroCase, z: Time, t: ZeroTimings, mixed: LabelSet, ma: nat, mb: nat, mc: nat, md: nat, again: bool,
               b: Block, sg: Segment, y: Note) returns (j: nat)
    requires ZfSights(t, ma, mb, mc, md) && !b.resolved && SentFor(b, sg, y) && b.alert.labels == tc.zf
    requires b.alert.annotations == if again then tc.zfAnnotationsAgain else tc.zfAnnotations
    requires var fired := z + t.zf.Instant(if again then mc else ma);
      sg == Segment(fired, SendsUntil(fired, z + t.zf.Instant(if again then md else mb)), fired)
    ensures ZfSaysNow(tc, z, t, mixed, j, y)
  {
    j := ZfSendsFiring(t, z, ma, mb, mc, md, again, b, sg, y);
    ZfWords(tc, t, mixed, ma, mb, mc, md, j);
  }

  lemma ZfSaysAfter(tc: ZeroCase, z: Time, t: ZeroTimings, mixed: LabelSet, ma: nat, mb: nat, mc: nat, md: nat,
                    again: bool, b: Block, sg: Segment, y: Note) returns (j: nat)
    requires ZfSights(t, ma, mb, mc, md) && b.resolved && SentFor(b, sg, y) && b.alert.labels == tc.zf
    requires b.alert.annotations == if again then tc.zfAnnotationsAgain else tc.zfAnnotations
    requires sg.fired == z + t.zf.Instant(if again then mc else ma)
    requires sg.first == z + t.zf.Instant(if again then md else mb)
    ensures ZfSaysEnd(tc, z, t, mixed, if again then md else mb, j, y)
  {
    j := ZfSendsResolved(t, z, ma, mb, mc, md, again, b, sg, y);
    ZfLastWords(tc, t, mixed, ma, mb, mc, md, again, if again then md else mb);
  }

  lemma ZfLastWords(tc: ZeroCase, t: ZeroTimings, mixed: LabelSet, ma: nat, mb: nat, mc: nat, md: nat, again: bool,
                    m: nat)
    requires ZfSights(t, ma, mb, mc, md) && m == if again then md else mb
    ensures m > 0 && ZfText(tc, t, mixed, m - 1) == if again then tc.zfAnnotationsAgain else tc.zfAnnotations
  {
    ZfOrder(t, ma, mb, mc, md);
    ZfWords(tc, t, mixed, ma, mb, mc, md, m - 1);
  }

  /** Each notification carries what the query template expanded to when it was last evaluated for the
      active alert, whenever the samples of its series arrive. */
  lemma ZfSends(tc: ZeroCase, z: Time, t: ZeroTimings, mixed: LabelSet, ma: nat, mb: nat, mc: nat, md: nat,
                notes: seq<Note>, k: nat) returns (j: nat)
    requires ZfSights(t, ma, mb, mc, md)
    requires KeepsTo(ZfBlocks(tc, z), ZfPlan(z, t.zf, ma, mb, mc, md), false, notes) && k < |notes|
    ensures notes[k].seg < 4
    ensures notes[k].seg in {0, 2} ==> ZfSaysNow(tc, z, t, mixed, j, notes[k])
    ensures notes[k].seg == 1 ==> ZfSaysEnd(tc, z, t, mixed, mb, j, notes[k])
    ensures notes[k].seg == 3 ==> ZfSaysEnd(tc, z, t, mixed, md, j, notes[k])
  {
    var bs, plan, y := ZfBlocks(tc, z), ZfPlan(z, t.zf, ma, mb, mc, md), notes[k];
    NoteSent(bs, plan, notes, k);
    if y.seg == 0 {
      j := ZfSays(tc, z, t, mixed, ma, mb, mc, md, false, bs[0], plan[0], y);
    } else if y.seg == 1 {
      j := ZfSaysAfter(tc, z, t, mixed, ma, mb, mc, md, false, bs[1], plan[1], y);
    } else if y.seg == 2 {
      j := ZfSays(tc, z, t, mixed, ma, mb, mc, md, true, bs[2], plan[2], y);
    } else {
      j := ZfSaysAfter(tc, z, t, mixed, ma, mb, mc, md, true, bs[3], plan[3], y);
    }
  }

  // ---- the alerts that fire once

  /** The annotations of these have no value in them: each notification carries those of the table, for
      which see `CaseRows`. */
  lemma OnceSends(rule: Rule, z: Time, t: Timing, a: nat, b: nat, m: nat, m': nat, bs: seq<Block>, notes: seq<Note>,
                  k: nat) returns (j: nat)
    requires t.Prompt() && |rule.values| <= |t.delivered| && Episode(rule, a, b) && 0 <= rule.hold
    requires FirstToSee(t, a, m) && FirstToSee(t, b, m') && |bs| == 2 && !bs[0].resolved && bs[1].resolved
    requires RoundUp(rule.hold) % GROUP_INTERVAL == 0 && t.Instant(m) + RoundUp(rule.hold) < t.Instant(m')
    requires KeepsTo(bs, OncePlan(z + t.Instant(m) + RoundUp(rule.hold), z + t.Instant(m')), false, notes)
    requires k < |notes|
    ensures notes[k].seg < 2
    ensures var y := notes[k];
      if y.seg == 0 then
        SaysFiring(rule, After(rule, t, j + 1), z, t.Instant(j), bs[0].alert.labels, bs[0].alert.annotations, y)
      else
        SaysResolved(rule, After(rule, t, m'), z, t.Instant(j), t.Instant(m'), bs[1].alert.labels,
                     bs[1].alert.annotations, y)
  {
    var plan, y := OncePlan(z + t.Instant(m) + RoundUp(rule.hold), z + t.Instant(m')), notes[k];
    NoteSent(bs, plan, notes, k);
    RoundUpPositive(rule.hold);
    EarlierIndex(t, m, m');
    if y.seg == 0 {
      var h := RoundUp(rule.hold) / GROUP_INTERVAL;
      Steps(t, m, m + h);
      SendsUntilBefore(plan[0].first, z + t.Instant(m'), y.nth);
      j := FiringSent(rule, t, z, a, b, m, m', m + h, bs[0], plan[0], y);
    } else {
      j := ResolvedSent(rule, t, z, a, b, m, m', bs[1], plan[1], y);
    }
  }

  /** One of the notifications of an alert that fires once. */
  predicate OnceSays(rule: Rule, z: Time, t: Timing, m': nat, j: nat, labels: LabelSet, annotations: LabelSet,
                     y: Note)
  {
    if y.seg == 0 then SaysFiring(rule, After(rule, t, j + 1), z, t.Instant(j), labels, annotations, y)
    else SaysResolved(rule, After(rule, t, m'), z, t.Instant(j), t.Instant(m'), labels, annotations, y)
  }

  /** The first variant. */
  lemma R11Sends(z: Time, t: Timing, m: nat, m': nat, notes: seq<Note>, k: nat) returns (j: nat)
    requires t.Prompt() && ORDER_SAMPLE_COUNT <= |t.delivered| && FirstToSee(t, 8, m) && FirstToSee(t, 73, m')
    requires KeepsTo(R11Blocks(ORDER, z), OncePlan(z + t.Instant(m) + At(0, 12), z + t.Instant(m')), false, notes)
    requires k < |notes|
    ensures OnceSays(R11Rule(), z, t, m', j, ORDER.r11,
                     [Label("description", "This should produce more alerts later")], notes[k])
  {
    R11Only();
    FirstSeenWhen(t, 8, m);
    FirstSeenWhen(t, 73, m');
    j := OnceSends(R11Rule(), z, t, 8, 73, m, m', R11Blocks(ORDER, z), notes, k);
  }

  /** The second variant. */
  lemma R12Sends(z: Time, t: Timing, m: nat, m': nat, notes: seq<Note>, k: nat) returns (j: nat)
    requires t.Prompt() && ORDER_SAMPLE_COUNT <= |t.delivered| && FirstToSee(t, 32, m) && FirstToSee(t, 65, m')
    requires KeepsTo(LaterBlocks(ORDER.r12, ORDER.r1Annotations, z),
                     OncePlan(z + t.Instant(m) + At(0, 12), z + t.Instant(m')), false, notes)
    requires k < |notes|
    ensures OnceSays(R12Rule(), z, t, m', j, ORDER.r12,
                     [Label("description", "This should produce more alerts later")], notes[k])
  {
    R12Only();
    FirstSeenWhen(t, 32, m);
    FirstSeenWhen(t, 65, m');
    j := OnceSends(R12Rule(), z, t, 32, 65, m, m', LaterBlocks(ORDER.r12, ORDER.r1Annotations, z), notes, k);
  }

  /** The dependent rule, which starts to fire with the second variant, and names the labels of what it sees. */
  lemma R2Sends(z: Time, u: Timing, m: nat, m': nat, notes: seq<Note>, k: nat) returns (j: nat)
    requires u.Prompt() && ORDER_SAMPLE_COUNT <= |u.delivered| && FirstToSee(u, 32, m) && FirstToSee(u, 65, m')
    requires KeepsTo(LaterBlocks(ORDER.r2, ORDER.r2Annotations, z),
                     OncePlan(z + u.Instant(m) + At(0, 12), z + u.Instant(m')), false, notes)
    requires k < |notes|
    ensures OnceSays(R12Rule(), z, u, m', j, ORDER.r2, [
      Label("description", "Based on ALERTS. Old alertname was " + Get(ORDER.r12, "alertname") + ". foo was "
                           + Get(ORDER.r12, "foo") + ".")], notes[k])
  {
    R12Only();
    FirstSeenWhen(u, 32, m);
    FirstSeenWhen(u, 65, m');
    R2Expands();
    j := OnceSends(R12Rule(), z, u, 32, 65, m, m', LaterBlocks(ORDER.r2, ORDER.r2Annotations, z), notes, k);
  }

  /** The rule with the small `for` duration. */
  lemma SfSends(z: Time, t: Timing, m: nat, m': nat, notes: seq<Note>, k: nat) returns (j: nat)
    requires t.Prompt() && ZERO_SAMPLE_COUNT <= |t.delivered| && FirstToSee(t, 8, m) && FirstToSee(t, 21, m')
    requires KeepsTo(SfBlocks(ZERO, z), OncePlan(z + t.Instant(m) + GROUP_INTERVAL, z + t.Instant(m')), false, notes)
    requires k < |notes|
    ensures OnceSays(SfRule(), z, t, m', j, ZERO.sf, [
      Label("description", "This should fire after an interval"),
      Label("template_test", "This Part IS TESTING the strings. ::1 127.0.0.1. 7815. replaced text. .")], notes[k])
  {
    SfOnly();
    FirstSeenWhen(t, 8, m);
    FirstSeenWhen(t, 21, m');
    j := OnceSends(SfRule(), z, t, 8, 21, m, m', SfBlocks(ZERO, z), notes, k);
  }
}
