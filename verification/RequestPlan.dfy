/** What a remote-write request is to contain (generateRequest in remotewrite/receiver/helpers_test.go),
    before any label is interned: which series carries which exemplars and which metadata. */
module RequestPlan {
  import opened ExpectedAlert
  import opened UnixTime
  import opened Options
  import opened SymbolTable

  const NAME: string := "__name__"

  datatype Histogram = Histogram(timestamp: int, contents: string)

  datatype SampleWithLabels = SampleWithLabels(
    labels: LabelMap, value: real, offset: Duration, createdTimestamp: Option<Time>)
  datatype HistogramWithLabels = HistogramWithLabels(
    labels: LabelMap, histogram: Histogram, offset: Duration, createdTimestamp: Option<Time>)
  datatype ExemplarWithLabels = ExemplarWithLabels(
    labels: LabelMap, exemplarLabels: LabelMap, value: real, offset: Duration)
  datatype MetadataWithLabels = MetadataWithLabels(labels: LabelMap, kind: int, help: string, unit: string)

  datatype RequestOpts = RequestOpts(
    samples: seq<SampleWithLabels>,
    exemplars: seq<ExemplarWithLabels>,
    metadata: seq<MetadataWithLabels>,
    histograms: seq<HistogramWithLabels>,
    unsafeRequest: bool)
  {
    function SampleKeys(): (keys: seq<LabelMap>)
      ensures |keys| == |samples|
    {
      seq(|samples|, i requires 0 <= i < |samples| => samples[i].labels)
    }

    function HistogramKeys(): (keys: seq<LabelMap>)
      ensures |keys| == |histograms|
    {
      seq(|histograms|, i requires 0 <= i < |histograms| => histograms[i].labels)
    }

    /** Some sample or histogram has this label set. */
    predicate HasSeries(labels: LabelMap) {
      labels in SampleKeys() || labels in HistogramKeys()
    }

    /** Some sample or histogram has this metric name. */
    predicate HasName(name: string) {
      name in NamesOf(SampleKeys()) || name in NamesOf(HistogramKeys())
    }

    /** The checks made unless the request is declared unsafe. */
    predicate Safe() {
      && (samples == [] || histograms == [])
      && (forall i :: 0 <= i < |exemplars| ==> HasSeries(exemplars[i].labels))
      && (forall i :: 0 <= i < |metadata| ==> HasName(MetricName(metadata[i].labels)))
    }
  }

  function MetricName(labels: LabelMap): string {
    if NAME in labels then labels[NAME] else ""
  }

  function NamesOf(keys: seq<LabelMap>): set<string> {
    set i | 0 <= i < |keys| :: MetricName(keys[i])
  }

  // ---- distributing exemplars

  /** Which unused exemplars the series `labels` takes, from the `ei`-th on: the first, or all of
      them when it is the last series with this label set. */
  function Take(exemplars: seq<ExemplarWithLabels>, labels: LabelMap, used: set<nat>, last: bool, ei: nat): seq<nat>
    decreases |exemplars| - ei
  {
    if ei >= |exemplars| then []
    else if ei !in used && exemplars[ei].labels == labels then
      [ei] + if last then Take(exemplars, labels, used, last, ei + 1) else []
    else Take(exemplars, labels, used, last, ei + 1)
  }

  predicate IsLast(keys: seq<LabelMap>, i: nat)
    requires i < |keys|
  {
    forall j :: i < j < |keys| ==> keys[j] != keys[i]
  }

  datatype Plan = Plan(attached: seq<seq<nat>>, used: set<nat>)

  /** The exemplars of the first `n` series, when those in `used` are already taken. */
  function Attach(keys: seq<LabelMap>, exemplars: seq<ExemplarWithLabels>, used: set<nat>, n: nat): (p: Plan)
    requires n <= |keys|
    ensures |p.attached| == n
  {
    if n == 0 then Plan([], used) else
    var p := Attach(keys, exemplars, used, n - 1);
    var taken := Take(exemplars, keys[n - 1], p.used, IsLast(keys, n - 1), 0);
    Plan(p.attached + [taken], p.used + set i | i in taken)
  }

  function SamplePlan(opts: RequestOpts): (p: Plan)
    ensures |p.attached| == |opts.samples|
  {
    Attach(opts.SampleKeys(), opts.exemplars, {}, |opts.samples|)
  }

  function HistogramPlan(opts: RequestOpts): (p: Plan)
    ensures |p.attached| == |opts.histograms|
  {
    Attach(opts.HistogramKeys(), opts.exemplars, SamplePlan(opts).used, |opts.histograms|)
  }

  /** Not taken, and without a series. */
  predicate LeftOver(opts: RequestOpts, used: set<nat>, i: nat)
    requires i < |opts.exemplars|
  {
    i !in used && !opts.HasSeries(opts.exemplars[i].labels)
  }

  /** The leftovers among the first `n` exemplars. */
  function Leftovers(opts: RequestOpts, used: set<nat>, n: nat): seq<nat>
    requires n <= |opts.exemplars|
  {
    if n == 0 then [] else
    Leftovers(opts, used, n - 1) + if LeftOver(opts, used, n - 1) then [n - 1] else []
  }

  // ---- conservation

  function Placed(attached: seq<seq<nat>>): multiset<nat> {
    if attached == [] then multiset{} else Placed(attached[..|attached| - 1]) + multiset(attached[|attached| - 1])
  }

  ghost predicate Rising(s: seq<nat>) {
    forall i, j :: 0 <= i < j < |s| ==> s[i] < s[j]
  }

  lemma {:induction false} TakeIs(exemplars: seq<ExemplarWithLabels>, labels: LabelMap, used: set<nat>, last: bool,
                                  ei: nat)
    ensures var t := Take(exemplars, labels, used, last, ei);
      && Rising(t)
      && (forall i :: i in t ==> ei <= i < |exemplars| && i !in used && exemplars[i].labels == labels)
      && (!last ==> |t| <= 1)
      && (forall i :: ei <= i < |exemplars| && i !in used && exemplars[i].labels == labels ==>
            i in t || (!last && t != [] && t[0] < i))
    decreases |exemplars| - ei
  {
    if ei >= |exemplars| {
    } else {
      TakeIs(exemplars, labels, used, last, ei + 1);
      if ei !in used && exemplars[ei].labels == labels && last {
        var rest := Take(exemplars, labels, used, last, ei + 1);
        forall k | 0 <= k < |rest| ensures ei < rest[k] {
          assert rest[k] in rest;
        }
      }
    }
  }

  lemma {:induction false} RisingOnce(s: seq<nat>, i: nat)
    requires Rising(s)
    ensures multiset(s)[i] == if i in s then 1 else 0
  {
    if s == [] {
    } else {
      var init, x := s[..|s| - 1], s[|s| - 1];
      RisingOnce(init, i);
      assert s == init + [x];
      assert x !in init;
    }
  }

  /** Each exemplar that the series take is taken once. */
  lemma {:induction false} AttachOnce(keys: seq<LabelMap>, exemplars: seq<ExemplarWithLabels>, used: set<nat>, n: nat,
                                      i: nat)
    requires n <= |keys|
    ensures var p := Attach(keys, exemplars, used, n);
      && used <= p.used
      && (i in p.used && i !in used ==> i < |exemplars| && exemplars[i].labels in keys)
      && Placed(p.attached)[i] == if i in p.used && i !in used then 1 else 0
  {
    if n == 0 {
    } else {
      AttachOnce(keys, exemplars, used, n - 1, i);
      var before := Attach(keys, exemplars, used, n - 1);
      var taken := Take(exemplars, keys[n - 1], before.used, IsLast(keys, n - 1), 0);
      TakeIs(exemplars, keys[n - 1], before.used, IsLast(keys, n - 1), 0);
      RisingOnce(taken, i);
      assert (before.attached + [taken])[..n - 1] == before.attached;
    }
  }

  /** The last series of a label set leaves no exemplar of that label set behind. */
  lemma {:induction false} LastTakesAll(keys: seq<LabelMap>, exemplars: seq<ExemplarWithLabels>, used: set<nat>, n: nat,
                                        k: nat, i: nat)
    requires k < n <= |keys| && IsLast(keys, k)
    requires i < |exemplars| && exemplars[i].labels == keys[k]
    ensures i in Attach(keys, exemplars, used, n).used
  {
    if k == n - 1 {
      var before := Attach(keys, exemplars, used, n - 1);
      TakeIs(exemplars, keys[k], before.used, true, 0);
    } else {
      LastTakesAll(keys, exemplars, used, n - 1, k, i);
    }
  }

  lemma {:induction false} SomeLast(keys: seq<LabelMap>, k: nat) returns (last: nat)
    requires k < |keys|
    ensures last < |keys| && keys[last] == keys[k] && IsLast(keys, last)
    decreases |keys| - k
  {
    if j :| k < j < |keys| && keys[j] == keys[k] {
      last := SomeLast(keys, j);
    } else {
      last := k;
    }
  }

  lemma NoneLeft(keys: seq<LabelMap>, exemplars: seq<ExemplarWithLabels>, used: set<nat>, i: nat)
    requires i < |exemplars| && exemplars[i].labels in keys
    ensures i in Attach(keys, exemplars, used, |keys|).used
  {
    var k :| 0 <= k < |keys| && keys[k] == exemplars[i].labels;
    var last := SomeLast(keys, k);
    LastTakesAll(keys, exemplars, used, |keys|, last, i);
  }

  /** An exemplar that no series took has no series: the last pass finds a match for none. */
  lemma UnusedIsUnmatched(opts: RequestOpts, i: nat)
    requires i < |opts.exemplars| && i !in HistogramPlan(opts).used
    ensures !opts.HasSeries(opts.exemplars[i].labels)
  {
    AttachOnce(opts.HistogramKeys(), opts.exemplars, SamplePlan(opts).used, |opts.histograms|, i);
    if opts.exemplars[i].labels in opts.SampleKeys() {
      NoneLeft(opts.SampleKeys(), opts.exemplars, {}, i);
    } else if opts.exemplars[i].labels in opts.HistogramKeys() {
      NoneLeft(opts.HistogramKeys(), opts.exemplars, SamplePlan(opts).used, i);
    }
  }

  lemma {:induction false} LeftoversAre(opts: RequestOpts, used: set<nat>, n: nat, i: nat)
    requires n <= |opts.exemplars|
    ensures multiset(Leftovers(opts, used, n))[i] == if i < n && LeftOver(opts, used, i) then 1 else 0
  {
    if n == 0 {
      assert Leftovers(opts, used, n) == [];
    } else {
      LeftoversAre(opts, used, n - 1, i);
      LeftoversNext(opts, used, n, i);
    }
  }

  lemma LeftoversNext(opts: RequestOpts, used: set<nat>, n: nat, i: nat)
    requires 0 < n <= |opts.exemplars|
    ensures multiset(Leftovers(opts, used, n))[i]
      == multiset(Leftovers(opts, used, n - 1))[i] + if i == n - 1 && LeftOver(opts, used, i) then 1 else 0
  {
    if LeftOver(opts, used, n - 1) {
      AppendedOnce(Leftovers(opts, used, n - 1), [n - 1], i);
    }
  }

  lemma AppendedOnce(a: seq<nat>, b: seq<nat>, i: nat)
    ensures multiset(a + b)[i] == multiset(a)[i] + multiset(b)[i]
  {
  }

  /** Conservation: over the series of samples, the series of histograms and the leftovers,
      each exemplar is placed exactly once. */
  lemma EachExemplarOnce(opts: RequestOpts, i: nat)
    ensures Placed(SamplePlan(opts).attached)[i] + Placed(HistogramPlan(opts).attached)[i]
      + multiset(Leftovers(opts, HistogramPlan(opts).used, |opts.exemplars|))[i]
      == if i < |opts.exemplars| then 1 else 0
  {
    var s, h := SamplePlan(opts), HistogramPlan(opts);
    AttachOnce(opts.SampleKeys(), opts.exemplars, {}, |opts.samples|, i);
    AttachOnce(opts.HistogramKeys(), opts.exemplars, s.used, |opts.histograms|, i);
    LeftoversAre(opts, h.used, |opts.exemplars|, i);
    if i < |opts.exemplars| && i !in h.used {
      UnusedIsUnmatched(opts, i);
    }
  }

  lemma {:induction false} AttachedAt(keys: seq<LabelMap>, exemplars: seq<ExemplarWithLabels>, used: set<nat>, n: nat,
                                      k: nat)
    requires k < n <= |keys|
    ensures Attach(keys, exemplars, used, n).attached[k]
      == Take(exemplars, keys[k], Attach(keys, exemplars, used, k).used, IsLast(keys, k), 0)
  {
    if k == n - 1 {
    } else {
      AttachedAt(keys, exemplars, used, n - 1, k);
    }
  }

  lemma {:induction false} UsedGrows(keys: seq<LabelMap>, exemplars: seq<ExemplarWithLabels>, used: set<nat>, k: nat,
                                     n: nat)
    requires k <= n <= |keys|
    ensures Attach(keys, exemplars, used, k).used <= Attach(keys, exemplars, used, n).used
  {
    if k == n {
    } else {
      UsedGrows(keys, exemplars, used, k, n - 1);
    }
  }

  /** A series takes only exemplars of its own label set, in their order; at most one unless it is
      the last of its label set. */
  lemma AttachedFits(keys: seq<LabelMap>, exemplars: seq<ExemplarWithLabels>, used: set<nat>, n: nat, k: nat)
    requires k < n <= |keys|
    ensures var t := Attach(keys, exemplars, used, n).attached[k];
      && Rising(t)
      && (forall i :: i in t ==> i < |exemplars| && exemplars[i].labels == keys[k])
      && (!IsLast(keys, k) ==> |t| <= 1)
  {
    AttachedAt(keys, exemplars, used, n, k);
    TakeIs(exemplars, keys[k], Attach(keys, exemplars, used, k).used, IsLast(keys, k), 0);
  }

  /** Later series of a label set take later exemplars. */
  lemma AttachedInOrder(keys: seq<LabelMap>, exemplars: seq<ExemplarWithLabels>, used: set<nat>, n: nat,
                        k: nat, k': nat, i: nat, j: nat)
    requires k < k' < n <= |keys| && keys[k] == keys[k']
    requires i in Attach(keys, exemplars, used, n).attached[k] && j in Attach(keys, exemplars, used, n).attached[k']
    ensures i < j
  {
    var before, before' := Attach(keys, exemplars, used, k).used, Attach(keys, exemplars, used, k').used;
    AttachedAt(keys, exemplars, used, n, k);
    AttachedAt(keys, exemplars, used, n, k');
    TakeIs(exemplars, keys[k], before, false, 0);
    TakeIs(exemplars, keys[k'], before', IsLast(keys, k'), 0);
    assert !IsLast(keys, k);
    assert before <= before' && i in before' by {
      UsedGrows(keys, exemplars, used, k, k');
      UsedGrows(keys, exemplars, used, k + 1, k');
      assert i in Attach(keys, exemplars, used, k + 1).used;
    }
  }

  // ---- the request as it is meant

  datatype LogicalExemplar = LogicalExemplar(labels: LabelMap, value: real, timestamp: int)
  datatype LogicalMetadata = LogicalMetadata(kind: int, help: string, unit: string)
  datatype Point = Point(timestamp: int, value: real)
  datatype LogicalSeries = LogicalSeries(
    labels: LabelMap,
    samples: seq<Point>,
    histograms: seq<Histogram>,
    exemplars: seq<LogicalExemplar>,
    metadata: LogicalMetadata,
    createdTimestamp: int)

  const NO_METADATA: LogicalMetadata := LogicalMetadata(0, "", "")

  function Created(t: Option<Time>): int {
    if t.Some? then UnixMilli(t.value) else 0
  }

  function ExemplarOf(ew: ExemplarWithLabels, now: Time): LogicalExemplar {
    LogicalExemplar(ew.exemplarLabels, ew.value, UnixMilli(now + ew.offset))
  }

  function ExemplarsOf(opts: RequestOpts, taken: seq<nat>, now: Time): seq<LogicalExemplar> {
    if taken == [] then [] else
    var i := taken[|taken| - 1];
    ExemplarsOf(opts, taken[..|taken| - 1], now)
    + if i < |opts.exemplars| then [ExemplarOf(opts.exemplars[i], now)] else []
  }

  function MetadataOf(mw: MetadataWithLabels): LogicalMetadata {
    LogicalMetadata(mw.kind, mw.help, mw.unit)
  }

  /** The last metadata of the first `n` for a metric name; the empty name counts only in unsafe requests. */
  function MetadataFor(opts: RequestOpts, name: string, n: nat): Option<LogicalMetadata>
    requires n <= |opts.metadata|
  {
    if n == 0 then None
    else if MetricName(opts.metadata[n - 1].labels) == name && (name != "" || opts.unsafeRequest) then
      Some(MetadataOf(opts.metadata[n - 1]))
    else MetadataFor(opts, name, n - 1)
  }

  function MetadataOrNone(m: Option<LogicalMetadata>): LogicalMetadata {
    if m.Some? then m.value else NO_METADATA
  }

  function MetadataOfSeries(opts: RequestOpts, labels: LabelMap): LogicalMetadata {
    MetadataOrNone(MetadataFor(opts, MetricName(labels), |opts.metadata|))
  }

  function PointAt(s: SampleWithLabels, now: Time): Point {
    Point(UnixMilli(now + s.offset), s.value)
  }

  function HistogramAt(h: HistogramWithLabels, now: Time): Histogram {
    h.histogram.(timestamp := UnixMilli(now + h.offset))
  }

  function SampleSeries(opts: RequestOpts, now: Time, i: nat): LogicalSeries
    requires i < |opts.samples|
  {
    var s := opts.samples[i];
    LogicalSeries(s.labels, [PointAt(s, now)], [],
                  ExemplarsOf(opts, SamplePlan(opts).attached[i], now),
                  MetadataOfSeries(opts, s.labels), Created(s.createdTimestamp))
  }

  function HistogramSeries(opts: RequestOpts, now: Time, i: nat): LogicalSeries
    requires i < |opts.histograms|
  {
    var h := opts.histograms[i];
    LogicalSeries(h.labels, [], [HistogramAt(h, now)],
                  ExemplarsOf(opts, HistogramPlan(opts).attached[i], now),
                  MetadataOfSeries(opts, h.labels), Created(h.createdTimestamp))
  }

  function LeftoverSeries(opts: RequestOpts, now: Time, i: nat): LogicalSeries
    requires i < |opts.exemplars|
  {
    LogicalSeries(opts.exemplars[i].labels, [], [], [ExemplarOf(opts.exemplars[i], now)], NO_METADATA, 0)
  }

  /** Metadata of a metric that no sample or histogram belongs to. */
  predicate Unattached(opts: RequestOpts, i: nat)
    requires i < |opts.metadata|
  {
    MetricName(opts.metadata[i].labels) != "" && !opts.HasName(MetricName(opts.metadata[i].labels))
  }

  function MetadataSeries(mw: MetadataWithLabels): LogicalSeries {
    LogicalSeries(mw.labels, [], [], [], MetadataOf(mw), 0)
  }

  function SamplePart(opts: RequestOpts, now: Time, n: nat): seq<LogicalSeries>
    requires n <= |opts.samples|
  {
    if n == 0 then [] else SamplePart(opts, now, n - 1) + [SampleSeries(opts, now, n - 1)]
  }

  function HistogramPart(opts: RequestOpts, now: Time, n: nat): seq<LogicalSeries>
    requires n <= |opts.histograms|
  {
    if n == 0 then [] else HistogramPart(opts, now, n - 1) + [HistogramSeries(opts, now, n - 1)]
  }

  function LeftoverPart(opts: RequestOpts, used: set<nat>, now: Time, n: nat): seq<LogicalSeries>
    requires n <= |opts.exemplars|
  {
    if n == 0 then [] else
    LeftoverPart(opts, used, now, n - 1)
    + if LeftOver(opts, used, n - 1) then [LeftoverSeries(opts, now, n - 1)] else []
  }

  function MetadataPart(opts: RequestOpts, n: nat): seq<LogicalSeries>
    requires n <= |opts.metadata|
  {
    if n == 0 then [] else
    MetadataPart(opts, n - 1) + if Unattached(opts, n - 1) then [MetadataSeries(opts.metadata[n - 1])] else []
  }

  function LogicalRequest(opts: RequestOpts, now: Time): seq<LogicalSeries> {
    SamplePart(opts, now, |opts.samples|) + HistogramPart(opts, now, |opts.histograms|)
    + LeftoverPart(opts, HistogramPlan(opts).used, now, |opts.exemplars|) + MetadataPart(opts, |opts.metadata|)
  }

  lemma {:induction false} SamplePartLength(opts: RequestOpts, now: Time, n: nat)
    requires n <= |opts.samples|
    ensures |SamplePart(opts, now, n)| == n
  {
    if n == 0 {
    } else {
      SamplePartLength(opts, now, n - 1);
    }
  }

  lemma {:induction false} HistogramPartLength(opts: RequestOpts, now: Time, n: nat)
    requires n <= |opts.histograms|
    ensures |HistogramPart(opts, now, n)| == n
  {
    if n == 0 {
    } else {
      HistogramPartLength(opts, now, n - 1);
    }
  }

  lemma {:induction false} NoLeftovers(opts: RequestOpts, now: Time, n: nat)
    requires opts.Safe() && n <= |opts.exemplars|
    ensures LeftoverPart(opts, HistogramPlan(opts).used, now, n) == []
  {
    if n == 0 {
    } else {
      NoLeftovers(opts, now, n - 1);
      assert opts.HasSeries(opts.exemplars[n - 1].labels);
    }
  }

  lemma {:induction false} NoUnattached(opts: RequestOpts, n: nat)
    requires n <= |opts.metadata| && forall i :: 0 <= i < n ==> !Unattached(opts, i)
    ensures MetadataPart(opts, n) == []
  {
    if n == 0 {
    } else {
      NoUnattached(opts, n - 1);
    }
  }

  lemma AttachedWhenSafe(opts: RequestOpts, i: nat)
    requires opts.Safe() && i < |opts.metadata|
    ensures !Unattached(opts, i)
  {
  }

  /** When the safety checks pass there is one series for each sample and histogram, and no other. */
  lemma SafeCount(opts: RequestOpts, now: Time)
    requires opts.Safe()
    ensures |LogicalRequest(opts, now)| == |opts.samples| + |opts.histograms|
  {
    SamplePartLength(opts, now, |opts.samples|);
    HistogramPartLength(opts, now, |opts.histograms|);
    NoLeftovers(opts, now, |opts.exemplars|);
    forall i | 0 <= i < |opts.metadata| ensures !Unattached(opts, i) {
      AttachedWhenSafe(opts, i);
    }
    NoUnattached(opts, |opts.metadata|);
  }
}
