/** What a remote-write request says, series by series, in the terms of its options alone. */
module RequestContents {
  import opened ExpectedAlert
  import opened UnixTime
  import opened Options
  import opened SymbolTable
  import opened RequestPlan
  import opened RequestWire
  import opened ExemplarPlacing

  /** The milliseconds since 1 January 1970, which is 719162 days after 1 January of the year 1, that have
      passed at `t`. */
  predicate Stamped(timestamp: int, t: Time) {
    0 <= t - (719_162 * 86_400 * 1_000_000_000 + timestamp * 1_000_000) < 1_000_000
  }

  lemma StampedExactly(t: Time)
    ensures Stamped(UnixMilli(t), t)
  {
  }

  predicate CreatedAt(timestamp: int, created: Option<Time>) {
    if created.Some? then Stamped(timestamp, created.value) else timestamp == 0
  }

  /** The metric name of a label set. */
  function Name(labels: LabelMap): string {
    if "__name__" in labels then labels["__name__"] else ""
  }

  /** The `k`-th metadata is the last one for a metric name; the empty name has some in unsafe requests only. */
  predicate LastFor(opts: RequestOpts, name: string, k: nat) {
    && k < |opts.metadata| && Name(opts.metadata[k].labels) == name && (name != "" || opts.unsafeRequest)
    && forall j :: k < j < |opts.metadata| ==> Name(opts.metadata[j].labels) != name
  }

  /** Type, help and unit of a metadata. */
  predicate Says(m: WireMetadata, symbols: seq<string>, mw: MetadataWithLabels) {
    && m.kind == mw.kind && m.helpRef < |symbols| && symbols[m.helpRef] == mw.help
    && m.unitRef < |symbols| && symbols[m.unitRef] == mw.unit
  }

  predicate SaysNothing(m: WireMetadata, symbols: seq<string>) {
    && m.kind == 0 && m.helpRef < |symbols| && symbols[m.helpRef] == ""
    && m.unitRef < |symbols| && symbols[m.unitRef] == ""
  }

  /** A series has the last metadata for its metric name, if there is any. */
  ghost predicate Described(opts: RequestOpts, labels: LabelMap, m: WireMetadata, symbols: seq<string>) {
    && (forall k: nat :: LastFor(opts, Name(labels), k) ==> Says(m, symbols, opts.metadata[k]))
    && ((forall k: nat :: !LastFor(opts, Name(labels), k)) ==> SaysNothing(m, symbols))
  }

  predicate ExemplarSent(e: WireExemplar, symbols: seq<string>, ew: ExemplarWithLabels, now: Time) {
    LabelsOf(e.labelsRefs, symbols) == ew.exemplarLabels && e.value == ew.value && Stamped(e.timestamp, now + ew.offset)
  }

  /** The exemplars are those with these indexes, in this order. */
  predicate ExemplarsSent(es: seq<WireExemplar>, symbols: seq<string>, opts: RequestOpts, taken: seq<nat>, now: Time) {
    && |es| == |taken|
    && forall k :: 0 <= k < |es| ==>
         taken[k] < |opts.exemplars| && ExemplarSent(es[k], symbols, opts.exemplars[taken[k]], now)
  }

  /** `taken` are the exemplars for the `k`-th of these series, in their order; those for the label sets in
      `served` went to other series before. */
  ghost predicate ForSeries(taken: seq<nat>, keys: seq<LabelMap>, exemplars: seq<ExemplarWithLabels>, k: nat,
                            served: seq<LabelMap>)
    requires k < |keys|
  {
    Rising(taken) && forall i :: i in taken <==> keys[k] !in served && Takes(keys, exemplars, k, i)
  }

  ghost predicate Carries(es: seq<WireExemplar>, symbols: seq<string>, opts: RequestOpts, keys: seq<LabelMap>, k: nat,
                          served: seq<LabelMap>, now: Time)
    requires k < |keys|
  {
    exists taken :: ForSeries(taken, keys, opts.exemplars, k, served) && ExemplarsSent(es, symbols, opts, taken, now)
  }

  ghost predicate SampleSent(ts: TimeSeries, symbols: seq<string>, opts: RequestOpts, now: Time, i: nat)
    requires i < |opts.samples|
  {
    var s := opts.samples[i];
    && LabelsOf(ts.labelsRefs, symbols) == s.labels && ts.histograms == []
    && |ts.samples| == 1 && ts.samples[0].value == s.value && Stamped(ts.samples[0].timestamp, now + s.offset)
    && CreatedAt(ts.createdTimestamp, s.createdTimestamp) && Described(opts, s.labels, ts.metadata, symbols)
    && Carries(ts.exemplars, symbols, opts, opts.SampleKeys(), i, [], now)
  }

  ghost predicate HistogramSent(ts: TimeSeries, symbols: seq<string>, opts: RequestOpts, now: Time, i: nat)
    requires i < |opts.histograms|
  {
    var h := opts.histograms[i];
    && LabelsOf(ts.labelsRefs, symbols) == h.labels && ts.samples == []
    && |ts.histograms| == 1 && ts.histograms[0].contents == h.histogram.contents
    && Stamped(ts.histograms[0].timestamp, now + h.offset)
    && CreatedAt(ts.createdTimestamp, h.createdTimestamp) && Described(opts, h.labels, ts.metadata, symbols)
    && Carries(ts.exemplars, symbols, opts, opts.HistogramKeys(), i, opts.SampleKeys(), now)
  }

  /** No sample and no histogram has the labels of the `i`-th exemplar. */
  predicate Lonely(opts: RequestOpts, i: nat)
    requires i < |opts.exemplars|
  {
    && (forall k :: 0 <= k < |opts.samples| ==> opts.samples[k].labels != opts.exemplars[i].labels)
    && (forall k :: 0 <= k < |opts.histograms| ==> opts.histograms[k].labels != opts.exemplars[i].labels)
  }

  /** The `i`-th metadata has a metric name, and no sample or histogram belongs to that metric. */
  predicate Unclaimed(opts: RequestOpts, i: nat)
    requires i < |opts.metadata|
  {
    var name := Name(opts.metadata[i].labels);
    && name != ""
    && (forall k :: 0 <= k < |opts.samples| ==> Name(opts.samples[k].labels) != name)
    && (forall k :: 0 <= k < |opts.histograms| ==> Name(opts.histograms[k].labels) != name)
  }

  function LonelyTo(opts: RequestOpts, n: nat): nat
    requires n <= |opts.exemplars|
  {
    if n == 0 then 0 else LonelyTo(opts, n - 1) + if Lonely(opts, n - 1) then 1 else 0
  }

  function UnclaimedTo(opts: RequestOpts, n: nat): nat
    requires n <= |opts.metadata|
  {
    if n == 0 then 0 else UnclaimedTo(opts, n - 1) + if Unclaimed(opts, n - 1) then 1 else 0
  }

  /** A series for an exemplar that no sample or histogram has the labels of. */
  predicate ExemplarAlone(ts: TimeSeries, symbols: seq<string>, ew: ExemplarWithLabels, now: Time) {
    && LabelsOf(ts.labelsRefs, symbols) == ew.labels && ts.samples == [] && ts.histograms == []
    && ts.createdTimestamp == 0 && SaysNothing(ts.metadata, symbols)
    && |ts.exemplars| == 1 && ExemplarSent(ts.exemplars[0], symbols, ew, now)
  }

  /** A series for metadata of a metric that no sample or histogram belongs to. */
  predicate MetadataAlone(ts: TimeSeries, symbols: seq<string>, mw: MetadataWithLabels) {
    && LabelsOf(ts.labelsRefs, symbols) == mw.labels && ts.samples == [] && ts.histograms == [] && ts.exemplars == []
    && ts.createdTimestamp == 0 && Says(ts.metadata, symbols, mw)
  }

  // ---- the logical request says it

  lemma {:induction false} LastMetadata(opts: RequestOpts, name: string, n: nat, k: nat)
    requires n <= |opts.metadata| && k < n && Name(opts.metadata[k].labels) == name
    requires (name != "" || opts.unsafeRequest) && forall j :: k < j < n ==> Name(opts.metadata[j].labels) != name
    ensures MetadataFor(opts, name, n) == Some(MetadataOf(opts.metadata[k]))
  {
    if k < n - 1 {
      LastMetadata(opts, name, n - 1, k);
    }
  }

  lemma {:induction false} SomeMetadata(opts: RequestOpts, name: string, n: nat) returns (k: nat)
    requires n <= |opts.metadata| && MetadataFor(opts, name, n).Some?
    ensures k < n && Name(opts.metadata[k].labels) == name && (name != "" || opts.unsafeRequest)
    ensures forall j :: k < j < n ==> Name(opts.metadata[j].labels) != name
  {
    if Name(opts.metadata[n - 1].labels) == name && (name != "" || opts.unsafeRequest) {
      k := n - 1;
    } else {
      k := SomeMetadata(opts, name, n - 1);
    }
  }

  lemma DescribedIs(opts: RequestOpts, labels: LabelMap, m: WireMetadata, symbols: seq<string>)
    requires DecodeMetadata(m, symbols) == MetadataOfSeries(opts, labels) && MetadataRefsIn(m, |symbols|)
    ensures Described(opts, labels, m, symbols)
  {
    var n := |opts.metadata|;
    forall k: nat | LastFor(opts, Name(labels), k) ensures Says(m, symbols, opts.metadata[k]) {
      LastMetadata(opts, Name(labels), n, k);
    }
    if forall k: nat :: !LastFor(opts, Name(labels), k) {
      if MetadataFor(opts, Name(labels), n).Some? {
        var k := SomeMetadata(opts, Name(labels), n);
        assert LastFor(opts, Name(labels), k);
      }
    }
  }

  lemma {:induction false} DecodedExemplars(es: seq<WireExemplar>, symbols: seq<string>, k: nat)
    requires k < |es|
    ensures |DecodeExemplars(es, symbols)| == |es|
    ensures DecodeExemplars(es, symbols)[k] == DecodeExemplar(es[k], symbols)
  {
    ExemplarCounts(es[..|es| - 1], symbols);
    if k < |es| - 1 {
      DecodedExemplars(es[..|es| - 1], symbols, k);
    }
  }

  lemma {:induction false} ExemplarCounts(es: seq<WireExemplar>, symbols: seq<string>)
    ensures |DecodeExemplars(es, symbols)| == |es|
  {
    if es == [] {
    } else {
      ExemplarCounts(es[..|es| - 1], symbols);
    }
  }

  lemma {:induction false} MeantCounts(opts: RequestOpts, taken: seq<nat>, now: Time)
    requires forall i :: i in taken ==> i < |opts.exemplars|
    ensures |ExemplarsOf(opts, taken, now)| == |taken|
  {
    if taken == [] {
    } else {
      var init, last := taken[..|taken| - 1], taken[|taken| - 1];
      assert last in taken && forall i :: i in init ==> i in taken;
      MeantCounts(opts, init, now);
    }
  }

  lemma {:induction false} MeantExemplars(opts: RequestOpts, taken: seq<nat>, now: Time, k: nat)
    requires (forall i :: i in taken ==> i < |opts.exemplars|) && k < |taken|
    ensures |ExemplarsOf(opts, taken, now)| == |taken| && taken[k] < |opts.exemplars|
    ensures ExemplarsOf(opts, taken, now)[k] == ExemplarOf(opts.exemplars[taken[k]], now)
  {
    var init, last := taken[..|taken| - 1], taken[|taken| - 1];
    assert last in taken && forall i :: i in init ==> i in taken;
    assert taken[k] in taken;
    MeantCounts(opts, init, now);
    if k < |taken| - 1 {
      MeantExemplars(opts, init, now, k);
    }
  }

  lemma ExemplarsAre(es: seq<WireExemplar>, symbols: seq<string>, opts: RequestOpts, taken: seq<nat>, now: Time)
    requires DecodeExemplars(es, symbols) == ExemplarsOf(opts, taken, now)
    requires forall i :: i in taken ==> i < |opts.exemplars|
    ensures ExemplarsSent(es, symbols, opts, taken, now)
  {
    ExemplarCounts(es, symbols);
    MeantCounts(opts, taken, now);
    forall k | 0 <= k < |es|
      ensures taken[k] < |opts.exemplars| && ExemplarSent(es[k], symbols, opts.exemplars[taken[k]], now)
    {
      DecodedExemplars(es, symbols, k);
      MeantExemplars(opts, taken, now, k);
      StampedExactly(now + opts.exemplars[taken[k]].offset);
    }
  }

  lemma SampleIs(ts: TimeSeries, symbols: seq<string>, opts: RequestOpts, now: Time, i: nat)
    requires i < |opts.samples| && SeriesRefsIn(ts, |symbols|)
    requires DecodeSeries(ts, symbols) == SampleSeries(opts, now, i)
    ensures SampleSent(ts, symbols, opts, now, i)
  {
    var s := opts.samples[i];
    StampedExactly(now + s.offset);
    if s.createdTimestamp.Some? {
      StampedExactly(s.createdTimestamp.value);
    }
    DescribedIs(opts, s.labels, ts.metadata, symbols);
    AttachedFits(opts.SampleKeys(), opts.exemplars, {}, |opts.samples|, i);
    ExemplarsAre(ts.exemplars, symbols, opts, SamplePlan(opts).attached[i], now);
    forall e ensures e in SamplePlan(opts).attached[i] <==> Takes(opts.SampleKeys(), opts.exemplars, i, e) {
      SampleTakes(opts, i, e);
    }
    assert ForSeries(SamplePlan(opts).attached[i], opts.SampleKeys(), opts.exemplars, i, []);
  }

  lemma HistogramIs(ts: TimeSeries, symbols: seq<string>, opts: RequestOpts, now: Time, i: nat)
    requires i < |opts.histograms| && SeriesRefsIn(ts, |symbols|)
    requires DecodeSeries(ts, symbols) == HistogramSeries(opts, now, i)
    ensures HistogramSent(ts, symbols, opts, now, i)
  {
    var h := opts.histograms[i];
    StampedExactly(now + h.offset);
    if h.createdTimestamp.Some? {
      StampedExactly(h.createdTimestamp.value);
    }
    DescribedIs(opts, h.labels, ts.metadata, symbols);
    AttachedFits(opts.HistogramKeys(), opts.exemplars, SamplePlan(opts).used, |opts.histograms|, i);
    ExemplarsAre(ts.exemplars, symbols, opts, HistogramPlan(opts).attached[i], now);
    forall e ensures e in HistogramPlan(opts).attached[i] <==>
      h.labels !in opts.SampleKeys() && Takes(opts.HistogramKeys(), opts.exemplars, i, e)
    {
      HistogramTakes(opts, i, e);
    }
    assert ForSeries(HistogramPlan(opts).attached[i], opts.HistogramKeys(), opts.exemplars, i,
                     opts.SampleKeys());
  }

  lemma ExemplarAloneIs(ts: TimeSeries, symbols: seq<string>, opts: RequestOpts, now: Time, i: nat)
    requires i < |opts.exemplars| && SeriesRefsIn(ts, |symbols|)
    requires DecodeSeries(ts, symbols) == LeftoverSeries(opts, now, i)
    ensures ExemplarAlone(ts, symbols, opts.exemplars[i], now)
  {
    ExemplarCounts(ts.exemplars, symbols);
    DecodedExemplars(ts.exemplars, symbols, 0);
    StampedExactly(now + opts.exemplars[i].offset);
  }

  lemma MetadataAloneIs(ts: TimeSeries, symbols: seq<string>, mw: MetadataWithLabels)
    requires SeriesRefsIn(ts, |symbols|) && DecodeSeries(ts, symbols) == MetadataSeries(mw)
    ensures MetadataAlone(ts, symbols, mw)
  {
    ExemplarCounts(ts.exemplars, symbols);
  }

  lemma KeysAre(opts: RequestOpts)
    ensures forall k :: 0 <= k < |opts.samples| ==> opts.SampleKeys()[k] == opts.samples[k].labels
    ensures forall k :: 0 <= k < |opts.histograms| ==> opts.HistogramKeys()[k] == opts.histograms[k].labels
  {
  }

  lemma HasSeriesExactly(opts: RequestOpts, i: nat)
    requires i < |opts.exemplars|
    ensures Lonely(opts, i) <==> !opts.HasSeries(opts.exemplars[i].labels)
  {
    KeysAre(opts);
    var labels := opts.exemplars[i].labels;
    if labels in opts.SampleKeys() {
      var k :| 0 <= k < |opts.samples| && opts.SampleKeys()[k] == labels;
      assert opts.samples[k].labels == labels;
    }
    if labels in opts.HistogramKeys() {
      var k :| 0 <= k < |opts.histograms| && opts.HistogramKeys()[k] == labels;
      assert opts.histograms[k].labels == labels;
    }
    assert forall k :: 0 <= k < |opts.samples| ==> opts.samples[k].labels in opts.SampleKeys();
    assert forall k :: 0 <= k < |opts.histograms| ==> opts.histograms[k].labels in opts.HistogramKeys();
  }

  /** The exemplars that no series takes are those that have none. */
  lemma LonelyExactly(opts: RequestOpts, i: nat)
    requires i < |opts.exemplars|
    ensures Lonely(opts, i) <==> LeftOver(opts, HistogramPlan(opts).used, i)
  {
    HasSeriesExactly(opts, i);
    AttachOnce(opts.SampleKeys(), opts.exemplars, {}, |opts.samples|, i);
    AttachOnce(opts.HistogramKeys(), opts.exemplars, SamplePlan(opts).used, |opts.histograms|, i);
  }

  lemma UnclaimedExactly(opts: RequestOpts, i: nat)
    requires i < |opts.metadata|
    ensures Unclaimed(opts, i) <==> Unattached(opts, i)
  {
    HasMetricExactly(opts, Name(opts.metadata[i].labels));
  }

  lemma NamesAre(keys: seq<LabelMap>, name: string)
    ensures name in NamesOf(keys) <==> exists k :: 0 <= k < |keys| && Name(keys[k]) == name
  {
    if k :| 0 <= k < |keys| && Name(keys[k]) == name {
      assert MetricName(keys[k]) in NamesOf(keys);
    }
  }

  /** A sample or a histogram belongs to this metric. */
  predicate HasMetric(opts: RequestOpts, name: string) {
    || (exists k :: 0 <= k < |opts.samples| && Name(opts.samples[k].labels) == name)
    || (exists k :: 0 <= k < |opts.histograms| && Name(opts.histograms[k].labels) == name)
  }

  /** What is accepted without being declared unsafe: samples or histograms, and nothing that belongs to none of
      them. */
  predicate Acceptable(opts: RequestOpts) {
    && (opts.samples == [] || opts.histograms == [])
    && (forall i :: 0 <= i < |opts.exemplars| ==> !Lonely(opts, i))
    && (forall i :: 0 <= i < |opts.metadata| ==> HasMetric(opts, Name(opts.metadata[i].labels)))
  }

  lemma HasMetricExactly(opts: RequestOpts, name: string)
    ensures HasMetric(opts, name) <==> opts.HasName(name)
  {
    KeysAre(opts);
    NamesAre(opts.SampleKeys(), name);
    NamesAre(opts.HistogramKeys(), name);
    if name in NamesOf(opts.SampleKeys()) {
      var k :| 0 <= k < |opts.samples| && Name(opts.SampleKeys()[k]) == name;
      assert Name(opts.samples[k].labels) == name;
    }
    if name in NamesOf(opts.HistogramKeys()) {
      var k :| 0 <= k < |opts.histograms| && Name(opts.HistogramKeys()[k]) == name;
      assert Name(opts.histograms[k].labels) == name;
    }
    assert forall k :: 0 <= k < |opts.samples| ==> Name(opts.SampleKeys()[k]) == Name(opts.samples[k].labels);
    assert forall k :: 0 <= k < |opts.histograms| ==>
      Name(opts.HistogramKeys()[k]) == Name(opts.histograms[k].labels);
  }

  lemma AcceptableExactly(opts: RequestOpts)
    ensures Acceptable(opts) <==> opts.Safe()
  {
    forall i | 0 <= i < |opts.exemplars| ensures Lonely(opts, i) <==> !opts.HasSeries(opts.exemplars[i].labels) {
      HasSeriesExactly(opts, i);
    }
    forall i | 0 <= i < |opts.metadata|
      ensures HasMetric(opts, Name(opts.metadata[i].labels)) <==> opts.HasName(MetricName(opts.metadata[i].labels))
    {
      HasMetricExactly(opts, Name(opts.metadata[i].labels));
    }
  }

  // ---- and so does what is sent

  lemma {:induction false} Decoded(series: seq<TimeSeries>, symbols: seq<string>, k: nat)
    requires k < |series|
    ensures |Decode(series, symbols)| == |series| && Decode(series, symbols)[k] == DecodeSeries(series[k], symbols)
  {
    if |series| == 1 {
    } else if k == |series| - 1 {
      Decoded(series[..k], symbols, 0);
    } else {
      Decoded(series[..|series| - 1], symbols, k);
    }
  }

  lemma DecodedCount(series: seq<TimeSeries>, symbols: seq<string>)
    ensures |Decode(series, symbols)| == |series|
  {
    if series != [] {
      Decoded(series, symbols, 0);
    }
  }

  lemma {:induction false} SamplePartAt(opts: RequestOpts, now: Time, n: nat, i: nat)
    requires i < n <= |opts.samples|
    ensures |SamplePart(opts, now, n)| == n && SamplePart(opts, now, n)[i] == SampleSeries(opts, now, i)
  {
    SamplePartLength(opts, now, n - 1);
    if i < n - 1 {
      SamplePartAt(opts, now, n - 1, i);
    }
  }

  lemma {:induction false} HistogramPartAt(opts: RequestOpts, now: Time, n: nat, i: nat)
    requires i < n <= |opts.histograms|
    ensures |HistogramPart(opts, now, n)| == n && HistogramPart(opts, now, n)[i] == HistogramSeries(opts, now, i)
  {
    HistogramPartLength(opts, now, n - 1);
    if i < n - 1 {
      HistogramPartAt(opts, now, n - 1, i);
    }
  }

  lemma {:induction false} LeftoverCount(opts: RequestOpts, now: Time, n: nat)
    requires n <= |opts.exemplars|
    ensures |LeftoverPart(opts, HistogramPlan(opts).used, now, n)| == LonelyTo(opts, n)
  {
    if n == 0 {
    } else {
      LeftoverCount(opts, now, n - 1);
      LonelyExactly(opts, n - 1);
    }
  }

  lemma {:induction false} LeftoverPartAt(opts: RequestOpts, now: Time, n: nat, i: nat)
    requires i < n <= |opts.exemplars| && Lonely(opts, i)
    ensures var part := LeftoverPart(opts, HistogramPlan(opts).used, now, n);
      LonelyTo(opts, i) < |part| && part[LonelyTo(opts, i)] == LeftoverSeries(opts, now, i)
  {
    LeftoverCount(opts, now, n - 1);
    LonelyExactly(opts, n - 1);
    if i < n - 1 {
      LeftoverPartAt(opts, now, n - 1, i);
    }
  }

  lemma {:induction false} MetadataCount(opts: RequestOpts, n: nat)
    requires n <= |opts.metadata|
    ensures |MetadataPart(opts, n)| == UnclaimedTo(opts, n)
  {
    if n == 0 {
    } else {
      MetadataCount(opts, n - 1);
      UnclaimedExactly(opts, n - 1);
    }
  }

  lemma {:induction false} MetadataPartAt(opts: RequestOpts, n: nat, i: nat)
    requires i < n <= |opts.metadata| && Unclaimed(opts, i)
    ensures UnclaimedTo(opts, i) < |MetadataPart(opts, n)|
    ensures MetadataPart(opts, n)[UnclaimedTo(opts, i)] == MetadataSeries(opts.metadata[i])
  {
    MetadataCount(opts, n - 1);
    UnclaimedExactly(opts, n - 1);
    if i < n - 1 {
      MetadataPartAt(opts, n - 1, i);
    }
  }

  // ---- the whole request

  /** How many series a request has. */
  function SeriesIn(opts: RequestOpts): nat {
    PlaceOfMetadata(opts, |opts.metadata|)
  }

  /** The place of the series for an unclaimed metadata. */
  function PlaceOfMetadata(opts: RequestOpts, i: nat): nat
    requires i <= |opts.metadata|
  {
    |opts.samples| + |opts.histograms| + LonelyTo(opts, |opts.exemplars|) + UnclaimedTo(opts, i)
  }

  ghost predicate SampleTold(req: Request, opts: RequestOpts, now: Time, i: nat)
    requires i < |opts.samples|
  {
    i < |req.timeseries| && SampleSent(req.timeseries[i], req.symbols, opts, now, i)
  }

  ghost predicate HistogramTold(req: Request, opts: RequestOpts, now: Time, i: nat)
    requires i < |opts.histograms|
  {
    var k := |opts.samples| + i;
    k < |req.timeseries| && HistogramSent(req.timeseries[k], req.symbols, opts, now, i)
  }

  predicate ExemplarTold(req: Request, opts: RequestOpts, now: Time, i: nat)
    requires i < |opts.exemplars|
  {
    var k := |opts.samples| + |opts.histograms| + LonelyTo(opts, i);
    k < |req.timeseries| && ExemplarAlone(req.timeseries[k], req.symbols, opts.exemplars[i], now)
  }

  predicate MetadataTold(req: Request, opts: RequestOpts, i: nat)
    requires i < |opts.metadata|
  {
    var k := PlaceOfMetadata(opts, i);
    k < |req.timeseries| && MetadataAlone(req.timeseries[k], req.symbols, opts.metadata[i])
  }

  /** What a request says, and it has no other series: one for each sample, then one for each histogram, then
      one for each exemplar and each metadata that belongs to none of these. */
  ghost predicate Tells(req: Request, opts: RequestOpts, now: Time) {
    && |req.timeseries| == SeriesIn(opts)
    && (forall i :: 0 <= i < |opts.samples| ==> SampleTold(req, opts, now, i))
    && (forall i :: 0 <= i < |opts.histograms| ==> HistogramTold(req, opts, now, i))
    && (forall i :: 0 <= i < |opts.exemplars| && Lonely(opts, i) ==> ExemplarTold(req, opts, now, i))
    && (forall i :: 0 <= i < |opts.metadata| && Unclaimed(opts, i) ==> MetadataTold(req, opts, i))
  }

  lemma FirstPart<T>(a: seq<T>, b: seq<T>, c: seq<T>, d: seq<T>, j: nat)
    requires j < |a|
    ensures j < |a + b + c + d| && (a + b + c + d)[j] == a[j]
  {
  }

  lemma SecondPart<T>(a: seq<T>, b: seq<T>, c: seq<T>, d: seq<T>, j: nat)
    requires j < |b|
    ensures |a| + j < |a + b + c + d| && (a + b + c + d)[|a| + j] == b[j]
  {
  }

  lemma ThirdPart<T>(a: seq<T>, b: seq<T>, c: seq<T>, d: seq<T>, j: nat)
    requires j < |c|
    ensures |a| + |b| + j < |a + b + c + d| && (a + b + c + d)[|a| + |b| + j] == c[j]
  {
  }

  lemma FourthPart<T>(a: seq<T>, b: seq<T>, c: seq<T>, d: seq<T>, j: nat)
    requires j < |d|
    ensures |a| + |b| + |c| + j < |a + b + c + d| && (a + b + c + d)[|a| + |b| + |c| + j] == d[j]
  {
  }

  /** The parts of the logical request. */
  ghost predicate Parts(opts: RequestOpts, now: Time, a: seq<LogicalSeries>, b: seq<LogicalSeries>,
                        c: seq<LogicalSeries>, d: seq<LogicalSeries>)
  {
    && a == SamplePart(opts, now, |opts.samples|) && |a| == |opts.samples|
    && b == HistogramPart(opts, now, |opts.histograms|) && |b| == |opts.histograms|
    && c == LeftoverPart(opts, HistogramPlan(opts).used, now, |opts.exemplars|)
    && |c| == LonelyTo(opts, |opts.exemplars|)
    && d == MetadataPart(opts, |opts.metadata|) && |d| == UnclaimedTo(opts, |opts.metadata|)
    && LogicalRequest(opts, now) == a + b + c + d
  }

  lemma TheParts(opts: RequestOpts, now: Time)
    returns (a: seq<LogicalSeries>, b: seq<LogicalSeries>, c: seq<LogicalSeries>, d: seq<LogicalSeries>)
    ensures Parts(opts, now, a, b, c, d)
  {
    SamplePartLength(opts, now, |opts.samples|);
    HistogramPartLength(opts, now, |opts.histograms|);
    LeftoverCount(opts, now, |opts.exemplars|);
    MetadataCount(opts, |opts.metadata|);
    a, b := SamplePart(opts, now, |opts.samples|), HistogramPart(opts, now, |opts.histograms|);
    c := LeftoverPart(opts, HistogramPlan(opts).used, now, |opts.exemplars|);
    d := MetadataPart(opts, |opts.metadata|);
  }

  lemma CountIs(opts: RequestOpts, now: Time)
    ensures |LogicalRequest(opts, now)| == SeriesIn(opts)
  {
    var a, b, c, d := TheParts(opts, now);
  }

  lemma SampleAt(opts: RequestOpts, now: Time, i: nat)
    requires i < |opts.samples|
    ensures i < |LogicalRequest(opts, now)| && LogicalRequest(opts, now)[i] == SampleSeries(opts, now, i)
  {
    var a, b, c, d := TheParts(opts, now);
    FirstPart(a, b, c, d, i);
    SamplePartAt(opts, now, |opts.samples|, i);
  }

  lemma HistogramAtIndex(opts: RequestOpts, now: Time, i: nat)
    requires i < |opts.histograms|
    ensures var k := |opts.samples| + i;
      k < |LogicalRequest(opts, now)| && LogicalRequest(opts, now)[k] == HistogramSeries(opts, now, i)
  {
    var a, b, c, d := TheParts(opts, now);
    SecondPart(a, b, c, d, i);
    HistogramPartAt(opts, now, |opts.histograms|, i);
  }

  lemma LeftoverAt(opts: RequestOpts, now: Time, i: nat)
    requires i < |opts.exemplars| && Lonely(opts, i)
    ensures var k := |opts.samples| + |opts.histograms| + LonelyTo(opts, i);
      k < |LogicalRequest(opts, now)| && LogicalRequest(opts, now)[k] == LeftoverSeries(opts, now, i)
  {
    var a, b, c, d := TheParts(opts, now);
    LeftoverPartAt(opts, now, |opts.exemplars|, i);
    ThirdPart(a, b, c, d, LonelyTo(opts, i));
  }

  lemma MetadataAt(opts: RequestOpts, now: Time, i: nat)
    requires i < |opts.metadata| && Unclaimed(opts, i)
    ensures var k := PlaceOfMetadata(opts, i);
      k < |LogicalRequest(opts, now)| && LogicalRequest(opts, now)[k] == MetadataSeries(opts.metadata[i])
  {
    var a, b, c, d := TheParts(opts, now);
    MetadataPartAt(opts, |opts.metadata|, i);
    FourthPart(a, b, c, d, UnclaimedTo(opts, i));
  }

  /** A series of the request stands for the one at its place. */
  lemma StandsFor(req: Request, logical: seq<LogicalSeries>, k: nat)
    requires Decode(req.timeseries, req.symbols) == logical && RefsIn(req.timeseries, |req.symbols|)
    requires k < |logical|
    ensures k < |req.timeseries| && SeriesRefsIn(req.timeseries[k], |req.symbols|)
    ensures DecodeSeries(req.timeseries[k], req.symbols) == logical[k]
  {
    DecodedCount(req.timeseries, req.symbols);
    Decoded(req.timeseries, req.symbols, k);
  }

  /** A request that decodes to the logical one tells it all. */
  lemma ContentsTold(req: Request, opts: RequestOpts, now: Time)
    requires Decode(req.timeseries, req.symbols) == LogicalRequest(opts, now)
    requires RefsIn(req.timeseries, |req.symbols|)
    ensures Tells(req, opts, now)
  {
    var logical := LogicalRequest(opts, now);
    DecodedCount(req.timeseries, req.symbols);
    CountIs(opts, now);
    forall i | 0 <= i < |opts.samples| ensures SampleTold(req, opts, now, i) {
      TellsSample(req, opts, now, logical, i);
    }
    forall i | 0 <= i < |opts.histograms| ensures HistogramTold(req, opts, now, i) {
      TellsHistogram(req, opts, now, logical, i);
    }
    forall i | 0 <= i < |opts.exemplars| && Lonely(opts, i) ensures ExemplarTold(req, opts, now, i) {
      TellsExemplar(req, opts, now, logical, i);
    }
    forall i | 0 <= i < |opts.metadata| && Unclaimed(opts, i) ensures MetadataTold(req, opts, i) {
      TellsMetadata(req, opts, now, logical, i);
    }
  }

  lemma TellsSample(req: Request, opts: RequestOpts, now: Time, logical: seq<LogicalSeries>, i: nat)
    requires Decode(req.timeseries, req.symbols) == logical == LogicalRequest(opts, now)
    requires RefsIn(req.timeseries, |req.symbols|) && i < |opts.samples|
    ensures SampleTold(req, opts, now, i)
  {
    SampleAt(opts, now, i);
    StandsFor(req, logical, i);
    SampleIs(req.timeseries[i], req.symbols, opts, now, i);
  }

  lemma TellsHistogram(req: Request, opts: RequestOpts, now: Time, logical: seq<LogicalSeries>, i: nat)
    requires Decode(req.timeseries, req.symbols) == logical == LogicalRequest(opts, now)
    requires RefsIn(req.timeseries, |req.symbols|) && i < |opts.histograms|
    ensures HistogramTold(req, opts, now, i)
  {
    HistogramAtIndex(opts, now, i);
    StandsFor(req, logical, |opts.samples| + i);
    HistogramIs(req.timeseries[|opts.samples| + i], req.symbols, opts, now, i);
  }

  lemma TellsExemplar(req: Request, opts: RequestOpts, now: Time, logical: seq<LogicalSeries>, i: nat)
    requires Decode(req.timeseries, req.symbols) == logical == LogicalRequest(opts, now)
    requires RefsIn(req.timeseries, |req.symbols|) && i < |opts.exemplars| && Lonely(opts, i)
    ensures ExemplarTold(req, opts, now, i)
  {
    LeftoverAt(opts, now, i);
    ExemplarStands(req, opts, now, logical, |opts.samples| + |opts.histograms| + LonelyTo(opts, i), i);
  }

  lemma ExemplarStands(req: Request, opts: RequestOpts, now: Time, logical: seq<LogicalSeries>, k: nat, i: nat)
    requires Decode(req.timeseries, req.symbols) == logical && RefsIn(req.timeseries, |req.symbols|)
    requires i < |opts.exemplars| && k < |logical| && logical[k] == LeftoverSeries(opts, now, i)
    ensures k < |req.timeseries| && ExemplarAlone(req.timeseries[k], req.symbols, opts.exemplars[i], now)
  {
    StandsFor(req, logical, k);
    ExemplarAloneIs(req.timeseries[k], req.symbols, opts, now, i);
  }

  lemma TellsMetadata(req: Request, opts: RequestOpts, now: Time, logical: seq<LogicalSeries>, i: nat)
    requires Decode(req.timeseries, req.symbols) == logical == LogicalRequest(opts, now)
    requires RefsIn(req.timeseries, |req.symbols|) && i < |opts.metadata| && Unclaimed(opts, i)
    ensures MetadataTold(req, opts, i)
  {
    MetadataAt(opts, now, i);
    MetadataStands(req, logical, PlaceOfMetadata(opts, i), opts.metadata[i]);
  }

  lemma MetadataStands(req: Request, logical: seq<LogicalSeries>, k: nat, mw: MetadataWithLabels)
    requires Decode(req.timeseries, req.symbols) == logical && RefsIn(req.timeseries, |req.symbols|)
    requires k < |logical| && logical[k] == MetadataSeries(mw)
    ensures k < |req.timeseries| && MetadataAlone(req.timeseries[k], req.symbols, mw)
  {
    StandsFor(req, logical, k);
    MetadataAloneIs(req.timeseries[k], req.symbols, mw);
  }
}
