/** Building a remote-write request (generateRequest in remotewrite/receiver/helpers_test.go).
    Whatever order the maps are iterated in, the request decodes to RequestPlan.LogicalRequest. */
module GenerateRequest {
  import opened Sequences
  import opened ExpectedAlert
  import opened UnixTime
  import opened Options
  import opened SymbolTable
  import opened RequestPlan
  import opened RequestWire
  import opened RequestContents

  // ---- matching labels

  method LabelsMatch(metric: LabelMap, labels: LabelMap) returns (matching: bool)
    ensures matching <==> metric == labels
  {
    if |metric| != |labels| {
      return false;
    }
    var todo := labels.Keys;
    while todo != {}
      invariant todo <= labels.Keys
      invariant forall k :: k in labels && k !in todo ==> k in metric && metric[k] == labels[k]
      decreases todo
    {
      var k :| k in todo;
      if k !in metric || metric[k] != labels[k] {
        return false;
      }
      todo := todo - {k};
    }
    SameSizeSubset(labels.Keys, metric.Keys);
    return true;
  }

  lemma SameSizeSubset<T>(a: set<T>, b: set<T>)
    requires a <= b && |a| == |b|
    ensures a == b
  {
    assert |b - a| == 0;
  }

  method MatchesSome(keys: seq<LabelMap>, labels: LabelMap) returns (found: bool)
    ensures found <==> labels in keys
  {
    var i := 0;
    while i < |keys|
      invariant 0 <= i <= |keys|
      invariant labels !in keys[..i]
    {
      var matching := LabelsMatch(keys[i], labels);
      if matching {
        return true;
      }
      i := i + 1;
    }
    assert keys[..i] == keys;
    return false;
  }

  method NamesSome(keys: seq<LabelMap>, name: string) returns (found: bool)
    ensures found <==> name in NamesOf(keys)
  {
    var i := 0;
    while i < |keys|
      invariant 0 <= i <= |keys|
      invariant forall j :: 0 <= j < i ==> MetricName(keys[j]) != name
    {
      if MetricName(keys[i]) == name {
        return true;
      }
      i := i + 1;
    }
    return false;
  }

  method HasSeries(opts: RequestOpts, labels: LabelMap) returns (found: bool)
    ensures found <==> opts.HasSeries(labels)
  {
    found := MatchesSome(opts.SampleKeys(), labels);
    if !found {
      found := MatchesSome(opts.HistogramKeys(), labels);
    }
  }

  method HasName(opts: RequestOpts, name: string) returns (found: bool)
    ensures found <==> opts.HasName(name)
  {
    found := NamesSome(opts.SampleKeys(), name);
    if !found {
      found := NamesSome(opts.HistogramKeys(), name);
    }
  }

  /** False where the original panics. */
  method CheckSafety(opts: RequestOpts) returns (safe: bool)
    ensures safe <==> opts.Safe()
    ensures safe <==> Acceptable(opts)
  {
    AcceptableExactly(opts);
    if |opts.samples| > 0 && |opts.histograms| > 0 {
      return false;
    }
    var i := 0;
    while i < |opts.exemplars|
      invariant 0 <= i <= |opts.exemplars|
      invariant forall j :: 0 <= j < i ==> opts.HasSeries(opts.exemplars[j].labels)
    {
      var found := HasSeries(opts, opts.exemplars[i].labels);
      if !found {
        return false;
      }
      i := i + 1;
    }
    i := 0;
    while i < |opts.metadata|
      invariant 0 <= i <= |opts.metadata|
      invariant forall j :: 0 <= j < i ==> opts.HasName(MetricName(opts.metadata[j].labels))
    {
      var found := HasName(opts, MetricName(opts.metadata[i].labels));
      if !found {
        return false;
      }
      i := i + 1;
    }
    return true;
  }

  ghost predicate LastIndexAt(last: map<LabelMap, nat>, keys: seq<LabelMap>, i: int) {
    0 <= i < |keys| ==> keys[i] in last && (last[keys[i]] == i <==> IsLast(keys, i))
  }

  ghost predicate LastIndexes(last: map<LabelMap, nat>, keys: seq<LabelMap>) {
    forall i :: LastIndexAt(last, keys, i)
  }

  /** The index of the last series of each label set. */
  method LastSeries(keys: seq<LabelMap>) returns (last: map<LabelMap, nat>)
    ensures LastIndexes(last, keys)
  {
    last := map[];
    var i := 0;
    while i < |keys|
      invariant 0 <= i <= |keys|
      invariant forall k :: k in last ==> last[k] < i && keys[last[k]] == k
      invariant forall j :: 0 <= j < i ==> keys[j] in last && j <= last[keys[j]]
    {
      last := last[keys[i] := i];
      i := i + 1;
    }
  }

  function IsLastIndex(last: map<LabelMap, nat>, ghost keys: seq<LabelMap>, i: nat, labels: LabelMap): (isLast: bool)
    requires LastIndexes(last, keys) && i < |keys| && keys[i] == labels
    ensures isLast == IsLast(keys, i)
  {
    assert LastIndexAt(last, keys, i);
    last[labels] == i
  }

  // ---- metadata

  /** The metadata collected from the first `n` entries, by metric name. */
  ghost predicate Collected(byName: map<string, WireMetadata>, symbols: seq<string>, opts: RequestOpts, n: nat) {
    && n <= |opts.metadata|
    && (forall name :: name in byName <==> MetadataFor(opts, name, n).Some?)
    && (forall name :: name in byName ==>
          && MetadataRefsIn(byName[name], |symbols|)
          && Some(DecodeMetadata(byName[name], symbols)) == MetadataFor(opts, name, n))
  }

  lemma CollectedKept(byName: map<string, WireMetadata>, symbols: seq<string>, more: seq<string>, opts: RequestOpts,
                      n: nat)
    requires Collected(byName, symbols, opts, n) && symbols <= more
    ensures Collected(byName, more, opts, n)
  {
  }

  lemma CollectNext(byName: map<string, WireMetadata>, symbols: seq<string>, opts: RequestOpts, n: nat, m: WireMetadata)
    requires n < |opts.metadata| && Collected(byName, symbols, opts, n)
    requires MetadataRefsIn(m, |symbols|) && DecodeMetadata(m, symbols) == MetadataOf(opts.metadata[n])
    ensures var name := MetricName(opts.metadata[n].labels);
      Collected(if name != "" || opts.unsafeRequest then byName[name := m] else byName, symbols, opts, n + 1)
  {
  }

  method EmitMetadata(symbols: Table, mw: MetadataWithLabels) returns (m: WireMetadata)
    requires symbols.Valid()
    modifies symbols
    ensures symbols.Valid() && old(symbols.strings) <= symbols.strings
    ensures MetadataRefsIn(m, |symbols.strings|) && DecodeMetadata(m, symbols.strings) == MetadataOf(mw)
  {
    var help := symbols.Symbolize(mw.help);
    var unit := symbols.Symbolize(mw.unit);
    m := WireMetadata(mw.kind, help, unit);
  }

  method CollectOne(symbols: Table, opts: RequestOpts, i: nat, byName: map<string, WireMetadata>)
    returns (byName': map<string, WireMetadata>)
    requires symbols.Valid() && i < |opts.metadata| && Collected(byName, symbols.strings, opts, i)
    modifies symbols
    ensures symbols.Valid() && old(symbols.strings) <= symbols.strings
    ensures Collected(byName', symbols.strings, opts, i + 1)
  {
    var mw := opts.metadata[i];
    var metricName := MetricName(mw.labels);
    if metricName != "" || opts.unsafeRequest {
      var m := EmitMetadata(symbols, mw);
      CollectedKept(byName, old(symbols.strings), symbols.strings, opts, i);
      CollectNext(byName, symbols.strings, opts, i, m);
      byName' := byName[metricName := m];
    } else {
      byName' := byName;
    }
  }

  method CollectMetadata(symbols: Table, opts: RequestOpts) returns (byName: map<string, WireMetadata>)
    requires symbols.Valid()
    modifies symbols
    ensures symbols.Valid() && old(symbols.strings) <= symbols.strings
    ensures Collected(byName, symbols.strings, opts, |opts.metadata|)
  {
    byName := map[];
    var i := 0;
    while i < |opts.metadata|
      invariant 0 <= i <= |opts.metadata|
      invariant symbols.Valid() && old(symbols.strings) <= symbols.strings
      invariant Collected(byName, symbols.strings, opts, i)
    {
      byName := CollectOne(symbols, opts, i, byName);
      i := i + 1;
    }
  }

  // ---- exemplars

  method EmitExemplar(symbols: Table, ew: ExemplarWithLabels, now: Time) returns (e: WireExemplar)
    requires symbols.Valid()
    modifies symbols
    ensures symbols.Valid() && old(symbols.strings) <= symbols.strings
    ensures ValidRefs(e.labelsRefs, |symbols.strings|) && DecodeExemplar(e, symbols.strings) == ExemplarOf(ew, now)
  {
    var refs := symbols.SymbolizeLabels(ew.exemplarLabels);
    e := WireExemplar(refs, ew.value, UnixMilli(now + ew.offset));
  }

  /** The exemplars emitted so far are those of `taken`. */
  ghost predicate ExemplarsEmitted(es: seq<WireExemplar>, symbols: seq<string>, opts: RequestOpts, taken: seq<nat>,
                                   now: Time)
  {
    ExemplarRefsIn(es, |symbols|) && DecodeExemplars(es, symbols) == ExemplarsOf(opts, taken, now)
  }

  lemma ExemplarNext(es: seq<WireExemplar>, symbols: seq<string>, more: seq<string>, opts: RequestOpts, taken: seq<nat>,
                     now: Time, e: WireExemplar, i: nat)
    requires ExemplarsEmitted(es, symbols, opts, taken, now) && symbols <= more
    requires i < |opts.exemplars| && ValidRefs(e.labelsRefs, |more|)
    requires DecodeExemplar(e, more) == ExemplarOf(opts.exemplars[i], now)
    ensures ExemplarsEmitted(es + [e], more, opts, taken + [i], now)
  {
    ExemplarsKept(es, symbols, more);
    assert (es + [e])[..|es|] == es;
    assert (taken + [i])[..|taken|] == taken;
  }

  function SetOf(s: seq<nat>): set<nat> {
    set i | i in s
  }

  /** What the loop over the exemplars keeps: `taken` are attached and used. */
  ghost predicate Attaching(attached: seq<WireExemplar>, used: set<nat>, symbols: seq<string>, opts: RequestOpts,
                            usedBefore: set<nat>, taken: seq<nat>, now: Time)
  {
    && ExemplarsEmitted(attached, symbols, opts, taken, now)
    && used == usedBefore + SetOf(taken)
  }

  lemma AttachNext(attached: seq<WireExemplar>, used: set<nat>, symbols: seq<string>, more: seq<string>,
                   opts: RequestOpts, usedBefore: set<nat>, taken: seq<nat>, now: Time, e: WireExemplar, i: nat)
    requires Attaching(attached, used, symbols, opts, usedBefore, taken, now) && symbols <= more
    requires i < |opts.exemplars| && ValidRefs(e.labelsRefs, |more|)
    requires DecodeExemplar(e, more) == ExemplarOf(opts.exemplars[i], now)
    ensures Attaching(attached + [e], used + {i}, more, opts, usedBefore, taken + [i], now)
  {
    ExemplarNext(attached, symbols, more, opts, taken, now, e, i);
    assert SetOf(taken + [i]) == SetOf(taken) + {i};
  }

  /** `taken` is what the series takes of the exemplars before `ei`. */
  ghost predicate TakenBefore(taken: seq<nat>, exemplars: seq<ExemplarWithLabels>, labels: LabelMap, used: set<nat>,
                              last: bool, ei: nat)
  {
    && (forall i :: i in taken ==> i < ei)
    && taken + Take(exemplars, labels, used, last, ei) == Take(exemplars, labels, used, last, 0)
  }

  lemma TakeNext(taken: seq<nat>, exemplars: seq<ExemplarWithLabels>, labels: LabelMap, used: set<nat>, last: bool,
                 ei: nat)
    requires ei < |exemplars| && TakenBefore(taken, exemplars, labels, used, last, ei)
    ensures var takes := ei !in used && exemplars[ei].labels == labels;
      && (!takes ==> TakenBefore(taken, exemplars, labels, used, last, ei + 1))
      && (takes && last ==> TakenBefore(taken + [ei], exemplars, labels, used, last, ei + 1))
      && (takes && !last ==> taken + [ei] == Take(exemplars, labels, used, last, 0))
  {
    var rest := Take(exemplars, labels, used, last, ei + 1);
    assert taken + ([ei] + rest) == (taken + [ei]) + rest;
  }

  lemma NotYetUsed(used: set<nat>, usedBefore: set<nat>, taken: seq<nat>, ei: nat)
    requires used == usedBefore + SetOf(taken) && forall i :: i in taken ==> i < ei
    ensures ei in used <==> ei in usedBefore
  {
  }

  method AttachOne(symbols: Table, opts: RequestOpts, ei: nat, attached: seq<WireExemplar>, used: set<nat>, now: Time,
                   ghost usedBefore: set<nat>, ghost taken: seq<nat>)
    returns (attached': seq<WireExemplar>, used': set<nat>)
    requires symbols.Valid() && ei < |opts.exemplars|
    requires Attaching(attached, used, symbols.strings, opts, usedBefore, taken, now)
    modifies symbols
    ensures symbols.Valid() && old(symbols.strings) <= symbols.strings
    ensures Attaching(attached', used', symbols.strings, opts, usedBefore, taken + [ei], now)
  {
    ghost var before := symbols.strings;
    var exemplar := EmitExemplar(symbols, opts.exemplars[ei], now);
    AttachNext(attached, used, before, symbols.strings, opts, usedBefore, taken, now, exemplar, ei);
    attached', used' := attached + [exemplar], used + {ei};
  }

  /** The loop over the exemplars, for one series. */
  method AttachExemplars(symbols: Table, opts: RequestOpts, labels: LabelMap, usedExemplars: set<nat>, isLast: bool,
                         now: Time)
    returns (attached: seq<WireExemplar>, used: set<nat>)
    requires symbols.Valid()
    modifies symbols
    ensures symbols.Valid() && old(symbols.strings) <= symbols.strings
    ensures Attaching(attached, used, symbols.strings, opts, usedExemplars,
                      Take(opts.exemplars, labels, usedExemplars, isLast, 0), now)
  {
    attached, used := [], usedExemplars;
    ghost var taken: seq<nat> := [];
    var ei: nat := 0;
    while ei < |opts.exemplars|
      invariant 0 <= ei <= |opts.exemplars|
      invariant symbols.Valid() && old(symbols.strings) <= symbols.strings
      invariant Attaching(attached, used, symbols.strings, opts, usedExemplars, taken, now)
      invariant TakenBefore(taken, opts.exemplars, labels, usedExemplars, isLast, ei)
    {
      TakeNext(taken, opts.exemplars, labels, usedExemplars, isLast, ei);
      NotYetUsed(used, usedExemplars, taken, ei);
      if ei !in used {
        var matching := LabelsMatch(labels, opts.exemplars[ei].labels);
        if matching {
          attached, used := AttachOne(symbols, opts, ei, attached, used, now, usedExemplars, taken);
          taken := taken + [ei];
          if !isLast {
            return;
          }
        }
      }
      ei := ei + 1;
    }
    assert taken + [] == taken;
  }

  // ---- the series of samples and of histograms

  /** A series with its labels, then its exemplars, then the metadata of its metric. */
  method EmitSeries(symbols: Table, opts: RequestOpts, metadataByName: map<string, WireMetadata>, labels: LabelMap,
                    samples: seq<Point>, histograms: seq<Histogram>, createdTimestamp: int,
                    usedExemplars: set<nat>, isLast: bool, now: Time, ghost s0: seq<string>)
    returns (ts: TimeSeries, used: set<nat>)
    requires symbols.Valid() && s0 <= symbols.strings && Collected(metadataByName, s0, opts, |opts.metadata|)
    modifies symbols
    ensures symbols.Valid() && old(symbols.strings) <= symbols.strings
    ensures var taken := Take(opts.exemplars, labels, usedExemplars, isLast, 0);
      && used == usedExemplars + SetOf(taken)
      && SeriesRefsIn(ts, |symbols.strings|)
      && DecodeSeries(ts, symbols.strings) == LogicalSeries(
           labels, samples, histograms, ExemplarsOf(opts, taken, now), MetadataOfSeries(opts, labels), createdTimestamp)
  {
    var labelRefs := symbols.SymbolizeLabels(labels);
    ghost var s1 := symbols.strings;
    var exemplars;
    exemplars, used := AttachExemplars(symbols, opts, labels, usedExemplars, isLast, now);
    LabelsKept(labelRefs, s1, symbols.strings, |labelRefs| / 2);
    CollectedKept(metadataByName, s0, symbols.strings, opts, |opts.metadata|);
    var metricName := MetricName(labels);
    var metadata := UNSET_METADATA;
    if metricName != "" || opts.unsafeRequest {
      if metricName in metadataByName {
        metadata := metadataByName[metricName];
      }
    }
    AttachedMetadata(metadataByName, symbols.strings, opts, labels, metadata);
    ts := TimeSeries(labelRefs, samples, histograms, exemplars, metadata, createdTimestamp);
  }

  lemma AttachedMetadata(byName: map<string, WireMetadata>, symbols: seq<string>, opts: RequestOpts, labels: LabelMap,
                         m: WireMetadata)
    requires Collected(byName, symbols, opts, |opts.metadata|) && symbols != [] && symbols[0] == ""
    requires var name := MetricName(labels);
      m == if (name != "" || opts.unsafeRequest) && name in byName then byName[name] else UNSET_METADATA
    ensures MetadataRefsIn(m, |symbols|) && DecodeMetadata(m, symbols) == MetadataOfSeries(opts, labels)
  {
    NamelessMetadata(opts, |opts.metadata|);
  }

  lemma {:induction false} NamelessMetadata(opts: RequestOpts, n: nat)
    requires n <= |opts.metadata|
    ensures !opts.unsafeRequest ==> MetadataFor(opts, "", n) == None
  {
    if n == 0 {
    } else {
      NamelessMetadata(opts, n - 1);
    }
  }

  lemma AttachStep(keys: seq<LabelMap>, exemplars: seq<ExemplarWithLabels>, used: set<nat>, i: nat)
    requires i < |keys|
    ensures var p := Attach(keys, exemplars, used, i);
      var taken := Take(exemplars, keys[i], p.used, IsLast(keys, i), 0);
      && Attach(keys, exemplars, used, i + 1).used == p.used + SetOf(taken)
      && Attach(keys, exemplars, used, |keys|).attached[i] == taken
  {
    AttachedAt(keys, exemplars, used, |keys|, i);
  }

  /** The exemplars that the first `i` samples use. */
  function UsedBySamples(opts: RequestOpts, i: nat): set<nat>
    requires i <= |opts.samples|
  {
    Attach(opts.SampleKeys(), opts.exemplars, {}, i).used
  }

  /** The exemplars that all samples and the first `i` histograms use. */
  function UsedByHistograms(opts: RequestOpts, i: nat): set<nat>
    requires i <= |opts.histograms|
  {
    Attach(opts.HistogramKeys(), opts.exemplars, SamplePlan(opts).used, i).used
  }

  lemma SampleStep(opts: RequestOpts, now: Time, i: nat, isLast: bool)
    requires i < |opts.samples| && isLast == IsLast(opts.SampleKeys(), i)
    ensures var s := opts.samples[i];
      var taken := Take(opts.exemplars, s.labels, UsedBySamples(opts, i), isLast, 0);
      && UsedBySamples(opts, i + 1) == UsedBySamples(opts, i) + SetOf(taken)
      && SampleSeries(opts, now, i) == LogicalSeries(
           s.labels, [PointAt(s, now)], [], ExemplarsOf(opts, taken, now),
           MetadataOfSeries(opts, s.labels), Created(s.createdTimestamp))
  {
    AttachStep(opts.SampleKeys(), opts.exemplars, {}, i);
  }

  lemma HistogramStep(opts: RequestOpts, now: Time, i: nat, isLast: bool)
    requires i < |opts.histograms| && isLast == IsLast(opts.HistogramKeys(), i)
    ensures var h := opts.histograms[i];
      var taken := Take(opts.exemplars, h.labels, UsedByHistograms(opts, i), isLast, 0);
      && UsedByHistograms(opts, i + 1) == UsedByHistograms(opts, i) + SetOf(taken)
      && HistogramSeries(opts, now, i) == LogicalSeries(
           h.labels, [], [HistogramAt(h, now)], ExemplarsOf(opts, taken, now),
           MetadataOfSeries(opts, h.labels), Created(h.createdTimestamp))
  {
    AttachStep(opts.HistogramKeys(), opts.exemplars, SamplePlan(opts).used, i);
  }

  /** The first `i` samples are emitted, with their exemplars. */
  ghost predicate SamplesAdded(timeseries: seq<TimeSeries>, used: set<nat>, symbols: seq<string>, opts: RequestOpts,
                               now: Time, i: nat)
  {
    && i <= |opts.samples|
    && Emitted(timeseries, symbols, SamplePart(opts, now, i))
    && used == UsedBySamples(opts, i)
  }

  lemma SampleAdded(timeseries: seq<TimeSeries>, used: set<nat>, symbols: seq<string>, more: seq<string>,
                    opts: RequestOpts, now: Time, i: nat, ts: TimeSeries)
    requires i < |opts.samples| && SamplesAdded(timeseries, used, symbols, opts, now, i) && symbols <= more
    requires SeriesRefsIn(ts, |more|) && DecodeSeries(ts, more) == SampleSeries(opts, now, i)
    ensures SamplesAdded(timeseries + [ts], UsedBySamples(opts, i + 1), more, opts, now, i + 1)
  {
    EmitNext(timeseries, symbols, more, SamplePart(opts, now, i), ts, SampleSeries(opts, now, i));
  }

  method EmitSample(symbols: Table, opts: RequestOpts, metadataByName: map<string, WireMetadata>, now: Time, i: nat,
                    isLast: bool, used: set<nat>, ghost s0: seq<string>)
    returns (ts: TimeSeries, used': set<nat>)
    requires symbols.Valid() && s0 <= symbols.strings && Collected(metadataByName, s0, opts, |opts.metadata|)
    requires i < |opts.samples| && used == UsedBySamples(opts, i)
    requires isLast == IsLast(opts.SampleKeys(), i)
    modifies symbols
    ensures symbols.Valid() && old(symbols.strings) <= symbols.strings
    ensures SeriesRefsIn(ts, |symbols.strings|) && DecodeSeries(ts, symbols.strings) == SampleSeries(opts, now, i)
    ensures used' == UsedBySamples(opts, i + 1)
  {
    var s := opts.samples[i];
    SampleStep(opts, now, i, isLast);
    ts, used' := EmitSeries(symbols, opts, metadataByName, s.labels, [PointAt(s, now)], [],
                            Created(s.createdTimestamp), used, isLast, now, s0);
  }

  method AddSample(symbols: Table, opts: RequestOpts, metadataByName: map<string, WireMetadata>, now: Time, i: nat,
                   last: map<LabelMap, nat>, timeseries: seq<TimeSeries>, used: set<nat>, ghost s0: seq<string>)
    returns (timeseries': seq<TimeSeries>, used': set<nat>)
    requires symbols.Valid() && s0 <= symbols.strings && Collected(metadataByName, s0, opts, |opts.metadata|)
    requires i < |opts.samples| && SamplesAdded(timeseries, used, symbols.strings, opts, now, i)
    requires LastIndexes(last, opts.SampleKeys())
    modifies symbols
    ensures symbols.Valid() && old(symbols.strings) <= symbols.strings
    ensures SamplesAdded(timeseries', used', symbols.strings, opts, now, i + 1)
  {
    ghost var before := symbols.strings;
    var isLastSampleForSeries := IsLastIndex(last, opts.SampleKeys(), i, opts.samples[i].labels);
    var ts;
    ts, used' := EmitSample(symbols, opts, metadataByName, now, i, isLastSampleForSeries, used, s0);
    SampleAdded(timeseries, used, before, symbols.strings, opts, now, i, ts);
    timeseries' := timeseries + [ts];
  }

  method AddSamples(symbols: Table, opts: RequestOpts, metadataByName: map<string, WireMetadata>, now: Time,
                    ghost s0: seq<string>)
    returns (timeseries: seq<TimeSeries>, used: set<nat>)
    requires symbols.Valid() && s0 <= symbols.strings && Collected(metadataByName, s0, opts, |opts.metadata|)
    modifies symbols
    ensures symbols.Valid() && old(symbols.strings) <= symbols.strings
    ensures SamplesAdded(timeseries, used, symbols.strings, opts, now, |opts.samples|)
  {
    var seriesLastSample := LastSeries(opts.SampleKeys());
    timeseries, used := [], {};
    var i := 0;
    while i < |opts.samples|
      invariant symbols.Valid() && old(symbols.strings) <= symbols.strings
      invariant SamplesAdded(timeseries, used, symbols.strings, opts, now, i)
    {
      timeseries, used := AddSample(symbols, opts, metadataByName, now, i, seriesLastSample, timeseries, used, s0);
      i := i + 1;
    }
  }

  /** All samples and the first `i` histograms are emitted, with their exemplars. */
  ghost predicate HistogramsAdded(timeseries: seq<TimeSeries>, used: set<nat>, symbols: seq<string>, opts: RequestOpts,
                                  now: Time, i: nat)
  {
    && i <= |opts.histograms|
    && Emitted(timeseries, symbols, SamplePart(opts, now, |opts.samples|) + HistogramPart(opts, now, i))
    && used == UsedByHistograms(opts, i)
  }

  lemma HistogramAdded(timeseries: seq<TimeSeries>, used: set<nat>, symbols: seq<string>, more: seq<string>,
                       opts: RequestOpts, now: Time, i: nat, ts: TimeSeries)
    requires i < |opts.histograms| && HistogramsAdded(timeseries, used, symbols, opts, now, i) && symbols <= more
    requires SeriesRefsIn(ts, |more|) && DecodeSeries(ts, more) == HistogramSeries(opts, now, i)
    ensures HistogramsAdded(timeseries + [ts], UsedByHistograms(opts, i + 1), more, opts, now, i + 1)
  {
    var logical := SamplePart(opts, now, |opts.samples|);
    EmitNext(timeseries, symbols, more, logical + HistogramPart(opts, now, i), ts, HistogramSeries(opts, now, i));
    Associate(logical, HistogramPart(opts, now, i), [HistogramSeries(opts, now, i)]);
  }

  method EmitHistogram(symbols: Table, opts: RequestOpts, metadataByName: map<string, WireMetadata>, now: Time, i: nat,
                       isLast: bool, used: set<nat>, ghost s0: seq<string>)
    returns (ts: TimeSeries, used': set<nat>)
    requires symbols.Valid() && s0 <= symbols.strings && Collected(metadataByName, s0, opts, |opts.metadata|)
    requires i < |opts.histograms| && used == UsedByHistograms(opts, i)
    requires isLast == IsLast(opts.HistogramKeys(), i)
    modifies symbols
    ensures symbols.Valid() && old(symbols.strings) <= symbols.strings
    ensures SeriesRefsIn(ts, |symbols.strings|) && DecodeSeries(ts, symbols.strings) == HistogramSeries(opts, now, i)
    ensures used' == UsedByHistograms(opts, i + 1)
  {
    var h := opts.histograms[i];
    HistogramStep(opts, now, i, isLast);
    var hist := HistogramAt(h, now);
    ts, used' := EmitSeries(symbols, opts, metadataByName, h.labels, [], [hist],
                            Created(h.createdTimestamp), used, isLast, now, s0);
  }

  method AddHistogram(symbols: Table, opts: RequestOpts, metadataByName: map<string, WireMetadata>, now: Time, i: nat,
                      last: map<LabelMap, nat>, timeseries: seq<TimeSeries>, used: set<nat>, ghost s0: seq<string>)
    returns (timeseries': seq<TimeSeries>, used': set<nat>)
    requires symbols.Valid() && s0 <= symbols.strings && Collected(metadataByName, s0, opts, |opts.metadata|)
    requires i < |opts.histograms| && HistogramsAdded(timeseries, used, symbols.strings, opts, now, i)
    requires LastIndexes(last, opts.HistogramKeys())
    modifies symbols
    ensures symbols.Valid() && old(symbols.strings) <= symbols.strings
    ensures HistogramsAdded(timeseries', used', symbols.strings, opts, now, i + 1)
  {
    ghost var before := symbols.strings;
    var isLastHistogramForSeries := IsLastIndex(last, opts.HistogramKeys(), i, opts.histograms[i].labels);
    var ts;
    ts, used' := EmitHistogram(symbols, opts, metadataByName, now, i, isLastHistogramForSeries, used, s0);
    HistogramAdded(timeseries, used, before, symbols.strings, opts, now, i, ts);
    timeseries' := timeseries + [ts];
  }

  method AddHistograms(symbols: Table, opts: RequestOpts, metadataByName: map<string, WireMetadata>, now: Time,
                       timeseries: seq<TimeSeries>, usedExemplars: set<nat>, ghost s0: seq<string>)
    returns (timeseries': seq<TimeSeries>, used: set<nat>)
    requires symbols.Valid() && s0 <= symbols.strings && Collected(metadataByName, s0, opts, |opts.metadata|)
    requires SamplesAdded(timeseries, usedExemplars, symbols.strings, opts, now, |opts.samples|)
    modifies symbols
    ensures symbols.Valid() && old(symbols.strings) <= symbols.strings
    ensures HistogramsAdded(timeseries', used, symbols.strings, opts, now, |opts.histograms|)
  {
    var seriesLastHistogram := LastSeries(opts.HistogramKeys());
    timeseries', used := timeseries, usedExemplars;
    var i := 0;
    assert SamplePart(opts, now, |opts.samples|) + [] == SamplePart(opts, now, |opts.samples|);
    while i < |opts.histograms|
      invariant symbols.Valid() && old(symbols.strings) <= symbols.strings
      invariant HistogramsAdded(timeseries', used, symbols.strings, opts, now, i)
    {
      timeseries', used := AddHistogram(symbols, opts, metadataByName, now, i, seriesLastHistogram, timeseries', used,
                                        s0);
      i := i + 1;
    }
  }

  // ---- the leftovers

  /** The first `i` exemplars are looked at, and emitted when nothing took them. */
  ghost predicate LeftoversAdded(timeseries: seq<TimeSeries>, symbols: seq<string>, opts: RequestOpts, used: set<nat>,
                                 now: Time, i: nat, logical: seq<LogicalSeries>)
  {
    i <= |opts.exemplars| && Emitted(timeseries, symbols, logical + LeftoverPart(opts, used, now, i))
  }

  lemma NoLeftoversYet(timeseries: seq<TimeSeries>, symbols: seq<string>, opts: RequestOpts, used: set<nat>,
                       now: Time, logical: seq<LogicalSeries>)
    requires Emitted(timeseries, symbols, logical)
    ensures LeftoversAdded(timeseries, symbols, opts, used, now, 0, logical)
  {
    assert logical + [] == logical;
  }

  method AddLeftoverExemplars(symbols: Table, opts: RequestOpts, now: Time, timeseries: seq<TimeSeries>,
                              usedExemplars: set<nat>, ghost logical: seq<LogicalSeries>)
    returns (timeseries': seq<TimeSeries>)
    requires symbols.Valid() && Emitted(timeseries, symbols.strings, logical)
    modifies symbols
    ensures symbols.Valid() && old(symbols.strings) <= symbols.strings
    ensures LeftoversAdded(timeseries', symbols.strings, opts, usedExemplars, now, |opts.exemplars|, logical)
  {
    timeseries' := timeseries;
    NoLeftoversYet(timeseries, symbols.strings, opts, usedExemplars, now, logical);
    var i := 0;
    while i < |opts.exemplars|
      invariant 0 <= i <= |opts.exemplars|
      invariant symbols.Valid() && old(symbols.strings) <= symbols.strings
      invariant LeftoversAdded(timeseries', symbols.strings, opts, usedExemplars, now, i, logical)
    {
      timeseries' := AddLeftover(symbols, opts, now, i, timeseries', usedExemplars, logical);
      i := i + 1;
    }
  }

  method AddLeftover(symbols: Table, opts: RequestOpts, now: Time, i: nat, timeseries: seq<TimeSeries>,
                     usedExemplars: set<nat>, ghost logical: seq<LogicalSeries>)
    returns (timeseries': seq<TimeSeries>)
    requires symbols.Valid() && i < |opts.exemplars|
    requires LeftoversAdded(timeseries, symbols.strings, opts, usedExemplars, now, i, logical)
    modifies symbols
    ensures symbols.Valid() && old(symbols.strings) <= symbols.strings
    ensures LeftoversAdded(timeseries', symbols.strings, opts, usedExemplars, now, i + 1, logical)
  {
    timeseries' := timeseries;
    assert LeftoverPart(opts, usedExemplars, now, i) + [] == LeftoverPart(opts, usedExemplars, now, i);
    if i in usedExemplars {
      return;
    }
    var matched := HasSeries(opts, opts.exemplars[i].labels);
    if !matched {
      ghost var before := symbols.strings;
      var ts := EmitLeftover(symbols, opts.exemplars[i], now);
      EmitNext(timeseries, before, symbols.strings, logical + LeftoverPart(opts, usedExemplars, now, i), ts,
               LeftoverSeries(opts, now, i));
      Associate(logical, LeftoverPart(opts, usedExemplars, now, i), [LeftoverSeries(opts, now, i)]);
      timeseries' := timeseries + [ts];
    }
  }

  method EmitLeftover(symbols: Table, ew: ExemplarWithLabels, now: Time) returns (ts: TimeSeries)
    requires symbols.Valid()
    modifies symbols
    ensures symbols.Valid() && old(symbols.strings) <= symbols.strings
    ensures SeriesRefsIn(ts, |symbols.strings|)
    ensures DecodeSeries(ts, symbols.strings)
      == LogicalSeries(ew.labels, [], [], [ExemplarOf(ew, now)], NO_METADATA, 0)
  {
    var labelRefs := symbols.SymbolizeLabels(ew.labels);
    ghost var before := symbols.strings;
    var exemplar := EmitExemplar(symbols, ew, now);
    LabelsKept(labelRefs, before, symbols.strings, |labelRefs| / 2);
    ts := TimeSeries(labelRefs, [], [], [exemplar], UNSET_METADATA, 0);
    assert DecodeExemplars([exemplar], symbols.strings) == [ExemplarOf(ew, now)];
  }

  method AddLeftoverMetadata(symbols: Table, opts: RequestOpts, timeseries: seq<TimeSeries>,
                             ghost logical: seq<LogicalSeries>)
    returns (timeseries': seq<TimeSeries>)
    requires symbols.Valid() && Emitted(timeseries, symbols.strings, logical)
    modifies symbols
    ensures symbols.Valid() && old(symbols.strings) <= symbols.strings
    ensures Emitted(timeseries', symbols.strings, logical + MetadataPart(opts, |opts.metadata|))
  {
    timeseries' := timeseries;
    assert logical + [] == logical;
    var i := 0;
    while i < |opts.metadata|
      invariant 0 <= i <= |opts.metadata|
      invariant symbols.Valid() && old(symbols.strings) <= symbols.strings
      invariant Emitted(timeseries', symbols.strings, logical + MetadataPart(opts, i))
    {
      timeseries' := AddUnattached(symbols, opts, i, timeseries', logical);
      i := i + 1;
    }
  }

  method AddUnattached(symbols: Table, opts: RequestOpts, i: nat, timeseries: seq<TimeSeries>,
                       ghost logical: seq<LogicalSeries>)
    returns (timeseries': seq<TimeSeries>)
    requires symbols.Valid() && i < |opts.metadata|
    requires Emitted(timeseries, symbols.strings, logical + MetadataPart(opts, i))
    modifies symbols
    ensures symbols.Valid() && old(symbols.strings) <= symbols.strings
    ensures Emitted(timeseries', symbols.strings, logical + MetadataPart(opts, i + 1))
  {
    timeseries' := timeseries;
    assert MetadataPart(opts, i) + [] == MetadataPart(opts, i);
    var metricName := MetricName(opts.metadata[i].labels);
    if metricName == "" {
      return;
    }
    var matched := HasName(opts, metricName);
    if !matched {
      ghost var before := symbols.strings;
      var ts := EmitUnattached(symbols, opts.metadata[i]);
      EmitNext(timeseries, before, symbols.strings, logical + MetadataPart(opts, i), ts,
               MetadataSeries(opts.metadata[i]));
      Associate(logical, MetadataPart(opts, i), [MetadataSeries(opts.metadata[i])]);
      timeseries' := timeseries + [ts];
    }
  }

  method EmitUnattached(symbols: Table, mw: MetadataWithLabels) returns (ts: TimeSeries)
    requires symbols.Valid()
    modifies symbols
    ensures symbols.Valid() && old(symbols.strings) <= symbols.strings
    ensures SeriesRefsIn(ts, |symbols.strings|) && DecodeSeries(ts, symbols.strings) == MetadataSeries(mw)
  {
    var labelRefs := symbols.SymbolizeLabels(mw.labels);
    ghost var before := symbols.strings;
    var m := EmitMetadata(symbols, mw);
    LabelsKept(labelRefs, before, symbols.strings, |labelRefs| / 2);
    ts := TimeSeries(labelRefs, [], [], [], m, 0);
  }

  /** The request, or None where a safety check makes the original panic. Decoded against its
      final symbol table it is the logical request, and the table and all references are valid. */
  method GenerateRequest(opts: RequestOpts, now: Time) returns (req: Option<Request>)
    ensures req.None? <==> !opts.unsafeRequest && !Acceptable(opts)
    ensures req.Some? ==>
      && Decode(req.value.timeseries, req.value.symbols) == LogicalRequest(opts, now)
      && ValidSymbols(req.value.symbols) && RefsIn(req.value.timeseries, |req.value.symbols|)
      && Tells(req.value, opts, now)
  {
    if !opts.unsafeRequest {
      var safe := CheckSafety(opts);
      if !safe {
        return None;
      }
    }
    var symbols := new Table();
    var metadataByName := CollectMetadata(symbols, opts);
    ghost var s0 := symbols.strings;
    var timeseries, used := AddSamples(symbols, opts, metadataByName, now, s0);
    timeseries, used := AddHistograms(symbols, opts, metadataByName, now, timeseries, used, s0);
    ghost var logical := SamplePart(opts, now, |opts.samples|) + HistogramPart(opts, now, |opts.histograms|);
    timeseries := AddLeftoverExemplars(symbols, opts, now, timeseries, used, logical);
    timeseries := AddLeftoverMetadata(symbols, opts, timeseries,
                                      logical + LeftoverPart(opts, HistogramPlan(opts).used, now, |opts.exemplars|));
    TableIsValid(symbols);
    ContentsTold(Request(symbols.strings, timeseries), opts, now);
    return Some(Request(symbols.strings, timeseries));
  }
}
