/** A remote-write request on the wire, its labels interned, and what it stands for. */
module RequestWire {
  import opened SymbolTable
  import opened RequestPlan

  datatype WireExemplar = WireExemplar(labelsRefs: seq<nat>, value: real, timestamp: int)
  datatype WireMetadata = WireMetadata(kind: int, helpRef: nat, unitRef: nat)
  datatype TimeSeries = TimeSeries(
    labelsRefs: seq<nat>,
    samples: seq<Point>,
    histograms: seq<Histogram>,
    exemplars: seq<WireExemplar>,
    metadata: WireMetadata,
    createdTimestamp: int)
  datatype Request = Request(symbols: seq<string>, timeseries: seq<TimeSeries>)

  const UNSET_METADATA: WireMetadata := WireMetadata(0, 0, 0)

  function DecodeExemplar(e: WireExemplar, symbols: seq<string>): LogicalExemplar {
    LogicalExemplar(LabelsOf(e.labelsRefs, symbols), e.value, e.timestamp)
  }

  function DecodeExemplars(es: seq<WireExemplar>, symbols: seq<string>): seq<LogicalExemplar> {
    if es == [] then [] else
    DecodeExemplars(es[..|es| - 1], symbols) + [DecodeExemplar(es[|es| - 1], symbols)]
  }

  function DecodeMetadata(m: WireMetadata, symbols: seq<string>): LogicalMetadata {
    LogicalMetadata(m.kind, SymbolAt(symbols, m.helpRef), SymbolAt(symbols, m.unitRef))
  }

  function DecodeSeries(ts: TimeSeries, symbols: seq<string>): LogicalSeries {
    LogicalSeries(LabelsOf(ts.labelsRefs, symbols), ts.samples, ts.histograms,
                  DecodeExemplars(ts.exemplars, symbols), DecodeMetadata(ts.metadata, symbols), ts.createdTimestamp)
  }

  function Decode(series: seq<TimeSeries>, symbols: seq<string>): seq<LogicalSeries> {
    if series == [] then [] else
    Decode(series[..|series| - 1], symbols) + [DecodeSeries(series[|series| - 1], symbols)]
  }

  predicate ExemplarRefsIn(es: seq<WireExemplar>, size: nat) {
    forall i :: 0 <= i < |es| ==> ValidRefs(es[i].labelsRefs, size)
  }

  predicate MetadataRefsIn(m: WireMetadata, size: nat) {
    m.helpRef < size && m.unitRef < size
  }

  predicate SeriesRefsIn(ts: TimeSeries, size: nat) {
    ValidRefs(ts.labelsRefs, size) && ExemplarRefsIn(ts.exemplars, size) && MetadataRefsIn(ts.metadata, size)
  }

  predicate RefsIn(series: seq<TimeSeries>, size: nat) {
    forall i :: 0 <= i < |series| ==> SeriesRefsIn(series[i], size)
  }

  lemma {:induction false} ExemplarsKept(es: seq<WireExemplar>, symbols: seq<string>, more: seq<string>)
    requires ExemplarRefsIn(es, |symbols|) && symbols <= more
    ensures DecodeExemplars(es, more) == DecodeExemplars(es, symbols) && ExemplarRefsIn(es, |more|)
  {
    if es == [] {
    } else {
      ExemplarsKept(es[..|es| - 1], symbols, more);
      var refs := es[|es| - 1].labelsRefs;
      LabelsKept(refs, symbols, more, |refs| / 2);
    }
  }

  lemma SeriesKept(ts: TimeSeries, symbols: seq<string>, more: seq<string>)
    requires SeriesRefsIn(ts, |symbols|) && symbols <= more
    ensures DecodeSeries(ts, more) == DecodeSeries(ts, symbols) && SeriesRefsIn(ts, |more|)
  {
    LabelsKept(ts.labelsRefs, symbols, more, |ts.labelsRefs| / 2);
    ExemplarsKept(ts.exemplars, symbols, more);
  }

  /** What was emitted earlier decodes to the same when the table has grown. */
  lemma {:induction false} DecodeKept(series: seq<TimeSeries>, symbols: seq<string>, more: seq<string>)
    requires RefsIn(series, |symbols|) && symbols <= more
    ensures Decode(series, more) == Decode(series, symbols) && RefsIn(series, |more|)
  {
    if series == [] {
    } else {
      DecodeKept(series[..|series| - 1], symbols, more);
      SeriesKept(series[|series| - 1], symbols, more);
    }
  }

  /** The series emitted so far stand for `logical`. */
  ghost predicate Emitted(series: seq<TimeSeries>, symbols: seq<string>, logical: seq<LogicalSeries>) {
    RefsIn(series, |symbols|) && Decode(series, symbols) == logical
  }

  lemma EmitNext(series: seq<TimeSeries>, symbols: seq<string>, more: seq<string>, logical: seq<LogicalSeries>,
                 ts: TimeSeries, l: LogicalSeries)
    requires Emitted(series, symbols, logical) && symbols <= more
    requires SeriesRefsIn(ts, |more|) && DecodeSeries(ts, more) == l
    ensures Emitted(series + [ts], more, logical + [l])
  {
    DecodeKept(series, symbols, more);
    assert (series + [ts])[..|series|] == series;
  }
}
