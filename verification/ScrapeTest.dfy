/** Recording and replaying scrapes (promqle2e/promqle2e.go). */
module ScrapeTest {
  import opened ExpectedAlert
  import opened UnixTime

  const TEN_HOURS: Duration := 600 * MINUTE

  // A gathered registry and a metric are opaque here; metrics are told apart by their labels.
  type Scrape = string
  type Metric = map<string, string>
  datatype Kind = Counter | Gauge | Untyped | Summary | Histogram

  /** A sample of the model: its timestamp is in milliseconds. */
  datatype SamplePair = SamplePair(timestamp: int, value: real)
  datatype SampleStream = SampleStream(metric: Metric, values: seq<SamplePair>)
  type Matrix = seq<SampleStream>

  /** The milliseconds since 1 January 1970, which is 719162 days after 1 January of the year 1, that are
      between that day and `t`, rounded towards it. */
  predicate Within(timestamp: int, t: Time) {
    var nanos := t - 719_162 * 86_400 * 1_000_000_000;
    if 0 <= nanos then 0 <= nanos - timestamp * 1_000_000 < 1_000_000
    else -1_000_000 < nanos - timestamp * 1_000_000 <= 0
  }

  /** One call of `Expect` for a backend. */
  datatype Call = Call(metric: Metric, sample: SamplePair)

  /** [low, high] is exactly the range of the times. */
  ghost predicate HullOf(times: seq<Time>, low: Time, high: Time) {
    && low in times && high in times
    && forall t :: t in times ==> low <= t <= high
  }

  /** The fields minTime and maxTime; the zero time stands for "not set". */
  datatype Span = Span(low: Time, high: Time)
  {
    /** A scrape at `t` is accepted. */
    predicate Accepts(t: Time) {
      && (low != ZERO_TIME ==> t <= low + TEN_HOURS)
      && (high != ZERO_TIME ==> high - TEN_HOURS <= t)
    }

    function With(t: Time): Span {
      Span(if low == ZERO_TIME || t < low then t else low, if high == ZERO_TIME || high < t then t else high)
    }
  }

  /** The span after scrapes at these times. */
  function SpanAfter(times: seq<Time>): Span {
    if times == [] then Span(ZERO_TIME, ZERO_TIME)
    else SpanAfter(times[..|times| - 1]).With(times[|times| - 1])
  }

  /** Each scrape was accepted in its turn. */
  predicate AllAccepted(times: seq<Time>) {
    times != [] ==>
      var before := times[..|times| - 1];
      AllAccepted(before) && SpanAfter(before).Accepts(times[|times| - 1])
  }

  ghost predicate SomeBefore(times: seq<Time>) {
    exists t :: t in times && t < ZERO_TIME
  }

  ghost predicate SomeAfter(times: seq<Time>) {
    exists t :: t in times && ZERO_TIME < t
  }

  /** The zero time was not recorded, or nothing was forgotten by it. */
  ghost predicate Remembered(times: seq<Time>) {
    ZERO_TIME !in times || times[|times| - 1] == ZERO_TIME || (SomeBefore(times) && SomeAfter(times))
  }

  /** What the lower end of the span says: a zero is replaced by the next time whatever it is,
      anything below it stays. */
  ghost predicate LowOf(times: seq<Time>, low: Time) {
    && (low == ZERO_TIME <==> !SomeBefore(times) && (times == [] || times[|times| - 1] == ZERO_TIME))
    && (low != ZERO_TIME ==> low in times)
    && (SomeBefore(times) || ZERO_TIME !in times ==> forall t :: t in times ==> low <= t)
    && (low < ZERO_TIME <==> SomeBefore(times))
  }

  /** The same of the upper end. */
  ghost predicate HighOf(times: seq<Time>, high: Time) {
    && (high == ZERO_TIME <==> !SomeAfter(times) && (times == [] || times[|times| - 1] == ZERO_TIME))
    && (high != ZERO_TIME ==> high in times)
    && (SomeAfter(times) || ZERO_TIME !in times ==> forall t :: t in times ==> t <= high)
    && (ZERO_TIME < high <==> SomeAfter(times))
  }

  lemma InAppended(times: seq<Time>, t: Time)
    requires times != [] && t == times[|times| - 1]
    ensures forall u :: u in times <==> u in times[..|times| - 1] || u == t
    ensures SomeBefore(times) <==> SomeBefore(times[..|times| - 1]) || t < ZERO_TIME
    ensures SomeAfter(times) <==> SomeAfter(times[..|times| - 1]) || ZERO_TIME < t
  {
    var before := times[..|times| - 1];
    assert times == before + [t];
    assert t in times;
    if u :| u in before && u < ZERO_TIME {
      assert u in times;
    }
    if u :| u in before && ZERO_TIME < u {
      assert u in times;
    }
  }

  lemma {:induction false} LowIs(times: seq<Time>)
    ensures LowOf(times, SpanAfter(times).low)
  {
    if times == [] {
    } else {
      LowIs(times[..|times| - 1]);
      InAppended(times, times[|times| - 1]);
    }
  }

  lemma {:induction false} HighIs(times: seq<Time>)
    ensures HighOf(times, SpanAfter(times).high)
  {
    if times == [] {
    } else {
      HighIs(times[..|times| - 1]);
      InAppended(times, times[|times| - 1]);
    }
  }

  /** Where the ends are remembered they are at most ten hours apart. */
  lemma {:induction false} SpanBounded(times: seq<Time>)
    requires AllAccepted(times) && Remembered(times)
    ensures SpanAfter(times).high - SpanAfter(times).low <= TEN_HOURS
  {
    if times == [] {
    } else {
      var before, t := times[..|times| - 1], times[|times| - 1];
      LowIs(before);
      HighIs(before);
      InAppended(times, t);
      if Remembered(before) {
        SpanBounded(before);
      }
    }
  }

  /** The span is exactly the range of the recorded times, and at most ten hours, if and only if the
      zero time was not recorded, or was recorded last, or there are times on both sides of it. */
  lemma HullExactly(times: seq<Time>)
    requires times != [] && AllAccepted(times)
    ensures var s := SpanAfter(times);
      HullOf(times, s.low, s.high) && s.high - s.low <= TEN_HOURS <==> Remembered(times)
  {
    LowIs(times);
    HighIs(times);
    if Remembered(times) {
      SpanBounded(times);
    }
  }

  /** Unless a zero end lets anything pass, exactly the scrapes are accepted with which all times
      still fit in ten hours. */
  lemma AcceptsExactly(times: seq<Time>, t: Time)
    requires AllAccepted(times)
    requires ZERO_TIME !in times || (SomeBefore(times) && SomeAfter(times))
    ensures SpanAfter(times).Accepts(t) <==> forall u :: u in times ==> -TEN_HOURS <= t - u <= TEN_HOURS
  {
    LowIs(times);
    HighIs(times);
  }

  /** A run that forgets: after the zero time a scrape twenty hours later is accepted, and the
      zero time is no longer in the span. */
  lemma ZeroIsForgotten()
    ensures var times := [ZERO_TIME, 2 * TEN_HOURS];
      AllAccepted(times) && SpanAfter(times) == Span(2 * TEN_HOURS, 2 * TEN_HOURS) && !Remembered(times)
  {
    var times := [ZERO_TIME, 2 * TEN_HOURS];
    assert times[..1] == [ZERO_TIME] && [ZERO_TIME][..0] == [];
    assert SpanAfter([ZERO_TIME]) == Span(ZERO_TIME, ZERO_TIME);
    assert times[0] in times;
  }

  /** The values that calls gave for one metric, in their order. */
  function ValuesFor(calls: seq<Call>, m: Metric): seq<SamplePair> {
    if calls == [] then [] else
    var last := calls[|calls| - 1];
    ValuesFor(calls[..|calls| - 1], m) + if last.metric == m then [last.sample] else []
  }

  /** One stream for each metric that was expected, with exactly its own values in call order. */
  ghost predicate MatrixOf(matrix: Matrix, calls: seq<Call>) {
    && (forall i, j :: 0 <= i < j < |matrix| ==> matrix[i].metric != matrix[j].metric)
    && (forall i :: 0 <= i < |matrix| ==> matrix[i].values == ValuesFor(calls, matrix[i].metric) != [])
    && (forall m :: ValuesFor(calls, m) != [] ==> HasStream(matrix, m))
  }

  function MatrixAt(ms: map<string, Matrix>, ref: string): Matrix {
    if ref in ms then ms[ref] else []
  }

  function CallsAt(calls: map<string, seq<Call>>, ref: string): seq<Call> {
    if ref in calls then calls[ref] else []
  }

  lemma ValuesNext(calls: seq<Call>, c: Call, m: Metric)
    ensures ValuesFor(calls + [c], m) == ValuesFor(calls, m) + if c.metric == m then [c.sample] else []
  {
    assert (calls + [c])[..|calls|] == calls;
  }

  /** The values of a metric are those of the calls for it, one for each, in call order. */
  lemma {:induction false} ValuesExactly(a: seq<Call>, c: Call, b: seq<Call>, m: Metric)
    ensures ValuesFor(a + [c] + b, m) == ValuesFor(a, m) + (if c.metric == m then [c.sample] else []) + ValuesFor(b, m)
    ensures ValuesFor([], m) == []
  {
    if b == [] {
      assert a + [c] + b == a + [c];
      ValuesNext(a, c, m);
    } else {
      var n := |b| - 1;
      ValuesExactly(a, c, b[..n], m);
      assert (a + [c] + b)[..|a + [c] + b| - 1] == a + [c] + b[..n];
    }
  }

  /** The stream of the metric ends with a value for the instant `t`. */
  ghost predicate EndsWith(matrix: Matrix, metric: Metric, val: real, t: Time) {
    exists i :: 0 <= i < |matrix| && EndsAt(matrix[i], metric, val, t)
  }

  predicate EndsAt(stream: SampleStream, metric: Metric, val: real, t: Time) {
    stream.metric == metric && stream.values != [] &&
      var last := stream.values[|stream.values| - 1];
      last.value == val && Within(last.timestamp, t)
  }

  lemma LastValue(matrix: Matrix, calls: seq<Call>, c: Call, t: Time)
    requires MatrixOf(matrix, calls + [c]) && Within(c.sample.timestamp, t)
    ensures EndsWith(matrix, c.metric, c.sample.value, t)
  {
    ValuesNext(calls, c, c.metric);
    assert HasStream(matrix, c.metric);
    var i :| 0 <= i < |matrix| && matrix[i].metric == c.metric;
    assert EndsAt(matrix[i], c.metric, c.sample.value, t);
  }

  lemma AppendedStream(matrix: Matrix, calls: seq<Call>, c: Call, k: nat)
    requires MatrixOf(matrix, calls) && k < |matrix| && matrix[k].metric == c.metric
    ensures MatrixOf(matrix[k := matrix[k].(values := matrix[k].values + [c.sample])], calls + [c])
  {
    var matrix' := matrix[k := matrix[k].(values := matrix[k].values + [c.sample])];
    assert matrix'[k].metric == c.metric && HasStream(matrix', c.metric);
    forall i | 0 <= i < |matrix'| ensures matrix'[i].values == ValuesFor(calls + [c], matrix'[i].metric) != [] {
      ValuesNext(calls, c, matrix'[i].metric);
    }
    forall m | ValuesFor(calls + [c], m) != [] ensures HasStream(matrix', m) {
      StreamKept(matrix, matrix', calls, c, m);
    }
  }

  lemma NewStream(matrix: Matrix, calls: seq<Call>, c: Call)
    requires MatrixOf(matrix, calls) && forall i :: 0 <= i < |matrix| ==> matrix[i].metric != c.metric
    ensures MatrixOf(matrix + [SampleStream(c.metric, [c.sample])], calls + [c])
  {
    var matrix' := matrix + [SampleStream(c.metric, [c.sample])];
    assert matrix'[|matrix|].metric == c.metric && HasStream(matrix', c.metric);
    forall i | 0 <= i < |matrix'| ensures matrix'[i].values == ValuesFor(calls + [c], matrix'[i].metric) != [] {
      NewValues(matrix, calls, c, i);
    }
    forall m | ValuesFor(calls + [c], m) != [] ensures HasStream(matrix', m) {
      StreamKept(matrix, matrix', calls, c, m);
    }
  }

  lemma NewValues(matrix: Matrix, calls: seq<Call>, c: Call, i: nat)
    requires MatrixOf(matrix, calls) && forall i :: 0 <= i < |matrix| ==> matrix[i].metric != c.metric
    requires i <= |matrix|
    ensures var stream := (matrix + [SampleStream(c.metric, [c.sample])])[i];
      stream.values == ValuesFor(calls + [c], stream.metric) != []
  {
    if i < |matrix| {
      ValuesNext(calls, c, matrix[i].metric);
    } else {
      assert !HasStream(matrix, c.metric);
      ValuesNext(calls, c, c.metric);
    }
  }

  ghost predicate HasStream(matrix: Matrix, m: Metric) {
    exists i :: 0 <= i < |matrix| && matrix[i].metric == m
  }

  lemma StreamKept(matrix: Matrix, matrix': Matrix, calls: seq<Call>, c: Call, m: Metric)
    requires MatrixOf(matrix, calls) && ValuesFor(calls + [c], m) != []
    requires |matrix| <= |matrix'| && forall i :: 0 <= i < |matrix| ==> matrix'[i].metric == matrix[i].metric
    requires HasStream(matrix', c.metric)
    ensures HasStream(matrix', m)
  {
    ValuesNext(calls, c, m);
    if m != c.metric {
      assert HasStream(matrix, m);
      var i :| 0 <= i < |matrix| && matrix[i].metric == m;
      assert matrix'[i].metric == m;
    }
  }

  /** Every backend has the streams of its own calls. */
  ghost predicate AllMatrices(ms: map<string, Matrix>, calls: map<string, seq<Call>>) {
    forall ref :: MatrixOf(MatrixAt(ms, ref), CallsAt(calls, ref))
  }

  lemma OneBackendChanged(ms: map<string, Matrix>, calls: map<string, seq<Call>>, ref: string, m: Matrix, cs: seq<Call>)
    requires AllMatrices(ms, calls) && MatrixOf(m, cs)
    ensures AllMatrices(ms[ref := m], calls[ref := cs])
  {
    var ms', calls' := ms[ref := m], calls[ref := cs];
    forall r ensures MatrixOf(MatrixAt(ms', r), CallsAt(calls', r)) {
      assert MatrixOf(MatrixAt(ms, r), CallsAt(calls, r));
    }
  }

  /** A backend that has a stream already has a matrix. */
  lemma RefsRegistered(ms: map<string, Matrix>, calls: map<string, seq<Call>>, backends: set<string>, ref: string,
                       metric: Metric)
    requires AllMatrices(ms, calls) && ms.Keys <= backends
    ensures ValuesFor(CallsAt(calls, ref), metric) != [] ==> ref in backends
  {
    assert MatrixOf(MatrixAt(ms, ref), CallsAt(calls, ref));
  }

  /** No reference is taken, and none is named twice. */
  ghost predicate AllNew(was: map<string, string>, bs: seq<(string, string)>) {
    && (forall i :: 0 <= i < |bs| ==> bs[i].0 !in was)
    && (forall i, j :: 0 <= i < j < |bs| ==> bs[i].0 != bs[j].0)
  }

  /** The first `i` backends are registered, and were all new. */
  ghost predicate Registered(was: map<string, string>, backends: map<string, string>, bs: seq<(string, string)>, i: nat)
    requires i <= |bs|
  {
    && (forall r :: r in backends <==> r in was || exists j :: 0 <= j < i && bs[j].0 == r)
    && (forall j :: 0 <= j < i ==> bs[j].0 in backends && backends[bs[j].0] == bs[j].1)
    && AllNew(was, bs[..i])
  }

  lemma RegisterNext(was: map<string, string>, backends: map<string, string>, bs: seq<(string, string)>, i: nat)
    requires i < |bs| && Registered(was, backends, bs, i) && bs[i].0 !in backends
    ensures Registered(was, backends[bs[i].0 := bs[i].1], bs, i + 1)
  {
    forall j | 0 <= j < i ensures bs[j].0 != bs[i].0 {
      assert bs[..i][j] == bs[j];
    }
    assert bs[..i + 1] == bs[..i] + [bs[i]];
  }

  class ScrapeStyleTest {
    var backends: map<string, string>
    var expectationsPerBackend: map<string, Matrix>
    var scrapeRecordings: seq<(Time, Scrape)>
    var currentTime: Time
    var minTime: Time
    var maxTime: Time

    // What happened so far.
    ghost var recorded: seq<Time>
    ghost var calls: map<string, seq<Call>>

    ghost predicate TimesValid()
      reads this
    {
      AllAccepted(recorded) && Span(minTime, maxTime) == SpanAfter(recorded)
    }

    /** Every backend has the streams of its own calls, and is registered if it has any. */
    ghost predicate ExpectationsValid()
      reads this
    {
      && AllMatrices(expectationsPerBackend, calls)
      && expectationsPerBackend.Keys <= backends.Keys
    }

    constructor (now: Time)
      ensures TimesValid() && ExpectationsValid() && currentTime == now - 60 * MINUTE
      ensures recorded == [] && scrapeRecordings == []
    {
      backends, expectationsPerBackend, scrapeRecordings := map[], map[], [];
      currentTime, minTime, maxTime := now - 60 * MINUTE, ZERO_TIME, ZERO_TIME;
      recorded, calls := [], map[];
    }

    method SetCurrentTime(currTime: Time)
      modifies this`currentTime
      ensures currentTime == currTime
    {
      currentTime := currTime;
    }

    /** Fails on a backend reference that is taken, having registered those before it. */
    method RegisterBackends(bs: seq<(string, string)>) returns (ok: bool)
      requires ExpectationsValid()
      modifies this`backends
      ensures ExpectationsValid() && old(backends.Keys) <= backends.Keys
      ensures ok ==> forall i :: 0 <= i < |bs| ==> bs[i].0 in backends && backends[bs[i].0] == bs[i].1
      ensures ok <==>
        ((forall i :: 0 <= i < |bs| ==> bs[i].0 !in old(backends))
         && forall i, j :: 0 <= i < j < |bs| ==> bs[i].0 != bs[j].0)
    {
      var i := 0;
      while i < |bs|
        invariant 0 <= i <= |bs| && Registered(old(backends), backends, bs, i)
      {
        if bs[i].0 in backends {
          return false;
        }
        RegisterNext(old(backends), backends, bs, i);
        backends := backends[bs[i].0 := bs[i].1];
        i := i + 1;
      }
      return true;
    }

    /** Fails exactly when the span so far does not accept the new time. */
    method RecordScrape(after: Duration, gathered: Scrape) returns (ok: bool)
      requires TimesValid()
      modifies this`currentTime, this`minTime, this`maxTime, this`scrapeRecordings, this`recorded
      ensures currentTime == old(currentTime) + after
      ensures ok ==> TimesValid() && recorded == old(recorded) + [currentTime]
      ensures ok ==> scrapeRecordings == old(scrapeRecordings) + [(currentTime, gathered)]
      ensures !ok ==> recorded == old(recorded) && scrapeRecordings == old(scrapeRecordings)
      ensures ok <==> SpanAfter(old(recorded)).Accepts(currentTime)
    {
      currentTime := currentTime + after;
      if minTime != ZERO_TIME {
        if currentTime > minTime + TEN_HOURS {
          return false;
        }
      } else {
        minTime := currentTime;
      }
      if maxTime != ZERO_TIME {
        if currentTime < maxTime - TEN_HOURS {
          return false;
        }
      } else {
        maxTime := currentTime;
      }
      if currentTime > maxTime {
        maxTime := currentTime;
      }
      if currentTime < minTime {
        minTime := currentTime;
      }
      scrapeRecordings := scrapeRecordings + [(currentTime, gathered)];
      assert (recorded + [currentTime])[..|recorded|] == recorded;
      recorded := recorded + [currentTime];
      return true;
    }

    ghost function NewCall(metric: Metric, val: real): Call
      reads this
    {
      Call(metric, SamplePair(UnixNanoMillis(currentTime), val))
    }

    /** Refuses summaries and histograms; otherwise adds the value to the stream of its metric, or
        starts one and registers the backend. */
    method Expect(kind: Kind, metric: Metric, val: real, ref: string, backend: string) returns (ok: bool)
      requires ExpectationsValid()
      modifies this`backends, this`expectationsPerBackend, this`calls
      ensures ExpectationsValid()
      ensures ok <==> !kind.Summary? && !kind.Histogram?
      ensures !ok ==> calls == old(calls) && expectationsPerBackend == old(expectationsPerBackend)
      ensures ok ==> calls == old(calls)[ref := CallsAt(old(calls), ref) + [NewCall(metric, val)]]
      ensures ok ==> EndsWith(MatrixAt(expectationsPerBackend, ref), metric, val, currentTime)
      ensures backends == if ok && ValuesFor(CallsAt(old(calls), ref), metric) == [] then old(backends)[ref := backend]
                          else old(backends)
    {
      if kind.Summary? || kind.Histogram? {
        return false;
      }
      AddSample(metric, val, ref, backend);
      LastValue(MatrixAt(expectationsPerBackend, ref), CallsAt(old(calls), ref), NewCall(metric, val), currentTime);
      return true;
    }

    /** Adds the value to the stream of its metric, or starts one and registers the backend. */
    method AddSample(metric: Metric, val: real, ref: string, backend: string)
      requires ExpectationsValid()
      modifies this`backends, this`expectationsPerBackend, this`calls
      ensures ExpectationsValid()
      ensures calls == old(calls)[ref := CallsAt(old(calls), ref) + [NewCall(metric, val)]]
      ensures backends == if ValuesFor(CallsAt(old(calls), ref), metric) == [] then old(backends)[ref := backend]
                          else old(backends)
    {
      ghost var call, cs := NewCall(metric, val), CallsAt(calls, ref);
      var sample := SamplePair(UnixNanoMillis(currentTime), val);
      var matrix, isNew := AddTo(MatrixAt(expectationsPerBackend, ref), metric, sample, cs);
      OneBackendChanged(expectationsPerBackend, calls, ref, matrix, cs + [call]);
      RefsRegistered(expectationsPerBackend, calls, backends.Keys, ref, metric);
      if isNew {
        backends := backends[ref := backend];
      }
      expectationsPerBackend := expectationsPerBackend[ref := matrix];
      calls := calls[ref := cs + [call]];
    }

    /** The loop over the streams of a backend. */
    static method AddTo(matrix: Matrix, metric: Metric, sample: SamplePair, ghost cs: seq<Call>)
      returns (matrix': Matrix, isNew: bool)
      requires MatrixOf(matrix, cs)
      ensures MatrixOf(matrix', cs + [Call(metric, sample)])
      ensures isNew <==> ValuesFor(cs, metric) == []
    {
      var i := 0;
      while i < |matrix|
        invariant 0 <= i <= |matrix|
        invariant forall j :: 0 <= j < i ==> matrix[j].metric != metric
      {
        if matrix[i].metric == metric {
          AppendedStream(matrix, cs, Call(metric, sample), i);
          return matrix[i := matrix[i].(values := matrix[i].values + [sample])], false;
        }
        i := i + 1;
      }
      NewStream(matrix, cs, Call(metric, sample));
      return matrix + [SampleStream(metric, [sample])], true;
    }
  }

  // ---- replaying

  /** One visit to the replayer: a scrape by the backend, or a look whether all were made. */
  datatype Visit = Gather | Poll

  class RecordedGatherer {
    var i: int
    var recordedScrapes: seq<Scrape>

    // The scrapes handed out so far.
    ghost var served: seq<Scrape>

    /** Before ingestion nothing is served; after, exactly the first `i` recordings, in order. */
    ghost predicate Valid()
      reads this
    {
      if i < 0 then i == -1 && served == [] && recordedScrapes == []
      else i <= |recordedScrapes| && served == recordedScrapes[..i]
    }

    constructor ()
      ensures Valid() && i == -1
    {
      i, recordedScrapes, served := -1, [], [];
    }

    /** Hands out the next recording, or nothing. */
    method Gather() returns (some: bool, ret: Scrape)
      requires Valid()
      modifies this`i, this`served
      ensures Valid()
      ensures some <==> 0 <= old(i) < |recordedScrapes|
      ensures some ==> ret == recordedScrapes[old(i)] && served == old(served) + [ret] && i == old(i) + 1
      ensures !some ==> i == old(i) && served == old(served)
    {
      some, ret := false, "";
      if i > -1 && i < |recordedScrapes| {
        some, ret := true, recordedScrapes[i];
        i := i + 1;
        served := served + [ret];
      }
    }

    method BeginIngest(recorded: seq<Scrape>)
      requires Valid() && i == -1
      modifies this
      ensures Valid() && i == 0 && recordedScrapes == recorded
    {
      i, recordedScrapes := 0, recorded;
    }

    /** What the ingestion retries until it succeeds. */
    method AllScraped() returns (done: bool)
      requires Valid() && i >= 0
      ensures done <==> served == recordedScrapes
    {
      done := i >= |recordedScrapes|;
    }

    /** One ingestion, interleaved with any scrapes before and during it. Scrapes before it get
        nothing; after it the recordings were handed out in order, once each, as far as there
        were scrapes; and it succeeds only when all of them were. */
    method IngestSamples(recorded: seq<Scrape>, before: nat, visits: seq<Visit>)
      returns (success: bool, handedOut: seq<Scrape>)
      requires Valid() && i == -1
      modifies this
      ensures Valid() && recordedScrapes == recorded
      ensures handedOut <= recorded && served == handedOut
      ensures success ==> handedOut == recorded
    {
      handedOut := [];
      var n := 0;
      while n < before
        invariant Valid() && i == -1 && handedOut == []
      {
        var some, ret := Gather();
        if some {
          handedOut := handedOut + [ret];
        }
        n := n + 1;
      }
      BeginIngest(recorded);
      success, n := false, 0;
      while n < |visits| && !success
        invariant 0 <= n <= |visits|
        invariant Valid() && i >= 0 && recordedScrapes == recorded && served == handedOut
        invariant success ==> handedOut == recorded
      {
        match visits[n] {
          case Gather =>
            var some, ret := Gather();
            if some {
              handedOut := handedOut + [ret];
            }
          case Poll =>
            success := AllScraped();
        }
        n := n + 1;
      }
    }
  }
}
