/** The sample writer of the alert generator suite (remote_write.go): all samples, sorted by time,
    one batch for each timestamp. */
module RemoteWriter {
  import opened Labels
  import opened Sequences
  import opened SampleNotation

  datatype TimeSeries = TimeSeries(labels: LabelSet, samples: seq<Sample>)

  /** One sample with the labels of its series. */
  datatype Labelled = Labelled(labels: LabelSet, s: Sample)

  type Batch = seq<Labelled>

  function Shift(ts: TimeSeries, nowMs: int, n: nat): seq<Labelled>
    requires n <= |ts.samples|
  {
    if n == 0 then [] else
    var s := ts.samples[n - 1];
    Shift(ts, nowMs, n - 1) + [Labelled(ts.labels, s.(timestamp := s.timestamp + nowMs))]
  }

  /** Every sample of every series, its timestamp made relative to `nowMs`. */
  function Flatten(series: seq<TimeSeries>, nowMs: int): seq<Labelled> {
    if series == [] then [] else
    var last := series[|series| - 1];
    Flatten(series[..|series| - 1], nowMs) + Shift(last, nowMs, |last.samples|)
  }

  ghost predicate InTime(s: seq<Labelled>) {
    forall i, j :: 0 <= i < j < |s| ==> s[i].s.timestamp <= s[j].s.timestamp
  }

  /** The end of the stretch of equal timestamps that starts at `idx`. */
  function End(s: seq<Labelled>, idx: nat): (end: nat)
    requires idx < |s|
    ensures idx < end <= |s|
    ensures forall i :: idx <= i < end ==> s[i].s.timestamp == s[idx].s.timestamp
    ensures end < |s| ==> s[end].s.timestamp != s[idx].s.timestamp
    decreases |s| - idx
  {
    if idx + 1 == |s| || s[idx + 1].s.timestamp != s[idx].s.timestamp then idx + 1 else End(s, idx + 1)
  }

  /** The samples from `idx` on, grouped by equal timestamps. */
  function Groups(s: seq<Labelled>, idx: nat): seq<Batch>
    requires idx <= |s|
    decreases |s| - idx
  {
    if idx == |s| then [] else [s[idx..End(s, idx)]] + Groups(s, End(s, idx))
  }

  function Concat(batches: seq<Batch>): seq<Labelled> {
    if batches == [] then [] else batches[0] + Concat(batches[1..])
  }

  /** Grouping neither loses, nor repeats, nor reorders samples. */
  lemma {:induction false} GroupsConcat(s: seq<Labelled>, idx: nat)
    requires idx <= |s|
    ensures Concat(Groups(s, idx)) == s[idx..]
    decreases |s| - idx
  {
    if idx == |s| {
    } else {
      GroupsConcat(s, End(s, idx));
      assert s[idx..] == s[idx..End(s, idx)] + s[End(s, idx)..];
    }
  }

  ghost predicate Uniform(b: Batch) {
    b != [] && forall i :: 0 <= i < |b| ==> b[i].s.timestamp == b[0].s.timestamp
  }

  /** The batches have one timestamp each, and these strictly increase. */
  ghost predicate Successive(batches: seq<Batch>) {
    && (forall k :: 0 <= k < |batches| ==> Uniform(batches[k]))
    && (forall k, m :: 0 <= k < m < |batches| ==> batches[k][0].s.timestamp < batches[m][0].s.timestamp)
  }

  lemma SuccessivePrepend(b: Batch, rest: seq<Batch>)
    requires Uniform(b) && Successive(rest)
    requires rest != [] ==> b[0].s.timestamp < rest[0][0].s.timestamp
    ensures Successive([b] + rest)
  {
    forall m | 0 <= m < |rest| ensures b[0].s.timestamp < rest[m][0].s.timestamp {
      assert m > 0 ==> rest[0][0].s.timestamp < rest[m][0].s.timestamp;
    }
  }

  lemma {:induction false} GroupsSuccessive(s: seq<Labelled>, idx: nat)
    requires InTime(s) && idx <= |s|
    ensures Successive(Groups(s, idx))
    ensures idx < |s| ==> Groups(s, idx) != [] && Groups(s, idx)[0][0] == s[idx]
    decreases |s| - idx
  {
    if idx == |s| {
    } else {
      GroupsSuccessive(s, End(s, idx));
      SuccessivePrepend(s[idx..End(s, idx)], Groups(s, End(s, idx)));
    }
  }

  lemma PrefixSuccessive(batches: seq<Batch>, n: nat)
    requires n <= |batches| && Successive(batches)
    ensures Successive(batches[..n])
  {
  }

  /** `done` are the groups of the samples before `idx`. */
  ghost predicate GroupedTo(s: seq<Labelled>, done: seq<Batch>, idx: nat) {
    |done| <= idx <= |s| && Groups(s, 0) == done + Groups(s, idx)
  }

  lemma TakeFirst<T>(a: seq<T>, b: seq<T>)
    ensures (a + b)[..|a|] == a
  {
  }

  /** The next batch is the next group. */
  lemma NextGroup(s: seq<Labelled>, done: seq<Batch>, idx: nat)
    requires idx < |s| && GroupedTo(s, done, idx)
    ensures GroupedTo(s, done + [s[idx..End(s, idx)]], End(s, idx))
  {
    Associate(done, [s[idx..End(s, idx)]], Groups(s, End(s, idx)));
  }

  lemma GroupedPrefix(s: seq<Labelled>, done: seq<Batch>, idx: nat)
    requires GroupedTo(s, done, idx)
    ensures |done| <= |Groups(s, 0)| && done == Groups(s, 0)[..|done|]
    ensures idx == |s| ==> done == Groups(s, 0)
  {
    TakeFirst(done, Groups(s, idx));
  }

  lemma {:induction false} EndIs(s: seq<Labelled>, idx: nat, end: nat)
    requires idx < end <= |s|
    requires forall i :: idx <= i < end ==> s[i].s.timestamp == s[idx].s.timestamp
    requires end < |s| ==> s[end].s.timestamp != s[idx].s.timestamp
    ensures End(s, idx) == end
    decreases end - idx
  {
    if idx + 1 == end {
    } else {
      EndIs(s, idx + 1, end);
    }
  }

  // ---- sorting

  function InsertByTime(x: Labelled, s: seq<Labelled>): seq<Labelled> {
    if s == [] || s[|s| - 1].s.timestamp <= x.s.timestamp then s + [x]
    else InsertByTime(x, s[..|s| - 1]) + [s[|s| - 1]]
  }

  function ByTime(s: seq<Labelled>): seq<Labelled> {
    if s == [] then [] else InsertByTime(s[|s| - 1], ByTime(s[..|s| - 1]))
  }

  lemma {:induction false} InsertKeeps(x: Labelled, s: seq<Labelled>)
    ensures multiset(InsertByTime(x, s)) == multiset(s) + multiset{x}
  {
    if s == [] || s[|s| - 1].s.timestamp <= x.s.timestamp {
    } else {
      InsertKeeps(x, s[..|s| - 1]);
      assert s == s[..|s| - 1] + [s[|s| - 1]];
    }
  }

  lemma {:induction false} InsertIn(x: Labelled, s: seq<Labelled>)
    ensures forall y :: y in InsertByTime(x, s) ==> y == x || y in s
  {
    if s == [] || s[|s| - 1].s.timestamp <= x.s.timestamp {
    } else {
      InsertIn(x, s[..|s| - 1]);
    }
  }

  lemma {:induction false} InsertInTime(x: Labelled, s: seq<Labelled>)
    requires InTime(s)
    ensures InTime(InsertByTime(x, s))
  {
    if s == [] || s[|s| - 1].s.timestamp <= x.s.timestamp {
    } else {
      var r := InsertByTime(x, s[..|s| - 1]);
      InsertInTime(x, s[..|s| - 1]);
      InsertIn(x, s[..|s| - 1]);
      forall i | 0 <= i < |r| ensures r[i].s.timestamp <= s[|s| - 1].s.timestamp {
        assert r[i] in r;
      }
    }
  }

  lemma {:induction false} ByTimeSorts(s: seq<Labelled>)
    ensures InTime(ByTime(s)) && multiset(ByTime(s)) == multiset(s)
  {
    if s == [] {
    } else {
      ByTimeSorts(s[..|s| - 1]);
      InsertInTime(s[|s| - 1], ByTime(s[..|s| - 1]));
      InsertKeeps(s[|s| - 1], ByTime(s[..|s| - 1]));
      assert s == s[..|s| - 1] + [s[|s| - 1]];
    }
  }

  /** Sorts by timestamp. */
  method SortByTime(s: seq<Labelled>) returns (r: seq<Labelled>)
    ensures InTime(r) && multiset(r) == multiset(s)
  {
    r := [];
    var i := 0;
    while i < |s|
      invariant 0 <= i <= |s|
      invariant r == ByTime(s[..i])
    {
      assert s[..i + 1][..i] == s[..i];
      r := InsertByTime(s[i], r);
      i := i + 1;
    }
    assert s[..i] == s;
    ByTimeSorts(s);
  }

  // ---- the writer

  /** What the outside does during one turn of the loop: whether the writer is stopped, whether
      someone asks for its error, and how building and the attempts to store go. */
  datatype Turn = Turn(stopped: bool, asked: bool, buildFails: bool, stores: seq<bool>, timedOut: bool)
  {
    predicate Fails() {
      buildFails || (forall k :: 0 <= k < |stores| && k < 3 ==> !stores[k]) || timedOut
    }
  }

  datatype Ending = All | Stopped | Blocked

  function Failures(turns: seq<Turn>, n: nat): nat
    requires n <= |turns|
  {
    if n == 0 then 0 else Failures(turns, n - 1) + if turns[n - 1].Fails() then 1 else 0
  }

  lemma {:induction false} SomeFailure(turns: seq<Turn>, n: nat)
    requires n <= |turns|
    ensures Failures(turns, n) > 0 <==> exists k :: 0 <= k < n && turns[k].Fails()
  {
    if n == 0 {
    } else {
      SomeFailure(turns, n - 1);
    }
  }

  lemma {:induction false} TwoFailures(turns: seq<Turn>, n: nat) returns (i: nat, j: nat)
    requires n <= |turns| && Failures(turns, n) >= 2
    ensures i < j < n && turns[i].Fails() && turns[j].Fails()
  {
    if turns[n - 1].Fails() {
      SomeFailure(turns, n - 1);
      i :| i < n - 1 && turns[i].Fails();
      j := n - 1;
    } else {
      i, j := TwoFailures(turns, n - 1);
    }
  }

  /** What is reported: a request that could not be built, a batch that was refused three times, and one
      whose time ran out. */
  lemma FailsExactly(t: Turn)
    requires |t.stores| == 3
    ensures t.Fails() <==> Unwritten(t)
  {
  }

  /** In one of the first `n` turns the request could not be built, was refused three times, or ran out of
      time. */
  ghost predicate SomethingFailed(turns: seq<Turn>, n: nat)
    requires n <= |turns|
  {
    exists k :: 0 <= k < n && Unwritten(turns[k])
  }

  predicate Unwritten(t: Turn) {
    t.buildFails || t.timedOut || t.stores == [false, false, false]
  }

  lemma SomethingFailedExactly(turns: seq<Turn>, n: nat)
    requires n <= |turns| && forall k :: 0 <= k < n ==> |turns[k].stores| == 3
    ensures SomethingFailed(turns, n) <==> Failures(turns, n) > 0
  {
    SomeFailure(turns, n);
    forall k | 0 <= k < n
      ensures turns[k].Fails() <==> Unwritten(turns[k])
    {
      FailsExactly(turns[k]);
    }
  }

  /** Nobody stops the writer, and at most one write fails. */
  ghost predicate Unhindered(turns: seq<Turn>) {
    && (forall k :: 0 <= k < |turns| ==> !turns[k].stopped)
    && Failures(turns, |turns|) <= 1
  }

  /** How the writing loop may end early after `n` batches. */
  ghost predicate CutShort(turns: seq<Turn>, n: nat, ending: Ending) {
    match ending
    case All => true
    case Stopped => n < |turns| && turns[n].stopped
    case Blocked => n <= |turns| && Failures(turns, n) >= 2
  }

  lemma {:induction false} FailuresGrow(turns: seq<Turn>, n: nat, m: nat)
    requires n <= m <= |turns|
    ensures Failures(turns, n) <= Failures(turns, m)
  {
    if n == m {
    } else {
      FailuresGrow(turns, n, m - 1);
    }
  }

  /** A run that nobody stops, and in which at most one write fails, goes to the end. */
  lemma UnhinderedEnds(turns: seq<Turn>, n: nat, ending: Ending)
    requires CutShort(turns, n, ending) && Unhindered(turns)
    ensures ending == All
  {
    if n <= |turns| {
      FailuresGrow(turns, n, |turns|);
    }
  }

  function Total(series: seq<TimeSeries>): nat {
    if series == [] then 0 else Total(series[..|series| - 1]) + |series[|series| - 1].samples|
  }

  lemma {:induction false} TotalConcat(a: seq<TimeSeries>, b: seq<TimeSeries>)
    ensures Total(a + b) == Total(a) + Total(b)
  {
    if b == [] {
      assert a + b == a;
    } else {
      assert (a + b)[..|a + b| - 1] == a + b[..|b| - 1];
      TotalConcat(a, b[..|b| - 1]);
    }
  }

  lemma {:induction false} ShiftLength(ts: TimeSeries, nowMs: int, n: nat)
    requires n <= |ts.samples|
    ensures |Shift(ts, nowMs, n)| == n
    ensures forall i :: 0 <= i < n ==>
      Shift(ts, nowMs, n)[i] == Labelled(ts.labels, Sample(ts.samples[i].timestamp + nowMs, ts.samples[i].value))
  {
    if n == 0 {
    } else {
      ShiftLength(ts, nowMs, n - 1);
    }
  }

  /** As many samples as were counted when the series were added. */
  lemma {:induction false} FlattenLength(series: seq<TimeSeries>, nowMs: int)
    ensures |Flatten(series, nowMs)| == Total(series)
  {
    if series == [] {
    } else {
      FlattenLength(series[..|series| - 1], nowMs);
      ShiftLength(series[|series| - 1], nowMs, |series[|series| - 1].samples|);
    }
  }

  /** Every sample of every series, in order, with the labels of its own series. */
  lemma {:induction false} FlattenExactly(series: seq<TimeSeries>, nowMs: int, i: nat, k: nat)
    requires i < |series| && k < |series[i].samples|
    ensures Total(series[..i]) + k < |Flatten(series, nowMs)|
    ensures var x, s := Flatten(series, nowMs)[Total(series[..i]) + k], series[i].samples[k];
      x.labels == series[i].labels && x.s.value == s.value && x.s.timestamp == nowMs + s.timestamp
  {
    var n := |series| - 1;
    FlattenLength(series[..n], nowMs);
    ShiftLength(series[n], nowMs, |series[n].samples|);
    if i < n {
      FlattenExactly(series[..n], nowMs, i, k);
      assert series[..n][..i] == series[..i];
    }
  }

  /** Tries to store a batch up to three times. */
  method RemoteWrite(stores: seq<bool>) returns (ok: bool, tries: nat)
    requires |stores| == 3
    ensures 1 <= tries <= 3 && (forall k :: 0 <= k < tries - 1 ==> !stores[k])
    ensures ok <==> stores[tries - 1]
    ensures !ok ==> tries == 3
  {
    ok, tries := stores[0], 1;
    while !ok && tries < 3
      invariant 1 <= tries <= 3 && ok == stores[tries - 1]
      invariant forall k :: 0 <= k < tries - 1 ==> !stores[k]
      decreases 3 - tries
    {
      tries := tries + 1;
      ok := stores[tries - 1];
    }
  }

  class RemoteWriter {
    var timeSeries: seq<TimeSeries>
    var allSamples: seq<Labelled>
    var totalSamples: nat
    var errc: bool  // The one-slot channel holds an error.
    var err: bool   // An error was taken out of it, and is kept.

    ghost predicate Valid()
      reads this
    {
      totalSamples == Total(timeSeries)
    }

    constructor ()
      ensures Valid() && timeSeries == [] && !errc && !err
    {
      timeSeries, allSamples, totalSamples, errc, err := [], [], 0, false, false;
    }

    method AddTimeSeries(ts: seq<TimeSeries>)
      requires Valid()
      modifies this`timeSeries, this`totalSamples
      ensures Valid() && timeSeries == old(timeSeries) + ts
    {
      var i := 0;
      while i < |ts|
        invariant 0 <= i <= |ts|
        invariant timeSeries == old(timeSeries) && totalSamples == Total(timeSeries) + Total(ts[..i])
      {
        assert ts[..i + 1][..i] == ts[..i];
        totalSamples := totalSamples + |ts[i].samples|;
        i := i + 1;
      }
      assert ts[..i] == ts;
      TotalConcat(timeSeries, ts);
      timeSeries := timeSeries + ts;
    }

    /** The first part of `Start`: flattens the series in nested loops, then sorts. */
    method Flattened(nowMs: int)
      requires Valid()
      modifies this`allSamples
      ensures InTime(allSamples) && multiset(allSamples) == multiset(Flatten(timeSeries, nowMs))
      ensures |allSamples| == totalSamples
    {
      allSamples := [];
      var i := 0;
      while i < |timeSeries|
        invariant 0 <= i <= |timeSeries|
        invariant allSamples == Flatten(timeSeries[..i], nowMs)
      {
        assert timeSeries[..i + 1][..i] == timeSeries[..i];
        AppendShifted(timeSeries[i], nowMs);
        i := i + 1;
      }
      assert timeSeries[..i] == timeSeries;
      FlattenLength(timeSeries, nowMs);
      ghost var flat := allSamples;
      allSamples := SortByTime(allSamples);
      assert |multiset(allSamples)| == |multiset(flat)|;
    }

    /** The inner loop: the samples of one series. */
    method AppendShifted(ts: TimeSeries, nowMs: int)
      modifies this`allSamples
      ensures allSamples == old(allSamples) + Shift(ts, nowMs, |ts.samples|)
    {
      var j := 0;
      while j < |ts.samples|
        invariant 0 <= j <= |ts.samples|
        invariant allSamples == old(allSamples) + Shift(ts, nowMs, j)
      {
        var s := ts.samples[j];
        allSamples := allSamples + [Labelled(ts.labels, s.(timestamp := s.timestamp + nowMs))];
        j := j + 1;
      }
    }

    /** Takes an error out of the channel, unless one was taken before. */
    method Error() returns (e: bool)
      modifies this`errc, this`err
      ensures e == err == (old(err) || old(errc))
      ensures errc == (old(err) && old(errc))
    {
      if err {
        return true;
      }
      err, errc := errc, false;
      return err;
    }

    /** The writing loop of `Start`. Whichever writes fail, the batches attempted are a prefix of the
        samples grouped by timestamp: all of them unless the writer is stopped, or blocks for ever
        on its error channel, which takes at least two failures. */
    method WriteAll(turns: seq<Turn>) returns (attempted: seq<Batch>, ending: Ending)
      requires InTime(allSamples) && |turns| >= |allSamples| && !errc && !err
      requires forall k :: 0 <= k < |turns| ==> |turns[k].stores| == 3
      modifies this`errc, this`err
      ensures |attempted| <= |Groups(allSamples, 0)| && attempted == Groups(allSamples, 0)[..|attempted|]
      ensures ending == All ==> attempted == Groups(allSamples, 0)
      ensures CutShort(turns, |attempted|, ending)
      ensures |attempted| <= |turns| && (err || errc <==> SomethingFailed(turns, |attempted|))
    {
      var samples := allSamples;
      var idx := 0;
      attempted, ending := [], All;
      while idx < |samples|
        invariant GroupedTo(samples, attempted, idx)
        invariant Failures(turns, |attempted|) == Reported()
        decreases |samples| - idx
      {
        var turn := turns[|attempted|];
        AskedFor(turn.asked);
        if turn.stopped {
          ending := Stopped;
          break;
        }
        var writeSeries;
        NextGroup(samples, attempted, idx);
        writeSeries, idx := TakeBatch(samples, idx);
        attempted := attempted + [writeSeries];
        var failed := WriteBatch(turn);
        if failed && errc {
          ending := Blocked;
          break;
        }
        errc := errc || failed;
      }
      GroupedPrefix(samples, attempted, idx);
      SomethingFailedExactly(turns, |attempted|);
    }

    /** The errors that were reported so far. */
    ghost function Reported(): nat
      reads this
    {
      (if errc then 1 else 0) + if err then 1 else 0
    }

    method AskedFor(asked: bool)
      modifies this`errc, this`err
      ensures Reported() == old(Reported())
    {
      if asked {
        var _ := Error();
      }
    }

    static method WriteBatch(turn: Turn) returns (failed: bool)
      requires |turn.stores| == 3
      ensures failed == turn.Fails()
    {
      failed := turn.buildFails;
      if !failed {
        var ok, tries := RemoteWrite(turn.stores);
        failed := !ok || turn.timedOut;
      }
    }

    /** A whole run, from flattening to the last batch attempted. However it ends, what was attempted
        are the first groups of all the samples, shifted by the start time and in time order; with one
        sample for each series and timestamp every series goes out in strict time order. The run is cut
        short only when it is stopped or a second write fails; otherwise every sample is in exactly
        one batch. */
    method Start(nowMs: int, turns: seq<Turn>) returns (attempted: seq<Batch>, ending: Ending)
      requires Valid() && |turns| >= totalSamples && !errc && !err
      requires forall k :: 0 <= k < |turns| ==> |turns[k].stores| == 3
      modifies this`allSamples, this`errc, this`err
      ensures InTime(allSamples) && multiset(allSamples) == multiset(Flatten(timeSeries, nowMs))
      ensures |attempted| <= |Groups(allSamples, 0)| && attempted == Groups(allSamples, 0)[..|attempted|]
      ensures Successive(attempted)
      ensures OneAtATime(multiset(Flatten(timeSeries, nowMs))) ==> SeriesRise(Concat(attempted))
      ensures CutShort(turns, |attempted|, ending)
      ensures |attempted| <= |turns| && (err || errc <==> SomethingFailed(turns, |attempted|))
      ensures ending == Blocked ==>
        exists i, j :: 0 <= i < j < |attempted| && Unwritten(turns[i]) && Unwritten(turns[j])
      ensures Unhindered(turns) ==> ending == All
      ensures ending == All ==> multiset(Concat(attempted)) == multiset(Flatten(timeSeries, nowMs))
    {
      Flattened(nowMs);
      attempted, ending := WriteAll(turns);
      AllWritten(timeSeries, nowMs, allSamples);
      PrefixSuccessive(Groups(allSamples, 0), |attempted|);
      if OneAtATime(multiset(allSamples)) {
        SeriesInOrder(allSamples, |attempted|);
      }
      if Unhindered(turns) {
        UnhinderedEnds(turns, |attempted|, ending);
      }
      if ending == Blocked {
        var i, j := TwoFailures(turns, |attempted|);
        FailsExactly(turns[i]);
        FailsExactly(turns[j]);
      }
    }

    /** The inner loop: all samples of one timestamp. */
    static method TakeBatch(samples: seq<Labelled>, from: nat) returns (batch: Batch, idx: nat)
      requires from < |samples|
      ensures idx == End(samples, from) && batch == samples[from..idx]
    {
      batch, idx := [], from;
      var currT := samples[from].s.timestamp;
      while idx < |samples| && samples[idx].s.timestamp == currT
        invariant from <= idx <= |samples| && batch == samples[from..idx]
        invariant forall i :: from <= i < idx ==> samples[i].s.timestamp == currT
      {
        batch := batch + [samples[idx]];
        idx := idx + 1;
      }
      EndIs(samples, from, idx);
    }
  }

  // ---- what a run of the writer means

  /** At one timestamp a series has one sample, which is there once. */
  ghost predicate OneAtATime(m: multiset<Labelled>) {
    forall x, y :: x in m && y in m && x.labels == y.labels && x.s.timestamp == y.s.timestamp ==> x == y && m[x] == 1
  }

  /** Each series is in strict time order. */
  ghost predicate SeriesRise(s: seq<Labelled>) {
    forall i, j :: 0 <= i < j < |s| && s[i].labels == s[j].labels ==> s[i].s.timestamp < s[j].s.timestamp
  }

  lemma SortedRises(s: seq<Labelled>)
    requires InTime(s) && OneAtATime(multiset(s))
    ensures SeriesRise(s)
  {
    forall i, j | 0 <= i < j < |s| && s[i].labels == s[j].labels ensures s[i].s.timestamp < s[j].s.timestamp {
      if s[i].s.timestamp == s[j].s.timestamp {
        assert s[i] in multiset(s) && s[j] in multiset(s);
        TwiceIn(s, i, j);
      }
    }
  }

  /** The first batches are the first samples. */
  lemma {:induction false} ConcatPrefix(batches: seq<Batch>, n: nat)
    requires n <= |batches|
    ensures Concat(batches[..n]) <= Concat(batches)
  {
    if n == 0 {
    } else {
      ConcatPrefix(batches[1..], n - 1);
      assert batches[..n][1..] == batches[1..][..n - 1];
    }
  }

  /** However many batches were attempted, each series went out in strict time order. */
  lemma SeriesInOrder(sorted: seq<Labelled>, n: nat)
    requires InTime(sorted) && OneAtATime(multiset(sorted)) && n <= |Groups(sorted, 0)|
    ensures SeriesRise(Concat(Groups(sorted, 0)[..n]))
  {
    SortedRises(sorted);
    GroupsConcat(sorted, 0);
    ConcatPrefix(Groups(sorted, 0), n);
    assert sorted[0..] == sorted;
  }

  /** When all batches were attempted: every sample is in exactly one of them, as the original shifted
      by the start time, and the batches have one timestamp each, strictly increasing. */
  lemma AllWritten(series: seq<TimeSeries>, nowMs: int, sorted: seq<Labelled>)
    requires InTime(sorted) && multiset(sorted) == multiset(Flatten(series, nowMs))
    ensures multiset(Concat(Groups(sorted, 0))) == multiset(Flatten(series, nowMs))
    ensures Successive(Groups(sorted, 0))
  {
    GroupsConcat(sorted, 0);
    GroupsSuccessive(sorted, 0);
    assert sorted[0..] == sorted;
  }
}
