/** The notation the test cases write their samples in (`sampleSlice` in cases/utils.go). */
module SampleNotation {
  import opened ExpectedAlert

  /** `a` added up `n` times. */
  function Sum(a: real, n: nat): real {
    if n == 0 then 0.0 else Sum(a, n - 1) + a
  }

  lemma {:induction false} SumIs(a: real, n: nat)
    ensures Sum(a, n) == a * n as real
  {
    if n == 0 {
    } else {
      SumIs(a, n - 1);
      assert a * n as real == a * (n - 1) as real + a;
    }
  }

  /** "V" is an absolute value, "AxB" adds A, B times; a negative B adds nothing. */
  datatype Notation = Value(v: real) | Steps(a: real, b: int)
  {
    function Count(): nat {
      match this
      case Value(_) => 1
      case Steps(_, b) => if b < 0 then 0 else b
    }

    /** The value this notation starts from plus what it adds by its i-th sample. */
    function ValueAt(entry: real, i: nat): real {
      match this
      case Value(v) => v
      case Steps(a, _) => entry + Sum(a, i + 1)
    }

    /** The value the next notation starts from. */
    function Exit(entry: real): real {
      if Count() == 0 then entry else ValueAt(entry, Count() - 1)
    }
  }

  datatype Sample = Sample(timestamp: int, value: real)

  function Length(ns: seq<Notation>): nat {
    if ns == [] then 0 else Length(ns[..|ns| - 1]) + ns[|ns| - 1].Count()
  }

  /** The value reached after all of `ns`. */
  function Reached(entry: real, ns: seq<Notation>): real {
    if ns == [] then entry else ns[|ns| - 1].Exit(Reached(entry, ns[..|ns| - 1]))
  }

  /** The first `n` samples of one notation, from the `first`-th timestamp on. */
  function Run(interval: Duration, first: nat, entry: real, v: Notation, n: nat): seq<Sample> {
    if n == 0 then [] else
    Run(interval, first, entry, v, n - 1)
    + [Sample(Timestamp(interval, first + n - 1), v.ValueAt(entry, n - 1))]
  }

  function Elapsed(interval: Duration, k: nat): Duration {
    if k == 0 then 0 else Elapsed(interval, k - 1) + interval
  }

  /** Whole milliseconds, rounded down. */
  function Timestamp(interval: Duration, k: nat): int {
    Elapsed(interval, k) / MILLISECOND
  }

  lemma {:induction false} TimestampIs(interval: Duration, k: nat)
    ensures Elapsed(interval, k) == k * interval && Timestamp(interval, k) == k * interval / MILLISECOND
  {
    if k == 0 {
    } else {
      TimestampIs(interval, k - 1);
      assert (k - 1) * interval + interval == k * interval;
    }
  }

  /** All samples of `ns`, from the `first`-th timestamp and the value `entry` on. */
  function Samples(interval: Duration, first: nat, entry: real, ns: seq<Notation>): seq<Sample> {
    if ns == [] then [] else
    var init, v := ns[..|ns| - 1], ns[|ns| - 1];
    Samples(interval, first, entry, init)
    + Run(interval, first + Length(init), Reached(entry, init), v, v.Count())
  }

  /** Running values, timestamps and samples through nested loops. */
  method SampleSlice(interval: Duration, values: seq<Notation>) returns (samples: seq<Sample>)
    ensures samples == Samples(interval, 0, 0.0, values)
  {
    samples := [];
    var ts, val := 0, 0.0;
    ghost var k := 0;
    var j := 0;
    while j < |values|
      invariant 0 <= j <= |values|
      invariant k == Length(values[..j]) && ts == Elapsed(interval, k) && val == Reached(0.0, values[..j])
      invariant samples == Samples(interval, 0, 0.0, values[..j])
    {
      var v := values[j];
      assert values[..j + 1][..j] == values[..j];
      ghost var first, entry, done := k, val, samples;
      match v {
        case Steps(a, b) =>
          var i := 0;
          while i < b
            invariant 0 <= i <= v.Count()
            invariant k == first + i && ts == Elapsed(interval, k)
            invariant val == entry + Sum(a, i)
            invariant samples == done + Run(interval, first, entry, v, i)
          {
            val := val + a;
            samples := samples + [Sample(ts / MILLISECOND, val)];
            ts := ts + interval;
            i, k := i + 1, k + 1;
          }
        case Value(x) =>
          val := x;
          samples := samples + [Sample(ts / MILLISECOND, val)];
          ts := ts + interval;
          k := k + 1;
          assert Run(interval, first, entry, v, 1) == [Sample(Timestamp(interval, first), x)];
      }
      j := j + 1;
    }
    assert values[..j] == values;
  }

  lemma {:induction false} RunAt(interval: Duration, first: nat, entry: real, v: Notation, n: nat)
    ensures |Run(interval, first, entry, v, n)| == n
    ensures forall i :: 0 <= i < n ==>
      Run(interval, first, entry, v, n)[i] == Sample(Timestamp(interval, first + i), v.ValueAt(entry, i))
  {
    if n == 0 {
    } else {
      RunAt(interval, first, entry, v, n - 1);
    }
  }

  /** As many samples as the counts add up to, the k-th at k intervals. */
  lemma {:induction false} TimestampsRegular(interval: Duration, first: nat, entry: real, ns: seq<Notation>)
    ensures var s := Samples(interval, first, entry, ns);
      && |s| == Length(ns)
      && forall k :: 0 <= k < |s| ==> s[k].timestamp == (first + k) * interval / MILLISECOND
  {
    if ns == [] {
    } else {
      var init, v := ns[..|ns| - 1], ns[|ns| - 1];
      TimestampsRegular(interval, first, entry, init);
      var from := first + Length(init);
      RunAt(interval, from, Reached(entry, init), v, v.Count());
      forall i | 0 <= i < v.Count()
        ensures Run(interval, from, Reached(entry, init), v, v.Count())[i].timestamp
          == (from + i) * interval / MILLISECOND
      {
        TimestampIs(interval, from + i);
      }
    }
  }

  /** What a stretch of increments adds up to. */
  function Increments(ns: seq<Notation>): real {
    if ns == [] then 0.0 else
    var v := ns[|ns| - 1];
    Increments(ns[..|ns| - 1]) + if v.Steps? && v.b > 0 then v.a * v.b as real else 0.0
  }

  /** The value reached is the last absolute value, or the one at the start, and all increments after it. */
  lemma {:induction false} ReachedExactly(entry: real, a: seq<Notation>, x: real, b: seq<Notation>)
    requires forall v :: v in b ==> v.Steps?
    ensures Reached(entry, b) == entry + Increments(b)
    ensures Reached(entry, a + [Value(x)] + b) == x + Increments(b)
  {
    if b == [] {
      assert a + [Value(x)] + b == a + [Value(x)];
    } else {
      var init, v := b[..|b| - 1], b[|b| - 1];
      assert v in b && forall w :: w in init ==> w in b;
      assert (a + [Value(x)] + b)[..|a + [Value(x)] + b| - 1] == a + [Value(x)] + init;
      ReachedExactly(entry, a, x, init);
      SumIs(v.a, v.Count());
    }
  }

  lemma {:induction false} LengthSplit(a: seq<Notation>, b: seq<Notation>, entry: real)
    ensures Length(a + b) == Length(a) + Length(b)
    ensures Reached(entry, a + b) == Reached(Reached(entry, a), b)
  {
    if b == [] {
      assert a + b == a;
    } else {
      assert (a + b)[..|a + b| - 1] == a + b[..|b| - 1];
      LengthSplit(a, b[..|b| - 1], entry);
    }
  }

  /** Splitting the notation anywhere: the second part runs from the state the first part reached. */
  lemma {:induction false} SamplesSplit(interval: Duration, first: nat, entry: real, a: seq<Notation>, b: seq<Notation>)
    ensures Samples(interval, first, entry, a + b)
      == Samples(interval, first, entry, a) + Samples(interval, first + Length(a), Reached(entry, a), b)
  {
    if b == [] {
      assert a + b == a;
    } else {
      assert (a + b)[..|a + b| - 1] == a + b[..|b| - 1];
      SamplesSplit(interval, first, entry, a, b[..|b| - 1]);
      LengthSplit(a, b[..|b| - 1], entry);
    }
  }

  lemma {:induction false} SamplesLength(interval: Duration, first: nat, entry: real, ns: seq<Notation>)
    ensures |Samples(interval, first, entry, ns)| == Length(ns)
  {
    if ns == [] {
    } else {
      var init, v := ns[..|ns| - 1], ns[|ns| - 1];
      SamplesLength(interval, first, entry, init);
      RunAt(interval, first + Length(init), Reached(entry, init), v, v.Count());
    }
  }

  lemma LastOf(interval: Duration, entry: real, a: seq<Notation>, v: Notation, i: nat)
    requires i < v.Count()
    ensures var s := Samples(interval, 0, entry, a + [v]);
      Length(a) + i < |s| && s[Length(a) + i].value == v.ValueAt(Reached(entry, a), i)
  {
    assert (a + [v])[..|a + [v]| - 1] == a;
    SamplesLength(interval, 0, entry, a);
    RunAt(interval, Length(a), Reached(entry, a), v, v.Count());
  }

  lemma PrefixOf(interval: Duration, entry: real, a: seq<Notation>, b: seq<Notation>)
    ensures Samples(interval, 0, entry, a) <= Samples(interval, 0, entry, a + b)
  {
    SamplesSplit(interval, 0, entry, a, b);
  }

  /** The i-th sample of the notation after `a`: its own value, whatever was before, or the value
      reached before plus its increment times the position. */
  lemma SampleOf(interval: Duration, entry: real, a: seq<Notation>, v: Notation, b: seq<Notation>, i: nat)
    requires i < v.Count()
    ensures var s := Samples(interval, 0, entry, (a + [v]) + b);
      && Length(a) + i < |s|
      && s[Length(a) + i].value == if v.Value? then v.v else Reached(entry, a) + v.a * (i + 1) as real
  {
    PrefixOf(interval, entry, a + [v], b);
    LastOf(interval, entry, a, v, i);
    ValueIs(v, Reached(entry, a), i);
    PrefixAt(Samples(interval, 0, entry, a + [v]), Samples(interval, 0, entry, (a + [v]) + b), Length(a) + i);
  }

  lemma ValueIs(v: Notation, entry: real, i: nat)
    ensures v.ValueAt(entry, i) == if v.Value? then v.v else entry + v.a * (i + 1) as real
  {
    if v.Steps? {
      SumIs(v.a, i + 1);
    }
  }

  lemma PrefixAt<T>(s: seq<T>, t: seq<T>, i: nat)
    requires s <= t && i < |s|
    ensures i < |t| && t[i] == s[i]
  {
  }

  /** The notation of the source's own test. */
  const DOCUMENTED: seq<Notation> :=
    [Steps(1.0, 1), Steps(0.0, 3), Steps(5.0, 3), Value(9.0), Value(8.0), Steps(-2.0, 2)]

  /** The values the source's own test expects for it. */
  lemma DocumentedValues()
    ensures var s := SamplesOfTest();
      |s| == 11 && forall k :: 0 <= k < 11 ==>
        s[k].value == [1.0, 1.0, 1.0, 1.0, 6.0, 11.0, 16.0, 9.0, 8.0, 6.0, 4.0][k] && s[k].timestamp == 15_000 * k
  {
    var s := SamplesOfTest();
    TimestampsRegular(15 * SECOND, 0, 0.0, DOCUMENTED);
    PrefixesReach();
    EntryOf(0, 0, 0.0, 0);
    EntryOf(1, 1, 1.0, 0);
    EntryOf(1, 1, 1.0, 1);
    EntryOf(1, 1, 1.0, 2);
    EntryOf(2, 4, 1.0, 0);
    EntryOf(2, 4, 1.0, 1);
    EntryOf(2, 4, 1.0, 2);
    EntryOf(3, 7, 16.0, 0);
    EntryOf(4, 8, 9.0, 0);
    EntryOf(5, 9, 8.0, 0);
    EntryOf(5, 9, 8.0, 1);
    assert DOCUMENTED[..6] == DOCUMENTED;
  }

  function SamplesOfTest(): seq<Sample> {
    Samples(15 * SECOND, 0, 0.0, DOCUMENTED)
  }

  lemma PrefixesReach()
    ensures Reach(0, 0, 0.0) && Reach(1, 1, 1.0) && Reach(2, 4, 1.0) && Reach(3, 7, 16.0)
    ensures Reach(4, 8, 9.0) && Reach(5, 9, 8.0) && Reach(6, 11, 4.0)
  {
    ReachNext(0, 0, 0.0);
    ReachNext(1, 1, 1.0);
    ReachNext(2, 4, 1.0);
    ReachNext(3, 7, 16.0);
    ReachNext(4, 8, 9.0);
    ReachNext(5, 9, 8.0);
  }

  predicate Reach(n: nat, count: nat, x: real)
    requires n <= 6
  {
    Length(DOCUMENTED[..n]) == count && Reached(0.0, DOCUMENTED[..n]) == x
  }

  lemma ReachNext(n: nat, count: nat, x: real)
    requires n < 6 && Reach(n, count, x)
    ensures var v := DOCUMENTED[n];
      Reach(n + 1, count + v.Count(), if v.Value? then v.v else x + v.a * v.Count() as real)
  {
    var v := DOCUMENTED[n];
    assert DOCUMENTED[..n + 1][..n] == DOCUMENTED[..n];
    ValueIs(v, x, v.Count() - 1);
  }

  lemma EntryOf(n: nat, count: nat, x: real, i: nat)
    requires n < 6 && Reach(n, count, x) && i < DOCUMENTED[n].Count()
    ensures var s, v := SamplesOfTest(), DOCUMENTED[n];
      count + i < |s| && s[count + i].value == if v.Value? then v.v else x + v.a * (i + 1) as real
  {
    SampleOf(15 * SECOND, 0.0, DOCUMENTED[..n], DOCUMENTED[n], DOCUMENTED[n + 1..], i);
    assert (DOCUMENTED[..n] + [DOCUMENTED[n]]) + DOCUMENTED[n + 1..] == DOCUMENTED;
  }
}
