/** The samples the test cases remote-write (`SamplesToRemoteWrite` in cases/case_*.go),
    and the rules that watch them. */
module CaseSamples {
  import opened SampleNotation
  import opened CaseTables

  /** The values of the samples, one every remote-write interval. */
  function Values(ns: seq<Notation>): seq<real> {
    var s := Samples(RW_INTERVAL, 0, 0.0, ns);
    seq(|s|, k requires 0 <= k < |s| => s[k].value)
  }

  /** `Length(ns[..n])` without the slice. */
  function LengthTo(ns: seq<Notation>, n: nat): nat
    requires n <= |ns|
  {
    if n == 0 then 0 else LengthTo(ns, n - 1) + ns[n - 1].Count()
  }

  lemma {:induction false} LengthToIs(ns: seq<Notation>, n: nat)
    requires n <= |ns|
    ensures LengthTo(ns, n) == Length(ns[..n])
  {
    if n == 0 {
    } else {
      LengthToIs(ns, n - 1);
      assert ns[..n][..n - 1] == ns[..n - 1];
    }
  }

  /** The notations [i, j) are one value and repetitions of it. */
  predicate OneLevel(ns: seq<Notation>, i: nat, j: nat) {
    && i < j <= |ns| && ns[i].Value?
    && forall m :: i < m < j ==> ns[m].Steps? && ns[m].a == 0.0
  }

  lemma {:induction false} LevelReached(ns: seq<Notation>, i: nat, j: nat)
    requires OneLevel(ns, i, j)
    ensures Reached(0.0, ns[..j]) == ns[i].v
  {
    assert ns[..j][..j - 1] == ns[..j - 1];
    if j == i + 1 {
    } else {
      LevelReached(ns, i, j - 1);
      SumIs(0.0, ns[j - 1].Count());
    }
  }

  /** All samples of a level have its value. */
  lemma {:induction false} LevelAt(ns: seq<Notation>, i: nat, j: nat, k: nat)
    requires OneLevel(ns, i, j) && LengthTo(ns, i) <= k < LengthTo(ns, j)
    ensures k < |Values(ns)| && Values(ns)[k] == ns[i].v
  {
    if k < LengthTo(ns, j - 1) {
      LevelAt(ns, i, j - 1, k);
    } else {
      ValueIn(ns, j - 1, k);
      if j != i + 1 {
        LevelReached(ns, i, j - 1);
      }
    }
  }

  /** The value of a sample that the notation at `j` gives. */
  lemma ValueIn(ns: seq<Notation>, j: nat, k: nat)
    requires j < |ns| && LengthTo(ns, j) <= k < LengthTo(ns, j + 1)
    ensures k < |Values(ns)|
    ensures Values(ns)[k] == if ns[j].Value? then ns[j].v
                             else Reached(0.0, ns[..j]) + ns[j].a * (k - LengthTo(ns, j) + 1) as real
  {
    LengthToIs(ns, j);
    assert ns == (ns[..j] + [ns[j]]) + ns[j + 1..];
    SampleOf(RW_INTERVAL, 0.0, ns[..j], ns[j], ns[j + 1..], k - LengthTo(ns, j));
  }

  lemma ValuesLength(ns: seq<Notation>)
    ensures |Values(ns)| == LengthTo(ns, |ns|)
  {
    SamplesLength(RW_INTERVAL, 0, 0.0, ns);
    LengthToIs(ns, |ns|);
    assert ns[..|ns|] == ns;
  }

  // ---- PendingAndFiringAndResolved

  const PFR_SAMPLES: seq<Notation> := [
    Value(3.0), Value(5.0), Steps(0.0, 2), Value(9.0),
    Steps(0.0, 3), Value(11.0),
    Steps(0.0, 12),
    Value(15.0), Steps(0.0, 11),
    Steps(0.0, 20),
    Value(19.0), Steps(0.0, 15),
    Value(9.0), Steps(0.0, 19),
    Value(15.0), Steps(0.0, 24),
    Steps(0.0, 20),
    Value(8.0), Steps(0.0, 15)]

  const PFR_SAMPLE_COUNT: nat := 150

  function PfrLevel(k: nat): real {
    if k == 0 then 3.0 else if k < 4 then 5.0 else if k < 8 then 9.0
    else if k < 21 then 11.0 else if k < 53 then 15.0 else if k < 69 then 19.0
    else if k < 89 then 9.0 else if k < 134 then 15.0 else 8.0
  }

  lemma PfrLengths()
    ensures var ns := PFR_SAMPLES;
      && LengthTo(ns, 0) == 0 && LengthTo(ns, 1) == 1 && LengthTo(ns, 3) == 4 && LengthTo(ns, 5) == 8
      && LengthTo(ns, 7) == 21 && LengthTo(ns, 10) == 53 && LengthTo(ns, 12) == 69 && LengthTo(ns, 14) == 89
      && LengthTo(ns, 17) == 134 && LengthTo(ns, 19) == PFR_SAMPLE_COUNT
  {
  }

  lemma PfrLevels(k: nat)
    requires k < PFR_SAMPLE_COUNT
    ensures |Values(PFR_SAMPLES)| == PFR_SAMPLE_COUNT && Values(PFR_SAMPLES)[k] == PfrLevel(k)
  {
    var ns := PFR_SAMPLES;
    PfrLengths();
    ValuesLength(ns);
    if k < 1 {
      LevelAt(ns, 0, 1, k);
    } else if k < 4 {
      LevelAt(ns, 1, 3, k);
    } else if k < 8 {
      LevelAt(ns, 3, 5, k);
    } else if k < 21 {
      LevelAt(ns, 5, 7, k);
    } else if k < 53 {
      LevelAt(ns, 7, 10, k);
    } else if k < 69 {
      LevelAt(ns, 10, 12, k);
    } else if k < 89 {
      LevelAt(ns, 12, 14, k);
    } else if k < 134 {
      LevelAt(ns, 14, 17, k);
    } else {
      LevelAt(ns, 17, 19, k);
    }
  }

  // ---- NewAlerts_OrderCheck

  const R11_SAMPLES: seq<Notation> := [
    Value(1.0), Steps(0.0, 7),
    Value(11.0),
    Steps(0.0, 64),
    Value(9.0), Steps(0.0, 20)]

  const R12_SAMPLES: seq<Notation> := [
    Value(1.0), Steps(0.0, 31),
    Value(11.0),
    Steps(0.0, 32),
    Value(9.0), Steps(0.0, 20)]

  /** The longer of the two series. */
  const ORDER_SAMPLE_COUNT: nat := 94

  function R11Level(k: nat): real {
    if k < 8 then 1.0 else if k < 73 then 11.0 else 9.0
  }

  function R12Level(k: nat): real {
    if k < 32 then 1.0 else if k < 65 then 11.0 else 9.0
  }

  lemma R11Levels(k: nat)
    requires k < 94
    ensures |Values(R11_SAMPLES)| == 94 && Values(R11_SAMPLES)[k] == R11Level(k)
  {
    var ns := R11_SAMPLES;
    assert LengthTo(ns, 0) == 0 && LengthTo(ns, 2) == 8 && LengthTo(ns, 4) == 73 && LengthTo(ns, 6) == 94;
    ValuesLength(ns);
    if k < 8 {
      LevelAt(ns, 0, 2, k);
    } else if k < 73 {
      LevelAt(ns, 2, 4, k);
    } else {
      LevelAt(ns, 4, 6, k);
    }
  }

  lemma R12Levels(k: nat)
    requires k < 86
    ensures |Values(R12_SAMPLES)| == 86 && Values(R12_SAMPLES)[k] == R12Level(k)
  {
    var ns := R12_SAMPLES;
    assert LengthTo(ns, 0) == 0 && LengthTo(ns, 2) == 32 && LengthTo(ns, 4) == 65 && LengthTo(ns, 6) == 86;
    ValuesLength(ns);
    if k < 32 {
      LevelAt(ns, 0, 2, k);
    } else if k < 65 {
      LevelAt(ns, 2, 4, k);
    } else {
      LevelAt(ns, 4, 6, k);
    }
  }

  // ---- ZeroFor_SmallFor

  /** Both alerting rules watch the same samples. */
  const ZERO_SAMPLES: seq<Notation> := [
    Value(3.0), Value(5.0), Steps(0.0, 2), Value(9.0),
    Steps(0.0, 3), Value(15.0),
    Steps(0.0, 12),
    Value(9.0), Steps(0.0, 71),
    Value(11.0), Steps(0.0, 12),
    Value(9.0)]

  const ZERO_SAMPLE_COUNT: nat := 107
  const ZERO_TEST_SAMPLES: nat := 127

  /** The i-th of the three series that the annotation's template queries. */
  function TemplateSamples(i: int): seq<Notation> {
    [Value(i as real), Steps(0.0, 27), Value((2 * i) as real), Steps(0.0, 200)]
  }

  function ZeroLevel(k: nat): real {
    if k == 0 then 3.0 else if k < 4 then 5.0 else if k < 8 then 9.0
    else if k < 21 then 15.0 else if k < 93 then 9.0 else if k < 106 then 11.0 else 9.0
  }

  lemma ZeroLengths()
    ensures var ns := ZERO_SAMPLES;
      && LengthTo(ns, 0) == 0 && LengthTo(ns, 1) == 1 && LengthTo(ns, 3) == 4 && LengthTo(ns, 5) == 8
      && LengthTo(ns, 7) == 21 && LengthTo(ns, 9) == 93 && LengthTo(ns, 11) == 106
      && LengthTo(ns, 12) == ZERO_SAMPLE_COUNT
  {
  }

  lemma ZeroLevels(k: nat)
    requires k < ZERO_SAMPLE_COUNT
    ensures |Values(ZERO_SAMPLES)| == ZERO_SAMPLE_COUNT && Values(ZERO_SAMPLES)[k] == ZeroLevel(k)
  {
    var ns := ZERO_SAMPLES;
    ZeroLengths();
    ValuesLength(ns);
    if k < 1 {
      LevelAt(ns, 0, 1, k);
    } else if k < 4 {
      LevelAt(ns, 1, 3, k);
    } else if k < 8 {
      LevelAt(ns, 3, 5, k);
    } else if k < 21 {
      LevelAt(ns, 5, 7, k);
    } else if k < 93 {
      LevelAt(ns, 7, 9, k);
    } else if k < 106 {
      LevelAt(ns, 9, 11, k);
    } else {
      LevelAt(ns, 11, 12, k);
    }
  }

  lemma TemplateLevels(i: int, k: nat)
    requires k < 229
    ensures |Values(TemplateSamples(i))| == 229
    ensures Values(TemplateSamples(i))[k] == if k < 28 then i as real else (2 * i) as real
  {
    var ns := TemplateSamples(i);
    assert LengthTo(ns, 0) == 0 && LengthTo(ns, 2) == 28 && LengthTo(ns, 4) == 229;
    ValuesLength(ns);
    if k < 28 {
      LevelAt(ns, 0, 2, k);
    } else {
      LevelAt(ns, 2, 4, k);
    }
  }

  // ---- PendingAndResolved_AlwaysInactive

  const PR_SAMPLES: seq<Notation> := [
    Value(3.0), Value(5.0), Steps(0.0, 2), Value(9.0),
    Steps(0.0, 3), Value(11.0),
    Steps(0.0, 10),
    Value(9.0)]

  const PR_SAMPLE_COUNT: nat := 20
  const PR_TEST_SAMPLES: nat := 60

  function PrLevel(k: nat): real {
    if k == 0 then 3.0 else if k < 4 then 5.0 else if k < 8 then 9.0 else if k < 19 then 11.0 else 9.0
  }

  lemma PrLevels(k: nat)
    requires k < PR_SAMPLE_COUNT
    ensures |Values(PR_SAMPLES)| == PR_SAMPLE_COUNT && Values(PR_SAMPLES)[k] == PrLevel(k)
  {
    var ns := PR_SAMPLES;
    assert LengthTo(ns, 0) == 0 && LengthTo(ns, 1) == 1 && LengthTo(ns, 3) == 4 && LengthTo(ns, 5) == 8;
    assert LengthTo(ns, 7) == 19 && LengthTo(ns, 8) == 20;
    ValuesLength(ns);
    if k < 1 {
      LevelAt(ns, 0, 1, k);
    } else if k < 4 {
      LevelAt(ns, 1, 3, k);
    } else if k < 8 {
      LevelAt(ns, 3, 5, k);
    } else if k < 19 {
      LevelAt(ns, 5, 7, k);
    } else {
      LevelAt(ns, 7, 8, k);
    }
  }
}
