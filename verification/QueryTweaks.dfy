/** Moving the time range of a query before it is sent (applyQueryTweaks in promql/testcases/expand.go). */
module QueryTweaks {
  import opened ExpectedAlert

  datatype Tweak = Tweak(truncateMs: int, align: bool, offsetMs: int)

  datatype TestCase = TestCase(query: string, start: Time, end: Time, resolution: Duration)

  /** Rounds down to a multiple of `d`; without effect when `d` is not positive. */
  function Truncate(t: Time, d: Duration): Time {
    if d <= 0 then t else t - t % d
  }

  /** The range after one tweak: truncated, then aligned to the step, then moved. */
  function ApplyOne(tc: TestCase, t: Tweak): TestCase {
    var d := t.truncateMs * MILLISECOND;
    var truncated := if d == 0 then tc else tc.(start := Truncate(tc.start, d), end := Truncate(tc.end, d));
    var aligned :=
      if !t.align then truncated
      else truncated.(start := Truncate(truncated.start, tc.resolution), end := Truncate(truncated.end, tc.resolution));
    aligned.(start := aligned.start + t.offsetMs * MILLISECOND, end := aligned.end + t.offsetMs * MILLISECOND)
  }

  function Apply(tc: TestCase, tweaks: seq<Tweak>): TestCase {
    if tweaks == [] then tc else ApplyOne(Apply(tc, tweaks[..|tweaks| - 1]), tweaks[|tweaks| - 1])
  }

  /** Works on a copy of the test case. */
  method ApplyQueryTweaks(tc: TestCase, tweaks: seq<Tweak>) returns (resTC: TestCase)
    ensures resTC == Apply(tc, tweaks)
  {
    resTC := tc;
    var i := 0;
    while i < |tweaks|
      invariant 0 <= i <= |tweaks|
      invariant resTC == Apply(tc, tweaks[..i])
    {
      var t := tweaks[i];
      assert tweaks[..i + 1][..i] == tweaks[..i];
      var d := t.truncateMs * MILLISECOND;
      if d != 0 {
        resTC := resTC.(start := Truncate(resTC.start, d));
        resTC := resTC.(end := Truncate(resTC.end, d));
      }
      if t.align {
        resTC := resTC.(start := Truncate(resTC.start, resTC.resolution));
        resTC := resTC.(end := Truncate(resTC.end, resTC.resolution));
      }
      d := t.offsetMs * MILLISECOND;
      if d != 0 {
        resTC := resTC.(start := resTC.start + d);
        resTC := resTC.(end := resTC.end + d);
      }
      i := i + 1;
    }
    assert tweaks[..i] == tweaks;
  }

  /** Truncating moves a time back by less than `d`, to a multiple of `d`. */
  lemma TruncateIs(t: Time, d: Duration)
    requires d > 0
    ensures t - d < Truncate(t, d) <= t && Truncate(t, d) % d == 0
  {
    var q := t / d;
    assert t == q * d + t % d;
    MultipleOf(q, d);
  }

  lemma MultipleOf(q: int, d: int)
    requires d > 0
    ensures (q * d) % d == 0
  {
    var n := q * d;
    var k, r := n / d, n % d;
    assert n == k * d + r;
    Apart(q, k, d, r);
  }

  lemma Apart(q: int, k: int, d: int, r: int)
    requires q * d == k * d + r && 0 <= r < d
    ensures r == 0
  {
    assert (q - k) * d == r;
    SmallMultiple(q - k, d, r);
  }

  lemma SmallMultiple(m: int, d: int, r: int)
    requires m * d == r && 0 <= r < d
    ensures r == 0
  {
    if m >= 1 {
      Grows(m, d);
    } else if m <= -1 {
      Grows(-m, d);
    }
  }

  lemma {:induction false} Grows(m: int, d: int)
    requires m >= 1 && d > 0
    ensures m * d >= d
  {
    if m == 1 {
    } else {
      Grows(m - 1, d);
      assert m * d == (m - 1) * d + d;
    }
  }

  lemma AtMostZero(m: int, d: int)
    requires d > 0 && m * d < d
    ensures m <= 0
  {
    if m >= 1 {
      Grows(m, d);
    }
  }

  lemma NotNegative(m: int, d: int)
    requires m >= 0 && d > 0
    ensures m * d >= 0
  {
  }

  /** Truncating keeps the order of two times. */
  lemma TruncateMonotonic(s: Time, t: Time, d: Duration)
    requires s <= t
    ensures Truncate(s, d) <= Truncate(t, d)
  {
    if d > 0 {
      var a, b := s / d, t / d;
      assert s == a * d + s % d && t == b * d + t % d;
      assert (a - b) * d == a * d - b * d;
      AtMostZero(a - b, d);
      assert (b - a) * d == b * d - a * d;
      NotNegative(b - a, d);
    }
  }

  /** One truncation changes the span of the range by less than `d`. */
  lemma SpanChange(s: Time, t: Time, d: Duration)
    requires d > 0
    ensures -d < (Truncate(t, d) - Truncate(s, d)) - (t - s) < d
  {
    TruncateIs(s, d);
    TruncateIs(t, d);
  }

  /** `m` is `t` rounded down to a multiple of `d`; a `d` that is not positive changes nothing. */
  predicate RoundedDown(m: Time, t: Time, d: Duration) {
    if d <= 0 then m == t else m % d == 0 && t - d < m <= t
  }

  /** `u` comes out of `t` by one tweak: rounded down to its unit, then to the step, then moved. */
  ghost predicate Tweaked(u: Time, t: Time, tweak: Tweak, step: Duration) {
    exists m :: RoundedDown(m, t, tweak.truncateMs * 1_000_000)
      && RoundedDown(u - tweak.offsetMs * 1_000_000, m, if tweak.align then step else 0)
  }

  lemma TruncateRounds(t: Time, d: Duration)
    ensures RoundedDown(Truncate(t, d), t, d)
  {
    if d > 0 {
      TruncateIs(t, d);
    }
  }

  /** What one tweak does to both ends. */
  lemma TweakExactly(tc: TestCase, t: Tweak)
    ensures Tweaked(ApplyOne(tc, t).start, tc.start, t, tc.resolution)
    ensures Tweaked(ApplyOne(tc, t).end, tc.end, t, tc.resolution)
  {
    EndTweaked(tc.start, ApplyOne(tc, t).start, t, tc.resolution);
    EndTweaked(tc.end, ApplyOne(tc, t).end, t, tc.resolution);
  }

  lemma EndTweaked(t: Time, u: Time, tweak: Tweak, step: Duration)
    requires var m := Truncate(t, tweak.truncateMs * MILLISECOND);
      u == (if tweak.align then Truncate(m, step) else m) + tweak.offsetMs * MILLISECOND
    ensures Tweaked(u, t, tweak, step)
  {
    var m := Truncate(t, tweak.truncateMs * MILLISECOND);
    TruncateRounds(t, tweak.truncateMs * MILLISECOND);
    TruncateRounds(m, step);
    assert RoundedDown(m, t, tweak.truncateMs * 1_000_000);
  }

  /** Nothing else comes out of it. */
  lemma TweakedOnce(u: Time, v: Time, t: Time, tweak: Tweak, step: Duration)
    requires Tweaked(u, t, tweak, step) && Tweaked(v, t, tweak, step)
    ensures u == v
  {
    var d, s := tweak.truncateMs * 1_000_000, if tweak.align then step else 0;
    var off := tweak.offsetMs * 1_000_000;
    var m :| RoundedDown(m, t, d) && RoundedDown(u - off, m, s);
    var n :| RoundedDown(n, t, d) && RoundedDown(v - off, n, s);
    RoundedOnce(m, n, t, d);
    RoundedOnce(u - off, v - off, m, s);
  }

  lemma RoundedOnce(m: Time, n: Time, t: Time, d: Duration)
    requires RoundedDown(m, t, d) && RoundedDown(n, t, d)
    ensures m == n
  {
    if d > 0 {
      var a, b := m / d, n / d;
      assert m == a * d && n == b * d;
      assert (a - b) * d == m - n;
      assert (b - a) * d == n - m;
      AtMostZero(a - b, d);
      AtMostZero(b - a, d);
    }
  }

  /** Tweaks are applied one after the other. */
  lemma ApplyNext(tc: TestCase, tweaks: seq<Tweak>, t: Tweak)
    ensures Apply(tc, []) == tc && Apply(tc, tweaks + [t]) == ApplyOne(Apply(tc, tweaks), t)
  {
    assert (tweaks + [t])[..|tweaks|] == tweaks;
  }

  /** Whatever the tweaks, a range keeps its order, and nothing but the range changes. */
  lemma {:induction false} RangeKept(tc: TestCase, tweaks: seq<Tweak>)
    requires tc.start <= tc.end
    ensures var r := Apply(tc, tweaks);
      r.start <= r.end && r.query == tc.query && r.resolution == tc.resolution
  {
    if tweaks == [] {
    } else {
      RangeKept(tc, tweaks[..|tweaks| - 1]);
      var before, t := Apply(tc, tweaks[..|tweaks| - 1]), tweaks[|tweaks| - 1];
      OrderKept(before, t);
    }
  }

  lemma OrderKept(tc: TestCase, t: Tweak)
    requires tc.start <= tc.end
    ensures ApplyOne(tc, t).start <= ApplyOne(tc, t).end
  {
    var d := t.truncateMs * MILLISECOND;
    TruncateMonotonic(tc.start, tc.end, d);
    TruncateMonotonic(tc.start, tc.end, tc.resolution);
    TruncateMonotonic(Truncate(tc.start, d), Truncate(tc.end, d), tc.resolution);
  }

  /** Does this tweak leave an aligned range where it is? */
  predicate KeepsAligned(t: Tweak) {
    t.offsetMs == 0 && (t.align || t.truncateMs <= 0)
  }

  /** When nothing moves the range after its last alignment, both ends are multiples of the resolution. */
  lemma {:induction false} EndsAligned(tc: TestCase, before: seq<Tweak>, last: Tweak, after: seq<Tweak>)
    requires tc.resolution > 0 && last.align && last.offsetMs == 0
    requires forall i :: 0 <= i < |after| ==> KeepsAligned(after[i])
    ensures var r := Apply(tc, before + [last] + after);
      r.resolution == tc.resolution && r.start % tc.resolution == 0 && r.end % tc.resolution == 0
  {
    ResolutionKept(tc, before);
    var b := Apply(tc, before);
    if after == [] {
      assert before + [last] + after == before + [last];
      assert (before + [last])[..|before|] == before;
      OneAligns(b, last);
    } else {
      var all, n := before + [last] + after, |after| - 1;
      assert all[..|all| - 1] == before + [last] + after[..n];
      EndsAligned(tc, before, last, after[..n]);
      OneKeepsAligned(Apply(tc, before + [last] + after[..n]), after[n]);
    }
  }

  lemma {:induction false} ResolutionKept(tc: TestCase, tweaks: seq<Tweak>)
    ensures Apply(tc, tweaks).resolution == tc.resolution
  {
    if tweaks == [] {
    } else {
      ResolutionKept(tc, tweaks[..|tweaks| - 1]);
    }
  }

  lemma OneAligns(tc: TestCase, t: Tweak)
    requires tc.resolution > 0 && t.align && t.offsetMs == 0
    ensures var r := ApplyOne(tc, t);
      r.resolution == tc.resolution && r.start % tc.resolution == 0 && r.end % tc.resolution == 0
  {
    var d := t.truncateMs * MILLISECOND;
    TruncateIs(tc.start, tc.resolution);
    TruncateIs(tc.end, tc.resolution);
    TruncateIs(Truncate(tc.start, d), tc.resolution);
    TruncateIs(Truncate(tc.end, d), tc.resolution);
  }

  lemma OneKeepsAligned(tc: TestCase, t: Tweak)
    requires tc.resolution > 0 && KeepsAligned(t)
    requires tc.start % tc.resolution == 0 && tc.end % tc.resolution == 0
    ensures var r := ApplyOne(tc, t);
      r.resolution == tc.resolution && r.start % tc.resolution == 0 && r.end % tc.resolution == 0
  {
    if t.align {
      OneAligns(tc, t);
    }
  }
}
