/** Comparing the alerts an API lists with the alternatives a test case allows (cases/utils.go). */
module AlertCompare {
  import opened Labels
  import opened Sequences
  import opened LabelOrder
  import opened ExpectedAlert
  import opened Options

  /** An alert as the API lists it; a value that does not parse is None. */
  datatype ApiAlert = ApiAlert(
    labels: LabelSet,
    annotations: LabelSet,
    state: string,
    value: Option<real>,
    activeAt: Option<Time>)

  /** The actual alert `a` is what `e` describes. */
  predicate Fits(e: ApiAlert, a: ApiAlert, interval: Duration) {
    && e.labels == a.labels && e.annotations == a.annotations && e.state == a.state
    && e.value.Some? && a.value == e.value
    && e.activeAt.Some? && a.activeAt.Some?
    && e.activeAt.value <= a.activeAt.value <= e.activeAt.value + (interval + 2 * MAX_RTT)
  }

  function Firsts(pairs: seq<(ApiAlert, ApiAlert)>): seq<ApiAlert> {
    if pairs == [] then [] else Firsts(pairs[..|pairs| - 1]) + [pairs[|pairs| - 1].0]
  }

  function Seconds(pairs: seq<(ApiAlert, ApiAlert)>): seq<ApiAlert> {
    if pairs == [] then [] else Seconds(pairs[..|pairs| - 1]) + [pairs[|pairs| - 1].1]
  }

  ghost predicate Pairing(pairs: seq<(ApiAlert, ApiAlert)>, exp: seq<ApiAlert>, act: seq<ApiAlert>,
                          interval: Duration)
  {
    && multiset(Firsts(pairs)) == multiset(exp)
    && multiset(Seconds(pairs)) == multiset(act)
    && forall p :: p in pairs ==> Fits(p.0, p.1, interval)
  }

  /** Expected and actual alerts can be paired off so that each pair fits. */
  ghost predicate SameAlerts(exp: seq<ApiAlert>, act: seq<ApiAlert>, interval: Duration) {
    exists pairs :: Pairing(pairs, exp, act, interval)
  }

  ghost predicate DistinctLabels(s: seq<ApiAlert>) {
    forall i, j :: 0 <= i < j < |s| ==> s[i].labels != s[j].labels
  }

  // ---- sorting by labels

  /** `labels.Compare(a, b) <= 0`, what the code passes for "less". */
  predicate AtMost(a: LabelSet, b: LabelSet) {
    !Before(b, a)
  }

  function InsertByLabels(x: ApiAlert, s: seq<ApiAlert>): seq<ApiAlert> {
    if s == [] then [x]
    else if AtMost(x.labels, s[|s| - 1].labels) then InsertByLabels(x, s[..|s| - 1]) + [s[|s| - 1]]
    else s + [x]
  }

  function ByLabels(s: seq<ApiAlert>): seq<ApiAlert> {
    if s == [] then [] else InsertByLabels(s[|s| - 1], ByLabels(s[..|s| - 1]))
  }

  lemma {:induction false} InsertKeeps(x: ApiAlert, s: seq<ApiAlert>)
    ensures multiset(InsertByLabels(x, s)) == multiset(s) + multiset{x}
  {
    if s == [] {
    } else {
      InsertKeeps(x, s[..|s| - 1]);
      assert s == s[..|s| - 1] + [s[|s| - 1]];
    }
  }

  lemma {:induction false} ByLabelsHolds(s: seq<ApiAlert>)
    ensures multiset(ByLabels(s)) == multiset(s)
  {
    if s == [] {
    } else {
      var init, last := s[..|s| - 1], s[|s| - 1];
      ByLabelsHolds(init);
      InsertKeeps(last, ByLabels(init));
      assert multiset(s) == multiset(init) + multiset{last} by {
        assert s == init + [last];
      }
    }
  }

  lemma ByLabelsKeeps(s: seq<ApiAlert>)
    ensures multiset(ByLabels(s)) == multiset(s) && |ByLabels(s)| == |s|
  {
    ByLabelsHolds(s);
    SameSize(ByLabels(s), s);
  }

  lemma SameSize<T>(a: seq<T>, b: seq<T>)
    requires multiset(a) == multiset(b)
    ensures |a| == |b|
  {
    assert |multiset(a)| == |a| && |multiset(b)| == |b|;
  }

  /** `sort.Slice` by labels, as an insertion sort. */
  method SortByLabels(a: array<ApiAlert>)
    modifies a
    ensures a[..] == ByLabels(old(a[..]))
  {
    ghost var s := a[..];
    var i := 0;
    while i < a.Length
      invariant 0 <= i <= a.Length
      invariant a[..i] == ByLabels(s[..i]) && a[i..] == s[i..]
    {
      assert s[..i + 1][..i] == s[..i] && a[i] == a[i..][0] == s[i];
      SinkInto(a, i);
      assert a[i + 1..] == s[i..][1..] == s[i + 1..];
      i := i + 1;
    }
    assert a[..i] == a[..] && s[..i] == s;
  }

  /** Moves a[i] down to its place in the sorted a[..i]. */
  method SinkInto(a: array<ApiAlert>, i: nat)
    requires i < a.Length
    modifies a
    ensures a[..i + 1] == InsertByLabels(old(a[i]), old(a[..i]))
    ensures a[i + 1..] == old(a[i + 1..])
  {
    ghost var t, x, rest := a[..i], a[i], a[i + 1..];
    var j := i;
    assert t[..i] == t;
    assert a[..i + 1] == Sunk(t, x, i);
    while j > 0 && AtMost(a[j].labels, a[j - 1].labels)
      invariant 0 <= j <= i == |t|
      invariant a[i + 1..] == rest
      invariant a[..i + 1] == Sunk(t, x, j)
      invariant InsertByLabels(x, t) == InsertByLabels(x, t[..j]) + t[j..]
    {
      SunkAt(t, x, j);
      assert a[j] == a[..i + 1][j] == x && a[j - 1] == a[..i + 1][j - 1] == t[j - 1];
      InsertStep(x, t, j);
      SunkStep(t, x, j);
      a[j], a[j - 1] := a[j - 1], a[j];
      assert a[..i + 1] == Sunk(t, x, j)[j := t[j - 1]][j - 1 := x];
      j := j - 1;
    }
    SunkAt(t, x, j);
    assert j > 0 ==> a[j] == a[..i + 1][j] == x && a[j - 1] == a[..i + 1][j - 1] == t[j - 1];
    assert InsertByLabels(x, t[..j]) == t[..j] + [x];
  }

  function Sunk(t: seq<ApiAlert>, x: ApiAlert, j: nat): seq<ApiAlert>
    requires j <= |t|
  {
    t[..j] + [x] + t[j..]
  }

  lemma SunkAt(t: seq<ApiAlert>, x: ApiAlert, j: nat)
    requires j <= |t|
    ensures |Sunk(t, x, j)| == |t| + 1 && Sunk(t, x, j)[j] == x
    ensures j > 0 ==> Sunk(t, x, j)[j - 1] == t[j - 1]
  {
  }

  lemma SunkStep(t: seq<ApiAlert>, x: ApiAlert, j: nat)
    requires 0 < j <= |t|
    ensures Sunk(t, x, j)[j := t[j - 1]][j - 1 := x] == Sunk(t, x, j - 1)
  {
  }

  lemma InsertStep(x: ApiAlert, t: seq<ApiAlert>, j: nat)
    requires 0 < j <= |t| && AtMost(x.labels, t[j - 1].labels)
    requires InsertByLabels(x, t) == InsertByLabels(x, t[..j]) + t[j..]
    ensures InsertByLabels(x, t) == InsertByLabels(x, t[..j - 1]) + t[j - 1..]
  {
    assert t[..j][..j - 1] == t[..j - 1];
    assert t[j - 1..] == [t[j - 1]] + t[j..];
  }

  // ---- sorted lists fit exactly when the alerts can be paired off

  predicate AllFit(exp: seq<ApiAlert>, act: seq<ApiAlert>, interval: Duration) {
    |exp| == |act| && forall i :: 0 <= i < |exp| ==> Fits(exp[i], act[i], interval)
  }

  lemma {:induction false} InsertFits(x: ApiAlert, y: ApiAlert, s: seq<ApiAlert>, t: seq<ApiAlert>, interval: Duration)
    requires Fits(x, y, interval) && AllFit(s, t, interval)
    ensures AllFit(InsertByLabels(x, s), InsertByLabels(y, t), interval)
  {
    if s == [] || !AtMost(x.labels, s[|s| - 1].labels) {
    } else {
      InsertFits(x, y, s[..|s| - 1], t[..|t| - 1], interval);
    }
  }

  /** Two lists that pair off sort alike. */
  lemma {:induction false} PairsSortAlike(pairs: seq<(ApiAlert, ApiAlert)>, interval: Duration)
    requires forall p :: p in pairs ==> Fits(p.0, p.1, interval)
    ensures AllFit(ByLabels(Firsts(pairs)), ByLabels(Seconds(pairs)), interval)
  {
    if pairs == [] {
    } else {
      var before, p := pairs[..|pairs| - 1], pairs[|pairs| - 1];
      PairsSortAlike(before, interval);
      assert Firsts(pairs)[..|Firsts(pairs)| - 1] == Firsts(before);
      assert Seconds(pairs)[..|Seconds(pairs)| - 1] == Seconds(before);
      InsertFits(p.0, p.1, ByLabels(Firsts(before)), ByLabels(Seconds(before)), interval);
    }
  }

  lemma {:induction false} PairsAt(pairs: seq<(ApiAlert, ApiAlert)>)
    ensures |Firsts(pairs)| == |Seconds(pairs)| == |pairs|
    ensures forall i :: 0 <= i < |pairs| ==> Firsts(pairs)[i] == pairs[i].0 && Seconds(pairs)[i] == pairs[i].1
  {
    if pairs == [] {
    } else {
      PairsAt(pairs[..|pairs| - 1]);
    }
  }

  ghost predicate Increasing(s: seq<ApiAlert>) {
    forall i, j :: 0 <= i < j < |s| ==> Before(s[i].labels, s[j].labels)
  }

  lemma {:induction false} OnceIn(s: seq<ApiAlert>, k: nat)
    requires DistinctLabels(s) && k < |s|
    ensures multiset(s)[s[k]] == 1
  {
    var init, last := s[..|s| - 1], s[|s| - 1];
    assert s == init + [last];
    if k < |init| {
      OnceIn(init, k);
    } else {
      assert last !in init;
    }
  }

  lemma DistinctKept(a: seq<ApiAlert>, b: seq<ApiAlert>)
    requires multiset(a) == multiset(b) && DistinctLabels(a)
    ensures DistinctLabels(b)
  {
    forall i, j | 0 <= i < j < |b| ensures b[i].labels != b[j].labels {
      assert b[i] in multiset(a) && b[j] in multiset(a);
      var k :| 0 <= k < |a| && a[k] == b[i];
      var m :| 0 <= m < |a| && a[m] == b[j];
      OnceIn(a, k);
      if b[i] == b[j] {
        TwiceIn(b, i, j);
      }
    }
  }

  lemma {:induction false} InsertIncreasing(x: ApiAlert, s: seq<ApiAlert>)
    requires Increasing(s) && forall i :: 0 <= i < |s| ==> s[i].labels != x.labels
    ensures Increasing(InsertByLabels(x, s))
    ensures forall y :: y in InsertByLabels(x, s) <==> y == x || y in s
  {
    if s == [] {
    } else {
      var init, last := s[..|s| - 1], s[|s| - 1];
      BeforeTotal(x.labels, last.labels);
      if AtMost(x.labels, last.labels) {
        InsertIncreasing(x, init);
        var r := InsertByLabels(x, init);
        forall i | 0 <= i < |r| ensures Before(r[i].labels, last.labels) {
          assert r[i] in r;
        }
      } else {
        forall i | 0 <= i < |s| ensures Before(s[i].labels, x.labels) {
          if i < |s| - 1 {
            BeforeTransitive(s[i].labels, last.labels, x.labels);
          }
        }
      }
    }
  }

  lemma {:induction false} SortIncreasing(s: seq<ApiAlert>)
    requires DistinctLabels(s)
    ensures Increasing(ByLabels(s))
  {
    if s == [] {
    } else {
      var init := s[..|s| - 1];
      SortIncreasing(init);
      ByLabelsKeeps(init);
      forall i | 0 <= i < |init| ensures ByLabels(init)[i].labels != s[|s| - 1].labels {
        assert ByLabels(init)[i] in multiset(ByLabels(init));
        assert ByLabels(init)[i] in init;
      }
      InsertIncreasing(s[|s| - 1], ByLabels(init));
    }
  }

  lemma LastOff(s: seq<ApiAlert>)
    requires s != []
    ensures multiset(s) == multiset(s[..|s| - 1]) + multiset{s[|s| - 1]}
  {
    assert s == s[..|s| - 1] + [s[|s| - 1]];
  }

  lemma SameLast(s: seq<ApiAlert>, t: seq<ApiAlert>)
    requires Increasing(s) && Increasing(t) && multiset(s) == multiset(t)
    requires s != [] && t != []
    ensures s[|s| - 1] == t[|t| - 1]
  {
    var x, y := s[|s| - 1], t[|t| - 1];
    assert x in multiset(t) && y in multiset(s);
    var i :| 0 <= i < |t| && t[i] == x;
    var j :| 0 <= j < |s| && s[j] == y;
    BeforeTotal(x.labels, y.labels);
  }

  /** There is only one increasing list of given alerts. */
  lemma {:induction false} IncreasingUnique(s: seq<ApiAlert>, t: seq<ApiAlert>)
    requires Increasing(s) && Increasing(t) && multiset(s) == multiset(t)
    ensures s == t
  {
    assert |s| == |multiset(s)| == |multiset(t)| == |t|;
    if s != [] {
      SameLast(s, t);
      LastOff(s);
      LastOff(t);
      Cancel(multiset(s[..|s| - 1]), multiset(t[..|t| - 1]), s[|s| - 1]);
      IncreasingUnique(s[..|s| - 1], t[..|t| - 1]);
      assert s == s[..|s| - 1] + [s[|s| - 1]];
    }
  }

  lemma Cancel<T>(a: multiset<T>, b: multiset<T>, x: T)
    requires a + multiset{x} == b + multiset{x}
    ensures a == b
  {
    assert a == a + multiset{x} - multiset{x};
    assert b == b + multiset{x} - multiset{x};
  }

  lemma SortCanonical(a: seq<ApiAlert>, b: seq<ApiAlert>)
    requires multiset(a) == multiset(b) && DistinctLabels(a)
    ensures ByLabels(a) == ByLabels(b)
  {
    DistinctKept(a, b);
    SortIncreasing(a);
    SortIncreasing(b);
    ByLabelsKeeps(a);
    ByLabelsKeeps(b);
    IncreasingUnique(ByLabels(a), ByLabels(b));
  }

  /** Sorting and comparing position by position never accepts alerts that cannot be paired off,
      and, when no two expected alerts have the same labels, accepts all that can. */
  lemma SortedFitExactly(exp: seq<ApiAlert>, act: seq<ApiAlert>, interval: Duration)
    ensures AllFit(ByLabels(exp), ByLabels(act), interval) ==> SameAlerts(exp, act, interval)
    ensures DistinctLabels(exp) && SameAlerts(exp, act, interval) ==> AllFit(ByLabels(exp), ByLabels(act), interval)
  {
    if AllFit(ByLabels(exp), ByLabels(act), interval) {
      FitsInOrder(ByLabels(exp), ByLabels(act), interval);
      ByLabelsKeeps(exp);
      ByLabelsKeeps(act);
      SameAlertsOf(ByLabels(exp), exp, ByLabels(act), act, interval);
    }
    if DistinctLabels(exp) && SameAlerts(exp, act, interval) {
      var pairs :| Pairing(pairs, exp, act, interval);
      DistinctKept(exp, Firsts(pairs));
      PairsAt(pairs);
      assert DistinctLabels(Seconds(pairs)) by {
        assert forall i :: 0 <= i < |pairs| ==> pairs[i] in pairs;
      }
      PairsSortAlike(pairs, interval);
      SortCanonical(Firsts(pairs), exp);
      SortCanonical(Seconds(pairs), act);
    }
  }

  lemma FitsInOrder(exp: seq<ApiAlert>, act: seq<ApiAlert>, interval: Duration)
    requires AllFit(exp, act, interval)
    ensures SameAlerts(exp, act, interval)
  {
    var pairs := seq(|exp|, i requires 0 <= i < |exp| => (exp[i], act[i]));
    PairsAt(pairs);
    assert Firsts(pairs) == exp && Seconds(pairs) == act;
    assert Pairing(pairs, exp, act, interval);
  }

  // ---- the comparison itself

  predicate SameState(e: ApiAlert, a: ApiAlert) {
    && e.labels == a.labels && e.annotations == a.annotations && e.state == a.state
    && e.value.Some? && a.value == e.value
  }

  predicate ActiveInRange(e: ApiAlert, a: ApiAlert, interval: Duration)
    requires e.activeAt.Some?
  {
    a.activeAt.Some? && e.activeAt.value <= a.activeAt.value <= e.activeAt.value + (interval + 2 * MAX_RTT)
  }

  /** The loop over labels, annotations, states and values. */
  method StatesEqual(exp: array<ApiAlert>, act: array<ApiAlert>) returns (equal: bool)
    requires exp.Length == act.Length
    ensures equal <==> forall i :: 0 <= i < exp.Length ==> SameState(exp[i], act[i])
  {
    var i := 0;
    while i < exp.Length
      invariant 0 <= i <= exp.Length
      invariant forall j :: 0 <= j < i ==> SameState(exp[j], act[j])
    {
      var e, a := exp[i], act[i];
      if e.value.None? || a.value.None? {
        return false;
      }
      var ok := e.labels == a.labels && e.annotations == a.annotations && e.state == a.state && e.value == a.value;
      if !ok {
        return false;
      }
      i := i + 1;
    }
    return true;
  }

  /** The loop over the ActiveAt times. */
  method ActivesInRange(exp: array<ApiAlert>, act: array<ApiAlert>, interval: Duration) returns (fit: bool)
    requires exp.Length == act.Length && forall i :: 0 <= i < exp.Length ==> exp[i].activeAt.Some?
    ensures fit <==> forall i :: 0 <= i < exp.Length ==> ActiveInRange(exp[i], act[i], interval)
  {
    var i := 0;
    while i < act.Length
      invariant 0 <= i <= act.Length
      invariant forall j :: 0 <= j < i ==> ActiveInRange(exp[j], act[j], interval)
    {
      if act[i].activeAt.None? {
        return false;
      }
      var t := act[i].activeAt.value;
      if t < exp[i].activeAt.value || exp[i].activeAt.value + (interval + 2 * MAX_RTT) < t {
        return false;
      }
      i := i + 1;
    }
    return true;
  }

  /** Both lists are sorted in place, then compared position by position. */
  method AreAlertsEqual(exp: array<ApiAlert>, act: array<ApiAlert>, interval: Duration) returns (equal: bool)
    requires exp != act && forall i :: 0 <= i < exp.Length ==> exp[i].activeAt.Some?
    modifies exp, act
    ensures multiset(exp[..]) == multiset(old(exp[..])) && multiset(act[..]) == multiset(old(act[..]))
    ensures equal ==> SameAlerts(old(exp[..]), old(act[..]), interval)
    ensures DistinctLabels(old(exp[..])) && SameAlerts(old(exp[..]), old(act[..]), interval) ==> equal
  {
    ghost var e0, a0 := exp[..], act[..];
    SortedFitExactly(e0, a0, interval);
    ByLabelsKeeps(e0);
    ByLabelsKeeps(a0);
    if exp.Length != act.Length {
      return false;
    }
    ActivesKept(e0);
    SortByLabels(exp);
    SortByLabels(act);
    assert forall i :: 0 <= i < exp.Length ==> exp[i] == ByLabels(e0)[i] && act[i] == ByLabels(a0)[i];
    equal := StatesEqual(exp, act);
    if equal {
      equal := ActivesInRange(exp, act, interval);
    }
    assert equal <==> AllFit(ByLabels(e0), ByLabels(a0), interval);
  }

  lemma ActivesKept(s: seq<ApiAlert>)
    requires forall i :: 0 <= i < |s| ==> s[i].activeAt.Some?
    ensures |ByLabels(s)| == |s| && forall i :: 0 <= i < |s| ==> ByLabels(s)[i].activeAt.Some?
  {
    ByLabelsKeeps(s);
    forall i | 0 <= i < |s| ensures ByLabels(s)[i].activeAt.Some? {
      assert ByLabels(s)[i] in multiset(ByLabels(s));
      assert ByLabels(s)[i] in s;
    }
  }

  /** One of the alternatives is what was listed. */
  ghost predicate Allowed(alternatives: seq<seq<ApiAlert>>, act: seq<ApiAlert>, interval: Duration) {
    exists k :: 0 <= k < |alternatives| && SameAlerts(alternatives[k], act, interval)
  }

  ghost predicate Accepts(alternative: seq<ApiAlert>, act: seq<ApiAlert>, interval: Duration) {
    DistinctLabels(alternative) && SameAlerts(alternative, act, interval)
  }

  /** One of the alternatives is what was listed, and has distinct label sets. */
  ghost predicate Accepted(alternatives: seq<seq<ApiAlert>>, act: seq<ApiAlert>, interval: Duration) {
    exists k :: 0 <= k < |alternatives| && Accepts(alternatives[k], act, interval)
  }

  /** The order of either list is irrelevant. */
  lemma SameAlertsOf(exp: seq<ApiAlert>, exp': seq<ApiAlert>, act: seq<ApiAlert>, act': seq<ApiAlert>,
                     interval: Duration)
    requires multiset(exp) == multiset(exp') && multiset(act) == multiset(act')
    ensures SameAlerts(exp, act, interval) <==> SameAlerts(exp', act', interval)
  {
    if pairs :| Pairing(pairs, exp, act, interval) {
      assert Pairing(pairs, exp', act', interval);
    }
    if pairs :| Pairing(pairs, exp', act', interval) {
      assert Pairing(pairs, exp, act, interval);
    }
  }

  ghost predicate AllActive(s: seq<ApiAlert>) {
    forall i :: 0 <= i < |s| ==> s[i].activeAt.Some?
  }

  lemma AllActiveKept(a: seq<ApiAlert>, b: seq<ApiAlert>)
    requires multiset(a) == multiset(b) && AllActive(a)
    ensures AllActive(b)
  {
    forall i | 0 <= i < |b| ensures b[i].activeAt.Some? {
      assert b[i] in multiset(a);
    }
  }

  function ContentsOf(lists: seq<array<ApiAlert>>): (contents: seq<seq<ApiAlert>>)
    reads lists
    ensures |contents| == |lists| && forall k :: 0 <= k < |lists| ==> contents[k] == lists[k][..]
  {
    if lists == [] then [] else ContentsOf(lists[..|lists| - 1]) + [lists[|lists| - 1][..]]
  }

  /** What an earlier attempt does to a list: it may be in another order. */
  ghost predicate Reordered(exps: seq<array<ApiAlert>>, was: seq<seq<ApiAlert>>)
    reads exps
  {
    |exps| == |was| && forall k :: 0 <= k < |exps| ==> multiset(exps[k][..]) == multiset(was[k])
  }

  /** What one attempt says, when earlier ones may have changed the order of the lists. */
  lemma Attempted(was: seq<ApiAlert>, exp: seq<ApiAlert>, a0: seq<ApiAlert>, act: seq<ApiAlert>, interval: Duration,
                  equal: bool)
    requires multiset(exp) == multiset(was) && multiset(act) == multiset(a0)
    requires equal ==> SameAlerts(exp, act, interval)
    requires DistinctLabels(exp) && SameAlerts(exp, act, interval) ==> equal
    ensures if equal then SameAlerts(was, a0, interval) else !Accepts(was, a0, interval)
  {
    SameAlertsOf(was, exp, a0, act, interval);
    if DistinctLabels(was) {
      DistinctKept(was, exp);
    }
  }

  /** Succeeds when one of the alternatives fits, although every attempt sorts the listed alerts again. */
  method CheckExpectedAlerts(exps: seq<array<ApiAlert>>, act: array<ApiAlert>, interval: Duration) returns (ok: bool)
    requires forall k :: 0 <= k < |exps| ==> exps[k] != act && AllActive(exps[k][..])
    modifies exps, act
    ensures ok ==> Allowed(old(ContentsOf(exps)), old(act[..]), interval)
    ensures Accepted(old(ContentsOf(exps)), old(act[..]), interval) ==> ok
  {
    ghost var was := ContentsOf(exps);
    ghost var a0 := act[..];
    var n := 0;
    while n < |exps|
      invariant 0 <= n <= |exps|
      invariant Reordered(exps, was) && multiset(act[..]) == multiset(a0)
      invariant forall k :: 0 <= k < n ==> !Accepts(was[k], a0, interval)
    {
      ghost var e1, a1 := exps[n][..], act[..];
      AllActiveKept(was[n], e1);
      var equal := AreAlertsEqual(exps[n], act, interval);
      Attempted(was[n], e1, a0, a1, interval, equal);
      if equal {
        return true;
      }
      n := n + 1;
    }
    return false;
  }

  /** A test case's check of the listed alerts. */
  method CheckAlerts(expAlerts: seq<seq<ApiAlert>>, alerts: array<ApiAlert>, interval: Duration) returns (ok: bool)
    requires forall k :: 0 <= k < |expAlerts| ==> AllActive(expAlerts[k])
    modifies alerts
    ensures ok ==> Allowed(expAlerts, old(alerts[..]), interval)
    ensures Accepted(expAlerts, old(alerts[..]), interval) ==> ok
  {
    var exps := NewLists(expAlerts);
    ok := CheckExpectedAlerts(exps, alerts, interval);
  }

  method NewLists(contents: seq<seq<ApiAlert>>) returns (lists: seq<array<ApiAlert>>)
    ensures ContentsOf(lists) == contents
    ensures forall k :: 0 <= k < |lists| ==> fresh(lists[k])
  {
    lists := [];
    while |lists| < |contents|
      invariant |lists| <= |contents|
      invariant forall k :: 0 <= k < |lists| ==> fresh(lists[k]) && lists[k][..] == contents[k]
      decreases |contents| - |lists|
    {
      var list := contents[|lists|];
      var a := new ApiAlert[|list|](i requires 0 <= i < |list| => list[i]);
      assert a[..] == list;
      lists := lists + [a];
    }
  }
}
