/** The symbol table of Remote-Write 2.0 requests, and the checks of the sender tests
    (remotewrite/sender/helpers_test.go) that read label references against it. */
module SymbolTable {
  import opened LabelOrder

  type LabelMap = map<string, string>

  /** The table must start with the empty string, and hold no other symbol twice. */
  ghost predicate ValidSymbols(symbols: seq<string>) {
    && symbols != [] && symbols[0] == ""
    && forall i, j :: 0 <= i < j < |symbols| && symbols[i] != "" ==> symbols[i] != symbols[j]
  }

  /** Key and value references in pairs, all of them into the table. */
  predicate ValidRefs(refs: seq<nat>, size: nat) {
    |refs| % 2 == 0 && forall i :: 0 <= i < |refs| ==> refs[i] < size
  }

  /** The labels that the first `n` pairs stand for; a pair with a dangling reference is skipped. */
  function LabelsTo(refs: seq<nat>, symbols: seq<string>, n: nat): LabelMap
    requires 2 * n <= |refs|
  {
    if n == 0 then map[] else
    var before := LabelsTo(refs, symbols, n - 1);
    var k, v := refs[2 * n - 2], refs[2 * n - 1];
    if k < |symbols| && v < |symbols| then before[symbols[k] := symbols[v]] else before
  }

  function LabelsOf(refs: seq<nat>, symbols: seq<string>): LabelMap {
    LabelsTo(refs, symbols, |refs| / 2)
  }

  /** The `p`-th pair is in range, and is about the label `k`. */
  predicate About(refs: seq<nat>, symbols: seq<string>, p: nat, k: string) {
    2 * p + 1 < |refs| && refs[2 * p] < |symbols| && refs[2 * p + 1] < |symbols| && symbols[refs[2 * p]] == k
  }

  /** Of the first `n` pairs the `p`-th is the last about `k`, and has the value `v`. */
  ghost predicate LastPair(refs: seq<nat>, symbols: seq<string>, n: nat, p: nat, k: string, v: string) {
    && p < n && About(refs, symbols, p, k) && symbols[refs[2 * p + 1]] == v
    && forall q: nat :: p < q < n ==> !About(refs, symbols, q, k)
  }

  /** The first `n` pairs say that the label `k` is `v`. */
  ghost predicate Spell(refs: seq<nat>, symbols: seq<string>, n: nat, k: string, v: string) {
    exists p: nat :: LastPair(refs, symbols, n, p, k, v)
  }

  lemma SpellNext(refs: seq<nat>, symbols: seq<string>, n: nat, k: string, v: string)
    requires 0 < n && !About(refs, symbols, n - 1, k)
    ensures Spell(refs, symbols, n, k, v) <==> Spell(refs, symbols, n - 1, k, v)
  {
    var m := n - 1;
    if p: nat :| LastPair(refs, symbols, m, p, k, v) {
      assert LastPair(refs, symbols, n, p, k, v);
    }
    if p: nat :| LastPair(refs, symbols, n, p, k, v) {
      assert LastPair(refs, symbols, m, p, k, v);
    }
  }

  lemma SpellLast(refs: seq<nat>, symbols: seq<string>, n: nat, k: string, v: string)
    requires 0 < n && About(refs, symbols, n - 1, k)
    ensures Spell(refs, symbols, n, k, v) <==> v == symbols[refs[2 * n - 1]]
  {
    assert LastPair(refs, symbols, n, n - 1, k, symbols[refs[2 * n - 1]]);
  }

  lemma {:induction false} LabelsToExactly(refs: seq<nat>, symbols: seq<string>, n: nat, k: string, v: string)
    requires 2 * n <= |refs|
    ensures Spell(refs, symbols, n, k, v) <==> k in LabelsTo(refs, symbols, n) && LabelsTo(refs, symbols, n)[k] == v
  {
    if n == 0 {
    } else {
      LabelsToExactly(refs, symbols, n - 1, k, v);
      var i, j := refs[2 * n - 2], refs[2 * n - 1];
      if i < |symbols| && j < |symbols| && symbols[i] == k {
        SpellLast(refs, symbols, n, k, v);
      } else {
        SpellNext(refs, symbols, n, k, v);
      }
    }
  }

  /** For the labels of a series, and in the same way for those of an exemplar. */
  method ExtractLabels(refs: seq<nat>, symbols: seq<string>) returns (labels: LabelMap)
    ensures labels == LabelsOf(refs, symbols)
    ensures forall k, v :: Spell(refs, symbols, |refs| / 2, k, v) <==> k in labels && labels[k] == v
  {
    forall k, v
      ensures Spell(refs, symbols, |refs| / 2, k, v)
        <==> k in LabelsOf(refs, symbols) && LabelsOf(refs, symbols)[k] == v
    {
      LabelsToExactly(refs, symbols, |refs| / 2, k, v);
    }
    labels := map[];
    var i := 0;
    while i < |refs|
      invariant i % 2 == 0 && i <= |refs| + 1
      invariant labels == LabelsTo(refs, symbols, if i <= |refs| then i / 2 else |refs| / 2)
    {
      if i + 1 >= |refs| {
        break;
      }
      var keyRef, valueRef := refs[i], refs[i + 1];
      i := i + 2;
      if keyRef >= |symbols| || valueRef >= |symbols| {
        continue;
      }
      labels := labels[symbols[keyRef] := symbols[valueRef]];
    }
  }

  method ValidateSymbolTable(symbols: seq<string>) returns (valid: bool)
    ensures valid <==> ValidSymbols(symbols)
    ensures valid <==>
      (|symbols| > 0 && |symbols[0]| == 0
       && forall i, j :: 0 <= i < j < |symbols| && symbols[i] == symbols[j] ==> |symbols[i]| == 0)
  {
    if |symbols| == 0 || symbols[0] != "" {
      return false;
    }
    var seen: set<string> := {};
    var i := 0;
    while i < |symbols|
      invariant 0 <= i <= |symbols|
      invariant seen == set k | 0 <= k < i :: symbols[k]
      invariant ValidSymbols(symbols[..i]) || i == 0
    {
      if symbols[i] in seen && symbols[i] != "" {
        return false;
      }
      assert forall k :: 0 <= k < i ==> symbols[k] in seen;
      seen := seen + {symbols[i]};
      i := i + 1;
    }
    assert symbols[..i] == symbols;
    return true;
  }

  method ValidateLabelRefs(refs: seq<nat>, symbols: seq<string>) returns (valid: bool)
    ensures valid <==> ValidRefs(refs, |symbols|)
  {
    if |refs| % 2 != 0 {
      return false;
    }
    var i := 0;
    while i < |refs|
      invariant 0 <= i <= |refs|
      invariant forall j :: 0 <= j < i ==> refs[j] < |symbols|
    {
      if refs[i] >= |symbols| {
        return false;
      }
      i := i + 1;
    }
    return true;
  }

  // ---- sortedness

  function SymbolAt(symbols: seq<string>, ref: nat): string {
    if ref < |symbols| then symbols[ref] else ""
  }

  /** The key of the n-th pair. */
  function KeyAt(refs: seq<nat>, symbols: seq<string>, n: nat): string
    requires 2 * n + 1 < |refs| && refs[2 * n] < |symbols|
  {
    symbols[refs[2 * n]]
  }

  /** Each key is in range and above the previous one, which an empty key says nothing about. */
  predicate Ascending(refs: seq<nat>, symbols: seq<string>, n: nat) {
    && (forall k :: 0 <= k < n && 2 * k + 1 < |refs| ==> refs[2 * k] < |symbols|)
    && (forall k :: 0 < k < n && 2 * k + 1 < |refs| && KeyAt(refs, symbols, k - 1) != "" ==>
          Less(KeyAt(refs, symbols, k - 1), KeyAt(refs, symbols, k)))
  }

  /** The key of the k-th pair is in range, and comes after the one before it, character by character,
      unless that is empty. */
  ghost predicate Rises(refs: seq<nat>, symbols: seq<string>, k: nat)
    requires 2 * k < |refs|
  {
    && refs[2 * k] < |symbols|
    && (k > 0 ==>
          var prevKey, key := SymbolAt(symbols, refs[2 * (k - 1)]), SymbolAt(symbols, refs[2 * k]);
          prevKey == "" || Earlier(prevKey, key))
  }

  lemma RisesExactly(refs: seq<nat>, symbols: seq<string>, k: nat)
    requires 0 < k && 2 * k + 1 < |refs| && refs[2 * (k - 1)] < |symbols| && refs[2 * k] < |symbols|
    ensures Rises(refs, symbols, k)
      <==> (KeyAt(refs, symbols, k - 1) == "" || Less(KeyAt(refs, symbols, k - 1), KeyAt(refs, symbols, k)))
  {
    LessExactly(KeyAt(refs, symbols, k - 1), KeyAt(refs, symbols, k));
  }

  lemma AscendingExactly(refs: seq<nat>, symbols: seq<string>)
    ensures Ascending(refs, symbols, |refs| / 2) <==> forall k: nat :: k < |refs| / 2 ==> Rises(refs, symbols, k)
  {
    var n := |refs| / 2;
    if Ascending(refs, symbols, n) {
      forall k: nat | k < n ensures Rises(refs, symbols, k) {
        if k > 0 {
          assert refs[2 * (k - 1)] < |symbols| && refs[2 * k] < |symbols|;
          RisesExactly(refs, symbols, k);
        }
      }
    }
    if forall k: nat :: k < n ==> Rises(refs, symbols, k) {
      forall k | 0 <= k < n ensures refs[2 * k] < |symbols| {
        assert Rises(refs, symbols, k);
      }
      forall k | 0 < k < n
        ensures KeyAt(refs, symbols, k - 1) == "" || Less(KeyAt(refs, symbols, k - 1), KeyAt(refs, symbols, k))
      {
        assert Rises(refs, symbols, k);
        RisesExactly(refs, symbols, k);
      }
    }
  }

  method IsSorted(symbols: seq<string>, refs: seq<nat>) returns (sorted: bool)
    ensures sorted <==> Ascending(refs, symbols, |refs| / 2)
    ensures sorted <==> forall k: nat :: k < |refs| / 2 ==> Rises(refs, symbols, k)
  {
    AscendingExactly(refs, symbols);
    var prevKey := "";
    var i, n := 0, 0;
    while i < |refs|
      invariant i == 2 * n <= |refs| + 1
      invariant Ascending(refs, symbols, n)
      invariant n == 0 ==> prevKey == ""
      invariant 0 < n <= |refs| / 2 ==> prevKey == KeyAt(refs, symbols, n - 1)
    {
      if i + 1 >= |refs| {
        break;
      }
      var keyRef := refs[i];
      if keyRef >= |symbols| {
        return false;
      }
      var key := symbols[keyRef];
      LessTotal(key, prevKey);
      if prevKey != "" && (Less(key, prevKey) || key == prevKey) {
        return false;
      }
      prevKey := key;
      i, n := i + 2, n + 1;
    }
    return true;
  }

  ghost predicate StrictlyIncreasing(refs: seq<nat>, symbols: seq<string>, n: nat)
    requires 2 * n <= |refs| && ValidRefs(refs, |symbols|)
  {
    forall i, j :: 0 <= i < j < n ==> Less(KeyAt(refs, symbols, i), KeyAt(refs, symbols, j))
  }

  lemma {:induction false} AscendingIncreases(refs: seq<nat>, symbols: seq<string>, n: nat)
    requires 2 * n <= |refs| && ValidRefs(refs, |symbols|)
    requires forall k :: 0 <= k < n ==> KeyAt(refs, symbols, k) != ""
    ensures Ascending(refs, symbols, n) <==> StrictlyIncreasing(refs, symbols, n)
  {
    if n == 0 {
    } else {
      AscendingIncreases(refs, symbols, n - 1);
      if Ascending(refs, symbols, n) {
        forall i | 0 <= i < n - 1 ensures Less(KeyAt(refs, symbols, i), KeyAt(refs, symbols, n - 1)) {
          if i < n - 2 {
            LessTransitive(KeyAt(refs, symbols, i), KeyAt(refs, symbols, n - 2), KeyAt(refs, symbols, n - 1));
          }
        }
      }
    }
  }

  /** No key is above the last one. */
  lemma {:induction false} KeysBelow(refs: seq<nat>, symbols: seq<string>, n: nat, key: string)
    requires 0 < n && 2 * n <= |refs| && ValidRefs(refs, |symbols|) && StrictlyIncreasing(refs, symbols, n)
    requires key in LabelsTo(refs, symbols, n)
    ensures key == KeyAt(refs, symbols, n - 1) || Less(key, KeyAt(refs, symbols, n - 1))
  {
    if n == 1 || key == KeyAt(refs, symbols, n - 1) {
    } else {
      KeysBelow(refs, symbols, n - 1, key);
      if key != KeyAt(refs, symbols, n - 2) {
        LessTransitive(key, KeyAt(refs, symbols, n - 2), KeyAt(refs, symbols, n - 1));
      }
    }
  }

  lemma FreshKey(refs: seq<nat>, symbols: seq<string>, n: nat)
    requires 0 < n && 2 * n <= |refs| && ValidRefs(refs, |symbols|) && StrictlyIncreasing(refs, symbols, n)
    ensures KeyAt(refs, symbols, n - 1) !in LabelsTo(refs, symbols, n - 1)
  {
    var key := KeyAt(refs, symbols, n - 1);
    if key in LabelsTo(refs, symbols, n - 1) {
      KeysBelow(refs, symbols, n - 1, key);
      LessTotal(KeyAt(refs, symbols, n - 2), key);
    }
  }

  /** Every pair adds an entry. */
  lemma {:induction false} IncreasingKeepsAll(refs: seq<nat>, symbols: seq<string>, n: nat)
    requires 2 * n <= |refs| && ValidRefs(refs, |symbols|) && StrictlyIncreasing(refs, symbols, n)
    ensures |LabelsTo(refs, symbols, n)| == n
    ensures forall k :: 0 <= k < n ==>
      && KeyAt(refs, symbols, k) in LabelsTo(refs, symbols, n)
      && LabelsTo(refs, symbols, n)[KeyAt(refs, symbols, k)] == symbols[refs[2 * k + 1]]
  {
    if n == 0 {
    } else {
      IncreasingKeepsAll(refs, symbols, n - 1);
      FreshKey(refs, symbols, n);
      OneMoreEntry(LabelsTo(refs, symbols, n - 1), KeyAt(refs, symbols, n - 1), symbols[refs[2 * n - 1]]);
    }
  }

  lemma OneMoreEntry(before: LabelMap, key: string, value: string)
    requires key !in before
    ensures |before[key := value]| == |before| + 1
  {
    var after := before[key := value];
    assert after.Keys == before.Keys + {key};
    assert |after| == |after.Keys| && |before| == |before.Keys|;
  }

  /** Sorted means unique: with references in range and non-empty keys, the check accepts exactly
      strictly increasing keys, and then the labels have one entry for every pair. */
  lemma SortedMeansUnique(refs: seq<nat>, symbols: seq<string>)
    requires ValidRefs(refs, |symbols|)
    requires forall k :: 0 <= k < |refs| / 2 ==> KeyAt(refs, symbols, k) != ""
    ensures var n := |refs| / 2;
      && (Ascending(refs, symbols, n) <==> StrictlyIncreasing(refs, symbols, n))
      && (Ascending(refs, symbols, n) ==>
            && |LabelsOf(refs, symbols)| == n
            && forall k :: 0 <= k < n ==>
                 && KeyAt(refs, symbols, k) in LabelsOf(refs, symbols)
                 && LabelsOf(refs, symbols)[KeyAt(refs, symbols, k)] == symbols[refs[2 * k + 1]])
  {
    AscendingIncreases(refs, symbols, |refs| / 2);
    if StrictlyIncreasing(refs, symbols, |refs| / 2) {
      IncreasingKeepsAll(refs, symbols, |refs| / 2);
    }
  }

  // ---- the growing table

  /** References emitted earlier still stand for the same labels when the table has grown. */
  lemma {:induction false} LabelsKept(refs: seq<nat>, symbols: seq<string>, more: seq<string>, n: nat)
    requires 2 * n <= |refs| && ValidRefs(refs, |symbols|) && symbols <= more
    ensures LabelsTo(refs, more, n) == LabelsTo(refs, symbols, n)
  {
    if n == 0 {
    } else {
      LabelsKept(refs, symbols, more, n - 1);
    }
  }

  lemma {:induction false} LabelsPrefix(refs: seq<nat>, k: nat, v: nat, symbols: seq<string>, n: nat)
    requires 2 * n <= |refs|
    ensures LabelsTo(refs + [k, v], symbols, n) == LabelsTo(refs, symbols, n)
  {
    if n == 0 {
    } else {
      LabelsPrefix(refs, k, v, symbols, n - 1);
    }
  }

  /** One more pair. */
  lemma LabelsNext(refs: seq<nat>, k: nat, v: nat, symbols: seq<string>, more: seq<string>)
    requires ValidRefs(refs, |symbols|) && symbols <= more && k < |more| && v < |more|
    ensures ValidRefs(refs + [k, v], |more|)
    ensures LabelsOf(refs + [k, v], more) == LabelsOf(refs, symbols)[more[k] := more[v]]
  {
    LabelsPrefix(refs, k, v, more, |refs| / 2);
    LabelsKept(refs, symbols, more, |refs| / 2);
    assert |refs + [k, v]| / 2 == |refs| / 2 + 1;
  }

  /** The library's writer of symbol tables. */
  class Table {
    var strings: seq<string>
    var symbolsMap: map<string, nat>

    ghost predicate Valid()
      reads this
    {
      && strings != [] && strings[0] == ""
      && (forall i :: 0 <= i < |strings| ==> strings[i] in symbolsMap && symbolsMap[strings[i]] == i)
      && (forall s :: s in symbolsMap ==> symbolsMap[s] < |strings| && strings[symbolsMap[s]] == s)
    }

    constructor ()
      ensures Valid() && strings == [""]
    {
      strings, symbolsMap := [""], map["" := 0];
    }

    method Symbolize(s: string) returns (ref: nat)
      requires Valid()
      modifies this
      ensures Valid() && old(strings) <= strings
      ensures ref < |strings| && strings[ref] == s
    {
      if s in symbolsMap {
        ref := symbolsMap[s];
        return;
      }
      ref := |strings|;
      strings := strings + [s];
      symbolsMap := symbolsMap[s := ref];
    }

    /** Interns labels in whatever order the map is iterated; the references decode to them. */
    method SymbolizeLabels(labels: LabelMap) returns (refs: seq<nat>)
      requires Valid()
      modifies this
      ensures Valid() && old(strings) <= strings
      ensures ValidRefs(refs, |strings|) && LabelsOf(refs, strings) == labels
    {
      refs := [];
      var todo := labels.Keys;
      ghost var done: LabelMap := map[];
      while todo != {}
        invariant Valid() && old(strings) <= strings
        invariant todo <= labels.Keys && done == map k | k in labels && k !in todo :: labels[k]
        invariant ValidRefs(refs, |strings|) && LabelsOf(refs, strings) == done
        decreases todo
      {
        var k :| k in todo;
        ghost var symbols := strings;
        var key := Symbolize(k);
        var value := Symbolize(labels[k]);
        LabelsNext(refs, key, value, symbols, strings);
        refs := refs + [key, value];
        done := done[k := labels[k]];
        todo := todo - {k};
      }
      assert done == labels;
    }
  }

  lemma TableIsValid(t: Table)
    requires t.Valid()
    ensures ValidSymbols(t.strings)
  {
    forall i, j | 0 <= i < j < |t.strings| ensures t.strings[i] != t.strings[j] {
      assert t.symbolsMap[t.strings[i]] == i && t.symbolsMap[t.strings[j]] == j;
    }
  }
}
