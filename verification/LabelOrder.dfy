/** The order of strings and of label sets, as Go's `<` and the labels library define it. */
module LabelOrder {
  import opened Labels

  predicate Less(a: string, b: string) {
    b != [] && (a == [] || a[0] < b[0] || (a[0] == b[0] && Less(a[1..], b[1..])))
  }

  lemma {:induction false} LessTotal(a: string, b: string)
    ensures Less(a, b) || a == b || Less(b, a)
    ensures !(Less(a, b) && Less(b, a)) && !Less(a, a)
  {
    if a == [] {
    } else {
      LessTotal(a[1..], if b == [] then [] else b[1..]);
      if b != [] && a[0] == b[0] && a[1..] == b[1..] {
        assert a == [a[0]] + a[1..] == b;
      }
    }
  }

  lemma {:induction false} LessTransitive(a: string, b: string, c: string)
    requires Less(a, b) && Less(b, c)
    ensures Less(a, c)
  {
    if a == [] || a[0] != b[0] || b[0] != c[0] {
    } else {
      LessTransitive(a[1..], b[1..], c[1..]);
    }
  }

  /** The strings agree up to position `k`, where the first ends or has the lower character. */
  predicate Diverges(a: string, b: string, k: nat) {
    k <= |a| && k < |b| && a[..k] == b[..k] && (|a| == k || a[k] < b[k])
  }

  /** The order of strings, character by character. */
  ghost predicate Earlier(a: string, b: string) {
    exists k :: Diverges(a, b, k)
  }

  lemma DivergesLater(a: string, b: string, k: nat)
    requires a != [] && b != [] && a[0] == b[0] && Diverges(a[1..], b[1..], k)
    ensures Diverges(a, b, k + 1)
  {
    assert a[..k + 1] == [a[0]] + a[1..][..k];
    assert b[..k + 1] == [b[0]] + b[1..][..k];
  }

  lemma DivergesSooner(a: string, b: string, k: nat)
    requires 0 < k && Diverges(a, b, k)
    ensures a != [] && b != [] && a[0] == b[0] && Diverges(a[1..], b[1..], k - 1)
  {
    assert a[..k][0] == b[..k][0];
    assert a[1..][..k - 1] == a[..k][1..] && b[1..][..k - 1] == b[..k][1..];
  }

  lemma {:induction false} LessExactly(a: string, b: string)
    ensures Less(a, b) <==> Earlier(a, b)
  {
    if a == [] || b == [] || a[0] != b[0] {
      if Less(a, b) {
        assert Diverges(a, b, 0);
      }
      if k :| Diverges(a, b, k) && k > 0 {
        DivergesSooner(a, b, k);
      }
    } else {
      LessExactly(a[1..], b[1..]);
      if Less(a, b) {
        var k :| Diverges(a[1..], b[1..], k);
        DivergesLater(a, b, k);
      }
      if k :| Diverges(a, b, k) {
        DivergesSooner(a, b, k);
      }
    }
  }

  predicate LabelLess(x: Label, y: Label) {
    Less(x.name, y.name) || (x.name == y.name && Less(x.value, y.value))
  }

  /** `labels.Compare(a, b) < 0`. */
  predicate Before(a: LabelSet, b: LabelSet) {
    b != [] && (a == [] || LabelLess(a[0], b[0]) || (a[0] == b[0] && Before(a[1..], b[1..])))
  }

  lemma LabelLessTotal(x: Label, y: Label)
    ensures LabelLess(x, y) || x == y || LabelLess(y, x)
    ensures !(LabelLess(x, y) && LabelLess(y, x)) && !LabelLess(x, x)
  {
    LessTotal(x.name, y.name);
    LessTotal(x.value, y.value);
  }

  lemma LabelLessTransitive(x: Label, y: Label, z: Label)
    requires LabelLess(x, y) && LabelLess(y, z)
    ensures LabelLess(x, z)
  {
    if Less(x.name, y.name) && Less(y.name, z.name) {
      LessTransitive(x.name, y.name, z.name);
    } else if x.name == y.name == z.name {
      LessTransitive(x.value, y.value, z.value);
    }
  }

  lemma {:induction false} BeforeTotal(a: LabelSet, b: LabelSet)
    ensures Before(a, b) || a == b || Before(b, a)
    ensures !(Before(a, b) && Before(b, a)) && !Before(a, a)
  {
    if a == [] {
    } else {
      BeforeTotal(a[1..], if b == [] then [] else b[1..]);
      LabelLessTotal(a[0], a[0]);
      if b != [] {
        LabelLessTotal(a[0], b[0]);
        if a[0] == b[0] && a[1..] == b[1..] {
          assert a == [a[0]] + a[1..] == b;
        }
      }
    }
  }

  lemma {:induction false} BeforeTransitive(a: LabelSet, b: LabelSet, c: LabelSet)
    requires Before(a, b) && Before(b, c)
    ensures Before(a, c)
  {
    if a == [] {
    } else {
      if LabelLess(a[0], b[0]) && LabelLess(b[0], c[0]) {
        LabelLessTransitive(a[0], b[0], c[0]);
      } else if a[0] == b[0] == c[0] {
        BeforeTransitive(a[1..], b[1..], c[1..]);
      }
    }
  }

  /** The label sets agree up to position `k`, where the first ends or has the label with the earlier name,
      or the same name and the earlier value. */
  ghost predicate SetDiverges(a: LabelSet, b: LabelSet, k: nat) {
    && k <= |a| && k < |b| && a[..k] == b[..k]
    && (|a| == k || Earlier(a[k].name, b[k].name) || (a[k].name == b[k].name && Earlier(a[k].value, b[k].value)))
  }

  lemma LabelLessExactly(x: Label, y: Label)
    ensures LabelLess(x, y) <==> Earlier(x.name, y.name) || (x.name == y.name && Earlier(x.value, y.value))
  {
    LessExactly(x.name, y.name);
    LessExactly(x.value, y.value);
  }

  lemma SetDivergesLater(a: LabelSet, b: LabelSet, k: nat)
    requires a != [] && b != [] && a[0] == b[0] && SetDiverges(a[1..], b[1..], k)
    ensures SetDiverges(a, b, k + 1)
  {
    assert a[..k + 1] == [a[0]] + a[1..][..k];
    assert b[..k + 1] == [b[0]] + b[1..][..k];
  }

  lemma SetDivergesSooner(a: LabelSet, b: LabelSet, k: nat)
    requires 0 < k && SetDiverges(a, b, k)
    ensures a != [] && b != [] && a[0] == b[0] && SetDiverges(a[1..], b[1..], k - 1)
  {
    assert a[..k][0] == b[..k][0];
    assert a[1..][..k - 1] == a[..k][1..] && b[1..][..k - 1] == b[..k][1..];
  }

  lemma {:induction false} BeforeExactly(a: LabelSet, b: LabelSet)
    ensures Before(a, b) <==> exists k :: SetDiverges(a, b, k)
  {
    if a != [] && b != [] {
      LabelLessExactly(a[0], b[0]);
      LabelLessTotal(a[0], b[0]);
    }
    if a == [] || b == [] || a[0] != b[0] {
      if Before(a, b) {
        assert SetDiverges(a, b, 0);
      }
      if k :| SetDiverges(a, b, k) && k > 0 {
        SetDivergesSooner(a, b, k);
      }
    } else {
      BeforeExactly(a[1..], b[1..]);
      if Before(a, b) {
        var k :| SetDiverges(a[1..], b[1..], k);
        SetDivergesLater(a, b, k);
      }
      if k :| SetDiverges(a, b, k) {
        if k > 0 {
          SetDivergesSooner(a, b, k);
        }
      }
    }
  }
}
