/** Expanding the query templates of the PromQL suite (promql/testcases/expand.go). */
module Variants {
  import opened Options

  /** Each variant argument with its values. */
  type Values = map<string, seq<string>>

  function Vals(values: Values, arg: string): seq<string> {
    if arg in values then values[arg] else []
  }

  /** An argument without values makes the original panic. */
  predicate Known(values: Values, args: seq<string>) {
    forall a :: a in args ==> Vals(values, a) != []
  }

  function Without(args: seq<string>, arg: string): (r: seq<string>)
    ensures |r| <= |args| && arg !in r && (arg in args ==> |r| < |args|)
    ensures forall a :: a in r <==> a in args && a != arg
    ensures arg !in args ==> r == args
  {
    if args == [] then [] else
    var init, last := args[..|args| - 1], args[|args| - 1];
    Without(init, arg) + if last != arg then [last] else []
  }

  /** The arguments but the first, and repetitions of it. */
  function Rest(args: seq<string>): (r: seq<string>)
    requires args != []
    ensures |r| < |args|
  {
    assert args[0] in args;
    Without(args, args[0])
  }

  /** The first `n` lists, one after the other. */
  function Concat(lists: seq<seq<string>>, n: nat): seq<string>
    requires n <= |lists|
  {
    if n == 0 then [] else Concat(lists, n - 1) + lists[n - 1]
  }

  /** The reference: for each value of the first argument in turn, all variants of the others. */
  function Product(values: Values, render: map<string, string> -> string, args: seq<string>, bound: map<string,
                   string>): seq<string>
    decreases |args|, 1
  {
    if args == [] then [render(bound)]
    else Concat(Branches(values, render, args, bound), |Vals(values, args[0])|)
  }

  /** The variants for each value of the first argument. */
  function Branches(values: Values, render: map<string, string> -> string, args: seq<string>,
                    bound: map<string, string>): (branches: seq<seq<string>>)
    requires args != []
    ensures |branches| == |Vals(values, args[0])|
    decreases |args|, 0
  {
    seq(|Vals(values, args[0])|, i requires 0 <= i < |Vals(values, args[0])| =>
      Product(values, render, Rest(args), bound[args[0] := Vals(values, args[0])[i]]))
  }

  /** Two bindings agree on everything but the arguments still to be bound. */
  ghost predicate AgreeBut(a: map<string, string>, b: map<string, string>, args: seq<string>) {
    && (forall k :: k !in args ==> (k in a <==> k in b))
    && (forall k :: k !in args && k in a && k in b ==> a[k] == b[k])
  }

  /** Leftovers from other combinations in the shared map are always overwritten before rendering. */
  lemma {:induction false} LeftoversIrrelevant(values: Values, render: map<string, string> -> string, args: seq<string>,
                                               a: map<string, string>, b: map<string, string>)
    requires AgreeBut(a, b, args)
    ensures Product(values, render, args, a) == Product(values, render, args, b)
    decreases |args|
  {
    if args == [] {
      assert a == b;
    } else {
      forall i | 0 <= i < |Vals(values, args[0])|
        ensures Branches(values, render, args, a)[i] == Branches(values, render, args, b)[i]
      {
        var v := Vals(values, args[0])[i];
        AgreeOnRest(args, a, b, v);
        LeftoversIrrelevant(values, render, Rest(args), a[args[0] := v], b[args[0] := v]);
      }
      assert Branches(values, render, args, a) == Branches(values, render, args, b);
    }
  }

  lemma AgreeOnRest(args: seq<string>, a: map<string, string>, b: map<string, string>, v: string)
    requires args != [] && AgreeBut(a, b, args)
    ensures AgreeBut(a[args[0] := v], b[args[0] := v], Rest(args))
  {
  }

  /** The map that all levels of the recursion share. */
  class Args {
    var m: map<string, string>

    constructor ()
      ensures m == map[]
    {
      m := map[];
    }
  }

  /** The recursion over the arguments, overwriting the shared map. It fails, where the original
      panics, when some argument has no values; otherwise the map ends up with the arguments
      overwritten and nothing else changed. */
  method GetVariants(values: Values, render: map<string, string> -> string, remainingVariantArgs: seq<string>,
                     args: Args)
    returns (ok: bool, queries: seq<string>)
    modifies args
    ensures ok <==> forall a :: a in remainingVariantArgs ==> a in values && values[a] != []
    ensures ok ==> queries == Product(values, render, remainingVariantArgs, old(args.m))
    ensures AgreeBut(args.m, old(args.m), remainingVariantArgs)
    decreases |remainingVariantArgs|, 1
  {
    if |remainingVariantArgs| == 0 {
      return true, [render(args.m)];
    }
    var vArg := remainingVariantArgs[0];
    var filteredVArgs := FilterArgs(remainingVariantArgs, vArg);
    var vals := Vals(values, vArg);
    FirstAndRest(values, remainingVariantArgs);
    if |vals| == 0 {
      return false, [];
    }
    queries := [];
    ghost var branches := Branches(values, render, remainingVariantArgs, args.m);
    var i := 0;
    while i < |vals|
      invariant 0 <= i <= |vals|
      invariant AgreeBut(args.m, old(args.m), remainingVariantArgs)
      invariant i > 0 ==> Known(values, filteredVArgs)
      invariant queries == Concat(branches, i)
    {
      var qs;
      ok, qs := VariantsFor(values, render, remainingVariantArgs, filteredVArgs, vals[i], args, old(args.m));
      if !ok {
        return;
      }
      queries := queries + qs;
      i := i + 1;
    }
    ok := true;
  }

  method FilterArgs(remaining: seq<string>, vArg: string) returns (filtered: seq<string>)
    requires remaining != [] && vArg == remaining[0]
    ensures filtered == Rest(remaining)
  {
    filtered := [];
    var i := 0;
    while i < |remaining|
      invariant 0 <= i <= |remaining|
      invariant filtered == Without(remaining[..i], vArg)
    {
      assert remaining[..i + 1][..i] == remaining[..i];
      if remaining[i] != vArg {
        filtered := filtered + [remaining[i]];
      }
      i := i + 1;
    }
    assert remaining[..i] == remaining;
  }

  lemma FirstAndRest(values: Values, args: seq<string>)
    requires args != []
    ensures Known(values, args) <==> Vals(values, args[0]) != [] && Known(values, Rest(args))
  {
    assert args[0] in args;
  }

  /** One turn of the loop: the variants for one value of the first argument. */
  method VariantsFor(values: Values, render: map<string, string> -> string, remaining: seq<string>,
                     filtered: seq<string>,
                     variantVal: string, args: Args, ghost bound: map<string, string>)
    returns (ok: bool, qs: seq<string>)
    requires remaining != [] && filtered == Rest(remaining)
    requires AgreeBut(args.m, bound, remaining)
    modifies args
    ensures ok <==> Known(values, filtered)
    ensures ok ==> qs == Product(values, render, filtered, bound[remaining[0] := variantVal])
    ensures AgreeBut(args.m, bound, remaining)
    decreases |remaining|, 0
  {
    AgreeOnRest(remaining, args.m, bound, variantVal);
    args.m := args.m[remaining[0] := variantVal];
    ghost var before := args.m;
    ok, qs := GetVariants(values, render, filtered, args);
    LeftoversIrrelevant(values, render, filtered, before, bound[remaining[0] := variantVal]);
  }

  // ---- what the variants are

  /** Without arguments there is one variant, the query as it is bound. */
  lemma NoArguments(values: Values, render: map<string, string> -> string, bound: map<string, string>)
    ensures Product(values, render, [], bound) == [render(bound)]
  {
  }

  /** The product of the numbers of values, each argument counted once. */
  function Size(values: Values, args: seq<string>): nat
    decreases |args|
  {
    if args == [] then 1 else Times(|Vals(values, args[0])|, Size(values, Rest(args)))
  }

  function Times(a: nat, b: nat): nat {
    if a == 0 then 0 else Times(a - 1, b) + b
  }

  lemma {:induction false} TimesMonotonic(a: nat, b: nat, n: nat)
    requires a < b
    ensures Times(a, n) + n <= Times(b, n)
  {
    if a + 1 == b {
    } else {
      TimesMonotonic(a, b - 1, n);
    }
  }

  lemma {:induction false} ConcatLength(lists: seq<seq<string>>, n: nat, size: nat)
    requires n <= |lists| && forall i :: 0 <= i < n ==> |lists[i]| == size
    ensures |Concat(lists, n)| == Times(n, size)
  {
    if n == 0 {
    } else {
      ConcatLength(lists, n - 1, size);
    }
  }

  /** The variants are as many as the product of the value counts. */
  lemma ProductLength(values: Values, render: map<string, string> -> string, args: seq<string>,
                      bound: map<string, string>)
    ensures |Product(values, render, args, bound)| == Size(values, args)
    decreases |args|
  {
    if args == [] {
    } else {
      BranchLengths(values, render, args, bound);
      ConcatLength(Branches(values, render, args, bound), |Vals(values, args[0])|, Size(values, Rest(args)));
    }
  }

  lemma BranchLengths(values: Values, render: map<string, string> -> string, args: seq<string>,
                      bound: map<string, string>)
    requires args != []
    ensures forall i :: 0 <= i < |Vals(values, args[0])| ==>
      |Branches(values, render, args, bound)[i]| == Size(values, Rest(args))
    decreases |args|, 0
  {
    forall i | 0 <= i < |Vals(values, args[0])|
      ensures |Branches(values, render, args, bound)[i]| == Size(values, Rest(args))
    {
      ProductLength(values, render, Rest(args), bound[args[0] := Vals(values, args[0])[i]]);
    }
  }

  /** One value for each argument, by its position; 0 when there is none. */
  type Choice = map<string, nat>

  function Pick(c: Choice, arg: string): nat {
    if arg in c then c[arg] else 0
  }

  predicate Fits(values: Values, args: seq<string>, c: Choice) {
    forall a :: a in args ==> a in values && Pick(c, a) < |values[a]|
  }

  /** The bindings of a choice. */
  function Bind(values: Values, args: seq<string>, c: Choice, bound: map<string, string>): map<string, string>
    requires Fits(values, args, c)
    decreases |args|
  {
    if args == [] then bound
    else Bind(values, Rest(args), c, bound[args[0] := Vals(values, args[0])[Pick(c, args[0])]])
  }

  lemma {:induction false} BindAt(values: Values, args: seq<string>, c: Choice, bound: map<string, string>, k: string)
    requires Fits(values, args, c)
    ensures var b := Bind(values, args, c, bound);
      if k in args then k in b && b[k] == values[k][Pick(c, k)]
      else (k in b <==> k in bound) && (k in bound ==> b[k] == bound[k])
    decreases |args|
  {
    if args == [] {
    } else {
      BindAt(values, Rest(args), c, bound[args[0] := Vals(values, args[0])[Pick(c, args[0])]], k);
    }
  }

  /** The position of a choice in lexicographic order. */
  function Rank(values: Values, args: seq<string>, c: Choice): nat
    decreases |args|
  {
    if args == [] then 0 else Times(Pick(c, args[0]), Size(values, Rest(args))) + Rank(values, Rest(args), c)
  }

  predicate LexLess(args: seq<string>, c: Choice, d: Choice)
    decreases |args|
  {
    args != [] &&
    (|| Pick(c, args[0]) < Pick(d, args[0])
     || (Pick(c, args[0]) == Pick(d, args[0]) && LexLess(Rest(args), c, d)))
  }

  lemma {:induction false} RankBelowSize(values: Values, args: seq<string>, c: Choice)
    requires Fits(values, args, c)
    ensures Rank(values, args, c) < Size(values, args)
    decreases |args|
  {
    if args == [] {
    } else {
      RankBelowSize(values, Rest(args), c);
      TimesMonotonic(Pick(c, args[0]), |Vals(values, args[0])|, Size(values, Rest(args)));
    }
  }

  function At<T>(s: seq<T>, k: nat): Option<T> {
    if k < |s| then Some(s[k]) else None
  }

  lemma AtFirst<T>(a: seq<T>, b: seq<T>, k: nat)
    requires k < |a|
    ensures At(a + b, k) == At(a, k)
  {
  }

  lemma AtSecond<T>(a: seq<T>, b: seq<T>, j: nat)
    ensures At(a + b, |a| + j) == At(b, j)
  {
  }

  /** Where the j-th element of the i-th of several lists of one size ends up. */
  lemma {:induction false} ConcatAt(lists: seq<seq<string>>, n: nat, size: nat, i: nat, j: nat)
    requires i < n <= |lists| && j < size && forall i :: 0 <= i < n ==> |lists[i]| == size
    ensures At(Concat(lists, n), Times(i, size) + j) == Some(lists[i][j])
  {
    ConcatLength(lists, n - 1, size);
    if i < n - 1 {
      ConcatAt(lists, n - 1, size, i, j);
      TimesMonotonic(i, n - 1, size);
      AtFirst(Concat(lists, n - 1), lists[n - 1], Times(i, size) + j);
    } else {
      AtSecond(Concat(lists, n - 1), lists[n - 1], j);
    }
  }

  lemma VariantStep(product: seq<string>, branches: seq<seq<string>>, rank: nat, size: nat, i: nat, j: nat,
                    query: string)
    requires i < |branches| && forall k :: 0 <= k < |branches| ==> |branches[k]| == size
    requires At(branches[i], j) == Some(query)
    requires product == Concat(branches, |branches|) && rank == Times(i, size) + j
    ensures At(product, rank) == Some(query)
  {
    ConcatAt(branches, |branches|, size, i, j);
  }

  lemma VariantNext(values: Values, render: map<string, string> -> string, args: seq<string>,
                    bound: map<string, string>, c: Choice, query: string)
    requires args != [] && Fits(values, args, c)
    requires var bound' := bound[args[0] := Vals(values, args[0])[Pick(c, args[0])]];
      At(Product(values, render, Rest(args), bound'), Rank(values, Rest(args), c)) == Some(query)
    ensures At(Product(values, render, args, bound), Rank(values, args, c)) == Some(query)
  {
    var branches, i := Branches(values, render, args, bound), Pick(c, args[0]);
    BranchLengths(values, render, args, bound);
    VariantStep(Product(values, render, args, bound), branches, Rank(values, args, c), Size(values, Rest(args)), i,
                Rank(values, Rest(args), c), query);
  }

  /** The variant at the rank of a choice renders the bindings of that choice. */
  lemma {:induction false} VariantOf(values: Values, render: map<string, string> -> string, args: seq<string>,
                                     bound: map<string, string>, c: Choice)
    requires Fits(values, args, c)
    ensures At(Product(values, render, args, bound), Rank(values, args, c))
      == Some(render(Bind(values, args, c, bound)))
    decreases |args|
  {
    if args == [] {
    } else {
      VariantOf(values, render, Rest(args), bound[args[0] := Vals(values, args[0])[Pick(c, args[0])]], c);
      VariantNext(values, render, args, bound, c, render(Bind(values, args, c, bound)));
    }
  }

  /** The variants come in lexicographic order of their choices. */
  lemma {:induction false} RankIsLexicographic(values: Values, args: seq<string>, c: Choice, d: Choice)
    requires Fits(values, args, c) && Fits(values, args, d)
    ensures Rank(values, args, c) < Rank(values, args, d) <==> LexLess(args, c, d)
    decreases |args|
  {
    if args == [] {
    } else {
      var a, rest := args[0], Rest(args);
      RankIsLexicographic(values, rest, c, d);
      RankBelowSize(values, rest, c);
      RankBelowSize(values, rest, d);
      if Pick(c, a) < Pick(d, a) {
        TimesMonotonic(Pick(c, a), Pick(d, a), Size(values, rest));
      } else if Pick(d, a) < Pick(c, a) {
        TimesMonotonic(Pick(d, a), Pick(c, a), Size(values, rest));
      }
    }
  }

  /** Splits `k` below a * b into a quotient and a remainder. */
  lemma {:induction false} SplitTimes(a: nat, b: nat, k: nat) returns (i: nat, j: nat)
    requires k < Times(a, b)
    ensures i < a && j < b && k == Times(i, b) + j
  {
    if k < Times(a - 1, b) {
      i, j := SplitTimes(a - 1, b, k);
    } else {
      i, j := a - 1, k - Times(a - 1, b);
    }
  }

  lemma {:induction false} RankSame(values: Values, args: seq<string>, c: Choice, d: Choice)
    requires forall a :: a in args ==> Pick(c, a) == Pick(d, a)
    ensures Rank(values, args, c) == Rank(values, args, d)
    decreases |args|
  {
    if args == [] {
    } else {
      RankSame(values, Rest(args), c, d);
    }
  }

  /** Every variant is that of some choice. */
  lemma {:induction false} SomeChoice(values: Values, args: seq<string>, k: nat) returns (c: Choice)
    requires k < Size(values, args)
    ensures Fits(values, args, c) && Rank(values, args, c) == k
    decreases |args|
  {
    if args == [] {
      c := map[];
    } else {
      var i, j := SplitTimes(|Vals(values, args[0])|, Size(values, Rest(args)), k);
      var c' := SomeChoice(values, Rest(args), j);
      c := c'[args[0] := i];
      RankSame(values, Rest(args), c, c');
    }
  }

  lemma FirstSame(values: Values, args: seq<string>, c: Choice, d: Choice)
    requires args != [] && Fits(values, Rest(args), c) && Fits(values, Rest(args), d)
    requires Rank(values, args, c) == Rank(values, args, d)
    ensures Pick(c, args[0]) == Pick(d, args[0])
  {
    var i, j, rest := Pick(c, args[0]), Pick(d, args[0]), Rest(args);
    RankBelowSize(values, rest, c);
    RankBelowSize(values, rest, d);
    if i < j {
      TimesMonotonic(i, j, Size(values, rest));
    } else if j < i {
      TimesMonotonic(j, i, Size(values, rest));
    }
  }

  /** And of only one. */
  lemma {:induction false} OnlyChoice(values: Values, args: seq<string>, c: Choice, d: Choice, a: string)
    requires Fits(values, args, c) && Fits(values, args, d)
    requires Rank(values, args, c) == Rank(values, args, d) && a in args
    ensures Pick(c, a) == Pick(d, a)
    decreases |args|
  {
    FirstSame(values, args, c, d);
    if a != args[0] {
      OnlyChoice(values, Rest(args), c, d, a);
    }
  }

  // ---- repeated and reordered arguments

  lemma {:induction false} WithoutFirst(args: seq<string>, arg: string)
    ensures Without([arg] + args, arg) == Without(args, arg)
  {
    if args == [] {
      assert [arg] + args == [arg];
      assert Without([arg][..0], arg) == [];
    } else {
      assert ([arg] + args)[..|args|] == [arg] + args[..|args| - 1];
      WithoutFirst(args[..|args| - 1], arg);
    }
  }

  function Distinct(args: seq<string>): (r: seq<string>)
    ensures forall a :: a in r <==> a in args
    decreases |args|
  {
    if args == [] then [] else
    assert args[0] in args;
    [args[0]] + Distinct(Rest(args))
  }

  lemma DistinctRest(args: seq<string>)
    requires args != []
    ensures Distinct(args) != [] && Distinct(args)[0] == args[0] && Rest(Distinct(args)) == Distinct(Rest(args))
  {
    assert args[0] !in Distinct(Rest(args));
    WithoutFirst(Distinct(Rest(args)), args[0]);
  }

  /** An argument named again changes nothing. */
  lemma {:induction false} RepeatsActAsOne(values: Values, render: map<string, string> -> string, args: seq<string>,
                                           bound: map<string, string>)
    ensures Product(values, render, Distinct(args), bound) == Product(values, render, args, bound)
    decreases |args|
  {
    if args == [] {
    } else {
      var d := Distinct(args);
      DistinctRest(args);
      forall i | 0 <= i < |Vals(values, args[0])|
        ensures Branches(values, render, d, bound)[i] == Branches(values, render, args, bound)[i]
      {
        RepeatsActAsOne(values, render, Rest(args), bound[args[0] := Vals(values, args[0])[i]]);
      }
      assert Branches(values, render, d, bound) == Branches(values, render, args, bound);
    }
  }

  lemma {:induction false} TimesIs(a: nat, b: nat)
    ensures Times(a, b) == a * b
  {
    if a == 0 {
    } else {
      TimesIs(a - 1, b);
      assert (a - 1) * b + b == a * b;
    }
  }

  lemma {:induction false} WithoutCommute(args: seq<string>, a: string, b: string)
    ensures Without(Without(args, a), b) == Without(Without(args, b), a)
  {
    if args == [] {
    } else {
      WithoutCommute(args[..|args| - 1], a, b);
      WithoutBoth(args, a, b);
      WithoutBoth(args, b, a);
    }
  }

  lemma WithoutBoth(args: seq<string>, a: string, b: string)
    requires args != []
    ensures var init, last := args[..|args| - 1], args[|args| - 1];
      Without(Without(args, a), b) == Without(Without(init, a), b) + if last != a && last != b then [last] else []
  {
    var init, last := args[..|args| - 1], args[|args| - 1];
    if last != a {
      WithoutLast(Without(init, a), last, b);
    } else {
      assert Without(args, a) == Without(init, a);
    }
  }

  lemma WithoutLast(args: seq<string>, last: string, a: string)
    ensures Without(args + [last], a) == Without(args, a) + if last != a then [last] else []
  {
    assert (args + [last])[..|args|] == args;
  }

  lemma {:induction false} WithoutHead(args: seq<string>, a: string)
    requires args != [] && args[0] != a
    ensures Without(args, a) != [] && Without(args, a)[0] == args[0]
  {
    if |args| == 1 {
    } else {
      WithoutHead(args[..|args| - 1], a);
    }
  }

  lemma WithoutRest(args: seq<string>, a: string)
    requires args != [] && args[0] != a
    ensures Without(args, a) != [] && Without(args, a)[0] == args[0] && Rest(Without(args, a)) == Without(Rest(args), a)
  {
    WithoutHead(args, a);
    WithoutCommute(args, a, args[0]);
  }

  /** Any argument may be counted first. */
  lemma {:induction false} SizeOut(values: Values, args: seq<string>, a: string)
    requires a in args
    ensures Size(values, args) == (if a in values then |values[a]| else 0) * Size(values, Without(args, a))
    decreases |args|
  {
    var first, rest := args[0], Rest(args);
    TimesIs(|Vals(values, first)|, Size(values, rest));
    if a == first {
    } else {
      WithoutRest(args, a);
      SizeOut(values, rest, a);
      TimesIs(|Vals(values, first)|, Size(values, Without(rest, a)));
      Swap(|Vals(values, first)|, |Vals(values, a)|, Size(values, Without(rest, a)));
    }
  }

  lemma Swap(a: nat, b: nat, n: nat)
    ensures a * (b * n) == b * (a * n)
  {
  }

  lemma {:induction false} SizeSame(values: Values, args: seq<string>, args': seq<string>)
    requires forall a :: a in args <==> a in args'
    ensures Size(values, args) == Size(values, args')
    decreases |args|
  {
    assert args' == [] || args'[0] in args';
    if args == [] {
    } else {
      var a := args[0];
      assert a in args;
      SizeOut(values, args, a);
      SizeOut(values, args', a);
      SizeSame(values, Rest(args), Without(args', a));
    }
  }

  lemma SameBindings(values: Values, args: seq<string>, args': seq<string>, bound: map<string, string>, c: Choice)
    requires Fits(values, args, c) && Fits(values, args', c)
    requires forall a :: a in args <==> a in args'
    ensures Bind(values, args, c, bound) == Bind(values, args', c, bound)
  {
    var b, b' := Bind(values, args, c, bound), Bind(values, args', c, bound);
    forall k ensures (k in b <==> k in b') && (k in b ==> b[k] == b'[k]) {
      BindAt(values, args, c, bound, k);
      BindAt(values, args', c, bound, k);
    }
    assert b == b';
  }

  /** The same choice renders the same query at another place. */
  lemma ReorderingMoves(values: Values, render: map<string, string> -> string, args: seq<string>, args': seq<string>,
                        bound: map<string, string>, c: Choice)
    requires Fits(values, args, c)
    requires forall a :: a in args <==> a in args'
    ensures At(Product(values, render, args, bound), Rank(values, args, c))
      == At(Product(values, render, args', bound), Rank(values, args', c)) != None
  {
    VariantOf(values, render, args, bound, c);
    VariantOf(values, render, args', bound, c);
    SameBindings(values, args, args', bound, c);
  }

  lemma {:induction false} ChoicesInOrder(values: Values, args: seq<string>, n: nat) returns (cs: seq<Choice>)
    requires n <= Size(values, args)
    ensures |cs| == n && forall k :: 0 <= k < n ==> Fits(values, args, cs[k]) && Rank(values, args, cs[k]) == k
  {
    if n == 0 {
      cs := [];
    } else {
      var c := SomeChoice(values, args, n - 1);
      cs := ChoicesInOrder(values, args, n - 1);
      cs := cs + [c];
    }
  }

  /** Each of `a` has a place of its own in `b`. */
  ghost predicate Moved(a: seq<string>, b: seq<string>, place: seq<nat>) {
    && |a| == |b| == |place|
    && (forall i :: 0 <= i < |a| ==> place[i] < |b| && a[i] == b[place[i]])
    && (forall i, j :: 0 <= i < j < |a| ==> place[i] != place[j])
  }

  lemma TakenOut(b: seq<string>, j: nat)
    requires j < |b|
    ensures multiset(b) == multiset(b[..j] + b[j + 1..]) + multiset{b[j]}
  {
    assert b == b[..j] + ([b[j]] + b[j + 1..]);
  }

  lemma {:induction false} MovedIsPermuted(a: seq<string>, b: seq<string>, place: seq<nat>)
    requires Moved(a, b, place)
    ensures multiset(a) == multiset(b)
    decreases |a|
  {
    if a == [] {
    } else {
      var n := |a| - 1;
      var j := place[n];
      var place' := seq(n, i requires 0 <= i < n => if place[i] < j then place[i] else place[i] - 1);
      MovedIsPermuted(a[..n], b[..j] + b[j + 1..], place');
      TakenOut(b, j);
      assert a == a[..n] + [a[n]];
    }
  }

  function Places(values: Values, args: seq<string>, cs: seq<Choice>): (place: seq<nat>)
    ensures |place| == |cs| && forall k :: 0 <= k < |cs| ==> place[k] == Rank(values, args, cs[k])
  {
    seq(|cs|, k requires 0 <= k < |cs| => Rank(values, args, cs[k]))
  }

  /** With the arguments in another order, or named more often, the variants are the same ones in another order. */
  lemma ReorderingPermutes(values: Values, render: map<string, string> -> string, args: seq<string>, args': seq<string>,
                           bound: map<string, string>)
    requires forall a :: a in args <==> a in args'
    ensures multiset(Product(values, render, args, bound)) == multiset(Product(values, render, args', bound))
  {
    var p, p' := Product(values, render, args, bound), Product(values, render, args', bound);
    var n := Size(values, args);
    ProductLength(values, render, args, bound);
    ProductLength(values, render, args', bound);
    SizeSame(values, args, args');
    var cs := ChoicesInOrder(values, args, n);
    var place := Places(values, args', cs);
    forall k | 0 <= k < n ensures place[k] < n && p[k] == p'[place[k]] {
      RankBelowSize(values, args', cs[k]);
      ReorderingMoves(values, render, args, args', bound, cs[k]);
    }
    forall k, l | 0 <= k < l < n ensures place[k] != place[l] {
      if place[k] == place[l] {
        OnlyRank(values, args, args', cs[k], cs[l]);
      }
    }
    MovedIsPermuted(p, p', place);
  }

  lemma OnlyRank(values: Values, args: seq<string>, args': seq<string>, c: Choice, d: Choice)
    requires Fits(values, args', c) && Fits(values, args', d) && Rank(values, args', c) == Rank(values, args', d)
    requires forall a :: a in args <==> a in args'
    ensures Rank(values, args, c) == Rank(values, args, d)
  {
    forall a | a in args ensures Pick(c, a) == Pick(d, a) {
      OnlyChoice(values, args', c, d, a);
    }
    RankSame(values, args, c, d);
  }
}
