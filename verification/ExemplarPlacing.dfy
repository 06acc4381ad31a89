/** Which exemplar goes to which series, in plain numbers: the first to the first series of its label set, the
    second to the second, and all that are left to the last. */
module ExemplarPlacing {
  import opened RequestPlan
  import opened SymbolTable

  /** How many of the first `n` exemplars are for `labels`. */
  function ExemplarsBefore(exemplars: seq<ExemplarWithLabels>, labels: LabelMap, n: nat): nat
    requires n <= |exemplars|
  {
    if n == 0 then 0 else
    ExemplarsBefore(exemplars, labels, n - 1) + if exemplars[n - 1].labels == labels then 1 else 0
  }

  /** How many of the first `n` series have these labels. */
  function SeriesBefore(keys: seq<LabelMap>, labels: LabelMap, n: nat): nat
    requires n <= |keys|
  {
    if n == 0 then 0 else SeriesBefore(keys, labels, n - 1) + if keys[n - 1] == labels then 1 else 0
  }

  /** Is the `i`-th exemplar for the `k`-th series? */
  predicate Takes(keys: seq<LabelMap>, exemplars: seq<ExemplarWithLabels>, k: nat, i: nat)
    requires k < |keys|
  {
    && i < |exemplars| && exemplars[i].labels == keys[k]
    && (var e, s := ExemplarsBefore(exemplars, keys[k], i), SeriesBefore(keys, keys[k], k);
        e == s || (s < e && forall j :: k < j < |keys| ==> keys[j] != keys[k]))
  }

  /** There is an exemplar for each smaller number. */
  lemma {:induction false} SmallerOne(exemplars: seq<ExemplarWithLabels>, labels: LabelMap, n: nat, b: nat)
    returns (j: nat)
    requires n <= |exemplars| && b < ExemplarsBefore(exemplars, labels, n)
    ensures j < n && exemplars[j].labels == labels && ExemplarsBefore(exemplars, labels, j) == b
  {
    if b < ExemplarsBefore(exemplars, labels, n - 1) {
      j := SmallerOne(exemplars, labels, n - 1, b);
    } else {
      j := n - 1;
    }
  }

  lemma {:induction false} BeforeGrows(exemplars: seq<ExemplarWithLabels>, labels: LabelMap, j: nat, i: nat)
    requires j < i <= |exemplars| && exemplars[j].labels == labels
    ensures ExemplarsBefore(exemplars, labels, j) < ExemplarsBefore(exemplars, labels, i)
  {
    if j < i - 1 {
      BeforeGrows(exemplars, labels, j, i - 1);
    }
  }

  /** Of the exemplars for `labels`, those up to before number `b` are used. */
  ghost predicate UsedTo(exemplars: seq<ExemplarWithLabels>, labels: LabelMap, used: set<nat>, b: nat) {
    forall i :: 0 <= i < |exemplars| && exemplars[i].labels == labels ==>
      (i in used <==> ExemplarsBefore(exemplars, labels, i) < b)
  }

  lemma NotBoth(t: seq<nat>, i: nat, j: nat)
    requires j < i && |t| == 1 && t[0] <= j
    ensures i !in t
  {
  }

  /** What a series takes when the exemplars before number `b` are used. */
  lemma TakesNext(exemplars: seq<ExemplarWithLabels>, labels: LabelMap, used: set<nat>, last: bool, b: nat, i: nat)
    requires UsedTo(exemplars, labels, used, b) && i < |exemplars| && exemplars[i].labels == labels
    ensures var e := ExemplarsBefore(exemplars, labels, i);
      i in Take(exemplars, labels, used, last, 0) <==> e == b || (last && b < e)
  {
    TakeIs(exemplars, labels, used, last, 0);
    var t := Take(exemplars, labels, used, last, 0);
    if !last && i !in used {
      if ExemplarsBefore(exemplars, labels, i) == b {
        if t[0] < i {
          BeforeGrows(exemplars, labels, t[0], i);
        }
      } else {
        var j := SmallerOne(exemplars, labels, i, b);
        NotBoth(t, i, j);
      }
    }
  }

  /** So far each series has taken one, as long as there were any. */
  lemma {:induction false} UsedExactly(keys: seq<LabelMap>, exemplars: seq<ExemplarWithLabels>, used: set<nat>, n: nat,
                                       labels: LabelMap)
    requires n <= |keys| && forall k :: 0 <= k < n && keys[k] == labels ==> !IsLast(keys, k)
    requires forall i :: 0 <= i < |exemplars| && exemplars[i].labels == labels ==> i !in used
    ensures UsedTo(exemplars, labels, Attach(keys, exemplars, used, n).used, SeriesBefore(keys, labels, n))
  {
    if n == 0 {
    } else {
      UsedExactly(keys, exemplars, used, n - 1, labels);
      UsedNext(keys, exemplars, used, n, labels);
    }
  }

  lemma UsedNext(keys: seq<LabelMap>, exemplars: seq<ExemplarWithLabels>, used: set<nat>, n: nat, labels: LabelMap)
    requires 0 < n <= |keys| && (keys[n - 1] == labels ==> !IsLast(keys, n - 1))
    requires UsedTo(exemplars, labels, Attach(keys, exemplars, used, n - 1).used, SeriesBefore(keys, labels, n - 1))
    ensures UsedTo(exemplars, labels, Attach(keys, exemplars, used, n).used, SeriesBefore(keys, labels, n))
  {
    var before, b := Attach(keys, exemplars, used, n - 1).used, SeriesBefore(keys, labels, n - 1);
    var last := IsLast(keys, n - 1);
    TakeIs(exemplars, keys[n - 1], before, last, 0);
    forall i | 0 <= i < |exemplars| && exemplars[i].labels == labels
      ensures i in Attach(keys, exemplars, used, n).used
        <==> ExemplarsBefore(exemplars, labels, i) < SeriesBefore(keys, labels, n)
    {
      if keys[n - 1] == labels {
        TakesNext(exemplars, labels, before, last, b, i);
      }
    }
  }

  lemma AttachedExactly(keys: seq<LabelMap>, exemplars: seq<ExemplarWithLabels>, used: set<nat>, k: nat, i: nat)
    requires k < |keys|
    requires forall j :: 0 <= j < |exemplars| && exemplars[j].labels == keys[k] ==> j !in used
    ensures i in Attach(keys, exemplars, used, |keys|).attached[k] <==> Takes(keys, exemplars, k, i)
  {
    var before := Attach(keys, exemplars, used, k).used;
    AttachedAt(keys, exemplars, used, |keys|, k);
    TakeIs(exemplars, keys[k], before, IsLast(keys, k), 0);
    if i < |exemplars| && exemplars[i].labels == keys[k] {
      UsedExactly(keys, exemplars, used, k, keys[k]);
      TakesNext(exemplars, keys[k], before, IsLast(keys, k), SeriesBefore(keys, keys[k], k), i);
    }
  }

  /** The exemplars that the series of the `k`-th sample carries. */
  lemma SampleTakes(opts: RequestOpts, k: nat, i: nat)
    requires k < |opts.samples|
    ensures i in SamplePlan(opts).attached[k] <==> Takes(opts.SampleKeys(), opts.exemplars, k, i)
  {
    AttachedExactly(opts.SampleKeys(), opts.exemplars, {}, k, i);
  }

  /** A histogram carries exemplars only when there is no sample with its labels. */
  lemma HistogramTakes(opts: RequestOpts, k: nat, i: nat)
    requires k < |opts.histograms|
    ensures i in HistogramPlan(opts).attached[k] <==>
      opts.histograms[k].labels !in opts.SampleKeys() && Takes(opts.HistogramKeys(), opts.exemplars, k, i)
  {
    var labels, used := opts.histograms[k].labels, SamplePlan(opts).used;
    assert opts.HistogramKeys()[k] == labels;
    if labels in opts.SampleKeys() {
      AttachedAt(opts.HistogramKeys(), opts.exemplars, used, |opts.histograms|, k);
      var before := Attach(opts.HistogramKeys(), opts.exemplars, used, k).used;
      TakeIs(opts.exemplars, labels, before, IsLast(opts.HistogramKeys(), k), 0);
      UsedGrows(opts.HistogramKeys(), opts.exemplars, used, 0, k);
      if i in HistogramPlan(opts).attached[k] {
        NoneLeft(opts.SampleKeys(), opts.exemplars, {}, i);
      }
    } else {
      forall j | 0 <= j < |opts.exemplars| && opts.exemplars[j].labels == labels ensures j !in used {
        AttachOnce(opts.SampleKeys(), opts.exemplars, {}, |opts.samples|, j);
      }
      AttachedExactly(opts.HistogramKeys(), opts.exemplars, used, k, i);
    }
  }
}
