/** What one alert does to an orderly queue whose first expectations are due. */
module Hits {
  import opened Labels
  import opened ExpectedAlert
  import opened Reception
  import opened Conservation
  import opened Verdict
  import opened MatchOrder
  import opened Resends

  lemma {:induction false} OrderedSame(a: seq<Expected>, b: seq<Expected>)
    requires Ordered(a) && Ordered(b) && forall ea :: ea in a <==> ea in b
    ensures a == b
  {
    NonEmpty(a);
    NonEmpty(b);
    if a == [] {
    } else {
      SameHead(a, b);
      forall ea ensures ea in a[1..] <==> ea in b[1..] {
        InTail(a, ea);
        InTail(b, ea);
      }
      OrderedSame(a[1..], b[1..]);
      assert a == [a[0]] + a[1..] && b == [b[0]] + b[1..];
    }
  }

  lemma NonEmpty(q: seq<Expected>)
    ensures q == [] <==> forall ea :: ea !in q
  {
    if q != [] {
      assert q[0] in q;
    }
  }

  lemma SameHead(a: seq<Expected>, b: seq<Expected>)
    requires Ordered(a) && Ordered(b) && a != [] && b != [] && forall ea :: ea in a <==> ea in b
    ensures a[0] == b[0]
  {
    assert a[0] in a && b[0] in b;
    var i :| 0 <= i < |b| && b[i] == a[0];
    var j :| 0 <= j < |a| && a[j] == b[0];
  }

  lemma InTail(a: seq<Expected>, ea: Expected)
    requires Ordered(a) && a != []
    ensures ea in a[1..] <==> ea in a && ea != a[0]
  {
    assert a == [a[0]] + a[1..];
    assert forall i :: 0 < i < |a| ==> a[0].orderingID < a[i].orderingID;
  }

  lemma InRest(q: seq<Expected>, p: nat, ea: Expected)
    requires Ordered(q) && p < |q|
    ensures ea in q[p + 1..] <==> ea in q && q[p].orderingID < ea.orderingID
  {
    OrderedAfter(q, p);
  }

  /** The candidates begin with the due expectations at the front of the queue. */
  lemma {:induction false} SelectFront(q: seq<Expected>, now: Time, p: nat)
    requires p < |q| && forall i :: 0 <= i <= p ==> FateOf(q[i], now) == Due
    ensures var exp := Select(q, now, {Due});
      p < |exp| && exp[..p] == q[..p] && exp[p] == q[p]
  {
    if p == 0 {
    } else {
      SelectFront(q[1..], now, p - 1);
      var exp, rest := Select(q, now, {Due}), Select(q[1..], now, {Due});
      assert exp == [q[0]] + rest;
      assert exp[..p] == [q[0]] + rest[..p - 1];
      assert q[..p] == [q[0]] + q[1..][..p - 1];
    }
  }

  lemma FirstMatchIs(exp: seq<Expected>, now: Time, a: Alert, p: nat)
    requires p < |exp| && exp[p].Matches(now, a) == Matched
    requires forall i :: 0 <= i < p ==> exp[i].Matches(now, a) != Matched
    ensures FirstMatch(exp, now, a) == p
  {
  }

  /** What stays queued when the expectation at `p` is hit, and all before it were due. */
  lemma LeftIsRest(q: seq<Expected>, now: Time, p: nat)
    requires Ordered(q) && Scheduled(q) && Swept(q, now)
    requires p < |q| && forall i :: 0 <= i <= p ==> FateOf(q[i], now) == Due
    ensures p < |Select(q, now, {Due})|
    ensures AddBack(Select(q, now, {Waiting}), Select(q, now, {Due})[p + 1..]) == q[p + 1..]
  {
    SelectFront(q, now, p);
    AfterMatch(q, now, p);
    var left := AddBack(Select(q, now, {Waiting}), Select(q, now, {Due})[p + 1..]);
    forall ea ensures ea in left <==> ea in q[p + 1..] {
      InRest(q, p, ea);
      if ea in q && FateOf(ea, now) == Waiting {
        WaitingIsLater(q, now, p, ea);
      }
    }
    OrderedSame(left, q[p + 1..]);
  }

  lemma WaitingIsLater(q: seq<Expected>, now: Time, p: nat, ea: Expected)
    requires Ordered(q) && p < |q| && ea in q && FateOf(ea, now) == Waiting
    requires forall i :: 0 <= i <= p ==> FateOf(q[i], now) == Due
    ensures q[p].orderingID < ea.orderingID
  {
    var i :| 0 <= i < |q| && q[i] == ea;
    assert p < i;
  }

  /** The alert matches the `n`-th expectation, past due ones that it does not match. */
  ghost predicate PassesTo(q: seq<Expected>, n: nat, now: Time, a: Alert) {
    && n < |q| && (forall i :: 0 <= i <= n ==> FateOf(q[i], now) == Due)
    && q[n].Matches(now, a) == Matched
    && (forall i :: 0 <= i < n ==> q[i].Matches(now, a) != Matched)
  }

  /** A match leaves `rest` queued, and passes over `passed`. */
  ghost predicate Hit(s: Series, s': Series, rest: seq<Expected>, passed: seq<Expected>) {
    && s'.queue == rest && s'.missed == s.missed + Skipped(passed, false, false)
    && s'.unexpected == s.unexpected && s'.mismatches == s.mismatches
  }

  /** The expectation at `p` is hit, past due ones that do not match. */
  lemma HitAt(s: Series, now: Time, a: Alert, p: nat)
    requires Ordered(s.queue) && Scheduled(s.queue) && Swept(s.queue, now)
    requires PassesTo(s.queue, p, now, a)
    ensures Hit(s, Receive(s, now, a), Rebase(s.queue[p + 1..], now), s.queue[..p])
  {
    SelectFront(s.queue, now, p);
    LeftIsRest(s.queue, now, p);
    FirstMatchIs(Select(s.queue, now, {Due}), now, a, p);
  }

  /** Something is held against the sender. */
  predicate Dirty(s: Series) {
    s.missed != [] || s.unexpected != [] || s.mismatches != []
  }

  /** Nothing that is due matches. */
  ghost predicate NoneFits(q: seq<Expected>, now: Time, a: Alert) {
    forall ea :: ea in q && FateOf(ea, now) == Due ==> ea.Matches(now, a) != Matched
  }

  lemma NoneHit(s: Series, now: Time, a: Alert)
    requires NoneFits(s.queue, now, a)
    ensures Dirty(Receive(s, now, a))
  {
    var exp := Select(s.queue, now, {Due});
    SelectIn(s.queue, now, {Due});
    NoFirstMatch(exp, now, a);
  }

  lemma {:induction false} NoFirstMatch(exp: seq<Expected>, now: Time, a: Alert)
    requires forall ea :: ea in exp ==> ea.Matches(now, a) != Matched
    ensures FirstMatch(exp, now, a) == |exp|
  {
    if exp == [] {
    } else {
      assert exp[0] in exp && forall ea :: ea in exp[1..] ==> ea in exp;
      NoFirstMatch(exp[1..], now, a);
    }
  }

  lemma SweptSame(s: Series, now: Time)
    requires Swept(s.queue, now)
    ensures Sweep(s, now).queue == s.queue && Sweep(s, now).missed == s.missed
  {
    SelectSwept(s.queue, now);
    SelectNone(s.queue, now, {Overdue});
    assert {Due} + {Waiting} == {Due, Waiting};
  }

  lemma {:induction false} SelectDrop(q: seq<Expected>, now: Time, n: nat)
    requires n <= |q|
    requires forall i :: 0 <= i < n ==> FateOf(q[i], now) == Ignored
    requires forall i :: n <= i < |q| ==> FateOf(q[i], now) in {Due, Waiting}
    ensures Select(q, now, {Due, Waiting}) == q[n..] && Select(q, now, {Overdue}) == []
  {
    if q == [] {
    } else {
      SelectDrop(q[1..], now, if n == 0 then 0 else n - 1);
      assert n > 0 ==> q[1..][n - 1..] == q[n..];
      assert n == 0 ==> q == [q[0]] + q[1..];
    }
  }

  lemma {:induction false} SkippedForgiven(exp: seq<Expected>, after: bool)
    requires forall i :: 0 <= i < |exp| ==> exp[i].CanBeIgnored()
    ensures Skipped(exp, after, false) == []
  {
    if exp == [] {
    } else {
      SkippedForgiven(exp[1..], AfterSkip(exp[0], after));
    }
  }

  lemma SkippedBlamed(exp: seq<Expected>)
    requires exp != [] && !exp[0].CanBeIgnored()
    ensures Skipped(exp, false, false) != []
  {
  }

  // ---- rescheduling what is left

  /** The queue when the first `p` rows are settled, the last of them at `m`. */
  function Left(q: seq<Expected>, p: nat, m: Time): seq<Expected>
    requires p <= |q|
  {
    Rebase(q[p..], m)
  }

  lemma LeadIs(q: seq<Expected>, n: nat)
    requires n <= |q| && (forall i :: 0 <= i < n ==> q[i].resend) && (n < |q| ==> !q[n].resend)
    ensures Lead(q) == n
  {
  }

  /** Settling the head of what is left reschedules the rest again. */
  lemma {:induction false} RebaseTwice(q: seq<Expected>, m: Time, m': Time)
    ensures Rebase(Rebase(q, m), m') == Rebase(q, m')
  {
    if q == [] || !q[0].resend {
    } else {
      RebaseTwice(q[1..], m, m');
      assert Rebase(q, m)[1..] == Rebase(q[1..], m);
    }
  }

  lemma {:induction false} RebaseRest(q: seq<Expected>, m: Time, m': Time, n: nat)
    requires n <= |q| == |Rebase(q, m)|
    ensures Rebase(Rebase(q, m)[n..], m') == Rebase(q[n..], m')
  {
    if n == 0 {
      RebaseTwice(q, m, m');
      assert Rebase(q, m)[0..] == Rebase(q, m) && q[0..] == q;
    } else if !q[0].resend {
    } else {
      RebaseAt(q[1..], m);
      RebaseRest(q[1..], m, m', n - 1);
      assert Rebase(q, m)[n..] == Rebase(q[1..], m)[n - 1..];
      assert q[n..] == q[1..][n - 1..];
    }
  }

  /** What is left after `n` more rows are settled. */
  lemma LeftRest(q: seq<Expected>, p: nat, m: Time, n: nat, m': Time)
    requires p + n <= |q| && |Left(q, p, m)| == |q| - p
    ensures Rebase(Left(q, p, m)[n..], m') == Left(q, p + n, m')
  {
    RebaseRest(q[p..], m, m', n);
    assert q[p..][n..] == q[p + n..];
  }

  lemma StillDirty(s: Series, now: Time, a: Alert)
    requires Dirty(s)
    ensures Dirty(Sweep(s, now)) && Dirty(Receive(s, now, a))
  {
  }

  lemma OneDelivered(s: Series, id: LabelSet, e: Event, a: Alert)
    requires Delivers(id, e) && AlertsOf(e.batch, id) == [a]
    ensures Step(s, id, e) == Receive(Sweep(s, e.now), e.now, a)
  {
    var r := Receive(Sweep(s, e.now), e.now, a);
    assert a in e.batch;
    assert [a][1..] == [] && r.unexpected + [] == r.unexpected;
  }
}
