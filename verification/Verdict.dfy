/** What the records of a series say about the alerts it expected. */
module Verdict {
  import opened Labels
  import opened Sequences
  import opened ExpectedAlert
  import opened Reception
  import opened Conservation

  /** Nothing was wrongly forgiven, nothing forgivable is held against the software under test,
      and the matching errors of labels and of lateness never occur. */
  ghost predicate Justified(s: Series, id: LabelSet) {
    && (forall ea :: ea in s.queue ==> ea.alert.labels == id)
    && (forall ea :: ea in s.dropped ==> ea.CanBeIgnored() || ea.resend)
    && (forall ea :: ea in s.missed ==> !ea.CanBeIgnored())
    && (forall m :: m in s.matched ==> m.expected.Matches(m.now, m.alert) == Matched)
    && (forall m :: m in s.mismatches ==>
          && m.error in {AnnotationsMismatch, StartsAtMismatch, EndsAtMismatch, BadGeneratorURL}
          && m.expected.Matches(m.now, m.alert) == Failed(m.error))
  }

  /** A series of which nothing has been seen yet. */
  function Fresh(queue: seq<Expected>): Series {
    Series(queue, [], [], [], [], [])
  }

  lemma {:induction false} SkippedAre(exp: seq<Expected>, after: bool)
    ensures forall ea :: ea in Skipped(exp, after, true) ==> ea in exp && (ea.CanBeIgnored() || ea.resend)
    ensures forall ea :: ea in Skipped(exp, after, false) ==> ea in exp && !ea.CanBeIgnored()
  {
    if exp == [] {
    } else {
      SkippedAre(exp[1..], AfterSkip(exp[0], after));
    }
  }

  /** Whether the last forgiven of the skipped expectations was a resend. */
  function AfterAll(exp: seq<Expected>, after: bool): bool {
    if exp == [] then after else AfterAll(exp[1..], AfterSkip(exp[0], after))
  }

  lemma {:induction false} SkippedAppend(exp: seq<Expected>, x: Expected, after: bool, forgiven: bool)
    ensures AfterAll(exp + [x], after) == AfterSkip(x, AfterAll(exp, after))
    ensures Skipped(exp + [x], after, forgiven)
      == Skipped(exp, after, forgiven) + if Forgiven(x, AfterAll(exp, after)) == forgiven then [x] else []
  {
    if exp == [] {
      assert (exp + [x])[1..] == [] && exp + [x] == [x];
    } else {
      var more, next := exp + [x], AfterSkip(exp[0], after);
      assert more[0] == exp[0] && more[1..] == exp[1..] + [x];
      SkippedAppend(exp[1..], x, next, forgiven);
      Associate(if Forgiven(exp[0], after) == forgiven then [exp[0]] else [], Skipped(exp[1..], next, forgiven),
               if Forgiven(x, AfterAll(exp, after)) == forgiven then [x] else []);
    }
  }

  /** Some skipped resend could be ignored, and only resends follow it up to before `n`. */
  ghost predicate IgnoredResend(exp: seq<Expected>, n: nat) {
    exists j :: 0 <= j < n <= |exp| && exp[j].CanBeIgnored() && forall k :: j <= k < n ==> exp[k].resend
  }

  lemma {:induction false} AfterAllIs(exp: seq<Expected>, n: nat)
    requires n <= |exp|
    ensures AfterAll(exp[..n], false) <==> IgnoredResend(exp, n)
  {
    if n == 0 {
    } else {
      AfterAllIs(exp, n - 1);
      assert exp[..n] == exp[..n - 1] + [exp[n - 1]];
      SkippedAppend(exp[..n - 1], exp[n - 1], false, true);
      if exp[n - 1].CanBeIgnored() && exp[n - 1].resend {
        assert forall k :: n - 1 <= k < n ==> exp[k].resend;
      }
    }
  }

  /** Exactly which skipped expectations are forgiven: those that can be ignored, and resends that
      follow a resend that can, with nothing but resends in between. */
  lemma SkippedExactly(exp: seq<Expected>, i: nat, forgiven: bool)
    requires i < |exp|
    ensures Skipped(exp[..i + 1], false, forgiven) == Skipped(exp[..i], false, forgiven)
      + if (exp[i].CanBeIgnored() || (exp[i].resend && IgnoredResend(exp, i))) == forgiven then [exp[i]] else []
  {
    assert exp[..i + 1] == exp[..i] + [exp[i]];
    SkippedAppend(exp[..i], exp[i], false, forgiven);
    AfterAllIs(exp, i);
  }

  lemma {:induction false} InsertIn(x: Expected, q: seq<Expected>)
    ensures forall ea :: ea in Insert(x, q) <==> ea == x || ea in q
  {
    if q == [] {
    } else {
      InsertIn(x, q[1..]);
      assert q == [q[0]] + q[1..];
    }
  }

  lemma {:induction false} SortedIn(q: seq<Expected>)
    ensures forall ea :: ea in Sorted(q) <==> ea in q
  {
    if q == [] {
    } else {
      var last := |q| - 1;
      SortedIn(q[..last]);
      InsertIn(q[last], Sorted(q[..last]));
      assert q == q[..last] + [q[last]];
    }
  }

  /** The number of leading resends, the part of a queue that is rebased. */
  function Lead(q: seq<Expected>): (n: nat)
    ensures n <= |q|
    ensures forall i :: 0 <= i < n ==> q[i].resend
    ensures n < |q| ==> !q[n].resend
  {
    if q == [] || !q[0].resend then 0 else 1 + Lead(q[1..])
  }

  lemma {:induction false} RebaseAt(q: seq<Expected>, now: Time)
    ensures |Rebase(q, now)| == |q|
    ensures forall i :: 0 <= i < |q| ==>
      Rebase(q, now)[i] == if i < Lead(q) then q[i].(ts := now + RESEND_DELAY - MAX_RTT) else q[i]
  {
    if q == [] || !q[0].resend {
    } else {
      RebaseAt(q[1..], now);
    }
  }

  lemma SweepJustified(s: Series, id: LabelSet, now: Time)
    requires Justified(s, id)
    ensures Justified(Sweep(s, now), id)
  {
    SelectIn(s.queue, now, {Due, Waiting});
    SelectIn(s.queue, now, {Overdue});
    SelectIn(s.queue, now, {Ignored, Excused});
  }

  lemma ReceiveJustified(s: Series, id: LabelSet, now: Time, a: Alert)
    requires Justified(s, id) && a.labels == id
    ensures Justified(Receive(s, now, a), id)
  {
    var exp := Select(s.queue, now, {Due});
    var rest := Select(s.queue, now, {Waiting});
    SelectIn(s.queue, now, {Due});
    SelectIn(s.queue, now, {Waiting});
    var k := FirstMatch(exp, now, a);
    if exp == [] {
    } else if k < |exp| {
      MatchJustified(s, id, now, a, exp, rest, k);
    } else {
      SortedIn(rest + exp);
      MismatchIs(exp[0], now, a, id);
    }
  }

  /** A due expectation that is not matched fails for its payload. */
  lemma MismatchIs(ea: Expected, now: Time, a: Alert, id: LabelSet)
    requires ea.alert.labels == id == a.labels && FateOf(ea, now) == Due && ea.Matches(now, a) != Matched
    ensures ea.Matches(now, a).error in {AnnotationsMismatch, StartsAtMismatch, EndsAtMismatch, BadGeneratorURL}
  {
  }

  lemma MatchJustified(s: Series, id: LabelSet, now: Time, a: Alert, exp: seq<Expected>, rest: seq<Expected>, k: nat)
    requires Justified(s, id) && k < |exp| && exp[k].Matches(now, a) == Matched
    requires forall ea :: ea in rest || ea in exp ==> ea.alert.labels == id
    ensures Justified(MatchedAt(s, now, a, exp, rest, k), id)
  {
    SkippedAre(exp[..k], false);
    LeftLabelled(rest, exp[k + 1..], now, id);
  }

  lemma LeftLabelled(rest: seq<Expected>, back: seq<Expected>, now: Time, id: LabelSet)
    requires forall ea :: ea in rest || ea in back ==> ea.alert.labels == id
    ensures forall ea :: ea in Rebase(AddBack(rest, back), now) ==> ea.alert.labels == id
  {
    var left := AddBack(rest, back);
    SortedIn(rest + back);
    RebaseAt(left, now);
    forall ea | ea in Rebase(left, now) ensures ea.alert.labels == id {
      var i :| 0 <= i < |left| && Rebase(left, now)[i] == ea;
      assert left[i] in rest + back;
    }
  }

  /** Over any run the records stay justified. In particular the receiver never reports a label
      mismatch or a late alert: such alerts are filed as unexpected before they are compared. */
  lemma {:induction false} RunJustified(s: Series, id: LabelSet, events: seq<Event>)
    requires Justified(s, id)
    ensures Justified(Run(s, id, events), id)
  {
    if events == [] {
    } else {
      var before, e := events[..|events| - 1], events[|events| - 1];
      RunJustified(s, id, before);
      var t := Run(s, id, before);
      SweepJustified(t, id, e.now);
      if e.Request? && AlertsOf(e.batch, id) != [] {
        ReceiveJustified(Sweep(t, e.now), id, e.now, AlertsOf(e.batch, id)[0]);
      }
    }
  }

  /** What the final verdict asks of a series: no reception error, and nothing but resends left. */
  predicate Clean(s: Series) {
    && s.missed == [] && s.unexpected == [] && s.mismatches == []
    && forall ea :: ea in s.queue ==> ea.resend
  }

  lemma {:induction false} TagsCount(q: seq<Expected>, x: Expected)
    requires !x.resend
    ensures x in Tags(q) <==> x in q
  {
    if q == [] {
    } else {
      TagsCount(q[1..], x);
      assert q == [q[0]] + q[1..];
    }
  }

  /** A clean series accounts for every expectation that is no resend: it was matched exactly as
      often as it was expected, unless it was one that need not have come. */
  lemma CleanMeansMatched(queue: seq<Expected>, id: LabelSet, events: seq<Event>, x: Expected)
    requires forall ea :: ea in queue ==> ea.alert.labels == id
    requires Clean(Run(Fresh(queue), id, events))
    requires !x.resend
    ensures var s := Run(Fresh(queue), id, events);
      && Tags(queue)[x] == MatchedTags(s.matched)[x] + Tags(s.dropped)[x]
      && (!x.CanBeIgnored() ==> MatchedTags(s.matched)[x] == Tags(queue)[x])
      && Accounted(s) == MatchArrivals(s.matched) == Arrivals(id, events)
  {
    var s := Run(Fresh(queue), id, events);
    RunConserves(Fresh(queue), id, events);
    RunJustified(Fresh(queue), id, events);
    RunAccounts(Fresh(queue), id, events);
    TagsCount(s.queue, x);
    TagsCount(s.dropped, x);
    NothingElse(queue, s, x);
  }

  /** The sums, when nothing was missed, unexpected or mismatched. */
  lemma NothingElse(queue: seq<Expected>, s: Series, x: Expected)
    requires Tally(s) == Tally(Fresh(queue)) && s.missed == [] && s.unexpected == [] && s.mismatches == []
    requires x !in Tags(s.queue)
    ensures Tags(queue)[x] == MatchedTags(s.matched)[x] + Tags(s.dropped)[x]
    ensures Accounted(s) == MatchArrivals(s.matched) && Accounted(Fresh(queue)) == multiset{}
  {
    assert Tally(Fresh(queue)) == Tags(queue);
    assert Tags(s.missed) == multiset{};
    assert Tally(s)[x] == Tags(s.queue)[x] + MatchedTags(s.matched)[x] + Tags(s.missed)[x] + Tags(s.dropped)[x];
  }
}
