/** Nothing that was expected is ever lost, and nothing that was received goes uncounted. */
module Conservation {
  import opened Labels
  import opened ExpectedAlert
  import opened Reception

  /** An expectation up to what the receiver may rewrite, the `ts` of a resend. */
  function Tag(ea: Expected): Expected {
    if ea.resend then ea.(ts := 0) else ea
  }

  function Tags(q: seq<Expected>): multiset<Expected> {
    if q == [] then multiset{} else multiset{Tag(q[0])} + Tags(q[1..])
  }

  function MatchedTags(ms: seq<Match>): multiset<Expected> {
    if ms == [] then multiset{} else MatchedTags(ms[..|ms| - 1]) + multiset{Tag(ms[|ms| - 1].expected)}
  }

  /** Every expectation of the series, wherever it is now. */
  function Tally(s: Series): multiset<Expected> {
    Tags(s.queue) + MatchedTags(s.matched) + Tags(s.missed) + Tags(s.dropped)
  }

  lemma {:induction false} TagsConcat(a: seq<Expected>, b: seq<Expected>)
    ensures Tags(a + b) == Tags(a) + Tags(b)
  {
    if a == [] {
      assert a + b == b;
    } else {
      assert (a + b)[1..] == a[1..] + b;
      TagsConcat(a[1..], b);
    }
  }

  lemma {:induction false} TagsInsert(x: Expected, q: seq<Expected>)
    ensures Tags(Insert(x, q)) == multiset{Tag(x)} + Tags(q)
  {
    if q == [] {
    } else if x.orderingID < q[0].orderingID {
      assert ([x] + q)[1..] == q;
    } else {
      TagsInsert(x, q[1..]);
      var inserted := Insert(x, q);
      assert inserted[0] == q[0] && inserted[1..] == Insert(x, q[1..]);
      SwapFirst(multiset{Tag(q[0])}, multiset{Tag(x)}, Tags(q[1..]));
    }
  }

  lemma SwapFirst<T>(a: multiset<T>, b: multiset<T>, c: multiset<T>)
    ensures a + (b + c) == b + (a + c)
  {
  }

  lemma TagsLast(q: seq<Expected>)
    requires q != []
    ensures Tags(q) == multiset{Tag(q[|q| - 1])} + Tags(q[..|q| - 1])
  {
    var init, x := q[..|q| - 1], q[|q| - 1];
    assert q == init + [x] && [x][1..] == [];
    TagsConcat(init, [x]);
  }

  lemma TagsFirst(x: Expected, q: seq<Expected>)
    ensures Tags([x] + q) == multiset{Tag(x)} + Tags(q)
  {
    assert ([x] + q)[1..] == q;
  }

  lemma {:induction false} TagsSorted(q: seq<Expected>)
    ensures Tags(Sorted(q)) == Tags(q)
  {
    if q == [] {
    } else {
      TagsSorted(q[..|q| - 1]);
      TagsInsert(q[|q| - 1], Sorted(q[..|q| - 1]));
      TagsLast(q);
    }
  }

  lemma TagsAddBack(q: seq<Expected>, back: seq<Expected>)
    ensures Tags(AddBack(q, back)) == Tags(q) + Tags(back)
  {
    TagsSorted(q + back);
    TagsConcat(q, back);
  }

  lemma {:induction false} TagsRebase(q: seq<Expected>, now: Time)
    ensures Tags(Rebase(q, now)) == Tags(q)
  {
    if q == [] || !q[0].resend {
    } else {
      TagsRebase(q[1..], now);
      assert Rebase(q, now)[1..] == Rebase(q[1..], now);
    }
  }

  lemma {:induction false} TagsSelect(q: seq<Expected>, now: Time, f: set<Fate>, g: set<Fate>)
    requires f !! g
    ensures Tags(Select(q, now, f + g)) == Tags(Select(q, now, f)) + Tags(Select(q, now, g))
  {
    if q == [] {
    } else {
      TagsSelect(q[1..], now, f, g);
      var head := [q[0]];
      TagsConcat(if FateOf(q[0], now) in f then head else [], Select(q[1..], now, f));
      TagsConcat(if FateOf(q[0], now) in g then head else [], Select(q[1..], now, g));
      TagsConcat(if FateOf(q[0], now) in f + g then head else [], Select(q[1..], now, f + g));
    }
  }

  lemma {:induction false} SelectAll(q: seq<Expected>, now: Time)
    ensures Select(q, now, {Ignored, Excused} + ({Overdue} + {Due, Waiting})) == q
  {
    if q == [] {
    } else {
      SelectAll(q[1..], now);
    }
  }

  lemma {:induction false} TagsSkipped(exp: seq<Expected>, after: bool)
    ensures Tags(exp) == Tags(Skipped(exp, after, false)) + Tags(Skipped(exp, after, true))
  {
    if exp == [] {
    } else {
      var missed := Skipped(exp[1..], AfterSkip(exp[0], after), false);
      var forgiven := Skipped(exp[1..], AfterSkip(exp[0], after), true);
      TagsSkipped(exp[1..], AfterSkip(exp[0], after));
      TagsFirst(exp[0], missed);
      TagsFirst(exp[0], forgiven);
      SkippedNext(exp, after, missed, forgiven);
    }
  }

  lemma SkippedNext(exp: seq<Expected>, after: bool, missed: seq<Expected>, forgiven: seq<Expected>)
    requires exp != []
    requires missed == Skipped(exp[1..], AfterSkip(exp[0], after), false)
    requires forgiven == Skipped(exp[1..], AfterSkip(exp[0], after), true)
    ensures Skipped(exp, after, false) == if Forgiven(exp[0], after) then missed else [exp[0]] + missed
    ensures Skipped(exp, after, true) == if Forgiven(exp[0], after) then [exp[0]] + forgiven else forgiven
  {
  }

  lemma SweepConserves(s: Series, now: Time)
    ensures Tally(Sweep(s, now)) == Tally(s)
  {
    var kept, late := Select(s.queue, now, {Due, Waiting}), Select(s.queue, now, {Overdue});
    var gone := Select(s.queue, now, {Ignored, Excused});
    assert Tags(s.queue) == Tags(gone) + (Tags(late) + Tags(kept)) by {
      SelectAll(s.queue, now);
      TagsSelect(s.queue, now, {Ignored, Excused}, {Overdue} + {Due, Waiting});
      TagsSelect(s.queue, now, {Overdue}, {Due, Waiting});
    }
    TagsConcat(s.missed, late);
    TagsConcat(s.dropped, gone);
    SpreadOut(Tags(kept), Tags(late), Tags(gone), MatchedTags(s.matched), Tags(s.missed), Tags(s.dropped));
  }

  lemma SpreadOut<T>(kept: multiset<T>, late: multiset<T>, gone: multiset<T>,
                     matched: multiset<T>, missed: multiset<T>, dropped: multiset<T>)
    ensures kept + matched + (missed + late) + (dropped + gone) == (gone + (late + kept)) + matched + missed + dropped
  {
  }

  /** After a sweep only Due and Waiting expectations are queued. */
  predicate Swept(q: seq<Expected>, now: Time) {
    forall ea :: ea in q ==> FateOf(ea, now) in {Due, Waiting}
  }

  lemma {:induction false} SelectIn(q: seq<Expected>, now: Time, f: set<Fate>)
    ensures forall ea :: ea in Select(q, now, f) <==> ea in q && FateOf(ea, now) in f
  {
    if q == [] {
    } else {
      SelectIn(q[1..], now, f);
      assert q == [q[0]] + q[1..];
    }
  }

  lemma {:induction false} SelectSwept(q: seq<Expected>, now: Time)
    requires Swept(q, now)
    ensures Select(q, now, {Due} + {Waiting}) == q
  {
    if q == [] {
    } else {
      SelectSwept(q[1..], now);
      assert q[0] in q;
    }
  }

  lemma TagsSplit(exp: seq<Expected>, k: nat)
    requires k < |exp|
    ensures Tags(exp) == Tags(exp[..k]) + multiset{Tag(exp[k])} + Tags(exp[k + 1..])
  {
    assert exp == exp[..k] + exp[k..];
    TagsConcat(exp[..k], exp[k..]);
    assert exp[k..][1..] == exp[k + 1..];
  }

  lemma Regroup<T>(rest: multiset<T>, post: multiset<T>, x: multiset<T>, lost: multiset<T>, excused: multiset<T>,
                   matched: multiset<T>, missed: multiset<T>, dropped: multiset<T>)
    ensures (rest + post) + (matched + x) + (missed + lost) + (dropped + excused)
         == (((lost + excused) + x + post) + rest) + matched + missed + dropped
  {
  }

  lemma MatchConserves(s: Series, now: Time, a: Alert, exp: seq<Expected>, rest: seq<Expected>, k: nat)
    requires exp == Select(s.queue, now, {Due}) && rest == Select(s.queue, now, {Waiting})
    requires k == FirstMatch(exp, now, a) < |exp|
    requires Tags(s.queue) == Tags(exp) + Tags(rest)
    ensures Tally(Receive(s, now, a)) == Tally(s)
  {
    var missed, forgiven := Tags(Skipped(exp[..k], false, false)), Tags(Skipped(exp[..k], false, true));
    TagsSplit(exp, k);
    TagsSkipped(exp[..k], false);
    MatchTags(s, now, a, exp, rest, k);
    Regroup(Tags(rest), Tags(exp[k + 1..]), multiset{Tag(exp[k])}, missed, forgiven,
            MatchedTags(s.matched), Tags(s.missed), Tags(s.dropped));
    TallyOf(Receive(s, now, a), Tags(rest) + Tags(exp[k + 1..]), MatchedTags(s.matched) + multiset{Tag(exp[k])},
            Tags(s.missed) + missed, Tags(s.dropped) + forgiven);
  }

  /** Where a match puts everything. */
  lemma MatchTags(s: Series, now: Time, a: Alert, exp: seq<Expected>, rest: seq<Expected>, k: nat)
    requires k < |exp|
    ensures var r := MatchedAt(s, now, a, exp, rest, k);
      && Tags(r.queue) == Tags(rest) + Tags(exp[k + 1..])
      && MatchedTags(r.matched) == MatchedTags(s.matched) + multiset{Tag(exp[k])}
      && Tags(r.missed) == Tags(s.missed) + Tags(Skipped(exp[..k], false, false))
      && Tags(r.dropped) == Tags(s.dropped) + Tags(Skipped(exp[..k], false, true))
  {
    TagsAddBack(rest, exp[k + 1..]);
    TagsRebase(AddBack(rest, exp[k + 1..]), now);
    MatchedTagsNext(s.matched, Match(now, exp[k], a));
    TagsConcat(s.missed, Skipped(exp[..k], false, false));
    TagsConcat(s.dropped, Skipped(exp[..k], false, true));
  }

  lemma MatchedTagsNext(ms: seq<Match>, m: Match)
    ensures MatchedTags(ms + [m]) == MatchedTags(ms) + multiset{Tag(m.expected)}
  {
    assert (ms + [m])[..|ms + [m]| - 1] == ms;
  }

  lemma TallyOf(s: Series, queued: multiset<Expected>, matched: multiset<Expected>, missed: multiset<Expected>,
                dropped: multiset<Expected>)
    requires Tags(s.queue) == queued && MatchedTags(s.matched) == matched
    requires Tags(s.missed) == missed && Tags(s.dropped) == dropped
    ensures Tally(s) == queued + matched + missed + dropped
  {
  }

  lemma ReceiveConserves(s: Series, now: Time, a: Alert)
    requires Swept(s.queue, now)
    ensures Tally(Receive(s, now, a)) == Tally(s)
  {
    var exp := Select(s.queue, now, {Due});
    var rest := Select(s.queue, now, {Waiting});
    SelectSwept(s.queue, now);
    TagsSelect(s.queue, now, {Due}, {Waiting});
    var k := FirstMatch(exp, now, a);
    if exp == [] {
    } else if k < |exp| {
      MatchConserves(s, now, a, exp, rest, k);
    } else {
      TagsAddBack(rest, exp);
    }
  }

  lemma ServeConserves(s: Series, now: Time, als: seq<Alert>)
    ensures Tally(Serve(s, now, als)) == Tally(s)
  {
    SweepConserves(s, now);
    if als != [] {
      SelectIn(s.queue, now, {Due, Waiting});
      ReceiveConserves(Sweep(s, now), now, als[0]);
      var r := Receive(Sweep(s, now), now, als[0]);
      SameTally(r, r.unexpected + Duplicates(now, als[1..]));
    }
  }

  lemma SameTally(s: Series, us: seq<Unexpected>)
    ensures Tally(s.(unexpected := us)) == Tally(s)
  {
  }

  lemma StepConserves(s: Series, id: LabelSet, e: Event)
    ensures Tally(Step(s, id, e)) == Tally(s)
  {
    if e.Cleanup? {
      SweepConserves(s, e.now);
    } else if e.batch != [] {
      ServeConserves(s, e.now, AlertsOf(e.batch, id));
    }
  }

  /** Conservation: after any requests and cleanups at any times, each expectation is, as often
      as it was expected, in exactly one of still queued, matched, missed, or dropped. */
  lemma {:induction false} RunConserves(s: Series, id: LabelSet, events: seq<Event>)
    ensures Tally(Run(s, id, events)) == Tally(s)
  {
    if events == [] {
    } else {
      var before := events[..|events| - 1];
      RunConserves(s, id, before);
      StepConserves(Run(s, id, before), id, events[|events| - 1]);
    }
  }

  /** An alert of the series that arrived, with its time of arrival. */
  datatype Arrival = Arrival(now: Time, alert: Alert)

  function Arrived(now: Time, als: seq<Alert>): multiset<Arrival> {
    if als == [] then multiset{}
    else Arrived(now, als[..|als| - 1]) + multiset{Arrival(now, als[|als| - 1])}
  }

  function ArrivedIn(id: LabelSet, e: Event): multiset<Arrival> {
    if e.Request? then Arrived(e.now, AlertsOf(e.batch, id)) else multiset{}
  }

  function Arrivals(id: LabelSet, events: seq<Event>): multiset<Arrival> {
    if events == [] then multiset{} else
    Arrivals(id, events[..|events| - 1]) + ArrivedIn(id, events[|events| - 1])
  }

  function MatchArrivals(ms: seq<Match>): multiset<Arrival> {
    if ms == [] then multiset{} else
    MatchArrivals(ms[..|ms| - 1]) + multiset{Arrival(ms[|ms| - 1].now, ms[|ms| - 1].alert)}
  }

  function UnexpectedArrivals(us: seq<Unexpected>): multiset<Arrival> {
    if us == [] then multiset{} else
    UnexpectedArrivals(us[..|us| - 1]) + multiset{Arrival(us[|us| - 1].now, us[|us| - 1].alert)}
  }

  function MismatchArrivals(ms: seq<Mismatch>): multiset<Arrival> {
    if ms == [] then multiset{} else
    MismatchArrivals(ms[..|ms| - 1]) + multiset{Arrival(ms[|ms| - 1].now, ms[|ms| - 1].alert)}
  }

  /** What the receiver has on record about the alerts that arrived. */
  function Accounted(s: Series): multiset<Arrival> {
    MatchArrivals(s.matched) + UnexpectedArrivals(s.unexpected) + MismatchArrivals(s.mismatches)
  }

  lemma UnexpectedLast(us: seq<Unexpected>, u: Unexpected)
    ensures UnexpectedArrivals(us + [u]) == UnexpectedArrivals(us) + multiset{Arrival(u.now, u.alert)}
  {
    assert (us + [u])[..|us|] == us;
  }

  lemma {:induction false} DuplicatesAccounted(us: seq<Unexpected>, now: Time, als: seq<Alert>)
    ensures UnexpectedArrivals(us + Duplicates(now, als)) == UnexpectedArrivals(us) + Arrived(now, als)
  {
    if als == [] {
      assert us + Duplicates(now, als) == us;
    } else {
      var init, u := als[..|als| - 1], Unexpected(now, als[|als| - 1]);
      DuplicatesAccounted(us, now, init);
      assert us + Duplicates(now, als) == (us + Duplicates(now, init)) + [u];
      UnexpectedLast(us + Duplicates(now, init), u);
      AssociateBags(UnexpectedArrivals(us), Arrived(now, init), multiset{Arrival(now, als[|als| - 1])});
    }
  }

  lemma {:induction false} ArrivedFirst(now: Time, als: seq<Alert>)
    requires als != []
    ensures Arrived(now, als) == multiset{Arrival(now, als[0])} + Arrived(now, als[1..])
  {
    var init, tail, last := als[..|als| - 1], als[1..], als[|als| - 1];
    if init == [] {
      assert tail == [];
    } else {
      ArrivedFirst(now, init);
      assert tail[..|tail| - 1] == init[1..] && tail[|tail| - 1] == last;
      AssociateBags(multiset{Arrival(now, als[0])}, Arrived(now, init[1..]), multiset{Arrival(now, last)});
    }
  }

  lemma AssociateBags<T>(a: multiset<T>, b: multiset<T>, c: multiset<T>)
    ensures (a + b) + c == a + (b + c)
  {
  }

  lemma ReceiveAccounts(s: Series, now: Time, a: Alert)
    ensures Accounted(Receive(s, now, a)) == Accounted(s) + multiset{Arrival(now, a)}
  {
    var r := Receive(s, now, a);
    var exp := Select(s.queue, now, {Due});
    if exp == [] {
      assert r.unexpected[..|r.unexpected| - 1] == s.unexpected;
    } else if FirstMatch(exp, now, a) < |exp| {
      assert r.matched[..|r.matched| - 1] == s.matched;
    } else {
      assert r.mismatches[..|r.mismatches| - 1] == s.mismatches;
    }
  }

  lemma ServeAccounts(s: Series, now: Time, als: seq<Alert>)
    ensures Accounted(Serve(s, now, als)) == Accounted(s) + Arrived(now, als)
  {
    if als != [] {
      var r := Receive(Sweep(s, now), now, als[0]);
      ReceiveAccounts(Sweep(s, now), now, als[0]);
      DuplicatesAccounted(r.unexpected, now, als[1..]);
      ArrivedFirst(now, als);
      AddUp(MatchArrivals(r.matched), UnexpectedArrivals(r.unexpected), MismatchArrivals(r.mismatches),
            Accounted(s), multiset{Arrival(now, als[0])}, Arrived(now, als[1..]));
    }
  }

  lemma AddUp<T>(a: multiset<T>, b: multiset<T>, c: multiset<T>, s: multiset<T>, x: multiset<T>, rest: multiset<T>)
    requires a + b + c == s + x
    ensures a + (b + rest) + c == s + (x + rest)
  {
    assert a + (b + rest) + c == (a + b + c) + rest;
  }

  lemma StepAccounts(s: Series, id: LabelSet, e: Event)
    ensures Accounted(Step(s, id, e)) == Accounted(s) + ArrivedIn(id, e)
  {
    if e.Request? && e.batch != [] {
      ServeAccounts(s, e.now, AlertsOf(e.batch, id));
    }
  }

  /** Accounting: each alert that arrived is recorded exactly once, as a match,
      as unexpected, or as one matching error. */
  lemma {:induction false} RunAccounts(s: Series, id: LabelSet, events: seq<Event>)
    ensures Accounted(Run(s, id, events)) == Accounted(s) + Arrivals(id, events)
  {
    if events == [] {
    } else {
      var before, e := events[..|events| - 1], events[|events| - 1];
      RunAccounts(s, id, before);
      StepAccounts(Run(s, id, before), id, e);
    }
  }
}
