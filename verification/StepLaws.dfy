/** What one request or cleanup does to a label set, expectation by expectation and by OrderingID. */
module StepLaws {
  import opened Labels
  import opened ExpectedAlert
  import opened Reception
  import opened Conservation
  import opened MatchOrder

  lemma NoAlertOf(batch: seq<Alert>, id: LabelSet)
    requires forall a :: a in batch ==> a.labels != id
    ensures AlertsOf(batch, id) == []
  {
    var als := AlertsOf(batch, id);
    assert forall i :: 0 <= i < |als| ==> als[i] in als;
  }

  /** A cleanup, or a request without an alert of the label set, settles exactly what is past its time. */
  lemma SweptExactly(s: Series, id: LabelSet, e: Event, x: Expected)
    requires e.Request? ==> e.batch != [] && forall a :: a in e.batch ==> a.labels != id
    ensures var r := Step(s, id, e);
      && (x in r.queue <==> x in s.queue && FateOf(x, e.now) in {Due, Waiting})
      && (x in r.missed <==> x in s.missed || (x in s.queue && FateOf(x, e.now) == Overdue))
      && (x in r.dropped <==> x in s.dropped || (x in s.queue && FateOf(x, e.now) in {Ignored, Excused}))
      && r.matched == s.matched && r.unexpected == s.unexpected && r.mismatches == s.mismatches
  {
    SelectIn(s.queue, e.now, {Due, Waiting});
    SelectIn(s.queue, e.now, {Overdue});
    SelectIn(s.queue, e.now, {Ignored, Excused});
    if e.Request? {
      NoAlertOf(e.batch, id);
    }
  }

  /** An empty request does nothing, whatever the time. */
  lemma EmptyRequest(s: Series, id: LabelSet, now: Time)
    ensures Step(s, id, Request(now, [])) == s
  {
  }

  /** The lowest expectation that is due, and matches `a` if `matching`. */
  ghost predicate Lowest(q: seq<Expected>, now: Time, a: Alert, matching: bool, x: Expected) {
    && Awaits(q, now, a, matching, x)
    && forall y :: Awaits(q, now, a, matching, y) ==> x.orderingID <= y.orderingID
  }

  predicate Awaits(q: seq<Expected>, now: Time, a: Alert, matching: bool, x: Expected) {
    x in q && FateOf(x, now) == Due && (matching ==> x.Matches(now, a) == Matched)
  }

  /** An alert is unexpected exactly when nothing is due. */
  lemma UnexpectedExactly(s: Series, now: Time, a: Alert)
    ensures var r := Receive(s, now, a);
      if forall y :: !Awaits(s.queue, now, a, false, y) then r == s.(unexpected := s.unexpected + [Unexpected(now, a)])
      else r.unexpected == s.unexpected
  {
    var exp := Select(s.queue, now, {Due});
    SelectIn(s.queue, now, {Due});
    if exp != [] {
      assert exp[0] in exp && Awaits(s.queue, now, a, false, exp[0]);
    }
  }

  /** It matches the lowest expectation that it can match. */
  lemma MatchesLowest(s: Series, now: Time, a: Alert, x: Expected)
    requires Ordered(s.queue) && Lowest(s.queue, now, a, true, x)
    ensures var r := Receive(s, now, a);
      r.matched == s.matched + [Match(now, x, a)] && r.unexpected == s.unexpected && r.mismatches == s.mismatches
  {
    var exp := Select(s.queue, now, {Due});
    SelectIn(s.queue, now, {Due});
    SelectOrdered(s.queue, now, {Due});
    assert x in exp;
    forall y | y in exp && y.Matches(now, a) == Matched ensures x.orderingID <= y.orderingID {
      assert Awaits(s.queue, now, a, true, y);
    }
    LowestFirst(exp, now, a, x);
  }

  /** When there is none it is held against the lowest one that is due. */
  lemma HeldAgainstLowest(s: Series, now: Time, a: Alert, x: Expected, error: MatchError)
    requires Ordered(s.queue) && Lowest(s.queue, now, a, false, x) && x.Matches(now, a) == Failed(error)
    requires forall y :: !Awaits(s.queue, now, a, true, y)
    ensures var r := Receive(s, now, a);
      && r.mismatches == s.mismatches + [Mismatch(now, x, a, error)]
      && r.matched == s.matched && r.unexpected == s.unexpected && r.missed == s.missed
  {
    var exp := Select(s.queue, now, {Due});
    SelectIn(s.queue, now, {Due});
    SelectOrdered(s.queue, now, {Due});
    assert x in exp;
    LowestDue(s.queue, exp, now, a, x);
  }

  /** The lowest that matches is the first that matches. */
  lemma LowestFirst(exp: seq<Expected>, now: Time, a: Alert, x: Expected)
    requires Ordered(exp) && x in exp && x.Matches(now, a) == Matched
    requires forall y :: y in exp && y.Matches(now, a) == Matched ==> x.orderingID <= y.orderingID
    ensures var k := FirstMatch(exp, now, a); k < |exp| && exp[k] == x
  {
    var i :| 0 <= i < |exp| && exp[i] == x;
    var k := FirstMatch(exp, now, a);
    assert k <= i && exp[k] in exp;
  }

  lemma LowestDue(q: seq<Expected>, exp: seq<Expected>, now: Time, a: Alert, x: Expected)
    requires exp == Select(q, now, {Due}) && Ordered(exp) && exp != []
    requires forall ea :: ea in exp <==> ea in q && FateOf(ea, now) in {Due}
    requires Lowest(q, now, a, false, x) && forall y :: !Awaits(q, now, a, true, y)
    ensures exp[0] == x && FirstMatch(exp, now, a) == |exp|
  {
    assert Awaits(q, now, a, false, exp[0]) && x in exp;
    var i :| 0 <= i < |exp| && exp[i] == x;
    forall j | 0 <= j < |exp| ensures exp[j].Matches(now, a) != Matched {
      assert exp[j] in exp && !Awaits(q, now, a, true, exp[j]);
    }
  }
}
