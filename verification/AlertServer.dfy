/** The alert receiver (server.go). Its request handler and its cleanup are proved to act on every
    label set exactly as Reception.Step does, whatever the order the maps are iterated in. */
module AlertServer {
  import opened Labels
  import opened ExpectedAlert
  import opened Reception
  import opened Conservation
  import opened Verdict
  import opened ServerState

  lemma {:induction false} SelectConcat(q: seq<Expected>, x: Expected, now: Time, f: set<Fate>)
    ensures Select(q + [x], now, f) == Select(q, now, f) + if FateOf(x, now) in f then [x] else []
  {
    if q != [] {
      assert (q + [x])[1..] == q[1..] + [x];
      SelectConcat(q[1..], x, now, f);
    } else {
      assert [x][1..] == [];
    }
  }

  lemma SelectNext(q: seq<Expected>, i: nat, now: Time)
    requires i < |q|
    ensures forall f ::
      Select(q[..i + 1], now, f) == Select(q[..i], now, f) + if FateOf(q[i], now) in f then [q[i]] else []
  {
    assert q[..i + 1] == q[..i] + [q[i]];
    forall f
      ensures Select(q[..i + 1], now, f) == Select(q[..i], now, f) + if FateOf(q[i], now) in f then [q[i]] else []
    {
      SelectConcat(q[..i], q[i], now, f);
    }
  }

  ghost predicate Hits(success: map<LabelSet, Expected>) {
    forall id :: id in success ==> ExpectedKey(success[id]) == id
  }

  class AlertsServer {
    var expectedAlerts: Queues
    var errs: ErrLog
    const disabled: bool

    // What the receiver did without keeping a record of it.
    ghost var matched: seq<Match>
    ghost var dropped: seq<Expected>

    ghost function Contents(): State
      reads this
    {
      State(expectedAlerts, errs, matched, dropped)
    }

    ghost predicate Valid()
      reads this
    {
      Labelled(expectedAlerts) && Filed(errs)
    }

    constructor (disabled: bool)
      ensures Valid() && this.disabled == disabled
      ensures Contents() == State(map[], map[], [], [])
    {
      this.disabled := disabled;
      expectedAlerts, errs := map[], map[];
      matched, dropped := [], [];
    }

    /** The errors of a group; an empty record is created on the first request for it. */
    method GetErr(rg: string) returns (ae: AllErrs)
      modifies this`errs
      ensures ae == Errs(old(errs), rg) && errs == old(errs)[rg := ae]
    {
      if rg !in errs {
        errs := errs[rg := NO_ERRS];
      }
      ae := errs[rg];
    }

    /** Looking up the errors of a group changes nothing that matters. */
    method TouchErr(rg: string)
      requires Valid()
      modifies this`errs
      ensures Valid() && forall id :: Contents().View(id) == old(Contents()).View(id)
    {
      ghost var s := Contents();
      var _ := GetErr(rg);
      TouchedFiled(s.errs, rg);
      forall id ensures Contents().View(id) == s.View(id) {
        TouchedView(s, rg, id);
      }
    }

    method AddMissedAlerts(missedAlerts: seq<Expected>)
      modifies this`errs
      ensures errs == RecordMissed(old(errs), missedAlerts)
    {
      var i := 0;
      while i < |missedAlerts|
        invariant 0 <= i <= |missedAlerts|
        invariant errs == RecordMissed(old(errs), missedAlerts[..i])
      {
        var sa := missedAlerts[i];
        assert missedAlerts[..i + 1][..i] == missedAlerts[..i];
        var rg := GroupOf(sa.alert.labels);
        var e := GetErr(rg);
        errs := errs[rg := e.(missedAlerts := e.missedAlerts + [sa])];
        i := i + 1;
      }
      assert missedAlerts[..i] == missedAlerts;
    }

    /** Queues the expectations, and sorts the queues that grew by OrderingID. */
    method AddExpectedAlerts(alerts: seq<Expected>)
      requires Valid()
      modifies this`expectedAlerts
      ensures Valid() && old(expectedAlerts.Keys) <= expectedAlerts.Keys
      ensures forall id ::
        Queue(expectedAlerts, id) == AddBack(Queue(old(expectedAlerts), id), Project(alerts, ExpectedKey, id))
    {
      ghost var was := expectedAlerts;
      var seen: set<LabelSet> := {};
      var i := 0;
      while i < |alerts|
        invariant 0 <= i <= |alerts|
        invariant seen + was.Keys <= expectedAlerts.Keys
        invariant Appended(expectedAlerts, was, alerts[..i])
        invariant SeenIn(seen, alerts[..i])
      {
        var id := alerts[i].alert.labels;
        AppendOne(expectedAlerts, was, alerts[..i], alerts[i]);
        SeenOne(seen, alerts[..i], alerts[i]);
        assert alerts[..i + 1] == alerts[..i] + [alerts[i]];
        expectedAlerts := expectedAlerts[id := Queue(expectedAlerts, id) + [alerts[i]]];
        seen := seen + {id};
        i := i + 1;
      }
      assert alerts[..i] == alerts;
      ghost var grown := expectedAlerts;
      var todo := seen;
      while todo != {}
        invariant todo <= seen <= expectedAlerts.Keys
        invariant SortedBut(expectedAlerts, grown, seen, todo)
        decreases todo
      {
        var id :| id in todo;
        expectedAlerts := expectedAlerts[id := Sorted(expectedAlerts[id])];
        todo := todo - {id};
      }
      forall id ensures Queue(expectedAlerts, id) == AddBack(Queue(was, id), Project(alerts, ExpectedKey, id)) {
        AddedBack(expectedAlerts, grown, was, seen, alerts, id);
      }
      AddedBackLabelled(expectedAlerts, was, alerts);
    }

    /** The loop over one queue that `getPossibleAlert` and `missedAlertCleanup` share; only the
        former collects the alerts that are due, and only for one label set. */
    static method SortOut(queue: seq<Expected>, now: Time, collect: bool)
      returns (kept: seq<Expected>, due: seq<Expected>, missed: seq<Expected>, ghost gone: seq<Expected>)
      ensures kept == Keep(queue, now, collect)
      ensures due == if collect then Select(queue, now, {Due}) else []
      ensures missed == Select(queue, now, {Overdue})
      ensures gone == Select(queue, now, {Ignored, Excused})
    {
      kept, due, missed, gone := [], [], [], [];
      var i := 0;
      while i < |queue|
        invariant 0 <= i <= |queue|
        invariant kept == Keep(queue[..i], now, collect)
        invariant due == if collect then Select(queue[..i], now, {Due}) else []
        invariant missed == Select(queue[..i], now, {Overdue})
        invariant gone == Select(queue[..i], now, {Ignored, Excused})
      {
        var ea := queue[i];
        SelectNext(queue, i, now);
        var tolerance := ea.timeTolerance + 2 * MAX_RTT;
        if ea.ShouldBeIgnored() {
          gone := gone + [ea];
        } else if ea.ts + tolerance < now {
          if !ea.CanBeIgnored() {
            missed := missed + [ea];
          } else {
            gone := gone + [ea];
          }
        } else if collect && ea.ts < now < ea.ts + tolerance {
          due := due + [ea];
        } else {
          kept := kept + [ea];
        }
        i := i + 1;
      }
      assert queue[..i] == queue;
    }

    /** The loop over all queues. */
    method SortOutQueues(now: Time, lbls: LabelSet, collect: bool)
      returns (alerts: seq<Expected>, missedAlerts: seq<Expected>, ghost gone: seq<Expected>)
      requires Labelled(expectedAlerts)
      modifies this`expectedAlerts
      ensures SweptBut(expectedAlerts, old(expectedAlerts), {}, now, lbls, collect)
      ensures alerts == if collect then Select(Queue(old(expectedAlerts), lbls), now, {Due}) else []
      ensures Collected(missedAlerts, old(expectedAlerts), {}, now, {Overdue})
      ensures Collected(gone, old(expectedAlerts), {}, now, {Ignored, Excused})
    {
      alerts, missedAlerts, gone := [], [], [];
      ghost var was := expectedAlerts;
      var todo := expectedAlerts.Keys;
      SweepStart(was, now, lbls, collect);
      while todo != {}
        invariant todo <= was.Keys == expectedAlerts.Keys
        invariant Sweeping(expectedAlerts, alerts, missedAlerts, gone, was, todo, now, lbls, collect)
        decreases todo
      {
        var id :| id in todo;
        SweepOne(expectedAlerts, alerts, missedAlerts, gone, was, todo, now, lbls, collect, id);
        var kept, due, missed, ignored := SortOut(expectedAlerts[id], now, collect && id == lbls);
        alerts := alerts + due;
        missedAlerts := missedAlerts + missed;
        gone := gone + ignored;
        expectedAlerts := expectedAlerts[id := kept];
        todo := todo - {id};
      }
    }

    method SweepQueues(now: Time, lbls: LabelSet, collect: bool) returns (alerts: seq<Expected>)
      requires Valid()
      modifies this`expectedAlerts, this`errs, this`dropped
      ensures Valid() && expectedAlerts.Keys == old(expectedAlerts.Keys)
      ensures alerts == if collect then Select(Queue(old(expectedAlerts), lbls), now, {Due}) else []
      ensures forall id :: Contents().View(id) == SweptSeries(old(Contents()).View(id), now, collect && id == lbls)
    {
      ghost var s := Contents();
      var missedAlerts;
      ghost var gone;
      alerts, missedAlerts, gone := SortOutQueues(now, lbls, collect);
      AddMissedAlerts(missedAlerts);
      dropped := dropped + gone;
      RecordMissedFiled(s.errs, missedAlerts);
      SweptLabelled(expectedAlerts, s.queues, now, lbls, collect);
      forall id ensures Contents().View(id) == SweptSeries(s.View(id), now, collect && id == lbls) {
        ViewSwept(s, expectedAlerts, missedAlerts, gone, now, lbls, collect, id);
      }
    }

    /** Takes the expectations of `lbls` that are due out of their queue, and sweeps all queues. */
    method GetPossibleAlert(now: Time, lbls: LabelSet) returns (alerts: seq<Expected>)
      requires Valid()
      modifies this`expectedAlerts, this`errs, this`dropped
      ensures Valid() && expectedAlerts.Keys == old(expectedAlerts.Keys)
      ensures alerts == Select(Queue(old(expectedAlerts), lbls), now, {Due})
      ensures forall id :: Contents().View(id) == SweptSeries(old(Contents()).View(id), now, id == lbls)
    {
      alerts := SweepQueues(now, lbls, true);
    }

    method MissedAlertCleanup(now: Time)
      requires Valid()
      modifies this`expectedAlerts, this`errs, this`dropped
      ensures Valid()
      ensures forall id :: Contents().View(id) == Step(old(Contents()).View(id), id, Cleanup(now))
    {
      var none := SweepQueues(now, [], false);
    }

    /** The loop over the candidates: the first that matches, else the first one's error. */
    static method FindMatch(exp: seq<Expected>, now: Time, al: Alert) returns (idx: nat, me: MatchResult)
      requires exp != []
      ensures idx == FirstMatch(exp, now, al)
      ensures me == if idx < |exp| then Matched else exp[0].Matches(now, al)
    {
      idx, me := 0, Matched;
      while idx < |exp|
        invariant idx <= |exp|
        invariant forall i :: 0 <= i < idx ==> exp[i].Matches(now, al) != Matched
        invariant me == if idx == 0 then Matched else exp[0].Matches(now, al)
      {
        var err := exp[idx].Matches(now, al);
        if err == Matched {
          me := Matched;
          FirstMatchIs(exp, now, al, idx);
          return;
        }
        if me == Matched {
          me := err;
        }
        idx := idx + 1;
      }
      FirstMatchIs(exp, now, al, idx);
    }

    /** Whether one skipped candidate is forgiven, and whether a resend was the last forgiven one. */
    static method SkipOne(ma: Expected, lastResendWasIgnored: bool) returns (missed: bool, last: bool)
      ensures missed == !Forgiven(ma, lastResendWasIgnored) && last == AfterSkip(ma, lastResendWasIgnored)
    {
      missed, last := false, lastResendWasIgnored;
      if !ma.CanBeIgnored() {
        if lastResendWasIgnored && ma.resend {
          return;
        }
        last := false;
        missed := true;
      } else {
        last := ma.resend;
      }
    }

    /** The loop over the candidates before the match. */
    static method SkipOver(exp: seq<Expected>) returns (missed: seq<Expected>, ghost forgiven: seq<Expected>)
      ensures missed == Skipped(exp, false, false) && forgiven == Skipped(exp, false, true)
    {
      var lastResendWasIgnored := false;
      missed, forgiven := [], [];
      var i := 0;
      while i < |exp|
        invariant 0 <= i <= |exp|
        invariant missed + Skipped(exp[i..], lastResendWasIgnored, false) == Skipped(exp, false, false)
        invariant forgiven + Skipped(exp[i..], lastResendWasIgnored, true) == Skipped(exp, false, true)
      {
        SkipStep(missed, exp, i, lastResendWasIgnored, false);
        SkipStep(forgiven, exp, i, lastResendWasIgnored, true);
        var lost, last := SkipOne(exp[i], lastResendWasIgnored);
        if lost {
          missed := missed + [exp[i]];
        } else {
          forgiven := forgiven + [exp[i]];
        }
        i, lastResendWasIgnored := i + 1, last;
      }
    }

    /** One alert of a request. The expectations to put back, those to record as missed, and the
        one that was hit, if any, are left for the end of the request. */
    method ReceiveOne(now: Time, al: Alert)
      returns (back: seq<Expected>, lost: seq<Expected>, hit: seq<Expected>)
      requires Valid()
      modifies this`expectedAlerts, this`errs, this`matched, this`dropped
      ensures Valid() && expectedAlerts.Keys == old(expectedAlerts.Keys)
      ensures |hit| <= 1 && AllOf(hit, al.labels) && (hit != [] ==> al.labels in expectedAlerts)
      ensures ReceivedOne(old(Contents()), Contents(), now, al, back, lost, hit != [])
    {
      var id := al.labels;
      ghost var s0 := Contents();
      var exp := GetPossibleAlert(now, id);
      TouchErr(GroupOf(id));
      ghost var s := Contents();
      assert AllOf(exp, id) && (exp != [] ==> id in expectedAlerts) by {
        SelectIn(Queue(s0.queues, id), now, {Due});
        assert exp != [] ==> exp[0] in exp;
      }
      assert forall i :: i != id ==> s.View(i) == Sweep(s0.View(i), now);
      if |exp| == 0 {
        AddUnexpected(Unexpected(now, al));
        SettlesUnexpected(s0.View(id), s.View(id), now, al);
        return [], [], [];
      }
      back, lost, hit := CompareAlert(now, al, exp, s0);
    }

    /** The candidates are compared with the alert. */
    method CompareAlert(now: Time, al: Alert, exp: seq<Expected>, ghost s0: State)
      returns (back: seq<Expected>, lost: seq<Expected>, hit: seq<Expected>)
      requires Valid() && exp != [] && AllOf(exp, al.labels)
      requires exp == Select(s0.View(al.labels).queue, now, {Due})
      requires Contents().View(al.labels) == SweptSeries(s0.View(al.labels), now, true)
      requires forall i :: i != al.labels ==> Contents().View(i) == Sweep(s0.View(i), now)
      modifies this`errs, this`matched, this`dropped
      ensures Valid() && |hit| <= 1 && AllOf(hit, al.labels)
      ensures ReceivedOne(s0, Contents(), now, al, back, lost, hit != [])
    {
      ghost var s := Contents();
      var idx, me := FindMatch(exp, now, al);
      if me == Matched {
        SettlesMatched(s0.View(al.labels), s.View(al.labels), now, al, exp, idx);
        back, lost, hit := TakeMatch(now, al, exp, idx);
      } else {
        SettlesMismatch(s0.View(al.labels), s.View(al.labels), now, al, exp);
        AddMatchingErr(Mismatch(now, exp[0], al, me.error));
        back, lost, hit := exp, [], [];
      }
    }

    /** The candidate `idx` is hit. */
    method TakeMatch(now: Time, al: Alert, exp: seq<Expected>, idx: nat)
      returns (back: seq<Expected>, lost: seq<Expected>, hit: seq<Expected>)
      requires idx < |exp| && AllOf(exp, al.labels)
      modifies this`matched, this`dropped
      ensures back == exp[idx + 1..] && lost == Skipped(exp[..idx], false, false) && hit == [exp[idx]]
      ensures AllOf(back, al.labels) && AllOf(lost, al.labels) && AllOf(hit, al.labels)
      ensures forall i :: i != al.labels ==> Contents().View(i) == old(Contents()).View(i)
      ensures var v := old(Contents()).View(al.labels);
        Contents().View(al.labels) == v.(matched := v.matched + [Match(now, exp[idx], al)],
                                         dropped := v.dropped + Skipped(exp[..idx], false, true))
    {
      ghost var forgiven;
      lost, forgiven := SkipOver(exp[..idx]);
      back, hit := exp[idx + 1..], [exp[idx]];
      SkippedAre(exp[..idx], false);
      assert exp[idx] in exp && AllOf(exp[..idx], al.labels);
      RecordMatch(Match(now, exp[idx], al), forgiven);
    }

    method AddUnexpected(u: Unexpected)
      requires Valid()
      modifies this`errs
      ensures Valid()
      ensures forall id :: id != UnexpectedKey(u) ==> Contents().View(id) == old(Contents()).View(id)
      ensures var v := old(Contents()).View(UnexpectedKey(u));
        Contents().View(UnexpectedKey(u)) == v.(unexpected := v.unexpected + [u])
    {
      ghost var s := Contents();
      var rg := GroupOf(u.alert.labels);
      var e := GetErr(rg);
      errs := errs[rg := e.(unexpectedAlerts := e.unexpectedAlerts + [u])];
      assert Contents() == s.(errs := RecordUnexpected(s.errs, u));
      RecordUnexpectedFiled(s.errs, u);
      forall id ensures id != UnexpectedKey(u) ==> Contents().View(id) == s.View(id) {
        ViewUnexpected(s, u, id);
      }
      ViewUnexpected(s, u, UnexpectedKey(u));
    }

    method AddMatchingErr(m: Mismatch)
      requires Valid()
      modifies this`errs
      ensures Valid()
      ensures forall id :: id != MismatchKey(m) ==> Contents().View(id) == old(Contents()).View(id)
      ensures var v := old(Contents()).View(MismatchKey(m));
        Contents().View(MismatchKey(m)) == v.(mismatches := v.mismatches + [m])
    {
      ghost var s := Contents();
      var rg := GroupOf(m.alert.labels);
      var e := GetErr(rg);
      errs := errs[rg := e.(matchingErrs := e.matchingErrs + [m])];
      assert Contents() == s.(errs := RecordMismatch(s.errs, m));
      RecordMismatchFiled(s.errs, m);
      forall id ensures id != MismatchKey(m) ==> Contents().View(id) == s.View(id) {
        ViewMismatch(s, m, id);
      }
      ViewMismatch(s, m, MismatchKey(m));
    }

    /** A match and what it forgives leave no trace but in the queue. */
    ghost method RecordMatch(m: Match, forgiven: seq<Expected>)
      requires forall ea :: ea in forgiven ==> ExpectedKey(ea) == MatchKey(m)
      modifies this`matched, this`dropped
      ensures forall id :: id != MatchKey(m) ==> Contents().View(id) == old(Contents()).View(id)
      ensures var v := old(Contents()).View(MatchKey(m));
        Contents().View(MatchKey(m)) == v.(matched := v.matched + [m], dropped := v.dropped + forgiven)
    {
      ghost var s := Contents();
      matched, dropped := matched + [m], dropped + forgiven;
      ghost var s' := s.(matched := s.matched + [m], dropped := s.dropped + forgiven);
      assert Contents() == s';
      forall id | id != MatchKey(m) ensures s'.View(id) == s.View(id) {
        ViewMatched(s, m, forgiven, id);
      }
      ViewMatched(s, m, forgiven, MatchKey(m));
    }

    /** The inner loop of rebasing: the leading resends of the queue of `sa`. */
    static method RebaseQueue(q: seq<Expected>, sa: Expected, now: Time) returns (r: seq<Expected>)
      requires AllOf(q, ExpectedKey(sa))
      ensures r == Rebase(q, now)
    {
      r := q;
      var i := 0;
      while i < |r|
        invariant 0 <= i <= |q| == |r|
        invariant forall j :: 0 <= j < i ==> q[j].resend && r[j] == q[j].(ts := now + (RESEND_DELAY - MAX_RTT))
        invariant forall j :: i <= j < |q| ==> r[j] == q[j]
      {
        assert q[i] in q;
        if r[i].alert.labels == sa.alert.labels {
          if !r[i].resend {
            RebaseIs(q, r, now, i);
            return;
          }
          r := r[i := r[i].(ts := now + (RESEND_DELAY - MAX_RTT))];
        }
        i := i + 1;
      }
      RebaseIs(q, r, now, i);
    }

    method RebaseQueues(success: map<LabelSet, Expected>, now: Time)
      requires Valid() && success.Keys <= expectedAlerts.Keys
      requires Hits(success)
      modifies this`expectedAlerts
      ensures Valid() && RebasedBut(expectedAlerts, old(expectedAlerts), success.Keys, {}, now)
    {
      ghost var was := expectedAlerts;
      var todo := success.Keys;
      while todo != {}
        invariant todo <= success.Keys <= expectedAlerts.Keys
        invariant RebasedBut(expectedAlerts, was, success.Keys, todo, now)
        decreases todo
      {
        var id :| id in todo;
        RebaseOne(expectedAlerts, was, success.Keys, todo, now, id);
        assert AllOf(expectedAlerts[id], id);
        var rebased := RebaseQueue(expectedAlerts[id], success[id], now);
        expectedAlerts := expectedAlerts[id := rebased];
        todo := todo - {id};
      }
      RebaseLabelled(expectedAlerts, was, success.Keys, now);
    }

    /** A request: every label set takes exactly one Reception.Step. */
    method ServeHTTP(now: Time, alerts: seq<Alert>)
      requires Valid()
      modifies this
      ensures Valid()
      ensures forall id :: Contents().View(id) == Step(old(Contents()).View(id), id, Request(now, alerts))
    {
      ghost var s0 := Contents();
      var addBack, missedAlerts, success := ReceiveAll(now, alerts);
      FinishRequest(now, addBack, missedAlerts, success, s0, alerts);
    }

    /** The loop over the alerts of a request. */
    method ReceiveAll(now: Time, alerts: seq<Alert>)
      returns (addBack: seq<Expected>, missedAlerts: seq<Expected>, success: map<LabelSet, Expected>)
      requires Valid()
      modifies this
      ensures Valid() && success.Keys <= expectedAlerts.Keys && Hits(success)
      ensures InProgress(Contents(), old(Contents()), now, alerts, addBack, missedAlerts, success.Keys)
    {
      addBack, missedAlerts, success := [], [], map[];
      var i := 0;
      ProgressStart(Contents(), now);
      TakeAll(alerts);
      while i < |alerts|
        invariant 0 <= i <= |alerts|
        invariant Valid() && success.Keys <= expectedAlerts.Keys && Hits(success)
        invariant InProgress(Contents(), old(Contents()), now, alerts[..i], addBack, missedAlerts, success.Keys)
      {
        addBack, missedAlerts, success := ReceiveNext(now, alerts, i, addBack, missedAlerts, success, old(Contents()));
        i := i + 1;
      }
    }

    method ReceiveNext(now: Time, alerts: seq<Alert>, i: nat, addBack: seq<Expected>, missedAlerts: seq<Expected>,
                       success: map<LabelSet, Expected>, ghost s0: State)
      returns (addBack': seq<Expected>, missedAlerts': seq<Expected>, success': map<LabelSet, Expected>)
      requires i < |alerts|
      requires Valid() && success.Keys <= expectedAlerts.Keys && Hits(success)
      requires InProgress(Contents(), s0, now, alerts[..i], addBack, missedAlerts, success.Keys)
      modifies this
      ensures Valid() && success'.Keys <= expectedAlerts.Keys && Hits(success')
      ensures InProgress(Contents(), s0, now, alerts[..i + 1], addBack', missedAlerts', success'.Keys)
    {
      ghost var s := Contents();
      var back, lost, hit := ReceiveOne(now, alerts[i]);
      TakeNext(alerts, i);
      ProgressStep(s, Contents(), s0, now, alerts[..i], alerts[i],
                   addBack, missedAlerts, success.Keys, back, lost, hit != []);
      addBack', missedAlerts' := addBack + back, missedAlerts + lost;
      success' := if hit != [] then success[alerts[i].labels := hit[0]] else success;
      assert success'.Keys == if hit != [] then success.Keys + {alerts[i].labels} else success.Keys;
    }

    /** The end of a request: put back, record, rebase. */
    method FinishRequest(now: Time, addBack: seq<Expected>, missedAlerts: seq<Expected>,
                         success: map<LabelSet, Expected>, ghost s0: State, ghost alerts: seq<Alert>)
      requires Valid() && success.Keys <= expectedAlerts.Keys
      requires Hits(success)
      requires InProgress(Contents(), s0, now, alerts, addBack, missedAlerts, success.Keys)
      modifies this`expectedAlerts, this`errs
      ensures Valid()
      ensures forall id :: Contents().View(id) == Step(s0.View(id), id, Request(now, alerts))
    {
      ghost var s := Contents();
      AddExpectedAlerts(addBack);
      ghost var added := expectedAlerts;
      AddMissedAlerts(missedAlerts);
      RecordMissedFiled(s.errs, missedAlerts);
      RebaseQueues(success, now);
      forall id ensures Contents().View(id) == Step(s0.View(id), id, Request(now, alerts)) {
        ProgressEnd(s, s0, Contents(), now, alerts, addBack, missedAlerts, success.Keys, added, id);
      }
    }

    /** Requests and cleanups, in the order in which they get hold of the state: over the whole run
        every label set takes exactly its Reception.Run. */
    method HandleAll(events: seq<Event>)
      requires Valid()
      modifies this
      ensures Valid()
      ensures forall id :: Contents().View(id) == Run(old(Contents()).View(id), id, events)
    {
      var i := 0;
      while i < |events|
        invariant 0 <= i <= |events| && Valid()
        invariant forall id :: Contents().View(id) == Run(old(Contents()).View(id), id, events[..i])
      {
        HandleNext(events, i, old(Contents()));
        i := i + 1;
      }
      assert events[..i] == events;
    }

    method HandleNext(events: seq<Event>, i: nat, ghost s0: State)
      requires Valid() && i < |events|
      requires forall id :: Contents().View(id) == Run(s0.View(id), id, events[..i])
      modifies this
      ensures Valid()
      ensures forall id :: Contents().View(id) == Run(s0.View(id), id, events[..i + 1])
    {
      ghost var s := Contents();
      match events[i] {
        case Request(now, batch) => ServeHTTP(now, batch);
        case Cleanup(now) => MissedAlertCleanup(now);
      }
      forall id ensures Contents().View(id) == Run(s0.View(id), id, events[..i + 1]) {
        RunNext(s0.View(id), id, events, i);
        assert Contents().View(id) == Step(s.View(id), id, events[i]);
      }
    }

    /** A group has an error on record exactly when a label set that names it has one. */
    lemma GroupsBlamed()
      requires Valid()
      ensures forall rg ::
        (rg in errs && errs[rg] != NO_ERRS <==> exists id :: Get(id, "rulegroup") == rg && Blamed(Contents().View(id)))
    {
      forall rg | rg in errs && errs[rg] != NO_ERRS
        ensures exists id :: Get(id, "rulegroup") == rg && Blamed(Contents().View(id))
      {
        var id := SomeoneBlamed(Contents(), rg);
      }
      forall id | Blamed(Contents().View(id))
        ensures var rg := Get(id, "rulegroup"); rg in errs && errs[rg] != NO_ERRS
      {
        GroupBlamed(Contents(), id);
      }
    }

    /** The groups that had any reception error. */
    method GroupsFacingErrors() returns (g: set<string>)
      requires Valid()
      ensures g == if disabled then {} else set rg | rg in errs && errs[rg] != NO_ERRS
      ensures !disabled ==>
        forall rg :: rg in g <==> exists id :: Get(id, "rulegroup") == rg && Blamed(Contents().View(id))
    {
      g := {};
      if disabled {
        return;
      }
      var todo := errs.Keys;
      while todo != {}
        invariant todo <= errs.Keys
        invariant g == set rg | rg in errs && rg !in todo && errs[rg] != NO_ERRS
        decreases todo
      {
        var rg :| rg in todo;
        var err := errs[rg];
        if |err.missedAlerts| + |err.unexpectedAlerts| + |err.matchingErrs| > 0 {
          g := g + {rg};
        }
        todo := todo - {rg};
      }
      GroupsBlamed();
    }

    /** What is still expected, but for resends. */
    method ExpectedAlertsError() returns (eae: Queues)
      requires Valid()
      ensures disabled ==> eae == map[]
      ensures !disabled ==> forall id :: Queue(eae, id) == Firsts(Queue(expectedAlerts, id))
      ensures forall id :: id in eae ==> eae[id] != []
    {
      eae := map[];
      if disabled {
        return;
      }
      var todo := expectedAlerts.Keys;
      while todo != {}
        invariant todo <= expectedAlerts.Keys
        invariant forall id :: Queue(eae, id) == if id in todo then [] else Firsts(Queue(expectedAlerts, id))
        invariant forall id :: id in eae ==> eae[id] != []
        decreases todo
      {
        var id :| id in todo;
        assert Queue(eae, id) == [];
        eae := AddFirsts(eae, id, expectedAlerts[id]);
        todo := todo - {id};
      }
    }

    /** The loop over one queue. */
    static method AddFirsts(eae: Queues, id: LabelSet, q: seq<Expected>) returns (eae': Queues)
      requires Queue(eae, id) == []
      requires forall i :: i in eae ==> eae[i] != []
      ensures Queue(eae', id) == Firsts(q)
      ensures forall i :: i != id ==> Queue(eae', i) == Queue(eae, i)
      ensures forall i :: i in eae' ==> eae'[i] != []
    {
      eae' := eae;
      var i := 0;
      while i < |q|
        invariant 0 <= i <= |q|
        invariant Queue(eae', id) == Firsts(q[..i])
        invariant forall i :: i != id ==> Queue(eae', i) == Queue(eae, i)
        invariant forall i :: i in eae' ==> eae'[i] != []
      {
        FirstsNext(q, i);
        if !q[i].resend {
          eae' := eae'[id := Queue(eae', id) + [q[i]]];
        }
        i := i + 1;
      }
      assert q[..i] == q;
    }
  }

  lemma RunNext(s: Series, id: LabelSet, events: seq<Event>, i: nat)
    requires i < |events|
    ensures Run(s, id, events[..i + 1]) == Step(Run(s, id, events[..i]), id, events[i])
  {
    assert events[..i + 1][..i] == events[..i];
  }

  lemma FirstsNext(q: seq<Expected>, i: nat)
    requires i < |q|
    ensures Firsts(q[..i + 1]) == if q[i].resend then Firsts(q[..i]) else Firsts(q[..i]) + [q[i]]
  {
    assert q[..i + 1][..i] == q[..i];
  }

  /** The expectations that are no resends. */
  function Firsts(q: seq<Expected>): seq<Expected> {
    if q == [] then [] else Firsts(q[..|q| - 1]) + if q[|q| - 1].resend then [] else [q[|q| - 1]]
  }
}
