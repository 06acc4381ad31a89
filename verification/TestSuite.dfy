/** The verdict of the suite (testsuite.go): the loops that retire rule groups in any interleaving,
    and what a final "yes" says about the alerts that were expected. */
module TestSuite {
  import opened Labels
  import opened ExpectedAlert
  import opened Reception
  import opened Conservation
  import opened Verdict
  import opened MatchOrder
  import opened ForwardOrder
  import opened ServerState
  import opened AlertServer
  import opened CaseLabels
  import opened CaseTables

  /** What a loop decides about a group: over without an error, or failed. */
  datatype Outcome = Finished | Failing(error: string)

  datatype Status = Active | Retired(outcome: Outcome) | Torn

  /** One iteration of a loop ends in removing the groups it decided about. Between the decision
      and the removal any other loop may run, so nothing is assumed about the decision. */
  type Decision = map<string, Outcome>

  /** The groups still running, and the errors of those that failed. */
  datatype Groups = Groups(tests: map<string, int>, errors: map<string, seq<string>>)
  {
    function ErrorsOf(g: string): seq<string> {
      if g in errors then errors[g] else []
    }

    /** Where a group that was running initially stands; `Torn` would be two places at once,
        or several errors. */
    function StatusOf(g: string): Status {
      if g in tests then (if g in errors then Torn else Active)
      else if g !in errors then Retired(Finished)
      else if |errors[g]| == 1 then Retired(Failing(errors[g][0]))
      else Torn
    }

    predicate Fails(d: Decision, g: string) {
      g in tests && g in d && d[g].Failing?
    }

    /** Only groups that are still running are removed, and get an error. */
    function Remove(d: Decision): Groups {
      Groups(tests - d.Keys,
             map g | g in errors.Keys + d.Keys && (g in errors || Fails(d, g)) :: ErrorsAfter(d, g))
    }

    function ErrorsAfter(d: Decision, g: string): seq<string> {
      if Fails(d, g) then ErrorsOf(g) + [d[g].error] else ErrorsOf(g)
    }
  }

  function FirstDecision(ds: seq<Decision>, g: string): Status {
    if ds == [] then Active
    else if FirstDecision(ds[..|ds| - 1], g) != Active then FirstDecision(ds[..|ds| - 1], g)
    else if g in ds[|ds| - 1] then Retired(ds[|ds| - 1][g])
    else Active
  }

  /** The state of a fresh suite after the loops removed their decisions in this order. */
  function After(initial: map<string, int>, ds: seq<Decision>): Groups {
    if ds == [] then Groups(initial, map[]) else After(initial, ds[..|ds| - 1]).Remove(ds[|ds| - 1])
  }

  lemma RemoveOne(s: Groups, d: Decision, g: string)
    requires s.StatusOf(g) != Torn
    ensures s.Remove(d).StatusOf(g)
      == if s.StatusOf(g) == Active && g in d then Retired(d[g]) else s.StatusOf(g)
  {
  }

  /** In any interleaving each group is in exactly one place, with at most one error, and it is the
      first decision about it that sticks. No other group ever appears. */
  lemma {:induction false} FirstDecisionSticks(initial: map<string, int>, ds: seq<Decision>, g: string)
    ensures g in initial ==> After(initial, ds).StatusOf(g) == FirstDecision(ds, g) != Torn
    ensures g !in initial ==> g !in After(initial, ds).tests && g !in After(initial, ds).errors
  {
    if ds == [] {
    } else {
      var before := ds[..|ds| - 1];
      FirstDecisionSticks(initial, before, g);
      if g in initial {
        RemoveOne(After(initial, before), ds[|ds| - 1], g);
      }
    }
  }

  /** What happens to the suite while it runs: one iteration of a loop ends, a loop looks whether the
      test is over (and then stops it), or someone stops it from outside. */
  datatype Act = Removal(decision: Decision) | Look | Interrupt

  function Decisions(acts: seq<Act>): seq<Decision> {
    if acts == [] then [] else
    var last := acts[|acts| - 1];
    Decisions(acts[..|acts| - 1]) + if last.Removal? then [last.decision] else []
  }

  /** Whether the suite is stopped after these acts. */
  function StoppedBy(initial: map<string, int>, acts: seq<Act>): bool {
    acts != [] &&
      var before, last := acts[..|acts| - 1], acts[|acts| - 1];
      || StoppedBy(initial, before)
      || last.Interrupt?
      || (last.Look? && After(initial, Decisions(before)).tests == map[])
  }

  predicate NeverFails(initial: map<string, int>, ds: seq<Decision>) {
    forall g :: g in initial ==> FirstDecision(ds, g) in {Active, Retired(Finished)}
  }

  /** No group has an error exactly when no first decision about a group was an error. */
  lemma NoErrors(initial: map<string, int>, ds: seq<Decision>)
    ensures After(initial, ds).errors == map[] <==> NeverFails(initial, ds)
  {
    var s := After(initial, ds);
    forall g | g in initial ensures s.StatusOf(g) == FirstDecision(ds, g) != Torn {
      FirstDecisionSticks(initial, ds, g);
    }
    if NeverFails(initial, ds) {
      forall g ensures g !in s.errors {
        FirstDecisionSticks(initial, ds, g);
        assert g in initial ==> FirstDecision(ds, g) in {Active, Retired(Finished)};
      }
    }
  }

  /** Some loop decided about the group. */
  ghost predicate Decided(ds: seq<Decision>, g: string) {
    exists k :: 0 <= k < |ds| && g in ds[k]
  }

  lemma {:induction false} DecidedFirst(ds: seq<Decision>, g: string)
    ensures FirstDecision(ds, g) != Active <==> Decided(ds, g)
  {
    if ds == [] {
    } else {
      var before := ds[..|ds| - 1];
      DecidedFirst(before, g);
      assert forall k :: 0 <= k < |before| ==> before[k] == ds[k];
    }
  }

  /** The groups are all over exactly when there was a decision about each. */
  lemma OverExactly(initial: map<string, int>, ds: seq<Decision>)
    ensures After(initial, ds).tests == map[] <==> forall g :: g in initial ==> Decided(ds, g)
  {
    forall g ensures g in After(initial, ds).tests <==> g in initial && !Decided(ds, g) {
      FirstDecisionSticks(initial, ds, g);
      DecidedFirst(ds, g);
    }
  }

  /** `ds[k]` is the first decision about `g`. */
  ghost predicate FirstAbout(ds: seq<Decision>, g: string, k: nat) {
    k < |ds| && g in ds[k] && forall j :: 0 <= j < k ==> g !in ds[j]
  }

  /** A group runs until the first decision about it, and has that decision's error, if it is one, and no
      other. */
  lemma {:induction false} GroupExactly(initial: map<string, int>, ds: seq<Decision>, g: string)
    requires g in initial
    ensures g in After(initial, ds).tests <==> forall k :: 0 <= k < |ds| ==> g !in ds[k]
    ensures g in After(initial, ds).errors <==> exists k: nat :: FirstAbout(ds, g, k) && ds[k][g].Failing?
    ensures forall k: nat :: FirstAbout(ds, g, k) && ds[k][g].Failing? ==>
      g in After(initial, ds).errors && After(initial, ds).errors[g] == [ds[k][g].error]
  {
    if ds == [] {
    } else {
      var before, last := ds[..|ds| - 1], |ds| - 1;
      GroupExactly(initial, before, g);
      RemoveErrors(After(initial, before), ds[last], g);
      forall k: nat ensures FirstAbout(ds, g, k) <==>
        FirstAbout(before, g, k) || (k == last && g in ds[last] && g in After(initial, before).tests)
      {
        assert forall j :: 0 <= j < last ==> before[j] == ds[j];
      }
      assert forall k: nat :: FirstAbout(before, g, k) ==> before[k] == ds[k] && g !in After(initial, before).tests;
      if g in ds[last] && g in After(initial, before).tests {
        assert FirstAbout(ds, g, last);
      }
    }
  }

  lemma AfterAppend(initial: map<string, int>, ds: seq<Decision>, d: Decision)
    ensures After(initial, ds + [d]) == After(initial, ds).Remove(d)
  {
    var all := ds + [d];
    assert all[..|all| - 1] == ds && all[|all| - 1] == d;
  }

  lemma DecisionsNext(acts: seq<Act>, act: Act, next: seq<Act>)
    requires next != [] && next[..|next| - 1] == acts && next[|next| - 1] == act
    ensures Decisions(next) == if act.Removal? then Decisions(acts) + [act.decision] else Decisions(acts)
  {
  }

  lemma AfterNext(initial: map<string, int>, acts: seq<Act>, act: Act, next: seq<Act>)
    requires next != [] && next[..|next| - 1] == acts && next[|next| - 1] == act
    ensures act.Removal? ==> After(initial, Decisions(next)) == After(initial, Decisions(acts)).Remove(act.decision)
    ensures !act.Removal? ==> Decisions(next) == Decisions(acts)
  {
    DecisionsNext(acts, act, next);
    if act.Removal? {
      AfterAppend(initial, Decisions(acts), act.decision);
    }
  }

  lemma DecidedLater(ds: seq<Decision>, d: Decision, g: string)
    requires Decided(ds, g)
    ensures Decided(ds + [d], g)
  {
    var k :| 0 <= k < |ds| && g in ds[k];
    assert (ds + [d])[k] == ds[k];
  }

  /** Unless someone stops it from outside, a stopped suite has decided about every group. */
  lemma {:induction false} StoppedIsOver(initial: map<string, int>, acts: seq<Act>)
    requires StoppedBy(initial, acts) && Interrupt !in acts
    ensures forall g :: g in initial ==> Decided(Decisions(acts), g)
  {
    var before, last := acts[..|acts| - 1], acts[|acts| - 1];
    if StoppedBy(initial, before) {
      StoppedIsOver(initial, before);
      DecisionsNext(before, last, acts);
      forall g | g in initial ensures Decided(Decisions(acts), g) {
        assert Decided(Decisions(before), g);
        if last.Removal? {
          DecidedLater(Decisions(before), last.decision, g);
        }
      }
    } else {
      OverExactly(initial, Decisions(before));
      DecisionsNext(before, last, acts);
    }
  }

  lemma RemoveNone(s: Groups)
    ensures s.Remove(map[]) == s
  {
    assert s.Remove(map[]).errors == s.errors;
  }

  lemma RemoveNext(s: Groups, d: Decision, gn: string, err: Outcome)
    requires gn !in d
    ensures var r := s.Remove(d);
      s.Remove(d[gn := err]) ==
        if gn !in r.tests then r
        else if err.Finished? then Groups(r.tests - {gn}, r.errors)
        else Groups(r.tests - {gn}, r.errors[gn := r.ErrorsOf(gn) + [err.error]])
  {
    var r, r' := s.Remove(d), s.Remove(d[gn := err]);
    assert r'.tests == r.tests - {gn};
    ErrorsNext(s, d, gn, err);
  }

  lemma ErrorsNext(s: Groups, d: Decision, gn: string, err: Outcome)
    requires gn !in d
    ensures var r := s.Remove(d);
      s.Remove(d[gn := err]).errors ==
        if gn in r.tests && err.Failing? then r.errors[gn := r.ErrorsOf(gn) + [err.error]] else r.errors
  {
    var r, r' := s.Remove(d), s.Remove(d[gn := err]);
    var next := if gn in r.tests && err.Failing? then r.errors[gn := r.ErrorsOf(gn) + [err.error]] else r.errors;
    forall g ensures (g in r'.errors <==> g in next) && (g in r'.errors && g in next ==> r'.errors[g] == next[g]) {
      ErrorsNextAt(s, d, gn, err, g);
    }
    SameErrors(r'.errors, next);
  }

  lemma RemoveErrors(s: Groups, d: Decision, g: string)
    ensures g in s.Remove(d).errors <==> g in s.errors || s.Fails(d, g)
    ensures g in s.Remove(d).errors ==> s.Remove(d).errors[g] == s.ErrorsAfter(d, g)
  {
  }

  lemma ErrorsNextAt(s: Groups, d: Decision, gn: string, err: Outcome, g: string)
    requires gn !in d
    ensures var r, r' := s.Remove(d), s.Remove(d[gn := err]);
      var fails := gn in r.tests && err.Failing?;
      && (g in r'.errors <==> g in r.errors || (fails && g == gn))
      && (g in r'.errors ==> r'.errors[g] == if fails && g == gn then r.ErrorsOf(gn) + [err.error] else r.errors[g])
  {
    RemoveErrors(s, d, g);
    RemoveErrors(s, d[gn := err], g);
  }

  lemma SameErrors(a: map<string, seq<string>>, b: map<string, seq<string>>)
    requires forall g :: g in a <==> g in b
    requires forall g :: g in a && g in b ==> a[g] == b[g]
    ensures a == b
  {
  }

  ghost predicate AllClean(s: State) {
    forall id :: Clean(s.View(id))
  }

  /** No group has an error on record, and no first notification is outstanding. */
  lemma QuietIsClean(s: State)
    requires Filed(s.errs)
    ensures AllClean(s) <==>
      && (forall rg :: rg in s.errs ==> s.errs[rg] == NO_ERRS)
      && (forall id :: Firsts(Queue(s.queues, id)) == [])
  {
    if AllClean(s) {
      forall rg | rg in s.errs ensures s.errs[rg] == NO_ERRS {
        if s.errs[rg] != NO_ERRS {
          var id := SomeoneBlamed(s, rg);
          assert false;
        }
      }
      forall id ensures Firsts(Queue(s.queues, id)) == [] {
        assert Clean(s.View(id));
        FirstsAre(Queue(s.queues, id));
      }
    }
    if (forall rg :: rg in s.errs ==> s.errs[rg] == NO_ERRS) && (forall id :: Firsts(Queue(s.queues, id)) == []) {
      forall id ensures Clean(s.View(id)) {
        FirstsAre(Queue(s.queues, id));
        assert Errs(s.errs, GroupOf(id)) == NO_ERRS;
      }
    }
  }

  lemma {:induction false} FirstsAre(q: seq<Expected>)
    ensures Firsts(q) == [] <==> forall ea :: ea in q ==> ea.resend
  {
    if q == [] {
    } else {
      FirstsAre(q[..|q| - 1]);
      assert q == q[..|q| - 1] + [q[|q| - 1]];
    }
  }

  class TestSuite {
    var ruleGroupTests: map<string, int>  // Group name -> TestUntil.
    var ruleGroupTestErrors: map<string, seq<string>>
    var stopped: bool
    const server: AlertsServer

    ghost function Contents(): Groups
      reads this
    {
      Groups(ruleGroupTests, ruleGroupTestErrors)
    }

    constructor (tests: map<string, int>, server: AlertsServer)
      ensures Contents() == Groups(tests, map[]) && this.server == server && !stopped
    {
      ruleGroupTests, ruleGroupTestErrors := tests, map[];
      stopped := false;
      this.server := server;
    }

    /** The body of the three API loops: groups whose time is up are over, those whose check
        failed (`failures`) are not. */
    method CheckGroups(nowTs: int, failures: map<string, string>) returns (groupsToRemove: Decision)
      ensures groupsToRemove == map g | g in ruleGroupTests && (ruleGroupTests[g] < nowTs || g in failures)
        :: if ruleGroupTests[g] < nowTs then Finished else Failing(failures[g])
    {
      groupsToRemove := map[];
      var todo := ruleGroupTests.Keys;
      while todo != {}
        invariant todo <= ruleGroupTests.Keys
        invariant groupsToRemove ==
          map g | g in ruleGroupTests && g !in todo && (ruleGroupTests[g] < nowTs || g in failures)
          :: if ruleGroupTests[g] < nowTs then Finished else Failing(failures[g])
        decreases todo
      {
        var groupName :| groupName in todo;
        if ruleGroupTests[groupName] < nowTs {
          groupsToRemove := groupsToRemove[groupName := Finished];
        } else if groupName in failures {
          groupsToRemove := groupsToRemove[groupName := Failing(failures[groupName])];
        }
        todo := todo - {groupName};
      }
    }

    /** The body of the loop that watches the alert receiver. */
    method MonitorAlertReception(nowTs: int) returns (groupsToRemove: Decision)
      requires server.Valid()
      ensures forall g :: g in ruleGroupTests && ruleGroupTests[g] < nowTs ==>
        g in groupsToRemove && groupsToRemove[g] == Finished
      ensures forall g :: !(g in ruleGroupTests && ruleGroupTests[g] < nowTs) ==>
        && (g in groupsToRemove <==> (!server.disabled && g in server.errs && server.errs[g] != NO_ERRS))
        && (g in groupsToRemove ==> groupsToRemove[g] == Failing("error in alert reception"))
      ensures !server.disabled ==> forall c: Case, id :: id in LabelsOf(c) && Blamed(server.Contents().View(id)) ==>
        GroupIn(c) in groupsToRemove
        && (NotOver(ruleGroupTests, GroupIn(c), nowTs) ==> groupsToRemove[GroupIn(c)].Failing?)
      ensures forall g :: g in groupsToRemove && groupsToRemove[g].Failing? ==>
        exists id :: Get(id, "rulegroup") == g && Blamed(server.Contents().View(id))
    {
      var facing := server.GroupsFacingErrors();
      groupsToRemove := FailingOrOver(facing, nowTs);
      CasesBlamed(server.Contents(), facing, ruleGroupTests, nowTs, groupsToRemove, server.disabled);
    }

    /** Groups with an error, overridden by those whose time is up. */
    method FailingOrOver(facing: set<string>, nowTs: int) returns (groupsToRemove: Decision)
      ensures groupsToRemove.Keys == facing + set g | g in ruleGroupTests && ruleGroupTests[g] < nowTs
      ensures forall g :: g in groupsToRemove ==>
        groupsToRemove[g] == if g in ruleGroupTests && ruleGroupTests[g] < nowTs then Finished
                             else Failing("error in alert reception")
    {
      groupsToRemove := map g | g in facing :: Failing("error in alert reception");
      var todo := ruleGroupTests.Keys;
      while todo != {}
        invariant todo <= ruleGroupTests.Keys
        invariant groupsToRemove.Keys
          == facing + set g | g in ruleGroupTests && g !in todo && ruleGroupTests[g] < nowTs
        invariant forall g :: g in groupsToRemove ==>
          groupsToRemove[g] == if g in ruleGroupTests && g !in todo && ruleGroupTests[g] < nowTs then Finished
                               else Failing("error in alert reception")
        decreases todo
      {
        var groupName :| groupName in todo;
        if ruleGroupTests[groupName] < nowTs {
          groupsToRemove := groupsToRemove[groupName := Finished];
        }
        todo := todo - {groupName};
      }
    }

    method RemoveGroups(groupsToRemove: Decision)
      modifies this`ruleGroupTests, this`ruleGroupTestErrors
      ensures Contents() == old(Contents()).Remove(groupsToRemove)
    {
      var todo := groupsToRemove.Keys;
      ghost var done: Decision := map[];
      ghost var s := Contents();
      RemoveNone(s);
      while todo != {}
        invariant todo <= groupsToRemove.Keys && done.Keys == groupsToRemove.Keys - todo
        invariant forall g :: g in done ==> done[g] == groupsToRemove[g]
        invariant Contents() == s.Remove(done)
        decreases todo
      {
        var gn :| gn in todo;
        var err := groupsToRemove[gn];
        todo := todo - {gn};
        RemoveNext(s, done, gn, err);
        done := done[gn := err];
        if gn in ruleGroupTests {
          ruleGroupTests := ruleGroupTests - {gn};
          if err.Failing? {
            var errs := if gn in ruleGroupTestErrors then ruleGroupTestErrors[gn] else [];
            ruleGroupTestErrors := ruleGroupTestErrors[gn := errs + [err.error]];
          }
        }
      }
      assert done == groupsToRemove;
    }

    method IsOver() returns (over: bool)
      ensures over <==> ruleGroupTests == map[]
    {
      over := |ruleGroupTests| == 0;
    }

    method Stop()
      modifies this`stopped
      ensures stopped
    {
      stopped := true;
    }

    /** One act of a loop, or from outside. */
    method Perform(act: Act)
      modifies this`ruleGroupTests, this`ruleGroupTestErrors, this`stopped
      ensures Contents() == if act.Removal? then old(Contents()).Remove(act.decision) else old(Contents())
      ensures stopped <==> old(stopped) || act.Interrupt? || (act.Look? && old(ruleGroupTests) == map[])
    {
      match act
      case Removal(decision) => RemoveGroups(decision);
      case Look =>
        var over := IsOver();
        if over {
          Stop();
        }
      case Interrupt => Stop();
    }

    /** All the loops of a run, one act after the other, in whatever interleaving. An iteration that
        was under way when the suite was stopped may still end. */
    method RunLoops(ghost initial: map<string, int>, acts: seq<Act>)
      requires Contents() == Groups(initial, map[]) && !stopped
      modifies this`ruleGroupTests, this`ruleGroupTestErrors, this`stopped
      ensures Contents() == After(initial, Decisions(acts)) && stopped == StoppedBy(initial, acts)
    {
      var i := 0;
      while i < |acts|
        invariant 0 <= i <= |acts|
        invariant Contents() == After(initial, Decisions(acts[..i])) && stopped == StoppedBy(initial, acts[..i])
      {
        ghost var next := acts[..i + 1];
        assert next[..|next| - 1] == acts[..i] && next[|next| - 1] == acts[i];
        Perform(acts[i]);
        assert Contents() == After(initial, Decisions(next)) by {
          AfterNext(initial, acts[..i], acts[i], next);
        }
        i := i + 1;
      }
      assert acts[..i] == acts;
    }

    /** The final verdict: "yes" exactly when the test is over, no group failed, and, unless the
        receiver is disabled, the records of every label set are clean. An error that was received
        for a group counts whatever the loops decided about that group. */
    method WasTestSuccessful() returns (yes: bool)
      requires server.Valid()
      ensures yes <==>
        && stopped && ruleGroupTestErrors == map[]
        && (server.disabled || AllClean(server.Contents()))
    {
      if !stopped {
        return false;
      }
      var groupsFacingErrors := server.GroupsFacingErrors();
      var expectedAlertsError := server.ExpectedAlertsError();
      yes := |ruleGroupTestErrors| == 0 && |groupsFacingErrors| == 0 && |expectedAlertsError| == 0;
      if !server.disabled {
        QuietIsClean(server.Contents());
        NoneExpected(expectedAlertsError, server.expectedAlerts);
        NoneFacing(groupsFacingErrors, server.errs);
      }
    }
  }

  lemma NoneFacing(facing: set<string>, errs: ErrLog)
    requires facing == set rg | rg in errs && errs[rg] != NO_ERRS
    ensures |facing| == 0 <==> forall rg :: rg in errs ==> errs[rg] == NO_ERRS
  {
    if |facing| == 0 {
      forall rg | rg in errs ensures errs[rg] == NO_ERRS {
        assert rg !in facing;
      }
    }
  }

  lemma NoneExpected(eae: Queues, queues: Queues)
    requires forall id :: Queue(eae, id) == Firsts(Queue(queues, id))
    requires forall id :: id in eae ==> eae[id] != []
    ensures eae == map[] <==> forall id :: Firsts(Queue(queues, id)) == []
  {
    if eae == map[] {
      forall id ensures Firsts(Queue(queues, id)) == [] {
        assert Queue(eae, id) == [];
      }
    }
    if forall id :: Firsts(Queue(queues, id)) == [] {
      forall id ensures id !in eae {
        assert Queue(eae, id) == [];
      }
    }
  }

  /** What the receiver has on record only grows: once an error, always an error. */
  lemma {:induction false} RecordsGrow(s: Series, id: LabelSet, events: seq<Event>)
    ensures var r := Run(s, id, events);
      s.missed <= r.missed && s.unexpected <= r.unexpected && s.mismatches <= r.mismatches
  {
    if events == [] {
    } else {
      RecordsGrow(s, id, events[..|events| - 1]);
    }
  }

  /** What a clean series of a well-made table means: each expectation that is no resend
      was matched exactly once, in the order of the table. */
  lemma CleanTable(queue: seq<Expected>, id: LabelSet, events: seq<Event>, x: Expected)
    requires Good(queue) && AllOf(queue, id)
    requires Clean(Run(Fresh(queue), id, events))
    requires x in queue && !x.resend
    ensures MatchedTags(Run(Fresh(queue), id, events).matched)[x] == 1
  {
    CleanMeansMatched(queue, id, events, x);
    OnlyOnce(queue, x);
  }

  lemma {:induction false} OnlyOnce(q: seq<Expected>, x: Expected)
    requires Ordered(q) && !x.resend
    ensures Tags(q)[x] == if x in q then 1 else 0
  {
    if q == [] {
    } else {
      OnlyOnce(q[1..], x);
      assert q == [q[0]] + q[1..];
      forall j | 0 <= j < |q[1..]| ensures q[1..][j] != q[0] {
        assert q[0].orderingID < q[j + 1].orderingID;
      }
    }
  }

  // ---- the whole suite

  datatype Case = PfrTest | OrderTest | ZeroTest | PrTest

  /** The rule group of a case. */
  function GroupIn(c: Case): string {
    match c
    case PfrTest => "PendingAndFiringAndResolved"
    case OrderTest => "NewAlerts_OrderCheck"
    case ZeroTest => "ZeroFor_SmallFor"
    case PrTest => "PendingAndResolved_AlwaysInactive"
  }

  /** What the loop that watches the receiver decides, case by case. */
  lemma CasesBlamed(s: State, facing: set<string>, tests: map<string, int>, nowTs: int, d: Decision, disabled: bool)
    requires if disabled then facing == {} else
      forall rg :: rg in facing <==> exists id :: Get(id, "rulegroup") == rg && Blamed(s.View(id))
    requires d.Keys == facing + set g | g in tests && tests[g] < nowTs
    requires forall g :: g in d ==>
      d[g] == if g in tests && tests[g] < nowTs then Finished else Failing("error in alert reception")
    ensures !disabled ==> forall c: Case, id :: id in LabelsOf(c) && Blamed(s.View(id)) ==>
      GroupIn(c) in d && (NotOver(tests, GroupIn(c), nowTs) ==> d[GroupIn(c)].Failing?)
    ensures forall g :: g in d && d[g].Failing? ==> exists id :: Get(id, "rulegroup") == g && Blamed(s.View(id))
  {
    GroupsOfCases();
  }

  /** The group's test is not over. */
  predicate NotOver(tests: map<string, int>, g: string, nowTs: int) {
    g in tests ==> nowTs <= tests[g]
  }

  lemma GroupAt(id: LabelSet, k: nat, g: string)
    requires k < |id| && id[k] == Label("rulegroup", g) && forall i :: 0 <= i < k ==> id[i].name != "rulegroup"
    ensures Get(id, "rulegroup") == g
  {
    if k > 0 {
      assert id[1..][k - 1] == id[k];
      GroupAt(id[1..], k - 1, g);
    }
  }

  lemma OtherNames()
    ensures "alertname" != "rulegroup" && "foo" != "rulegroup" && "ba_dum" != "rulegroup" && "alertstate" != "rulegroup"
  {
    assert "alertname"[0] != "rulegroup"[0] && "foo"[0] != "rulegroup"[0] && "ba_dum"[0] != "rulegroup"[0];
    assert "alertstate"[0] != "rulegroup"[0];
  }

  lemma GroupsOfOrder()
    ensures forall id :: id in LabelsOf(OrderTest) ==> Get(id, "rulegroup") == GroupIn(OrderTest)
  {
    OtherNames();
    GroupAt(ORDER.r11, 2, GroupIn(OrderTest));
    GroupAt(ORDER.r12, 2, GroupIn(OrderTest));
    GroupAt(ORDER.r2, 4, GroupIn(OrderTest));
  }

  lemma GroupsOfZero()
    ensures forall id :: id in LabelsOf(ZeroTest) ==> Get(id, "rulegroup") == GroupIn(ZeroTest)
  {
    OtherNames();
    GroupAt(ZERO.zf, 2, GroupIn(ZeroTest));
    GroupAt(ZERO.sf, 2, GroupIn(ZeroTest));
  }

  lemma GroupsOfPfr()
    ensures forall id :: id in LabelsOf(PfrTest) ==> Get(id, "rulegroup") == GroupIn(PfrTest)
  {
    OtherNames();
    GroupAt(PFR.labels, 2, GroupIn(PfrTest));
  }

  /** Each alert names the group of its case. */
  lemma GroupsOfCases()
    ensures forall c, id :: id in LabelsOf(c) ==> Get(id, "rulegroup") == GroupIn(c)
  {
    forall c, id | id in LabelsOf(c) ensures Get(id, "rulegroup") == GroupIn(c) {
      match c
      case PfrTest => GroupsOfPfr();
      case OrderTest => GroupsOfOrder();
      case ZeroTest => GroupsOfZero();
      case PrTest =>
    }
  }

  function TableOf(c: Case, z: Time): seq<Expected> {
    match c
    case PfrTest => PfrTable(PFR, z)
    case OrderTest => OrderTable(ORDER, z)
    case ZeroTest => ZeroTable(ZERO, z)
    case PrTest => []
  }

  function LabelsOf(c: Case): set<LabelSet> {
    match c
    case PfrTest => {PFR.labels}
    case OrderTest => {ORDER.r11, ORDER.r12, ORDER.r2}
    case ZeroTest => {ZERO.zf, ZERO.sf}
    case PrTest => {}
  }

  /** The case an alert belongs to; no table mentions the labels of the others. */
  function OwnerOf(id: LabelSet): Case {
    if id in LabelsOf(PfrTest) then PfrTest
    else if id in LabelsOf(OrderTest) then OrderTest
    else if id in LabelsOf(ZeroTest) then ZeroTest
    else PrTest
  }

  lemma OwnerIs(c: Case, id: LabelSet)
    requires id in LabelsOf(c)
    ensures OwnerOf(id) == c
  {
    GroupsDiffer();
  }

  /** A table mentions the label sets of its own case only. */
  lemma TableMentions(c: Case, z: Time, id: LabelSet)
    requires ZERO_TIME <= z
    ensures id !in LabelsOf(c) ==> Project(TableOf(c, z), ExpectedKey, id) == []
  {
    match c
    case PfrTest =>
      if id !in LabelsOf(c) {
        NoneOf(PfrBlocks(PFR, z), 1, PFR.labels, id);
      }
    case OrderTest =>
      OrderDistinct();
      if id !in LabelsOf(c) {
        OrderMentions(ORDER, z, id);
      }
    case ZeroTest =>
      if id !in LabelsOf(c) {
        ZeroMentions(ZERO, z, id);
      }
    case PrTest =>
  }

  lemma NoneOf(blocks: seq<Block>, firstID: int, labels: LabelSet, id: LabelSet)
    requires (forall k :: 0 <= k < |blocks| ==> blocks[k].alert.labels == labels) && id != labels
    ensures Project(Chain(blocks, firstID, 1), ExpectedKey, id) == []
  {
    ChainAllOf(blocks, firstID, 1, labels);
    ProjectUniform(Chain(blocks, firstID, 1), ExpectedKey, id, labels);
  }

  lemma OrderMentions(tc: OrderCase, z: Time, id: LabelSet)
    requires tc.Distinct() && id !in {tc.r11, tc.r12, tc.r2}
    ensures Project(OrderTable(tc, z), ExpectedKey, id) == []
  {
    var r12, r2 := LaterBlocks(tc.r12, tc.r1Annotations, z), LaterBlocks(tc.r2, tc.r2Annotations, z);
    NoneOf(R11Blocks(tc, z), 1, tc.r11, id);
    LaterMentions(tc, z, 1 + Total(R11Blocks(tc, z)), id);
    NeitherPart(Chain(R11Blocks(tc, z), 1, 1), LaterTable(r12, r2, 1 + Total(R11Blocks(tc, z))), id);
  }

  lemma NeitherPart(a: seq<Expected>, b: seq<Expected>, id: LabelSet)
    requires Project(a, ExpectedKey, id) == [] && Project(b, ExpectedKey, id) == []
    ensures Project(a + b, ExpectedKey, id) == []
  {
    ProjectConcat(a, b, ExpectedKey, id);
  }

  lemma LaterMentions(tc: OrderCase, z: Time, firstID: int, id: LabelSet)
    requires tc.Distinct() && id !in {tc.r12, tc.r2}
    ensures var r12, r2 := LaterBlocks(tc.r12, tc.r1Annotations, z), LaterBlocks(tc.r2, tc.r2Annotations, z);
      Project(LaterTable(r12, r2, firstID), ExpectedKey, id) == []
  {
    var r12, r2 := LaterBlocks(tc.r12, tc.r1Annotations, z), LaterBlocks(tc.r2, tc.r2Annotations, z);
    LaterProject(r12, r2, firstID, tc.r12, tc.r2, id);
  }

  lemma ZeroMentions(tc: ZeroCase, z: Time, id: LabelSet)
    requires id !in {tc.zf, tc.sf}
    ensures Project(ZeroTable(tc, z), ExpectedKey, id) == []
  {
    var next := 1 + Total(ZfBlocks(tc, z));
    NoneOf(ZfBlocks(tc, z), 1, tc.zf, id);
    NoneOf(SfBlocks(tc, z), next, tc.sf, id);
    NeitherPart(Chain(ZfBlocks(tc, z), 1, 1), Chain(SfBlocks(tc, z), next, 1), id);
  }

  /** The queue of a label set once the tables of the cases were added. */
  function SuiteQueue(cases: set<Case>, z: Time, id: LabelSet): seq<Expected> {
    if OwnerOf(id) in cases then QueueFrom(TableOf(OwnerOf(id), z), id) else []
  }

  lemma SuiteQueueNext(cases: set<Case>, c: Case, z: Time, id: LabelSet)
    requires ZERO_TIME <= z && c !in cases
    ensures SuiteQueue(cases + {c}, z, id)
      == AddBack(SuiteQueue(cases, z, id), Project(TableOf(c, z), ExpectedKey, id))
  {
    if id in LabelsOf(c) {
      OwnerIs(c, id);
    } else {
      TableMentions(c, z, id);
    }
  }

  /** Hands the tables of all the cases to the receiver, in whatever order. */
  method AddAllExpectedAlerts(server: AlertsServer, cases: set<Case>, z: Time)
    requires ZERO_TIME <= z && server.Valid() && server.expectedAlerts == map[]
    modifies server`expectedAlerts
    ensures server.Valid() && forall id :: Queue(server.expectedAlerts, id) == SuiteQueue(cases, z, id)
  {
    var todo := cases;
    while todo != {}
      invariant todo <= cases && server.Valid()
      invariant forall id :: Queue(server.expectedAlerts, id) == SuiteQueue(cases - todo, z, id)
      decreases todo
    {
      var c :| c in todo;
      ghost var done, before := cases - todo, server.expectedAlerts;
      var table := ExpectedAlerts(c, z);
      server.AddExpectedAlerts(table);
      todo := todo - {c};
      assert cases - todo == done + {c};
      forall id ensures Queue(server.expectedAlerts, id) == SuiteQueue(cases - todo, z, id) {
        SuiteQueueNext(done, c, z, id);
        assert Queue(before, id) == SuiteQueue(done, z, id);
      }
    }
    assert cases - todo == cases;
  }

  method ExpectedAlerts(c: Case, z: Time) returns (exp: seq<Expected>)
    ensures exp == TableOf(c, z)
  {
    match c
    case PfrTest => exp := PfrExpectedAlerts(PFR, z);
    case OrderTest => exp := OrderExpectedAlerts(ORDER, z);
    case ZeroTest => exp := ZeroExpectedAlerts(ZERO, z);
    case PrTest => exp := [];
  }

  lemma TableGood(c: Case, z: Time, id: LabelSet)
    requires ZERO_TIME <= z
    ensures Good(QueueFrom(TableOf(c, z), id))
  {
    match c
    case PfrTest => PfrGood(PFR, z, id);
    case OrderTest =>
      OrderDistinct();
      OrderGood(ORDER, z, id);
    case ZeroTest =>
      ZeroDistinct();
      ZeroGood(ZERO, z, id);
    case PrTest => GoodEmpty();
  }

  lemma QueueOfLabels(table: seq<Expected>, id: LabelSet)
    ensures AllOf(QueueFrom(table, id), id)
  {
    var q := Project(table, ExpectedKey, id);
    ProjectIn(table, ExpectedKey, id);
    SortedIn([] + q);
  }

  lemma SuiteGood(cases: set<Case>, z: Time, id: LabelSet)
    requires ZERO_TIME <= z
    ensures Good(SuiteQueue(cases, z, id)) && AllOf(SuiteQueue(cases, z, id), id)
  {
    GoodEmpty();
    forall c: Case ensures Good(QueueFrom(TableOf(c, z), id)) && AllOf(QueueFrom(TableOf(c, z), id), id) {
      TableGood(c, z, id);
      QueueOfLabels(TableOf(c, z), id);
    }
  }

  /** The verdict on the suite's own tables. Whatever alerts arrive and whenever, matches come in the
      order of the table, unless the clock runs back behind an arrival at a deadline; and if the
      records of a label set are clean, each expectation that is no resend was matched exactly once. */
  lemma SuiteVerdict(cases: set<Case>, z: Time, id: LabelSet, events: seq<Event>)
    requires ZERO_TIME <= z
    ensures var q := SuiteQueue(cases, z, id);
      var r := Run(Fresh(q), id, events);
      && (NeverBack(Fresh(q), id, events) ==> MatchesRise(r))
      && (Clean(r) ==> forall x :: x in q && !x.resend ==> MatchedTags(r.matched)[x] == 1)
  {
    var q := SuiteQueue(cases, z, id);
    SuiteGood(cases, z, id);
    if NeverBack(Fresh(q), id, events) {
      RunRising(Fresh(q), id, events, GROUP_INTERVAL);
    }
    if Clean(Run(Fresh(q), id, events)) {
      forall x | x in q && !x.resend ensures MatchedTags(Run(Fresh(q), id, events).matched)[x] == 1 {
        CleanTable(q, id, events, x);
      }
    }
  }

  /** With a clock that does not run backwards the order holds for every label set, arrivals at
      deadlines or not. */
  lemma SuiteInOrder(cases: set<Case>, z: Time, id: LabelSet, events: seq<Event>)
    requires ZERO_TIME <= z && Forward(events)
    ensures MatchesRise(Run(Fresh(SuiteQueue(cases, z, id)), id, events))
  {
    ForwardNeverBack(Fresh(SuiteQueue(cases, z, id)), id, events);
    SuiteVerdict(cases, z, id, events);
  }

  lemma FreshView(queues: Queues, id: LabelSet)
    ensures State(queues, map[], [], []).View(id) == Fresh(Queue(queues, id))
  {
  }

  /** The receiver after all requests and cleanups of a run. */
  method ReceiveAll(cases: set<Case>, z: Time, events: seq<Event>) returns (server: AlertsServer)
    requires ZERO_TIME <= z
    ensures fresh(server) && server.Valid() && !server.disabled
    ensures Received(server.Contents(), cases, z, events)
  {
    server := new AlertsServer(false);
    AddAllExpectedAlerts(server, cases, z);
    ghost var queues := server.expectedAlerts;
    assert server.Contents() == State(queues, map[], [], []);
    server.HandleAll(events);
    forall id ensures server.Contents().View(id) == Run(Fresh(SuiteQueue(cases, z, id)), id, events) {
      FreshView(queues, id);
    }
  }

  /** Every label set is where its run ends. */
  ghost predicate Received(s: State, cases: set<Case>, z: Time, events: seq<Event>) {
    forall id :: s.View(id) == Run(Fresh(SuiteQueue(cases, z, id)), id, events)
  }

  ghost predicate SuiteClean(cases: set<Case>, z: Time, events: seq<Event>) {
    forall id :: Clean(Run(Fresh(SuiteQueue(cases, z, id)), id, events))
  }

  /** Each first notification of every table was matched exactly once. */
  ghost predicate AllMatchedOnce(cases: set<Case>, z: Time, events: seq<Event>) {
    forall id, x :: x in SuiteQueue(cases, z, id) && !x.resend ==>
      MatchedTags(Run(Fresh(SuiteQueue(cases, z, id)), id, events).matched)[x] == 1
  }

  lemma CleanViews(s: State, cases: set<Case>, z: Time, events: seq<Event>)
    requires Received(s, cases, z, events)
    ensures AllClean(s) <==> SuiteClean(cases, z, events)
  {
    if SuiteClean(cases, z, events) {
      forall id ensures Clean(s.View(id)) {
        assert Clean(Run(Fresh(SuiteQueue(cases, z, id)), id, events));
      }
    }
    if AllClean(s) {
      forall id ensures Clean(Run(Fresh(SuiteQueue(cases, z, id)), id, events)) {
        assert s.View(id) == Run(Fresh(SuiteQueue(cases, z, id)), id, events);
      }
    }
  }

  lemma CleanMatchedOnce(cases: set<Case>, z: Time, events: seq<Event>)
    requires ZERO_TIME <= z && SuiteClean(cases, z, events)
    ensures AllMatchedOnce(cases, z, events)
  {
    forall id, x | x in SuiteQueue(cases, z, id) && !x.resend
      ensures MatchedTags(Run(Fresh(SuiteQueue(cases, z, id)), id, events).matched)[x] == 1
    {
      SuiteVerdict(cases, z, id, events);
    }
  }

  /** What the final "yes" of a run means. */
  ghost predicate Successful(tests: map<string, int>, cases: set<Case>, z: Time, events: seq<Event>, acts: seq<Act>) {
    && StoppedBy(tests, acts)
    && NeverFails(tests, Decisions(acts))
    && SuiteClean(cases, z, events)
  }

  /** A whole run of the suite: the tables are queued, requests and cleanups arrive, the loops remove
      the groups they decided about until one finds that all are over or the suite is stopped from
      outside, and the verdict is asked for. It is "yes" exactly when the suite was stopped, no
      group's first decision was an error and every label set is clean. Then each first
      notification of every table was matched exactly once; and every group is over exactly
      when some loop decided about it, which is certain unless someone stopped the suite. */
  method RunSuite(tests: map<string, int>, cases: set<Case>, z: Time, events: seq<Event>, acts: seq<Act>)
    returns (yes: bool)
    requires ZERO_TIME <= z
    ensures yes <==> Successful(tests, cases, z, events, acts)
    ensures yes ==> AllMatchedOnce(cases, z, events)
    ensures yes && Interrupt !in acts ==>
      forall g :: g in tests ==> FirstDecision(Decisions(acts), g) == Retired(Finished)
  {
    var server := ReceiveAll(cases, z, events);
    var suite := new TestSuite(tests, server);
    suite.RunLoops(tests, acts);
    CleanViews(server.Contents(), cases, z, events);
    NoErrors(tests, Decisions(acts));
    yes := suite.WasTestSuccessful();
    if yes {
      CleanMatchedOnce(cases, z, events);
      if Interrupt !in acts {
        StoppedIsOver(tests, acts);
        AllFinished(tests, Decisions(acts));
      }
    }
  }

  lemma AllFinished(tests: map<string, int>, ds: seq<Decision>)
    requires NeverFails(tests, ds) && forall g :: g in tests ==> Decided(ds, g)
    ensures forall g :: g in tests ==> FirstDecision(ds, g) == Retired(Finished)
  {
    forall g | g in tests ensures FirstDecision(ds, g) == Retired(Finished) {
      DecidedFirst(ds, g);
    }
  }

  /** Stopped from outside before any loop decided, the suite of the case that expects no alerts is
      successful while its group is still running. */
  lemma StoppedEarly(testUntil: int, z: Time)
    ensures var tests, acts := map[PR_GROUP := testUntil], [Interrupt];
      && Successful(tests, {PrTest}, z, [], acts)
      && After(tests, Decisions(acts)).StatusOf(PR_GROUP) == Active
  {
    var tests, acts := map[PR_GROUP := testUntil], [Interrupt];
    InterruptOnly(tests);
    NothingExpected(z);
  }

  lemma InterruptOnly(tests: map<string, int>)
    ensures StoppedBy(tests, [Interrupt]) && Decisions([Interrupt]) == []
  {
    assert [Interrupt][..0] == [] && Decisions([]) == [];
  }

  lemma NothingExpected(z: Time)
    ensures SuiteClean({PrTest}, z, [])
  {
    forall id ensures Clean(Run(Fresh(SuiteQueue({PrTest}, z, id)), id, [])) {
      assert SuiteQueue({PrTest}, z, id) == [];
    }
  }

  lemma {:induction false} RunSplit(s: Series, id: LabelSet, a: seq<Event>, b: seq<Event>)
    ensures Run(s, id, a + b) == Run(Run(s, id, a), id, b)
  {
    if b == [] {
      assert a + b == a;
    } else {
      assert (a + b)[..|a + b| - 1] == a + b[..|b| - 1];
      RunSplit(s, id, a, b[..|b| - 1]);
    }
  }

  /** Once an alert was missed, was unexpected or did not match, the verdict is not "yes" any more,
      whatever happens later and whatever the loops decided or will decide about its group. */
  lemma ErrorIsFinal(tests: map<string, int>, cases: set<Case>, z: Time, acts: seq<Act>,
                     id: LabelSet, before: seq<Event>, later: seq<Event>)
    requires var r := Run(Fresh(SuiteQueue(cases, z, id)), id, before);
      r.missed != [] || r.unexpected != [] || r.mismatches != []
    ensures !Successful(tests, cases, z, before + later, acts)
  {
    var s := Fresh(SuiteQueue(cases, z, id));
    RunSplit(s, id, before, later);
    RecordsGrow(Run(s, id, before), id, later);
    assert !Clean(Run(s, id, before + later));
  }
}
