/** The data of the alert receiver as values: queues by label set, error logs by rule group,
    and how they divide into the series of Reception.dfy. */
module ServerState {
  import opened Labels
  import opened Sequences
  import opened ExpectedAlert
  import opened Reception
  import opened Conservation
  import opened Verdict

  datatype AllErrs = AllErrs(
    missedAlerts: seq<Expected>,
    unexpectedAlerts: seq<Unexpected>,
    matchingErrs: seq<Mismatch>)

  const NO_ERRS: AllErrs := AllErrs([], [], [])

  type Queues = map<LabelSet, seq<Expected>>
  type ErrLog = map<string, AllErrs>

  function GroupOf(id: LabelSet): string {
    Get(id, "rulegroup")
  }

  function Queue(queues: Queues, id: LabelSet): seq<Expected> {
    if id in queues then queues[id] else []
  }

  function Errs(errs: ErrLog, rg: string): AllErrs {
    if rg in errs then errs[rg] else NO_ERRS
  }

  function ExpectedKey(ea: Expected): LabelSet { ea.alert.labels }
  function MatchKey(m: Match): LabelSet { m.expected.alert.labels }
  function UnexpectedKey(u: Unexpected): LabelSet { u.alert.labels }
  function MismatchKey(m: Mismatch): LabelSet { m.alert.labels }

  /** The entries of a log that concern label set `id`, in their order. */
  function Project<T>(log: seq<T>, key: T -> LabelSet, id: LabelSet): seq<T> {
    if log == [] then [] else
    Project(log[..|log| - 1], key, id) + if key(log[|log| - 1]) == id then [log[|log| - 1]] else []
  }

  lemma ProjectOne<T>(log: seq<T>, x: T, key: T -> LabelSet, id: LabelSet)
    ensures Project(log + [x], key, id) == Project(log, key, id) + if key(x) == id then [x] else []
  {
    assert (log + [x])[..|log|] == log;
  }

  lemma {:induction false} ProjectConcat<T>(a: seq<T>, b: seq<T>, key: T -> LabelSet, id: LabelSet)
    ensures Project(a + b, key, id) == Project(a, key, id) + Project(b, key, id)
  {
    if b == [] {
      assert a + b == a;
    } else {
      var last := |b| - 1;
      ProjectConcat(a, b[..last], key, id);
      ProjectOne(a + b[..last], b[last], key, id);
      assert a + b == a + b[..last] + [b[last]];
    }
  }

  lemma {:induction false} ProjectUniform<T>(log: seq<T>, key: T -> LabelSet, id: LabelSet, of: LabelSet)
    requires forall x :: x in log ==> key(x) == of
    ensures Project(log, key, id) == if id == of then log else []
  {
    if log == [] {
    } else {
      var init, last := log[..|log| - 1], log[|log| - 1];
      assert last in log && log == init + [last];
      ProjectUniform(init, key, id, of);
    }
  }

  lemma {:induction false} ProjectIn<T>(log: seq<T>, key: T -> LabelSet, id: LabelSet)
    ensures forall x :: x in Project(log, key, id) <==> x in log && key(x) == id
  {
    if log == [] {
    } else {
      ProjectIn(log[..|log| - 1], key, id);
      assert log == log[..|log| - 1] + [log[|log| - 1]];
    }
  }

  /** Appending entries of label set `of` to a log. */
  lemma ProjectMore<T>(log: seq<T>, more: seq<T>, key: T -> LabelSet, of: LabelSet, id: LabelSet)
    requires forall x :: x in more ==> key(x) == of
    ensures Project(log + more, key, id) == if id == of then Project(log, key, id) + more else Project(log, key, id)
  {
    ProjectConcat(log, more, key, id);
    ProjectUniform(more, key, id, of);
  }

  /** The whole state of the receiver; `matched` and `dropped` are what it keeps no record of. */
  datatype State = State(queues: Queues, errs: ErrLog, matched: seq<Match>, dropped: seq<Expected>)
  {
    /** Everything about one label set. */
    function View(id: LabelSet): Series {
      var e := Errs(errs, GroupOf(id));
      Series(Queue(queues, id),
             Project(matched, MatchKey, id),
             Project(e.missedAlerts, ExpectedKey, id),
             Project(dropped, ExpectedKey, id),
             Project(e.unexpectedAlerts, UnexpectedKey, id),
             Project(e.matchingErrs, MismatchKey, id))
    }
  }

  ghost predicate AllOf(q: seq<Expected>, id: LabelSet) {
    forall ea :: ea in q ==> ExpectedKey(ea) == id
  }

  /** Every expectation is queued under its own label set. */
  ghost predicate Labelled(queues: Queues) {
    forall id, ea :: id in queues && ea in queues[id] ==> ExpectedKey(ea) == id
  }

  /** Every error is logged under the group its labels name. */
  ghost predicate Filed(errs: ErrLog) {
    forall rg :: rg in errs ==> FiledUnder(errs[rg], rg)
  }

  ghost predicate FiledUnder(e: AllErrs, rg: string) {
    && (forall ea :: ea in e.missedAlerts ==> GroupOf(ea.alert.labels) == rg)
    && (forall u :: u in e.unexpectedAlerts ==> GroupOf(u.alert.labels) == rg)
    && (forall m :: m in e.matchingErrs ==> GroupOf(m.alert.labels) == rg)
  }

  /** Something was missed, was unexpected or did not match. */
  predicate Blamed(s: Series) {
    s.missed != [] || s.unexpected != [] || s.mismatches != []
  }

  lemma SomeProject<T>(log: seq<T>, key: T -> LabelSet) returns (id: LabelSet)
    requires log != []
    ensures id == key(log[0]) && Project(log, key, id) != []
  {
    id := key(log[0]);
    ProjectIn(log, key, id);
    assert log[0] in Project(log, key, id);
  }

  /** When a group has an error on record then a label set that names the group has one. */
  lemma SomeoneBlamed(s: State, rg: string) returns (id: LabelSet)
    requires Filed(s.errs) && rg in s.errs && s.errs[rg] != NO_ERRS
    ensures Get(id, "rulegroup") == rg && Blamed(s.View(id))
  {
    var e := s.errs[rg];
    assert FiledUnder(e, rg);
    if e.missedAlerts != [] {
      id := SomeProject(e.missedAlerts, ExpectedKey);
    } else if e.unexpectedAlerts != [] {
      id := SomeProject(e.unexpectedAlerts, UnexpectedKey);
    } else {
      id := SomeProject(e.matchingErrs, MismatchKey);
    }
  }

  /** And the other way round. */
  lemma GroupBlamed(s: State, id: LabelSet)
    requires Blamed(s.View(id))
    ensures var rg := Get(id, "rulegroup"); rg in s.errs && s.errs[rg] != NO_ERRS
  {
  }

  // ---- recording errors

  /** The error log after `missed` was recorded, each alert under its group. */
  function RecordMissed(errs: ErrLog, missed: seq<Expected>): ErrLog {
    if missed == [] then errs else
    var last := missed[|missed| - 1];
    var log, rg := RecordMissed(errs, missed[..|missed| - 1]), GroupOf(last.alert.labels);
    log[rg := Errs(log, rg).(missedAlerts := Errs(log, rg).missedAlerts + [last])]
  }

  function RecordUnexpected(errs: ErrLog, u: Unexpected): ErrLog {
    var rg := GroupOf(u.alert.labels);
    errs[rg := Errs(errs, rg).(unexpectedAlerts := Errs(errs, rg).unexpectedAlerts + [u])]
  }

  function RecordMismatch(errs: ErrLog, m: Mismatch): ErrLog {
    var rg := GroupOf(m.alert.labels);
    errs[rg := Errs(errs, rg).(matchingErrs := Errs(errs, rg).matchingErrs + [m])]
  }

  lemma {:induction false} RecordMissedFiled(errs: ErrLog, missed: seq<Expected>)
    requires Filed(errs)
    ensures Filed(RecordMissed(errs, missed))
  {
    if missed == [] {
    } else {
      RecordMissedFiled(errs, missed[..|missed| - 1]);
    }
  }

  lemma RecordOneFiled(errs: ErrLog, rg: string, e: AllErrs)
    requires Filed(errs) && FiledUnder(e, rg)
    ensures Filed(errs[rg := e])
  {
  }

  lemma TouchedFiled(errs: ErrLog, rg: string)
    requires Filed(errs)
    ensures Filed(errs[rg := Errs(errs, rg)])
  {
    assert FiledUnder(Errs(errs, rg), rg);
    RecordOneFiled(errs, rg, Errs(errs, rg));
  }

  lemma TouchedView(s: State, rg: string, id: LabelSet)
    ensures s.(errs := s.errs[rg := Errs(s.errs, rg)]).View(id) == s.View(id)
  {
  }

  lemma RecordUnexpectedFiled(errs: ErrLog, u: Unexpected)
    requires Filed(errs)
    ensures Filed(RecordUnexpected(errs, u))
  {
    var rg := GroupOf(u.alert.labels);
    assert FiledUnder(Errs(errs, rg), rg);
    RecordOneFiled(errs, rg, Errs(errs, rg).(unexpectedAlerts := Errs(errs, rg).unexpectedAlerts + [u]));
  }

  lemma RecordMismatchFiled(errs: ErrLog, m: Mismatch)
    requires Filed(errs)
    ensures Filed(RecordMismatch(errs, m))
  {
    var rg := GroupOf(m.alert.labels);
    assert FiledUnder(Errs(errs, rg), rg);
    RecordOneFiled(errs, rg, Errs(errs, rg).(matchingErrs := Errs(errs, rg).matchingErrs + [m]));
  }

  /** One recorded alert concerns its own series only. */
  lemma MissedOneAt(log: ErrLog, last: Expected, id: LabelSet)
    ensures var rg := GroupOf(last.alert.labels);
      var before, after := Errs(log, GroupOf(id)),
        Errs(log[rg := Errs(log, rg).(missedAlerts := Errs(log, rg).missedAlerts + [last])], GroupOf(id));
      && Project(after.missedAlerts, ExpectedKey, id)
           == Project(before.missedAlerts, ExpectedKey, id) + (if ExpectedKey(last) == id then [last] else [])
      && after.unexpectedAlerts == before.unexpectedAlerts && after.matchingErrs == before.matchingErrs
  {
    ProjectOne(Errs(log, GroupOf(id)).missedAlerts, last, ExpectedKey, id);
  }

  lemma {:induction false} RecordMissedAt(errs: ErrLog, missed: seq<Expected>, id: LabelSet)
    ensures var before, after := Errs(errs, GroupOf(id)), Errs(RecordMissed(errs, missed), GroupOf(id));
      && Project(after.missedAlerts, ExpectedKey, id)
           == Project(before.missedAlerts, ExpectedKey, id) + Project(missed, ExpectedKey, id)
      && after.unexpectedAlerts == before.unexpectedAlerts && after.matchingErrs == before.matchingErrs
  {
    if missed == [] {
    } else {
      var init, last := missed[..|missed| - 1], missed[|missed| - 1];
      RecordMissedAt(errs, init, id);
      MissedOneAt(RecordMissed(errs, init), last, id);
      Associate(Project(Errs(errs, GroupOf(id)).missedAlerts, ExpectedKey, id), Project(init, ExpectedKey, id),
                if ExpectedKey(last) == id then [last] else []);
    }
  }

  lemma ViewUnexpected(s: State, u: Unexpected, id: LabelSet)
    ensures s.(errs := RecordUnexpected(s.errs, u)).View(id)
      == if id == UnexpectedKey(u) then s.View(id).(unexpected := s.View(id).unexpected + [u]) else s.View(id)
  {
    ProjectOne(Errs(s.errs, GroupOf(id)).unexpectedAlerts, u, UnexpectedKey, id);
  }

  lemma ViewMismatch(s: State, m: Mismatch, id: LabelSet)
    ensures s.(errs := RecordMismatch(s.errs, m)).View(id)
      == if id == MismatchKey(m) then s.View(id).(mismatches := s.View(id).mismatches + [m]) else s.View(id)
  {
    ProjectOne(Errs(s.errs, GroupOf(id)).matchingErrs, m, MismatchKey, id);
  }

  lemma ViewMatched(s: State, m: Match, forgiven: seq<Expected>, id: LabelSet)
    requires forall ea :: ea in forgiven ==> ExpectedKey(ea) == MatchKey(m)
    ensures var v, v' := s.View(id), s.(matched := s.matched + [m], dropped := s.dropped + forgiven).View(id);
      && (id == MatchKey(m) ==> v' == v.(matched := v.matched + [m], dropped := v.dropped + forgiven))
      && (id != MatchKey(m) ==> v' == v)
  {
    ProjectOne(s.matched, m, MatchKey, id);
    ProjectMore(s.dropped, forgiven, ExpectedKey, MatchKey(m), id);
  }

  // ---- sweeping

  /** The part of a queue that stays when what is due is, or is not, taken out. */
  function Keep(q: seq<Expected>, now: Time, collect: bool): seq<Expected> {
    Select(q, now, if collect then {Waiting} else {Due, Waiting})
  }

  function SweptSeries(s: Series, now: Time, collect: bool): Series {
    Sweep(s, now).(queue := Keep(s.queue, now, collect))
  }

  /** `log` holds the selected expectations of all queues but those still to do,
      the label sets in any order. */
  ghost predicate Collected(log: seq<Expected>, queues: Queues, todo: set<LabelSet>, now: Time, fates: set<Fate>) {
    forall id :: Project(log, ExpectedKey, id) == if id in todo then [] else Select(Queue(queues, id), now, fates)
  }

  lemma CollectMore(log: seq<Expected>, queues: Queues, now: Time, fates: set<Fate>, of: LabelSet, id: LabelSet)
    requires Labelled(queues) && of in queues
    ensures Project(log + Select(queues[of], now, fates), ExpectedKey, id)
      == Project(log, ExpectedKey, id) + if id == of then Select(queues[of], now, fates) else []
  {
    var more := Select(queues[of], now, fates);
    SelectIn(queues[of], now, fates);
    ProjectConcat(log, more, ExpectedKey, id);
    ProjectUniform(more, ExpectedKey, id, of);
  }

  lemma CollectOne(log: seq<Expected>, queues: Queues, todo: set<LabelSet>, now: Time, fates: set<Fate>, of: LabelSet)
    requires Collected(log, queues, todo, now, fates) && Labelled(queues)
    requires of in todo && of in queues
    ensures Collected(log + Select(queues[of], now, fates), queues, todo - {of}, now, fates)
  {
    forall id ensures Project(log + Select(queues[of], now, fates), ExpectedKey, id)
      == if id in todo - {of} then [] else Select(Queue(queues, id), now, fates)
    {
      CollectMore(log, queues, now, fates, of, id);
    }
  }

  /** `queues` is `was` with all queues swept but those still to do. */
  ghost predicate SweptBut(queues: Queues, was: Queues, todo: set<LabelSet>, now: Time, lbls: LabelSet, collect: bool) {
    && queues.Keys == was.Keys
    && forall id :: id in was ==>
         queues[id] == if id in todo then was[id] else Keep(was[id], now, collect && id == lbls)
  }

  function Taken(was: Queues, todo: set<LabelSet>, now: Time, lbls: LabelSet, collect: bool): seq<Expected> {
    if collect && lbls !in todo then Select(Queue(was, lbls), now, {Due}) else []
  }

  lemma TakenOne(was: Queues, todo: set<LabelSet>, now: Time, lbls: LabelSet, collect: bool, id: LabelSet)
    requires id in todo && id in was
    ensures Taken(was, todo, now, lbls, collect) + (if collect && id == lbls then Select(was[id], now, {Due}) else [])
      == Taken(was, todo - {id}, now, lbls, collect)
  {
    if collect && id == lbls {
      assert Taken(was, todo, now, lbls, collect) == [];
    } else {
      assert Taken(was, todo - {id}, now, lbls, collect) == Taken(was, todo, now, lbls, collect);
    }
  }

  /** The state of the loop over all queues. */
  ghost predicate Sweeping(queues: Queues, alerts: seq<Expected>, missed: seq<Expected>, gone: seq<Expected>,
                           was: Queues, todo: set<LabelSet>, now: Time, lbls: LabelSet, collect: bool) {
    && SweptBut(queues, was, todo, now, lbls, collect)
    && alerts == Taken(was, todo, now, lbls, collect)
    && Collected(missed, was, todo, now, {Overdue})
    && Collected(gone, was, todo, now, {Ignored, Excused})
  }

  lemma SweepStart(was: Queues, now: Time, lbls: LabelSet, collect: bool)
    ensures Sweeping(was, [], [], [], was, was.Keys, now, lbls, collect)
  {
  }

  /** One more queue sorted out. */
  lemma SweepOne(queues: Queues, alerts: seq<Expected>, missed: seq<Expected>, gone: seq<Expected>,
                 was: Queues, todo: set<LabelSet>, now: Time, lbls: LabelSet, collect: bool, id: LabelSet)
    requires Sweeping(queues, alerts, missed, gone, was, todo, now, lbls, collect)
    requires Labelled(was) && id in todo && id in was
    ensures queues[id] == was[id]
    ensures var taken := collect && id == lbls;
      Sweeping(queues[id := Keep(was[id], now, taken)],
               alerts + (if taken then Select(was[id], now, {Due}) else []),
               missed + Select(was[id], now, {Overdue}),
               gone + Select(was[id], now, {Ignored, Excused}),
               was, todo - {id}, now, lbls, collect)
  {
    CollectOne(missed, was, todo, now, {Overdue}, id);
    CollectOne(gone, was, todo, now, {Ignored, Excused}, id);
    SweptOne(queues, was, todo, now, lbls, collect, id);
    TakenOne(was, todo, now, lbls, collect, id);
  }

  lemma SweptOne(queues: Queues, was: Queues, todo: set<LabelSet>, now: Time, lbls: LabelSet, collect: bool,
                 id: LabelSet)
    requires SweptBut(queues, was, todo, now, lbls, collect)
    requires id in todo && id in was
    ensures SweptBut(queues[id := Keep(was[id], now, collect && id == lbls)], was, todo - {id}, now, lbls, collect)
  {
  }

  lemma SweptLabelled(queues: Queues, was: Queues, now: Time, lbls: LabelSet, collect: bool)
    requires Labelled(was) && SweptBut(queues, was, {}, now, lbls, collect)
    ensures Labelled(queues)
  {
    forall id, ea | id in queues && ea in queues[id] ensures ExpectedKey(ea) == id {
      SelectIn(was[id], now, if collect && id == lbls then {Waiting} else {Due, Waiting});
    }
  }

  lemma ViewSwept(s: State, queues: Queues, missed: seq<Expected>, gone: seq<Expected>,
                  now: Time, lbls: LabelSet, collect: bool, id: LabelSet)
    requires SweptBut(queues, s.queues, {}, now, lbls, collect)
    requires Collected(missed, s.queues, {}, now, {Overdue})
    requires Collected(gone, s.queues, {}, now, {Ignored, Excused})
    ensures State(queues, RecordMissed(s.errs, missed), s.matched, s.dropped + gone).View(id)
      == SweptSeries(s.View(id), now, collect && id == lbls)
  {
    var mine := Queue(s.queues, id);
    RecordMissedAt(s.errs, missed, id);
    ProjectConcat(s.dropped, gone, ExpectedKey, id);
    assert Project(missed, ExpectedKey, id) == Select(mine, now, {Overdue});
    assert Project(gone, ExpectedKey, id) == Select(mine, now, {Ignored, Excused});
    assert Queue(queues, id) == Keep(mine, now, collect && id == lbls);
  }

  // ---- queueing

  /** Each queue of `queues` is that of `was` with its part of `added` appended. */
  ghost predicate Appended(queues: Queues, was: Queues, added: seq<Expected>) {
    forall id :: Queue(queues, id) == Queue(was, id) + Project(added, ExpectedKey, id)
  }

  lemma AppendOneAt(queues: Queues, was: Queues, added: seq<Expected>, ea: Expected, id: LabelSet)
    requires Queue(queues, id) == Queue(was, id) + Project(added, ExpectedKey, id)
    ensures var of := ExpectedKey(ea);
      Queue(queues[of := Queue(queues, of) + [ea]], id) == Queue(was, id) + Project(added + [ea], ExpectedKey, id)
  {
    ProjectOne(added, ea, ExpectedKey, id);
    Associate(Queue(was, id), Project(added, ExpectedKey, id), [ea]);
  }

  lemma AppendOne(queues: Queues, was: Queues, added: seq<Expected>, ea: Expected)
    requires Appended(queues, was, added)
    ensures var of := ExpectedKey(ea); Appended(queues[of := Queue(queues, of) + [ea]], was, added + [ea])
  {
    var of := ExpectedKey(ea);
    var queues' := queues[of := Queue(queues, of) + [ea]];
    forall id ensures Queue(queues', id) == Queue(was, id) + Project(added + [ea], ExpectedKey, id) {
      AppendOneAt(queues, was, added, ea, id);
    }
  }

  /** `seen` holds the label sets that occur in `added`. */
  ghost predicate SeenIn(seen: set<LabelSet>, added: seq<Expected>) {
    forall id :: id in seen <==> exists ea :: ea in added && ExpectedKey(ea) == id
  }

  lemma SeenOne(seen: set<LabelSet>, added: seq<Expected>, ea: Expected)
    requires SeenIn(seen, added)
    ensures SeenIn(seen + {ExpectedKey(ea)}, added + [ea])
  {
    forall id ensures id in seen + {ExpectedKey(ea)} <==> exists x :: x in added + [ea] && ExpectedKey(x) == id {
      if id in seen {
        var x :| x in added && ExpectedKey(x) == id;
        assert x in added + [ea];
      } else if id == ExpectedKey(ea) {
        assert ea in added + [ea];
      }
    }
  }

  /** The queues when those of `seen` that are no longer to do have been sorted. */
  ghost predicate SortedBut(queues: Queues, grown: Queues, seen: set<LabelSet>, todo: set<LabelSet>) {
    && queues.Keys == grown.Keys
    && forall id :: id in grown ==> queues[id] == if id in seen && id !in todo then Sorted(grown[id]) else grown[id]
  }

  lemma AddedBack(queues: Queues, grown: Queues, was: Queues, seen: set<LabelSet>, added: seq<Expected>, id: LabelSet)
    requires Appended(grown, was, added) && SeenIn(seen, added) && SortedBut(queues, grown, seen, {})
    ensures Queue(queues, id) == AddBack(Queue(was, id), Project(added, ExpectedKey, id))
  {
    var mine := Project(added, ExpectedKey, id);
    assert Queue(grown, id) == Queue(was, id) + mine;
    if id in seen {
      ProjectIn(added, ExpectedKey, id);
      var ea :| ea in added && ExpectedKey(ea) == id;
      assert ea in mine;
    } else {
      ProjectNone(added, ExpectedKey, id);
    }
  }

  lemma {:induction false} ProjectNone<T>(log: seq<T>, key: T -> LabelSet, id: LabelSet)
    requires forall x :: x in log ==> key(x) != id
    ensures Project(log, key, id) == []
  {
    if log == [] {
    } else {
      ProjectNone(log[..|log| - 1], key, id);
      assert log[|log| - 1] in log;
    }
  }

  lemma AddedBackLabelled(queues: Queues, was: Queues, added: seq<Expected>)
    requires Labelled(was)
    requires forall id :: Queue(queues, id) == AddBack(Queue(was, id), Project(added, ExpectedKey, id))
    ensures Labelled(queues)
  {
    forall id, ea | id in queues && ea in queues[id] ensures ExpectedKey(ea) == id {
      ProjectIn(added, ExpectedKey, id);
      SortedIn(Queue(was, id) + Project(added, ExpectedKey, id));
      assert ea in Queue(queues, id);
    }
  }

  // ---- serving a request

  /** A series once the pending work of a request is done: `back` put back,
      `lost` recorded as missed, and the queue rebased after a hit. */
  function Settle(s: Series, now: Time, back: seq<Expected>, lost: seq<Expected>, hit: bool): Series {
    var q := AddBack(s.queue, back);
    s.(queue := if hit then Rebase(q, now) else q, missed := s.missed + lost)
  }

  /** A series in the middle of a request that started from `s0`. */
  ghost predicate Midway(s: Series, s0: Series, now: Time, started: bool, als: seq<Alert>,
                         back: seq<Expected>, lost: seq<Expected>, hit: bool) {
    && Settle(s, now, back, lost, hit) == (if started then Serve(s0, now, als) else s0)
    && (!started ==> als == [])
    && (als == [] ==> back == [] && lost == [] && !hit)
    && (als != [] ==> forall ea :: ea in s.queue ==> FateOf(ea, now) == Waiting)
  }

  lemma {:induction false} SelectStable(q: seq<Expected>, now: Time, f: set<Fate>, g: set<Fate>)
    requires forall ea :: ea in q ==> FateOf(ea, now) in f
    ensures f <= g ==> Select(q, now, g) == q
    ensures f !! g ==> Select(q, now, g) == []
  {
    if q == [] {
    } else {
      assert q[0] in q;
      SelectStable(q[1..], now, f, g);
    }
  }

  lemma SweepStable(s: Series, now: Time)
    requires Swept(s.queue, now)
    ensures Sweep(s, now) == s
  {
    SelectStable(s.queue, now, {Due, Waiting}, {Due, Waiting});
    SelectStable(s.queue, now, {Due, Waiting}, {Overdue});
    SelectStable(s.queue, now, {Due, Waiting}, {Ignored, Excused});
  }

  lemma SweepTwice(s: Series, now: Time)
    ensures Sweep(Sweep(s, now), now) == Sweep(s, now)
  {
    SelectIn(s.queue, now, {Due, Waiting});
    SweepStable(Sweep(s, now), now);
  }

  lemma MidwayUntouched(s: Series, s0: Series, now: Time, started: bool)
    requires Midway(s, s0, now, started, [], [], [], false)
    ensures Sweep(s, now) == Sweep(s0, now)
  {
    assert Settle(s, now, [], [], false) == s;
    if started {
      SweepTwice(s0, now);
    }
  }

  /** An alert of another label set only sweeps the series. */
  lemma MidwayOther(s: Series, s0: Series, now: Time, started: bool, als: seq<Alert>,
                    back: seq<Expected>, lost: seq<Expected>, hit: bool)
    requires Midway(s, s0, now, started, als, back, lost, hit)
    ensures Midway(Sweep(s, now), s0, now, true, als, back, lost, hit)
  {
    if als == [] {
      MidwayUntouched(s, s0, now, started);
      assert Settle(Sweep(s, now), now, [], [], false) == Sweep(s, now);
    } else {
      SweepStable(s, now);
    }
  }

  /** The first alert of the label set in the request is received, `s'` and the new pending work. */
  lemma MidwayFirst(s: Series, s0: Series, s': Series, now: Time, started: bool, a: Alert,
                    back: seq<Expected>, lost: seq<Expected>, hit: bool)
    requires Midway(s, s0, now, started, [], [], [], false)
    requires Settle(s', now, back, lost, hit) == Receive(Sweep(s, now), now, a)
    requires forall ea :: ea in s'.queue ==> FateOf(ea, now) == Waiting
    ensures Midway(s', s0, now, true, [a], back, lost, hit)
  {
    MidwayUntouched(s, s0, now, started);
    var r := Receive(Sweep(s0, now), now, a);
    assert Duplicates(now, [a][1..]) == [];
    assert r.(unexpected := r.unexpected + []) == r;
  }

  /** Serving one more alert of the label set records one more unexpected alert. */
  lemma ServeNext(s0: Series, now: Time, als: seq<Alert>, a: Alert)
    requires als != []
    ensures var t := Serve(s0, now, als);
      Serve(s0, now, als + [a]) == t.(unexpected := t.unexpected + [Unexpected(now, a)])
  {
    var r := Receive(Sweep(s0, now), now, als[0]);
    assert (als + [a])[1..] == als[1..] + [a];
    assert (als[1..] + [a])[..|als[1..]|] == als[1..];
    assert r.unexpected + (Duplicates(now, als[1..]) + [Unexpected(now, a)])
      == (r.unexpected + Duplicates(now, als[1..])) + [Unexpected(now, a)];
  }

  lemma ReceiveLate(s: Series, now: Time, a: Alert)
    requires forall ea :: ea in s.queue ==> FateOf(ea, now) == Waiting
    ensures Receive(Sweep(s, now), now, a) == s.(unexpected := s.unexpected + [Unexpected(now, a)])
  {
    SweepStable(s, now);
    SelectStable(s.queue, now, {Waiting}, {Due});
  }

  /** A further alert of the label set is unexpected. */
  lemma MidwayDuplicate(s: Series, s0: Series, now: Time, started: bool, als: seq<Alert>, a: Alert,
                        back: seq<Expected>, lost: seq<Expected>, hit: bool)
    requires Midway(s, s0, now, started, als, back, lost, hit) && als != []
    ensures Receive(Sweep(s, now), now, a) == s.(unexpected := s.unexpected + [Unexpected(now, a)])
    ensures Midway(s.(unexpected := s.unexpected + [Unexpected(now, a)]), s0, now, true, als + [a], back, lost, hit)
  {
    ReceiveLate(s, now, a);
    ServeNext(s0, now, als, a);
    SettleUnexpected(s, now, back, lost, hit, s.unexpected + [Unexpected(now, a)]);
  }

  lemma SettleUnexpected(s: Series, now: Time, back: seq<Expected>, lost: seq<Expected>, hit: bool, us: seq<Unexpected>)
    ensures Settle(s.(unexpected := us), now, back, lost, hit) == Settle(s, now, back, lost, hit).(unexpected := us)
  {
  }

  /** Sweeping first makes no difference to what is due and what waits. */
  lemma {:induction false} SelectTwice(q: seq<Expected>, now: Time)
    ensures Select(Select(q, now, {Due, Waiting}), now, {Due}) == Select(q, now, {Due})
    ensures Select(Select(q, now, {Due, Waiting}), now, {Waiting}) == Select(q, now, {Waiting})
  {
    if q == [] {
    } else {
      SelectTwice(q[1..], now);
      var tail := Select(q[1..], now, {Due, Waiting});
      if FateOf(q[0], now) in {Due, Waiting} {
        assert Select(q, now, {Due, Waiting}) == [q[0]] + tail;
        assert ([q[0]] + tail)[1..] == tail;
      } else {
        assert Select(q, now, {Due, Waiting}) == tail;
      }
    }
  }

  lemma {:induction false} NoneDue(q: seq<Expected>, now: Time)
    requires Select(q, now, {Due}) == []
    ensures Select(q, now, {Due, Waiting}) == Select(q, now, {Waiting})
  {
    if q == [] {
    } else {
      NoneDue(q[1..], now);
    }
  }

  /** The three outcomes of one alert; `v` is the series without what is due. */
  lemma SettlesUnexpected(s: Series, v: Series, now: Time, a: Alert)
    requires v == SweptSeries(s, now, true) && Select(s.queue, now, {Due}) == []
    ensures Settle(v.(unexpected := v.unexpected + [Unexpected(now, a)]), now, [], [], false)
      == Receive(Sweep(s, now), now, a)
  {
    SelectTwice(s.queue, now);
    NoneDue(s.queue, now);
  }

  lemma SettlesMatched(s: Series, v: Series, now: Time, a: Alert, exp: seq<Expected>, k: nat)
    requires v == SweptSeries(s, now, true) && exp == Select(s.queue, now, {Due})
    requires k == FirstMatch(exp, now, a) < |exp|
    ensures var lost, forgiven := Skipped(exp[..k], false, false), Skipped(exp[..k], false, true);
      Settle(v.(matched := v.matched + [Match(now, exp[k], a)], dropped := v.dropped + forgiven),
             now, exp[k + 1..], lost, true)
      == Receive(Sweep(s, now), now, a)
  {
    SelectTwice(s.queue, now);
  }

  lemma SettlesMismatch(s: Series, v: Series, now: Time, a: Alert, exp: seq<Expected>)
    requires v == SweptSeries(s, now, true) && exp == Select(s.queue, now, {Due})
    requires exp != [] && FirstMatch(exp, now, a) == |exp|
    ensures Settle(v.(mismatches := v.mismatches + [Mismatch(now, exp[0], a, exp[0].Matches(now, a).error)]),
                   now, exp, [], false)
      == Receive(Sweep(s, now), now, a)
  {
    SelectTwice(s.queue, now);
  }

  lemma SkipStep(acc: seq<Expected>, exp: seq<Expected>, i: nat, after: bool, forgiven: bool)
    requires i < |exp|
    ensures acc + Skipped(exp[i..], after, forgiven)
      == (if Forgiven(exp[i], after) == forgiven then acc + [exp[i]] else acc)
         + Skipped(exp[i + 1..], AfterSkip(exp[i], after), forgiven)
  {
    assert exp[i..][1..] == exp[i + 1..];
    var rest := Skipped(exp[i + 1..], AfterSkip(exp[i], after), forgiven);
    assert acc + ([exp[i]] + rest) == (acc + [exp[i]]) + rest && [] + rest == rest;
  }

  lemma {:induction false} FirstMatchIs(exp: seq<Expected>, now: Time, a: Alert, k: nat)
    requires k <= |exp| && forall i :: 0 <= i < k ==> exp[i].Matches(now, a) != Matched
    requires k < |exp| ==> exp[k].Matches(now, a) == Matched
    ensures FirstMatch(exp, now, a) == k
  {
    if k == 0 {
    } else {
      FirstMatchIs(exp[1..], now, a, k - 1);
    }
  }

  /** All series in the middle of a request of which `done` has been received. */
  ghost predicate InProgress(s: State, s0: State, now: Time, done: seq<Alert>,
                             back: seq<Expected>, lost: seq<Expected>, hits: set<LabelSet>) {
    forall id :: SeriesInProgress(s, s0, now, done, back, lost, hits, id)
  }

  ghost predicate SeriesInProgress(s: State, s0: State, now: Time, done: seq<Alert>,
                                   back: seq<Expected>, lost: seq<Expected>, hits: set<LabelSet>, id: LabelSet) {
    Midway(s.View(id), s0.View(id), now, done != [], AlertsOf(done, id),
           Project(back, ExpectedKey, id), Project(lost, ExpectedKey, id), id in hits)
  }

  lemma ProgressStart(s: State, now: Time)
    ensures InProgress(s, s, now, [], [], [], {})
  {
  }

  /** What receiving one alert of a request does to the state. */
  ghost predicate ReceivedOne(s: State, s': State, now: Time, a: Alert,
                              back: seq<Expected>, lost: seq<Expected>, hit: bool) {
    && AllOf(back, a.labels) && AllOf(lost, a.labels)
    && (forall id :: id != a.labels ==> s'.View(id) == Sweep(s.View(id), now))
    && var v := s.View(a.labels);
      && s'.View(a.labels).queue == Select(v.queue, now, {Waiting})
      && Settle(s'.View(a.labels), now, back, lost, hit) == Receive(Sweep(v, now), now, a)
      && (Select(v.queue, now, {Due}) == [] ==> back == [] && lost == [] && !hit)
  }

  lemma AlertsOfNext(done: seq<Alert>, a: Alert, id: LabelSet)
    ensures AlertsOf(done + [a], id) == if a.labels == id then AlertsOf(done, id) + [a] else AlertsOf(done, id)
  {
    assert (done + [a])[..|done|] == done;
  }

  lemma ProgressOther(s: State, s': State, s0: State, now: Time, done: seq<Alert>, a: Alert,
                      back: seq<Expected>, lost: seq<Expected>, hits: set<LabelSet>,
                      back': seq<Expected>, lost': seq<Expected>, hits': set<LabelSet>, id: LabelSet)
    requires SeriesInProgress(s, s0, now, done, back, lost, hits, id)
    requires id != a.labels && s'.View(id) == Sweep(s.View(id), now)
    requires AllOf(back', a.labels) && AllOf(lost', a.labels) && (id in hits <==> id in hits')
    ensures SeriesInProgress(s', s0, now, done + [a], back + back', lost + lost', hits', id)
  {
    AlertsOfNext(done, a, id);
    ProjectMore(back, back', ExpectedKey, a.labels, id);
    ProjectMore(lost, lost', ExpectedKey, a.labels, id);
    MidwayOther(s.View(id), s0.View(id), now, done != [], AlertsOf(done, id),
                Project(back, ExpectedKey, id), Project(lost, ExpectedKey, id), id in hits);
  }

  lemma ProgressFirst(s: State, s': State, s0: State, now: Time, done: seq<Alert>, a: Alert,
                      back: seq<Expected>, lost: seq<Expected>, hits: set<LabelSet>,
                      back': seq<Expected>, lost': seq<Expected>, hit: bool)
    requires SeriesInProgress(s, s0, now, done, back, lost, hits, a.labels)
    requires ReceivedOne(s, s', now, a, back', lost', hit)
    requires AlertsOf(done, a.labels) == []
    ensures Midway(s'.View(a.labels), s0.View(a.labels), now, true, [a], back', lost', hit)
    ensures Project(back, ExpectedKey, a.labels) == [] && Project(lost, ExpectedKey, a.labels) == []
    ensures a.labels !in hits
  {
    SelectIn(s.View(a.labels).queue, now, {Waiting});
    MidwayFirst(s.View(a.labels), s0.View(a.labels), s'.View(a.labels), now, done != [], a, back', lost', hit);
  }

  lemma ProgressDuplicate(s: State, s': State, s0: State, now: Time, done: seq<Alert>, a: Alert,
                          back: seq<Expected>, lost: seq<Expected>, hits: set<LabelSet>,
                          back': seq<Expected>, lost': seq<Expected>, hit: bool)
    requires SeriesInProgress(s, s0, now, done, back, lost, hits, a.labels)
    requires ReceivedOne(s, s', now, a, back', lost', hit)
    requires AlertsOf(done, a.labels) != []
    ensures Midway(s'.View(a.labels), s0.View(a.labels), now, true, AlertsOf(done, a.labels) + [a],
                   Project(back, ExpectedKey, a.labels), Project(lost, ExpectedKey, a.labels), a.labels in hits)
    ensures back' == [] && lost' == [] && !hit
  {
    var id, als := a.labels, AlertsOf(done, a.labels);
    DuplicateSettles(s.View(id), s'.View(id), now, a, back', lost', hit);
    MidwayDuplicate(s.View(id), s0.View(id), now, done != [], als, a,
                    Project(back, ExpectedKey, id), Project(lost, ExpectedKey, id), id in hits);
  }

  lemma DuplicateSettles(v: Series, v': Series, now: Time, a: Alert, back: seq<Expected>, lost: seq<Expected>,
                         hit: bool)
    requires forall ea :: ea in v.queue ==> FateOf(ea, now) == Waiting
    requires Settle(v', now, back, lost, hit) == Receive(Sweep(v, now), now, a)
    requires Select(v.queue, now, {Due}) == [] ==> back == [] && lost == [] && !hit
    ensures back == [] && lost == [] && !hit && v' == v.(unexpected := v.unexpected + [Unexpected(now, a)])
  {
    ReceiveLate(v, now, a);
    SelectStable(v.queue, now, {Waiting}, {Due});
    assert Settle(v', now, [], [], false) == v';
  }

  lemma ProgressSameFirst(s: State, s': State, s0: State, now: Time, done: seq<Alert>, a: Alert,
                          back: seq<Expected>, lost: seq<Expected>, hits: set<LabelSet>,
                          back': seq<Expected>, lost': seq<Expected>, hit: bool)
    requires SeriesInProgress(s, s0, now, done, back, lost, hits, a.labels)
    requires ReceivedOne(s, s', now, a, back', lost', hit)
    requires AlertsOf(done, a.labels) == []
    ensures Midway(s'.View(a.labels), s0.View(a.labels), now, true, AlertsOf(done, a.labels) + [a],
                   Project(back, ExpectedKey, a.labels) + back', Project(lost, ExpectedKey, a.labels) + lost',
                   hit || a.labels in hits)
  {
    ProgressFirst(s, s', s0, now, done, a, back, lost, hits, back', lost', hit);
    assert [] + [a] == [a] && [] + back' == back' && [] + lost' == lost';
  }

  lemma ProgressSameAgain(s: State, s': State, s0: State, now: Time, done: seq<Alert>, a: Alert,
                          back: seq<Expected>, lost: seq<Expected>, hits: set<LabelSet>,
                          back': seq<Expected>, lost': seq<Expected>, hit: bool)
    requires SeriesInProgress(s, s0, now, done, back, lost, hits, a.labels)
    requires ReceivedOne(s, s', now, a, back', lost', hit)
    requires AlertsOf(done, a.labels) != []
    ensures Midway(s'.View(a.labels), s0.View(a.labels), now, true, AlertsOf(done, a.labels) + [a],
                   Project(back, ExpectedKey, a.labels) + back', Project(lost, ExpectedKey, a.labels) + lost',
                   hit || a.labels in hits)
  {
    ProgressDuplicate(s, s', s0, now, done, a, back, lost, hits, back', lost', hit);
    assert Project(back, ExpectedKey, a.labels) + [] == Project(back, ExpectedKey, a.labels);
    assert Project(lost, ExpectedKey, a.labels) + [] == Project(lost, ExpectedKey, a.labels);
  }

  lemma ProgressSame(s: State, s': State, s0: State, now: Time, done: seq<Alert>, a: Alert,
                     back: seq<Expected>, lost: seq<Expected>, hits: set<LabelSet>,
                     back': seq<Expected>, lost': seq<Expected>, hit: bool)
    requires SeriesInProgress(s, s0, now, done, back, lost, hits, a.labels)
    requires ReceivedOne(s, s', now, a, back', lost', hit)
    ensures SeriesInProgress(s', s0, now, done + [a], back + back', lost + lost',
                             if hit then hits + {a.labels} else hits, a.labels)
  {
    AlertsOfNext(done, a, a.labels);
    ProjectMore(back, back', ExpectedKey, a.labels, a.labels);
    ProjectMore(lost, lost', ExpectedKey, a.labels, a.labels);
    if AlertsOf(done, a.labels) == [] {
      ProgressSameFirst(s, s', s0, now, done, a, back, lost, hits, back', lost', hit);
    } else {
      ProgressSameAgain(s, s', s0, now, done, a, back, lost, hits, back', lost', hit);
    }
  }

  lemma ProgressStep(s: State, s': State, s0: State, now: Time, done: seq<Alert>, a: Alert,
                     back: seq<Expected>, lost: seq<Expected>, hits: set<LabelSet>,
                     back': seq<Expected>, lost': seq<Expected>, hit: bool)
    requires InProgress(s, s0, now, done, back, lost, hits)
    requires ReceivedOne(s, s', now, a, back', lost', hit)
    ensures InProgress(s', s0, now, done + [a], back + back', lost + lost', if hit then hits + {a.labels} else hits)
  {
    var hits' := if hit then hits + {a.labels} else hits;
    forall id ensures SeriesInProgress(s', s0, now, done + [a], back + back', lost + lost', hits', id) {
      if id == a.labels {
        ProgressSame(s, s', s0, now, done, a, back, lost, hits, back', lost', hit);
      } else {
        ProgressOther(s, s', s0, now, done, a, back, lost, hits, back', lost', hits', id);
      }
    }
  }

  /** The queues after those hit and no longer to do have been rebased. */
  ghost predicate RebasedBut(queues: Queues, was: Queues, hits: set<LabelSet>, todo: set<LabelSet>, now: Time) {
    && queues.Keys == was.Keys
    && forall id :: id in was ==> queues[id] == if id in hits && id !in todo then Rebase(was[id], now) else was[id]
  }

  lemma RebaseOne(queues: Queues, was: Queues, hits: set<LabelSet>, todo: set<LabelSet>, now: Time, id: LabelSet)
    requires RebasedBut(queues, was, hits, todo, now) && todo <= hits && id in todo && id in queues
    ensures queues[id] == was[id]
    ensures RebasedBut(queues[id := Rebase(queues[id], now)], was, hits, todo - {id}, now)
  {
  }

  lemma RebaseAllOf(q: seq<Expected>, now: Time, id: LabelSet)
    requires AllOf(q, id)
    ensures AllOf(Rebase(q, now), id)
  {
    RebaseAt(q, now);
    forall ea | ea in Rebase(q, now) ensures ExpectedKey(ea) == id {
      var i :| 0 <= i < |q| && Rebase(q, now)[i] == ea;
      assert q[i] in q;
    }
  }

  lemma RebaseLabelled(queues: Queues, was: Queues, hits: set<LabelSet>, now: Time)
    requires Labelled(was) && RebasedBut(queues, was, hits, {}, now)
    ensures Labelled(queues)
  {
    forall id, ea | id in queues && ea in queues[id] ensures ExpectedKey(ea) == id {
      assert id in was && AllOf(was[id], id);
      RebaseAllOf(was[id], now, id);
      assert queues[id] == if id in hits then Rebase(was[id], now) else was[id];
    }
  }

  /** The end of a request: put back, record, rebase. */
  lemma ProgressEnd(s: State, s0: State, s': State, now: Time, batch: seq<Alert>,
                    back: seq<Expected>, lost: seq<Expected>, hits: set<LabelSet>, added: Queues, id: LabelSet)
    requires InProgress(s, s0, now, batch, back, lost, hits)
    requires Queue(added, id) == AddBack(Queue(s.queues, id), Project(back, ExpectedKey, id))
    requires hits <= added.Keys && RebasedBut(s'.queues, added, hits, {}, now)
    requires s'.errs == RecordMissed(s.errs, lost) && s'.matched == s.matched && s'.dropped == s.dropped
    ensures s'.View(id) == Step(s0.View(id), id, Request(now, batch))
  {
    assert SeriesInProgress(s, s0, now, batch, back, lost, hits, id);
    RecordMissedAt(s.errs, lost, id);
    assert s'.View(id)
      == Settle(s.View(id), now, Project(back, ExpectedKey, id), Project(lost, ExpectedKey, id), id in hits);
  }

  lemma RebaseIs(q: seq<Expected>, r: seq<Expected>, now: Time, n: nat)
    requires n <= |q| == |r| && (n < |q| ==> !q[n].resend)
    requires forall i :: 0 <= i < n ==> q[i].resend && r[i] == q[i].(ts := now + (RESEND_DELAY - MAX_RTT))
    requires forall i :: n <= i < |q| ==> r[i] == q[i]
    ensures r == Rebase(q, now)
  {
    RebaseAt(q, now);
    assert Lead(q) == n;
  }

  lemma TakeAll<T>(s: seq<T>)
    ensures s[..0] == [] && s[..|s|] == s
  {
  }

  lemma TakeNext<T>(s: seq<T>, i: nat)
    requires i < |s|
    ensures s[..i + 1] == s[..i] + [s[i]]
  {
  }
}
