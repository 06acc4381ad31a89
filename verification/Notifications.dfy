/** A sender's notifications against the queue of its label set, block after block: exactly which
    sequences leave clean records. */
module Notifications {
  import opened ExpectedAlert
  import opened Reception
  import opened Conservation
  import opened MatchOrder
  import opened CaseTables
  import opened Hits

  /** The `nth` notification, from 0, of those that are meant for block `seg`; it arrives at `now`. */
  datatype Note = Note(seg: nat, nth: nat, now: Time, alert: Alert)

  /** A resend of a block, rescheduled to `ts`; all of them are alike but for their ids. */
  function Resend(b: Block, ts: Time): Expected {
    Row(b, 1, 0).(ts := ts)
  }

  /** A resend rescheduled to `ts` is ignored. */
  predicate Over(b: Block, ts: Time) {
    Resend(b, ts).ShouldBeIgnored()
  }

  // ---- what is left in front of the queue

  /** `n` resends of `b`, then `c` resends of `d`, all rescheduled to `ts`. */
  datatype View = View(n: nat, b: Block, c: nat, d: Block, ts: Time)

  ghost predicate Rescheduled(b: Block, ea: Expected, ts: Time) {
    ea == Resend(b, ts).(orderingID := ea.orderingID)
  }

  ghost predicate Seen(q: seq<Expected>, v: View) {
    && v.n + v.c <= |q|
    && (forall x :: 0 <= x < v.n ==> Rescheduled(v.b, q[x], v.ts))
    && (forall x :: v.n <= x < v.n + v.c ==> Rescheduled(v.d, q[x], v.ts))
    && (v.c == 0 && v.n < |q| ==> !q[v.n].CanBeIgnored())
  }

  predicate Quiet(ea: Expected, now: Time) {
    !ea.ShouldBeIgnored() && now <= ea.ts && 0 <= ea.timeTolerance
  }

  /** Up to `now` nothing is overdue but perhaps the first notification of the next block, and nothing
      after that is due. */
  ghost predicate Calm(q: seq<Expected>, v: View, now: Time) {
    && (v.n > 0 && !Over(v.b, v.ts) ==> now < v.ts + GROUP_INTERVAL + 2 * MAX_RTT)
    && (v.c > 0 ==> !Over(v.d, v.ts) && now < v.ts + GROUP_INTERVAL + 2 * MAX_RTT)
    && forall x :: v.n + (if v.c > 0 then v.c else 1) <= x < |q| ==> Quiet(q[x], now)
  }

  /** The queue after a sweep. */
  function Rest(q: seq<Expected>, v: View): seq<Expected>
    requires v.n <= |q|
  {
    if Over(v.b, v.ts) then q[v.n..] else q
  }

  /** What a sweep finds: the first notification of the next block may be overdue. */
  predicate FirstOverdue(q: seq<Expected>, v: View, now: Time) {
    v.c == 0 && v.n < |q| && q[v.n].Deadline() < now
  }

  lemma RescheduledFate(b: Block, ea: Expected, ts: Time, now: Time)
    requires Rescheduled(b, ea, ts) && now < ts + GROUP_INTERVAL + 2 * MAX_RTT
    ensures FateOf(ea, now) == if Over(b, ts) then Ignored else if ts < now then Due else Waiting
  {
  }

  lemma RescheduledMatches(b: Block, ea: Expected, ts: Time, now: Time, a: Alert)
    requires Rescheduled(b, ea, ts)
    ensures ea.Matches(now, a) == Resend(b, ts).Matches(now, a)
    ensures ea.CanBeIgnored() == Resend(b, ts).CanBeIgnored()
    ensures ea.Matches(now, a) == Matched ==> ts < now < ts + GROUP_INTERVAL + 2 * MAX_RTT
  {
  }

  /** The fates behind the resends that may be over. */
  lemma FateBehind(q: seq<Expected>, v: View, now: Time, x: nat)
    requires Seen(q, v) && Calm(q, v, now) && !FirstOverdue(q, v, now) && v.n <= x < |q|
    ensures FateOf(q[x], now) in {Due, Waiting}
  {
    if x < v.n + v.c {
      RescheduledFate(v.d, q[x], v.ts, now);
    } else if v.c == 0 && x == v.n {
      NotIgnored(q[x]);
    } else {
      assert Quiet(q[x], now);
    }
  }

  lemma NotIgnored(ea: Expected)
    requires !ea.CanBeIgnored()
    ensures !ea.ShouldBeIgnored()
  {
    if ea.ShouldBeIgnored() {
      ShouldImpliesCanBeIgnored(ea);
    }
  }

  lemma RestSwept(q: seq<Expected>, v: View, now: Time)
    requires Seen(q, v) && Calm(q, v, now) && !FirstOverdue(q, v, now)
    ensures Swept(Rest(q, v), now) && Swept(q[v.n..], now)
  {
    forall ea | ea in q[v.n..] ensures FateOf(ea, now) in {Due, Waiting} {
      var x :| 0 <= x < |q[v.n..]| && q[v.n..][x] == ea;
      FateBehind(q, v, now, v.n + x);
    }
    if !Over(v.b, v.ts) {
      forall ea | ea in q ensures FateOf(ea, now) in {Due, Waiting} {
        var x :| 0 <= x < |q| && q[x] == ea;
        if x < v.n {
          RescheduledFate(v.b, ea, v.ts, now);
        } else {
          FateBehind(q, v, now, x);
        }
      }
    }
  }

  lemma DropOver(q: seq<Expected>, v: View, now: Time)
    requires Seen(q, v) && Calm(q, v, now) && !FirstOverdue(q, v, now) && Over(v.b, v.ts)
    ensures Select(q, now, {Due, Waiting}) == q[v.n..] && Select(q, now, {Overdue}) == []
  {
    forall x | 0 <= x < v.n ensures FateOf(q[x], now) == Ignored {
      assert Rescheduled(v.b, q[x], v.ts);
    }
    forall x | v.n <= x < |q| ensures FateOf(q[x], now) in {Due, Waiting} {
      FateBehind(q, v, now, x);
    }
    SelectDrop(q, now, v.n);
  }

  /** The queue before or after the resends that are over were dropped. */
  ghost predicate Standing(s: Series, q: seq<Expected>, v: View)
    requires v.n <= |q|
  {
    s.queue == q || s.queue == Rest(q, v)
  }

  lemma OverdueMissed(s: Series, q: seq<Expected>, v: View, now: Time)
    requires Seen(q, v) && Standing(s, q, v) && FirstOverdue(q, v, now)
    ensures Dirty(Sweep(s, now))
  {
    var x := q[v.n];
    NotIgnored(x);
    assert x in s.queue by {
      assert q[v.n..][0] == x;
    }
    SelectIn(s.queue, now, {Overdue});
    assert x in Select(s.queue, now, {Overdue});
  }

  /** What a sweep does before the next notification arrives. */
  lemma SweepStanding(s: Series, q: seq<Expected>, v: View, now: Time)
    requires Seen(q, v) && Standing(s, q, v) && Calm(q, v, now)
    ensures FirstOverdue(q, v, now) ==> Dirty(Sweep(s, now))
    ensures !FirstOverdue(q, v, now) ==>
      Sweep(s, now).queue == Rest(q, v) && Swept(Rest(q, v), now) && (Dirty(Sweep(s, now)) <==> Dirty(s))
  {
    if FirstOverdue(q, v, now) {
      OverdueMissed(s, q, v, now);
    } else {
      RestSwept(q, v, now);
      if s.queue == Rest(q, v) {
        SweptSame(s, now);
      } else {
        DropOver(q, v, now);
      }
    }
  }

  // ---- one notification

  /** Nothing in the queue that is due matches, but for the resends of the first block. */
  lemma OthersFail(q: seq<Expected>, v: View, now: Time, a: Alert, x: nat)
    requires Seen(q, v) && Calm(q, v, now) && v.n <= x < |q|
    requires v.c > 0 ==> Resend(v.d, v.ts).Matches(now, a) != Matched
    requires v.c == 0 && v.n < |q| ==> q[v.n].Matches(now, a) != Matched
    ensures q[x].Matches(now, a) != Matched
  {
    if x < v.n + v.c {
      RescheduledMatches(v.d, q[x], v.ts, now, a);
    } else if v.c > 0 || v.n < x {
      assert Quiet(q[x], now);
      MatchesExactly(q[x], now, a);
    }
  }

  /** A notification that goes on with the block of the one before. */
  ghost predicate GoesOn(v: View, now: Time, a: Alert) {
    v.n > 0 && !Over(v.b, v.ts) && Resend(v.b, v.ts).Matches(now, a) == Matched
  }

  lemma GoesOnReceived(s: Series, q: seq<Expected>, v: View, now: Time, a: Alert)
    requires Ordered(s.queue) && Scheduled(s.queue) && Swept(s.queue, now)
    requires Seen(q, v) && Calm(q, v, now) && s.queue == Rest(q, v)
    requires v.c > 0 ==> Resend(v.d, v.ts).Matches(now, a) != Matched
    requires v.c == 0 && v.n < |q| ==> q[v.n].Matches(now, a) != Matched
    ensures GoesOn(v, now, a) ==> Hit(s, Receive(s, now, a), Rebase(q[1..], now), [])
    ensures !GoesOn(v, now, a) ==> Dirty(Receive(s, now, a))
  {
    if GoesOn(v, now, a) {
      RescheduledMatches(v.b, q[0], v.ts, now, a);
      RescheduledFate(v.b, q[0], v.ts, now);
      HitAt(s, now, a, 0);
      assert s.queue[..0] == [];
    } else {
      forall ea | ea in s.queue && FateOf(ea, now) == Due ensures ea.Matches(now, a) != Matched {
        NotGoingOn(q, v, now, a, ea);
      }
      NoneHit(s, now, a);
    }
  }

  lemma NotGoingOn(q: seq<Expected>, v: View, now: Time, a: Alert, ea: Expected)
    requires Seen(q, v) && Calm(q, v, now) && ea in Rest(q, v) && !GoesOn(v, now, a)
    requires v.c > 0 ==> Resend(v.d, v.ts).Matches(now, a) != Matched
    requires v.c == 0 && v.n < |q| ==> q[v.n].Matches(now, a) != Matched
    ensures ea.Matches(now, a) != Matched
  {
    var x := IndexIn(q, v, ea);
    if x < v.n {
      RescheduledMatches(v.b, q[x], v.ts, now, a);
    } else {
      OthersFail(q, v, now, a, x);
    }
  }

  lemma IndexIn(q: seq<Expected>, v: View, ea: Expected) returns (x: nat)
    requires v.n <= |q| && ea in Rest(q, v)
    ensures x < |q| && q[x] == ea && (Over(v.b, v.ts) ==> v.n <= x)
  {
    var rest := Rest(q, v);
    var y :| 0 <= y < |rest| && rest[y] == ea;
    x := if Over(v.b, v.ts) then v.n + y else y;
  }

  /** A notification that is the first for the next block: `target` is what it is meant for. */
  ghost predicate MovesOn(v: View, target: Expected, now: Time, a: Alert) {
    && target.Matches(now, a) == Matched
    && (v.n == 0 || Over(v.b, v.ts) || Resend(v.b, v.ts).CanBeIgnored())
  }

  /** `target` is the first expectation of the next block. */
  ghost predicate TargetOf(q: seq<Expected>, v: View, target: Expected) {
    v.n < |q| && q[v.n] == target.(orderingID := q[v.n].orderingID) && (v.c > 0 ==> target == Resend(v.d, v.ts))
  }

  lemma MatchesById(ea: Expected, target: Expected, now: Time, a: Alert)
    requires ea == target.(orderingID := ea.orderingID)
    ensures ea.Matches(now, a) == target.Matches(now, a)
  {
  }

  /** A match is due. */
  lemma MatchIsDue(ea: Expected, now: Time, a: Alert)
    requires ea.Matches(now, a) == Matched && !ea.ShouldBeIgnored()
    ensures FateOf(ea, now) == Due
  {
    MatchesExactly(ea, now, a);
  }

  lemma TargetDue(q: seq<Expected>, v: View, target: Expected, now: Time, a: Alert)
    requires Seen(q, v) && Calm(q, v, now) && TargetOf(q, v, target) && target.Matches(now, a) == Matched
    ensures FateOf(q[v.n], now) == Due && q[v.n].Matches(now, a) == Matched
  {
    MatchesById(q[v.n], target, now, a);
    if v.c > 0 {
      assert Rescheduled(v.d, q[v.n], v.ts);
    } else {
      NotIgnored(q[v.n]);
    }
    MatchIsDue(q[v.n], now, a);
  }

  /** No resend of the first block is left, or they were dropped. */
  lemma MovesOnFree(s: Series, q: seq<Expected>, v: View, target: Expected, now: Time, a: Alert)
    requires Ordered(s.queue) && Scheduled(s.queue) && Swept(s.queue, now)
    requires Seen(q, v) && Calm(q, v, now) && s.queue == Rest(q, v) && TargetOf(q, v, target)
    requires (v.n == 0 || Over(v.b, v.ts)) && target.Matches(now, a) == Matched
    ensures Hit(s, Receive(s, now, a), Rebase(q[v.n + 1..], now), [])
  {
    TargetDue(q, v, target, now, a);
    assert s.queue == q[v.n..];
    HitAt(s, now, a, 0);
    assert s.queue[..0] == [] && s.queue[1..] == q[v.n + 1..];
  }

  /** The resends of the first block are due too, and are passed over. */
  lemma MovesOnPast(s: Series, q: seq<Expected>, v: View, target: Expected, now: Time, a: Alert)
    requires Ordered(s.queue) && Scheduled(s.queue) && Swept(s.queue, now)
    requires Seen(q, v) && Calm(q, v, now) && s.queue == q && TargetOf(q, v, target)
    requires v.n > 0 && !Over(v.b, v.ts) && target.Matches(now, a) == Matched
    requires Resend(v.b, v.ts).Matches(now, a) != Matched && v.ts < now
    ensures Hit(s, Receive(s, now, a), Rebase(q[v.n + 1..], now), q[..v.n])
  {
    TargetDue(q, v, target, now, a);
    forall x | 0 <= x < v.n ensures FateOf(q[x], now) == Due && q[x].Matches(now, a) != Matched {
      RescheduledFate(v.b, q[x], v.ts, now);
      RescheduledMatches(v.b, q[x], v.ts, now, a);
    }
    HitAt(s, now, a, v.n);
  }

  lemma PassedOver(q: seq<Expected>, v: View, now: Time, a: Alert)
    requires Seen(q, v) && v.n > 0
    ensures Skipped(q[..v.n], false, false) == [] <==> Resend(v.b, v.ts).CanBeIgnored()
  {
    forall x | 0 <= x < v.n ensures q[x].CanBeIgnored() == Resend(v.b, v.ts).CanBeIgnored() {
      RescheduledMatches(v.b, q[x], v.ts, now, a);
    }
    if Resend(v.b, v.ts).CanBeIgnored() {
      SkippedForgiven(q[..v.n], false);
    } else {
      SkippedBlamed(q[..v.n]);
    }
  }

  lemma NoMoveFails(q: seq<Expected>, v: View, target: Expected, now: Time, a: Alert, ea: Expected)
    requires Seen(q, v) && Calm(q, v, now) && TargetOf(q, v, target) && ea in Rest(q, v)
    requires target.Matches(now, a) != Matched
    requires v.n > 0 && !Over(v.b, v.ts) ==> Resend(v.b, v.ts).Matches(now, a) != Matched
    ensures ea.Matches(now, a) != Matched
  {
    var x := IndexIn(q, v, ea);
    if x < v.n {
      RescheduledMatches(v.b, q[x], v.ts, now, a);
    } else {
      MatchesById(q[v.n], target, now, a);
      OthersFail(q, v, now, a, x);
    }
  }

  lemma MovesOnReceived(s: Series, q: seq<Expected>, v: View, target: Expected, now: Time, a: Alert)
    requires Ordered(s.queue) && Scheduled(s.queue) && Swept(s.queue, now) && !Dirty(s)
    requires Seen(q, v) && Calm(q, v, now) && s.queue == Rest(q, v) && TargetOf(q, v, target)
    requires v.n > 0 && !Over(v.b, v.ts) ==> Resend(v.b, v.ts).Matches(now, a) != Matched && (v.c == 0 ==> v.ts < now)
    ensures MovesOn(v, target, now, a) ==>
      Receive(s, now, a).queue == Rebase(q[v.n + 1..], now) && !Dirty(Receive(s, now, a))
    ensures !MovesOn(v, target, now, a) ==> Dirty(Receive(s, now, a))
  {
    if target.Matches(now, a) != Matched {
      forall ea | ea in s.queue && FateOf(ea, now) == Due ensures ea.Matches(now, a) != Matched {
        NoMoveFails(q, v, target, now, a, ea);
      }
      NoneHit(s, now, a);
    } else if v.n == 0 || Over(v.b, v.ts) {
      MovesOnFree(s, q, v, target, now, a);
      HitMeans(s, Receive(s, now, a), Rebase(q[v.n + 1..], now), []);
    } else {
      TargetStarts(v, target, now, a);
      MovesOnPast(s, q, v, target, now, a);
      PassedOver(q, v, now, a);
      HitMeans(s, Receive(s, now, a), Rebase(q[v.n + 1..], now), q[..v.n]);
    }
  }

  lemma TargetStarts(v: View, target: Expected, now: Time, a: Alert)
    requires target.Matches(now, a) == Matched && (v.c > 0 ==> target == Resend(v.d, v.ts))
    ensures v.c > 0 ==> v.ts < now
  {
    MatchesExactly(target, now, a);
  }

  lemma HitMeans(s: Series, s': Series, rest: seq<Expected>, passed: seq<Expected>)
    requires Hit(s, s', rest, passed) && !Dirty(s)
    ensures s'.queue == rest && (Dirty(s') <==> Skipped(passed, false, false) != [])
  {
  }
}
