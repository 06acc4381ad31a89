/** The description of one alert the suite waits for (cases/expected_alert.go). */
module ExpectedAlert {
  import opened Labels

  /** Instants and durations in nanoseconds. Go's zero value `time.Time{}` is instant 0. */
  type Time = int
  type Duration = int

  const ZERO_TIME: Time := 0
  const MILLISECOND: Duration := 1_000_000
  const SECOND: Duration := 1_000_000_000
  const MINUTE: Duration := 60_000_000_000
  const RESEND_DELAY: Duration := MINUTE
  const MAX_RTT: Duration := 5 * SECOND
  const RESOLVED_LIMIT: Duration := 15 * MINUTE

  datatype GeneratorURL = NoURL | ParsableURL | MalformedURL

  datatype Alert = Alert(
    labels: LabelSet,
    annotations: LabelSet,
    startsAt: Time,
    endsAt: Time,
    generatorURL: GeneratorURL)

  /** The error cases of `Matches`, in the order they are tested. */
  datatype MatchError =
    | LabelsMismatch
    | AnnotationsMismatch
    | TooLate
    | StartsAtMismatch
    | EndsAtMismatch
    | BadGeneratorURL

  datatype MatchResult = Matched | Failed(error: MatchError)

  datatype Expected = Expected(
    orderingID: int,
    timeTolerance: Duration,
    ts: Time,
    nextState: Time,
    resolved: bool,
    resend: bool,
    resolvedTime: Time,
    endsAtDelta: Duration,
    alert: Alert)
  {
    /** The instant up to which this alert is awaited; both uses of it are strict. */
    function Deadline(): Time {
      ts + timeTolerance + 2 * MAX_RTT
    }

    predicate MatchesWithinTolerance(exp: Time, act: Time) {
      exp < act < exp + timeTolerance
    }

    predicate MatchesWithinToleranceAndTwiceSendDelay(exp: Time, act: Time) {
      exp < act < exp + (timeTolerance + 2 * MAX_RTT)
    }

    predicate TimeCanBeIgnored(t: Time) {
      MatchesWithinToleranceAndTwiceSendDelay(ts, t) || t < ts
    }

    predicate CanBeIgnored() {
      || (resolved && ts - resolvedTime > RESOLVED_LIMIT)
      || (nextState != ZERO_TIME && TimeCanBeIgnored(nextState))
      || (resolvedTime != ZERO_TIME && !resolved && TimeCanBeIgnored(resolvedTime))
    }

    predicate ShouldBeIgnored() {
      || (resolved && ts - resolvedTime > RESOLVED_LIMIT)
      || (nextState != ZERO_TIME && nextState < ts)
    }

    function Matches(now: Time, a: Alert): MatchResult {
      if alert.labels != a.labels then Failed(LabelsMismatch)
      else if alert.annotations != a.annotations then Failed(AnnotationsMismatch)
      else if !MatchesWithinToleranceAndTwiceSendDelay(ts, now) then Failed(TooLate)
      else if a.startsAt != ZERO_TIME && !MatchesWithinTolerance(alert.startsAt, a.startsAt) then
        Failed(StartsAtMismatch)
      else if
        && a.endsAt != ZERO_TIME
        && (var expEndsAt := if resolved then resolvedTime else now + endsAtDelta;
            && !(|| MatchesWithinTolerance(expEndsAt, a.endsAt)
                 || MatchesWithinTolerance(expEndsAt - 2 * MAX_RTT, a.endsAt))
            && (resolved || !MatchesWithinTolerance(expEndsAt - 2 * MAX_RTT, a.endsAt)))
      then Failed(EndsAtMismatch)
      else if a.generatorURL == MalformedURL then Failed(BadGeneratorURL)
      else Matched
    }

    /** The payload part of `Matches`: what it asks of everything but labels and arrival time. */
    predicate ContentMatches(now: Time, a: Alert) {
      && alert.annotations == a.annotations
      && (a.startsAt == ZERO_TIME || alert.startsAt < a.startsAt < alert.startsAt + timeTolerance)
      && (a.endsAt == ZERO_TIME ||
          var expEndsAt := if resolved then resolvedTime else now + endsAtDelta;
          || expEndsAt < a.endsAt < expEndsAt + timeTolerance
          || expEndsAt - 2 * MAX_RTT < a.endsAt < expEndsAt - 2 * MAX_RTT + timeTolerance)
      && a.generatorURL != MalformedURL
    }
  }

  /** An alert that is dropped outright could always have been excused. */
  lemma ShouldImpliesCanBeIgnored(ea: Expected)
    requires ea.ShouldBeIgnored()
    ensures ea.CanBeIgnored()
  {
  }

  /** `Matches` accepts exactly the same labels, the same payload, and the open window
      (ts, deadline): the second test of EndsAt never rejects more than the first one. */
  lemma MatchesExactly(ea: Expected, now: Time, a: Alert)
    ensures ea.Matches(now, a) == Matched <==>
      ea.alert.labels == a.labels && ea.ts < now < ea.Deadline() && ea.ContentMatches(now, a)
  {
  }

  /** Which error the receiver records: the first of these tests that fails. */
  lemma ErrorExactly(ea: Expected, now: Time, a: Alert)
    requires ea.Matches(now, a) != Matched
    ensures var sent, end, e := ea.alert.startsAt, if ea.resolved then ea.resolvedTime else now + ea.endsAtDelta,
                                ea.Matches(now, a).error;
      if ea.alert.labels != a.labels then e == LabelsMismatch
      else if ea.alert.annotations != a.annotations then e == AnnotationsMismatch
      else if now <= ea.ts || ea.ts + ea.timeTolerance + 10_000_000_000 <= now then e == TooLate
      else if a.startsAt != 0 && !(sent < a.startsAt < sent + ea.timeTolerance) then e == StartsAtMismatch
      else if a.endsAt != 0 && !(end < a.endsAt < end + ea.timeTolerance)
           && !(end - 10_000_000_000 < a.endsAt < end - 10_000_000_000 + ea.timeTolerance) then e == EndsAtMismatch
      else e == BadGeneratorURL && a.generatorURL == MalformedURL
  {
  }
}
