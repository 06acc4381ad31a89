/** Instants as Unix milliseconds. Instants are counted from Go's zero time. */
module UnixTime {
  import opened ExpectedAlert

  /** 1 January 1970. */
  const UNIX_EPOCH: Time := 62_135_596_800 * SECOND

  /** `Time.UnixMilli`, which rounds down. */
  function UnixMilli(t: Time): int {
    (t - UNIX_EPOCH) / MILLISECOND
  }

  /** `model.TimeFromUnixNano` of `Time.UnixNano`, which rounds towards the epoch. */
  function UnixNanoMillis(t: Time): int {
    var nanos := t - UNIX_EPOCH;
    if 0 <= nanos then nanos / MILLISECOND else -(-nanos / MILLISECOND)
  }

  /** Both lose less than a millisecond and keep the order of instants; before the epoch they may differ. */
  lemma UnixMillisIs(t: Time, u: Time)
    ensures -MILLISECOND < t - (UNIX_EPOCH + UnixNanoMillis(t) * MILLISECOND) < MILLISECOND
    ensures 0 <= t - (UNIX_EPOCH + UnixMilli(t) * MILLISECOND) < MILLISECOND
    ensures t <= u ==> UnixNanoMillis(t) <= UnixNanoMillis(u) && UnixMilli(t) <= UnixMilli(u)
    ensures UnixNanoMillis(t) == UnixMilli(t) <==> UNIX_EPOCH <= t || (t - UNIX_EPOCH) % MILLISECOND == 0
  {
  }
}
