/**
 * The daily-notification throttle: a notification is due when no stamp was
 * stored yet, or when more than 24 hours have passed since the stored one.
 */
module Notifications {
  import opened Domain
  import Cache

  /**
   * The `lastNotification` storage entry. `Missing` covers an absent or empty
   * entry; `Unparsable` an entry whose integer parse yields no number.
   */
  datatype StoredStamp = Missing | Unparsable | Stamp(ms: int)

  function NotificationDue(last: StoredStamp, now: int): (due: bool)
    ensures due <==> last.Missing? || (last.Stamp? && now - last.ms > CacheExpiry)
  {
    match last
    case Missing => true
    // Subtracting NaN gives NaN, and NaN is greater than nothing.
    case Unparsable => false
    case Stamp(ms) => now - ms > CacheExpiry
  }

  /**
   * With the stamp `sent` stored, the throttle finds a notification due only
   * once more than 24 hours have passed since it.
   */
  lemma ThrottleDueOnlyAfterADay(sent: int, now: int)
    ensures NotificationDue(Stamp(sent), now) <==> now > sent + CacheExpiry
  {
  }

  /** An entry that does not parse blocks notifications at every instant. */
  lemma UnparsableStampBlocks(now: int)
    ensures !NotificationDue(Unparsable, now)
  {
  }

  /**
   * The cache test (`<`) and the throttle test (`>`) use the same constant
   * with opposite strictness: a cached record and a notification stamp of the
   * same age are never both "fresh" and "due", and at exactly 24 hours the
   * record has expired while the notification is not yet due.
   */
  lemma OppositeStrictness(record: Cache.CacheRecord, now: int)
    ensures !(Cache.Load(Cache.Stored(record), now).Some? && NotificationDue(Stamp(record.timestamp), now))
    ensures now - record.timestamp == CacheExpiry ==>
              Cache.Load(Cache.Stored(record), now).None? && !NotificationDue(Stamp(record.timestamp), now)
    ensures now - record.timestamp == CacheExpiry + 1 ==>
              Cache.Load(Cache.Stored(record), now).None? && NotificationDue(Stamp(record.timestamp), now)
  {
  }
}
