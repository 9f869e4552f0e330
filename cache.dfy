/**
 * The single-slot rate cache kept in local storage under one key
 * (`exchangeRatesCache`), with a 24-hour expiry measured from the
 * timestamp written when the record was saved.
 */
module Cache {
  import opened Domain

  /** What a save writes: the rates, the instant of the update and the save's own timestamp. */
  datatype CacheRecord = CacheRecord(rates: Rates, lastUpdate: int, timestamp: int)

  /**
   * The contents of the storage slot. `Corrupt` stands for anything that is
   * present but does not parse into a record with a numeric timestamp.
   */
  datatype Slot = Empty | Corrupt | Stored(record: CacheRecord)

  predicate IsFresh(timestamp: int, now: int) {
    now - timestamp < CacheExpiry
  }

  /**
   * Reading the slot: the stored record while it is younger than 24 hours,
   * nothing for an absent, unparseable or expired record.
   */
  function Load(slot: Slot, now: int): (r: Option<CacheRecord>)
    ensures r.Some? <==> slot.Stored? && IsFresh(slot.record.timestamp, now)
    ensures r.Some? ==> r.value == slot.record
  {
    match slot
    case Stored(record) => if IsFresh(record.timestamp, now) then Some(record) else None
    case _ => None
  }

  /** A record read back at the instant it was saved is returned intact. */
  lemma LoadAtSaveTime(record: CacheRecord)
    ensures Load(Stored(record), record.timestamp) == Some(record)
  {
  }

  /** Freshness only wears off: a record fresh at some instant was fresh at every earlier one. */
  lemma FreshEarlier(slot: Slot, earlier: int, later: int)
    requires earlier <= later
    requires Load(slot, later).Some?
    ensures Load(slot, earlier) == Load(slot, later)
  {
  }

  /** From exactly 24 hours of age on, a record is treated as absent. */
  lemma ExpiredFromADay(record: CacheRecord, now: int)
    requires now >= record.timestamp + CacheExpiry
    ensures Load(Stored(record), now) == None
  {
  }

  /** A record saved 25 hours ago is absent; one saved an hour ago is returned. */
  lemma ExpiryExamples(record: CacheRecord, now: int)
    ensures record.timestamp == now - 25 * 60 * 60 * 1000 ==> Load(Stored(record), now) == None
    ensures record.timestamp == now - 60 * 60 * 1000 ==> Load(Stored(record), now) == Some(record)
  {
  }
}
