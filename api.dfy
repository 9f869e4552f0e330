/**
 * The dashboard's shared state and the two refresh operations that mutate it.
 *
 * Each network request is an input: `Some(v)` is the value its response
 * carried, `None` a request that failed (rejected, or a body that could not
 * be read). The clock reading `now` is an input too.
 */
module Api {
  import opened Domain
  import opened Cache
  import opened Notifications

  /** One symbol's price as returned by a price request. */
  datatype Quote = Quote(symbol: Crypto, price: real)

  /** What a refresh reports: fresh data, cached data (offline), or nothing usable. */
  datatype RefreshOutcome = Updated | Offline | Failed

  /**
   * Waiting for all price requests together: the quotes in request order
   * when every request succeeds, nothing as soon as one fails.
   */
  function JoinAll(symbols: seq<Crypto>, fetched: Crypto -> Option<real>): (r: Option<seq<Quote>>)
    ensures r.Some? <==> forall i :: 0 <= i < |symbols| ==> fetched(symbols[i]).Some?
    ensures r.Some? ==> |r.value| == |symbols|
    ensures r.Some? ==> forall i :: 0 <= i < |symbols| ==> r.value[i] == Quote(symbols[i], fetched(symbols[i]).value)
  {
    if symbols == [] then Some([])
    else
      match fetched(symbols[0])
      case None => None
      case Some(price) =>
        match JoinAll(symbols[1..], fetched)
        case None => None
        case Some(rest) => Some([Quote(symbols[0], price)] + rest)
  }

  /** The price table after writing the quotes into it one by one, in order. */
  function Merged(prices: map<Crypto, real>, quotes: seq<Quote>): map<Crypto, real>
  {
    if quotes == [] then prices
    else
      var last := quotes[|quotes| - 1];
      Merged(prices, quotes[..|quotes| - 1])[last.symbol := last.price]
  }

  predicate Quoted(quotes: seq<Quote>, s: Crypto) {
    exists i :: 0 <= i < |quotes| && quotes[i].symbol == s
  }

  /**
   * When no symbol is quoted twice, merging sets every quoted symbol to its
   * price, keeps every other entry, and loses no entry.
   */
  lemma {:induction false} MergedSetsQuotedPrices(prices: map<Crypto, real>, quotes: seq<Quote>)
    requires forall i, j :: 0 <= i < j < |quotes| ==> quotes[i].symbol != quotes[j].symbol
    ensures prices.Keys <= Merged(prices, quotes).Keys
    ensures forall i :: 0 <= i < |quotes| ==>
              quotes[i].symbol in Merged(prices, quotes) && Merged(prices, quotes)[quotes[i].symbol] == quotes[i].price
    ensures forall s :: s in prices && !Quoted(quotes, s) ==> Merged(prices, quotes)[s] == prices[s]
  {
    if quotes != [] {
      var init := quotes[..|quotes| - 1];
      var last := quotes[|quotes| - 1];
      MergedSetsQuotedPrices(prices, init);
      forall i | 0 <= i < |quotes|
        ensures Merged(prices, quotes)[quotes[i].symbol] == quotes[i].price
      {
        if i < |init| {
          assert init[i] == quotes[i];
        }
      }
    }
  }

  /**
   * Joining the requests for every asset succeeds exactly when each request
   * does, and merging the joined quotes into a complete price table gives
   * each asset its fetched price.
   */
  lemma JoinedPricesCoverEveryAsset(prices: map<Crypto, real>, fetched: Crypto -> Option<real>)
    requires forall c: Crypto :: c in prices
    ensures JoinAll(Symbols, fetched).Some? <==> forall c: Crypto :: fetched(c).Some?
    ensures JoinAll(Symbols, fetched).Some? ==>
              forall c: Crypto :: c in Merged(prices, JoinAll(Symbols, fetched).value)
                && Merged(prices, JoinAll(Symbols, fetched).value)[c] == fetched(c).value
  {
    SymbolsListEveryAssetOnce();
    var joined := JoinAll(Symbols, fetched);
    if joined.Some? {
      var quotes := joined.value;
      MergedSetsQuotedPrices(prices, quotes);
      forall c: Crypto
        ensures fetched(c).Some? && c in Merged(prices, quotes) && Merged(prices, quotes)[c] == fetched(c).value
      {
        var k :| 0 <= k < |Symbols| && Symbols[k] == c;
        assert fetched(Symbols[k]).Some?;
        assert quotes[k] == Quote(c, fetched(c).value);
      }
    }
  }

  /**
   * The `state` object together with the two local-storage entries the core
   * reads and writes: the rate cache and the last-notification stamp.
   */
  class AppState {
    var rates: Rates
    var cryptoPrices: map<Crypto, real>
    /** The instant of the last update shown, `None` before any. */
    var lastUpdate: Option<int>
    /** The rates held when the last refresh began; `None` is the initial empty object. */
    var previousRates: Option<Rates>
    var cache: Slot
    var lastNotification: StoredStamp

    /** Every asset has a price entry. */
    ghost predicate Valid()
      reads this
    {
      forall c: Crypto :: c in cryptoPrices
    }

    /** The state at start-up, over whatever the two storage entries already hold. */
    constructor (stored: Slot, notified: StoredStamp)
      ensures Valid()
      ensures rates == NoRates && lastUpdate == None && previousRates == None
      ensures forall c: Crypto :: cryptoPrices[c] == 0.0
      ensures cache == stored && lastNotification == notified
    {
      rates := NoRates;
      SymbolsListEveryAssetOnce();
      cryptoPrices := map c | c in Symbols :: 0.0;
      lastUpdate := None;
      previousRates := None;
      cache := stored;
      lastNotification := notified;
    }

    /** Overwrites the single cache record, stamped with `now`. */
    method SaveToCache(saved: Rates, updatedAt: int, now: int)
      modifies this`cache
      ensures cache == Stored(CacheRecord(saved, updatedAt, now))
      ensures Load(cache, now) == Some(CacheRecord(saved, updatedAt, now))
    {
      cache := Stored(CacheRecord(saved, updatedAt, now));
    }

    /**
     * Refreshes the three rates. The requests run one after another and each
     * rate is written as soon as its response is read, so a failure leaves
     * the rates written before it in place. On any failure a fresh cache
     * record, if there is one, replaces the rates and the update instant.
     * A successful refresh also asks for a notification (`notify`) on its
     * own: it neither consults the daily throttle nor stores a stamp.
     */
    method FetchExchangeRates(bcv: Option<real>, eur: Option<real>, binance: Option<real>, now: int)
      returns (outcome: RefreshOutcome, notify: bool)
      requires Valid()
      modifies this`rates, this`previousRates, this`lastUpdate, this`cache
      ensures Valid()
      ensures previousRates == Some(old(rates))
      ensures cryptoPrices == old(cryptoPrices) && lastNotification == old(lastNotification)
      // The refresh's own notification is unthrottled: it follows the outcome alone.
      ensures notify <==> outcome == Updated
      // All three requests succeed: new rates, stamped and cached.
      ensures bcv.Some? && eur.Some? && binance.Some? ==>
                && outcome == Updated
                && rates == Rates(bcv.value, eur.value, binance.value)
                && lastUpdate == Some(now)
                && cache == Stored(CacheRecord(rates, now, now))
      // A request fails and the cache holds a fresh record: that record is served.
      ensures !(bcv.Some? && eur.Some? && binance.Some?) && Load(old(cache), now).Some? ==>
                && outcome == Offline
                && rates == old(cache).record.rates
                && lastUpdate == Some(old(cache).record.timestamp)
                && cache == old(cache)
      // A request fails and there is no fresh record: the earlier writes stay.
      ensures !(bcv.Some? && eur.Some? && binance.Some?) && Load(old(cache), now).None? ==>
                && outcome == Failed
                && rates.bcv == (if bcv.Some? then bcv.value else old(rates).bcv)
                && rates.eur == (if bcv.Some? && eur.Some? then eur.value else old(rates).eur)
                && rates.binance == old(rates).binance
                && lastUpdate == old(lastUpdate)
                && cache == old(cache)
    {
      previousRates := Some(rates);
      var failed := true;
      if bcv.Some? {
        rates := rates.(bcv := bcv.value);
        if eur.Some? {
          rates := rates.(eur := eur.value);
          if binance.Some? {
            rates := rates.(binance := binance.value);
            failed := false;
          }
        }
      }
      if !failed {
        lastUpdate := Some(now);
        SaveToCache(rates, now, now);
        outcome := Updated;
        notify := true;
      } else {
        notify := false;
        var cached := Load(cache, now);
        if cached.Some? {
          rates := cached.value.rates;
          lastUpdate := Some(cached.value.timestamp);
          outcome := Offline;
        } else {
          outcome := Failed;
        }
      }
    }

    /**
     * Refreshes all crypto prices, all or nothing: the six requests are
     * joined, and only when every one succeeded are the prices written, one
     * symbol at a time. There is no cache fallback.
     */
    method FetchCryptoPrices(fetched: Crypto -> Option<real>) returns (outcome: RefreshOutcome)
      requires Valid()
      modifies this`cryptoPrices
      ensures Valid()
      ensures outcome == Updated || outcome == Failed
      ensures outcome == Updated <==> forall c: Crypto :: fetched(c).Some?
      ensures outcome == Updated ==> forall c: Crypto :: cryptoPrices[c] == fetched(c).value
      ensures outcome == Failed ==> cryptoPrices == old(cryptoPrices)
      ensures rates == old(rates) && previousRates == old(previousRates) && lastUpdate == old(lastUpdate)
      ensures cache == old(cache)
    {
      var joined := JoinAll(Symbols, fetched);
      JoinedPricesCoverEveryAsset(old(cryptoPrices), fetched);
      if joined.None? {
        return Failed;
      }
      var quotes := joined.value;
      var i := 0;
      while i < |quotes|
        invariant 0 <= i <= |quotes|
        invariant cryptoPrices == Merged(old(cryptoPrices), quotes[..i])
      {
        assert quotes[..i + 1][..i] == quotes[..i];
        cryptoPrices := cryptoPrices[quotes[i].symbol := quotes[i].price];
        i := i + 1;
      }
      assert quotes[..i] == quotes;
      outcome := Updated;
    }

    /**
     * The hourly throttle check: when a notification is due it is sent and
     * `now` becomes the stored stamp.
     */
    method CheckDailyNotification(now: int) returns (send: bool)
      modifies this`lastNotification
      ensures send == NotificationDue(old(lastNotification), now)
      ensures lastNotification == if send then Stamp(now) else old(lastNotification)
      // After a check that sends, a later check sends exactly when more than 24 hours have passed.
      ensures send ==> forall later :: NotificationDue(lastNotification, later) <==> later > now + CacheExpiry
    {
      send := NotificationDue(lastNotification, now);
      if send {
        lastNotification := Stamp(now);
      }
    }
  }
}
