# Venezuelan exchange-rate dashboard: rate state, cache and conversions

This project models the logic core of a browser dashboard that shows the
bolivar (VES) price of the dollar and euro rates the app labels BCV, and of
USDT (Binance P2P bid), the USDT prices of six crypto assets, and three
calculators. Everything the core decides is expressed over exact values:
network responses and the clock are inputs, rates and prices are `real`,
and instants are integer milliseconds.

- `domain.dfy` (module `Domain`): the rate record, the crypto assets in request
  order, and the constants (24-hour expiry, satoshis per BTC, gwei per ETH).
- `cache.dfy` (module `Cache`): the single local-storage record and its
  freshness test.
- `notifications.dfy` (module `Notifications`): the once-a-day notification
  throttle.
- `calculator.dfy` (module `Calculator`): the change indicator, single
  conversion, two-rate comparison, four-direction crypto conversion and the
  small-unit option.
- `api.dfy` (module `Api`): the shared state as a class `AppState` with the two
  refresh operations, the cache write and the throttle update.

The model keeps four behaviours of the code:

- The rate refresh is not all-or-nothing. Its three requests run one after
  another and each rate is written as soon as it arrives. A failure with no
  fresh cache record therefore leaves the earlier rates overwritten.
- Only `rates` and `lastUpdate` are saved to the cache. The crypto refresh saves
  nothing and has no cache fallback.
- The daily throttle does not bound notifications. A successful rate refresh
  asks for one on its own (app.js:197), without consulting the throttle and
  without storing a stamp.
- The comparison's percentage difference has no zero guard: for an empty
  amount it is not a number. See "## Findings" for the corrected difference.

## Model

| member | source | states |
|---|---|---|
| Domain.SymbolsListEveryAssetOnce | app.js:221 | every crypto asset is requested, and no symbol is requested twice |
| Cache.Load | app.js:141-158 | the stored record is returned exactly when the slot holds a parsed record and `now - timestamp < 86,400,000`; an absent, corrupt or 24-hour-old record yields nothing |
| Cache.LoadAtSaveTime | app.js:133-139 | a record read back at the instant it was saved is returned intact |
| Cache.FreshEarlier | app.js:147-149 | a record that is fresh at some instant was fresh, with the same contents, at every earlier instant |
| Cache.ExpiredFromADay | app.js:147-153 | from 24 hours of age on, the record counts as absent |
| Cache.ExpiryExamples | app.js:147-153 | a record 25 hours old is absent; one 1 hour old is returned intact |
| Notifications.NotificationDue | app.js:585 | a notification is due exactly when no stamp is stored, or the stored stamp is more than 24 hours old; an unparseable stamp never makes one due |
| Notifications.ThrottleDueOnlyAfterADay | app.js:585-588 | with the stamp `t` stored, the throttle finds a notification due exactly when `now > t + 24h` |
| Notifications.UnparsableStampBlocks | app.js:585 | a stored stamp that does not parse blocks the notification at every instant |
| Notifications.OppositeStrictness | app.js:585-588 | the throttle's strict `>` against the cache test's strict `<` (app.js:149), over the same constant: a record and a stamp of the same age are never both fresh and due, and at exactly 24 hours neither holds |
| Calculator.ChangeIndicator | app.js:268-281 | neutral `--` exactly when the previous rate is absent or 0; otherwise the percentage `p` satisfies `p * previous == (current - previous) * 100`, and the positive mark is exactly `p > 0` |
| Calculator.PositiveIffRose | app.js:276-280 | against a positive previous rate, the positive mark holds exactly when the rate rose |
| Calculator.UnchangedIsNegative | app.js:276-280 | an unchanged rate shows 0% with the negative mark |
| Calculator.ConvertSingle | app.js:300-316 | into bolivars: `amount * rate`, labelled VES; out of bolivars: a value that times the rate gives back the amount, labelled EUR for the euro rate and USD for the other two |
| Calculator.SingleRoundTrip | app.js:308-315 | for a non-zero rate, converting into bolivars and back, or out and back, returns the amount |
| Calculator.DifferenceAsWritten | app.js:329 | the unguarded percentage difference: a number exactly when `result2 != 0`, and then `d * abs(result2) == abs(result1 - result2) * 100` with `d >= 0` |
| Calculator.EmptyAmountDifference | app.js:321-329 | with an empty amount field (read as 0) the unguarded difference is not a number, whatever the rates |
| Calculator.Difference | app.js:329 | the corrected difference: never negative, equal to the unguarded value whenever that is a number, 0 when `result2 == 0` or when the two results agree |
| Calculator.Compare | app.js:318-346 | each result times its rate gives back the bolivar amount; the average is the midpoint and lies between the two results; the difference is a number exactly when the amount is non-zero, and then it is at least 0, equals `abs(result1 - result2) / abs(result2) * 100`, and is 0 when the two rates are equal; an empty amount (read as 0) gives zero results and no number for the difference |
| Calculator.CorrectedDifferenceAgrees | app.js:326-329 | the corrected difference equals the comparison's difference wherever that is a number, and is 0 where the comparison has none |
| Calculator.CompareExample | app.js:326-329 | 1000 VES at 36.5 against 36.8: the first result is larger and the difference is exactly 60/73 percent |
| Calculator.SmallUnitOption | app.js:416-421 | the small-unit option is offered exactly for BTC or ETH in the two directions that buy crypto, named Satoshis for BTC and Gwei for ETH |
| Calculator.ConvertCrypto | app.js:348-400 | selling gives `amount * price` USDT, times the USDT rate in bolivars; buying gives a value that times the price (and the USDT rate, from bolivars) equals the amount in the result's unit; the result is in satoshis or gwei exactly when the small unit is ticked and offered, otherwise in coins |
| Calculator.SatoshiExample | app.js:360-364 | 1 USDT at a BTC price of 50000 is 2000 satoshis |
| Calculator.ScaledOnlyWhenOffered | app.js:359-390 | a result is in a small unit exactly when the option is ticked and offered for that asset and direction |
| Calculator.VesGoesThroughUsdt | app.js:378-395 | buying with bolivars is buying with `amount / usdtVes` USDT; selling for bolivars is selling for USDT times `usdtVes` |
| Calculator.CryptoRoundTrip | app.js:360-395 | buying whole coins and selling them again returns the amount, through USDT and through bolivars |
| Api.JoinAll | app.js:221-228 | joining the price requests yields quotes exactly when every request succeeded, one per symbol in request order carrying that symbol's fetched price |
| Api.MergedSetsQuotedPrices | app.js:229-231 | writing distinct quotes one by one sets each quoted symbol to its price, keeps every other entry and loses none |
| Api.JoinedPricesCoverEveryAsset | app.js:221-231 | the joined requests for all six assets succeed exactly when each one does, and writing the joined quotes into a complete price table gives every asset its own fetched price |
| Api.AppState.constructor | app.js:4-21 | start-up state: zero rates and prices, no update instant, empty previous rates, storage as found |
| Api.AppState.SaveToCache | app.js:133-139 | the single cache record is overwritten with the given rates and update instant, stamped `now`, and a load at that instant returns it |
| Api.AppState.FetchExchangeRates | app.js:163-215 | previous rates become the rates held before the call; on full success the three fetched rates, `lastUpdate = now` and the cache record; on a failure with a fresh record, its rates and its timestamp; otherwise the rates written before the failing request stay, later ones and `lastUpdate` do not change; crypto prices and the notification stamp never change; a notification is asked for exactly when the refresh succeeded (app.js:197), without the daily throttle and without storing a stamp |
| Api.AppState.FetchCryptoPrices | app.js:217-242 | updated exactly when all six requests succeed, and then every asset holds its fetched price; on any failure the prices are unchanged; rates, update instant and cache are never touched |
| Api.AppState.CheckDailyNotification | app.js:580-588 | sends exactly when the throttle says a notification is due, and then stores `now` as the stamp; otherwise the stamp is unchanged; after a check at `t` that sends, a check at a later instant sends exactly when it is more than 24 hours after `t` |

## Left out

- Network requests and response parsing: each endpoint's result is an input, a value or a failure. JSON field extraction is not modelled, nor `parseFloat` turning a malformed price into NaN.
- The clock: one `now` per refresh. It stands for the instant the outcome is decided. It is used for `lastUpdate`, the cache timestamp and the fallback's freshness test.
- Api.AppState.FetchExchangeRates: does not model a failing cache write (a storage quota error). In the code that would route a fully fetched refresh into the cache-fallback branch.
- Api.AppState.FetchExchangeRates: requests after the first failure are never issued, so their outcomes are ignored.
- Overlapping refreshes started by timers, the refresh button and the online event run concurrently; their interleaving is not modelled.
- Floating-point behaviour: rounding, and NaN and Infinity from a zero rate. `parseFloat`'s NaN is not modelled; an empty or unparsable amount is passed in as 0, which is what `|| 0` makes it. Divisions by a rate or price are preconditions, because the code does not guard them.
- Display formatting: `formatCurrency`, `toLocaleString`, 2, 8 and 0 decimal places, and date rendering.
- DOM, UI and platform glue, which make no decisions of the core: element lookups and writes, toasts, loading overlay, tabs, event listeners, input labels, share and clipboard, the `Notification` call itself and its permission test (the model's `notify` and `send` results say when the code asks for one), service-worker registration, `init`'s start-up sequence.
- sw.js is not part of this model. It only handles the browser's asset cache, fetch and push events.

## Findings

| source | as written | input that shows it | evidently intended | confidence | as-written member | corrected member |
|---|---|---|---|---|---|---|
| app.js:329 | the comparison's percentage difference divides by `result2` with no guard | an empty comparison amount (read as 0) with any non-zero rates: both results are 0 and the difference is 0/0, shown as "NaN%" | a difference of 0 when `result2` is 0 | not executed; high | Calculator.DifferenceAsWritten, used by Calculator.Compare (shown by Calculator.EmptyAmountDifference) | Calculator.Difference (related to Calculator.Compare by Calculator.CorrectedDifferenceAgrees) |
