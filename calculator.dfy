/**
 * The arithmetic behind the dashboard's change indicators and its three
 * calculators: single conversion, two-rate comparison and crypto conversion.
 *
 * Divisions by a rate or price are not guarded by the application; where
 * one occurs the divisor is required to be non-zero.
 */
module Calculator {
  import opened Domain

  // ---------------------------------------------------------------------
  // Change indicator
  // ---------------------------------------------------------------------

  /** `Neutral` is the `--` placeholder; `Moved` a percentage marked positive or negative. */
  datatype Indicator = Neutral | Moved(percent: real, positive: bool)

  /**
   * The change of a rate since the previous snapshot. An absent or zero
   * previous value gives the placeholder.
   */
  function ChangeIndicator(current: real, previous: Option<real>): (ind: Indicator)
    ensures ind.Neutral? <==> previous.None? || previous.value == 0.0
    ensures ind.Moved? ==> ind.percent * previous.value == (current - previous.value) * 100.0
    ensures ind.Moved? ==> (ind.positive <==> ind.percent > 0.0)
  {
    if previous.None? || previous.value == 0.0 then Neutral
    else
      var change := (current - previous.value) / previous.value * 100.0;
      Moved(change, change > 0.0)
  }

  /** Against a positive previous rate, the mark is positive exactly when the rate rose. */
  lemma PositiveIffRose(current: real, previous: real)
    requires previous > 0.0
    ensures ChangeIndicator(current, Some(previous)).Moved?
    ensures ChangeIndicator(current, Some(previous)).positive <==> current > previous
  {
  }

  /** An unchanged rate shows 0% and is marked negative, not positive. */
  lemma UnchangedIsNegative(rate: real)
    requires rate != 0.0
    ensures ChangeIndicator(rate, Some(rate)) == Moved(0.0, false)
  {
  }

  // ---------------------------------------------------------------------
  // Single conversion
  // ---------------------------------------------------------------------

  /** `ToVes` converts foreign currency into bolivars; `FromVes` the other way. */
  datatype Direction = ToVes | FromVes

  /** The currency a single conversion's result is labelled with. */
  datatype Currency = VES | USD | EUR

  datatype Money = Money(value: real, currency: Currency)

  function ConvertSingle(rates: Rates, kind: RateKind, direction: Direction, amount: real): (r: Money)
    requires direction == FromVes ==> rates.Get(kind) != 0.0
    ensures direction == ToVes ==> r == Money(amount * rates.Get(kind), VES)
    ensures direction == FromVes ==> r.value * rates.Get(kind) == amount
    // The USDT rate's result is labelled USD, like the dollar rate's.
    ensures direction == FromVes ==> r.currency == if kind == Eur then EUR else USD
  {
    var rate := rates.Get(kind);
    if direction == ToVes then Money(amount * rate, VES)
    else Money(amount / rate, if kind == Eur then EUR else USD)
  }

  /** Converting into bolivars and back, or out of bolivars and back, gives the amount again. */
  lemma SingleRoundTrip(rates: Rates, kind: RateKind, amount: real)
    requires rates.Get(kind) != 0.0
    ensures ConvertSingle(rates, kind, FromVes, ConvertSingle(rates, kind, ToVes, amount).value).value == amount
    ensures ConvertSingle(rates, kind, ToVes, ConvertSingle(rates, kind, FromVes, amount).value).value == amount
  {
  }

  // ---------------------------------------------------------------------
  // Two-rate comparison
  // ---------------------------------------------------------------------

  function Abs(x: real): real {
    if x < 0.0 then -x else x
  }

  /**
   * The percentage difference as the application writes it. `None` stands
   * for the NaN or Infinity that a zero divisor gives.
   */
  function DifferenceAsWritten(result1: real, result2: real): (d: Option<real>)
    ensures d.Some? <==> result2 != 0.0
    ensures d.Some? ==> d.value >= 0.0 && d.value * Abs(result2) == Abs(result1 - result2) * 100.0
  {
    if result2 == 0.0 then None else Some(Abs((result1 - result2) / result2 * 100.0))
  }

  /** An empty amount field reads as 0, so both results are 0 and the difference is not a number. */
  lemma EmptyAmountDifference(rates: Rates, kind1: RateKind, kind2: RateKind)
    requires rates.Get(kind1) != 0.0 && rates.Get(kind2) != 0.0
    ensures DifferenceAsWritten(0.0 / rates.Get(kind1), 0.0 / rates.Get(kind2)) == None
  {
  }

  /** The percentage difference with a zero second result defined as 0. */
  function Difference(result1: real, result2: real): (d: real)
    ensures d >= 0.0
    ensures result2 == 0.0 ==> d == 0.0
    ensures result2 != 0.0 ==> DifferenceAsWritten(result1, result2) == Some(d)
    ensures result1 == result2 ==> d == 0.0
  {
    match DifferenceAsWritten(result1, result2)
    case None => 0.0
    case Some(d) => d
  }

  /**
   * The comparison's four outputs. `difference` is `None` where the
   * application divides by a zero second result and shows NaN or Infinity.
   */
  datatype Comparison = Comparison(result1: real, result2: real, average: real, difference: Option<real>)

  /** One bolivar amount converted at two selected rates, with their average and percentage difference. */
  function Compare(rates: Rates, kind1: RateKind, kind2: RateKind, vesAmount: real): (c: Comparison)
    requires rates.Get(kind1) != 0.0 && rates.Get(kind2) != 0.0
    ensures c.result1 * rates.Get(kind1) == vesAmount
    ensures c.result2 * rates.Get(kind2) == vesAmount
    ensures c.average + c.average == c.result1 + c.result2
    ensures c.result1 <= c.average <= c.result2 || c.result2 <= c.average <= c.result1
    ensures c.difference.Some? <==> vesAmount != 0.0
    ensures c.difference.Some? ==>
              c.difference.value >= 0.0 && c.difference.value * Abs(c.result2) == Abs(c.result1 - c.result2) * 100.0
    ensures rates.Get(kind1) == rates.Get(kind2) ==> c.average == c.result1
    ensures rates.Get(kind1) == rates.Get(kind2) && vesAmount != 0.0 ==> c.difference == Some(0.0)
    ensures vesAmount == 0.0 ==> c == Comparison(0.0, 0.0, 0.0, None)
  {
    var result1 := vesAmount / rates.Get(kind1);
    var result2 := vesAmount / rates.Get(kind2);
    Comparison(result1, result2, (result1 + result2) / 2.0, DifferenceAsWritten(result1, result2))
  }

  /**
   * The corrected difference agrees with the comparison wherever the
   * comparison's difference is a number, and is 0 for an empty amount.
   */
  lemma CorrectedDifferenceAgrees(rates: Rates, kind1: RateKind, kind2: RateKind, vesAmount: real)
    requires rates.Get(kind1) != 0.0 && rates.Get(kind2) != 0.0
    ensures var c := Compare(rates, kind1, kind2, vesAmount);
            (c.difference.Some? ==> Difference(c.result1, c.result2) == c.difference.value)
            && (c.difference.None? ==> Difference(c.result1, c.result2) == 0.0)
  {
  }

  /**
   * 1000 bolivars at 36.5 (dollar) against 36.8 (USDT): the dollar buys more,
   * and the two differ by 60/73 percent (about 0.82%).
   */
  lemma CompareExample()
    ensures Compare(Rates(36.5, 39.2, 36.8), Bcv, Binance, 1000.0).result1 > Compare(Rates(36.5, 39.2, 36.8), Bcv, Binance, 1000.0).result2
    ensures Compare(Rates(36.5, 39.2, 36.8), Bcv, Binance, 1000.0).difference == Some(60.0 / 73.0)
  {
  }

  // ---------------------------------------------------------------------
  // Crypto conversion
  // ---------------------------------------------------------------------

  datatype CryptoDirection = UsdtToCrypto | CryptoToUsdt | VesToCrypto | CryptoToVes {
    /** The directions whose result is an amount of crypto. */
    predicate BuysCrypto() {
      this == UsdtToCrypto || this == VesToCrypto
    }
  }

  /** The unit a crypto conversion's result is labelled with. */
  datatype Unit = Satoshis | Gwei | Coins(crypto: Crypto) | Usdt | Bolivars

  /** How many of `unit` make one coin. */
  function UnitsPerCoin(unit: Unit): real {
    match unit
    case Satoshis => SatoshisPerBtc
    case Gwei => GweiPerEth
    case _ => 1.0
  }

  datatype Quantity = Quantity(value: real, unit: Unit)

  /**
   * The small-unit option of the crypto calculator: offered for BTC and ETH
   * when buying crypto, and named Satoshis or Gwei.
   */
  function SmallUnitOption(crypto: Crypto, direction: CryptoDirection): (u: Option<Unit>)
    ensures u.Some? <==> (crypto == BTC || crypto == ETH) && direction.BuysCrypto()
    ensures u.Some? ==> u.value == if crypto == BTC then Satoshis else Gwei
  {
    if (crypto == BTC || crypto == ETH) && direction.BuysCrypto() then
      Some(if crypto == BTC then Satoshis else Gwei)
    else None
  }

  /** A number of coins, rescaled to satoshis or gwei when requested for BTC or ETH. */
  function InCryptoUnits(crypto: Crypto, coins: real, useSmall: bool): Quantity {
    if useSmall && crypto == BTC then Quantity(coins * SatoshisPerBtc, Satoshis)
    else if useSmall && crypto == ETH then Quantity(coins * GweiPerEth, Gwei)
    else Quantity(coins, Coins(crypto))
  }

  /**
   * One crypto conversion. `cryptoPrice` is the asset's entry in the state's
   * price table (USDT per coin) and `usdtVes` is the state's Binance rate
   * (bolivars per USDT).
   */
  function ConvertCrypto(crypto: Crypto, direction: CryptoDirection, amount: real, useSmall: bool,
                         cryptoPrice: real, usdtVes: real): (q: Quantity)
    requires direction.BuysCrypto() ==> cryptoPrice != 0.0
    requires direction == VesToCrypto ==> usdtVes != 0.0
    ensures direction == CryptoToUsdt ==> q == Quantity(amount * cryptoPrice, Usdt)
    ensures direction == CryptoToVes ==> q == Quantity(amount * cryptoPrice * usdtVes, Bolivars)
    ensures direction == UsdtToCrypto ==> q.value * cryptoPrice == amount * UnitsPerCoin(q.unit)
    ensures direction == VesToCrypto ==> q.value * cryptoPrice * usdtVes == amount * UnitsPerCoin(q.unit)
    ensures direction.BuysCrypto() ==>
              q.unit == if useSmall && SmallUnitOption(crypto, direction).Some?
                        then SmallUnitOption(crypto, direction).value
                        else Coins(crypto)
  {
    match direction
    case UsdtToCrypto => InCryptoUnits(crypto, amount / cryptoPrice, useSmall)
    case CryptoToUsdt => Quantity(amount * cryptoPrice, Usdt)
    case VesToCrypto =>
      var usdtAmount := amount / usdtVes;
      InCryptoUnits(crypto, usdtAmount / cryptoPrice, useSmall)
    case CryptoToVes =>
      var usdtValue := amount * cryptoPrice;
      Quantity(usdtValue * usdtVes, Bolivars)
  }

  /** 1 USDT at a BTC price of 50000 is 2000 satoshis when the small unit is chosen. */
  lemma SatoshiExample(usdtVes: real)
    ensures ConvertCrypto(BTC, UsdtToCrypto, 1.0, true, 50000.0, usdtVes) == Quantity(2000.0, Satoshis)
  {
  }

  /** A result is in satoshis or gwei only when the small-unit option is offered and ticked. */
  lemma ScaledOnlyWhenOffered(crypto: Crypto, direction: CryptoDirection, amount: real, useSmall: bool,
                              cryptoPrice: real, usdtVes: real)
    requires direction.BuysCrypto() ==> cryptoPrice != 0.0
    requires direction == VesToCrypto ==> usdtVes != 0.0
    ensures var q := ConvertCrypto(crypto, direction, amount, useSmall, cryptoPrice, usdtVes);
            (q.unit == Satoshis || q.unit == Gwei) <==> useSmall && SmallUnitOption(crypto, direction).Some?
  {
  }

  /** Buying with bolivars first converts them to USDT at the Binance rate. */
  lemma VesGoesThroughUsdt(crypto: Crypto, amount: real, useSmall: bool, cryptoPrice: real, usdtVes: real)
    requires cryptoPrice != 0.0 && usdtVes != 0.0
    ensures ConvertCrypto(crypto, VesToCrypto, amount, useSmall, cryptoPrice, usdtVes)
         == ConvertCrypto(crypto, UsdtToCrypto, amount / usdtVes, useSmall, cryptoPrice, usdtVes)
    ensures ConvertCrypto(crypto, CryptoToVes, amount, useSmall, cryptoPrice, usdtVes).value
         == ConvertCrypto(crypto, CryptoToUsdt, amount, useSmall, cryptoPrice, usdtVes).value * usdtVes
  {
  }

  /** Buying crypto in whole coins and selling it again returns the amount, through USDT or through bolivars. */
  lemma CryptoRoundTrip(crypto: Crypto, amount: real, cryptoPrice: real, usdtVes: real)
    requires cryptoPrice != 0.0 && usdtVes != 0.0
    ensures ConvertCrypto(crypto, CryptoToUsdt,
              ConvertCrypto(crypto, UsdtToCrypto, amount, false, cryptoPrice, usdtVes).value,
              false, cryptoPrice, usdtVes).value == amount
    ensures ConvertCrypto(crypto, CryptoToVes,
              ConvertCrypto(crypto, VesToCrypto, amount, false, cryptoPrice, usdtVes).value,
              false, cryptoPrice, usdtVes).value == amount
  {
  }
}
