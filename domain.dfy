/**
 * The values held by the dashboard's shared `state` object and the constants
 * that drive caching and crypto sub-unit scaling.
 *
 * Exchange rates are bolivars (VES) per unit of foreign currency; crypto
 * prices are USDT per coin. Numbers are exact `real`s and instants are
 * integer milliseconds since the epoch.
 */
module Domain {

  datatype Option<+T> = None | Some(value: T)

  /** The three rates shown on the dashboard: the dollar and euro rates the app labels BCV, and USDT on Binance P2P. */
  datatype RateKind = Bcv | Eur | Binance

  datatype Rates = Rates(bcv: real, eur: real, binance: real) {
    /** The rate selected by a `<select>` value, as in `state.rates[rateType]`. */
    function Get(kind: RateKind): real {
      match kind
      case Bcv => bcv
      case Eur => eur
      case Binance => binance
    }
  }

  /** The start-up value: zero is the "not yet fetched" sentinel. */
  const NoRates: Rates := Rates(0.0, 0.0, 0.0)

  /** The crypto assets priced against USDT. */
  datatype Crypto = BTC | ETH | BNB | XRP | SOL | PAXG

  /** The symbols whose prices are requested, in request order. */
  const Symbols: seq<Crypto> := [BTC, ETH, BNB, XRP, SOL, PAXG]

  /** Age in milliseconds at which a cached record expires: 24 hours. */
  const CacheExpiry: int := 24 * 60 * 60 * 1000

  const SatoshisPerBtc: real := 100000000.0
  const GweiPerEth: real := 1000000000.0

  /** Every asset is requested, and each exactly once. */
  lemma SymbolsListEveryAssetOnce()
    ensures forall c: Crypto :: c in Symbols
    ensures forall i, j :: 0 <= i < j < |Symbols| ==> Symbols[i] != Symbols[j]
  {
    forall c: Crypto
      ensures c in Symbols
    {
      var i := match c
        case BTC => 0 case ETH => 1 case BNB => 2
        case XRP => 3 case SOL => 4 case PAXG => 5;
      assert Symbols[i] == c;
    }
  }
}
