/**
 * The Dexscreener pair record the popup scores, with every field already
 * coerced the way the popup reads it: a number that is absent, not numeric,
 * NaN or zero is 0.0 (`Number(x) || 0`), and a string that is absent or not
 * a string is "". The creation time is the exception: the popup tests the
 * raw value for truthiness and a finite numeric reading, so it is `None`
 * when the raw value is falsy or does not read as a finite number, and
 * `Some` of its numeric reading (which may be 0.0, as for "0") otherwise.
 */
module PairRecord {
  import opened Wrappers

  /** `pair.quoteToken`: symbol and address as given (not yet upper-cased) and its USD price. */
  datatype QuoteToken = QuoteToken(symbol: string, address: string, priceUsd: real)

  datatype Pair = Pair(
    liquidityUsd: real,    // pair.liquidity.usd
    liquidityQuote: real,  // pair.liquidity.quote
    liquidityBase: real,   // pair.liquidity.base
    quoteToken: QuoteToken,
    priceNative: real,     // price of the base token in quote tokens
    priceUsd: real,        // price of the base token in USD
    fdv: real,
    volume5m: real,        // pair.volume.m5
    volume1h: real,        // pair.volume.h1
    buys5m: real,          // pair.txns.m5.buys
    sells5m: real,         // pair.txns.m5.sells
    pairCreatedAt: Option<real>  // creation time in ms since the epoch
  )
}
