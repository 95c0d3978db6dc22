/**
 * The liquidity normaliser: `isSolToken` and `deriveLiquidity`. It turns a
 * pair's liquidity figures into a SOL-equivalent amount used for scoring and
 * an amount, kind and symbol used for display, through a chain of fallbacks.
 */
module Normalizer {
  import opened Config
  import opened Text
  import opened PairRecord

  datatype DisplayKind = SolDisplay | UsdDisplay

  datatype LiquidityInfo = LiquidityInfo(
    solForScore: real,
    displayAmount: real,
    displayKind: DisplayKind,
    displaySymbol: string)

  /**
   * `isSolToken(address, symbol)`: the quote token is SOL when its upper-cased
   * address is the SOL mint or its upper-cased symbol is SOL or WSOL.
   */
  predicate IsSolToken(address: string, symbol: string)
  {
    if address == "" && symbol == "" then false
    else if address != "" && ToUpper(address) == SolMint then true
    else if symbol == "" then false
    else
      var upper := ToUpper(symbol);
      upper == "SOL" || upper == "WSOL"
  }

  /** No upper-cased string is the SOL mint, which holds lower-case letters. */
  lemma UpperIsNeverSolMint(s: string)
    ensures ToUpper(s) != SolMint
  {
    if |ToUpper(s)| == |SolMint| {
      assert SolMint[1] == 'o';
      assert !('a' <= ToUpper(s)[1] <= 'z');
    }
  }

  /** So `isSolToken` decides on the symbol alone: its address test can never succeed. */
  lemma SolTokenBySymbolOnly(address: string, symbol: string)
    ensures IsSolToken(address, symbol) <==> ToUpper(symbol) == "SOL" || ToUpper(symbol) == "WSOL"
  {
    UpperIsNeverSolMint(address);
  }

  /** The pool is SOL-quoted: `isSolToken` on the upper-cased quote address and symbol. */
  predicate IsSolPool(p: Pair)
  {
    IsSolToken(ToUpper(p.quoteToken.address), ToUpper(p.quoteToken.symbol))
  }

  /** A pool is SOL-quoted exactly when its quote symbol, upper-cased, is SOL or WSOL. */
  lemma SolPoolBySymbol(p: Pair)
    ensures IsSolPool(p) <==> ToUpper(p.quoteToken.symbol) in {"SOL", "WSOL"}
  {
    SolTokenBySymbolOnly(ToUpper(p.quoteToken.address), ToUpper(p.quoteToken.symbol));
    ToUpperIdempotent(p.quoteToken.symbol);
  }

  /** The SOL price used to convert USD into SOL; it is never zero. */
  function SolPriceUsd(p: Pair): (price: real)
    ensures price > 0.0
    ensures price == p.quoteToken.priceUsd || price == DefaultSolPriceUsd
  {
    var quotePrice := p.quoteToken.priceUsd;
    if (IsSolPool(p) && quotePrice > 0.0) || quotePrice > 10.0 then quotePrice else DefaultSolPriceUsd
  }

  /** Quote-side liquidity: the reported quote amount, else base amount times native price. */
  function EstimatedQuoteAmount(p: Pair): (amount: real)
    ensures amount >= 0.0
    ensures amount > 0.0 <==> p.liquidityQuote > 0.0 || (p.liquidityBase > 0.0 && p.priceNative > 0.0)
  {
    if p.liquidityQuote > 0.0 then p.liquidityQuote
    else if p.liquidityBase > 0.0 && p.priceNative > 0.0 then p.liquidityBase * p.priceNative
    else 0.0
  }

  /**
   * USD liquidity: the reported figure when positive, else the quote amount
   * valued at the quote price, else the base amount valued at the base price.
   */
  function UsdLiquidity(p: Pair, liqUsd: real): (usd: real)
    ensures usd >= 0.0
    ensures usd > 0.0 <==>
      || liqUsd > 0.0
      || (EstimatedQuoteAmount(p) > 0.0 && p.quoteToken.priceUsd > 0.0)
      || (p.liquidityBase > 0.0 && p.priceUsd > 0.0)
  {
    var quoteAmount := EstimatedQuoteAmount(p);
    if liqUsd > 0.0 then liqUsd
    else if quoteAmount > 0.0 && p.quoteToken.priceUsd > 0.0 then quoteAmount * p.quoteToken.priceUsd
    else if p.liquidityBase > 0.0 && p.priceUsd > 0.0 then p.liquidityBase * p.priceUsd
    else 0.0
  }

  /**
   * SOL-equivalent liquidity: in a SOL pool the quote amount itself, otherwise
   * (and in a SOL pool without a quote amount) USD liquidity over the SOL price.
   */
  function SolEstimate(p: Pair, liqUsd: real): (sol: real)
    ensures sol >= 0.0
  {
    var quoteAmount := EstimatedQuoteAmount(p);
    var usd := UsdLiquidity(p, liqUsd);
    if IsSolPool(p) && quoteAmount > 0.0 then quoteAmount
    else if usd > 0.0 then usd / SolPriceUsd(p)
    else 0.0
  }

  /** Keeps a positive amount and maps everything else to zero. */
  function Clamp(x: real): (y: real)
    ensures y >= 0.0 && (y == x || y == 0.0)
  {
    if x > 0.0 then x else 0.0
  }

  /** What `deriveLiquidity(pair, liqUsd)` returns. */
  function Liquidity(p: Pair, liqUsd: real): (info: LiquidityInfo)
    ensures info.solForScore >= 0.0 && info.displayAmount >= 0.0
    ensures info.displayKind == SolDisplay <==> IsSolPool(p)
  {
    var solPool := IsSolPool(p);
    var quoteAmount := EstimatedQuoteAmount(p);
    var symbol := ToUpper(p.quoteToken.symbol);
    LiquidityInfo(
      Clamp(SolEstimate(p, liqUsd)),
      Clamp(if !solPool then UsdLiquidity(p, liqUsd)
            else if quoteAmount > 0.0 then quoteAmount
            else SolEstimate(p, liqUsd)),
      if solPool then SolDisplay else UsdDisplay,
      if solPool then "SOL" else if symbol != "" then symbol else "USD")
  }

  /** The display symbol is SOL for a SOL pool, else the upper-cased quote symbol, else USD. */
  lemma DisplaySymbol(p: Pair, liqUsd: real)
    ensures var info := Liquidity(p, liqUsd);
      info.displaySymbol ==
        if ToUpper(p.quoteToken.symbol) in {"SOL", "WSOL"} then "SOL"
        else if p.quoteToken.symbol != "" then ToUpper(p.quoteToken.symbol)
        else "USD"
  {
    SolPoolBySymbol(p);
  }

  /** In a SOL pool that reports a positive quote amount, that amount is both the score and the display figure. */
  lemma SolPoolScoresQuoteAmount(p: Pair, liqUsd: real)
    requires IsSolPool(p) && p.liquidityQuote > 0.0
    ensures Liquidity(p, liqUsd).solForScore == p.liquidityQuote
    ensures Liquidity(p, liqUsd).displayAmount == p.liquidityQuote
  {
  }

  /**
   * Outside a SOL pool the SOL-equivalent is the USD liquidity expressed in SOL:
   * multiplying it back by the SOL price gives the USD liquidity.
   */
  lemma SolEquivalentOfUsd(p: Pair, liqUsd: real)
    requires !IsSolPool(p) || EstimatedQuoteAmount(p) <= 0.0
    ensures Liquidity(p, liqUsd).solForScore * SolPriceUsd(p) == UsdLiquidity(p, liqUsd)
  {
    var usd := UsdLiquidity(p, liqUsd);
    if usd > 0.0 {
      var price := SolPriceUsd(p);
      assert usd / price > 0.0;
      assert usd / price * price == usd;
    }
  }

  /**
   * The SOL-equivalent is positive exactly when some liquidity figure is
   * usable: a quote amount in a SOL pool, or a positive USD liquidity.
   */
  lemma SolForScorePositive(p: Pair, liqUsd: real)
    ensures Liquidity(p, liqUsd).solForScore > 0.0 <==>
      (IsSolPool(p) && EstimatedQuoteAmount(p) > 0.0) || UsdLiquidity(p, liqUsd) > 0.0
  {
    var usd := UsdLiquidity(p, liqUsd);
    if usd > 0.0 {
      assert usd / SolPriceUsd(p) > 0.0;
    }
  }

  /**
   * `deriveLiquidity`, step by step as the popup writes it: USD liquidity and
   * the SOL estimate are reassigned through the fallback chain, then clamped.
   */
  method DeriveLiquidity(p: Pair, liqUsd: real) returns (info: LiquidityInfo)
    ensures info == Liquidity(p, liqUsd)
  {
    var quoteSymbol := ToUpper(p.quoteToken.symbol);
    var quoteAddress := ToUpper(p.quoteToken.address);
    var liquidityQuote := p.liquidityQuote;
    var baseLiquidity := p.liquidityBase;
    var priceNative := p.priceNative;
    var priceUsd := p.priceUsd;

    var isSolPool := IsSolToken(quoteAddress, quoteSymbol);
    assert isSolPool == IsSolPool(p);

    var quoteTokenPriceUsd := p.quoteToken.priceUsd;
    var solPriceUsdCandidate :=
      if (isSolPool && quoteTokenPriceUsd > 0.0) || quoteTokenPriceUsd > 10.0
      then quoteTokenPriceUsd
      else DefaultSolPriceUsd;
    assert solPriceUsdCandidate == SolPriceUsd(p);

    var estimatedQuoteAmount :=
      if liquidityQuote > 0.0 then liquidityQuote
      else if baseLiquidity > 0.0 && priceNative > 0.0 then baseLiquidity * priceNative
      else 0.0;
    assert estimatedQuoteAmount == EstimatedQuoteAmount(p);

    var usdLiquidity := if liqUsd > 0.0 then liqUsd else 0.0;
    if usdLiquidity <= 0.0 && estimatedQuoteAmount > 0.0 && quoteTokenPriceUsd > 0.0 {
      usdLiquidity := estimatedQuoteAmount * quoteTokenPriceUsd;
      assert usdLiquidity > 0.0;
    }
    if usdLiquidity <= 0.0 && baseLiquidity > 0.0 && priceUsd > 0.0 {
      usdLiquidity := baseLiquidity * priceUsd;
    }
    assert usdLiquidity == UsdLiquidity(p, liqUsd);

    var solEstimate := 0.0;
    if isSolPool {
      solEstimate :=
        if estimatedQuoteAmount > 0.0 then estimatedQuoteAmount
        else if usdLiquidity > 0.0 then usdLiquidity / solPriceUsdCandidate
        else 0.0;
    } else if usdLiquidity > 0.0 {
      solEstimate := usdLiquidity / solPriceUsdCandidate;
    }
    assert solEstimate == SolEstimate(p, liqUsd);

    var displayKind := if isSolPool then SolDisplay else UsdDisplay;
    var displayAmount :=
      if displayKind == SolDisplay then
        (if estimatedQuoteAmount > 0.0 then estimatedQuoteAmount else solEstimate)
      else usdLiquidity;

    var displaySymbol := if displayKind == SolDisplay then "SOL" else if quoteSymbol != "" then quoteSymbol else "USD";

    info := LiquidityInfo(
      if solEstimate > 0.0 then solEstimate else 0.0,
      if displayAmount > 0.0 then displayAmount else 0.0,
      displayKind,
      displaySymbol);
  }
}
