/** The target quote of one update: prices from the fair price and edge, moved by the policy, and sized from the notional. */
module Quoting {
  import opened Types
  import opened PriceImprovement
  import opened Venue
  import opened PriceMath
  import opened Policy
  import opened Parameters

  datatype Quote = Quote(bidPrice: U64, bidSize: U64, askPrice: U64, askSize: U64)

  /** The edge-derived prices before the policy. */
  function RawPrices(fair: U64, h: MarketHeader, p: Params): Prices
    requires BidDefined(fair, h, p.quoteEdgeInBps) && AskDefined(fair, h, p.quoteEdgeInBps)
  {
    Prices(BidPrice(fair, h, p.quoteEdgeInBps), AskPrice(fair, h, p.quoteEdgeInBps))
  }

  /** The best other quotes the caller sees on `m`. */
  function BestQuotes(m: Market): (U64, U64)
  {
    BestBidAndAsk(m, TraderIndex(m))
  }

  /**
   * The whole computation stays within u64 and never divides by zero. This is
   * what the program needs of its inputs to complete without panicking.
   */
  predicate QuoteDefined(fair: U64, h: MarketHeader, m: Market, p: Params)
  {
    && ValidParams(p)
    && BidDefined(fair, h, p.quoteEdgeInBps)
    && AskDefined(fair, h, p.quoteEdgeInBps)
    && QuoteLotsDefined(p.quoteSizeInQuoteAtoms, h.quoteLotSize)
    && PolicyDefined(Behavior(p), BestQuotes(m).0, BestQuotes(m).1)
    && SizeDefined(ApplyPolicy(Behavior(p), RawPrices(fair, h, p), BestQuotes(m).0, BestQuotes(m).1).bid, m.tickSize)
    && SizeDefined(ApplyPolicy(Behavior(p), RawPrices(fair, h, p), BestQuotes(m).0, BestQuotes(m).1).ask, m.tickSize)
  }

  /**
   * The quote an update aims for. Both prices are positive, the bid is at or
   * below the fair price and the ask at or above it, each size is the
   * notional divided by price times tick size rounded down, and because the
   * bid never exceeds the ask the bid size is never below the ask size.
   */
  function TargetQuote(fair: U64, h: MarketHeader, m: Market, p: Params): (q: Quote)
    requires QuoteDefined(fair, h, m, p)
    ensures 0 < q.bidPrice <= FairPriceInTicks(fair, h) <= q.askPrice
    ensures q.bidSize >= q.askSize
    ensures var lots := p.quoteSizeInQuoteAtoms * h.quoteLotSize;
      && q.bidSize * (q.bidPrice * m.tickSize) <= lots < (q.bidSize + 1) * (q.bidPrice * m.tickSize)
      && q.askSize * (q.askPrice * m.tickSize) <= lots < (q.askSize + 1) * (q.askPrice * m.tickSize)
  {
    var lots := QuoteLots(p.quoteSizeInQuoteAtoms, h.quoteLotSize);
    var best := BestQuotes(m);
    var prices := ApplyPolicy(Behavior(p), RawPrices(fair, h, p), best.0, best.1);
    LowerPriceBuysNoFewerLots(lots, prices.bid, prices.ask, m.tickSize);
    Quote(prices.bid, SizeInBaseLots(lots, prices.bid, m.tickSize),
          prices.ask, SizeInBaseLots(lots, prices.ask, m.tickSize))
  }

  /**
   * Two markets whose other-trader orders, tick size and caller seat agree
   * yield the same target quote: the caller's own orders never move it.
   */
  lemma TargetQuoteIgnoresOwnOrders(fair: U64, h: MarketHeader, m1: Market, m2: Market, p: Params)
    requires QuoteDefined(fair, h, m1, p)
    requires m1.tickSize == m2.tickSize && m1.callerTraderIndex == m2.callerTraderIndex
    requires Others(m1.bids, TraderIndex(m1)) == Others(m2.bids, TraderIndex(m1))
    requires Others(m1.asks, TraderIndex(m1)) == Others(m2.asks, TraderIndex(m1))
    ensures QuoteDefined(fair, h, m2, p)
    ensures TargetQuote(fair, h, m1, p) == TargetQuote(fair, h, m2, p)
  {
    BestQuotesIgnoreOwnOrders(m1, m2, TraderIndex(m1));
  }
}
