/** How the computed quotes are moved relative to the best other quotes. */
module Policy {
  import opened Types
  import opened PriceImprovement
  import opened Venue
  import opened PriceMath

  datatype Prices = Prices(bid: U64, ask: U64)

  function Max(a: U64, b: U64): U64 { if a >= b then a else b }

  function Min(a: U64, b: U64): U64 { if a <= b then a else b }

  /** Dime steps one tick off each best quote; the step must stay within u64. */
  predicate PolicyDefined(behavior: PriceImprovementBehavior, bestBid: U64, bestAsk: U64)
  {
    behavior == Dime ==> 1 <= bestAsk && bestBid < U64_MAX
  }

  /**
   * Join clamps the ask up to the best ask and the bid down to the best bid;
   * Dime does the same against one tick inside them; Ignore leaves the prices.
   * Whatever the mode, the ask only rises and the bid only falls.
   */
  function ApplyPolicy(behavior: PriceImprovementBehavior, p: Prices, bestBid: U64, bestAsk: U64): (r: Prices)
    requires PolicyDefined(behavior, bestBid, bestAsk)
    ensures r.ask >= p.ask && r.bid <= p.bid
    ensures behavior == Ignore ==> r == p
    ensures behavior == Join ==> r.ask >= bestAsk && r.bid <= bestBid
    ensures behavior == Dime ==> r.ask >= bestAsk - 1 && r.bid <= bestBid + 1
  {
    match behavior
    case Join => Prices(Min(p.bid, bestBid), Max(p.ask, bestAsk))
    case Dime => Prices(Min(p.bid, bestBid + 1), Max(p.ask, bestAsk - 1))
    case Ignore => p
  }

  /** A price Join or Dime moves lands exactly on its clamp; nothing else moves it. */
  lemma PolicyMovesOnlyToTheClamp(behavior: PriceImprovementBehavior, p: Prices, bestBid: U64, bestAsk: U64)
    requires PolicyDefined(behavior, bestBid, bestAsk)
    ensures var r := ApplyPolicy(behavior, p, bestBid, bestAsk);
      && (r.ask != p.ask ==> (behavior == Join && r.ask == bestAsk) || (behavior == Dime && r.ask == bestAsk - 1))
      && (r.bid != p.bid ==> (behavior == Join && r.bid == bestBid) || (behavior == Dime && r.bid == bestBid + 1))
  {
  }

  /** An uncrossed pair of quotes stays uncrossed. */
  lemma PolicyKeepsQuotesUncrossed(behavior: PriceImprovementBehavior, p: Prices, bestBid: U64, bestAsk: U64)
    requires PolicyDefined(behavior, bestBid, bestAsk)
    requires p.bid <= p.ask
    ensures ApplyPolicy(behavior, p, bestBid, bestAsk).bid <= ApplyPolicy(behavior, p, bestBid, bestAsk).ask
  {
  }

  /**
   * With no other trader's ask resting, Join puts the ask at `u64::MAX`; with
   * no other trader's bid resting, it puts the bid at 1 tick or below.
   */
  lemma JoinAgainstEmptySide(m: Market, trader: U64, p: Prices)
    ensures var best := BestBidAndAsk(m, trader);
      var r := ApplyPolicy(Join, p, best.0, best.1);
      && (AllOwnedBy(m.asks, trader) ==> r.ask == U64_MAX)
      && (AllOwnedBy(m.bids, trader) ==> r.bid <= 1)
  {
  }

  /**
   * Consequently, under Join with no other ask resting and a market tick size
   * of 2 or more, the ask's size divisor overflows u64.
   */
  lemma JoinAgainstEmptyAskSideOverflowsSize(m: Market, trader: U64, p: Prices)
    requires AllOwnedBy(m.asks, trader)
    requires m.tickSize >= 2
    ensures var best := BestBidAndAsk(m, trader);
      !SizeDefined(ApplyPolicy(Join, p, best.0, best.1).ask, m.tickSize)
  {
    JoinAgainstEmptySide(m, trader, p);
    MulMonotone(2, m.tickSize, U64_MAX);
  }
}
