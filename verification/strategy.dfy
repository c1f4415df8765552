/**
 * The strategy account and the two instructions that write it: `Initialize`
 * overwrites the whole record, `UpdateQuotes` runs one reconciliation pass
 * and updates the record in place.
 */
module Strategy {
  import opened Types
  import opened PriceImprovement
  import opened Venue
  import opened PriceMath
  import opened Policy
  import opened Parameters
  import opened Quoting
  import opened Reconcile

  /** An account address, abstracted to an identifier. */
  type Pubkey = nat

  /** The runtime clock read at the start of an instruction. */
  datatype Clock = Clock(slot: U64, unixTimestamp: I64)

  /**
   * What one update pass needs of its inputs, given the merged parameters
   * `p`, to finish without a panic: the quote arithmetic stays within u64 and
   * divides by nonzero values, and, when the changed bid is found after
   * placement, the counter can advance.
   */
  predicate PassDefined(p: Params, bid: TrackedOrder, ask: TrackedOrder, fair: U64,
                        account: MarketAccount, reloaded: Option<Market>)
  {
    && ValidParams(p)
    && (LoadHeader(account).Ok? && account.market.Some? ==>
          && QuoteDefined(fair, LoadHeader(account).value, account.market.value, p)
          && (reloaded.Some? ==>
                var q := TargetQuote(fair, LoadHeader(account).value, account.market.value, p);
                RecordDefined(reloaded.value, SideChanged(account.market.value, Candidates(bid, ask, q), Bid), q,
                              account.market.value.sequenceNumber)))
  }

  /** The outcome of a pass: its result, the requests sent, and the tracked orders afterwards. */
  datatype PassOutcome = PassOutcome(res: Result<()>, actions: seq<Action>, bid: TrackedOrder, ask: TrackedOrder)

  /**
   * One reconciliation pass after the parameter merge, as a function of the
   * merged parameters, the tracked orders, the fair price, the market account
   * and the book as reloaded after placement.
   */
  function Pass(p: Params, bid: TrackedOrder, ask: TrackedOrder, fair: U64,
                account: MarketAccount, reloaded: Option<Market>): (r: PassOutcome)
    requires PassDefined(p, bid, ask, fair, account, reloaded)
    ensures r.res.Err? ==> r.bid == bid && r.ask == ask
    ensures r.res.Err? ==> r.res.error in {InvalidPhoenixProgram, FailedToDeserializePhoenixMarket}
    ensures r.actions != [] ==> LoadHeader(account).Ok? && account.market.Some?
  {
    var header := LoadHeader(account);
    if header.Err? then PassOutcome(Err(header.error), [], bid, ask)
    else if account.market.None? then PassOutcome(Err(FailedToDeserializePhoenixMarket), [], bid, ask)
    else
      var m := account.market.value;
      var q := TargetQuote(fair, header.value, m, p);
      var cs := Candidates(bid, ask, q);
      var changedBid := SideChanged(m, cs, Bid);
      var changedAsk := SideChanged(m, cs, Ask);
      var actions := PassActions(CancelSet(m, cs), changedBid, changedAsk, Batched(p), q);
      if !changedBid && !changedAsk then PassOutcome(Ok(()), actions, bid, ask)
      else if reloaded.None? then PassOutcome(Err(FailedToDeserializePhoenixMarket), actions, bid, ask)
      else
        var rec := Record(reloaded.value, changedBid, changedAsk, q, m.sequenceNumber, bid, ask);
        PassOutcome(Ok(()), actions, rec.0, rec.1)
  }

  /**
   * Idempotence of a whole pass: a pass that placed both sides and found both
   * on the reloaded book, where the venue changed nothing but the caller's
   * own orders, is followed by a pass over that book, at the same fair price
   * and parameters, that succeeds, sends nothing and keeps the tracked orders.
   */
  lemma RepeatedPassIsQuiet(p: Params, bid: TrackedOrder, ask: TrackedOrder, fair: U64,
                            account: MarketAccount, after: Market, reloaded2: Option<Market>)
    requires PassDefined(p, bid, ask, fair, account, Some(after))
    requires LoadHeader(account).Ok? && account.market.Some?
    requires var m := account.market.value;
      && after.tickSize == m.tickSize && after.callerTraderIndex == m.callerTraderIndex
      && Others(after.bids, TraderIndex(m)) == Others(m.bids, TraderIndex(m))
      && Others(after.asks, TraderIndex(m)) == Others(m.asks, TraderIndex(m))
    requires var m := account.market.value;
      var q := TargetQuote(fair, LoadHeader(account).value, m, p);
      && SideChanged(m, Candidates(bid, ask, q), Bid) && SideChanged(m, Candidates(bid, ask, q), Ask)
      && BidFound(after, true, q, m.sequenceNumber)
      && Lookup(after.asks, PredictedAskId(after, true, q, m.sequenceNumber)).Some?
    ensures var first := Pass(p, bid, ask, fair, account, Some(after));
      var account2 := MarketAccount(account.ownedByPhoenix, account.header, Some(after));
      && PassDefined(p, first.bid, first.ask, fair, account2, reloaded2)
      && Pass(p, first.bid, first.ask, fair, account2, reloaded2) == PassOutcome(Ok(()), [], first.bid, first.ask)
  {
    var m := account.market.value;
    var h := LoadHeader(account).value;
    var q := TargetQuote(fair, h, m, p);
    var first := Pass(p, bid, ask, fair, account, Some(after));
    var account2 := MarketAccount(account.ownedByPhoenix, account.header, Some(after));
    assert LoadHeader(account2) == LoadHeader(account);
    TargetQuoteIgnoresOwnOrders(fair, h, m, after, p);
    SteadyStateIsQuiet(after, first.bid, first.ask, q, Batched(p));
    TwoSidedDiff(after, first.bid, first.ask, q);
  }

  /**
   * Computes the target quote as the program does: edge-derived prices,
   * reassigned under the price-improvement mode, then sized.
   */
  method ComputeQuote(fair: U64, header: MarketHeader, m: Market, p: Params) returns (q: Quote)
    requires QuoteDefined(fair, header, m, p)
    ensures q == TargetQuote(fair, header, m, p)
  {
    var traderIndex := TraderIndex(m);
    var sizeInQuoteLots := QuoteLots(p.quoteSizeInQuoteAtoms, header.quoteLotSize);
    var bidPrice := BidPrice(fair, header, p.quoteEdgeInBps);
    var askPrice := AskPrice(fair, header, p.quoteEdgeInBps);
    var best := BestBidAndAsk(m, traderIndex);
    match Behavior(p) {
      case Join =>
        askPrice := Max(askPrice, best.1);
        bidPrice := Min(bidPrice, best.0);
      case Dime =>
        askPrice := Max(askPrice, best.1 - 1);
        bidPrice := Min(bidPrice, best.0 + 1);
      case Ignore =>
    }
    var bidSize := SizeInBaseLots(sizeInQuoteLots, bidPrice, m.tickSize);
    var askSize := SizeInBaseLots(sizeInQuoteLots, askPrice, m.tickSize);
    q := Quote(bidPrice, bidSize, askPrice, askSize);
  }

  /**
   * Sends the requests of one pass: the batched cancel when there is
   * something to cancel; then, unless both sides are unchanged, one batched
   * placement or one placement per changed side, bid first.
   */
  method SendOrders(toCancel: seq<OrderId>, changedBid: bool, changedAsk: bool, batched: bool, q: Quote)
    returns (actions: seq<Action>)
    ensures actions == PassActions(toCancel, changedBid, changedAsk, batched, q)
  {
    actions := [];
    if toCancel != [] {
      actions := actions + [CancelMultipleOrdersById(toCancel)];
    }
    if !changedAsk && !changedBid {
      return;
    }
    if batched {
      actions := actions + [PlaceMultipleOrders(
        if changedBid then [LimitOrder(q.bidPrice, q.bidSize)] else [],
        if changedAsk then [LimitOrder(q.askPrice, q.askSize)] else [])];
    } else {
      if changedBid {
        actions := actions + [PlaceLimitOrder(Bid, LimitOrder(q.bidPrice, q.bidSize))];
      }
      if changedAsk {
        actions := actions + [PlaceLimitOrder(Ask, LimitOrder(q.askPrice, q.askSize))];
      }
    }
  }

  class PhoenixStrategyState {
    var trader: Pubkey
    var market: Pubkey
    var bidOrderSequenceNumber: U64
    var bidPriceInTicks: U64
    var initialBidSizeInBaseLots: U64
    var askOrderSequenceNumber: U64
    var askPriceInTicks: U64
    var initialAskSizeInBaseLots: U64
    var lastUpdateSlot: U64
    var lastUpdateUnixTimestamp: I64
    var quoteEdgeInBps: U64
    var quoteSizeInQuoteAtoms: U64
    var postOnly: bool
    var priceImprovementBehavior: U8

    /** The stored strategy parameters. */
    function CurrentParams(): Params
      reads this
    {
      Params(quoteEdgeInBps, quoteSizeInQuoteAtoms, postOnly, priceImprovementBehavior)
    }

    function BidOrder(): TrackedOrder
      reads this
    {
      TrackedOrder(bidOrderSequenceNumber, bidPriceInTicks, initialBidSizeInBaseLots)
    }

    function AskOrder(): TrackedOrder
      reads this
    {
      TrackedOrder(askOrderSequenceNumber, askPriceInTicks, initialAskSizeInBaseLots)
    }

    /**
     * An initialized account: nonzero edge, decodable mode byte, and a
     * positive price on every side that tracks a positive size.
     */
    ghost predicate Valid()
      reads this
    {
      && ValidParams(CurrentParams())
      && (initialBidSizeInBaseLots > 0 ==> bidPriceInTicks > 0)
      && (initialAskSizeInBaseLots > 0 ==> askPriceInTicks > 0)
    }

    /** The zero-filled account the runtime allocates before `Initialize` runs. */
    constructor ()
      ensures trader == 0 && market == 0
      ensures BidOrder() == TrackedOrder(0, 0, 0) && AskOrder() == TrackedOrder(0, 0, 0)
      ensures lastUpdateSlot == 0 && lastUpdateUnixTimestamp == 0
      ensures CurrentParams() == Params(0, 0, false, 0)
    {
      trader, market := 0, 0;
      bidOrderSequenceNumber, bidPriceInTicks, initialBidSizeInBaseLots := 0, 0, 0;
      askOrderSequenceNumber, askPriceInTicks, initialAskSizeInBaseLots := 0, 0, 0;
      lastUpdateSlot, lastUpdateUnixTimestamp := 0, 0;
      quoteEdgeInBps, quoteSizeInQuoteAtoms, postOnly, priceImprovementBehavior := 0, 0, false, 0;
    }

    /** Binds the record to a caller and a market and stamps it with the clock. */
    method Bind(user: Pubkey, marketKey: Pubkey, clock: Clock)
      modifies this`trader, this`market, this`lastUpdateSlot, this`lastUpdateUnixTimestamp
      ensures trader == user && market == marketKey
      ensures lastUpdateSlot == clock.slot && lastUpdateUnixTimestamp == clock.unixTimestamp
    {
      trader, market := user, marketKey;
      lastUpdateSlot, lastUpdateUnixTimestamp := clock.slot, clock.unixTimestamp;
    }

    /** Forgets both tracked orders. */
    method ClearOrders()
      modifies this`bidOrderSequenceNumber, this`bidPriceInTicks, this`initialBidSizeInBaseLots,
               this`askOrderSequenceNumber, this`askPriceInTicks, this`initialAskSizeInBaseLots
      ensures BidOrder() == TrackedOrder(0, 0, 0) && AskOrder() == TrackedOrder(0, 0, 0)
    {
      bidOrderSequenceNumber, bidPriceInTicks, initialBidSizeInBaseLots := 0, 0, 0;
      askOrderSequenceNumber, askPriceInTicks, initialAskSizeInBaseLots := 0, 0, 0;
    }

    /** Stores a whole parameter set. */
    method SetParams(p: Params)
      modifies this`quoteEdgeInBps, this`quoteSizeInQuoteAtoms, this`postOnly, this`priceImprovementBehavior
      ensures CurrentParams() == p
    {
      quoteEdgeInBps, quoteSizeInQuoteAtoms := p.quoteEdgeInBps, p.quoteSizeInQuoteAtoms;
      postOnly, priceImprovementBehavior := p.postOnly, p.priceImprovementBehavior;
    }

    /**
     * Validates the parameters and the market, then overwrites the whole
     * record with the supplied parameters, the mode stored as its byte.
     */
    method Initialize(user: Pubkey, marketKey: Pubkey, params: StrategyParams, account: MarketAccount, clock: Clock)
      returns (res: Result<()>)
      modifies this
      ensures var check := CheckInitParams(params, LoadHeader(account));
        && (check.Err? ==> res == Err(check.error) && unchanged(this))
        && (check.Ok? ==> res == Ok(()) && CurrentParams() == check.value)
      ensures res.Ok? ==>
        && Valid()
        && trader == user && market == marketKey
        && BidOrder() == TrackedOrder(0, 0, 0) && AskOrder() == TrackedOrder(0, 0, 0)
        && lastUpdateSlot == clock.slot && lastUpdateUnixTimestamp == clock.unixTimestamp
        && FromU8(priceImprovementBehavior) == params.priceImprovementBehavior
    {
      if params.quoteEdgeInBps.None? || params.quoteSizeInQuoteAtoms.None? || params.priceImprovementBehavior.None? {
        return Err(InvalidStrategyParams);
      }
      if params.quoteEdgeInBps.value == 0 {
        return Err(EdgeMustBeNonZero);
      }
      var header := LoadHeader(account);
      if header.Err? {
        return Err(header.error);
      }
      var stored := Params(params.quoteEdgeInBps.value, params.quoteSizeInQuoteAtoms.value, params.postOnly,
                           ToU8(params.priceImprovementBehavior.value));
      assert CheckInitParams(params, header) == Ok(stored);
      Bind(user, marketKey, clock);
      ClearOrders();
      SetParams(stored);
      res := Ok(());
    }

    /** Merges a parameter update into the stored parameters, field by field. */
    method MergeParams(u: StrategyParams)
      requires Valid()
      modifies this`quoteEdgeInBps, this`quoteSizeInQuoteAtoms, this`postOnly, this`priceImprovementBehavior
      ensures Valid()
      ensures CurrentParams() == Merge(old(CurrentParams()), u)
    {
      if u.quoteEdgeInBps.Some? {
        if u.quoteEdgeInBps.value > 0 {
          quoteEdgeInBps := u.quoteEdgeInBps.value;
        }
      }
      if u.quoteSizeInQuoteAtoms.Some? {
        quoteSizeInQuoteAtoms := u.quoteSizeInQuoteAtoms.value;
      }
      postOnly := u.postOnly;
      if u.priceImprovementBehavior.Some? {
        priceImprovementBehavior := ToU8(u.priceImprovementBehavior.value);
      }
    }

    /**
     * Records each changed side found at its predicted id on the reloaded
     * book: the bid at the complemented counter, then the ask at the counter,
     * which the found bid advanced by one. A side not found keeps its fields.
     */
    method RecordPlaced(after: Market, changedBid: bool, changedAsk: bool, q: Quote, seqNum: U64)
      requires Valid()
      requires RecordDefined(after, changedBid, q, seqNum)
      requires q.bidPrice > 0 && q.askPrice > 0
      modifies this`bidOrderSequenceNumber, this`bidPriceInTicks, this`initialBidSizeInBaseLots,
               this`askOrderSequenceNumber, this`askPriceInTicks, this`initialAskSizeInBaseLots
      ensures Valid()
      ensures (BidOrder(), AskOrder()) == Record(after, changedBid, changedAsk, q, seqNum, old(BidOrder()), old(AskOrder()))
    {
      var orderSequenceNumber := seqNum;
      if changedBid {
        var live := Lookup(after.bids, OrderId(q.bidPrice, Complement(orderSequenceNumber)));
        if live.Some? {
          bidPriceInTicks := q.bidPrice;
          bidOrderSequenceNumber := Complement(orderSequenceNumber);
          initialBidSizeInBaseLots := live.value.numBaseLots;
          orderSequenceNumber := orderSequenceNumber + 1;
        }
      }
      if changedAsk {
        var live := Lookup(after.asks, OrderId(q.askPrice, orderSequenceNumber));
        if live.Some? {
          askPriceInTicks := q.askPrice;
          askOrderSequenceNumber := orderSequenceNumber;
          initialAskSizeInBaseLots := live.value.numBaseLots;
        }
      }
    }

    /**
     * The part of a pass after the parameter merge: load the market, compute
     * the target quote, diff the tracked orders against the book, cancel,
     * place, and record the orders found at their predicted ids on the
     * reloaded book. `reloaded` is the book as it reads after the venue
     * processed the requests; `actions` are the requests sent, in order.
     */
    method Reconcile(fair: U64, account: MarketAccount, reloaded: Option<Market>)
      returns (res: Result<()>, actions: seq<Action>)
      requires Valid()
      requires PassDefined(CurrentParams(), BidOrder(), AskOrder(), fair, account, reloaded)
      modifies this`bidOrderSequenceNumber, this`bidPriceInTicks, this`initialBidSizeInBaseLots,
               this`askOrderSequenceNumber, this`askPriceInTicks, this`initialAskSizeInBaseLots
      ensures Valid()
      ensures PassOutcome(res, actions, BidOrder(), AskOrder())
           == Pass(CurrentParams(), old(BidOrder()), old(AskOrder()), fair, account, reloaded)
    {
      var p := CurrentParams();
      actions := [];
      var headerResult := LoadHeader(account);
      if headerResult.Err? {
        return Err(headerResult.error), actions;
      }
      var header := headerResult.value;
      if account.market.None? {
        return Err(FailedToDeserializePhoenixMarket), actions;
      }
      var m := account.market.value;
      var q := ComputeQuote(fair, header, m, p);

      // Diff the tracked orders against the book
      var changedBid, changedAsk, toCancel := DiffTracked(m, [
        Candidate(Bid, q.bidPrice, OrderId(bidPriceInTicks, bidOrderSequenceNumber), initialBidSizeInBaseLots),
        Candidate(Ask, q.askPrice, OrderId(askPriceInTicks, askOrderSequenceNumber), initialAskSizeInBaseLots)]);
      assert Candidates(BidOrder(), AskOrder(), q) == [
        Candidate(Bid, q.bidPrice, OrderId(bidPriceInTicks, bidOrderSequenceNumber), initialBidSizeInBaseLots),
        Candidate(Ask, q.askPrice, OrderId(askPriceInTicks, askOrderSequenceNumber), initialAskSizeInBaseLots)];

      // Cancel, then place
      actions := SendOrders(toCancel, changedBid, changedAsk, p.postOnly || Behavior(p) != PriceImprovement.Join, q);
      if !changedAsk && !changedBid {
        return Ok(()), actions;
      }

      // Look the placed orders up again and record what is found
      if reloaded.None? {
        return Err(FailedToDeserializePhoenixMarket), actions;
      }
      RecordPlaced(reloaded.value, changedBid, changedAsk, q, m.sequenceNumber);
      res := Ok(());
    }

    /** Stamps the account with the clock's slot and time. */
    method Stamp(clock: Clock)
      modifies this`lastUpdateSlot, this`lastUpdateUnixTimestamp
      ensures lastUpdateSlot == clock.slot && lastUpdateUnixTimestamp == clock.unixTimestamp
    {
      lastUpdateSlot := clock.slot;
      lastUpdateUnixTimestamp := clock.unixTimestamp;
    }

    /**
     * One update pass: stamp the clock, merge the parameter update, then
     * reconcile. The stamp and the merge stay in place even when the market
     * then fails to load.
     */
    method UpdateQuotes(params: OrderParams, clock: Clock, account: MarketAccount, reloaded: Option<Market>)
      returns (res: Result<()>, actions: seq<Action>)
      requires Valid()
      requires PassDefined(Merge(CurrentParams(), params.strategyParams), BidOrder(), AskOrder(),
                           params.fairPriceInQuoteAtomsPerRawBaseUnit, account, reloaded)
      modifies this`bidOrderSequenceNumber, this`bidPriceInTicks, this`initialBidSizeInBaseLots,
               this`askOrderSequenceNumber, this`askPriceInTicks, this`initialAskSizeInBaseLots,
               this`lastUpdateSlot, this`lastUpdateUnixTimestamp,
               this`quoteEdgeInBps, this`quoteSizeInQuoteAtoms, this`postOnly, this`priceImprovementBehavior
      ensures Valid()
      ensures lastUpdateSlot == clock.slot && lastUpdateUnixTimestamp == clock.unixTimestamp
      ensures CurrentParams() == Merge(old(CurrentParams()), params.strategyParams)
      ensures PassOutcome(res, actions, BidOrder(), AskOrder())
           == Pass(CurrentParams(), old(BidOrder()), old(AskOrder()),
                   params.fairPriceInQuoteAtomsPerRawBaseUnit, account, reloaded)
    {
      ghost var bid0, ask0 := BidOrder(), AskOrder();
      Stamp(clock);
      MergeParams(params.strategyParams);
      assert BidOrder() == bid0 && AskOrder() == ask0;
      res, actions := Reconcile(params.fairPriceInQuoteAtomsPerRawBaseUnit, account, reloaded);
    }
  }
}
