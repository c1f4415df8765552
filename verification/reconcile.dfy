/**
 * Reconciling the tracked orders with the live book: which sides changed,
 * which tracked orders to cancel, which orders to place, and what to record
 * once the placed orders are looked up again.
 */
module Reconcile {
  import opened Types
  import opened Venue
  import opened Parameters
  import opened Quoting

  /** One side's order as the strategy account tracks it. */
  datatype TrackedOrder = TrackedOrder(sequenceNumber: U64, priceInTicks: U64, initialSizeInBaseLots: U64)
  {
    function Id(): OrderId
    {
      OrderId(priceInTicks, sequenceNumber)
    }
  }

  /** One entry the diff walks: the side, its new target price, the tracked id and the tracked initial size. */
  datatype Candidate = Candidate(side: Side, newPrice: U64, id: OrderId, initialSize: U64)

  /** The bid entry, then the ask entry. */
  function Candidates(bid: TrackedOrder, ask: TrackedOrder, q: Quote): seq<Candidate>
  {
    [Candidate(Bid, q.bidPrice, bid.Id(), bid.initialSizeInBaseLots),
     Candidate(Ask, q.askPrice, ask.Id(), ask.initialSizeInBaseLots)]
  }

  /**
   * The tracked order rests on the book with its recorded initial size, and
   * its tracked price is the new target price.
   */
  predicate Unchanged(m: Market, c: Candidate)
  {
    var live := Lookup(m.Book(c.side), c.id);
    live.Some? && live.value.numBaseLots == c.initialSize && c.id.priceInTicks == c.newPrice
  }

  /** The tracked order rests on the book but is not unchanged. */
  predicate Cancels(m: Market, c: Candidate)
  {
    Lookup(m.Book(c.side), c.id).Some? && !Unchanged(m, c)
  }

  /** The ids to cancel, in the order of the entries. */
  function CancelSet(m: Market, cs: seq<Candidate>): seq<OrderId>
  {
    if cs == [] then []
    else CancelSet(m, cs[..|cs| - 1]) + (if Cancels(m, cs[|cs| - 1]) then [cs[|cs| - 1].id] else [])
  }

  /** No entry for `side` is unchanged. */
  predicate SideChanged(m: Market, cs: seq<Candidate>, side: Side)
  {
    forall i :: 0 <= i < |cs| && cs[i].side == side ==> !Unchanged(m, cs[i])
  }

  lemma SideChangedExtend(m: Market, cs: seq<Candidate>, i: nat, side: Side)
    requires i < |cs|
    ensures SideChanged(m, cs[..i + 1], side) <==>
      SideChanged(m, cs[..i], side) && (cs[i].side == side ==> !Unchanged(m, cs[i]))
  {
    assert forall j :: 0 <= j < i ==> cs[..i + 1][j] == cs[..i][j];
    assert cs[..i + 1][i] == cs[i];
  }

  lemma CancelSetExtend(m: Market, cs: seq<Candidate>, i: nat)
    requires i < |cs|
    ensures CancelSet(m, cs[..i + 1]) == CancelSet(m, cs[..i]) + (if Cancels(m, cs[i]) then [cs[i].id] else [])
  {
    assert cs[..i + 1][..i] == cs[..i];
    assert cs[..i + 1][i] == cs[i];
  }

  /**
   * The diff: starting from "both changed", clears a side's flag for each
   * unchanged entry and collects the ids of the entries to cancel.
   */
  method DiffTracked(m: Market, cs: seq<Candidate>) returns (changedBid: bool, changedAsk: bool, toCancel: seq<OrderId>)
    ensures changedBid == SideChanged(m, cs, Bid)
    ensures changedAsk == SideChanged(m, cs, Ask)
    ensures toCancel == CancelSet(m, cs)
  {
    changedBid, changedAsk, toCancel := true, true, [];
    for i := 0 to |cs|
      invariant changedBid == SideChanged(m, cs[..i], Bid)
      invariant changedAsk == SideChanged(m, cs[..i], Ask)
      invariant toCancel == CancelSet(m, cs[..i])
    {
      var c := cs[i];
      SideChangedExtend(m, cs, i, Bid);
      SideChangedExtend(m, cs, i, Ask);
      CancelSetExtend(m, cs, i);
      var live := Lookup(m.Book(c.side), c.id);
      if live.Some? {
        if live.value.numBaseLots == c.initialSize && c.id.priceInTicks == c.newPrice {
          match c.side
          case Bid => changedBid := false;
          case Ask => changedAsk := false;
        } else {
          toCancel := toCancel + [c.id];
        }
      }
    }
    assert cs[..|cs|] == cs;
  }

  /** The cancel set holds exactly the ids of the entries that rest on the book but are not unchanged. */
  lemma {:induction false} CancelSetMembers(m: Market, cs: seq<Candidate>, id: OrderId)
    ensures id in CancelSet(m, cs) <==> exists i :: 0 <= i < |cs| && Cancels(m, cs[i]) && cs[i].id == id
  {
    if cs != [] {
      var init, last := cs[..|cs| - 1], cs[|cs| - 1];
      CancelSetMembers(m, init, id);
      assert CancelSet(m, cs) == CancelSet(m, init) + (if Cancels(m, last) then [last.id] else []);
      if id in CancelSet(m, cs) {
        if id in CancelSet(m, init) {
          var i :| 0 <= i < |init| && Cancels(m, init[i]) && init[i].id == id;
          assert cs[i] == init[i];
        } else {
          assert Cancels(m, cs[|cs| - 1]) && cs[|cs| - 1].id == id;
        }
      }
      if exists i :: 0 <= i < |cs| && Cancels(m, cs[i]) && cs[i].id == id {
        var i :| 0 <= i < |cs| && Cancels(m, cs[i]) && cs[i].id == id;
        if i < |cs| - 1 {
          assert init[i] == cs[i];
          assert id in CancelSet(m, init);
        }
      }
    }
  }

  /**
   * For the bid and ask entries: a side changed exactly when its tracked
   * order is missing, rests with another size, or is tracked at a price other
   * than the new target; the cancel set is the bid id then the ask id, each
   * only when present and changed.
   */
  lemma TwoSidedDiff(m: Market, bid: TrackedOrder, ask: TrackedOrder, q: Quote)
    ensures var cs := Candidates(bid, ask, q);
      var liveBid := Lookup(m.bids, bid.Id());
      var liveAsk := Lookup(m.asks, ask.Id());
      && (SideChanged(m, cs, Bid) <==>
           !(liveBid.Some? && liveBid.value.numBaseLots == bid.initialSizeInBaseLots && bid.priceInTicks == q.bidPrice))
      && (SideChanged(m, cs, Ask) <==>
           !(liveAsk.Some? && liveAsk.value.numBaseLots == ask.initialSizeInBaseLots && ask.priceInTicks == q.askPrice))
      && CancelSet(m, cs) ==
           (if liveBid.Some? && SideChanged(m, cs, Bid) then [bid.Id()] else [])
           + (if liveAsk.Some? && SideChanged(m, cs, Ask) then [ask.Id()] else [])
  {
    var cs := Candidates(bid, ask, q);
    assert cs[..|cs| - 1] == [cs[0]];
    assert [cs[0]][..0] == [];
    assert CancelSet(m, [cs[0]]) == if Cancels(m, cs[0]) then [cs[0].id] else [];
    assert SideChanged(m, cs, Bid) <==> !Unchanged(m, cs[0]);
    assert SideChanged(m, cs, Ask) <==> !Unchanged(m, cs[1]);
  }

  datatype LimitOrder = LimitOrder(priceInTicks: U64, numBaseLots: U64)

  /** The requests sent to the venue. */
  datatype Action =
    | CancelMultipleOrdersById(orders: seq<OrderId>)
    | PlaceMultipleOrders(bids: seq<LimitOrder>, asks: seq<LimitOrder>)
    | PlaceLimitOrder(side: Side, order: LimitOrder)

  /** Action `a` places order `o` on `side`. */
  predicate PlacesIn(a: Action, side: Side, o: LimitOrder)
  {
    match a
    case CancelMultipleOrdersById(_) => false
    case PlaceMultipleOrders(bids, asks) => o in (if side == Bid then bids else asks)
    case PlaceLimitOrder(s, x) => s == side && x == o
  }

  predicate Places(actions: seq<Action>, side: Side, o: LimitOrder)
  {
    exists i :: 0 <= i < |actions| && PlacesIn(actions[i], side, o)
  }

  /** The placement mode: one batched request under post-only or any mode but Join. */
  predicate Batched(p: Params)
    requires ValidParams(p)
  {
    p.postOnly || Behavior(p) != PriceImprovement.Join
  }

  function Placements(changedBid: bool, changedAsk: bool, batched: bool, q: Quote): seq<Action>
  {
    var bid := LimitOrder(q.bidPrice, q.bidSize);
    var ask := LimitOrder(q.askPrice, q.askSize);
    if !changedBid && !changedAsk then []
    else if batched then
      [PlaceMultipleOrders(if changedBid then [bid] else [], if changedAsk then [ask] else [])]
    else
      (if changedBid then [PlaceLimitOrder(Bid, bid)] else [])
      + (if changedAsk then [PlaceLimitOrder(Ask, ask)] else [])
  }

  lemma PlacementsPlace(changedBid: bool, changedAsk: bool, batched: bool, q: Quote, o: LimitOrder)
    ensures Places(Placements(changedBid, changedAsk, batched, q), Bid, o)
        <==> changedBid && o == LimitOrder(q.bidPrice, q.bidSize)
    ensures Places(Placements(changedBid, changedAsk, batched, q), Ask, o)
        <==> changedAsk && o == LimitOrder(q.askPrice, q.askSize)
  {
    var ps := Placements(changedBid, changedAsk, batched, q);
    if changedBid && o == LimitOrder(q.bidPrice, q.bidSize) {
      assert PlacesIn(ps[0], Bid, o);
    }
    if changedAsk && o == LimitOrder(q.askPrice, q.askSize) {
      assert PlacesIn(ps[|ps| - 1], Ask, o);
    }
  }

  /**
   * The requests of one pass: one batched cancel first when there is
   * anything to cancel, then the placements. Exactly the changed sides are
   * placed, each at its target price and size; batched mode sends them in one
   * request, otherwise the bid goes before the ask.
   */
  function PassActions(toCancel: seq<OrderId>, changedBid: bool, changedAsk: bool, batched: bool, q: Quote): (r: seq<Action>)
    ensures forall i :: 0 <= i < |r| ==> (r[i].CancelMultipleOrdersById? <==> i == 0 && toCancel != [])
    ensures toCancel != [] ==> |r| > 0 && r[0] == CancelMultipleOrdersById(toCancel)
    ensures forall o :: Places(r, Bid, o) <==> changedBid && o == LimitOrder(q.bidPrice, q.bidSize)
    ensures forall o :: Places(r, Ask, o) <==> changedAsk && o == LimitOrder(q.askPrice, q.askSize)
    ensures batched ==> forall i :: 0 <= i < |r| ==> !r[i].PlaceLimitOrder?
    ensures batched && (changedBid || changedAsk) ==> |r| == (if toCancel == [] then 1 else 2)
    ensures !batched ==> forall i :: 0 <= i < |r| ==> !r[i].PlaceMultipleOrders?
    ensures !batched && changedBid && changedAsk ==>
      |r| >= 2 && r[|r| - 2] == PlaceLimitOrder(Bid, LimitOrder(q.bidPrice, q.bidSize))
      && r[|r| - 1] == PlaceLimitOrder(Ask, LimitOrder(q.askPrice, q.askSize))
    ensures !changedBid && !changedAsk && toCancel == [] ==> r == []
    ensures |r| == (if toCancel == [] then 0 else 1)
      + (if !changedBid && !changedAsk then 0
         else if batched then 1
         else (if changedBid then 1 else 0) + (if changedAsk then 1 else 0))
    ensures forall i :: 0 <= i < |r| && r[i].PlaceMultipleOrders? ==> |r[i].bids| <= 1 && |r[i].asks| <= 1
  {
    var cancels := if toCancel == [] then [] else [CancelMultipleOrdersById(toCancel)];
    var places := Placements(changedBid, changedAsk, batched, q);
    var r := cancels + places;
    forall o { PlacementsPlace(changedBid, changedAsk, batched, q, o); }
    forall side, o | Places(r, side, o) ensures Places(places, side, o) {
      var i :| 0 <= i < |r| && PlacesIn(r[i], side, o);
      assert PlacesIn(places[i - |cancels|], side, o);
    }
    forall side, o | Places(places, side, o) ensures Places(r, side, o) {
      var i :| 0 <= i < |places| && PlacesIn(places[i], side, o);
      assert PlacesIn(r[i + |cancels|], side, o);
    }
    r
  }

  /**
   * When both tracked orders rest with their recorded sizes and are tracked
   * at the new target prices, the pass cancels nothing and places nothing.
   */
  lemma SteadyStateIsQuiet(m: Market, bid: TrackedOrder, ask: TrackedOrder, q: Quote, batched: bool)
    requires Lookup(m.bids, bid.Id()).Some? && Lookup(m.bids, bid.Id()).value.numBaseLots == bid.initialSizeInBaseLots
    requires Lookup(m.asks, ask.Id()).Some? && Lookup(m.asks, ask.Id()).value.numBaseLots == ask.initialSizeInBaseLots
    requires bid.priceInTicks == q.bidPrice && ask.priceInTicks == q.askPrice
    ensures var cs := Candidates(bid, ask, q);
      && CancelSet(m, cs) == []
      && !SideChanged(m, cs, Bid) && !SideChanged(m, cs, Ask)
      && PassActions(CancelSet(m, cs), SideChanged(m, cs, Bid), SideChanged(m, cs, Ask), batched, q) == []
  {
    TwoSidedDiff(m, bid, ask, q);
  }

  /**
   * The bid rests untouched but the ask was filled away between two passes:
   * nothing is cancelled and only the ask is placed again.
   */
  lemma FilledAskIsReplacedAlone(m: Market, bid: TrackedOrder, ask: TrackedOrder, q: Quote, batched: bool)
    requires Lookup(m.bids, bid.Id()).Some? && Lookup(m.bids, bid.Id()).value.numBaseLots == bid.initialSizeInBaseLots
    requires bid.priceInTicks == q.bidPrice
    requires Lookup(m.asks, ask.Id()).None?
    ensures var cs := Candidates(bid, ask, q);
      && CancelSet(m, cs) == []
      && !SideChanged(m, cs, Bid) && SideChanged(m, cs, Ask)
      && PassActions(CancelSet(m, cs), SideChanged(m, cs, Bid), SideChanged(m, cs, Ask), batched, q)
         == if batched then [PlaceMultipleOrders([], [LimitOrder(q.askPrice, q.askSize)])]
            else [PlaceLimitOrder(Ask, LimitOrder(q.askPrice, q.askSize))]
  {
    TwoSidedDiff(m, bid, ask, q);
  }

  /**
   * After placement: a changed side whose predicted id is found on the book
   * is recorded with that id and the live order's size; otherwise the side
   * keeps its previous tracked order.
   */
  function RecordSide(book: seq<BookEntry>, changed: bool, predicted: OrderId, prev: TrackedOrder): (r: TrackedOrder)
    ensures !(changed && Lookup(book, predicted).Some?) ==> r == prev
    ensures changed && Lookup(book, predicted).Some? ==>
      && r.Id() == predicted
      && Lookup(book, r.Id()).Some?
      && Lookup(book, r.Id()).value.numBaseLots == r.initialSizeInBaseLots
  {
    var live := Lookup(book, predicted);
    if changed && live.Some? then
      TrackedOrder(predicted.sequenceNumber, predicted.priceInTicks, live.value.numBaseLots)
    else
      prev
  }

  /** The id a bid placed while the counter reads `seqNum` receives: the complemented counter. */
  function PredictedBidId(q: Quote, seqNum: U64): OrderId
  {
    OrderId(q.bidPrice, Complement(seqNum))
  }

  /** The recorded bid was found, which advances the counter used for the ask. */
  predicate BidFound(after: Market, changedBid: bool, q: Quote, seqNum: U64)
  {
    changedBid && Lookup(after.bids, PredictedBidId(q, seqNum)).Some?
  }

  /** The counter increment after a found bid stays within u64. */
  predicate RecordDefined(after: Market, changedBid: bool, q: Quote, seqNum: U64)
  {
    BidFound(after, changedBid, q, seqNum) ==> seqNum < U64_MAX
  }

  /** The id predicted for the ask: the raw counter, advanced by one when the bid was found. */
  function PredictedAskId(after: Market, changedBid: bool, q: Quote, seqNum: U64): OrderId
    requires RecordDefined(after, changedBid, q, seqNum)
  {
    OrderId(q.askPrice, if BidFound(after, changedBid, q, seqNum) then seqNum + 1 else seqNum)
  }

  /** The tracked bid and ask after the post-placement lookup. */
  function Record(after: Market, changedBid: bool, changedAsk: bool, q: Quote, seqNum: U64,
                  bid: TrackedOrder, ask: TrackedOrder): (TrackedOrder, TrackedOrder)
    requires RecordDefined(after, changedBid, q, seqNum)
  {
    (RecordSide(after.bids, changedBid, PredictedBidId(q, seqNum), bid),
     RecordSide(after.asks, changedAsk, PredictedAskId(after, changedBid, q, seqNum), ask))
  }

  /**
   * When both sides were placed and found, the recorded ask's sequence
   * number is one past the plain counter the recorded bid id complements:
   * the two ids come from consecutive counter values.
   */
  lemma FoundPairIdsAreConsecutive(after: Market, q: Quote, seqNum: U64, bid: TrackedOrder, ask: TrackedOrder)
    requires BidFound(after, true, q, seqNum) && seqNum < U64_MAX
    requires Lookup(after.asks, OrderId(q.askPrice, seqNum + 1)).Some?
    ensures var rec := Record(after, true, true, q, seqNum, bid, ask);
      && rec.0.Id() == OrderId(q.bidPrice, Complement(seqNum))
      && rec.1.Id() == OrderId(q.askPrice, seqNum + 1)
      && rec.1.sequenceNumber == Complement(rec.0.sequenceNumber) + 1
  {
  }

  /**
   * The counter advances only when the bid is found. If the bid was placed
   * but is not on the reloaded book, the ask is looked for at the counter
   * itself; when the book holds the ask only one past it, the new ask goes
   * unrecorded and the previous ask is kept.
   */
  lemma MissedBidLosesTheAsk(after: Market, q: Quote, seqNum: U64, bid: TrackedOrder, ask: TrackedOrder)
    requires !BidFound(after, true, q, seqNum) && seqNum < U64_MAX
    requires Lookup(after.asks, OrderId(q.askPrice, seqNum)).None?
    requires Lookup(after.asks, OrderId(q.askPrice, seqNum + 1)).Some?
    ensures var rec := Record(after, true, true, q, seqNum, bid, ask);
      rec == (bid, ask)
  {
  }

  /**
   * Idempotence: if a pass placed both sides and found both on the reloaded
   * book, and the venue changed nothing but the caller's own orders, then a
   * second pass with the same fair price and parameters over that book aims
   * at the same quote and sends no request at all.
   */
  lemma SecondPassIsQuiet(fair: U64, h: MarketHeader, m: Market, after: Market, p: Params,
                          bid: TrackedOrder, ask: TrackedOrder)
    requires QuoteDefined(fair, h, m, p)
    requires after.tickSize == m.tickSize && after.callerTraderIndex == m.callerTraderIndex
    requires Others(after.bids, TraderIndex(m)) == Others(m.bids, TraderIndex(m))
    requires Others(after.asks, TraderIndex(m)) == Others(m.asks, TraderIndex(m))
    requires BidFound(after, true, TargetQuote(fair, h, m, p), m.sequenceNumber)
    requires m.sequenceNumber < U64_MAX
    requires Lookup(after.asks, OrderId(TargetQuote(fair, h, m, p).askPrice, m.sequenceNumber + 1)).Some?
    ensures QuoteDefined(fair, h, after, p)
    ensures var q := TargetQuote(fair, h, m, p);
      var rec := Record(after, true, true, q, m.sequenceNumber, bid, ask);
      var cs := Candidates(rec.0, rec.1, TargetQuote(fair, h, after, p));
      && TargetQuote(fair, h, after, p) == q
      && CancelSet(after, cs) == []
      && !SideChanged(after, cs, Bid) && !SideChanged(after, cs, Ask)
      && PassActions(CancelSet(after, cs), false, false, Batched(p), q) == []
  {
    TargetQuoteIgnoresOwnOrders(fair, h, m, after, p);
    var q := TargetQuote(fair, h, m, p);
    var rec := Record(after, true, true, q, m.sequenceNumber, bid, ask);
    SteadyStateIsQuiet(after, rec.0, rec.1, q, Batched(p));
  }
}
