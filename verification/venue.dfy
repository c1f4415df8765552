/**
 * The parts of a Phoenix market the strategy reads: the header, the two sides
 * of the book in iteration order, the venue's order sequence counter, the
 * market tick size and the caller's seat.
 */
module Venue {
  import opened Types

  /** The value Phoenix writes in the discriminant field of every market header. */
  const PHOENIX_MARKET_DISCRIMINANT: U64 := 8167313896524341111

  datatype Side = Bid | Ask

  /** A resting order's key within one side of the book. */
  datatype OrderId = OrderId(priceInTicks: U64, sequenceNumber: U64)

  datatype RestingOrder = RestingOrder(traderIndex: U64, numBaseLots: U64)

  datatype BookEntry = BookEntry(id: OrderId, order: RestingOrder)

  /** The header fields quoting uses. */
  datatype MarketHeader = MarketHeader(
    discriminant: U64,
    rawBaseUnitsPerBaseUnit: U32,
    tickSizeInQuoteAtomsPerBaseUnit: U64,
    quoteLotSize: U64)

  /**
   * A deserialized market. Each side lists its resting orders in the order
   * the venue iterates them, best price first. `tickSize` is what the market
   * reports as its tick size; `callerTraderIndex` is the seat of the signing
   * user, if it has one.
   */
  datatype Market = Market(
    bids: seq<BookEntry>,
    asks: seq<BookEntry>,
    sequenceNumber: U64,
    tickSize: U64,
    callerTraderIndex: Option<U32>)
  {
    function Book(side: Side): seq<BookEntry>
    {
      match side
      case Bid => bids
      case Ask => asks
    }
  }

  /**
   * A market account as the program sees it: whether the Phoenix program owns
   * it, its header if the header bytes parse, and its book if the rest parses.
   */
  datatype MarketAccount = MarketAccount(
    ownedByPhoenix: bool,
    header: Option<MarketHeader>,
    market: Option<Market>)

  /** Owner check, header parse and discriminant check, in that order. */
  function LoadHeader(account: MarketAccount): (r: Result<MarketHeader>)
    ensures r.Ok? <==>
      account.ownedByPhoenix && account.header.Some?
      && account.header.value.discriminant == PHOENIX_MARKET_DISCRIMINANT
    ensures r.Ok? ==> r.value == account.header.value
    ensures r.Err? ==>
      (r.error == FailedToDeserializePhoenixMarket <==> account.ownedByPhoenix && account.header.None?)
    ensures r.Err? ==> r.error in {FailedToDeserializePhoenixMarket, InvalidPhoenixProgram}
  {
    if !account.ownedByPhoenix then Err(InvalidPhoenixProgram)
    else if account.header.None? then Err(FailedToDeserializePhoenixMarket)
    else if account.header.value.discriminant != PHOENIX_MARKET_DISCRIMINANT then Err(InvalidPhoenixProgram)
    else Ok(account.header.value)
  }

  /** The caller's trader index, or `u32::MAX` when the caller has no seat. */
  function TraderIndex(m: Market): U64
  {
    if m.callerTraderIndex.Some? then m.callerTraderIndex.value else U32_MAX
  }

  /** Bitwise complement of a 64-bit sequence number: Phoenix's encoding of bid order ids. */
  function Complement(s: U64): U64
  {
    U64_MAX - s
  }

  /** On 64-bit words, bitwise negation is subtraction from the all-ones word, which `Complement` computes. */
  lemma BitwiseNotIsSubtractionFromMax(x: bv64)
    ensures !x == 0xFFFF_FFFF_FFFF_FFFF - x
  {
  }

  /** The resting order stored under `id` on one side of the book, if any: the first entry with that id. */
  function Lookup(book: seq<BookEntry>, id: OrderId): Option<RestingOrder>
  {
    if book == [] then None
    else if book[0].id == id then Some(book[0].order)
    else Lookup(book[1..], id)
  }

  /** A lookup fails exactly when no entry has the id, and otherwise returns an order stored under it. */
  lemma {:induction false} LookupFindsId(book: seq<BookEntry>, id: OrderId)
    ensures Lookup(book, id).None? <==> forall i :: 0 <= i < |book| ==> book[i].id != id
    ensures Lookup(book, id).Some? ==>
      exists i :: 0 <= i < |book| && book[i].id == id && book[i].order == Lookup(book, id).value
  {
    if book != [] && book[0].id != id {
      LookupFindsId(book[1..], id);
      if Lookup(book, id).Some? {
        var i :| 0 <= i < |book[1..]| && book[1..][i].id == id && book[1..][i].order == Lookup(book, id).value;
        assert book[i + 1] == book[1..][i];
      } else {
        forall i | 0 <= i < |book|
          ensures book[i].id != id
        {
          if i > 0 {
            assert book[i] == book[1..][i - 1];
          }
        }
      }
    }
  }

  /** `i` is the first position on `book` holding an order of a trader other than `trader`. */
  ghost predicate IsFirstOther(book: seq<BookEntry>, trader: U64, i: int)
  {
    && 0 <= i < |book|
    && book[i].order.traderIndex != trader
    && forall j :: 0 <= j < i ==> book[j].order.traderIndex == trader
  }

  /** Every order on `book` belongs to `trader`. */
  ghost predicate AllOwnedBy(book: seq<BookEntry>, trader: U64)
  {
    forall j :: 0 <= j < |book| ==> book[j].order.traderIndex == trader
  }

  /** The position of the first order not placed by `trader`. */
  function FirstOtherTrader(book: seq<BookEntry>, trader: U64): (r: Option<nat>)
    ensures r.Some? ==> IsFirstOther(book, trader, r.value)
    ensures r.None? <==> AllOwnedBy(book, trader)
  {
    if book == [] then None
    else if book[0].order.traderIndex != trader then Some(0)
    else
      var r := FirstOtherTrader(book[1..], trader);
      if r.Some? then Some(r.value + 1) else None
  }

  /** At most one position is the first held by another trader. */
  lemma FirstOtherIsUnique(book: seq<BookEntry>, trader: U64, i: int, j: int)
    requires IsFirstOther(book, trader, i) && IsFirstOther(book, trader, j)
    ensures i == j
  {
  }

  /**
   * The best bid and ask not placed by `trader`: the first other trader's
   * price on each side, or 1 for an empty bid side and `u64::MAX` for an
   * empty ask side.
   */
  function BestBidAndAsk(m: Market, trader: U64): (U64, U64)
  {
    var b := FirstOtherTrader(m.bids, trader);
    var a := FirstOtherTrader(m.asks, trader);
    (if b.Some? then m.bids[b.value].id.priceInTicks else 1,
     if a.Some? then m.asks[a.value].id.priceInTicks else U64_MAX)
  }

  /**
   * Each best price is the price of the first order of another trader on its
   * side, and the sentinel when that side holds only the caller's own
   * orders.
   */
  lemma BestBidAndAskIsFirstOther(m: Market, trader: U64)
    ensures var r := BestBidAndAsk(m, trader);
      && (forall i :: IsFirstOther(m.bids, trader, i) ==> r.0 == m.bids[i].id.priceInTicks)
      && (forall i :: IsFirstOther(m.asks, trader, i) ==> r.1 == m.asks[i].id.priceInTicks)
      && (AllOwnedBy(m.bids, trader) ==> r.0 == 1)
      && (AllOwnedBy(m.asks, trader) ==> r.1 == U64_MAX)
  {
    var b := FirstOtherTrader(m.bids, trader);
    var a := FirstOtherTrader(m.asks, trader);
    forall i | IsFirstOther(m.bids, trader, i)
      ensures BestBidAndAsk(m, trader).0 == m.bids[i].id.priceInTicks
    {
      FirstOtherIsUnique(m.bids, trader, i, b.value);
    }
    forall i | IsFirstOther(m.asks, trader, i)
      ensures BestBidAndAsk(m, trader).1 == m.asks[i].id.priceInTicks
    {
      FirstOtherIsUnique(m.asks, trader, i, a.value);
    }
  }

  /** The orders on `book` placed by traders other than `trader`, in book order. */
  function Others(book: seq<BookEntry>, trader: U64): seq<BookEntry>
  {
    if book == [] then []
    else if book[0].order.traderIndex != trader then [book[0]] + Others(book[1..], trader)
    else Others(book[1..], trader)
  }

  /** The scan finds exactly the head of the other traders' orders. */
  lemma {:induction false} FirstOtherIsHeadOfOthers(book: seq<BookEntry>, trader: U64)
    ensures FirstOtherTrader(book, trader).None? <==> Others(book, trader) == []
    ensures FirstOtherTrader(book, trader).Some? ==>
      Others(book, trader) != [] && book[FirstOtherTrader(book, trader).value] == Others(book, trader)[0]
  {
    if book != [] && book[0].order.traderIndex == trader {
      FirstOtherIsHeadOfOthers(book[1..], trader);
    }
  }

  /**
   * The best quotes depend only on other traders' orders: adding, removing or
   * resizing the caller's own orders leaves them as they were.
   */
  lemma BestQuotesIgnoreOwnOrders(m1: Market, m2: Market, trader: U64)
    requires Others(m1.bids, trader) == Others(m2.bids, trader)
    requires Others(m1.asks, trader) == Others(m2.asks, trader)
    ensures BestBidAndAsk(m1, trader) == BestBidAndAsk(m2, trader)
  {
    FirstOtherIsHeadOfOthers(m1.bids, trader);
    FirstOtherIsHeadOfOthers(m2.bids, trader);
    FirstOtherIsHeadOfOthers(m1.asks, trader);
    FirstOtherIsHeadOfOthers(m2.asks, trader);
  }

  /**
   * A caller without a seat is looked up as `u32::MAX`, an index no seated
   * trader holds, so none of the book is taken for the caller's own: each
   * best price is the head of its side, or the sentinel for an empty side.
   */
  lemma SeatlessCallerSeesTheHead(m: Market)
    requires m.callerTraderIndex.None?
    requires forall i :: 0 <= i < |m.bids| ==> m.bids[i].order.traderIndex != U32_MAX
    requires forall i :: 0 <= i < |m.asks| ==> m.asks[i].order.traderIndex != U32_MAX
    ensures BestBidAndAsk(m, TraderIndex(m)).0 == if m.bids == [] then 1 else m.bids[0].id.priceInTicks
    ensures BestBidAndAsk(m, TraderIndex(m)).1 == if m.asks == [] then U64_MAX else m.asks[0].id.priceInTicks
  {
  }
}
