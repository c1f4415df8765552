/**
 * Fixed-point price and size arithmetic on 64-bit unsigned integers. Every
 * division floors; each `...Defined` predicate states the operand ranges in
 * which the program's u64 arithmetic neither overflows, underflows nor
 * divides by zero (outside them the program panics).
 */
module PriceMath {
  import opened Types
  import opened Venue

  /** Basis points per unit. */
  const BPS_PER_UNIT: int := 10_000

  /** Euclidean division of naturals, spelled out for the solver. */
  lemma DivisionFloors(n: nat, d: nat)
    requires d > 0
    ensures (n / d) * d <= n < (n / d + 1) * d
    ensures 0 <= n / d <= n
  {
    assert n == (n / d) * d + n % d;
    assert (n / d) * d <= (n / d) * d * d by {
      assert d >= 1;
    }
  }

  /** Division rounding down, with the bounds that characterise it. */
  function FloorDiv(n: nat, d: nat): (q: nat)
    requires d > 0
    ensures q * d <= n < (q + 1) * d
    ensures q <= n
  {
    DivisionFloors(n, d);
    n / d
  }

  lemma MulMonotone(a: nat, b: nat, c: nat)
    requires a <= b
    ensures a * c <= b * c
  {
  }

  /** A common positive factor can be cancelled from a strict inequality. */
  lemma CancelFactor(a: nat, b: nat, d: nat)
    requires d > 0 && a * d < b * d
    ensures a < b
  {
    if a >= b {
      MulMonotone(b, a, d);
    }
  }

  predicate FairPriceDefined(fair: U64, h: MarketHeader)
  {
    h.tickSizeInQuoteAtomsPerBaseUnit > 0 && fair * h.rawBaseUnitsPerBaseUnit <= U64_MAX
  }

  /** The fair price converted from quote atoms per raw base unit into ticks, rounded down. */
  function FairPriceInTicks(fair: U64, h: MarketHeader): (r: U64)
    requires FairPriceDefined(fair, h)
    ensures r * h.tickSizeInQuoteAtomsPerBaseUnit <= fair * h.rawBaseUnitsPerBaseUnit
    ensures fair * h.rawBaseUnitsPerBaseUnit < (r + 1) * h.tickSizeInQuoteAtomsPerBaseUnit
  {
    FloorDiv(fair * h.rawBaseUnitsPerBaseUnit, h.tickSizeInQuoteAtomsPerBaseUnit)
  }

  predicate EdgeDefined(edgeInBps: U64, fairTicks: U64)
  {
    edgeInBps * fairTicks <= U64_MAX
  }

  /** `edgeInBps` basis points of `fairTicks`, rounded down. */
  function EdgeInTicks(edgeInBps: U64, fairTicks: U64): (r: U64)
    requires EdgeDefined(edgeInBps, fairTicks)
    ensures r * BPS_PER_UNIT <= edgeInBps * fairTicks < (r + 1) * BPS_PER_UNIT
  {
    FloorDiv(edgeInBps * fairTicks, BPS_PER_UNIT)
  }

  /** The bid subtraction does not go below zero. */
  predicate BidDefined(fair: U64, h: MarketHeader, edgeInBps: U64)
  {
    && FairPriceDefined(fair, h)
    && EdgeDefined(edgeInBps, FairPriceInTicks(fair, h))
    && EdgeInTicks(edgeInBps, FairPriceInTicks(fair, h)) <= FairPriceInTicks(fair, h)
  }

  /** The ask addition stays within 64 bits. */
  predicate AskDefined(fair: U64, h: MarketHeader, edgeInBps: U64)
  {
    && FairPriceDefined(fair, h)
    && EdgeDefined(edgeInBps, FairPriceInTicks(fair, h))
    && FairPriceInTicks(fair, h) + EdgeInTicks(edgeInBps, FairPriceInTicks(fair, h)) <= U64_MAX
  }

  /** The fair price in ticks less the edge. */
  function BidPrice(fair: U64, h: MarketHeader, edgeInBps: U64): (r: U64)
    requires BidDefined(fair, h, edgeInBps)
    ensures r <= FairPriceInTicks(fair, h)
  {
    var fairTicks := FairPriceInTicks(fair, h);
    fairTicks - EdgeInTicks(edgeInBps, fairTicks)
  }

  /** The fair price in ticks plus the edge. */
  function AskPrice(fair: U64, h: MarketHeader, edgeInBps: U64): (r: U64)
    requires AskDefined(fair, h, edgeInBps)
    ensures r >= FairPriceInTicks(fair, h)
  {
    var fairTicks := FairPriceInTicks(fair, h);
    fairTicks + EdgeInTicks(edgeInBps, fairTicks)
  }

  /** The quotes straddle the fair price symmetrically. */
  lemma SpreadIsSymmetric(fair: U64, h: MarketHeader, edgeInBps: U64)
    requires BidDefined(fair, h, edgeInBps) && AskDefined(fair, h, edgeInBps)
    ensures BidPrice(fair, h, edgeInBps) <= FairPriceInTicks(fair, h) <= AskPrice(fair, h, edgeInBps)
    ensures AskPrice(fair, h, edgeInBps) - FairPriceInTicks(fair, h)
         == FairPriceInTicks(fair, h) - BidPrice(fair, h, edgeInBps)
  {
  }

  /**
   * The quotes are strictly away from the fair price exactly when the edge
   * amounts to at least one whole tick before rounding; a nonzero edge alone
   * is not enough.
   */
  lemma StrictSpreadIff(fair: U64, h: MarketHeader, edgeInBps: U64)
    requires BidDefined(fair, h, edgeInBps) && AskDefined(fair, h, edgeInBps)
    ensures BidPrice(fair, h, edgeInBps) < FairPriceInTicks(fair, h)
        <==> edgeInBps * FairPriceInTicks(fair, h) >= BPS_PER_UNIT
    ensures AskPrice(fair, h, edgeInBps) > FairPriceInTicks(fair, h)
        <==> edgeInBps * FairPriceInTicks(fair, h) >= BPS_PER_UNIT
  {
  }

  /** An edge of at most 10 000 basis points cannot push the bid below zero. */
  lemma BoundedEdgeKeepsBidDefined(fair: U64, h: MarketHeader, edgeInBps: U64)
    requires FairPriceDefined(fair, h) && EdgeDefined(edgeInBps, FairPriceInTicks(fair, h))
    requires edgeInBps <= BPS_PER_UNIT
    ensures BidDefined(fair, h, edgeInBps)
  {
    var fairTicks: nat := FairPriceInTicks(fair, h);
    var e: nat := EdgeInTicks(edgeInBps, fairTicks);
    MulMonotone(edgeInBps, BPS_PER_UNIT, fairTicks);
    CancelFactor(e, fairTicks + 1, BPS_PER_UNIT);
  }

  /** 100.000000 quote atoms per raw base unit, one raw unit per base unit, tick 10 000 atoms, edge 3 bps. */
  lemma WorkedExample(h: MarketHeader)
    requires h.rawBaseUnitsPerBaseUnit == 1 && h.tickSizeInQuoteAtomsPerBaseUnit == 10_000
    ensures FairPriceInTicks(100_000000, h) == 10_000
    ensures EdgeInTicks(3, 10_000) == 3
    ensures BidPrice(100_000000, h, 3) == 9_997
    ensures AskPrice(100_000000, h, 3) == 10_003
  {
  }

  predicate QuoteLotsDefined(quoteSizeInQuoteAtoms: U64, quoteLotSize: U64)
  {
    quoteSizeInQuoteAtoms * quoteLotSize <= U64_MAX
  }

  /** The notional per side, as the program multiplies it out. */
  function QuoteLots(quoteSizeInQuoteAtoms: U64, quoteLotSize: U64): U64
    requires QuoteLotsDefined(quoteSizeInQuoteAtoms, quoteLotSize)
  {
    quoteSizeInQuoteAtoms * quoteLotSize
  }

  /** The size divisor is nonzero and fits in 64 bits. */
  predicate SizeDefined(priceInTicks: U64, tickSize: U64)
  {
    0 < priceInTicks * tickSize <= U64_MAX
  }

  /** How many base lots the notional buys at `priceInTicks`, rounded down. */
  function SizeInBaseLots(quoteLots: U64, priceInTicks: U64, tickSize: U64): (r: U64)
    requires SizeDefined(priceInTicks, tickSize)
    ensures r * (priceInTicks * tickSize) <= quoteLots < (r + 1) * (priceInTicks * tickSize)
  {
    FloorDiv(quoteLots, priceInTicks * tickSize)
  }

  /** At a price no higher, the same notional buys at least as many lots. */
  lemma LowerPriceBuysNoFewerLots(quoteLots: U64, lower: U64, higher: U64, tickSize: U64)
    requires SizeDefined(lower, tickSize) && SizeDefined(higher, tickSize)
    requires lower <= higher
    ensures SizeInBaseLots(quoteLots, lower, tickSize) >= SizeInBaseLots(quoteLots, higher, tickSize)
  {
    var sl: nat := SizeInBaseLots(quoteLots, lower, tickSize);
    var sh: nat := SizeInBaseLots(quoteLots, higher, tickSize);
    var dl: nat, dh: nat := lower * tickSize, higher * tickSize;
    MulMonotone(lower, higher, tickSize);
    MulMonotone(dl, dh, sh);
    CancelFactor(sh, sl + 1, dl);
  }
}
