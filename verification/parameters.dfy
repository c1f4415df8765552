/** Strategy parameters: the partial update a caller supplies, how it merges, and how initialization validates it. */
module Parameters {
  import opened Types
  import opened PriceImprovement
  import opened Venue

  /** The parameters a caller passes; `None` means "keep the current value". */
  datatype StrategyParams = StrategyParams(
    quoteEdgeInBps: Option<U64>,
    quoteSizeInQuoteAtoms: Option<U64>,
    priceImprovementBehavior: Option<PriceImprovementBehavior>,
    postOnly: bool)

  /** The arguments of one quote update. */
  datatype OrderParams = OrderParams(
    fairPriceInQuoteAtomsPerRawBaseUnit: U64,
    strategyParams: StrategyParams)

  /** The parameters as stored in the strategy account, the mode as its byte. */
  datatype Params = Params(
    quoteEdgeInBps: U64,
    quoteSizeInQuoteAtoms: U64,
    postOnly: bool,
    priceImprovementBehavior: U8)

  /** What every stored parameter set satisfies: a nonzero edge and a decodable mode byte. */
  predicate ValidParams(p: Params)
  {
    p.quoteEdgeInBps > 0 && FromU8(p.priceImprovementBehavior).Some?
  }

  function Behavior(p: Params): PriceImprovementBehavior
    requires ValidParams(p)
  {
    FromU8(p.priceImprovementBehavior).value
  }

  /**
   * Field-by-field merge of an update: the edge is replaced only by a
   * supplied nonzero value, size and mode whenever supplied, post-only always.
   */
  function Merge(p: Params, u: StrategyParams): (r: Params)
    ensures u.quoteEdgeInBps.Some? && u.quoteEdgeInBps.value > 0 ==> r.quoteEdgeInBps == u.quoteEdgeInBps.value
    ensures u.quoteEdgeInBps.None? || u.quoteEdgeInBps.value == 0 ==> r.quoteEdgeInBps == p.quoteEdgeInBps
    ensures u.quoteSizeInQuoteAtoms.Some? ==> r.quoteSizeInQuoteAtoms == u.quoteSizeInQuoteAtoms.value
    ensures u.quoteSizeInQuoteAtoms.None? ==> r.quoteSizeInQuoteAtoms == p.quoteSizeInQuoteAtoms
    ensures u.priceImprovementBehavior.Some? ==> FromU8(r.priceImprovementBehavior) == u.priceImprovementBehavior
    ensures u.priceImprovementBehavior.None? ==> r.priceImprovementBehavior == p.priceImprovementBehavior
    ensures r.postOnly == u.postOnly
    ensures ValidParams(p) ==> ValidParams(r)
  {
    var edge := if u.quoteEdgeInBps.Some? && u.quoteEdgeInBps.value > 0 then u.quoteEdgeInBps.value else p.quoteEdgeInBps;
    var size := if u.quoteSizeInQuoteAtoms.Some? then u.quoteSizeInQuoteAtoms.value else p.quoteSizeInQuoteAtoms;
    var mode := if u.priceImprovementBehavior.Some? then ToU8(u.priceImprovementBehavior.value) else p.priceImprovementBehavior;
    DecodeEncodeAll();
    Params(edge, size, u.postOnly, mode)
  }

  lemma DecodeEncodeAll()
    ensures forall b :: FromU8(ToU8(b)) == Some(b)
  {
    forall b { DecodeEncode(b); }
  }

  /** Applying the same update twice is the same as applying it once. */
  lemma MergeIsIdempotent(p: Params, u: StrategyParams)
    ensures Merge(Merge(p, u), u) == Merge(p, u)
  {
  }

  /** An update that supplies nothing and repeats the post-only flag changes nothing. */
  lemma EmptyUpdateKeepsParams(p: Params)
    ensures Merge(p, StrategyParams(None, None, None, p.postOnly)) == p
  {
  }

  /**
   * Initialization: all three optional parameters must be supplied (else
   * InvalidStrategyParams), then the edge must be nonzero (else
   * EdgeMustBeNonZero), then the market header must load.
   */
  function CheckInitParams(u: StrategyParams, header: Result<MarketHeader>): (r: Result<Params>)
    ensures u.quoteEdgeInBps.None? || u.quoteSizeInQuoteAtoms.None? || u.priceImprovementBehavior.None?
      ==> r == Err(InvalidStrategyParams)
    ensures u.quoteEdgeInBps == Some(0) && u.quoteSizeInQuoteAtoms.Some? && u.priceImprovementBehavior.Some?
      ==> r == Err(EdgeMustBeNonZero)
    ensures r.Err? && r.error !in {InvalidStrategyParams, EdgeMustBeNonZero} ==> header == Err(r.error)
    ensures u.quoteEdgeInBps.Some? && u.quoteEdgeInBps.value > 0 && u.quoteSizeInQuoteAtoms.Some?
      && u.priceImprovementBehavior.Some? && header.Err?
      ==> r == Err(header.error)
    ensures r.Ok? <==>
      u.quoteEdgeInBps.Some? && u.quoteEdgeInBps.value > 0 && u.quoteSizeInQuoteAtoms.Some?
      && u.priceImprovementBehavior.Some? && header.Ok?
    ensures r.Ok? ==> ValidParams(r.value)
    ensures r.Ok? ==>
      && Some(r.value.quoteEdgeInBps) == u.quoteEdgeInBps
      && Some(r.value.quoteSizeInQuoteAtoms) == u.quoteSizeInQuoteAtoms
      && FromU8(r.value.priceImprovementBehavior) == u.priceImprovementBehavior
      && r.value.postOnly == u.postOnly
  {
    if u.quoteEdgeInBps.None? || u.quoteSizeInQuoteAtoms.None? || u.priceImprovementBehavior.None? then
      Err(InvalidStrategyParams)
    else if u.quoteEdgeInBps.value == 0 then
      Err(EdgeMustBeNonZero)
    else if header.Err? then
      Err(header.error)
    else
      DecodeEncode(u.priceImprovementBehavior.value);
      Ok(Params(u.quoteEdgeInBps.value, u.quoteSizeInQuoteAtoms.value, u.postOnly,
                ToU8(u.priceImprovementBehavior.value)))
  }
}
