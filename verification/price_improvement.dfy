/** The price-improvement mode and its one-byte encoding in the strategy account. */
module PriceImprovement {
  import opened Types

  datatype PriceImprovementBehavior = Join | Dime | Ignore

  /** The byte stored in the strategy account for a mode. */
  function ToU8(b: PriceImprovementBehavior): (r: U8)
    ensures r <= 2
  {
    match b
    case Join => 0
    case Dime => 1
    case Ignore => 2
  }

  /** Decodes a stored byte; `None` stands for the panic on any byte above 2. */
  function FromU8(byte: U8): (r: Option<PriceImprovementBehavior>)
    ensures r.Some? <==> byte <= 2
  {
    match byte
    case 0 => Some(Join)
    case 1 => Some(Dime)
    case 2 => Some(Ignore)
    case _ => None
  }

  /** Decoding the encoding of a mode gives the mode back. */
  lemma DecodeEncode(b: PriceImprovementBehavior)
    ensures FromU8(ToU8(b)) == Some(b)
  {
  }

  /** Every byte that decodes is the encoding of what it decodes to, so the encoding is a bijection onto 0..=2. */
  lemma EncodeDecode(byte: U8)
    requires FromU8(byte).Some?
    ensures ToU8(FromU8(byte).value) == byte
  {
  }
}
