# Phoenix on-chain market maker: a Dafny model of the quoting core

This project models the on-chain half of the Phoenix market-making strategy
(`programs/phoenix-onchain-mm/src/lib.rs`). The program keeps one strategy account
per trader and market. It offers two instructions:

- `initialize` validates the strategy parameters and the market, then overwrites
  the account.
- `update_quotes` runs one reconciliation pass. It does the following, in order:
  1. stamps the clock;
  2. merges a partial parameter update;
  3. prices a bid and an ask around a fair price, with an edge in basis points;
  4. moves those prices against the best quotes of other traders, under the
     Join, Dime or Ignore mode;
  5. sizes both sides from a notional;
  6. diffs the two tracked orders against the live book;
  7. cancels the stale orders in one request;
  8. places the changed sides, in one batched request or one request per side;
  9. looks the new orders up again at their predicted ids and records what it finds.

The modules follow the program's structure:

| file | module | contents |
|---|---|---|
| `types.dfy` | `Types` | machine integer ranges, the four error codes, `Option`/`Result` |
| `price_improvement.dfy` | `PriceImprovement` | the mode enum and its byte encoding |
| `venue.dfy` | `Venue` | the parts of a Phoenix market the program reads, header loading, the best-quote scan, order lookup |
| `price_math.dfy` | `PriceMath` | fair price in ticks, edge, bid and ask prices, sizing; floor division |
| `policy.dfy` | `Policy` | the Join / Dime / Ignore clamp |
| `parameters.dfy` | `Parameters` | stored and partial parameters, the merge, initialization checks |
| `quoting.dfy` | `Quoting` | the target quote of one pass |
| `reconcile.dfy` | `Reconcile` | the diff, the requests sent, the post-placement record |
| `strategy.dfy` | `Strategy` | the strategy account as a class, `Initialize`, `UpdateQuotes`, and the whole pass as a function |

Both instructions update the account record in place. So `PhoenixStrategyState`
is a class with the record's fields, and `Initialize` and `UpdateQuotes` are
methods with `modifies` frames. Each step of a pass that works by reassignment
is a method proved against a specification function:

- the policy reassignment in `ComputeQuote`;
- the flag-flipping diff loop in `DiffTracked`;
- the request sequence in `SendOrders`;
- the counter-advancing record in `RecordPlaced`.

`UpdateQuotes` as a whole is tied to the pure function `Strategy.Pass`. Each
reassigned value is then characterised by lemmas.

The model keeps the program's integer semantics:

- `u64`, `u32`, `u8` and `i64` values are subset types of `int`.
- Every `/` is floor division.
- Each place where the program would panic is a precondition on the caller. These
  places are: `u64` overflow, subtraction below zero, division by zero, and
  `from_u8` on a byte above 2. The preconditions are the `...Defined` predicates,
  `QuoteDefined`, `RecordDefined` and `PassDefined`. The one exception is
  `from_u8`, which returns `None` for the panicking bytes.
- Treating `u64` overflow as a panic assumes the program is built with overflow
  checks on. The build profile is not part of this model. Without those checks,
  the arithmetic would wrap instead. For example, under Join against an ask side
  holding only the caller's orders (`JoinAgainstEmptyAskSideOverflowsSize`), the
  program would place an ask at `u64::MAX` with a size computed from a wrapped
  divisor, rather than abort.

Venue effects are modelled as follows:

- The cross-program cancel and place calls are a returned trace of `Action`s.
- The book as it reads after those calls is an input (`reloaded`).
- A market account is three facts: whether Phoenix owns it, whether its header
  parses, and whether its book parses.

Four behaviours of the code are easy to misread. The model follows the code in
each:

- The diff compares the live order's size with the *stored initial* size. It
  compares the *stored* price with the *new* price. It never compares against the
  newly computed size (lib.rs:328-329).
- A side whose predicted order is not found after placement keeps its previous
  fields; nothing is zeroed (lib.rs:520-522 and 536-538).
- The code has no zero-price check before the size division. A zero price is a
  precondition violation here (`SizeDefined`), not an error result.
- A nonzero edge alone does not make the quotes strictly straddle the fair price.
  `StrictSpreadIff` shows they do so exactly when `edge * fairTicks >= 10000`.

## Model

| member | source | states |
|---|---|---|
| PriceImprovement.ToU8 | programs/phoenix-onchain-mm/src/lib.rs:97-103 | every mode is stored as a byte in 0..=2 |
| PriceImprovement.FromU8 | programs/phoenix-onchain-mm/src/lib.rs:105-112 | a byte decodes exactly when it is at most 2; any other byte is the panic (`None`) |
| PriceImprovement.DecodeEncode | programs/phoenix-onchain-mm/src/lib.rs:96-113 | `from_u8(to_u8(b)) == b` for every mode |
| PriceImprovement.EncodeDecode | programs/phoenix-onchain-mm/src/lib.rs:96-113 | every decodable byte is the encoding of its decoded mode, so the encoding is a bijection onto 0..=2 |
| Venue.LoadHeader | programs/phoenix-onchain-mm/src/lib.rs:27-44 | the header loads exactly when the account is owned by Phoenix, its header parses and its discriminant is `8167313896524341111`; a parse failure is `FailedToDeserializePhoenixMarket`, the other failures `InvalidPhoenixProgram` |
| Venue.BitwiseNotIsSubtractionFromMax | programs/phoenix-onchain-mm/src/lib.rs:507-509 | on 64-bit words `!x == u64::MAX - x`, the value `Complement` computes for bid ids |
| Venue.LookupFindsId | programs/phoenix-onchain-mm/src/lib.rs:326 | a book lookup fails exactly when no entry carries the id, and otherwise returns an order stored under that id |
| Venue.FirstOtherTrader | programs/phoenix-onchain-mm/src/lib.rs:50-54 | the scan returns the first position whose trader differs from the caller, and nothing exactly when every order is the caller's |
| Venue.BestBidAndAskIsFirstOther | programs/phoenix-onchain-mm/src/lib.rs:46-62 | each best price is the price of the first other trader's order on that side; 1 for a bid side and `u64::MAX` for an ask side holding only the caller's orders |
| Venue.FirstOtherIsHeadOfOthers | programs/phoenix-onchain-mm/src/lib.rs:50-54 | the scan finds nothing exactly when the other traders' orders are empty, and otherwise finds the first of them |
| Venue.SeatlessCallerSeesTheHead | programs/phoenix-onchain-mm/src/lib.rs:250 | a caller without a seat is looked up as `u32::MAX`; on a book where no order carries that index, each best price is the head of its side, or 1 / `u64::MAX` for an empty side |
| Venue.BestQuotesIgnoreOwnOrders | programs/phoenix-onchain-mm/src/lib.rs:46-62 | books that agree on the other traders' orders give the same best quotes, whatever the caller's own orders are |
| PriceMath.FloorDiv | programs/phoenix-onchain-mm/src/lib.rs:70-73 | `q * d <= n < (q + 1) * d`: u64 division rounds down |
| PriceMath.FairPriceInTicks | programs/phoenix-onchain-mm/src/lib.rs:70-72 | the fair price in ticks is `fair * raw_base_units_per_base_unit / tick_size` rounded down |
| PriceMath.EdgeInTicks | programs/phoenix-onchain-mm/src/lib.rs:73 | the edge is `edge_bps * fair_ticks / 10000` rounded down |
| PriceMath.BidPrice | programs/phoenix-onchain-mm/src/lib.rs:65-75 | the bid is at or below the fair price in ticks |
| PriceMath.AskPrice | programs/phoenix-onchain-mm/src/lib.rs:77-87 | the ask is at or above the fair price in ticks |
| PriceMath.SpreadIsSymmetric | programs/phoenix-onchain-mm/src/lib.rs:65-87 | bid <= fair <= ask and ask - fair == fair - bid |
| PriceMath.StrictSpreadIff | programs/phoenix-onchain-mm/src/lib.rs:65-87 | bid < fair, and likewise fair < ask, exactly when `edge_bps * fair_ticks >= 10000` |
| PriceMath.BoundedEdgeKeepsBidDefined | programs/phoenix-onchain-mm/src/lib.rs:73-74 | an edge of at most 10 000 bps never makes the bid subtraction underflow |
| PriceMath.WorkedExample | programs/phoenix-onchain-mm/src/lib.rs:65-87 | fair 100_000000, one raw unit per base unit, tick 10 000 and edge 3 bps give 10 000 ticks, edge 3, bid 9 997 and ask 10 003 |
| PriceMath.SizeInBaseLots | programs/phoenix-onchain-mm/src/lib.rs:288-292 | a side's size is the notional in quote lots divided by `price * tick_size`, rounded down |
| PriceMath.LowerPriceBuysNoFewerLots | programs/phoenix-onchain-mm/src/lib.rs:288-292 | at a price no higher the same notional buys at least as many base lots |
| Policy.ApplyPolicy | programs/phoenix-onchain-mm/src/lib.rs:275-286 | the ask never falls and the bid never rises; Ignore changes nothing; Join gives ask >= best ask and bid <= best bid; Dime gives ask >= best ask - 1 and bid <= best bid + 1 |
| Policy.PolicyMovesOnlyToTheClamp | programs/phoenix-onchain-mm/src/lib.rs:275-286 | a price the policy moves lands exactly on the best opposing quote (Join) or one tick inside it (Dime) |
| Policy.PolicyKeepsQuotesUncrossed | programs/phoenix-onchain-mm/src/lib.rs:275-286 | the policy keeps bid <= ask |
| Policy.JoinAgainstEmptySide | programs/phoenix-onchain-mm/src/lib.rs:276-278 | with no other trader's ask resting, Join puts the ask at `u64::MAX`; with no other trader's bid resting, Join puts the bid at 1 or below |
| Policy.JoinAgainstEmptyAskSideOverflowsSize | programs/phoenix-onchain-mm/src/lib.rs:291-292 | in that case, with a tick size of 2 or more, the ask's size divisor overflows u64 |
| Parameters.Merge | programs/phoenix-onchain-mm/src/lib.rs:224-237 | the edge is replaced only by a supplied nonzero value, size and mode whenever supplied, post-only always; valid parameters stay valid |
| Parameters.MergeIsIdempotent | programs/phoenix-onchain-mm/src/lib.rs:224-237 | applying the same update twice equals applying it once |
| Parameters.EmptyUpdateKeepsParams | programs/phoenix-onchain-mm/src/lib.rs:224-237 | an update that supplies nothing and repeats post-only changes nothing |
| Parameters.CheckInitParams | programs/phoenix-onchain-mm/src/lib.rs:167-178 | a missing parameter gives InvalidStrategyParams before the edge is looked at; a zero edge gives EdgeMustBeNonZero; with all parameters good, a header failure is returned as that header's error, so each error arises only in its own case; success exactly when all three are supplied, the edge is nonzero and the header loads, storing exactly the supplied values |
| Quoting.TargetQuote | programs/phoenix-onchain-mm/src/lib.rs:250-292 | 0 < bid <= fair ticks <= ask; each size is the floor of the notional over price times tick size; the bid size is at least the ask size |
| Quoting.TargetQuoteIgnoresOwnOrders | programs/phoenix-onchain-mm/src/lib.rs:267-268 | the target quote depends on the book only through the other traders' orders, the tick size and the caller's seat |
| Reconcile.DiffTracked | programs/phoenix-onchain-mm/src/lib.rs:302-341 | the loop's flags are "no entry for this side is unchanged" and its output is the cancel set, in entry order |
| Reconcile.CancelSetMembers | programs/phoenix-onchain-mm/src/lib.rs:325-340 | an id is cancelled exactly when it is a tracked order that rests on the book but is not unchanged |
| Reconcile.TwoSidedDiff | programs/phoenix-onchain-mm/src/lib.rs:302-341 | a side changed exactly when its tracked order is missing, rests with another size than recorded, or is tracked at a price other than the new one; the cancel set is the bid id then the ask id, each only when present and changed |
| Reconcile.PlacementsPlace | programs/phoenix-onchain-mm/src/lib.rs:379-495 | the placement requests place exactly the changed sides at their target prices and sizes |
| Reconcile.PassActions | programs/phoenix-onchain-mm/src/lib.rs:348-495 | the single batched cancel comes first and only when there is something to cancel; exactly the changed sides are placed at their targets; batched mode sends one request holding at most one order per side, per-side mode one request per changed side with the bid before the ask; the trace has exactly one request for the cancel (if any) plus those placements, and is empty when nothing changed |
| Reconcile.SteadyStateIsQuiet | programs/phoenix-onchain-mm/src/lib.rs:375-378 | with both tracked orders resting at their recorded sizes and tracked at the new prices, a pass cancels and places nothing |
| Reconcile.FilledAskIsReplacedAlone | programs/phoenix-onchain-mm/src/lib.rs:302-495 | with the bid untouched and the ask filled away, nothing is cancelled and only the ask is placed again |
| Reconcile.RecordSide | programs/phoenix-onchain-mm/src/lib.rs:506-539 | a changed side found at its predicted id is recorded under that id with the live order's size; a side not changed or not found keeps its previous fields |
| Reconcile.FoundPairIdsAreConsecutive | programs/phoenix-onchain-mm/src/lib.rs:506-526 | when both sides were placed and found, the bid is recorded under the complemented counter and the ask under the counter plus one, so the ask's sequence number is the complement of the bid's plus one |
| Reconcile.MissedBidLosesTheAsk | programs/phoenix-onchain-mm/src/lib.rs:518-539 | the counter advances only on a found bid: a placed bid that is not on the reloaded book makes the ask be looked for at the counter itself, so an ask resting only one past it goes unrecorded and both previous tracked orders are kept |
| Reconcile.SecondPassIsQuiet | programs/phoenix-onchain-mm/src/lib.rs:302-541 | after a pass that placed and found both sides, with the other traders' orders unchanged, a second pass at the same fair price targets the same quote and sends nothing |
| Strategy.ComputeQuote | programs/phoenix-onchain-mm/src/lib.rs:250-292 | the reassigning computation of prices, policy and sizes yields the target quote |
| Strategy.SendOrders | programs/phoenix-onchain-mm/src/lib.rs:348-495 | the cancel-then-place branches send exactly the requests of the pass |
| Strategy.Pass | programs/phoenix-onchain-mm/src/lib.rs:239-541 | a failed pass keeps the tracked orders and fails only with InvalidPhoenixProgram or FailedToDeserializePhoenixMarket; requests are sent only once the market has loaded |
| Strategy.RepeatedPassIsQuiet | programs/phoenix-onchain-mm/src/lib.rs:202-542 | after a pass that placed and found both sides, a pass over the reloaded book at the same fair price and parameters succeeds, sends nothing and keeps the tracked orders |
| Strategy.PhoenixStrategyState.Initialize | programs/phoenix-onchain-mm/src/lib.rs:167-199 | a failed validation returns its error and leaves the account untouched; success stores the caller and market keys, zeroed orders, the clock and the supplied parameters, with the mode byte decoding to the supplied mode |
| Strategy.PhoenixStrategyState.MergeParams | programs/phoenix-onchain-mm/src/lib.rs:224-237 | the stored parameters become the merge of the old ones with the update; only the four parameter fields change |
| Strategy.PhoenixStrategyState.Stamp | programs/phoenix-onchain-mm/src/lib.rs:219-222 | the slot and timestamp become the clock's |
| Strategy.PhoenixStrategyState.RecordPlaced | programs/phoenix-onchain-mm/src/lib.rs:506-539 | the tracked orders become `Record` of the reloaded book; only the six order fields change, and the positive-price invariant holds |
| Strategy.PhoenixStrategyState.Reconcile | programs/phoenix-onchain-mm/src/lib.rs:239-541 | loading, quoting, diffing, sending and recording give the result, the requests and the tracked orders of `Pass`; only the six order fields change |
| Strategy.PhoenixStrategyState.UpdateQuotes | programs/phoenix-onchain-mm/src/lib.rs:202-542 | the slot and timestamp are stamped, the parameters merged, and result, requests and tracked orders are those of `Pass` on the merged parameters; keys are untouched and the account stays valid |

## Left out

- `mm/src/main.rs` (the off-chain driver) is not part of this model. It is RPC,
  signing, sleeping, an HTTP price fetch converted from floating point, and CLI
  and config loading. Its two pure pieces are trivial lookup tables around I/O:
  `get_network` and the string-to-mode match.
- Byte-level parsing of the market account (`bytemuck`, `load_with_dispatch`) is
  abstracted: a market account either has a header and a book or fails to parse.
  Only the header fields quoting reads are kept.
- The Phoenix venue is not modelled: matching, `Side::from_order_sequence_number`
  (the side of each cancel), and whatever the cancel and place calls do to the
  book. The book after placement is an input.
- A failing cross-program call aborts the instruction. That failure is not
  modelled: every request in the trace is taken to succeed.
- The request trace omits details the venue uses but the strategy does not
  decide from: the client order id derived from the user's key bytes, the
  token accounts and mints, the self-trade behaviour and the per-order flags.
- `Clock::get` and account loading (`load_init`, `load_mut`) are taken to succeed.
  The clock is a parameter. `msg!` logging is dropped.
- Account constraints and PDA seeds are not modelled. Account addresses are
  abstract identifiers (`Pubkey = nat`).
- Strategy.PhoenixStrategyState.UpdateQuotes: does not model the runtime's
  rollback on an error result. When the market fails to load, the model's
  account keeps the stamped clock and merged parameters, as the code writes
  them. The runtime would discard those writes.
- Strategy.PhoenixStrategyState.UpdateQuotes: requires `PassDefined` instead of
  modelling panics. The quote arithmetic must stay within u64 and must not
  divide by zero. The stored mode byte must decode. After a found bid, the
  sequence counter must have room to advance.
- PriceImprovement.FromU8: returns `None` where the program panics. Every stored
  byte is kept at most 2 by `Valid`, so the panic cannot be reached from a valid
  account.
- Venue.Lookup returns the first entry with the id. This matches Phoenix, whose
  book sides are maps keyed by order id.
