/**
 * The merge algebra of amount specifications: two pending amounts for the
 * same strategy and ticker are compounded into one, or rejected.
 */
module AmountAlgebra {
  import opened Wrappers
  import opened Types

  /** The variant of an amount, forgetting its payload. */
  datatype Kind = DollarsKind | SharesKind | PercentKind | ZeroKind

  function KindOf(a: AmountSpec): Kind {
    match a
    case Dollars(_) => DollarsKind
    case Shares(_) => SharesKind
    case Percent(_) => PercentKind
    case Zero => ZeroKind
  }

  /** The numeric payload of an amount; `Zero` carries the number 0. */
  function Payload(a: AmountSpec): Decimal {
    match a
    case Dollars(x) => x
    case Shares(x) => x
    case Percent(x) => x
    case Zero => 0.0
  }

  /** Two amounts can be merged when one is `Zero` or both have the same variant. */
  predicate Compatible(a: AmountSpec, b: AmountSpec) {
    KindOf(a) == ZeroKind || KindOf(b) == ZeroKind || KindOf(a) == KindOf(b)
  }

  /**
   * `AmountSpec::merge`. On success the result has the variant of the
   * non-`Zero` operand (or is `Zero`) and carries the sum of the payloads;
   * otherwise the error holds both operands, unchanged and in order.
   */
  function Merge(a: AmountSpec, b: AmountSpec): (r: Result<AmountSpec, Error>)
    ensures r.Ok? <==> Compatible(a, b)
    ensures r.Err? ==> r.error == IncompatibleAmountError(a, b)
    ensures r.Ok? ==> KindOf(r.value) == (if a.Zero? then KindOf(b) else KindOf(a))
    ensures r.Ok? ==> Payload(r.value) == Payload(a) + Payload(b)
  {
    match (a, b)
    case (Dollars(x), Dollars(y)) => Ok(Dollars(x + y))
    case (Shares(x), Shares(y)) => Ok(Shares(x + y))
    case (Percent(x), Percent(y)) => Ok(Percent(x + y))
    case (Zero, Zero) => Ok(Zero)
    case (Zero, y) => Ok(y)
    case (x, Zero) => Ok(x)
    case (x, y) => Err(IncompatibleAmountError(x, y))
  }

  /** An amount is determined by its variant and its payload. */
  lemma KindAndPayloadDetermineAmount(a: AmountSpec, b: AmountSpec)
    requires KindOf(a) == KindOf(b) && Payload(a) == Payload(b)
    ensures a == b
  {
  }

  /** The contract of `Merge` leaves no freedom: any result meeting it is the merge. */
  lemma MergeContractDetermines(a: AmountSpec, b: AmountSpec, r: Result<AmountSpec, Error>)
    requires r.Ok? <==> Compatible(a, b)
    requires r.Err? ==> r.error == IncompatibleAmountError(a, b)
    requires r.Ok? ==> KindOf(r.value) == (if a.Zero? then KindOf(b) else KindOf(a))
    requires r.Ok? ==> Payload(r.value) == Payload(a) + Payload(b)
    ensures r == Merge(a, b)
  {
    if r.Ok? {
      KindAndPayloadDetermineAmount(r.value, Merge(a, b).value);
    }
  }

  /** Same numeric variant on both sides: the payloads are added. */
  lemma MergeSameVariantAdds(x: Decimal, y: Decimal)
    ensures Merge(Dollars(x), Dollars(y)) == Ok(Dollars(x + y))
    ensures Merge(Shares(x), Shares(y)) == Ok(Shares(x + y))
    ensures Merge(Percent(x), Percent(y)) == Ok(Percent(x + y))
  {
  }

  /** `Zero` is a two-sided identity. */
  lemma MergeZeroIdentity(v: AmountSpec)
    ensures Merge(Zero, v) == Ok(v)
    ensures Merge(v, Zero) == Ok(v)
  {
  }

  /** Merge fails exactly for two non-`Zero` operands of different variants. */
  lemma MergeFailsExactly(a: AmountSpec, b: AmountSpec)
    ensures Merge(a, b).Err? <==> !a.Zero? && !b.Zero? && KindOf(a) != KindOf(b)
    ensures Merge(a, b).Err? ==> Merge(a, b) == Err(IncompatibleAmountError(a, b))
  {
  }

  /**
   * Merge is symmetric: it succeeds in one order exactly when it succeeds in
   * the other, with the same value; a failure reports the operands in the
   * order they were given.
   */
  lemma MergeSymmetric(a: AmountSpec, b: AmountSpec)
    ensures Merge(a, b).Ok? <==> Merge(b, a).Ok?
    ensures Merge(a, b).Ok? ==> Merge(a, b).value == Merge(b, a).value
    ensures Merge(a, b).Err? ==> Merge(b, a) == Err(IncompatibleAmountError(b, a))
  {
  }

  /** Merges three amounts, left to right, stopping at the first failure. */
  function MergeLeft(a: AmountSpec, b: AmountSpec, c: AmountSpec): Result<AmountSpec, Error> {
    match Merge(a, b)
    case Ok(ab) => Merge(ab, c)
    case Err(e) => Err(e)
  }

  /** Merges three amounts, right to left, stopping at the first failure. */
  function MergeRight(a: AmountSpec, b: AmountSpec, c: AmountSpec): Result<AmountSpec, Error> {
    match Merge(b, c)
    case Ok(bc) => Merge(a, bc)
    case Err(e) => Err(e)
  }

  /**
   * Compounding three intents does not depend on grouping: both groupings
   * succeed together, exactly when all non-`Zero` amounts share one
   * variant, and then agree on the value. (The error payloads may differ:
   * each names the first pair that clashed.)
   */
  lemma MergeAssociative(a: AmountSpec, b: AmountSpec, c: AmountSpec)
    ensures MergeLeft(a, b, c).Ok? <==> Compatible(a, b) && Compatible(b, c) && Compatible(a, c)
    ensures MergeLeft(a, b, c).Ok? <==> MergeRight(a, b, c).Ok?
    ensures MergeLeft(a, b, c).Ok? ==> MergeLeft(a, b, c).value == MergeRight(a, b, c).value
  {
  }
}
