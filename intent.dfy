/**
 * Position intents and their builder: the builder accumulates optional
 * fields, and `build` is the single validation gate that turns it into an
 * immutable intent or an error.
 */
module Intent {
  import opened Wrappers
  import opened Types

  /** The finalized, immutable request for a position change. */
  datatype PositionIntent = PositionIntent(
    id: Uuid,
    strategy: string,
    subStrategy: Option<string>,
    timestamp: DateTime,
    ticker: TickerSpec,
    amount: AmountSpec,
    updatePolicy: UpdatePolicy,
    decisionPrice: Option<Decimal>,
    limitPrice: Option<Decimal>,
    stopPrice: Option<Decimal>,
    before: Option<DateTime>,
    after: Option<DateTime>)

  /** The value held by a builder: every field of an intent but its id and timestamp. */
  datatype BuilderState = BuilderState(
    strategy: string,
    subStrategy: Option<string>,
    ticker: TickerSpec,
    amount: AmountSpec,
    updatePolicy: UpdatePolicy,
    decisionPrice: Option<Decimal>,
    limitPrice: Option<Decimal>,
    stopPrice: Option<Decimal>,
    before: Option<DateTime>,
    after: Option<DateTime>)

  /** The state of a builder just created by `PositionIntent::builder`. */
  function Initial(strategy: string, ticker: TickerSpec, amount: AmountSpec): BuilderState {
    BuilderState(strategy, None, ticker, amount, Update, None, None, None, None, None)
  }

  /** What an intent was built from: the intent without its id and timestamp. */
  function Draft(p: PositionIntent): BuilderState {
    BuilderState(p.strategy, p.subStrategy, p.ticker, p.amount, p.updatePolicy,
                 p.decisionPrice, p.limitPrice, p.stopPrice, p.before, p.after)
  }

  /**
   * The validity window passes unless both ends are set and `before` is
   * strictly earlier than `after`.
   */
  predicate WindowOk(before: Option<DateTime>, after: Option<DateTime>) {
    before.None? || after.None? || before.value >= after.value
  }

  /**
   * The ticker/amount compatibility table: `All` admits `Percent` and
   * `Zero` only; a concrete ticker admits every amount.
   */
  predicate CombinationAllowed(ticker: TickerSpec, amount: AmountSpec) {
    match ticker
    case Ticker(_) => true
    case All =>
      match amount
      case Dollars(_) => false
      case Shares(_) => false
      case Percent(_) => true
      case Zero => true
  }

  /** The invariant every finalized intent satisfies. */
  predicate ValidIntent(p: PositionIntent) {
    WindowOk(p.before, p.after) && CombinationAllowed(p.ticker, p.amount)
  }

  /**
   * `PositionIntentBuilder::build` on the builder's value, with the fresh
   * identifier and the current time supplied by the caller. The window check
   * comes first and takes precedence; the compatibility table second. A
   * successful result carries every accumulated field unchanged.
   */
  function Finalize(b: BuilderState, id: Uuid, now: DateTime): (r: Result<PositionIntent, Error>)
    ensures r.Ok? <==> WindowOk(b.before, b.after) && CombinationAllowed(b.ticker, b.amount)
    ensures r.Err? && r.error.InvalidBeforeAfter? <==> !WindowOk(b.before, b.after)
    ensures !WindowOk(b.before, b.after) ==> r == Err(InvalidBeforeAfter(b.before.value, b.after.value))
    ensures r == Err(InvalidCombination) <==>
              WindowOk(b.before, b.after) && !CombinationAllowed(b.ticker, b.amount)
    ensures r.Ok? ==> Draft(r.value) == b && r.value.id == id && r.value.timestamp == now
    ensures r.Ok? ==> ValidIntent(r.value)
  {
    if b.before.Some? && b.after.Some? && b.before.value < b.after.value then
      Err(InvalidBeforeAfter(b.before.value, b.after.value))
    else
      match (b.ticker, b.amount)
      case (All, Dollars(_)) => Err(InvalidCombination)
      case (All, Shares(_)) => Err(InvalidCombination)
      case _ =>
        Ok(PositionIntent(id, b.strategy, b.subStrategy, now, b.ticker, b.amount, b.updatePolicy,
                          b.decisionPrice, b.limitPrice, b.stopPrice, b.before, b.after))
  }

  /** A builder fresh from `PositionIntent::builder` never fails the window check. */
  lemma FinalizeInitial(strategy: string, ticker: TickerSpec, amount: AmountSpec, id: Uuid, now: DateTime)
    ensures Finalize(Initial(strategy, ticker, amount), id, now).Ok? <==> CombinationAllowed(ticker, amount)
    ensures !CombinationAllowed(ticker, amount) ==>
              Finalize(Initial(strategy, ticker, amount), id, now) == Err(InvalidCombination)
  {
  }

  /** A ticker converted from text can never make `build` fail with `InvalidCombination`. */
  lemma ConcreteTickerNeverInvalidCombination(b: BuilderState, s: string, id: Uuid, now: DateTime)
    requires b.ticker == TickerFrom(s)
    ensures Finalize(b, id, now) != Err(InvalidCombination)
    ensures Finalize(b, id, now).Ok? <==> WindowOk(b.before, b.after)
  {
  }

  /** Two successful builds of the same intent came from the same builder value. */
  lemma FinalizeInjective(b1: BuilderState, b2: BuilderState, id: Uuid, now: DateTime)
    requires Finalize(b1, id, now).Ok? && Finalize(b2, id, now).Ok?
    ensures Finalize(b1, id, now) == Finalize(b2, id, now) <==> b1 == b2
  {
  }

  // ---------------------------------------------------------------------------
  // Setter calls as values, for reasoning about chains of builder calls

  /** One call of a builder setter, with its argument. */
  datatype Setter =
    | SetSubStrategy(subStrategy: string)
    | SetDecisionPrice(decisionPrice: Decimal)
    | SetLimitPrice(limitPrice: Decimal)
    | SetStopPrice(stopPrice: Decimal)
    | SetBefore(before: DateTime)
    | SetAfter(after: DateTime)
    | SetUpdatePolicy(policy: UpdatePolicy)

  /** The fields a setter may write. */
  datatype Field =
    | SubStrategyField | DecisionPriceField | LimitPriceField | StopPriceField
    | BeforeField | AfterField | UpdatePolicyField

  /** The content of one settable field. */
  datatype FieldValue =
    | Text(text: Option<string>)
    | Price(price: Option<Decimal>)
    | Time(time: Option<DateTime>)
    | Policy(policy: UpdatePolicy)

  function Target(c: Setter): Field {
    match c
    case SetSubStrategy(_) => SubStrategyField
    case SetDecisionPrice(_) => DecisionPriceField
    case SetLimitPrice(_) => LimitPriceField
    case SetStopPrice(_) => StopPriceField
    case SetBefore(_) => BeforeField
    case SetAfter(_) => AfterField
    case SetUpdatePolicy(_) => UpdatePolicyField
  }

  /** What a setter stores in its field. */
  function Written(c: Setter): FieldValue {
    match c
    case SetSubStrategy(s) => Text(Some(s))
    case SetDecisionPrice(p) => Price(Some(p))
    case SetLimitPrice(p) => Price(Some(p))
    case SetStopPrice(p) => Price(Some(p))
    case SetBefore(t) => Time(Some(t))
    case SetAfter(t) => Time(Some(t))
    case SetUpdatePolicy(u) => Policy(u)
  }

  function Get(b: BuilderState, f: Field): FieldValue {
    match f
    case SubStrategyField => Text(b.subStrategy)
    case DecisionPriceField => Price(b.decisionPrice)
    case LimitPriceField => Price(b.limitPrice)
    case StopPriceField => Price(b.stopPrice)
    case BeforeField => Time(b.before)
    case AfterField => Time(b.after)
    case UpdatePolicyField => Policy(b.updatePolicy)
  }

  /** The required fields, fixed when the builder is created. */
  predicate SameRequired(b: BuilderState, b': BuilderState) {
    b'.strategy == b.strategy && b'.ticker == b.ticker && b'.amount == b.amount
  }

  /** The effect of one setter call on the builder's value. */
  function Apply(b: BuilderState, c: Setter): BuilderState {
    match c
    case SetSubStrategy(s) => b.(subStrategy := Some(s))
    case SetDecisionPrice(p) => b.(decisionPrice := Some(p))
    case SetLimitPrice(p) => b.(limitPrice := Some(p))
    case SetStopPrice(p) => b.(stopPrice := Some(p))
    case SetBefore(t) => b.(before := Some(t))
    case SetAfter(t) => b.(after := Some(t))
    case SetUpdatePolicy(u) => b.(updatePolicy := u)
  }

  /** The effect of a chain of setter calls, applied first to last. */
  function ApplyAll(b: BuilderState, cs: seq<Setter>): BuilderState
    decreases |cs|
  {
    if |cs| == 0 then b else Apply(ApplyAll(b, cs[..|cs| - 1]), cs[|cs| - 1])
  }

  /** Each setter writes its own field and leaves every other field as it was. */
  lemma ApplySetsOnlyItsField(b: BuilderState, c: Setter, f: Field)
    ensures Get(Apply(b, c), Target(c)) == Written(c)
    ensures f != Target(c) ==> Get(Apply(b, c), f) == Get(b, f)
    ensures SameRequired(b, Apply(b, c))
  {
  }

  /** Setters on different fields commute; on the same field the later one wins. */
  lemma SettersCommuteOrOverwrite(b: BuilderState, c1: Setter, c2: Setter)
    ensures Target(c1) != Target(c2) ==> Apply(Apply(b, c1), c2) == Apply(Apply(b, c2), c1)
    ensures Target(c1) == Target(c2) ==> Apply(Apply(b, c1), c2) == Apply(b, c2)
  {
  }

  /** No chain of setter calls changes the strategy, the ticker or the amount. */
  lemma {:induction false} ChainKeepsRequired(b: BuilderState, cs: seq<Setter>)
    ensures SameRequired(b, ApplyAll(b, cs))
    decreases |cs|
  {
    if |cs| > 0 {
      ChainKeepsRequired(b, cs[..|cs| - 1]);
      ApplySetsOnlyItsField(ApplyAll(b, cs[..|cs| - 1]), cs[|cs| - 1], SubStrategyField);
    }
  }

  /** A field that no call of the chain targets keeps its value. */
  lemma {:induction false} ChainKeepsUntargeted(b: BuilderState, cs: seq<Setter>, f: Field)
    requires forall i :: 0 <= i < |cs| ==> Target(cs[i]) != f
    ensures Get(ApplyAll(b, cs), f) == Get(b, f)
    decreases |cs|
  {
    if |cs| > 0 {
      var n := |cs| - 1;
      assert forall i :: 0 <= i < n ==> cs[..n][i] == cs[i];
      ChainKeepsUntargeted(b, cs[..n], f);
      ApplySetsOnlyItsField(ApplyAll(b, cs[..n]), cs[n], f);
    }
  }

  /**
   * A field some call of the chain targets holds what the last such call,
   * the `i`-th, wrote: a later call overwrites an earlier one.
   */
  lemma {:induction false} LastWriteWins(b: BuilderState, cs: seq<Setter>, i: nat)
    requires i < |cs|
    requires forall j :: i < j < |cs| ==> Target(cs[j]) != Target(cs[i])
    ensures Get(ApplyAll(b, cs), Target(cs[i])) == Written(cs[i])
    decreases |cs|
  {
    var n := |cs| - 1;
    if i < n {
      assert forall j :: 0 <= j < n ==> cs[..n][j] == cs[j];
      LastWriteWins(b, cs[..n], i);
    }
    ApplySetsOnlyItsField(ApplyAll(b, cs[..n]), cs[n], Target(cs[i]));
  }

  // ---------------------------------------------------------------------------
  // The builder object

  /**
   * `PositionIntentBuilder`: the required fields are fixed at creation, the
   * optional ones are overwritten in place by the setters.
   */
  class PositionIntentBuilder {
    const strategy: string
    const ticker: TickerSpec
    const amount: AmountSpec
    var subStrategy: Option<string>
    var updatePolicy: UpdatePolicy
    var decisionPrice: Option<Decimal>
    var limitPrice: Option<Decimal>
    var stopPrice: Option<Decimal>
    var before: Option<DateTime>
    var after: Option<DateTime>

    /** The builder's current value. */
    function State(): BuilderState
      reads this
    {
      BuilderState(strategy, subStrategy, ticker, amount, updatePolicy,
                   decisionPrice, limitPrice, stopPrice, before, after)
    }

    /** `PositionIntent::builder`: the required fields, `Update` policy, nothing optional set. */
    constructor (strategy: string, ticker: TickerSpec, amount: AmountSpec)
      ensures State() == Initial(strategy, ticker, amount)
      ensures updatePolicy == Update
      ensures subStrategy.None? && decisionPrice.None? && limitPrice.None? && stopPrice.None?
      ensures before.None? && after.None?
    {
      this.strategy := strategy;
      this.ticker := ticker;
      this.amount := amount;
      subStrategy := None;
      updatePolicy := Update;
      decisionPrice := None;
      limitPrice := None;
      stopPrice := None;
      before := None;
      after := None;
    }

    method SubStrategy(s: string)
      modifies this
      ensures subStrategy == Some(s)
      ensures State() == Apply(old(State()), SetSubStrategy(s))
    {
      subStrategy := Some(s);
    }

    method DecisionPrice(p: Decimal)
      modifies this
      ensures decisionPrice == Some(p)
      ensures State() == Apply(old(State()), SetDecisionPrice(p))
    {
      decisionPrice := Some(p);
    }

    method LimitPrice(p: Decimal)
      modifies this
      ensures limitPrice == Some(p)
      ensures State() == Apply(old(State()), SetLimitPrice(p))
    {
      limitPrice := Some(p);
    }

    method StopPrice(p: Decimal)
      modifies this
      ensures stopPrice == Some(p)
      ensures State() == Apply(old(State()), SetStopPrice(p))
    {
      stopPrice := Some(p);
    }

    method Before(t: DateTime)
      modifies this
      ensures before == Some(t)
      ensures State() == Apply(old(State()), SetBefore(t))
    {
      before := Some(t);
    }

    method After(t: DateTime)
      modifies this
      ensures after == Some(t)
      ensures State() == Apply(old(State()), SetAfter(t))
    {
      after := Some(t);
    }

    method UpdatePolicy(policy: UpdatePolicy)
      modifies this
      ensures updatePolicy == policy
      ensures State() == Apply(old(State()), SetUpdatePolicy(policy))
    {
      updatePolicy := policy;
    }

    /**
     * `build`, with the fresh identifier and the current time as inputs. It
     * fails on an inverted window first, then on `All` with an absolute
     * amount; otherwise it yields the intent carrying every field.
     */
    method Build(id: Uuid, now: DateTime) returns (r: Result<PositionIntent, Error>)
      ensures r == Finalize(State(), id, now)
    {
      // Early returns in the order of src/lib.rs:115-124; the contract ties them to `Finalize`.
      if before.Some? && after.Some? && before.value < after.value {
        return Err(InvalidBeforeAfter(before.value, after.value));
      }
      match (ticker, amount) {
        case (All, Dollars(_)) => return Err(InvalidCombination);
        case (All, Shares(_)) => return Err(InvalidCombination);
        case _ =>
      }
      r := Ok(PositionIntent(id, strategy, subStrategy, now, ticker, amount, updatePolicy,
                             decisionPrice, limitPrice, stopPrice, before, after));
    }
  }

  /**
   * The construction scenario: strategy "A", ticker "AAPL", one dollar, every
   * optional field set, a window that closes an hour after it opens.
   */
  method ConstructPositionIntent(id: Uuid, now: DateTime) returns (r: Result<PositionIntent, Error>)
    ensures r.Ok?
    ensures r.value.ticker == Ticker("AAPL") && r.value.amount == Dollars(1.0)
    ensures r.value.subStrategy == Some("B") && r.value.updatePolicy == Retain
    ensures r.value.before == Some(now + OneHour) && r.value.after == Some(now)
  {
    var builder := new PositionIntentBuilder("A", TickerFrom("AAPL"), Dollars(1.0));
    builder.SubStrategy("B");
    builder.DecisionPrice(2.0);
    builder.LimitPrice(3.0);
    builder.StopPrice(3.0);
    builder.UpdatePolicy(Retain);
    builder.Before(now + OneHour);
    builder.After(now);
    r := builder.Build(id, now);
  }

  /**
   * The two rejection scenarios: `All` with a dollar amount, and a window
   * whose `before` is an hour earlier than its `after`.
   */
  method RejectIntents(id: Uuid, now: DateTime)
    returns (allDollars: Result<PositionIntent, Error>, inverted: Result<PositionIntent, Error>)
    ensures allDollars == Err(InvalidCombination)
    ensures inverted == Err(InvalidBeforeAfter(now, now + OneHour))
  {
    var b1 := new PositionIntentBuilder("A", All, Dollars(100.0));
    allDollars := b1.Build(id, now);
    var b2 := new PositionIntentBuilder("A", TickerFrom("AAPL"), Dollars(100.0));
    b2.Before(now);
    b2.After(now + OneHour);
    inverted := b2.Build(id, now);
  }
}
