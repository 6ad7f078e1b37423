/**
 * The value types of the position-intent library: amounts, tickers, update
 * policies and the error taxonomy. Decimals are exact, timestamps are
 * integers (seconds of the UTC clock) and identifiers are 128-bit numbers.
 */
module Types {

  /** An exact decimal number; rational arithmetic never rounds. */
  type Decimal = real

  /** A UTC timestamp, in seconds. */
  type DateTime = int

  /** One hour, in the unit of `DateTime`. */
  const OneHour: DateTime := 3600

  /** A 128-bit universally unique identifier. */
  type Uuid = x: nat | x < 0x1_0000_0000_0000_0000_0000_0000_0000_0000

  /** How much to change a position by. */
  datatype AmountSpec =
    | Dollars(dollars: Decimal)
    | Shares(shares: Decimal)
    | Percent(percent: Decimal)
    | Zero

  /** How the order manager reconciles an intent with an open position. */
  datatype UpdatePolicy = Retain | RetainLong | RetainShort | Update

  /** The target of an intent: one symbol, or every held symbol. */
  datatype TickerSpec = Ticker(symbol: string) | All

  /** The failures of `merge` and `build`, with their diagnostic payloads. */
  datatype Error =
    | IncompatibleAmountError(left: AmountSpec, right: AmountSpec)
    | InvalidBeforeAfter(before: DateTime, after: DateTime)
    | InvalidCombination

  /**
   * The conversion from any text into a ticker: it always names one concrete
   * symbol, never `All`, and the symbol can be read back unchanged.
   */
  function TickerFrom(s: string): (t: TickerSpec)
    ensures t != All
    ensures t.symbol == s
  {
    Ticker(s)
  }
}
