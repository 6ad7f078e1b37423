# Position intents, modelled in Dafny

A *position intent* is an immutable request, sent by a trading strategy to an
order manager, to change a held position. This project models the library
that defines it (`src/lib.rs`):

- the amount algebra: `AmountSpec` (`Dollars`, `Shares`, `Percent`, `Zero`)
  and `merge`, which compounds two pending amounts or rejects them with
  `IncompatibleAmountError`;
- `TickerSpec` (one symbol or `All`), `UpdatePolicy`, the `Error` taxonomy and
  the conversion of text into a ticker;
- `PositionIntent::builder`, the builder's setters and `build`, the single
  validation gate: an inverted `before`/`after` window is rejected first,
  then `All` combined with an absolute (`Dollars`/`Shares`) amount.

Decimals are exact `real`s, UTC timestamps are `int`s (seconds), identifiers are
numbers below 2^128. The identifier and the current time that `build` takes
from the environment are inputs of the model, so building is a deterministic
function of the builder's value plus those two inputs (`Intent.Finalize`).

Files: `wrappers.dfy` (Option, Result), `types.dfy` (value types),
`amount.dfy` (module `AmountAlgebra`: merge and its laws), `intent.dfy`
(module `Intent`: the intent, the builder class, `build` and the laws of
setter chains).

The merge contract is stated through an independent description of an
amount: its variant (`KindOf`) and its payload (`Payload`, 0 for `Zero`).
A successful merge has the variant of the non-`Zero` operand and the sum of
the payloads, which covers both addition and the `Zero` identity.

The builder is a class: `strategy`, `ticker` and `amount` are constants fixed
at creation, the optional fields are variables the setters overwrite in
place. Its value view `State()` is a `BuilderState`; each setter is proved to
equal `Apply` of the corresponding `Setter` call, and the laws of chains of
calls (`ChainKeepsRequired`, `ChainKeepsUntargeted`, `LastWriteWins`) are
proved about `Apply`.

The display message of `InvalidCombination` (src/lib.rs:15) states the
opposite of the rule `build` enforces (src/lib.rs:120-124); the model follows
`build`. `AmountSpec` has exactly the four variants of src/lib.rs:21-26.

## Model

| member | source | states |
|---|---|---|
| `Types.TickerFrom` | src/lib.rs:58-62 | text always becomes a concrete ticker (never `All`) whose symbol is that text |
| `AmountAlgebra.Merge` | src/lib.rs:38-48 | merge succeeds iff one operand is `Zero` or both have the same variant; the result has the non-`Zero` operand's variant and the sum of the payloads; a failure is `IncompatibleAmountError(a, b)` with the operands unchanged and in order |
| `AmountAlgebra.KindAndPayloadDetermineAmount` | src/lib.rs:21-26 | an amount is determined by its variant and its payload |
| `AmountAlgebra.MergeContractDetermines` | src/lib.rs:38-48 | any result meeting the four postconditions of `Merge` is the result of `Merge`: the contract pins the merge down completely |
| `AmountAlgebra.MergeSameVariantAdds` | src/lib.rs:40-42 | `Dollars(x)`+`Dollars(y)` is `Ok(Dollars(x+y))`, likewise `Shares` and `Percent` |
| `AmountAlgebra.MergeZeroIdentity` | src/lib.rs:43-45 | `Zero` is a left and right identity, including `Zero`+`Zero` |
| `AmountAlgebra.MergeFailsExactly` | src/lib.rs:46 | merge fails exactly for two non-`Zero` operands of different variants, with the error holding both operands |
| `AmountAlgebra.MergeSymmetric` | src/lib.rs:39-46 | merge succeeds for `(a, b)` iff it succeeds for `(b, a)`, with the same value; a failure in the other order names the operands in that order |
| `AmountAlgebra.MergeAssociative` | src/lib.rs:38-48 | both groupings of three merges succeed together, exactly when the operands are pairwise compatible, and then agree on the value |
| `Intent.Finalize` | src/lib.rs:114-139 | build succeeds iff the window passes and the ticker/amount table allows the pair; `InvalidBeforeAfter(before, after)` iff both ends are set and `before < after`, taking precedence; `InvalidCombination` iff the window passes and the ticker is `All` with `Dollars` or `Shares`; on success every accumulated field is copied unchanged (`Draft` of the intent is the builder value), the id and timestamp are the supplied ones, and the intent satisfies the window and combination invariant |
| `Intent.FinalizeInitial` | src/lib.rs:173-190 | a builder fresh from `builder` never fails the window check: it builds iff the ticker/amount pair is allowed, and otherwise fails with `InvalidCombination` |
| `Intent.ConcreteTickerNeverInvalidCombination` | src/lib.rs:120-124 | with a ticker converted from text, build never fails with `InvalidCombination` and succeeds iff the window passes |
| `Intent.FinalizeInjective` | src/lib.rs:125-138 | two successful builds with the same id and time give equal intents iff the builder values were equal |
| `Intent.ApplySetsOnlyItsField` | src/lib.rs:79-112 | each setter writes exactly its own field with the given value and leaves every other field, required or optional, unchanged |
| `Intent.SettersCommuteOrOverwrite` | src/lib.rs:79-112 | setters on different fields commute; a later call on the same field overwrites the earlier one |
| `Intent.ChainKeepsRequired` | src/lib.rs:79-112 | no chain of setter calls changes the strategy, the ticker or the amount fixed at creation |
| `Intent.ChainKeepsUntargeted` | src/lib.rs:79-112 | after a chain of setter calls, a field that no call targets keeps its value |
| `Intent.LastWriteWins` | src/lib.rs:79-112 | after a chain of setter calls, a targeted field holds what the last call on that field wrote; earlier calls are overwritten |
| `Intent.PositionIntentBuilder.constructor` | src/lib.rs:173-190 | a new builder holds the given strategy, ticker and amount, update policy `Update`, and every optional field unset |
| `Intent.PositionIntentBuilder.SubStrategy` | src/lib.rs:79-82 | sets the sub-strategy to `Some(s)`; nothing else changes |
| `Intent.PositionIntentBuilder.DecisionPrice` | src/lib.rs:84-87 | sets the decision price to `Some(p)`; nothing else changes |
| `Intent.PositionIntentBuilder.LimitPrice` | src/lib.rs:89-92 | sets the limit price to `Some(p)`; nothing else changes |
| `Intent.PositionIntentBuilder.StopPrice` | src/lib.rs:94-97 | sets the stop price to `Some(p)`; nothing else changes |
| `Intent.PositionIntentBuilder.Before` | src/lib.rs:99-102 | sets `before` to `Some(t)`; nothing else changes |
| `Intent.PositionIntentBuilder.After` | src/lib.rs:104-107 | sets `after` to `Some(t)`; nothing else changes |
| `Intent.PositionIntentBuilder.UpdatePolicy` | src/lib.rs:109-112 | sets the update policy; nothing else changes |
| `Intent.PositionIntentBuilder.Build` | src/lib.rs:114-139 | the object's `build` returns exactly `Finalize` of its current value, so every property of `Finalize` holds of it |
| `Intent.ConstructPositionIntent` | src/lib.rs:198-211 | the construction scenario (strategy "A", ticker "AAPL", one dollar, all optional fields set, window of one hour) builds successfully, keeping ticker, amount, sub-strategy, policy and window |
| `Intent.RejectIntents` | src/lib.rs:114-124 | `All` with `Dollars(100)` fails with `InvalidCombination`; `before(now)` with `after(now + 1h)` fails with `InvalidBeforeAfter(now, now + 1h)` |

## Left out

- Serialization (serde `Serialize`/`Deserialize`, the skipped-if-unset optional fields) and the JSON round-trip test: the encoding belongs to a foreign library and is not visible in this code.
- `Uuid::new_v4()` and `Utc::now()`: nondeterministic environment calls; they are inputs of `Finalize` and `Build` instead, so uniqueness of identifiers is not modelled.
- The `thiserror` display strings of `Error`: formatting only; the variants and their payloads are modelled.
- `rust_decimal` overflow and scale on `+`: payloads are exact unbounded numbers, so a merge that would overflow the 96-bit decimal succeeds in the model.
- Genericity of `From<T: ToString>` for `TickerSpec`: modelled as text becoming `Ticker(text)`.
- Move semantics: Rust's `build` and setters consume the builder; the model's `Build` reads the object and leaves it usable, and the setters update the object in place instead of returning it.
