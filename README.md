# Calculator-Kotlin: the input state machine of MainActivity

The app is a single-screen calculator. Its logic lives in the click listeners
of `MainActivity`. They update four fields in place:

- `currentInput`, the `StringBuilder` holding the number being typed;
- `currentResult`, the committed left operand, or the marker `"Error"`;
- `lastOperator`, the symbol of the pending operator, or `""`;
- `isNewOperation`, set when the next digit must start a fresh number.

The model has four modules:

- `Evaluation` (`evaluation.dfy`) holds the five operators and the `when`
  dispatch on `lastOperator`. It also holds `Evaluate`, the control flow of
  the `try` block of `calculateResult`. The Double arithmetic is a parameter
  `Arithmetic<Num>` with three operations: `parse` (`toDouble`, `None` where it
  throws), `apply` (the Double operator) and `format` (`formatResult`). The
  predicate `Sound` states the only facts the state machine needs. First,
  `"Error"` does not parse. Second, a formatted result is non-empty and holds at
  most one `'.'`.
- `CalculatorSpec` (`calculator_spec.dfy`) holds the four fields as a value
  `CalcState`, with one pure function per listener (`PressDigit`,
  `PressDecimal`, `PressOperator`, `PressEquals`, `PressClear`) and one for
  `calculateResult` (`Calculate`). It also holds the state invariant `Inv` and
  the display mapping `Display`.
- `CalculatorProperties` (`calculator_properties.dfy`) holds what spans several
  taps. The invariant holds in every reachable state. `"Error"` survives every
  tap except clear. Digits typed after clear show verbatim. A chained operator
  evaluates with the key just pressed.
- `Calculator` (`main_activity.dfy`) holds the class `MainActivity`, with the
  four fields and one method per listener. Each method updates the fields in
  place as the Kotlin code does. Each is proved to keep `Valid()` and to leave
  exactly the state the matching `CalculatorSpec` function gives.

`Calculator.ClientSession` is a usage example of the class. It taps
`2 + 3 =`, a decimal point and clear, and asserts what the method contracts
alone give at each step.

Chained entry follows the code. The operator listener assigns `lastOperator`
before it calls `calculateResult` (MainActivity.kt:76-80). So in `2 + 3 ×` the
second key computes `2 × 3`, not `2 + 3`. The usual description of chained
entry evaluates the pending operator instead. The model keeps the code's
behaviour, and `ChainUsesPressedOperator` states it.

## Model

| member | source | states |
|---|---|---|
| `Evaluation.OperatorOf` | app/src/main/java/com/example/calculator/MainActivity.kt:130-136 | a stored string selects an operator exactly when it is that operator's symbol; every other string takes the `else` branch |
| `Evaluation.OperatorOfSymbol` | app/src/main/java/com/example/calculator/MainActivity.kt:87-91 | the symbol each operator button passes selects that same operator in the `when` |
| `Evaluation.Evaluate` | app/src/main/java/com/example/calculator/MainActivity.kt:128-139 | evaluation fails exactly when the buffer does not parse, or when one of the five operators is selected and the operand does not parse; otherwise it yields the formatted result of the selected operator applied to operand and input, or the formatted input alone in the `else` branch; under `Sound`, a success is non-empty with at most one `'.'` |
| `Evaluation.EvaluateApplies` | app/src/main/java/com/example/calculator/MainActivity.kt:130-135 | with both operands parsable, an operator's symbol yields the formatted result of that operator applied to the operand and the input |
| `Evaluation.EvaluateErrorFails` | app/src/main/java/com/example/calculator/MainActivity.kt:129-135 | with one of the five operators selected, an operand of `"Error"` makes evaluation fail whatever the buffer holds |
| `CalculatorSpec.Display` | app/src/main/java/com/example/calculator/MainActivity.kt:158-161 | a view shows `"0"` for an empty string and the string itself otherwise, so it is never blank |
| `CalculatorSpec.PressDigit` | app/src/main/java/com/example/calculator/MainActivity.kt:54-62 | after a fresh-number flag the buffer is exactly the digit, otherwise the old buffer plus the digit; the flag ends false; operand and operator unchanged; the invariant is kept |
| `CalculatorSpec.PressDecimal` | app/src/main/java/com/example/calculator/MainActivity.kt:105-115 | no change when the buffer has a `'.'`; otherwise `"0."` on an empty buffer or a fresh number, else old buffer plus `"."`, with the flag cleared; the buffer always ends holding a `'.'`; the invariant is kept |
| `CalculatorSpec.Calculate` | app/src/main/java/com/example/calculator/MainActivity.kt:127-148 | on success the operand and the buffer both become the formatted result; on failure the buffer empties and the operand becomes `"Error"`; operator and flag unchanged; an `"Error"` operand with a known operator stays `"Error"` |
| `CalculatorSpec.PressOperator` | app/src/main/java/com/example/calculator/MainActivity.kt:74-85 | no change on an empty buffer; otherwise the pressed symbol becomes pending and the flag is set; with no operand the buffer is committed as the operand; with one, evaluation runs with the pressed operator; the invariant is kept |
| `CalculatorSpec.PressEquals` | app/src/main/java/com/example/calculator/MainActivity.kt:119-124 | no change unless buffer and operand are both non-empty; otherwise it evaluates with the pending operator, keeps it, and sets the flag; the invariant is kept |
| `CalculatorSpec.PressClear` | app/src/main/java/com/example/calculator/MainActivity.kt:96-102 | whatever the prior state, all fields return to their initial values and both views show `"0"` |
| `CalculatorProperties.StepPreservesInv` | app/src/main/java/com/example/calculator/MainActivity.kt:54-148 | every listener keeps the invariant: at most one `'.'` in the buffer, the operator empty or one of the five symbols, and an operand only with an operator |
| `CalculatorProperties.RunPreservesInv` | app/src/main/java/com/example/calculator/MainActivity.kt:54-148 | any sequence of taps keeps the invariant |
| `CalculatorProperties.ReachableStatesSatisfyInv` | app/src/main/java/com/example/calculator/MainActivity.kt:14-17 | from the initial fields, every reachable buffer has at most one `'.'` and every committed operand comes with one of the five operators, so the `else` branch of the `when` is unreachable |
| `CalculatorProperties.ErrorPersistsStep` | app/src/main/java/com/example/calculator/MainActivity.kt:143-146 | from an `"Error"` operand, any single tap other than clear leaves the operand `"Error"` |
| `CalculatorProperties.ErrorPersistsUntilClear` | app/src/main/java/com/example/calculator/MainActivity.kt:74-124 | once the operand is `"Error"`, it stays `"Error"` through any sequence of taps without clear |
| `CalculatorProperties.DigitsExtendBuffer` | app/src/main/java/com/example/calculator/MainActivity.kt:54-62 | while a number is being typed, digit taps append their digits to the buffer and change nothing else |
| `CalculatorProperties.TypedDigitsShowVerbatim` | app/src/main/java/com/example/calculator/MainActivity.kt:96-101 | after clear, the input view shows the typed digits verbatim (`"0"` if none) and the result view shows `"0"` |
| `CalculatorProperties.DecimalIdempotent` | app/src/main/java/com/example/calculator/MainActivity.kt:105-106 | a second decimal tap has no effect |
| `CalculatorProperties.ClearIdempotent` | app/src/main/java/com/example/calculator/MainActivity.kt:96-101 | clearing twice is the same as clearing once |
| `CalculatorProperties.SingleOperation` | app/src/main/java/com/example/calculator/MainActivity.kt:119-124 | after `x op y =` the operand is the outcome of `op` on `x` and `y` |
| `CalculatorProperties.ChainUsesPressedOperator` | app/src/main/java/com/example/calculator/MainActivity.kt:76-80 | after `x op1 y op2` the operand is `op2` applied to `x` and `y`, and `op2` is pending with the flag set |
| `CalculatorProperties.RepeatedEqualsReappliesOperator` | app/src/main/java/com/example/calculator/MainActivity.kt:119-124 | equals keeps the operator; a second equals applies it to the previous result as both operands, or does nothing after a failure |
| `Calculator.MainActivity.constructor` | app/src/main/java/com/example/calculator/MainActivity.kt:14-17 | the fields start empty with the flag set, and the invariant holds |
| `Calculator.MainActivity.OnDigitClick` | app/src/main/java/com/example/calculator/MainActivity.kt:54-62 | the in-place update leaves the state `PressDigit` gives and keeps the invariant |
| `Calculator.MainActivity.OnOperatorClick` | app/src/main/java/com/example/calculator/MainActivity.kt:74-85 | the in-place update leaves the state `PressOperator` gives and keeps the invariant |
| `Calculator.MainActivity.OnClearClick` | app/src/main/java/com/example/calculator/MainActivity.kt:96-102 | the in-place update leaves the state `PressClear` gives and keeps the invariant |
| `Calculator.MainActivity.OnDecimalClick` | app/src/main/java/com/example/calculator/MainActivity.kt:105-115 | the in-place update leaves the state `PressDecimal` gives and keeps the invariant |
| `Calculator.MainActivity.OnEqualsClick` | app/src/main/java/com/example/calculator/MainActivity.kt:119-124 | the in-place update leaves the state `PressEquals` gives and keeps the invariant |
| `Calculator.MainActivity.CalculateResult` | app/src/main/java/com/example/calculator/MainActivity.kt:127-148 | the try and catch blocks leave the state `Calculate` gives |
| `Calculator.MainActivity.UpdateDisplay` | app/src/main/java/com/example/calculator/MainActivity.kt:158-161 | the texts for the two views are the buffer and the operand, each shown as `"0"` when empty |

## Left out

- Android plumbing is not modelled, because it holds no logic: `onCreate`, edge-to-edge insets, `setContentView`, `findViewById`, and the listener wiring in `setupNumberButtons` and `setupOperatorButtons`.
- Double parsing, the five Double operators and `formatResult` are not modelled. This covers `% 1`, `toLong`, Infinity and NaN from division or modulo by zero, and the locale of `String.format("%.2f")`. They are the parameter `Arithmetic`, and `Sound` gives the only facts the state machine uses.
- `Sound` is weaker than Kotlin's actual behaviour on purpose. Any number semantics meeting it is covered, including a locale that formats with a decimal comma that later fails to parse.
- The number buttons are assumed to carry the labels `"0"` to `"9"`. The layout file that sets them is not part of this model.
- Calculator.MainActivity.UpdateDisplay: returns the two texts instead of writing them into the `TextView`s, because the views are not modelled. The listener methods therefore do not call it.
- The number-button listener appends `button.text`, a character sequence. The model appends one digit character.

