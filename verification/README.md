# Calculator engine model

A Dafny model of the input and compute engine of the four-function
calculator component (`src/components/calculator.tsx`), with proofs about
it. The component keeps four pieces of React state: the current operand
text, the previous operand, the pending operation and the overwrite flag.
Its key handlers update that state: `clear`, `addDigit`, `chooseOperation`,
`compute` and `handleClear` (with its `clearText` label). The pure
`formatOperand` function turns an operand into the text on the screen.

How the model is built:

- **Batched writes.** Each handler reads one snapshot of the state. It
  issues a list of state writes (`Engine.Write`), which React applies in
  order once the handler returns (`Engine.Commit`). For each field the last
  write wins. This is how the model shows that a `clear()` or a
  `compute(true)` nested inside `chooseOperation` is superseded.
- **Abstract arithmetic.** JavaScript numbers stay abstract. `parseFloat`,
  the `=== 0` test, the four operators, `toString` and `toPrecision(10)`
  are a record of functions (`Arithmetic.Arith`) passed to every operation.
  So each property holds for any choice of arithmetic.
- **Abstract grouping.** Thousands grouping (`Intl.NumberFormat` applied to
  `parseFloat` of the integer part) is a parameter of `formatOperand`. When
  it returns `None`, that stands for a thrown exception, which the
  formatter catches.

Modules:

- `Options`: the optional value.
- `Text`: counting a character and finding its first position.
- `Arithmetic`: operators, the 15-character rule and result rendering.
- `Engine`: state, writes and handlers; key sequences and the state
  invariant.
- `Display`: `formatOperand` and the `split('.')` it relies on.
- `Findings`: three defects of the component. Each is shown on the
  as-written model, next to a corrected definition and the property it
  was meant to have.

Where the documented behaviour and the code disagree, the model follows the
code. Two such places are listed under "## Findings":

- Chaining `3 + 4 × 2 =` is documented to give 14. The code gives 8.
- An operator key on "Error" is documented to clear first. In the code,
  the clear is lost.

## Model

| member | source | states |
|---|---|---|
| Engine.CommitLastWritesWin | src/components/calculator.tsx:61-68 | When a handler ends by writing all four fields, everything it queued before (a nested `clear()` or `compute(true)`) has no effect on the committed state |
| Engine.Clear | src/components/calculator.tsx:37-42 | `clear` leads from any state to current "0", no previous operand, no operation, overwrite off |
| Engine.AddDigit | src/components/calculator.tsx:44-55 | In overwrite mode the digit replaces the operand and overwrite ends. Otherwise the three rejections leave the state unchanged, and an accepted digit replaces a lone "0" (unless it is a point) or is appended. The pending operation and previous operand never change, the operand never grows past 15 characters, and a second point is never added |
| Engine.AddDigitUnchangedIff | src/components/calculator.tsx:50-54 | `addDigit` leaves the state as it was if and only if overwrite is off and one of the three guards applies: "0" on "0", a second point, or 15 characters already |
| Engine.TypeDigits | src/components/calculator.tsx:44-55 | Typing any digit keys keeps the pending operation and previous operand, and keeps an operand that has at most one point and at most 15 characters within those bounds |
| Engine.TypeDigitsAppends | src/components/calculator.tsx:52-54 | Away from overwrite mode and a lone "0", typing keys without a point appends them until the operand has 15 characters; keys past that are dropped |
| Engine.TypeNumberFromInitial | src/components/calculator.tsx:44-54 | From the initial state, a number typed without a point and without a leading zero shows as its first 15 characters |
| Arithmetic.Render | src/components/calculator.tsx:102-103 | The stored result text is the natural text when it fits in 15 characters. Otherwise it is the ten-significant-digit text, and it is always one of the two |
| Engine.Compute | src/components/calculator.tsx:71-109 | With no pending operation or an operand that does not parse, nothing changes. Division by zero leads to the error state: "Error", nothing pending, overwrite on. Otherwise the rendered result replaces the current operand, and when not chained the operation and previous operand are consumed and overwrite begins |
| Engine.ComputeIdempotent | src/components/calculator.tsx:71-108 | Pressing "=" a second time in a row changes nothing |
| Engine.ChooseOperation | src/components/calculator.tsx:57-69 | With "0" entered and nothing pending, the operator key changes nothing. Otherwise the snapshot's current operand becomes the previous operand, the chosen operator is pending and a new "0" operand starts, whatever the arithmetic returned |
| Engine.ChainGuardSimplifies | src/components/calculator.tsx:61 | In a consistent state, the `!overwrite` half of the chaining guard never changes its outcome |
| Engine.HandleClearReachesInitial | src/components/calculator.tsx:111-122 | In a consistent state, one press of the clear key reaches the initial state if and only if the key reads "AC" or nothing is pending |
| Engine.HandleClear | src/components/calculator.tsx:115-122 | "C" resets only the operand being typed (and overwrite), keeping what is pending. "AC" is a full clear |
| Engine.HandleClearTwice | src/components/calculator.tsx:111-122 | Two presses of the clear key always reach the initial state |
| Engine.InitialConsistent | src/components/calculator.tsx:32-35 | The component's initial state satisfies the invariant below |
| Engine.StepConsistent | src/components/calculator.tsx:37-122 | Every key press keeps the invariant: previous operand and operation are pending together, and overwrite mode has nothing pending |
| Engine.RunConsistent | src/components/calculator.tsx:37-122 | Any sequence of key presses from a consistent state ends in a consistent state |
| Text.Occurrences | src/components/calculator.tsx:51 | The count of a character is at most the text's length, and it is zero exactly when the text does not contain the character (`includes`) |
| Text.IndexOf | src/components/calculator.tsx:13 | The first position of a character: no occurrence before it, and the character at it unless it is the end |
| Display.IntegerPart | src/components/calculator.tsx:13 | `split('.')[0]` is a point-free prefix of the operand. It is the whole operand when there is no point; otherwise a point follows it |
| Display.FractionPart | src/components/calculator.tsx:13 | `split('.')[1]` is absent exactly when the operand has no point. Otherwise it is the text after the first point, up to the next point or the end |
| Display.SplitJoin | src/components/calculator.tsx:13 | Rejoining `split('.')[0]` and `split('.')[1]` with a point gives back the operand if and only if it has at most one point |
| Display.Fraction | src/components/calculator.tsx:21-24 | The integer part followed by this suffix is the whole operand |
| Display.ReattachFraction | src/components/calculator.tsx:21-24 | With at most one point, joining any grouped integer text to `split('.')[1]` appends exactly what followed the integer part, such as "." for "12." |
| Display.FormatOperand | src/components/calculator.tsx:8-28 | No operand shows as nothing, "Error" and exponent notation as they are, and an empty integer part as "0". When grouping throws, the operand shows as it is. Otherwise the grouped integer part is followed by the typed fraction, unchanged |
| Findings.ChainDiscarded | src/components/calculator.tsx:61-68 | As written, after a chained operator the previous operand is the snapshot's current operand. It differs from the chained result exactly when the two texts differ |
| Findings.ChainedRunAsWritten | src/components/calculator.tsx:57-109 | As written, the keys "3 + 4 × 2 =" (whole-number arithmetic) show "8" |
| Findings.ChooseOperationSequential | src/components/calculator.tsx:57-69 | The operator key with its statements read in order, each seeing the writes before it. "Error" is a full clear. A chained result becomes the previous operand. On a chained division by zero, the `return` leaves only `compute`, so "Error" becomes the previous operand. Otherwise the current operand becomes the previous one |
| Findings.ChainedRunSequential | src/components/calculator.tsx:57-69 | With the corrected operator key, "3 + 4 × 2 =" shows "14" |
| Findings.ErrorBecomesPrevious | src/components/calculator.tsx:58-66 | As written, an operator key on "Error" stores "Error" as the previous operand. After any digits, "=" then changes nothing |
| Findings.ErrorClearsSequential | src/components/calculator.tsx:58-59 | With the corrected operator key, an operator on "Error" leads to the initial state |
| Findings.FractionHiddenAsWritten | src/components/calculator.tsx:14 | As written, "." then "5" after a result stores ".5", which shows as "0" |
| Findings.FormatOperandCorrected | src/components/calculator.tsx:8-28 | The corrected formatter shows no operand as nothing and agrees with `formatOperand` whenever the integer part is not empty |
| Findings.CorrectedKeepsFraction | src/components/calculator.tsx:13-24 | With the corrected formatter, every plain operand with at most one point ends with exactly the fraction typed. An empty integer part shows as "0" followed by it |
| Findings.FractionShownCorrected | src/components/calculator.tsx:14 | With the corrected formatter, ".5" shows as "0.5" |

## Left out

- Floating-point arithmetic is not modelled. `parseFloat`, `=== 0`, the four operators, `toString` and `toPrecision(10)` are the `Arith` parameter, with `None` for NaN. The replays in `Findings` use a whole-number stand-in.
- `Intl.NumberFormat` grouping is the `group` parameter of `formatOperand`.
- The JSX layout, buttons, styling, `useMemo` caching and the rest of the application are not part of this model. `clearText` is computed directly from the state.
- `addDigit` takes a single character. Every caller passes one of "0"–"9" or ".".
- The functional updater in `addDigit` is applied to the value committed before it. It is the handler's only write, so that value is the snapshot.
- Display.FormatOperand: when grouping succeeds on an operand with two or more points, the contract says nothing about the text shown. That case is unreachable by typing, because `addDigit` refuses a second point.
- Engine.AddDigit: the bounds on length and points are stated as "within the bound, or unchanged". A state whose operand is already out of bounds (possible only for computed text) can keep it.

## Findings

| source | as written | input that shows it | evidently intended | confidence | as-written member | corrected member |
|---|---|---|---|---|---|---|
| src/components/calculator.tsx:61-68 | `compute(true)` queues the result, but the later `setPreviousOperand(currentOperand)` and `setCurrentOperand('0')` in the same handler supersede it | keys `3 + 4 × 2 =` show 8 | left-to-right chaining: the result 7 becomes the previous operand, and the keys show 14 | not executed | Findings.ChainedRunAsWritten | Findings.ChooseOperationSequential |
| src/components/calculator.tsx:58-66 | `clear()` on "Error" is superseded, and the guard still reads the snapshot, so "Error" becomes the previous operand | divide by zero, then press an operator, a digit and "=": nothing is computed | a full clear, then a fresh start | not executed | Findings.ErrorBecomesPrevious | Findings.ErrorClearsSequential |
| src/components/calculator.tsx:14 | an empty integer part returns "0" and drops the fraction | "=" after a result, then ".", then "5": the operand is ".5" and shows as "0" | "0" followed by the typed fraction, "0.5" | not executed | Findings.FractionHiddenAsWritten | Findings.FormatOperandCorrected |
