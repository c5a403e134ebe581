/**
 * Three places where the component does not do what its own structure
 * evidently means, each shown on the as-written model (modules `Engine` and
 * `Display`) and paired with a corrected definition and its property:
 *
 *  1. The chained `compute(true)` in `chooseOperation` is superseded by the
 *     handler's final writes, so "3 + 4 × 2 =" shows 8, not 14.
 *  2. The `clear()` on "Error" in `chooseOperation` is superseded too, so the
 *     error marker becomes the previous operand and "=" then does nothing.
 *  3. `formatOperand` shows "0" for an operand with an empty integer part,
 *     such as ".5", typed as "." then "5" after a result.
 */
module Findings {
  import opened Options
  import opened Text
  import opened Arithmetic
  import opened Engine
  import opened Display

  // ---------------------------------------------------------------------------
  // A whole-number stand-in for the arithmetic, enough to replay key sequences.

  function DigitValue(c: char): int
  {
    c as int - '0' as int
  }

  predicate AllDigits(t: string)
  {
    forall i :: 0 <= i < |t| ==> '0' <= t[i] <= '9'
  }

  function DigitsValue(t: string): int
    decreases |t|
  {
    if t == [] then 0 else DigitsValue(t[..|t| - 1]) * 10 + DigitValue(t[|t| - 1])
  }

  function NatText(n: nat): string
    decreases n
  {
    if n < 10 then [('0' as int + n) as char] else NatText(n / 10) + NatText(n % 10)
  }

  function IntText(n: int): string
  {
    if n < 0 then "-" + NatText(-n) else NatText(n)
  }

  function ApplyInt(op: Op, a: int, b: int): int
  {
    match op
    case Add => a + b
    case Sub => a - b
    case Mul => a * b
    case Div => if b == 0 then 0 else a / b
  }

  function ParseWhole(t: string): Option<int>
  {
    if |t| > 0 && AllDigits(t) then Some(DigitsValue(t)) else None
  }

  const Whole: Arith<int> := Arith(ParseWhole, n => n == 0, ApplyInt, IntText, IntText)

  /** "3 + 4 × 2 =", key by key. */
  const ChainKeys := [Digit('3'), Operator(Add), Digit('4'), Operator(Mul), Digit('2'), Equals]

  // ---------------------------------------------------------------------------
  // Finding 1: the chained compute is discarded.

  /**
   * As written, the previous operand after an operator key is the snapshot's
   * current operand, whatever the arithmetic; the chained result never
   * survives the handler.
   */
  lemma ChainDiscarded<N>(s: State, op: Op, num: Arith<N>)
    requires Parses(s, num) && !DividesByZero(s, num) && !s.overwrite
    ensures ChooseOperation(s, op, num).previous == Some(s.current)
    ensures ChooseOperation(s, op, num).previous != Some(ResultText(s, num)) <==> ResultText(s, num) != s.current
  {
  }

  lemma PressCons(s: State, k: Key, ks: seq<Key>, step: (State, Key) -> State)
    ensures Press(s, [k] + ks, step) == Press(step(s, k), ks, step)
  {
    assert ([k] + ks)[1..] == ks;
  }

  /** Six keys in a row, given where each one leads. */
  lemma PressSix(s0: State, s1: State, s2: State, s3: State, s4: State, s5: State, s6: State,
                 k0: Key, k1: Key, k2: Key, k3: Key, k4: Key, k5: Key, step: (State, Key) -> State)
    requires step(s0, k0) == s1 && step(s1, k1) == s2 && step(s2, k2) == s3
    requires step(s3, k3) == s4 && step(s4, k4) == s5 && step(s5, k5) == s6
    ensures Press(s0, [k0, k1, k2, k3, k4, k5], step) == s6
  {
    PressCons(s0, k0, [k1, k2, k3, k4, k5], step);
    PressCons(s1, k1, [k2, k3, k4, k5], step);
    PressCons(s2, k2, [k3, k4, k5], step);
    PressCons(s3, k3, [k4, k5], step);
    PressCons(s4, k4, [k5], step);
    PressCons(s5, k5, [], step);
    assert [k0] + [k1, k2, k3, k4, k5] == [k0, k1, k2, k3, k4, k5];
    assert [k1] + [k2, k3, k4, k5] == [k1, k2, k3, k4, k5];
    assert [k2] + [k3, k4, k5] == [k2, k3, k4, k5];
    assert [k3] + [k4, k5] == [k3, k4, k5];
    assert [k4] + [k5] == [k4, k5];
    assert [k5] + [] == [k5];
  }

  lemma ParseDigit(c: char)
    requires '0' <= c <= '9'
    ensures ParseWhole([c]) == Some(DigitValue(c))
  {
    assert [c][..0] == [];
    assert [c][0] == c;
    assert AllDigits([c]);
    assert DigitsValue([c]) == DigitsValue([]) * 10 + DigitValue(c);
  }

  lemma DigitStep<N>(s: State, d: char, num: Arith<N>)
    requires s.current == "0" && !s.overwrite && '1' <= d <= '9'
    ensures Step(s, Digit(d), num) == State([d], s.previous, s.operation, false)
    ensures StepSequential(s, Digit(d), num) == State([d], s.previous, s.operation, false)
  {
    assert !Rejects(s.current, d);
  }

  lemma OperatorStep<N>(s: State, op: Op, num: Arith<N>)
    requires s.current != "0"
    ensures Step(s, Operator(op), num) == State("0", Some(s.current), Some(op), false)
  {
  }

  lemma EqualsStep(prev: char, cur: char, op: Op)
    requires '0' <= prev <= '9' && '0' <= cur <= '9' && op != Div
    ensures Step(State([cur], Some([prev]), Some(op), false), Equals, Whole).current
      == IntText(ApplyInt(op, DigitValue(prev), DigitValue(cur)))
  {
    ParseDigit(prev);
    ParseDigit(cur);
  }

  lemma Texts()
    ensures IntText(7) == "7" && IntText(8) == "8" && IntText(14) == "14"
    ensures DigitValue('3') == 3 && DigitValue('4') == 4 && DigitValue('7') == 7 && DigitValue('2') == 2
  {
    assert NatText(14) == NatText(1) + NatText(4);
  }

  /** "3 + 4" as written: digits and the first operator. */
  lemma AsWrittenFirstSteps()
    ensures Step(Initial, Digit('3'), Whole) == State("3", None, None, false)
    ensures Step(State("3", None, None, false), Operator(Add), Whole) == State("0", Some("3"), Some(Add), false)
    ensures Step(State("0", Some("3"), Some(Add), false), Digit('4'), Whole) == State("4", Some("3"), Some(Add), false)
  {
    DigitStep(Initial, '3', Whole);
    OperatorStep(State("3", None, None, false), Add, Whole);
    DigitStep(State("0", Some("3"), Some(Add), false), '4', Whole);
  }

  /** "× 2 =" as written: the operator discards the pending sum. */
  lemma AsWrittenLastSteps()
    ensures Step(State("4", Some("3"), Some(Add), false), Operator(Mul), Whole) == State("0", Some("4"), Some(Mul), false)
    ensures Step(State("0", Some("4"), Some(Mul), false), Digit('2'), Whole) == State("2", Some("4"), Some(Mul), false)
    ensures Step(State("2", Some("4"), Some(Mul), false), Equals, Whole).current == "8"
  {
    OperatorStep(State("4", Some("3"), Some(Add), false), Mul, Whole);
    DigitStep(State("0", Some("4"), Some(Mul), false), '2', Whole);
    EqualsStep('4', '2', Mul);
    Texts();
  }

  /** As written, "3 + 4 × 2 =" evaluates 4 × 2. */
  lemma ChainedRunAsWritten()
    ensures Run(Initial, ChainKeys, Whole).current == "8"
  {
    var s5 := State("2", Some("4"), Some(Mul), false);
    AsWrittenFirstSteps();
    AsWrittenLastSteps();
    PressSix(Initial, State("3", None, None, false), State("0", Some("3"), Some(Add), false), State("4", Some("3"), Some(Add), false),
             State("0", Some("4"), Some(Mul), false), s5, Step(s5, Equals, Whole),
             Digit('3'), Operator(Add), Digit('4'), Operator(Mul), Digit('2'), Equals, (t, k) => Step(t, k, Whole));
  }

  /** The operator key is chaining a pending computation. */
  predicate Chains(s: State)
  {
    s.current != ErrorText && s.previous.Some? && !s.overwrite
  }

  /**
   * `chooseOperation` read statement by statement, each seeing the writes
   * before it: "Error" clears and then meets the early return; a chained
   * compute's result becomes the previous operand. The `return` in a
   * chained division by zero leaves only `compute`, so the final writes
   * still run and the error marker becomes the previous operand.
   */
  function ChooseOperationSequential<N>(s: State, op: Op, num: Arith<N>): (r: State)
    ensures s.current == ErrorText ==> r == Initial
    ensures s.current == "0" && s.previous.None? ==> r == s
    ensures s.current != ErrorText && !(s.current == "0" && s.previous.None?) && !Chains(s) ==>
      r == State("0", Some(s.current), Some(op), false)
    ensures Chains(s) && DividesByZero(s, num) ==> r == State("0", Some(ErrorText), Some(op), false)
    ensures Chains(s) && Parses(s, num) && !DividesByZero(s, num) ==>
      r == State("0", Some(ResultText(s, num)), Some(op), false)
    ensures Chains(s) && !Parses(s, num) ==> r == State("0", Some(s.current), Some(op), false)
  {
    var s1 := if s.current == ErrorText then Clear(s) else s;
    if s1.current == "0" && s1.previous.None? then s1
    else
      var s2 := if s1.previous.Some? && !s1.overwrite then Compute(s1, true, num) else s1;
      State("0", Some(s2.current), Some(op), false)
  }

  function StepSequential<N>(s: State, k: Key, num: Arith<N>): State
  {
    match k
    case Operator(op) => ChooseOperationSequential(s, op, num)
    case _ => Step(s, k, num)
  }

  function RunSequential<N>(s: State, ks: seq<Key>, num: Arith<N>): State
  {
    Press(s, ks, (t, k) => StepSequential(t, k, num))
  }

  lemma ChainStepSequential(prev: char, cur: char, op: Op, next: Op)
    requires '0' <= prev <= '9' && '0' <= cur <= '9' && op != Div
    ensures StepSequential(State([cur], Some([prev]), Some(op), false), Operator(next), Whole)
      == State("0", Some(IntText(ApplyInt(op, DigitValue(prev), DigitValue(cur)))), Some(next), false)
  {
    ParseDigit(prev);
    ParseDigit(cur);
  }

  /** "3 + 4" with the corrected operator key. */
  lemma SequentialFirstSteps()
    ensures StepSequential(Initial, Digit('3'), Whole) == State("3", None, None, false)
    ensures StepSequential(State("3", None, None, false), Operator(Add), Whole) == State("0", Some("3"), Some(Add), false)
    ensures StepSequential(State("0", Some("3"), Some(Add), false), Digit('4'), Whole) == State("4", Some("3"), Some(Add), false)
  {
    DigitStep(Initial, '3', Whole);
    assert !Chains(State("3", None, None, false));
    DigitStep(State("0", Some("3"), Some(Add), false), '4', Whole);
  }

  /** "× 2 =" with the corrected operator key: the operator folds in the pending sum. */
  lemma SequentialLastSteps()
    ensures StepSequential(State("4", Some("3"), Some(Add), false), Operator(Mul), Whole) == State("0", Some("7"), Some(Mul), false)
    ensures StepSequential(State("0", Some("7"), Some(Mul), false), Digit('2'), Whole) == State("2", Some("7"), Some(Mul), false)
    ensures StepSequential(State("2", Some("7"), Some(Mul), false), Equals, Whole).current == "14"
  {
    ChainStepSequential('3', '4', Add, Mul);
    Texts();
    DigitStep(State("0", Some("7"), Some(Mul), false), '2', Whole);
    EqualsStep('7', '2', Mul);
    Texts();
  }

  /** With the corrected operator key, "3 + 4 × 2 =" evaluates (3 + 4) × 2. */
  lemma ChainedRunSequential()
    ensures RunSequential(Initial, ChainKeys, Whole).current == "14"
  {
    var s5 := State("2", Some("7"), Some(Mul), false);
    SequentialFirstSteps();
    SequentialLastSteps();
    PressSix(Initial, State("3", None, None, false), State("0", Some("3"), Some(Add), false), State("4", Some("3"), Some(Add), false),
             State("0", Some("7"), Some(Mul), false), s5, StepSequential(s5, Equals, Whole),
             Digit('3'), Operator(Add), Digit('4'), Operator(Mul), Digit('2'), Equals, (t, k) => StepSequential(t, k, Whole));
  }

  // ---------------------------------------------------------------------------
  // Finding 2: the error marker survives the clear.

  /**
   * As written, an operator key on "Error" stores the marker as the previous
   * operand; while the marker does not parse, "=" after any digits changes
   * nothing.
   */
  lemma ErrorBecomesPrevious<N>(s: State, op: Op, num: Arith<N>, ds: seq<char>)
    requires s.current == ErrorText
    requires num.parse(ErrorText).None?
    ensures ChooseOperation(s, op, num) == State("0", Some(ErrorText), Some(op), false)
    ensures var t := TypeDigits(ChooseOperation(s, op, num), ds);
      Compute(t, false, num) == t
  {
    var t := TypeDigits(ChooseOperation(s, op, num), ds);
    assert t.previous == Some(ErrorText);
  }

  /** With the corrected operator key, an operator on "Error" is a full clear. */
  lemma ErrorClearsSequential<N>(s: State, op: Op, num: Arith<N>)
    requires s.current == ErrorText
    ensures ChooseOperationSequential(s, op, num) == Initial
    ensures ChooseOperationSequential(s, op, num).previous != Some(ErrorText)
  {
  }

  // ---------------------------------------------------------------------------
  // Finding 3: a fraction without an integer part shows as "0".

  /**
   * As written, "." then "5" after a result stores ".5", which the screen
   * shows as "0".
   */
  lemma FractionHiddenAsWritten(s: State, group: string -> Option<string>)
    requires s.overwrite
    ensures AddDigit(AddDigit(s, '.'), '5').current == ".5"
    ensures FormatOperand(Some(".5"), group) == "0"
  {
    assert IntegerPart(".5") == "";
  }

  predicate EndsWith(t: string, suffix: string)
  {
    |suffix| <= |t| && t[|t| - |suffix|..] == suffix
  }

  /**
   * `formatOperand` with an empty integer part shown as "0" followed by the
   * fraction; every other operand is formatted as before.
   */
  function FormatOperandCorrected(operand: Option<string>, group: string -> Option<string>): (r: string)
    ensures operand.None? ==> r == ""
    ensures operand.Some? && IntegerPart(operand.value) != "" ==> r == FormatOperand(operand, group)
  {
    match operand
    case None => ""
    case Some(t) =>
      if t != "Error" && 'e' !in t && IntegerPart(t) == "" then Join("0", FractionPart(t))
      else FormatOperand(operand, group)
  }

  /**
   * With the corrected formatter, every plain operand with at most one point
   * shows with exactly the fraction that was typed at its end.
   */
  lemma CorrectedKeepsFraction(t: string, group: string -> Option<string>)
    requires t != "Error" && 'e' !in t && Occurrences(t, '.') <= 1
    ensures IntegerPart(t) == "" ==> FormatOperandCorrected(Some(t), group) == "0" + Fraction(t)
    ensures EndsWith(FormatOperandCorrected(Some(t), group), Fraction(t))
  {
    var r := FormatOperandCorrected(Some(t), group);
    var f := Fraction(t);
    if IntegerPart(t) == "" {
      ReattachFraction(t, "0");
    } else if group(IntegerPart(t)).None? {
      assert r == t == IntegerPart(t) + f;
    } else {
      assert r == group(IntegerPart(t)).value + f;
    }
  }

  /** With the corrected formatter, ".5" shows as "0.5". */
  lemma FractionShownCorrected(group: string -> Option<string>)
    ensures FormatOperandCorrected(Some(".5"), group) == "0.5"
  {
    assert IndexOf(".5", '.') == 0;
    assert ".5"[1..] == "5";
    assert IndexOf("5", '.') == 1 by {
      assert "5"[1..] == "";
    }
    assert "5"[..1] == "5";
    assert IntegerPart(".5") == "";
    assert FractionPart(".5") == Some("5");
  }
}
