/**
 * The calculator's input/compute engine: four pieces of component state and
 * the event handlers that change them.
 *
 * A handler runs against one render's snapshot of the state. Every read in it
 * sees that snapshot, and every `set…` call it makes is queued; the queued
 * writes are committed in order once the handler returns, so for each field
 * the last write wins. The model makes this explicit: a handler is a function
 * from the snapshot to its list of writes (`Write`), and `Commit` applies
 * them. The net effect of each handler is then stated and proved.
 */
module Engine {
  import opened Options
  import opened Text
  import opened Arithmetic

  /** The text `compute` stores after a division by zero. */
  const ErrorText := "Error"

  /**
   * `currentOperand`, `previousOperand`, `operation` and `overwrite`; when
   * `overwrite` is set the next digit starts a new number.
   */
  datatype State = State(current: string, previous: Option<string>, operation: Option<Op>, overwrite: bool)

  /** The initial state, and the state a full clear returns to. */
  const Initial := State("0", None, None, false)

  /** The state a division by zero leaves behind. */
  const ErrorState := State(ErrorText, None, None, true)

  /**
   * One queued state update. `UpdateCurrent` is the updater-function form
   * `setCurrentOperand(current => …)`, which sees the latest queued value.
   */
  datatype Write =
    | SetCurrent(text: string)
    | UpdateCurrent(f: string -> string)
    | SetPrevious(prev: Option<string>)
    | SetOperation(op: Option<Op>)
    | SetOverwrite(flag: bool)

  function Perform(s: State, w: Write): State
  {
    match w
    case SetCurrent(t) => s.(current := t)
    case UpdateCurrent(f) => s.(current := f(s.current))
    case SetPrevious(p) => s.(previous := p)
    case SetOperation(o) => s.(operation := o)
    case SetOverwrite(b) => s.(overwrite := b)
  }

  /** Applies the queued writes of one handler, first to last. */
  function Commit(s: State, ws: seq<Write>): State
    decreases |ws|
  {
    if ws == [] then s else Commit(Perform(s, ws[0]), ws[1..])
  }

  /** Committing two batches one after the other is committing their concatenation. */
  lemma {:induction false} CommitAppend(s: State, a: seq<Write>, b: seq<Write>)
    ensures Commit(s, a + b) == Commit(Commit(s, a), b)
    decreases |a|
  {
    if a == [] {
      assert a + b == b;
    } else {
      assert (a + b)[1..] == a[1..] + b;
      CommitAppend(Perform(s, a[0]), a[1..], b);
    }
  }

  lemma CommitOne(s: State, w: Write)
    ensures Commit(s, [w]) == Perform(s, w)
  {
    assert [w][1..] == [];
  }

  lemma CommitTwo(s: State, a: Write, b: Write)
    ensures Commit(s, [a, b]) == Perform(Perform(s, a), b)
  {
    assert [a, b][1..] == [b];
    CommitOne(Perform(s, a), b);
  }

  lemma CommitFour(s: State, a: Write, b: Write, c: Write, d: Write)
    ensures Commit(s, [a, b, c, d]) == Perform(Perform(Perform(Perform(s, a), b), c), d)
  {
    assert [a, b, c, d] == [a, b] + [c, d];
    CommitAppend(s, [a, b], [c, d]);
    CommitTwo(s, a, b);
    CommitTwo(Perform(Perform(s, a), b), c, d);
  }

  /**
   * When a handler ends by writing all four fields, whatever it queued
   * earlier is superseded: the committed state is exactly the final writes.
   */
  lemma CommitLastWritesWin(s: State, earlier: seq<Write>, c: string, p: Option<string>, o: Option<Op>, b: bool)
    ensures Commit(s, earlier + [SetOperation(o), SetPrevious(p), SetCurrent(c), SetOverwrite(b)]) == State(c, p, o, b)
  {
    var last := [SetOperation(o), SetPrevious(p), SetCurrent(c), SetOverwrite(b)];
    CommitAppend(s, earlier, last);
    CommitFour(Commit(s, earlier), last[0], last[1], last[2], last[3]);
  }

  // ---------------------------------------------------------------------------
  // clear

  function ClearWrites(): seq<Write>
  {
    [SetCurrent("0"), SetPrevious(None), SetOperation(None), SetOverwrite(false)]
  }

  /** `clear`: every field back to its initial value, whatever the state was. */
  function Clear(s: State): (r: State)
    ensures r == Initial
  {
    var ws := ClearWrites();
    CommitFour(s, ws[0], ws[1], ws[2], ws[3]);
    Commit(s, ws)
  }

  // ---------------------------------------------------------------------------
  // addDigit

  /** The operand text while it is being typed: at most one point and at most `MaxLength` characters. */
  predicate Entry(t: string)
  {
    |t| <= MaxLength && Occurrences(t, '.') <= 1
  }

  /** The three cases in which `addDigit(d)` ignores the key outside overwrite mode. */
  predicate Rejects(current: string, d: char)
  {
    (d == '0' && current == "0") || (d == '.' && '.' in current) || |current| >= MaxLength
  }

  /** The updater `addDigit` queues: a lone "0" gives way to a digit, anything else is extended. */
  function Extend(current: string, d: char): string
  {
    if current == "0" && d != '.' then [d] else current + [d]
  }

  /** The writes of `addDigit(d)`: overwrite mode replaces, otherwise the three rejections, otherwise append. */
  function AddDigitWrites(s: State, d: char): seq<Write>
  {
    if s.overwrite then [SetCurrent([d]), SetOverwrite(false)]
    else if d == '0' && s.current == "0" then []
    else if d == '.' && '.' in s.current then []
    else if |s.current| >= MaxLength then []
    else [UpdateCurrent(cur => Extend(cur, d))]
  }

  /**
   * `addDigit(d)` for a digit key `d` ('0'…'9' or '.'). It never touches the
   * pending operation, never adds a second point and never grows the
   * operand past `MaxLength` characters.
   */
  function AddDigit(s: State, d: char): (r: State)
    ensures r.previous == s.previous && r.operation == s.operation
    ensures s.overwrite ==> r.current == [d] && !r.overwrite
    ensures !s.overwrite ==> !r.overwrite
    ensures !s.overwrite && Rejects(s.current, d) ==> r == s
    ensures !s.overwrite && !Rejects(s.current, d) ==> r.current == Extend(s.current, d)
    ensures |r.current| <= MaxLength || r.current == s.current
    ensures Occurrences(r.current, '.') <= 1 || Occurrences(r.current, '.') == Occurrences(s.current, '.')
  {
    var ws := AddDigitWrites(s, d);
    if s.overwrite then
      CommitTwo(s, ws[0], ws[1]);
      Commit(s, ws)
    else
      OccurrencesAppend(s.current, [d], '.');
      assert Occurrences([d], '.') == (if d == '.' then 1 else 0) by {
        assert [d][1..] == [];
      }
      if Rejects(s.current, d) then Commit(s, ws)
      else
        CommitOne(s, ws[0]);
        assert Perform(s, ws[0]).current == Extend(s.current, d);
        Commit(s, ws)
  }

  /** `addDigit` leaves the state unchanged exactly in its three rejection cases. */
  lemma AddDigitUnchangedIff(s: State, d: char)
    ensures AddDigit(s, d) == s <==>
      && !s.overwrite
      && ((d == '0' && s.current == "0") || (d == '.' && '.' in s.current) || |s.current| >= MaxLength)
  {
    var r := AddDigit(s, d);
    if !s.overwrite && !Rejects(s.current, d) {
      if s.current == "0" && d != '.' {
        assert r.current == [d];
        assert r.current[0] != s.current[0];
      } else {
        assert r.current == s.current + [d];
        assert |r.current| != |s.current|;
      }
    }
  }

  /** Typing a sequence of digit keys, one `addDigit` per key. */
  function TypeDigits(s: State, ds: seq<char>): (r: State)
    ensures r.previous == s.previous && r.operation == s.operation
    ensures Entry(s.current) ==> Entry(r.current)
    decreases |ds|
  {
    if ds == [] then s else TypeDigits(AddDigit(s, ds[0]), ds[1..])
  }

  lemma NotInTail(ds: seq<char>, c: char)
    requires |ds| > 0 && c !in ds
    ensures c !in ds[1..]
  {
    forall i | 0 <= i < |ds[1..]| ensures ds[1..][i] != c {
      assert ds[1..][i] == ds[i + 1];
    }
  }

  /** The first `MaxLength` characters of `t`, or all of it. */
  function Capped(t: string): string
  {
    t[..if |t| < MaxLength then |t| else MaxLength]
  }

  lemma AddDigitFull(s: State, d: char)
    requires !s.overwrite && |s.current| == MaxLength
    ensures AddDigit(s, d) == s
  {
    assert Rejects(s.current, d);
  }

  lemma TypeDigitsAppendsOne(s: State, ds: seq<char>)
    requires !s.overwrite && |s.current| > 0 && s.current != "0" && |s.current| < MaxLength
    requires |ds| > 0 && ds[0] != '.'
    ensures TypeDigits(s, ds) == TypeDigits(s.(current := s.current + [ds[0]]), ds[1..])
  {
    AddDigitAppends(s, ds[0]);
  }

  lemma ShiftConcat(a: string, ds: seq<char>)
    requires |ds| > 0
    ensures (a + [ds[0]]) + ds[1..] == a + ds
  {
  }

  /** A full operand ignores every further key. */
  lemma {:induction false} TypeDigitsFull(s: State, ds: seq<char>)
    requires !s.overwrite && |s.current| == MaxLength
    ensures TypeDigits(s, ds) == s
    decreases |ds|
  {
    if ds != [] {
      AddDigitFull(s, ds[0]);
      TypeDigitsFull(s, ds[1..]);
    }
  }

  lemma AddDigitAppends(s: State, d: char)
    requires !s.overwrite && |s.current| > 0 && s.current != "0" && |s.current| < MaxLength
    requires d != '.'
    ensures AddDigit(s, d) == s.(current := s.current + [d])
  {
    assert !Rejects(s.current, d);
  }

  lemma CappedFull(t: string, u: string)
    requires |t| == MaxLength
    ensures Capped(t + u) == t
  {
    assert (t + u)[..MaxLength] == t;
  }

  /**
   * Away from overwrite mode and the lone "0", typing keys without a point
   * appends them until the operand holds `MaxLength` characters; the rest
   * are dropped.
   */
  lemma {:induction false} TypeDigitsAppends(s: State, ds: seq<char>)
    requires !s.overwrite && |s.current| > 0 && s.current != "0" && |s.current| <= MaxLength
    requires '.' !in ds
    ensures TypeDigits(s, ds).current == Capped(s.current + ds)
    decreases |ds|
  {
    if ds == [] {
      assert s.current + ds == s.current;
    } else if |s.current| == MaxLength {
      TypeDigitsFull(s, ds);
      CappedFull(s.current, ds);
    } else {
      var t := s.(current := s.current + [ds[0]]);
      TypeDigitsAppendsOne(s, ds);
      NotInTail(ds, '.');
      TypeDigitsAppends(t, ds[1..]);
      ShiftConcat(s.current, ds);
    }
  }

  /** From the initial state, a number typed without a point and without a leading zero is its first `MaxLength` keys. */
  lemma TypeNumberFromInitial(ds: seq<char>)
    requires |ds| > 0 && '1' <= ds[0] <= '9'
    requires '.' !in ds
    ensures TypeDigits(Initial, ds).current == Capped(ds)
  {
    var t := AddDigit(Initial, ds[0]);
    assert t.current == [ds[0]] && !t.overwrite;
    NotInTail(ds, '.');
    TypeDigitsAppends(t, ds[1..]);
    assert [ds[0]] + ds[1..] == ds;
  }

  // ---------------------------------------------------------------------------
  // compute

  /** An operation and a previous operand are pending. */
  predicate Pending(s: State)
  {
    s.operation.Some? && s.previous.Some?
  }

  /** Both operands parse, so `compute` does more than return. */
  predicate Parses<N>(s: State, num: Arith<N>)
  {
    Pending(s) && num.parse(s.previous.value).Some? && num.parse(s.current).Some?
  }

  /** The `'/'` case with a current operand equal to zero. */
  predicate DividesByZero<N>(s: State, num: Arith<N>)
  {
    Parses(s, num) && s.operation.value == Div && num.isZero(num.parse(s.current).value)
  }

  /** The text of `previous <operation> current`. */
  function ResultText<N>(s: State, num: Arith<N>): string
    requires Parses(s, num)
  {
    Render(num, num.apply(s.operation.value, num.parse(s.previous.value).value, num.parse(s.current).value))
  }

  function ErrorWrites(): seq<Write>
  {
    [SetCurrent(ErrorText), SetPrevious(None), SetOperation(None), SetOverwrite(true)]
  }

  /** The writes of `compute(chained)`, in the order the component makes them. */
  function ComputeWrites<N>(s: State, chained: bool, num: Arith<N>): seq<Write>
  {
    if s.operation.None? || s.previous.None? then []
    else
      var prev := num.parse(s.previous.value);
      var cur := num.parse(s.current);
      if prev.None? || cur.None? then []
      else if s.operation.value == Div && num.isZero(cur.value) then ErrorWrites()
      else
        var text := Render(num, num.apply(s.operation.value, prev.value, cur.value));
        [SetCurrent(text)] + (if chained then [] else [SetOperation(None), SetPrevious(None), SetOverwrite(true)])
  }

  /**
   * `compute(chained)`: nothing without a pending operation or with an
   * operand that does not parse; the error state on a division by zero;
   * otherwise the result replaces the current operand and, unless chained,
   * the pending operation is consumed and overwrite mode begins.
   */
  function Compute<N>(s: State, chained: bool, num: Arith<N>): (r: State)
    ensures !Parses(s, num) ==> r == s
    ensures DividesByZero(s, num) ==> r == ErrorState
    ensures Parses(s, num) && !DividesByZero(s, num) && !chained ==>
      r == State(ResultText(s, num), None, None, true)
    ensures Parses(s, num) && !DividesByZero(s, num) && chained ==>
      r == s.(current := ResultText(s, num))
  {
    var ws := ComputeWrites(s, chained, num);
    if !Parses(s, num) then
      Commit(s, ws)
    else if DividesByZero(s, num) || !chained then
      CommitFour(s, ws[0], ws[1], ws[2], ws[3]);
      Commit(s, ws)
    else
      CommitOne(s, ws[0]);
      Commit(s, ws)
  }

  /** The "=" key computes unchained; pressing it twice in a row does nothing the second time. */
  lemma ComputeIdempotent<N>(s: State, num: Arith<N>)
    ensures Compute(Compute(s, false, num), false, num) == Compute(s, false, num)
  {
  }

  // ---------------------------------------------------------------------------
  // chooseOperation

  /**
   * The writes of `chooseOperation(op)`: the `clear()` on "Error", the early
   * return on a bare "0", the chained `compute(true)`, then the four final
   * writes. Every guard reads the snapshot `s`, including the one after
   * `clear()`.
   */
  function ChooseOperationWrites<N>(s: State, op: Op, num: Arith<N>): seq<Write>
  {
    var reset := if s.current == ErrorText then ClearWrites() else [];
    if s.current == "0" && s.previous.None? then reset
    else
      var chain := if s.previous.Some? && !s.overwrite then ComputeWrites(s, true, num) else [];
      reset + chain + [SetOperation(Some(op)), SetPrevious(Some(s.current)), SetCurrent("0"), SetOverwrite(false)]
  }

  /**
   * `chooseOperation(op)`: with nothing entered it changes nothing;
   * otherwise its final writes supersede the chained compute and the clear,
   * so the snapshot's current operand becomes the previous one, whatever
   * the arithmetic.
   */
  function ChooseOperation<N>(s: State, op: Op, num: Arith<N>): (r: State)
    ensures s.current == "0" && s.previous.None? ==> r == s
    ensures !(s.current == "0" && s.previous.None?) ==> r == State("0", Some(s.current), Some(op), false)
  {
    var ws := ChooseOperationWrites(s, op, num);
    if s.current == "0" && s.previous.None? then
      Commit(s, ws)
    else
      var reset := if s.current == ErrorText then ClearWrites() else [];
      var chain := if s.previous.Some? && !s.overwrite then ComputeWrites(s, true, num) else [];
      CommitLastWritesWin(s, reset + chain, "0", Some(s.current), Some(op), false);
      Commit(s, ws)
  }

  // ---------------------------------------------------------------------------
  // clearText / handleClear

  /** The two labels of the clear key. */
  datatype ClearLabel = C | AC

  /** `clearText`: "C" while a number is being typed, "AC" otherwise. */
  function ClearText(s: State): (l: ClearLabel)
    ensures l == C <==> s.current != "0" && !s.overwrite
  {
    if s.current != "0" && !s.overwrite then C else AC
  }

  function HandleClearWrites(s: State): seq<Write>
  {
    if ClearText(s) == C then [SetCurrent("0"), SetOverwrite(false)] else ClearWrites()
  }

  /** `handleClear`: "C" discards only the operand being typed, "AC" is a full `clear`. */
  function HandleClear(s: State): (r: State)
    ensures ClearText(s) == C ==> r == State("0", s.previous, s.operation, false)
    ensures ClearText(s) == AC ==> r == Initial
  {
    var ws := HandleClearWrites(s);
    if ClearText(s) == C then
      CommitTwo(s, ws[0], ws[1]);
      Commit(s, ws)
    else
      Clear(s)
  }

  /**
   * In a consistent state, one press of the clear key reaches the initial
   * state exactly when it reads "AC" or nothing is pending.
   */
  lemma HandleClearReachesInitial(s: State)
    requires Consistent(s)
    ensures HandleClear(s) == Initial <==> ClearText(s) == AC || !Pending(s)
  {
  }

  /** Two presses of the clear key always reach the initial state. */
  lemma HandleClearTwice(s: State)
    ensures HandleClear(HandleClear(s)) == Initial
  {
  }

  // ---------------------------------------------------------------------------
  // Key presses

  /** The keypad: a digit key, an operator key, "=" (which calls `compute()`) and the clear key. */
  datatype Key = Digit(d: char) | Operator(op: Op) | Equals | ClearKey

  function Step<N>(s: State, k: Key, num: Arith<N>): State
  {
    match k
    case Digit(d) => AddDigit(s, d)
    case Operator(op) => ChooseOperation(s, op, num)
    case Equals => Compute(s, false, num)
    case ClearKey => HandleClear(s)
  }

  /** Pressing the keys `ks` one after the other, each press handled by `step`. */
  function Press(s: State, ks: seq<Key>, step: (State, Key) -> State): State
    decreases |ks|
  {
    if ks == [] then s else Press(step(s, ks[0]), ks[1..], step)
  }

  function Run<N>(s: State, ks: seq<Key>, num: Arith<N>): State
  {
    Press(s, ks, (t, k) => Step(t, k, num))
  }

  /**
   * What every reachable state satisfies: the previous operand and the
   * operation are pending together, and overwrite mode has nothing pending.
   */
  predicate Consistent(s: State)
  {
    && (s.previous.None? <==> s.operation.None?)
    && (s.overwrite ==> s.previous.None?)
  }

  /** Every key press keeps the state consistent. */
  lemma StepConsistent<N>(s: State, k: Key, num: Arith<N>)
    requires Consistent(s)
    ensures Consistent(Step(s, k, num))
  {
  }

  /** The state the component starts in is consistent. */
  lemma InitialConsistent()
    ensures Consistent(Initial)
  {
  }

  /** Every run of key presses from a consistent state ends in a consistent state. */
  lemma {:induction false} RunConsistent<N>(s: State, ks: seq<Key>, num: Arith<N>)
    requires Consistent(s)
    ensures Consistent(Run(s, ks, num))
    decreases |ks|
  {
    if ks != [] {
      StepConsistent(s, ks[0], num);
      RunConsistent(Step(s, ks[0], num), ks[1..], num);
    }
  }

  /** In a consistent state, the `!overwrite` half of the chaining guard never decides anything. */
  lemma ChainGuardSimplifies(s: State)
    requires Consistent(s)
    ensures (s.previous.Some? && !s.overwrite) <==> s.previous.Some?
  {
  }
}
