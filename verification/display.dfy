/**
 * `formatOperand`, the pure function that turns an operand's text into what
 * the screen shows. Thousands grouping (`Intl.NumberFormat` applied to
 * `parseFloat` of the integer part) is a parameter `group`; `None` from it
 * stands for a thrown exception, which the formatter catches.
 */
module Display {
  import opened Options
  import opened Text

  /** `t.split('.')[0]`: the text before the first point. */
  function IntegerPart(t: string): (r: string)
    ensures '.' !in r
    ensures r <= t
    ensures '.' !in t ==> r == t
    ensures '.' in t ==> |r| < |t| && t[|r|] == '.'
  {
    var i := IndexOf(t, '.');
    assert t[..i] <= t;
    t[..i]
  }

  /**
   * `t.split('.')[1]`: the text between the first point and the next one
   * (or the end), or `None` (`undefined`) when `t` has no point.
   */
  function FractionPart(t: string): (r: Option<string>)
    ensures r.None? <==> '.' !in t
    ensures r.Some? ==> '.' !in r.value
    ensures r.Some? ==> r.value == IntegerPart(t[|IntegerPart(t)| + 1..])
  {
    var i := IndexOf(t, '.');
    if i == |t| then None
    else
      var rest := t[i + 1..];
      Some(rest[..IndexOf(rest, '.')])
  }

  /** The integer part, then a point and the fraction part when there is one. */
  function Join(integer: string, fraction: Option<string>): string
  {
    match fraction
    case None => integer
    case Some(f) => integer + "." + f
  }

  /** Splitting on the first two points loses nothing exactly when there is at most one point. */
  lemma SplitJoin(t: string)
    ensures Join(IntegerPart(t), FractionPart(t)) == t <==> Occurrences(t, '.') <= 1
  {
    var i := IndexOf(t, '.');
    if i == |t| {
      assert t[..i] == t;
    } else {
      var rest := t[i + 1..];
      var j := IndexOf(rest, '.');
      assert t == t[..i] + [t[i]] + rest;
      OccurrencesAppend(t[..i] + [t[i]], rest, '.');
      OccurrencesAppend(t[..i], [t[i]], '.');
      assert [t[i]][1..] == [];
      assert Occurrences(t, '.') == 1 + Occurrences(rest, '.');
      if j == |rest| {
        assert rest[..j] == rest;
        assert Join(IntegerPart(t), FractionPart(t)) == t[..i] + "." + rest;
      } else {
        assert '.' in rest;
        assert |Join(IntegerPart(t), FractionPart(t))| == i + 1 + j < |t|;
      }
    }
  }

  /** What follows the integer part: the point and the fraction, or nothing. */
  function Fraction(t: string): (r: string)
    ensures IntegerPart(t) + r == t
  {
    t[|IntegerPart(t)|..]
  }

  lemma ConcatAssoc(a: string, b: string, c: string)
    ensures a + b + c == a + (b + c)
  {
  }

  /** When `t` has a point at `i`, what follows the integer part is that point and the rest. */
  lemma FractionAt(t: string, i: nat)
    requires i == IndexOf(t, '.') && i < |t|
    ensures Fraction(t) == "." + t[i + 1..]
  {
    assert |IntegerPart(t)| == i;
    assert t[i..] == [t[i]] + t[i + 1..];
  }

  /** With at most one point, joining any integer text to the split-off fraction appends `Fraction(t)`. */
  lemma ReattachFraction(t: string, head: string)
    ensures Occurrences(t, '.') <= 1 ==> Join(head, FractionPart(t)) == head + Fraction(t)
  {
    var i := IndexOf(t, '.');
    if Occurrences(t, '.') <= 1 && i < |t| {
      var rest := t[i + 1..];
      OccurrencesAround(t, i, '.');
      assert IndexOf(rest, '.') == |rest|;
      assert rest[..|rest|] == rest;
      assert FractionPart(t) == Some(rest);
      FractionAt(t, i);
      ConcatAssoc(head, ".", rest);
    }
  }

  /** A non-empty operand that is neither the error marker nor in exponent notation, so the formatter groups it. */
  predicate Groupable(t: string)
  {
    t != "Error" && 'e' !in t && IntegerPart(t) != ""
  }

  /**
   * `formatOperand`: `null` shows as nothing, the error marker and
   * exponent notation as they are, an empty integer part as "0"; otherwise
   * the grouped integer part followed by the fraction exactly as typed.
   */
  function FormatOperand(operand: Option<string>, group: string -> Option<string>): (r: string)
    ensures operand.None? ==> r == ""
    ensures operand == Some("Error") ==> r == "Error"
    ensures operand.Some? && 'e' in operand.value ==> r == operand.value
    ensures operand.Some? && operand.value != "Error" && 'e' !in operand.value && IntegerPart(operand.value) == "" ==> r == "0"
    ensures operand.Some? && Groupable(operand.value) && group(IntegerPart(operand.value)).None? ==> r == operand.value
    ensures operand.Some? && Groupable(operand.value) && group(IntegerPart(operand.value)).Some?
              && Occurrences(operand.value, '.') <= 1 ==>
              r == group(IntegerPart(operand.value)).value + Fraction(operand.value)
  {
    match operand
    case None => ""
    case Some(t) =>
      if t == "Error" then "Error"
      else if 'e' in t then t
      else
        var integer := IntegerPart(t);
        var decimal := FractionPart(t);
        if integer == "" then "0"
        else
          match group(integer)
          case None => t
          case Some(g) =>
            ReattachFraction(t, g);
            Join(g, decimal)
  }
}
