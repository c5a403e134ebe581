/** Small facts about strings that the engine and the display formatter share. */
module Text {

  /** Number of occurrences of `c` in `t`. */
  function Occurrences(t: string, c: char): (n: nat)
    ensures n <= |t|
    ensures n == 0 <==> c !in t
  {
    if t == [] then 0 else (if t[0] == c then 1 else 0) + Occurrences(t[1..], c)
  }

  /** Counting distributes over concatenation. */
  lemma {:induction false} OccurrencesAppend(t: string, u: string, c: char)
    ensures Occurrences(t + u, c) == Occurrences(t, c) + Occurrences(u, c)
  {
    if t == [] {
      assert t + u == u;
    } else {
      assert (t + u)[1..] == t[1..] + u;
      OccurrencesAppend(t[1..], u, c);
    }
  }

  /** The occurrences of `c` in `t` are those before position `i`, at it, and after it. */
  lemma OccurrencesAround(t: string, i: nat, c: char)
    requires i < |t|
    ensures Occurrences(t, c) == Occurrences(t[..i], c) + (if t[i] == c then 1 else 0) + Occurrences(t[i + 1..], c)
  {
    assert t == t[..i] + ([t[i]] + t[i + 1..]);
    OccurrencesAppend(t[..i], [t[i]] + t[i + 1..], c);
    OccurrencesAppend([t[i]], t[i + 1..], c);
    assert [t[i]][1..] == [];
  }

  /** Position of the first `c` in `t`, or `|t|` when `t` has none (like `indexOf`, with `|t|` for -1). */
  function IndexOf(t: string, c: char): (i: nat)
    ensures i <= |t|
    ensures c !in t[..i]
    ensures i < |t| ==> t[i] == c
  {
    if t == [] || t[0] == c then 0 else 1 + IndexOf(t[1..], c)
  }
}
