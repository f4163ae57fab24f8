/** The four category counters produced by one classification run
    (the `{ A, B, C, D }` object of app.js). */
module Counts {

  /** The category labels, in the key order of the counts object literal. */
  datatype Category = A | B | C | D

  /** The categories in `Object.keys` iteration order. */
  const Categories: seq<Category> := [A, B, C, D]

  /** Position of a category in `Categories`. */
  function Rank(c: Category): (i: nat)
    ensures i < |Categories| && Categories[i] == c
  {
    match c
    case A => 0
    case B => 1
    case C => 2
    case D => 3
  }

  datatype Counts = Counts(a: nat, b: nat, c: nat, d: nat)

  /** The all-zero object every run starts from. */
  const Zero: Counts := Counts(0, 0, 0, 0)

  /** `counts[category]`. */
  function Get(counts: Counts, cat: Category): nat
  {
    match cat
    case A => counts.a
    case B => counts.b
    case C => counts.c
    case D => counts.d
  }

  /** `counts.A + counts.B + counts.C + counts.D`, the target of the total counter. */
  function Total(counts: Counts): nat
  {
    counts.a + counts.b + counts.c + counts.d
  }

  /** Sum of the first `k` counts in key order. */
  function Before(counts: Counts, k: nat): (o: nat)
    requires k <= |Categories|
    ensures k == |Categories| ==> o == Total(counts)
  {
    if k == 0 then 0
    else if k == 1 then counts.a
    else if k == 2 then counts.a + counts.b
    else if k == 3 then counts.a + counts.b + counts.c
    else Total(counts)
  }

  /** The index at which the markers of `cat` start: the sum of the counts of
      the categories that come before it in key order. */
  function Offset(counts: Counts, cat: Category): (o: nat)
    ensures o + Get(counts, cat) == Before(counts, Rank(cat) + 1)
  {
    Before(counts, Rank(cat))
  }
}
