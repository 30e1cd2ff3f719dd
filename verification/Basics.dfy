/** Small definitions that several modules share. */
module Basics {
  const NUL := 0 as char

  predicate Blank(c: char) { c == ' ' || c == '\t' }

  function Min(a: nat, b: nat): nat { if a < b then a else b }

  function Max(a: nat, b: nat): nat { if a < b then b else a }

  predicate NoDup<X(==)>(items: seq<X>) { forall i, j | 0 <= i < j < |items| :: items[i] != items[j] }

  /** The elements of all parts, in order. */
  function Flat<X>(parts: seq<seq<X>>): seq<X> {
    if parts == [] then [] else Flat(parts[..|parts| - 1]) + parts[|parts| - 1]
  }

  lemma {:induction false} FlatJoins<X>(a: seq<seq<X>>, b: seq<seq<X>>)
    ensures Flat(a + b) == Flat(a) + Flat(b)
  {
    if b == [] {
      assert a + b == a;
    } else {
      FlatJoins(a, b[..|b| - 1]);
      assert (a + b)[..|a + b| - 1] == a + b[..|b| - 1];
    }
  }

  lemma {:induction false} FlatOne<X>(part: seq<X>)
    ensures Flat([part]) == part && Flat<X>([]) == []
  {
    assert [part][..0] == [];
  }
}
