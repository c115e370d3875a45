// Runs of atoms put together from the pieces that the lines of a file and the blocks of a line
// contribute, and what is inside which: how a call and its result are found again in the whole run of a
// transcript or a rollout, and what stands between them.

module Pieces {
  import opened Builder
  import opened ToolOutputs

  /** Pieces put together in order. */
  function Flat(parts: seq<seq<Atom>>): seq<Atom> {
    if parts == [] then [] else Flat(parts[..|parts| - 1]) + parts[|parts| - 1]
  }

  lemma {:induction false} FlatConcat(a: seq<seq<Atom>>, b: seq<seq<Atom>>)
    ensures Flat(a + b) == Flat(a) + Flat(b)
    decreases |b|
  {
    if b == [] {
      assert a + b == a;
    } else {
      assert (a + b)[..|a + b| - 1] == a + b[..|b| - 1];
      FlatConcat(a, b[..|b| - 1]);
    }
  }

  lemma {:induction false} FlatAt(parts: seq<seq<Atom>>, i: nat)
    requires i < |parts|
    ensures Flat(parts[..i + 1]) == Flat(parts[..i]) + parts[i]
    ensures Flat(parts) == Flat(parts[..i]) + parts[i] + Flat(parts[i + 1..])
  {
    assert parts == parts[..i + 1] + parts[i + 1..] && parts[..i + 1][..i] == parts[..i];
    FlatConcat(parts[..i + 1], parts[i + 1..]);
  }

  lemma {:induction false} FlatHolds(parts: seq<seq<Atom>>, holds: Atom -> bool)
    requires forall i, atom | 0 <= i < |parts| && atom in parts[i] :: holds(atom)
    ensures forall atom | atom in Flat(parts) :: holds(atom)
  {
    if parts != [] {
      FlatHolds(parts[..|parts| - 1], holds);
    }
  }

  /** A piece of a piece stands in the whole. */
  lemma {:induction false} Inside(whole: seq<Atom>, before: seq<Atom>, part: seq<Atom>, after: seq<Atom>,
                                  first: seq<Atom>, atom: Atom, rest: seq<Atom>)
    requires whole == before + part + after && part == first + [atom] + rest
    ensures whole == (before + first) + [atom] + (rest + after)
  {
  }

  lemma {:induction false} CallAround(whole: seq<Atom>, before: seq<Atom>, part: seq<Atom>, after: seq<Atom>,
                                      first: seq<Atom>, atom: Atom, rest: seq<Atom>, more: seq<Atom>)
    requires whole == before + part + after && part == first + [atom] + rest
    ensures (before + first) + [atom] + (rest + after + more) == whole + more
    ensures before + first <= whole
  {
  }

  lemma {:induction false} AllHold(a: seq<Atom>, b: seq<Atom>, c: seq<Atom>, holds: Atom -> bool)
    requires forall atom | atom in a || atom in b || atom in c :: holds(atom)
    ensures forall atom | atom in a + b + c :: holds(atom)
  {
  }

  function Other(id: string): Atom -> bool {
    (atom: Atom) => !((atom.Call? || atom.Result?) && atom.callID == id)
  }

  function NotCalled(id: string): Atom -> bool {
    (atom: Atom) => atom.Call? ==> atom.callID != id
  }
}
