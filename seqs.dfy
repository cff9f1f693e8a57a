/** Concatenation of a list of lists, shared by the loader and the merger. */
module Seqs {

  /** The lists of `parts` joined in order. */
  function Flatten<T>(parts: seq<seq<T>>): seq<T> {
    if parts == [] then [] else parts[0] + Flatten(parts[1..])
  }

  /** Appending one more list to `parts` appends its elements. */
  lemma {:induction false} FlattenSnoc<T>(parts: seq<seq<T>>, x: seq<T>)
    ensures Flatten(parts + [x]) == Flatten(parts) + x
  {
    if parts != [] {
      assert (parts + [x])[1..] == parts[1..] + [x];
      FlattenSnoc(parts[1..], x);
    }
  }
}
