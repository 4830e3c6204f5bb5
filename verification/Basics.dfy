/** Shared vocabulary. */
module Basics {

  datatype Option<+T> = None | Some(value: T)

  /** The concatenation of all the pieces, in order. */
  function Concat<T>(pieces: seq<seq<T>>): seq<T> {
    if pieces == [] then [] else Concat(pieces[..|pieces| - 1]) + pieces[|pieces| - 1]
  }

  lemma PrefixSnoc<T>(s: seq<T>, i: nat)
    requires i < |s|
    ensures s[..i + 1] == s[..i] + [s[i]]
  {
  }

  lemma Associative<T>(a: seq<T>, b: seq<T>, c: seq<T>)
    ensures (a + b) + c == a + (b + c)
  {
  }
}
