/** Facts about slicing sequences, stated once for every element type so that the
    proofs over roles and volumes do not re-derive them for those large datatypes. */
module Seqs {

  /** Cutting a sequence anywhere and gluing the pieces gives it back. */
  lemma SplitAt<T>(xs: seq<T>, i: nat)
    requires i <= |xs|
    ensures xs[..i] + xs[i..] == xs
  {
  }

  /** A prefix of a longer prefix is the shorter prefix. */
  lemma PrefixOfPrefix<T>(xs: seq<T>, i: nat, j: nat)
    requires i <= j <= |xs|
    ensures xs[..j][..i] == xs[..i]
    ensures forall k :: 0 <= k < i ==> xs[..j][k] == xs[k]
  {
  }

  /** Dropping the last element of `xs + ys`, when `ys` is not empty, drops it from `ys`. */
  lemma DropLast<T>(xs: seq<T>, ys: seq<T>)
    requires ys != []
    ensures (xs + ys)[..|xs + ys| - 1] == xs + ys[..|ys| - 1]
    ensures (xs + ys)[|xs + ys| - 1] == ys[|ys| - 1]
  {
  }
}
