/** Small facts about sequences that several components share. */
module Sequences {

  function Flatten<T>(parts: seq<seq<T>>): seq<T> {
    if parts == [] then [] else parts[0] + Flatten(parts[1..])
  }

  lemma {:induction false} FlattenAppend<T>(left: seq<seq<T>>, right: seq<seq<T>>)
    ensures Flatten(left + right) == Flatten(left) + Flatten(right)
  {
    if left == [] {
      assert left + right == right;
    } else {
      FlattenAppend(left[1..], right);
      assert (left + right)[1..] == left[1..] + right;
    }
  }

  /** A loop that moves the next element of `s` onto the end of `done` keeps the whole. */
  lemma TakeNext<T>(done: seq<T>, s: seq<T>, i: nat)
    requires i < |s|
    ensures done + s[i..] == (done + [s[i]]) + s[i + 1..]
  {
  }

  lemma Reassociate<T>(left: seq<T>, middle: seq<T>, right: seq<T>)
    ensures (left + middle) + right == left + (middle + right)
  {
  }
}
