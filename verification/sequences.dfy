/** What a queue's contents are when they are the part of one history beyond the length of another. */
module Sequences {
  import opened Options

  lemma AppendBeyond<T>(a: seq<T>, x: T, n: nat)
    requires n <= |a|
    ensures (a + [x])[n..] == a[n..] + [x]
  {
  }

  lemma DropFirst<T>(a: seq<T>, n: nat)
    requires n < |a|
    ensures a[n..] == [a[n]] + a[n + 1..]
  {
  }

  function Wrapped<T>(values: seq<T>): seq<Option<T>> { seq(|values|, i requires 0 <= i < |values| => Some(values[i])) }
}
