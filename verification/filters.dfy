/** Subsequences selected by a predicate. */
module Filters {

  function Filter<T>(s: seq<T>, keep: T -> bool): seq<T> {
    if s == [] then []
    else if keep(s[|s| - 1]) then Filter(s[..|s| - 1], keep) + [s[|s| - 1]]
    else Filter(s[..|s| - 1], keep)
  }

  lemma FilterSnoc<T>(s: seq<T>, x: T, keep: T -> bool)
    ensures Filter(s + [x], keep) == if keep(x) then Filter(s, keep) + [x] else Filter(s, keep)
  {
    assert (s + [x])[..|s|] == s;
  }

  lemma {:induction false} FilterAppend<T>(a: seq<T>, b: seq<T>, keep: T -> bool)
    ensures Filter(a + b, keep) == Filter(a, keep) + Filter(b, keep)
  {
    if b == [] {
      assert a + b == a;
    } else {
      var x := b[|b| - 1];
      assert b == b[..|b| - 1] + [x];
      assert a + b == (a + b[..|b| - 1]) + [x];
      FilterSnoc(a + b[..|b| - 1], x, keep);
      FilterAppend(a, b[..|b| - 1], keep);
    }
  }

  lemma ConcatAssoc<T>(a: seq<T>, b: seq<T>, c: seq<T>)
    ensures a + (b + c) == (a + b) + c
  {
  }

  lemma FilterOne<T>(x: T, keep: T -> bool)
    ensures Filter([x], keep) == if keep(x) then [x] else []
  {
    assert [x][..0] == [];
  }

  lemma {:induction false} FilterMembers<T>(s: seq<T>, keep: T -> bool)
    ensures forall x :: x in Filter(s, keep) ==> x in s && keep(x)
    ensures forall x :: x in s && keep(x) ==> x in Filter(s, keep)
    ensures Filter(s, keep) == [] <==> forall x :: x in s ==> !keep(x)
  {
    if s != [] {
      FilterMembers(s[..|s| - 1], keep);
      assert s == s[..|s| - 1] + [s[|s| - 1]];
    }
  }

  /** A selected element splits the sequence where it stands. */
  lemma {:induction false} FilterSplit<T>(s: seq<T>, keep: T -> bool, before: seq<T>, x: T, after: seq<T>)
    returns (k: nat)
    requires Filter(s, keep) == before + [x] + after
    ensures k < |s| && s[k] == x && keep(x) && Filter(s[..k], keep) == before
  {
    var last, inner := s[|s| - 1], Filter(s[..|s| - 1], keep);
    var whole := before + [x] + after;
    if keep(last) && after == [] {
      assert whole == before + [x];
      assert whole[..|whole| - 1] == before && whole[|whole| - 1] == x;
      assert (inner + [last])[..|inner|] == inner && (inner + [last])[|inner|] == last;
      k := |s| - 1;
    } else if keep(last) {
      var rest := after[..|after| - 1];
      assert whole[..|whole| - 1] == before + [x] + rest;
      assert (inner + [last])[..|inner|] == inner;
      k := FilterSplit(s[..|s| - 1], keep, before, x, rest);
      assert s[..|s| - 1][..k] == s[..k];
    } else {
      k := FilterSplit(s[..|s| - 1], keep, before, x, after);
      assert s[..|s| - 1][..k] == s[..k];
    }
  }

  lemma {:induction false} FilterAll<T>(s: seq<T>, keep: T -> bool)
    requires forall x :: x in s ==> keep(x)
    ensures Filter(s, keep) == s
  {
    if s != [] {
      FilterAll(s[..|s| - 1], keep);
      assert s == s[..|s| - 1] + [s[|s| - 1]];
    }
  }

  lemma FilterNone<T>(s: seq<T>, keep: T -> bool)
    requires forall x :: x in s ==> !keep(x)
    ensures Filter(s, keep) == []
  {
    FilterMembers(s, keep);
  }

  /** Filtering first by something weaker changes nothing. */
  lemma {:induction false} FilterTwice<T>(s: seq<T>, weak: T -> bool, strong: T -> bool)
    requires forall x :: x in s && strong(x) ==> weak(x)
    ensures Filter(Filter(s, weak), strong) == Filter(s, strong)
  {
    if s != [] {
      var x := s[|s| - 1];
      assert x in s;
      FilterTwice(s[..|s| - 1], weak, strong);
      if weak(x) {
        FilterSnoc(Filter(s[..|s| - 1], weak), x, strong);
      }
    }
  }

  /** The first selected element, and what is selected after it. */
  lemma FilterFirst<T>(s: seq<T>, keep: T -> bool) returns (k: nat)
    requires Filter(s, keep) != []
    ensures k < |s| && keep(s[k]) && s[k] == Filter(s, keep)[0]
    ensures forall i :: 0 <= i < k ==> !keep(s[i])
    ensures Filter(s[k + 1..], keep) == Filter(s, keep)[1..]
  {
    var f := Filter(s, keep);
    assert f == [] + [f[0]] + f[1..];
    k := FilterSplit(s, keep, [], f[0], f[1..]);
    FilterMembers(s[..k], keep);
    forall i | 0 <= i < k ensures !keep(s[i]) {
      assert s[i] == s[..k][i];
    }
    assert s == s[..k] + [s[k]] + s[k + 1..];
    FilterAppend(s[..k] + [s[k]], s[k + 1..], keep);
    FilterSnoc(s[..k], s[k], keep);
    assert [f[0]] + Filter(s[k + 1..], keep) == f;
  }

  lemma FilterTwiceNone<T>(s: seq<T>, f: T -> bool, g: T -> bool)
    requires forall x :: x in s ==> !(f(x) && g(x))
    ensures Filter(Filter(s, f), g) == []
  {
    FilterMembers(s, f);
    FilterNone(Filter(s, f), g);
  }
}
