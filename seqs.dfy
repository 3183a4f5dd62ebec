/** Sequence helpers: first positions and order-keeping selection. */
module Seqs {

  /** Index of the first occurrence of `x` in `s`, or `|s|` when `x` does not occur. */
  function FirstIndex<T(==)>(s: seq<T>, x: T): (i: nat)
    ensures i <= |s|
    ensures i < |s| <==> x in s
    ensures i < |s| ==> s[i] == x
    ensures x !in s[..i]
  {
    if |s| == 0 then 0
    else if s[0] == x then 0
    else
      var j := FirstIndex(s[1..], x);
      assert s[..j + 1] == [s[0]] + s[1..][..j];
      j + 1
  }

  /** Appending never moves the first occurrence of an element already present. */
  lemma {:induction false} FirstIndexAppend<T>(s: seq<T>, t: seq<T>, x: T)
    ensures x in s ==> FirstIndex(s + t, x) == FirstIndex(s, x)
    ensures x !in s ==> FirstIndex(s + t, x) == |s| + FirstIndex(t, x)
  {
    if |s| > 0 && s[0] != x {
      assert (s + t)[1..] == s[1..] + t;
      FirstIndexAppend(s[1..], t, x);
    } else if |s| == 0 {
      assert s + t == t;
    }
  }

  /** The elements of `s` that are in `keep`, in their order in `s`. */
  function Select<T(==, !new)>(s: seq<T>, keep: set<T>): (r: seq<T>)
    ensures forall x :: x in r <==> x in s && x in keep
  {
    if |s| == 0 then []
    else
      assert s == s[..|s| - 1] + [s[|s| - 1]];
      Select(s[..|s| - 1], keep) + (if s[|s| - 1] in keep then [s[|s| - 1]] else [])
  }

  /** Selection keeps the relative order of first occurrences. */
  lemma {:induction false} SelectOrder<T(!new)>(s: seq<T>, keep: set<T>, a: T, b: T)
    requires a in Select(s, keep) && b in Select(s, keep)
    ensures FirstIndex(Select(s, keep), a) < FirstIndex(Select(s, keep), b)
        <==> FirstIndex(s, a) < FirstIndex(s, b)
  {
    var s', y := s[..|s| - 1], s[|s| - 1];
    var r' := Select(s', keep);
    assert s == s' + [y];
    FirstIndexAppend(s', [y], a);
    FirstIndexAppend(s', [y], b);
    if y !in keep {
      assert Select(s, keep) == r';
      SelectOrder(s', keep, a, b);
    } else {
      assert Select(s, keep) == r' + [y];
      FirstIndexAppend(r', [y], a);
      FirstIndexAppend(r', [y], b);
      if a in r' && b in r' {
        SelectOrder(s', keep, a, b);
      }
    }
  }
}
