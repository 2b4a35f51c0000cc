/** Python's `list.remove(x)`: delete the first element equal to `x`. */
module ListOps {

  /** Index of the first element of `s` equal to `x`. */
  function FirstIndex<T(==)>(s: seq<T>, x: T): (i: nat)
    requires x in s
    ensures i < |s| && s[i] == x
    ensures x !in s[..i]
  {
    if s[0] == x then 0
    else
      assert s == [s[0]] + s[1..];
      var j := FirstIndex(s[1..], x);
      assert s[..j + 1] == [s[0]] + s[1..][..j];
      j + 1
  }

  /** `list.remove(x)` as Python defines it: scan from the front and drop the
      first element equal to `x`. The caller has checked that `x` is present
      (Python raises ValueError otherwise). */
  function RemoveFirst<T(==)>(s: seq<T>, x: T): (r: seq<T>)
    requires x in s
    ensures |r| == |s| - 1
    ensures multiset(r) == multiset(s) - multiset{x}
  {
    if s[0] == x then
      assert s == [s[0]] + s[1..];
      s[1..]
    else
      assert s == [s[0]] + s[1..];
      [s[0]] + RemoveFirst(s[1..], x)
  }

  /** Removal splices out exactly the element at the first index holding `x`:
      everything before it and everything after it keeps its relative order. */
  lemma {:induction false} RemoveFirstSplice<T>(s: seq<T>, x: T)
    requires x in s
    ensures RemoveFirst(s, x) == s[..FirstIndex(s, x)] + s[FirstIndex(s, x) + 1..]
  {
    if s[0] != x {
      RemoveFirstSplice(s[1..], x);
      var j := FirstIndex(s[1..], x);
      assert FirstIndex(s, x) == j + 1;
      assert RemoveFirst(s, x) == [s[0]] + RemoveFirst(s[1..], x);
      SpliceCons(s, j);
    }
  }

  /** Cutting out index `j + 1` of `s` is cutting out index `j` of its tail. */
  lemma SpliceCons<T>(s: seq<T>, j: nat)
    requires j + 1 < |s|
    ensures s[..j + 1] + s[j + 2..] == [s[0]] + (s[1..][..j] + s[1..][j + 1..])
  {
    assert s[..j + 1] == [s[0]] + s[1..][..j];
    assert s[j + 2..] == s[1..][j + 1..];
  }

  /** Removing the element that is at the head removes the head. */
  lemma RemoveHead<T>(s: seq<T>)
    requires s != []
    ensures RemoveFirst(s, s[0]) == s[1..]
  {
  }
}
