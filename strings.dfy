/** The two Python string operations the event-code parser uses:
    slicing `s[1:-1]` and `str.split(sep)` with an explicit separator. */
module Strings {

  /** `s[1:-1]`: drop the first and the last character; a string shorter
      than two characters slices to the empty string. */
  function StripEnds(s: string): (r: string)
    ensures |s| >= 2 ==> |r| == |s| - 2 && s == [s[0]] + r + [s[|s| - 1]]
    ensures |s| < 2 ==> r == ""
  {
    if |s| >= 2 then
      assert s == [s[0]] + s[1..|s| - 1] + [s[|s| - 1]];
      s[1..|s| - 1]
    else ""
  }

  predicate StartsWith(s: string, prefix: string)
  {
    |prefix| <= |s| && s[..|prefix|] == prefix
  }

  /** `p` occurs somewhere in `s`. */
  predicate Occurs(p: string, s: string)
    decreases |s|
  {
    StartsWith(s, p) || (|s| > 0 && Occurs(p, s[1..]))
  }

  /** `s.split(sep)`: cut at every leftmost, non-overlapping occurrence of
      `sep`. Always yields at least one piece (`"".split(sep) == [""]`). */
  function Split(s: string, sep: string): (parts: seq<string>)
    requires sep != ""
    ensures |parts| >= 1
    decreases |s|
  {
    if s == "" then [""]
    else if StartsWith(s, sep) then [""] + Split(s[|sep|..], sep)
    else
      var rest := Split(s[1..], sep);
      [[s[0]] + rest[0]] + rest[1..]
  }

  /** `sep.join(parts)`. */
  function Join(parts: seq<string>, sep: string): string
  {
    if |parts| == 0 then ""
    else if |parts| == 1 then parts[0]
    else parts[0] + sep + Join(parts[1..], sep)
  }

  lemma JoinCons(c: char, parts: seq<string>, sep: string)
    requires |parts| >= 1
    ensures Join([[c] + parts[0]] + parts[1..], sep) == [c] + Join(parts, sep)
  {
    var q := [[c] + parts[0]] + parts[1..];
    assert q[1..] == parts[1..];
  }

  /** Joining the pieces of a split with the same separator gives back the
      original string. */
  lemma {:induction false} SplitJoin(s: string, sep: string)
    requires sep != ""
    ensures Join(Split(s, sep), sep) == s
    decreases |s|
  {
    if s == "" {
    } else if StartsWith(s, sep) {
      var rest := Split(s[|sep|..], sep);
      SplitJoin(s[|sep|..], sep);
      assert ([""] + rest)[1..] == rest;
      assert s == s[..|sep|] + s[|sep|..];
    } else {
      var rest := Split(s[1..], sep);
      SplitJoin(s[1..], sep);
      JoinCons(s[0], rest, sep);
      assert s == [s[0]] + s[1..];
    }
  }

  lemma JoinStartsWithHead(parts: seq<string>, sep: string)
    requires |parts| >= 1
    ensures StartsWith(Join(parts, sep), parts[0])
  {
    if |parts| > 1 {
      var j := Join(parts, sep);
      assert j == parts[0] + (sep + Join(parts[1..], sep));
      assert j[..|parts[0]|] == parts[0];
    }
  }

  lemma StartsWithTransitive(s: string, p: string, q: string)
    requires StartsWith(s, p)
    ensures StartsWith(p, q) ==> StartsWith(s, q)
  {
    if StartsWith(p, q) {
      assert s[..|q|] == s[..|p|][..|q|];
    }
  }

  /** No piece of a split contains the separator. */
  lemma {:induction false} SplitPiecesFree(s: string, sep: string)
    requires sep != ""
    ensures forall p :: p in Split(s, sep) ==> !Occurs(sep, p)
    decreases |s|
  {
    if s == "" {
    } else if StartsWith(s, sep) {
      SplitPiecesFree(s[|sep|..], sep);
    } else {
      var rest := Split(s[1..], sep);
      SplitPiecesFree(s[1..], sep);
      var head := [s[0]] + rest[0];
      assert head[1..] == rest[0];
      assert !Occurs(sep, rest[0]) by { assert rest[0] in rest; }
      SplitJoin(s[1..], sep);
      JoinStartsWithHead(rest, sep);
      assert StartsWith(s, head) by {
        assert s == [s[0]] + s[1..];
        assert s[1..][..|rest[0]|] == rest[0];
        assert s[..|head|] == [s[0]] + s[1..][..|rest[0]|];
      }
      StartsWithTransitive(s, head, sep);
      assert !Occurs(sep, head);
    }
  }

  /** A separator placed after a piece free of the separator's first
      character is the first cut. */
  lemma {:induction false} SplitAtFirstSeparator(a: string, sep: string, b: string)
    requires sep != "" && sep[0] !in a
    ensures Split(a + sep + b, sep) == [a] + Split(b, sep)
    decreases |a|
  {
    var s := a + sep + b;
    if a == "" {
      assert s == sep + b;
      assert StartsWith(s, sep);
      assert s[|sep|..] == b;
    } else {
      assert s[0] == a[0];
      assert !StartsWith(s, sep);
      assert s[1..] == a[1..] + sep + b;
      SplitAtFirstSeparator(a[1..], sep, b);
      assert [a[0]] + a[1..] == a;
    }
  }

  /** A string without the separator's first character splits into itself. */
  lemma {:induction false} SplitWithoutSeparator(a: string, sep: string)
    requires sep != "" && sep[0] !in a
    ensures Split(a, sep) == [a]
    decreases |a|
  {
    if a != "" {
      assert !StartsWith(a, sep);
      SplitWithoutSeparator(a[1..], sep);
      assert [a[0]] + a[1..] == a;
    }
  }

  /** Splitting a joined list gives the list back, provided no piece holds
      the separator's first character. */
  lemma {:induction false} SplitOfJoin(parts: seq<string>, sep: string)
    requires sep != "" && |parts| >= 1
    requires forall p :: p in parts ==> sep[0] !in p
    ensures Split(Join(parts, sep), sep) == parts
    decreases |parts|
  {
    if |parts| == 1 {
      SplitWithoutSeparator(parts[0], sep);
    } else {
      assert parts[0] in parts;
      SplitAtFirstSeparator(parts[0], sep, Join(parts[1..], sep));
      forall p | p in parts[1..] ensures sep[0] !in p {
        assert p in parts;
      }
      SplitOfJoin(parts[1..], sep);
      assert [parts[0]] + parts[1..] == parts;
    }
  }
}
