/**
 * The two library string operations the plugin relies on: literal
 * replacement of every occurrence of a search string (PHP's str_replace with
 * string arguments) and removal of surrounding white space (PHP's trim with
 * its default character list).
 */
module Strings {

  /** True when `p` occurs somewhere in `s` (the empty string occurs everywhere). */
  predicate Contains(s: string, p: string)
    decreases |s|
  {
    p <= s || (s != [] && Contains(s[1..], p))
  }

  /**
   * Replaces every occurrence of `p` in `s` by `r`, scanning left to right;
   * occurrences do not overlap and the text put in by `r` is not scanned again.
   * An empty search string leaves the subject as it is.
   */
  function ReplaceAll(s: string, p: string, r: string): string
    decreases |s|
  {
    if p == [] || s == [] then s
    else if p <= s then r + ReplaceAll(s[|p|..], p, r)
    else [s[0]] + ReplaceAll(s[1..], p, r)
  }

  /** str_replace(search, replace, subject): the scan as a loop that builds the result. */
  method StrReplace(search: string, replace: string, subject: string) returns (result: string)
    ensures result == ReplaceAll(subject, search, replace)
  {
    if search == [] {
      return subject;
    }
    result := "";
    var i := 0;
    assert subject[0..] == subject;
    while i < |subject|
      invariant 0 <= i <= |subject|
      invariant result + ReplaceAll(subject[i..], search, replace) == ReplaceAll(subject, search, replace)
    {
      ReplaceAt(subject, i, search, replace);
      if search <= subject[i..] {
        Regroup(result, replace, ReplaceAll(subject[i + |search|..], search, replace));
        result := result + replace;
        i := i + |search|;
      } else {
        Regroup(result, [subject[i]], ReplaceAll(subject[i + 1..], search, replace));
        result := result + [subject[i]];
        i := i + 1;
      }
    }
    assert ReplaceAll(subject[i..], search, replace) == [];
  }

  /** One step of the scan at position `i`: a match is replaced whole, anything else moves one character. */
  lemma ReplaceAt(s: string, i: int, p: string, r: string)
    requires p != [] && 0 <= i < |s|
    ensures p <= s[i..] ==> i + |p| <= |s| && ReplaceAll(s[i..], p, r) == r + ReplaceAll(s[i + |p|..], p, r)
    ensures !(p <= s[i..]) ==> ReplaceAll(s[i..], p, r) == [s[i]] + ReplaceAll(s[i + 1..], p, r)
  {
    if p <= s[i..] {
      assert s[i..][|p|..] == s[i + |p|..];
    } else {
      assert s[i..][1..] == s[i + 1..];
    }
  }

  /** A subject that does not contain the search string comes back unchanged. */
  lemma {:induction false} ReplaceAbsent(s: string, p: string, r: string)
    requires !Contains(s, p)
    ensures ReplaceAll(s, p, r) == s
    decreases |s|
  {
    if p != [] && s != [] {
      ReplaceAbsent(s[1..], p, r);
      assert s == [s[0]] + s[1..];
    }
  }

  /** A string that does not hold the first character of `p` does not contain `p`. */
  lemma {:induction false} FirstCharAbsent(s: string, p: string)
    requires p != [] && p[0] !in s
    ensures !Contains(s, p)
  {
    if s != [] {
      assert s[0] in s;
      FirstCharAbsent(s[1..], p);
    }
  }

  /** A string shorter than `p` does not contain `p`. */
  lemma {:induction false} ShorterAbsent(s: string, p: string)
    requires |s| < |p|
    ensures !Contains(s, p)
  {
    if s != [] {
      ShorterAbsent(s[1..], p);
    }
  }

  /**
   * A '%' that stands alone in `x + "%" + y` (no other '%' around it, and not
   * followed by the second character of `p`) does not start an occurrence of a
   * `p` that begins with '%'.
   */
  lemma {:induction false} LonePercentAbsent(x: string, y: string, p: string)
    requires |p| >= 2 && p[0] == '%' && '%' !in x && '%' !in y
    requires y == [] || y[0] != p[1]
    ensures !Contains(x + "%" + y, p)
    decreases |x|
  {
    if x == [] {
      assert x + "%" + y == "%" + y;
      assert !(p <= "%" + y) by {
        if y != [] {
          assert ("%" + y)[1] == y[0];
        }
      }
      FirstCharAbsent(y, p);
      assert ("%" + y)[1..] == y;
    } else {
      LonePercentAbsent(x[1..], y, p);
      assert (x + "%" + y)[1..] == x[1..] + "%" + y;
      assert (x + "%" + y)[0] == x[0];
      assert x[0] in x;
    }
  }

  /** The search string itself is replaced whole. */
  lemma ReplaceWhole(p: string, r: string)
    requires p != []
    ensures ReplaceAll(p, p, r) == r
  {
    assert p[|p|..] == [];
  }

  /** Replacing a string by itself changes nothing. */
  lemma {:induction false} ReplaceIdentity(s: string, p: string)
    ensures ReplaceAll(s, p, p) == s
    decreases |s|
  {
    if p == [] || s == [] {
    } else if p <= s {
      ReplaceIdentity(s[|p|..], p);
      assert s == p + s[|p|..];
    } else {
      ReplaceIdentity(s[1..], p);
      assert s == [s[0]] + s[1..];
    }
  }

  /** Seam condition: no occurrence of `p` can start in `a` and end in `b`. */
  predicate CleanSeam(a: string, b: string, p: string)
  {
    (a != [] && a[|a| - 1] !in p) || (b != [] && b[0] !in p)
  }

  /** An occurrence at the front of `a + b` that is longer than `a` covers both sides of the seam. */
  lemma Straddle(a: string, b: string, p: string)
    requires a != [] && p <= a + b && |p| > |a|
    ensures a[|a| - 1] in p && b != [] && b[0] in p
  {
    assert p[|a| - 1] == (a + b)[|a| - 1];
    assert p[|a|] == (a + b)[|a|];
  }

  /** Across a clean seam, an occurrence at the front of `a + b` is an occurrence at the front of `a`. */
  lemma NoStraddle(a: string, b: string, p: string)
    requires p != [] && a != [] && CleanSeam(a, b, p)
    ensures p <= a + b <==> p <= a
  {
    if p <= a + b {
      if |p| > |a| {
        Straddle(a, b, p);
        assert false;
      }
      assert p == (a + b)[..|p|] == a[..|p|];
    }
  }

  /**
   * Replacement distributes over a concatenation whose seam no occurrence of
   * `p` can straddle: the last character of `a` or the first of `b` is not a
   * character of `p`.
   */
  lemma {:induction false} ReplaceSplit(a: string, b: string, p: string, r: string)
    requires p != [] && CleanSeam(a, b, p)
    ensures ReplaceAll(a + b, p, r) == ReplaceAll(a, p, r) + ReplaceAll(b, p, r)
    decreases |a|, 1
  {
    if a == [] {
      assert a + b == b;
      assert ReplaceAll(a, p, r) + ReplaceAll(b, p, r) == ReplaceAll(b, p, r);
    } else {
      ReplaceSplitStep(a, b, p, r);
    }
  }

  /** ReplaceSplit for a non-empty `a`: one scan step, then the rest of `a`. */
  lemma {:induction false} ReplaceSplitStep(a: string, b: string, p: string, r: string)
    requires p != [] && a != [] && CleanSeam(a, b, p)
    ensures ReplaceAll(a + b, p, r) == ReplaceAll(a, p, r) + ReplaceAll(b, p, r)
    decreases |a|, 0
  {
    var k := if p <= a then |p| else 1;
    var head := if p <= a then r else [a[0]];
    var rest := a[k..];
    SeamStep(a, b, p, r);
    assert ReplaceAll(a, p, r) == head + ReplaceAll(rest, p, r);
    assert ReplaceAll(a + b, p, r) == head + ReplaceAll(rest + b, p, r);
    if rest == [] {
      assert rest + b == b;
      assert ReplaceAll(rest, p, r) == [];
    } else {
      assert rest[|rest| - 1] == a[|a| - 1];
      ReplaceSplit(rest, b, p, r);
    }
    Regroup(head, ReplaceAll(rest, p, r), ReplaceAll(b, p, r));
  }

  /** Concatenation regrouped. */
  lemma Regroup(x: string, y: string, z: string)
    ensures x + (y + z) == (x + y) + z
  {
  }

  /** One step of the scan over `a + b` across a clean seam consumes what the scan over `a` consumes. */
  lemma SeamStep(a: string, b: string, p: string, r: string)
    requires p != [] && a != [] && CleanSeam(a, b, p)
    ensures var k := if p <= a then |p| else 1;
      var head := if p <= a then r else [a[0]];
      && ReplaceAll(a, p, r) == head + ReplaceAll(a[k..], p, r)
      && ReplaceAll(a + b, p, r) == head + ReplaceAll(a[k..] + b, p, r)
  {
    NoStraddle(a, b, p);
    var k := if p <= a then |p| else 1;
    assert (a + b)[k..] == a[k..] + b;
    assert (a + b)[0] == a[0];
  }

  /** A search string at the front of a part that does not contain it is replaced there only. */
  lemma ReplaceFront(p: string, y: string, r: string)
    requires p != [] && ReplaceAll(y, p, r) == y
    requires y == [] || y[0] !in p
    ensures ReplaceAll(p + y, p, r) == r + y
  {
    ReplaceWhole(p, r);
    if y == [] {
      assert p + y == p;
    } else {
      ReplaceSplit(p, y, p, r);
    }
  }

  /** A prefix that does not contain `p` and ends outside `p` passes through unchanged. */
  lemma ReplaceBehind(x: string, z: string, p: string, r: string)
    requires p != [] && x != [] && ReplaceAll(x, p, r) == x && x[|x| - 1] !in p
    ensures ReplaceAll(x + z, p, r) == x + ReplaceAll(z, p, r)
  {
    ReplaceSplit(x, z, p, r);
  }

  /** Three parts that are each left alone, joined across clean seams, are left alone together. */
  lemma KeepBetween(x: string, m: string, y: string, p: string, r: string)
    requires p != [] && x != [] && y != [] && x[|x| - 1] !in p && y[0] !in p
    requires ReplaceAll(x, p, r) == x && ReplaceAll(m, p, r) == m && ReplaceAll(y, p, r) == y
    ensures ReplaceAll(x + m + y, p, r) == x + m + y
  {
    ReplaceBehind(x, m + y, p, r);
    ReplaceSplit(m, y, p, r);
    assert x + m + y == x + (m + y);
  }

  /**
   * A search string that occurs once, between two parts that do not contain
   * it and across clean seams, is replaced exactly there.
   */
  lemma ReplaceSole(x: string, y: string, p: string, r: string)
    requires p != [] && ReplaceAll(x, p, r) == x && ReplaceAll(y, p, r) == y
    requires x == [] || x[|x| - 1] !in p
    requires y == [] || y[0] !in p
    ensures ReplaceAll(x + p + y, p, r) == x + r + y
  {
    if x == [] {
      assert x + p + y == p + y;
      assert x + r + y == r + y;
      ReplaceFront(p, y, r);
    } else {
      ReplaceBetween(x, y, p, r);
    }
  }

  /** ReplaceSole for a non-empty first part. */
  lemma ReplaceBetween(x: string, y: string, p: string, r: string)
    requires p != [] && ReplaceAll(x, p, r) == x && ReplaceAll(y, p, r) == y
    requires x != [] && x[|x| - 1] !in p
    requires y == [] || y[0] !in p
    ensures ReplaceAll(x + p + y, p, r) == x + r + y
  {
    var py := p + y;
    assert x + p + y == x + py;
    ReplaceFront(p, y, r);
    ReplaceBehind(x, py, p, r);
    assert x + (r + y) == x + r + y;
  }

  /** The characters PHP's trim removes by default: space, tab, newline, carriage return, NUL, vertical tab. */
  predicate IsTrimChar(c: char)
  {
    c == ' ' || c == '\t' || c == '\n' || c == '\r' || c == '\0' || c == '\U{B}'
  }

  /** Drops the white space at the front of `s`. */
  function TrimLeft(s: string): (r: string)
    ensures |r| <= |s| && r == s[|s| - |r|..]
    ensures r == [] || !IsTrimChar(r[0])
    ensures forall i :: 0 <= i < |s| - |r| ==> IsTrimChar(s[i])
    decreases |s|
  {
    if s != [] && IsTrimChar(s[0]) then TrimLeft(s[1..]) else s
  }

  /** Drops the white space at the end of `s`. */
  function TrimRight(s: string): (r: string)
    ensures |r| <= |s| && r == s[..|r|]
    ensures r == [] || !IsTrimChar(r[|r| - 1])
    ensures forall i :: |r| <= i < |s| ==> IsTrimChar(s[i])
    decreases |s|
  {
    if s != [] && IsTrimChar(s[|s| - 1]) then TrimRight(s[..|s| - 1]) else s
  }

  /** PHP's trim with its default character list. */
  function Trim(s: string): string
  {
    TrimRight(TrimLeft(s))
  }

  /**
   * Trim keeps one contiguous slice of its input, removes only white space
   * around it and leaves no white space at either end of the slice.
   */
  lemma TrimSlice(s: string)
    ensures exists i, j :: (0 <= i <= j <= |s| && Trim(s) == s[i..j]
      && (forall k :: 0 <= k < i ==> IsTrimChar(s[k]))
      && (forall k :: j <= k < |s| ==> IsTrimChar(s[k])))
    ensures Trim(s) == [] || (!IsTrimChar(Trim(s)[0]) && !IsTrimChar(Trim(s)[|Trim(s)| - 1]))
  {
    var i, j := TrimBounds(s);
    TrimEnds(s);
  }

  /** Where the slice Trim keeps starts and ends, with only white space outside it. */
  lemma TrimBounds(s: string) returns (i: int, j: int)
    ensures 0 <= i <= j <= |s| && Trim(s) == s[i..j]
    ensures forall k :: 0 <= k < i ==> IsTrimChar(s[k])
    ensures forall k :: j <= k < |s| ==> IsTrimChar(s[k])
  {
    var l := TrimLeft(s);
    var t := TrimRight(l);
    i := |s| - |l|;
    j := i + |t|;
    KeptSlice(s, l, t);
  }

  /**
   * A suffix `l` of `s` and a prefix `t` of `l` with only white space after
   * it: `t` is a slice of `s` with only white space after it in `s`.
   */
  lemma KeptSlice(s: string, l: string, t: string)
    requires |l| <= |s| && l == s[|s| - |l|..]
    requires |t| <= |l| && t == l[..|t|]
    requires forall k :: |t| <= k < |l| ==> IsTrimChar(l[k])
    ensures t == s[|s| - |l|..|s| - |l| + |t|]
    ensures forall k :: |s| - |l| + |t| <= k < |s| ==> IsTrimChar(s[k])
  {
    var i := |s| - |l|;
    assert s[i..][..|t|] == s[i..i + |t|];
    forall k | i + |t| <= k < |s| ensures IsTrimChar(s[k]) {
      assert s[k] == l[k - i];
    }
  }

  /** Trim leaves no white space at either end. */
  lemma TrimEnds(s: string)
    ensures Trim(s) == [] || (!IsTrimChar(Trim(s)[0]) && !IsTrimChar(Trim(s)[|Trim(s)| - 1]))
  {
    var l := TrimLeft(s);
    var t := TrimRight(l);
    assert Trim(s) == t;
    if t != [] {
      assert t == l[..|t|];
      assert t[0] == l[0];
    }
  }

  /** Trimming twice is trimming once. */
  lemma TrimIdempotent(s: string)
    ensures Trim(Trim(s)) == Trim(s)
  {
    TrimSlice(s);
    var t := Trim(s);
    assert TrimLeft(t) == t;
    assert TrimRight(t) == t;
  }
}
