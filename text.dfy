/**
 * String operations the core borrows from Python and JavaScript:
 * "".join / sep.join, str.split(' '), str.strip(), String.prototype.trim(),
 * str.find and str.lower(), written out so that their behaviour is explicit.
 */
module Text {
  import opened Options

  /** In-order concatenation of fragments (Python "".join, repeated JS +). */
  function Concat(xs: seq<string>): (s: string)
    ensures xs == [] ==> s == ""
    ensures |xs| == 1 ==> s == xs[0]
  {
    if xs == [] then "" else xs[0] + Concat(xs[1..])
  }

  /** Appending one fragment extends the concatenation by exactly that fragment. */
  lemma {:induction false} ConcatAppend(xs: seq<string>, x: string)
    ensures Concat(xs + [x]) == Concat(xs) + x
  {
    if xs != [] {
      assert (xs + [x])[1..] == xs[1..] + [x];
      ConcatAppend(xs[1..], x);
    }
  }

  /** Concatenating two batches of fragments is concatenating each batch and then the results. */
  lemma {:induction false} ConcatSplit(xs: seq<string>, ys: seq<string>)
    ensures Concat(xs + ys) == Concat(xs) + Concat(ys)
  {
    if xs != [] {
      assert (xs + ys)[0] == xs[0];
      assert (xs + ys)[1..] == xs[1..] + ys;
      ConcatSplit(xs[1..], ys);
      assert xs[0] + (Concat(xs[1..]) + Concat(ys)) == (xs[0] + Concat(xs[1..])) + Concat(ys);
    } else {
      assert xs + ys == ys;
    }
  }

  /** Python sep.join(xs): the pieces with sep between consecutive ones. */
  function Join(xs: seq<string>, sep: string): (s: string)
    ensures xs == [] ==> s == ""
    ensures |xs| == 1 ==> s == xs[0]
    ensures xs != [] ==> |xs[0]| <= |s| && s[..|xs[0]|] == xs[0]
  {
    if xs == [] then ""
    else if |xs| == 1 then xs[0]
    else xs[0] + sep + Join(xs[1..], sep)
  }

  /** Number of occurrences of c in s. */
  function Count(s: string, c: char): (n: nat)
    ensures n <= |s|
    ensures n == 0 <==> c !in s
  {
    if s == [] then 0 else (if s[0] == c then 1 else 0) + Count(s[1..], c)
  }

  /**
   * Python s.split(c) for a single separator character: every occurrence of c
   * separates two pieces, so consecutive separators give empty pieces and the
   * empty string gives [""].
   */
  function Split(s: string, c: char): (pieces: seq<string>)
    ensures |pieces| == Count(s, c) + 1
    ensures forall i :: 0 <= i < |pieces| ==> c !in pieces[i]
    decreases |s|
  {
    if s == [] then [""]
    else
      var rest := Split(s[1..], c);
      if s[0] == c then [""] + rest
      else [[s[0]] + rest[0]] + rest[1..]
  }

  /** Joining the pieces of a split with the separator gives back the text. */
  lemma {:induction false} JoinSplit(s: string, c: char)
    ensures Join(Split(s, c), [c]) == s
    decreases |s|
  {
    if s != [] {
      var rest := Split(s[1..], c);
      JoinSplit(s[1..], c);
      if s[0] == c {
        assert Split(s, c) == [""] + rest;
        assert ([""] + rest)[1..] == rest;
      } else {
        var pieces := [[s[0]] + rest[0]] + rest[1..];
        assert Split(s, c) == pieces;
        if |rest| == 1 {
          assert Join(pieces, [c]) == [s[0]] + rest[0];
        } else {
          assert pieces[1..] == rest[1..];
          assert Join(rest, [c]) == rest[0] + [c] + Join(rest[1..], [c]);
        }
      }
    }
  }

  /** Splitting x + t where x has no separator glues x onto the first piece of t. */
  lemma {:induction false} SplitPrefix(x: string, t: string, c: char)
    requires c !in x
    ensures Split(x + t, c) == [x + Split(t, c)[0]] + Split(t, c)[1..]
    decreases |x|
  {
    if x != [] {
      assert (x + t)[1..] == x[1..] + t;
      SplitPrefix(x[1..], t, c);
      assert [x[0]] + (x[1..] + Split(t, c)[0]) == x + Split(t, c)[0];
    } else {
      assert x + t == t;
      assert x + Split(t, c)[0] == Split(t, c)[0];
    }
  }

  /** Splitting the join of separator-free pieces gives back the pieces. */
  lemma {:induction false} SplitJoin(xs: seq<string>, c: char)
    requires |xs| >= 1
    requires forall i :: 0 <= i < |xs| ==> c !in xs[i]
    ensures Split(Join(xs, [c]), c) == xs
    decreases |xs|
  {
    if |xs| == 1 {
      SplitPrefix(xs[0], "", c);
      assert xs[0] + "" == xs[0];
    } else {
      var tail := Join(xs[1..], [c]);
      SplitJoin(xs[1..], c);
      assert Join(xs, [c]) == xs[0] + ([c] + tail);
      SplitPrefix(xs[0], [c] + tail, c);
      assert ([c] + tail)[1..] == tail;
      assert Split([c] + tail, c) == [""] + xs[1..];
      assert xs[0] + "" == xs[0];
    }
  }

  /** [x + suffix for x in xs] (a Python list comprehension). */
  function AppendToEach(xs: seq<string>, suffix: string): (ys: seq<string>)
    ensures |ys| == |xs|
    ensures forall i :: 0 <= i < |xs| ==> ys[i] == xs[i] + suffix
  {
    if xs == [] then [] else [xs[0] + suffix] + AppendToEach(xs[1..], suffix)
  }

  /** Drops suffix from every fragment that ends with it. */
  function DropSuffixFromEach(xs: seq<string>, suffix: string): (ys: seq<string>)
    ensures |ys| == |xs|
  {
    if xs == [] then []
    else
      var x := xs[0];
      var y := if |suffix| <= |x| && x[|x| - |suffix|..] == suffix then x[..|x| - |suffix|] else x;
      [y] + DropSuffixFromEach(xs[1..], suffix)
  }

  /** Dropping the suffix that was appended to each piece restores the pieces. */
  lemma {:induction false} DropAppendedSuffix(xs: seq<string>, suffix: string)
    ensures DropSuffixFromEach(AppendToEach(xs, suffix), suffix) == xs
  {
    if xs != [] {
      var ys := AppendToEach(xs, suffix);
      assert ys[1..] == AppendToEach(xs[1..], suffix);
      DropAppendedSuffix(xs[1..], suffix);
      assert (xs[0] + suffix)[..|xs[0]|] == xs[0];
    }
  }

  /** Concatenating the pieces each followed by sep is the join followed by sep. */
  lemma {:induction false} ConcatAppendToEach(xs: seq<string>, sep: string)
    requires |xs| >= 1
    ensures Concat(AppendToEach(xs, sep)) == Join(xs, sep) + sep
  {
    var ys := AppendToEach(xs, sep);
    if |xs| > 1 {
      assert ys[1..] == AppendToEach(xs[1..], sep);
      ConcatAppendToEach(xs[1..], sep);
    } else {
      assert ys[1..] == [];
    }
  }

  /** Characters Python's str.strip() removes when called without arguments. */
  predicate IsPythonSpace(c: char)
  {
    c == ' ' || c == '\t' || c == '\n' || c == '\r' || c == '\U{0B}' || c == '\U{0C}'
    || ('\U{1C}' <= c <= '\U{1F}') || c == '\U{85}' || c == '\U{A0}' || c == '\U{1680}'
    || ('\U{2000}' <= c <= '\U{200A}') || c == '\U{2028}' || c == '\U{2029}'
    || c == '\U{202F}' || c == '\U{205F}' || c == '\U{3000}'
  }

  /** Characters JavaScript's String.prototype.trim() removes. */
  predicate IsJsSpace(c: char)
  {
    c == ' ' || c == '\t' || c == '\n' || c == '\r' || c == '\U{0B}' || c == '\U{0C}'
    || c == '\U{A0}' || c == '\U{1680}' || ('\U{2000}' <= c <= '\U{200A}')
    || c == '\U{2028}' || c == '\U{2029}' || c == '\U{202F}' || c == '\U{205F}'
    || c == '\U{3000}' || c == '\U{FEFF}'
  }

  /** The first position at or after k whose character is not stripped, or |s|. */
  function SkipStripped(s: string, ws: char -> bool, k: nat): (n: nat)
    requires k <= |s|
    ensures k <= n <= |s|
    ensures forall i :: k <= i < n ==> ws(s[i])
    ensures n == |s| || !ws(s[n])
    decreases |s| - k
  {
    if k < |s| && ws(s[k]) then SkipStripped(s, ws, k + 1) else k
  }

  /** The position just after the last character of s[lo..k] that is not stripped, or lo. */
  function BackStripped(s: string, ws: char -> bool, lo: nat, k: nat): (n: nat)
    requires lo <= k <= |s|
    ensures lo <= n <= k
    ensures forall i :: n <= i < k ==> ws(s[i])
    ensures n == lo || !ws(s[n - 1])
    decreases k
  {
    if k > lo && ws(s[k - 1]) then BackStripped(s, ws, lo, k - 1) else k
  }

  /** Every character of s satisfies ws. */
  predicate AllSatisfy(s: string, ws: char -> bool)
  {
    forall i :: 0 <= i < |s| ==> ws(s[i])
  }

  /**
   * Removes the leading and the trailing characters satisfying ws: the result
   * is the infix of s that starts at the first character kept and ends at the
   * last one.
   */
  function Strip(s: string, ws: char -> bool): (r: string)
    ensures |r| <= |s|
    ensures r == [] || (!ws(r[0]) && !ws(r[|r| - 1]))
    ensures s == [] || (!ws(s[0]) && !ws(s[|s| - 1])) ==> r == s
    // r is s with the run of stripped characters removed at each end
    ensures var a := SkipStripped(s, ws, 0);
            a + |r| <= |s| && r == s[a..a + |r|]
            && (forall i :: 0 <= i < a ==> ws(s[i]))
            && (forall i :: a + |r| <= i < |s| ==> ws(s[i]))
  {
    var a := SkipStripped(s, ws, 0);
    var b := BackStripped(s, ws, a, |s|);
    assert s == [] || (!ws(s[0]) && !ws(s[|s| - 1])) ==> a == 0 && b == |s|;
    s[a..b]
  }

  /** Stripping leaves nothing exactly when every character is stripped. */
  lemma StripEmptyIffAllSatisfy(s: string, ws: char -> bool)
    ensures Strip(s, ws) == [] <==> AllSatisfy(s, ws)
  {
    var a := SkipStripped(s, ws, 0);
    if AllSatisfy(s, ws) {
      assert a == |s|;
    }
  }

  /** Python str.strip() with no arguments. */
  function PyStrip(s: string): (r: string)
    ensures r == [] || (!IsPythonSpace(r[0]) && !IsPythonSpace(r[|r| - 1]))
    ensures var a := SkipStripped(s, IsPythonSpace, 0);
            a + |r| <= |s| && r == s[a..a + |r|]
            && (forall i :: 0 <= i < a ==> IsPythonSpace(s[i]))
            && (forall i :: a + |r| <= i < |s| ==> IsPythonSpace(s[i]))
  {
    Strip(s, IsPythonSpace)
  }

  /** JavaScript String.prototype.trim(). */
  function JsTrim(s: string): (r: string)
    ensures r == [] || (!IsJsSpace(r[0]) && !IsJsSpace(r[|r| - 1]))
    ensures var a := SkipStripped(s, IsJsSpace, 0);
            a + |r| <= |s| && r == s[a..a + |r|]
            && (forall i :: 0 <= i < a ==> IsJsSpace(s[i]))
            && (forall i :: a + |r| <= i < |s| ==> IsJsSpace(s[i]))
  {
    Strip(s, IsJsSpace)
  }

  /** pat occurs in s at position j. */
  predicate OccursAt(s: string, pat: string, j: int)
  {
    0 <= j && j + |pat| <= |s| && s[j..j + |pat|] == pat
  }

  /** The first occurrence of pat in s at or after k, if there is one. */
  function FindFrom(s: string, pat: string, k: nat): (r: Option<nat>)
    requires k <= |s|
    ensures r.Some? ==> k <= r.value && OccursAt(s, pat, r.value)
    ensures r.Some? ==> forall j :: k <= j < r.value ==> !OccursAt(s, pat, j)
    ensures r.None? ==> forall j :: k <= j ==> !OccursAt(s, pat, j)
    decreases |s| - k
  {
    if k + |pat| > |s| then None
    else if s[k..k + |pat|] == pat then Some(k)
    else if k == |s| then None
    else FindFrom(s, pat, k + 1)
  }

  /** Python s.find(pat), with None for -1. */
  function Find(s: string, pat: string): (r: Option<nat>)
    ensures r.Some? ==> OccursAt(s, pat, r.value) && forall j :: 0 <= j < r.value ==> !OccursAt(s, pat, j)
    ensures r.None? <==> forall j :: !OccursAt(s, pat, j)
  {
    FindFrom(s, pat, 0)
  }

  /** Python str.lower() on the ASCII letters; every other character is kept. */
  function LowerChar(c: char): (d: char)
  {
    if 'A' <= c <= 'Z' then (c as int + 32) as char else c
  }

  function Lower(s: string): (r: string)
    ensures |r| == |s|
    ensures forall i :: 0 <= i < |s| ==> r[i] == LowerChar(s[i])
  {
    if s == [] then [] else [LowerChar(s[0])] + Lower(s[1..])
  }
}
