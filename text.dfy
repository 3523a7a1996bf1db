/**
 * The string primitives both parsers call: whitespace sets, strip / rstrip
 * (trim / trimEnd), startswith / endswith, split on one character and
 * global replacement of a fixed pattern. Strings are sequences of chars;
 * each operation is stated by what its result is, not how it is computed.
 */
module Text {

  /** The characters for which Python's str.isspace() holds; str.strip(),
      str.rstrip() and the `\s` class of the `re` module all use this set. */
  const PyWhitespace: set<char> :=
    {'\t', '\n', '\U{0B}', '\U{0C}', '\r', '\U{1C}', '\U{1D}', '\U{1E}', '\U{1F}', ' ',
     '\U{85}', '\U{A0}', '\U{1680}',
     '\U{2000}', '\U{2001}', '\U{2002}', '\U{2003}', '\U{2004}', '\U{2005}',
     '\U{2006}', '\U{2007}', '\U{2008}', '\U{2009}', '\U{200A}',
     '\U{2028}', '\U{2029}', '\U{202F}', '\U{205F}', '\U{3000}'}

  /** ECMAScript WhiteSpace and LineTerminator code points: the set used by
      String.prototype.trim / trimEnd and by the regular-expression class `\s`. */
  const JsWhitespace: set<char> :=
    {'\t', '\n', '\U{0B}', '\U{0C}', '\r', ' ', '\U{A0}', '\U{1680}',
     '\U{2000}', '\U{2001}', '\U{2002}', '\U{2003}', '\U{2004}', '\U{2005}',
     '\U{2006}', '\U{2007}', '\U{2008}', '\U{2009}', '\U{200A}',
     '\U{2028}', '\U{2029}', '\U{202F}', '\U{205F}', '\U{3000}', '\U{FEFF}'}

  /** Characters the regular-expression `.` does not match: Python (no DOTALL flag). */
  const PyLineBreaks: set<char> := {'\n'}

  /** Characters the regular-expression `.` does not match: ECMAScript line terminators. */
  const JsLineBreaks: set<char> := {'\n', '\r', '\U{2028}', '\U{2029}'}

  /** True when every character of `s` is in `ws`. */
  predicate AllIn(s: string, ws: set<char>)
  {
    forall i :: 0 <= i < |s| ==> s[i] in ws
  }

  /** Number of leading characters of `s` that belong to `ws`. */
  function LeadingWs(s: string, ws: set<char>): (n: nat)
    ensures n <= |s|
    ensures forall i :: 0 <= i < n ==> s[i] in ws
    ensures n == |s| || s[n] !in ws
  {
    if s == [] || s[0] !in ws then 0 else 1 + LeadingWs(s[1..], ws)
  }

  /** Number of trailing characters of `s` that belong to `ws`. */
  function TrailingWs(s: string, ws: set<char>): (n: nat)
    ensures n <= |s|
    ensures forall i :: |s| - n <= i < |s| ==> s[i] in ws
    ensures n == |s| || s[|s| - 1 - n] !in ws
  {
    if s == [] || s[|s| - 1] !in ws then 0 else 1 + TrailingWs(s[..|s| - 1], ws)
  }

  /** Python str.lstrip() / ECMAScript trimStart(). */
  function LStrip(s: string, ws: set<char>): (r: string)
    ensures |r| <= |s| && r == s[|s| - |r|..]
    ensures AllIn(s[..|s| - |r|], ws)
    ensures r == [] || r[0] !in ws
  {
    s[LeadingWs(s, ws)..]
  }

  /** Python str.rstrip() / ECMAScript trimEnd(). */
  function RStrip(s: string, ws: set<char>): (r: string)
    ensures |r| <= |s| && r == s[..|r|]
    ensures AllIn(s[|r|..], ws)
    ensures r == [] || r[|r| - 1] !in ws
  {
    s[..|s| - TrailingWs(s, ws)]
  }

  /** Python str.strip() / ECMAScript trim(): the run of `s` left once the
      whitespace at both ends is removed. */
  function Strip(s: string, ws: set<char>): (r: string)
    ensures |r| <= |s|
    ensures r == [] <==> AllIn(s, ws)
    ensures r != [] ==> r[0] !in ws && r[|r| - 1] !in ws
    ensures r != [] ==> var a := LeadingWs(s, ws);
      a + |r| <= |s| && r == s[a..a + |r|] && AllIn(s[a + |r|..], ws)
  {
    StripEmpty(s, ws);
    StripSpan(s, ws);
    LStrip(RStrip(s, ws), ws)
  }

  /** The strip is empty exactly when the whole string is whitespace. */
  lemma StripEmpty(s: string, ws: set<char>)
    ensures LStrip(RStrip(s, ws), ws) == [] <==> AllIn(s, ws)
  {
    var t := RStrip(s, ws);
    if LStrip(t, ws) == [] {
      assert t == [];
      forall i | 0 <= i < |s| ensures s[i] in ws {
        assert s[i] == s[|t|..][i];
      }
    }
  }

  /** A non-empty strip starts past the leading whitespace and is followed
      by whitespace only. */
  lemma StripSpan(s: string, ws: set<char>)
    ensures var r := LStrip(RStrip(s, ws), ws);
      r != [] ==> var a := LeadingWs(s, ws);
        a + |r| <= |s| && r == s[a..a + |r|] && AllIn(s[a + |r|..], ws)
  {
    var t := RStrip(s, ws);
    var r := LStrip(t, ws);
    if r != [] {
      var b := LeadingWs(t, ws);
      assert LeadingWs(s, ws) == b by {
        forall i | 0 <= i <= b ensures s[i] == t[i] {
          assert t[i] == s[..|t|][i];
        }
        LeadingWsUnique(s, b, ws);
      }
      assert b + |r| == |t|;
      assert r == s[b..|t|] by {
        assert r == t[b..];
        assert t == s[..|t|];
      }
      assert AllIn(s[|t|..], ws);
    }
  }

  /** The leading whitespace is the run of `ws` characters that the first
      other character ends. */
  lemma LeadingWsUnique(s: string, k: nat, ws: set<char>)
    requires k < |s| && s[k] !in ws
    requires forall i :: 0 <= i < k ==> s[i] in ws
    ensures LeadingWs(s, ws) == k
  {
  }

  /** A string that neither starts nor ends with whitespace is its own strip. */
  lemma StripUnchanged(s: string, ws: set<char>)
    requires s != [] ==> s[0] !in ws && s[|s| - 1] !in ws
    ensures Strip(s, ws) == s
  {
    var r := Strip(s, ws);
    if s != [] {
      assert !AllIn(s, ws);
      assert LeadingWs(s, ws) == 0;
    }
  }

  /** The last character of a string is whitespace or the last character of its strip. */
  lemma StripLast(s: string, ws: set<char>)
    requires Strip(s, ws) != []
    ensures var r := Strip(s, ws); s[|s| - 1] in ws || s[|s| - 1] == r[|r| - 1]
  {
    var t := RStrip(s, ws);
    if |t| < |s| {
      assert s[|s| - 1] == s[|t|..][|s| - 1 - |t|];
    } else {
      var r := LStrip(t, ws);
      assert t == s;
      assert r[|r| - 1] == t[|t| - 1];
    }
  }

  /** Stripping only removes characters. */
  lemma StripSub(s: string, ws: set<char>, c: char)
    requires c in Strip(s, ws)
    ensures c in s
  {
    var t := RStrip(s, ws);
    var r := LStrip(t, ws);
    assert t[|t| - |r|..|t|] == r;
    SliceIn(t, |t| - |r|, |t|, c);
    assert s[0..|t|] == t;
    SliceIn(s, 0, |t|, c);
  }

  /** What is in a slice is in the string. */
  lemma SliceIn(s: string, i: nat, j: nat, c: char)
    requires i <= j <= |s| && c in s[i..j]
    ensures c in s
  {
    var k :| 0 <= k < j - i && s[i..j][k] == c;
    assert s[i + k] == c;
  }

  /** Python str.startswith / ECMAScript startsWith. */
  predicate StartsWith(s: string, p: string)
  {
    |p| <= |s| && s[..|p|] == p
  }

  /** A string starts with its first character. */
  lemma StartsWithFirst(s: string)
    requires s != []
    ensures StartsWith(s, [s[0]])
  {
    assert s[..1] == [s[0]];
  }

  /** Python str.endswith / ECMAScript endsWith. */
  predicate EndsWith(s: string, p: string)
  {
    |p| <= |s| && s[|s| - |p|..] == p
  }

  /** Position of the first `c` in `s`, or |s| when there is none. */
  function IndexOf(s: string, c: char): (k: nat)
    ensures k <= |s|
    ensures c !in s[..k]
    ensures k < |s| ==> s[k] == c
    ensures k == |s| <==> c !in s
  {
    if s == [] then 0 else if s[0] == c then 0 else 1 + IndexOf(s[1..], c)
  }

  /** The inverse of Split: the pieces with `c` between consecutive ones. */
  function Join(pieces: seq<string>, c: char): string
    requires |pieces| >= 1
  {
    if |pieces| == 1 then pieces[0] else pieces[0] + [c] + Join(pieces[1..], c)
  }

  /** Python str.split(c) / ECMAScript split(c) for a one-character separator:
      never empty, no piece holds `c`, and joining the pieces gives `s` back. */
  function Split(s: string, c: char): (pieces: seq<string>)
    ensures |pieces| >= 1
    ensures forall i :: 0 <= i < |pieces| ==> c !in pieces[i]
    ensures Join(pieces, c) == s
    decreases |s|
  {
    var k := IndexOf(s, c);
    if k == |s| then [s]
    else
      var rest := Split(s[k + 1..], c);
      assert s == s[..k] + [c] + s[k + 1..];
      [s[..k]] + rest
  }

  /** Splitting undoes joining: `Split` and `Join` are inverse on pieces free of `c`. */
  lemma {:induction false} SplitJoin(pieces: seq<string>, c: char)
    requires |pieces| >= 1
    requires forall i :: 0 <= i < |pieces| ==> c !in pieces[i]
    ensures Split(Join(pieces, c), c) == pieces
    decreases |pieces|
  {
    if |pieces| == 1 {
      assert IndexOf(pieces[0], c) == |pieces[0]|;
    } else {
      assert c !in pieces[0];
      SplitJoinStep(pieces, c);
      SplitJoin(pieces[1..], c);
      assert pieces == [pieces[0]] + pieces[1..];
    }
  }

  /** One step of SplitJoin: the first piece comes off, then the split of
      the join of the others. */
  lemma SplitJoinStep(pieces: seq<string>, c: char)
    requires |pieces| > 1 && c !in pieces[0]
    ensures Split(Join(pieces, c), c) == [pieces[0]] + Split(Join(pieces[1..], c), c)
  {
    var p := pieces[0];
    var rest := Join(pieces[1..], c);
    var s := p + ([c] + rest);
    assert Join(pieces, c) == s;
    IndexOfAfter(p, [c] + rest, c);
    SplitAt(s, |p|, c);
    assert s[..|p|] == p && s[|p| + 1..] == rest;
  }

  /** Splitting at the first separator: the piece before it, then the split of the rest. */
  lemma SplitAt(s: string, k: nat, c: char)
    requires k < |s| && IndexOf(s, c) == k
    ensures Split(s, c) == [s[..k]] + Split(s[k + 1..], c)
  {
  }

  /** When `c` is not in `p`, the first `c` of `p + q` is the first `c` of `q`, shifted by |p|. */
  lemma {:induction false} IndexOfAfter(p: string, q: string, c: char)
    requires c !in p
    ensures IndexOf(p + q, c) == |p| + IndexOf(q, c)
    decreases |p|
  {
    if p != [] {
      assert (p + q)[0] == p[0] && p[0] != c;
      assert (p + q)[1..] == p[1..] + q;
      IndexOfAfter(p[1..], q, c);
      assert IndexOf(p + q, c) == 1 + IndexOf(p[1..] + q, c);
    } else {
      assert p + q == q;
    }
  }

  /** Python str.replace(pat, rep) and ECMAScript replace(/pat/g, rep): scan
      left to right, replacing each occurrence of `pat` that does not overlap
      an earlier replaced one. */
  function ReplaceAll(s: string, pat: string, rep: string): string
    requires |pat| > 0
    decreases |s|
  {
    if |s| < |pat| then s
    else if s[..|pat|] == pat then rep + ReplaceAll(s[|pat|..], pat, rep)
    else [s[0]] + ReplaceAll(s[1..], pat, rep)
  }

  /** Replacing with text no longer than the pattern never lengthens the string. */
  lemma {:induction false} ReplaceAllShrinks(s: string, pat: string, rep: string)
    requires |pat| > 0 && |rep| <= |pat|
    ensures |ReplaceAll(s, pat, rep)| <= |s|
    decreases |s|
  {
    if |s| >= |pat| {
      if s[..|pat|] == pat {
        ReplaceAllShrinks(s[|pat|..], pat, rep);
      } else {
        ReplaceAllShrinks(s[1..], pat, rep);
      }
    }
  }

  /** `pat` occurs in `s` at position `k`. */
  predicate MatchesAt(s: string, pat: string, k: nat)
  {
    k + |pat| <= |s| && s[k..k + |pat|] == pat
  }

  /** The split law: when no occurrence of `pat` starts inside `a`, the first
      occurrence in `a + pat + b` is the one right after `a`; it is replaced,
      `a` is kept as the scan leaves it, and the scan starts afresh on `b`. */
  lemma {:induction false} ReplaceAllSplit(a: string, pat: string, rep: string, b: string)
    requires |pat| > 0
    requires forall k :: 0 <= k < |a| ==> !MatchesAt(a + pat + b, pat, k)
    ensures ReplaceAll(a + pat + b, pat, rep) == ReplaceAll(a, pat, rep) + rep + ReplaceAll(b, pat, rep)
    decreases |a|
  {
    if a == [] {
      assert a + pat + b == pat + b;
      ReplaceAllFront(pat, rep, b);
    } else {
      forall k | 0 <= k < |a| - 1 ensures !MatchesAt(a[1..] + pat + b, pat, k) {
        ShiftMatch(a, pat, b, k);
      }
      ReplaceAllSplit(a[1..], pat, rep, b);
      var x, y := ReplaceAll(a[1..], pat, rep), ReplaceAll(b, pat, rep);
      assert x + rep + y == x + (rep + y);
      assert !MatchesAt(a + pat + b, pat, 0);
      NoMatchPrefix(a, pat, b);
      DropFirst(a, pat, b);
      ReplaceAllSplitStep(a + pat + b, a, pat, rep, rep + y);
      assert ReplaceAll(a, pat, rep) + (rep + y) == ReplaceAll(a, pat, rep) + rep + y;
    }
  }

  /** One step of the split law: `s` and `a` start with the same character and
      neither starts with a match, so both scans keep it. */
  lemma ReplaceAllSplitStep(s: string, a: string, pat: string, rep: string, tail: string)
    requires |pat| > 0 && |s| > 0 && |a| > 0 && s[0] == a[0]
    requires !MatchesAt(s, pat, 0) && !MatchesAt(a, pat, 0)
    requires ReplaceAll(s[1..], pat, rep) == ReplaceAll(a[1..], pat, rep) + tail
    ensures ReplaceAll(s, pat, rep) == ReplaceAll(a, pat, rep) + tail
  {
    ReplaceAllHead(s, pat, rep);
    ReplaceAllHead(a, pat, rep);
  }

  /** A prefix of `a + pat + b` that misses a match at the front of the whole
      string misses it at the front of `a` too. */
  lemma NoMatchPrefix(a: string, pat: string, b: string)
    requires !MatchesAt(a + pat + b, pat, 0)
    ensures !MatchesAt(a, pat, 0)
  {
    if |pat| <= |a| {
      assert a[..|pat|] == (a + pat + b)[..|pat|];
    }
  }

  /** A match at the front is replaced and the scan starts afresh after it. */
  lemma ReplaceAllFront(pat: string, rep: string, b: string)
    requires |pat| > 0
    ensures ReplaceAll(pat + b, pat, rep) == rep + ReplaceAll(b, pat, rep)
  {
    var s := pat + b;
    assert s[..|pat|] == pat && s[|pat|..] == b;
  }

  /** Dropping the first character of `a + pat + b` drops it from `a`. */
  lemma DropFirst(a: string, pat: string, b: string)
    requires |a| > 0
    ensures (a + pat + b)[1..] == a[1..] + pat + b
  {
  }

  /** Dropping the first character of `a` moves every match one place down. */
  lemma ShiftMatch(a: string, pat: string, b: string, k: nat)
    requires |a| > 0 && k + 1 < |a| + 1
    ensures MatchesAt(a[1..] + pat + b, pat, k) == MatchesAt(a + pat + b, pat, k + 1)
  {
    var s, t := a + pat + b, a[1..] + pat + b;
    assert s[1..] == t;
    if k + |pat| <= |t| {
      assert t[k..k + |pat|] == s[k + 1..k + 1 + |pat|];
    }
  }

  /** Without a match at the front, the scan keeps the first character and moves on. */
  lemma ReplaceAllHead(s: string, pat: string, rep: string)
    requires |pat| > 0 && |s| > 0 && !MatchesAt(s, pat, 0)
    ensures ReplaceAll(s, pat, rep) == [s[0]] + ReplaceAll(s[1..], pat, rep)
  {
    if |s| < |pat| {
      assert s == [s[0]] + s[1..];
    } else {
      assert s[0..|pat|] == s[..|pat|];
    }
  }

  /** A string without the first character of the pattern has nothing to replace. */
  lemma {:induction false} ReplaceAllAbsent(s: string, pat: string, rep: string)
    requires |pat| > 0
    requires pat[0] !in s
    ensures ReplaceAll(s, pat, rep) == s
    decreases |s|
  {
    if |s| >= |pat| {
      assert s[0] != pat[0];
      assert s[..|pat|] != pat;
      assert s == [s[0]] + s[1..];
      ReplaceAllAbsent(s[1..], pat, rep);
    }
  }
}
