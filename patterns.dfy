/**
 * The two regular expressions the line scanners apply to a line, written
 * out as functions over characters. Both libraries run them with
 * backtracking, leftmost match, greedy quantifiers, anchored at the start:
 *
 *   key line   ^(\s*)([^:]+):\s*(.*)
 *   dash line  ^(\s*)-\s*(.*)
 *
 * `ws` is the set `\s` matches and `stop` the set `.` does not match; the
 * two languages differ in both. Each matcher is paired with a declarative
 * description of the ways the regular expression can match, and a lemma
 * shows that the matcher returns the one the regex engine picks.
 */
module Patterns {
  import opened Wrappers
  import opened Text

  /** The groups of a key-line match: |group 1|, group 2 and group 3. */
  datatype KeyMatch = KeyMatch(indent: nat, key: string, rest: string)

  /** The groups of a dash-line match: |group 1| and group 2. */
  datatype DashMatch = DashMatch(indent: nat, rest: string)

  /** `(.*)`: the longest prefix of `s` free of characters in `stop`. */
  function UpTo(s: string, stop: set<char>): (r: string)
    ensures |r| <= |s| && r == s[..|r|]
    ensures forall i :: 0 <= i < |r| ==> r[i] !in stop
    ensures |r| == |s| || s[|r|] in stop
  {
    if s == [] || s[0] in stop then [] else [s[0]] + UpTo(s[1..], stop)
  }

  /** `\s*(.*)` at the end of a pattern: skip whitespace greedily, then take `(.*)`. */
  function RestOfLine(t: string, ws: set<char>, stop: set<char>): string
  {
    UpTo(t[LeadingWs(t, ws)..], stop)
  }

  /** `^(\s*)([^:]+):\s*(.*)` applied to `l`. */
  function KeyLine(l: string, ws: set<char>, stop: set<char>): Option<KeyMatch>
  {
    var c := IndexOf(l, ':');
    if c == |l| || c == 0 then None
    else
      // greedy `\s*` gives back one character when `[^:]+` would otherwise be empty
      var w := LeadingWs(l[..c], ws);
      var a := if w < c then w else c - 1;
      Some(KeyMatch(a, l[a..c], RestOfLine(l[c + 1..], ws, stop)))
  }

  /** One way the key pattern can match `l`: group 1 is `l[..a]` and the colon is at `c`. */
  ghost predicate KeySplit(l: string, ws: set<char>, a: int, c: int)
  {
    0 <= a < c < |l| && l[c] == ':' && AllIn(l[..a], ws) && ':' !in l[a..c]
  }

  /** `KeyLine` matches exactly when the regex can, at the first colon, and
      its group 1 is the longest any match allows (greedy `\s*`). */
  lemma KeyLineSpec(l: string, ws: set<char>, stop: set<char>)
    requires ':' !in ws
    ensures KeyLine(l, ws, stop).None? <==> forall a, c :: !KeySplit(l, ws, a, c)
    ensures KeyLine(l, ws, stop).Some? ==>
      var m := KeyLine(l, ws, stop).value;
      var c := IndexOf(l, ':');
      KeySplit(l, ws, m.indent, c) && m.key == l[m.indent..c] &&
      m.rest == RestOfLine(l[c + 1..], ws, stop) &&
      forall a', c' :: KeySplit(l, ws, a', c') ==> a' <= m.indent && c' == c
  {
    var c := IndexOf(l, ':');
    forall a', c' | KeySplit(l, ws, a', c') ensures c' == c && a' <= LeadingWs(l[..c], ws) {
      KeySplitFirst(l, ws, a', c');
    }
    if KeyLine(l, ws, stop).Some? {
      KeyLineSplit(l, ws, stop);
    }
  }

  /** Any way the key pattern can match puts the colon at the first colon
      of the line and group 1 inside its leading whitespace. */
  lemma KeySplitFirst(l: string, ws: set<char>, a: int, c: int)
    requires ':' !in ws && KeySplit(l, ws, a, c)
    ensures c == IndexOf(l, ':') && a <= LeadingWs(l[..IndexOf(l, ':')], ws)
  {
    assert l[..c] == l[..a] + l[a..c];
    assert ':' !in l[..c];
    LeadingWsCovers(l[..c], ws, a);
  }

  /** The match `KeyLine` returns is one the pattern allows. */
  lemma KeyLineSplit(l: string, ws: set<char>, stop: set<char>)
    requires KeyLine(l, ws, stop).Some?
    ensures var m, c := KeyLine(l, ws, stop).value, IndexOf(l, ':');
      KeySplit(l, ws, m.indent, c) && m.key == l[m.indent..c] &&
      m.rest == RestOfLine(l[c + 1..], ws, stop)
  {
    var c := IndexOf(l, ':');
    var w := LeadingWs(l[..c], ws);
    var a := KeyLine(l, ws, stop).value.indent;
    assert l[..a] == l[..c][..a];
    assert l[a..c] == l[..c][a..];
  }

  /** A whitespace-only prefix is no longer than the leading whitespace count. */
  lemma {:induction false} LeadingWsCovers(s: string, ws: set<char>, a: int)
    requires 0 <= a <= |s| && AllIn(s[..a], ws)
    ensures a <= LeadingWs(s, ws)
  {
    if a > 0 {
      assert s[0] == s[..a][0];
      assert s[1..][..a - 1] == s[..a][1..];
      LeadingWsCovers(s[1..], ws, a - 1);
    }
  }

  /** The key pattern's group 1 never reaches past the line's leading whitespace. */
  lemma KeyIndentBound(l: string, ws: set<char>, stop: set<char>)
    requires KeyLine(l, ws, stop).Some?
    ensures KeyLine(l, ws, stop).value.indent <= LeadingWs(l, ws)
  {
    var c := IndexOf(l, ':');
    var w := LeadingWs(l[..c], ws);
    assert l[..c][..w] == l[..w];
    LeadingWsCovers(l, ws, w);
  }

  /** `^(\s*)-\s*(.*)` applied to `l`. */
  function DashLine(l: string, ws: set<char>, stop: set<char>): Option<DashMatch>
  {
    var w := LeadingWs(l, ws);
    if w < |l| && l[w] == '-' then Some(DashMatch(w, RestOfLine(l[w + 1..], ws, stop)))
    else None
  }

  /** One way the dash pattern can match `l`: group 1 is `l[..a]`. */
  ghost predicate DashSplit(l: string, ws: set<char>, a: int)
  {
    0 <= a < |l| && l[a] == '-' && AllIn(l[..a], ws)
  }

  /** `DashLine` matches exactly when the first character after the leading
      whitespace is a dash, and that is the only way the regex can match. */
  lemma DashLineSpec(l: string, ws: set<char>, stop: set<char>)
    requires '-' !in ws
    ensures DashLine(l, ws, stop).None? <==> forall a :: !DashSplit(l, ws, a)
    ensures DashLine(l, ws, stop).Some? ==>
      var d := DashLine(l, ws, stop).value;
      DashSplit(l, ws, d.indent) && d.indent == LeadingWs(l, ws) &&
      d.rest == RestOfLine(l[d.indent + 1..], ws, stop) &&
      forall a :: DashSplit(l, ws, a) ==> a == d.indent
  {
    var w := LeadingWs(l, ws);
    forall a | DashSplit(l, ws, a) ensures a == w {
      LeadingWsCovers(l, ws, a);
    }
    if w < |l| && l[w] == '-' {
      assert DashSplit(l, ws, w);
    }
  }
}
