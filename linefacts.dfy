/**
 * What the line scanners learn about one line before deciding what to do
 * with it, and the look-ahead loop both parsers run over the lines that
 * follow a `key:` line.
 *
 * A line is tested for being blank and for being a comment, and matched
 * against the key-line and dash-line patterns, with each captured value
 * stripped and run through the scalar parser. The scanners consult a line
 * only through these facts, so their loops are stated over sequences of
 * `LineInfo`; each scanner module says how it computes them from the text,
 * with its own whitespace set. The lemmas here relate the facts to the
 * characters of the line, for any whitespace set that holds none of the
 * characters the patterns look for.
 */
module LineFacts {
  import opened Wrappers
  import opened Text
  import opened Values
  import opened Patterns

  /** A line the key pattern matches: indentation (group 1), stripped key
      (group 2), stripped value (group 3) and that value parsed. */
  datatype KeyInfo = KeyInfo(indent: nat, key: string, value: string, parsed: Value)

  /** A line the dash pattern matches: indentation and the stripped item parsed. */
  datatype DashInfo = DashInfo(indent: nat, item: Value)

  datatype LineInfo = LineInfo(blank: bool, comment: bool, key: Option<KeyInfo>, dash: Option<DashInfo>)

  /** Every value a line carries is a leaf, as the scalar parsers guarantee. */
  predicate ScalarInfo(l: LineInfo)
  {
    (l.key.Some? ==> IsScalar(l.key.value.parsed)) && (l.dash.Some? ==> IsScalar(l.dash.value.item))
  }

  predicate AllScalarInfo(ls: seq<LineInfo>)
  {
    forall j :: 0 <= j < |ls| ==> ScalarInfo(ls[j])
  }

  /** The first line at or after `k` that is not blank, or `|ls|` if there is none. */
  function NextNonBlank(ls: seq<LineInfo>, k: nat): (f: nat)
    requires k <= |ls|
    ensures k <= f <= |ls|
    ensures forall j :: k <= j < f ==> ls[j].blank
    ensures f == |ls| || !ls[f].blank
    decreases |ls| - k
  {
    if k == |ls| || !ls[k].blank then k else NextNonBlank(ls, k + 1)
  }

  /** Line `i` is a section header `key:` that the outer loop acts on: a
      key line, not blank and no comment, with an empty value. */
  predicate HeaderLine(ls: seq<LineInfo>, i: nat)
    requires i < |ls|
  {
    !ls[i].blank && !ls[i].comment && ls[i].key.Some? && ls[i].key.value.value == []
  }

  // ---------------------------------------------------------------------
  // The line tests
  // ---------------------------------------------------------------------

  /** `not line.strip()` / `!line.trim()`. */
  predicate BlankLine(line: string, ws: set<char>)
  {
    Strip(line, ws) == []
  }

  /** `line.strip().startswith('#')` / `line.trim().startsWith('#')`. */
  predicate CommentLine(line: string, ws: set<char>)
  {
    StartsWith(Strip(line, ws), "#")
  }

  /** None of the characters the line tests look for is whitespace. */
  predicate PlainSpace(ws: set<char>)
  {
    ':' !in ws && '-' !in ws && '#' !in ws
  }

  lemma PlainSpaces()
    ensures PlainSpace(PyWhitespace) && PlainSpace(JsWhitespace)
  {
  }

  /** A line of whitespace only is blank, no comment, and matches neither pattern. */
  lemma LineBlank(raw: string, ws: set<char>, stop: set<char>)
    requires PlainSpace(ws)
    requires AllIn(raw, ws)
    ensures var line := RStrip(raw, ws);
      BlankLine(line, ws) && !CommentLine(line, ws) &&
      KeyLine(line, ws, stop).None? && DashLine(line, ws, stop).None?
  {
    RStripAll(raw, ws);
  }

  /** Right-stripping a string of whitespace only leaves nothing. */
  lemma RStripAll(raw: string, ws: set<char>)
    requires AllIn(raw, ws)
    ensures RStrip(raw, ws) == []
  {
  }

  /** A line whose first character past the indentation is `#` is a comment
      and no dash line (whether it matches the key pattern is up to its
      colons, as for any other line: see `LineKey`). */
  lemma LineComment(raw: string, ws: set<char>, stop: set<char>)
    requires PlainSpace(ws)
    requires var w := LeadingWs(raw, ws); w < |raw| && raw[w] == '#'
    ensures var line := RStrip(raw, ws);
      CommentLine(line, ws) && !BlankLine(line, ws) && DashLine(line, ws, stop).None?
  {
    var w := LeadingWs(raw, ws);
    FirstNonSpaceKept(raw, ws, w);
    FirstNonSpaceStrip(RStrip(raw, ws), ws, w);
    StartsWithFirst(Strip(RStrip(raw, ws), ws));
  }

  /** Stripping a line starts the result at its first character that is not whitespace. */
  lemma FirstNonSpaceStrip(line: string, ws: set<char>, w: nat)
    requires w < |line| && LeadingWs(line, ws) == w
    ensures var r := Strip(line, ws); r != [] && r[0] == line[w]
  {
    assert !AllIn(line, ws);
  }

  /** A line whose first character past the indentation is `-` is a dash
      line at that indentation, whatever else it holds (a colon included). */
  lemma LineDash(raw: string, ws: set<char>, stop: set<char>)
    requires PlainSpace(ws)
    requires var w := LeadingWs(raw, ws); w < |raw| && raw[w] == '-'
    ensures var line := RStrip(raw, ws);
      var d := DashLine(line, ws, stop);
      !BlankLine(line, ws) && !CommentLine(line, ws) && d.Some? && d.value.indent == LeadingWs(raw, ws)
  {
    var w := LeadingWs(raw, ws);
    var line := RStrip(raw, ws);
    FirstNonSpaceKept(raw, ws, w);
    FirstNonSpaceStrip(line, ws, w);
    var r := Strip(line, ws);
    assert r[..1] != "#" by { assert r[..1][0] == '-'; }
  }

  /** A line matches the key pattern exactly when it holds a colon and does
      not start with one. */
  lemma LineKey(raw: string, ws: set<char>, stop: set<char>)
    requires PlainSpace(ws)
    ensures KeyLine(RStrip(raw, ws), ws, stop).Some? <==> ':' in raw && raw[0] != ':'
  {
    var line := RStrip(raw, ws);
    if ':' in raw {
      var i :| 0 <= i < |raw| && raw[i] == ':';
      assert line[i] == ':';
      assert line[0] == raw[0];
    } else {
      assert ':' !in line;
    }
  }

  /** Right-stripping keeps the first character that is not whitespace, and
      the indentation before it. */
  lemma FirstNonSpaceKept(raw: string, ws: set<char>, w: nat)
    requires w == LeadingWs(raw, ws) && w < |raw|
    ensures var line := RStrip(raw, ws);
      w < |line| && line[w] == raw[w] && LeadingWs(line, ws) == w
  {
    var line := RStrip(raw, ws);
    assert forall i :: |line| <= i < |raw| ==> raw[i] == raw[|line|..][i - |line|];
    assert forall i :: 0 <= i < |line| ==> line[i] == raw[i];
  }

  // ---------------------------------------------------------------------
  // The look-ahead loop
  // ---------------------------------------------------------------------

  /** Which dash lines a list loop accepts: the first-level list loop takes
      items at exactly the first item's indentation, the nested one items
      indented more than their key. */
  datatype Fit = SameIndent(level: nat) | DeeperThan(level: nat)

  predicate Fits(d: DashInfo, fit: Fit)
  {
    match fit
    case SameIndent(level) => d.indent == level
    case DeeperThan(level) => d.indent > level
  }

  /** Line `j` is a dash line the list loop accepts. */
  predicate FitLine(ls: seq<LineInfo>, j: nat, fit: Fit)
    requires j < |ls|
  {
    ls[j].dash.Some? && Fits(ls[j].dash.value, fit)
  }

  /** The list loops: skip blank lines, append each accepted dash item, stop
      at any other line. Returns the items and the index of the line that
      stopped the loop. */
  function DashRun(ls: seq<LineInfo>, j: nat, fit: Fit, acc: seq<Value>): (r: (seq<Value>, nat))
    requires j <= |ls|
    ensures j <= r.1 <= |ls|
    decreases |ls| - j
  {
    if j == |ls| then (acc, j)
    else if ls[j].blank then DashRun(ls, j + 1, fit, acc)
    else if FitLine(ls, j, fit) then DashRun(ls, j + 1, fit, acc + [ls[j].dash.value.item])
    else (acc, j)
  }

  /** The items of the dash lines among lines `from` to `to - 1`, in order. */
  function ItemsOf(ls: seq<LineInfo>, from: nat, to: nat): seq<Value>
    requires from <= to <= |ls|
    decreases |ls| - from
  {
    if from == to then []
    else
      var here := if !ls[from].blank && ls[from].dash.Some? then [ls[from].dash.value.item] else [];
      here + ItemsOf(ls, from + 1, to)
  }

  /** A list loop stops at the first line that is neither blank nor an
      accepted dash line, having appended the items of the lines before it. */
  lemma {:induction false} DashRunStops(ls: seq<LineInfo>, k: nat, fit: Fit, acc: seq<Value>)
    requires k <= |ls|
    ensures var (items, e) := DashRun(ls, k, fit, acc);
      (forall j :: k <= j < e ==> ls[j].blank || FitLine(ls, j, fit)) &&
      (e == |ls| || (!ls[e].blank && !FitLine(ls, e, fit))) &&
      items == acc + ItemsOf(ls, k, e)
    decreases |ls| - k
  {
    if k < |ls| && ls[k].blank {
      DashRunStops(ls, k + 1, fit, acc);
    } else if k < |ls| && FitLine(ls, k, fit) {
      var item := ls[k].dash.value.item;
      DashRunStops(ls, k + 1, fit, acc + [item]);
      var e := DashRun(ls, k, fit, acc).1;
      assert acc + [item] + ItemsOf(ls, k + 1, e) == acc + ([item] + ItemsOf(ls, k + 1, e));
    }
  }

  /** Conversely, any line that ends such a run is where the loop stops. */
  lemma {:induction false} DashRunEnds(ls: seq<LineInfo>, k: nat, e: nat, fit: Fit, acc: seq<Value>)
    requires k <= e <= |ls|
    requires forall j :: k <= j < e ==> ls[j].blank || FitLine(ls, j, fit)
    requires e == |ls| || (!ls[e].blank && !FitLine(ls, e, fit))
    ensures DashRun(ls, k, fit, acc) == (acc + ItemsOf(ls, k, e), e)
    decreases |ls| - k
  {
    if k < e && ls[k].blank {
      DashRunEnds(ls, k + 1, e, fit, acc);
      assert ItemsOf(ls, k, e) == [] + ItemsOf(ls, k + 1, e) == ItemsOf(ls, k + 1, e);
    } else if k < e {
      assert FitLine(ls, k, fit);
      var item := ls[k].dash.value.item;
      DashRunEnds(ls, k + 1, e, fit, acc + [item]);
      assert acc + [item] + ItemsOf(ls, k + 1, e) == acc + ([item] + ItemsOf(ls, k + 1, e));
    } else {
      assert acc + [] == acc;
    }
  }

  lemma {:induction false} ItemsOfBlank(ls: seq<LineInfo>, from: nat, to: nat)
    requires from <= to <= |ls|
    requires forall j :: from <= j < to ==> ls[j].blank
    ensures ItemsOf(ls, from, to) == []
    decreases |ls| - from
  {
    if from < to {
      ItemsOfBlank(ls, from + 1, to);
    }
  }

  lemma {:induction false} ItemsOfHas(ls: seq<LineInfo>, from: nat, to: nat, f: nat)
    requires from <= f < to <= |ls|
    requires !ls[f].blank && ls[f].dash.Some?
    ensures ItemsOf(ls, from, to) != []
    decreases |ls| - from
  {
    if from < f {
      ItemsOfHas(ls, from + 1, to, f);
    }
  }

  predicate AllScalar(vs: seq<Value>)
  {
    forall i :: 0 <= i < |vs| ==> IsScalar(vs[i])
  }

  lemma {:induction false} DashRunScalar(ls: seq<LineInfo>, k: nat, fit: Fit, acc: seq<Value>)
    requires k <= |ls| && AllScalarInfo(ls) && AllScalar(acc)
    ensures AllScalar(DashRun(ls, k, fit, acc).0)
    decreases |ls| - k
  {
    if k < |ls| && ls[k].blank {
      DashRunScalar(ls, k + 1, fit, acc);
    } else if k < |ls| && FitLine(ls, k, fit) {
      assert ScalarInfo(ls[k]);
      DashRunScalar(ls, k + 1, fit, acc + [ls[k].dash.value.item]);
    }
  }
}
