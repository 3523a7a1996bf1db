/**
 * `viash_parse_yaml` of the Python parser: a scanner over the lines of the
 * stripped content with exactly two hard-coded nesting levels.
 *
 * The outer loop (index `i`) reads `key: value` lines at any indentation. A
 * header `key:` starts the section loop (index `j`), which gathers every
 * following line indented more than the header into one dictionary, at any
 * depth. Inside it, a key with an empty value starts the look-ahead loop
 * (index `k`) for dash items. A dash line that comes first in a section
 * starts a list loop of its own, whose result the outer loop then replaces.
 *
 * The loops consult a line only through `Classify`, so they are stated over
 * the classified lines. Each loop is specified by a tail-recursive function
 * over the line index (DashRun, Section, Scan); the methods run the loops
 * and are proved to compute those functions, and the lemmas state what the
 * functions do.
 */
module PyYaml {
  import opened Wrappers
  import opened Text
  import opened Values
  import opened Patterns
  import opened LineFacts
  import PyScalar

  /** `yaml_content.strip().split('\n')`. */
  function Lines(content: string): seq<string>
  {
    Split(Strip(content, PyWhitespace), '\n')
  }

  /** What the loops compute about `lines[i]`: the line is rstripped, tested
      for being blank and for being a comment, and matched against
      `^(\s*)([^:]+):\s*(.*)` and `^(\s*)-\s*(.*)`; each captured value is
      stripped and passed to `_parse_value`. */
  function Classify(raw: string): LineInfo
  {
    var line := RStrip(raw, PyWhitespace);
    LineInfo(
      BlankLine(line, PyWhitespace),
      CommentLine(line, PyWhitespace),
      match KeyLine(line, PyWhitespace, PyLineBreaks)
      case None => None
      case Some(m) =>
        var value := Strip(m.rest, PyWhitespace);
        Some(KeyInfo(m.indent, Strip(m.key, PyWhitespace), value, PyScalar.ParseValue(value))),
      match DashLine(line, PyWhitespace, PyLineBreaks)
      case None => None
      case Some(d) => Some(DashInfo(d.indent, PyScalar.ParseValue(Strip(d.rest, PyWhitespace)))))
  }

  function Infos(lines: seq<string>): (ls: seq<LineInfo>)
    ensures |ls| == |lines|
    ensures forall i :: 0 <= i < |lines| ==> ls[i] == Classify(lines[i])
  {
    if lines == [] then [] else [Classify(lines[0])] + Infos(lines[1..])
  }

  /** How the section loop ends: at a line that closes the section, or by
      meeting a dash line first and collecting a list. */
  datatype SectionEnd =
    | Closed(next: nat, nested: seq<Entry>)
    | ListFound(next: nat, items: seq<Value>, nested: seq<Entry>)

  /** The section loop of a header whose key is indented `indent`. */
  function Section(ls: seq<LineInfo>, j: nat, indent: nat, nested: seq<Entry>): (r: SectionEnd)
    requires j <= |ls|
    ensures j <= r.next <= |ls|
    decreases |ls| - j
  {
    if j == |ls| then Closed(j, nested)
    else if ls[j].blank then Section(ls, j + 1, indent, nested)
    else match ls[j].dash
      case Some(d) =>
        if d.indent > indent then
          var (items, next) := DashRun(ls, j + 1, SameIndent(d.indent), [d.item]);
          ListFound(next, items, nested)
        else Closed(j, nested)
      case None =>
        match ls[j].key
        case None => Closed(j, nested)
        case Some(m) =>
          if m.indent <= indent then Closed(j, nested)
          else if m.value != [] then Section(ls, j + 1, indent, Put(nested, m.key, m.parsed))
          else
            var (items, k) := DashRun(ls, j + 1, DeeperThan(m.indent), []);
            if items != [] then Section(ls, k, indent, Put(nested, m.key, List(items)))
            else Section(ls, j + 1, indent, Put(nested, m.key, Null))
  }

  /** Where the outer loop resumes after the section of the header on line
      `i`, and the dictionary it resumes with. A list found first in the
      section is stored and then overwritten. */
  function AfterSection(i: nat, key: string, section: SectionEnd, result: seq<Entry>): (r: (nat, seq<Entry>))
    requires i < section.next
    ensures r.0 > i
  {
    match section
    case Closed(j, nested) =>
      if nested != [] then (j, Put(result, key, Dict(nested)))
      else (i + 1, Put(result, key, Dict([])))
    case ListFound(j, items, nested) =>
      var withList := Put(result, key, List(items));
      if nested != [] then (j, Put(withList, key, Dict(nested)))
      else (j + 1, Put(withList, key, Dict([])))
  }

  /** The outer loop, from line `i` with the dictionary built so far. */
  function Scan(ls: seq<LineInfo>, i: nat, result: seq<Entry>): seq<Entry>
    decreases |ls| - i
  {
    if i >= |ls| then result
    else if ls[i].blank || ls[i].comment then Scan(ls, i + 1, result)
    else match ls[i].key
      case None => Scan(ls, i + 1, result)
      case Some(m) =>
        if m.value != [] then Scan(ls, i + 1, Put(result, m.key, m.parsed))
        else
          var (next, updated) := AfterSection(i, m.key, Section(ls, i + 1, m.indent, []), result);
          Scan(ls, next, updated)
  }

  /** `viash_parse_yaml` applied to `content`. */
  function Parse(content: string): seq<Entry>
  {
    Scan(Infos(Lines(content)), 0, [])
  }

  /** The outer loop passes over, without assigning anything, a line of
      whitespace only, a line whose first character past the indentation
      is `#`, a line with no colon, and a line that starts with a colon. */
  lemma LineDropped(lines: seq<string>, i: nat, r: seq<Entry>)
    requires i < |lines|
    requires var raw, w := lines[i], LeadingWs(lines[i], PyWhitespace);
      AllIn(raw, PyWhitespace) || (w < |raw| && raw[w] == '#') || ':' !in raw || raw[0] == ':'
    ensures Scan(Infos(lines), i, r) == Scan(Infos(lines), i + 1, r)
  {
    var raw, w := lines[i], LeadingWs(lines[i], PyWhitespace);
    PlainSpaces();
    if AllIn(raw, PyWhitespace) {
      LineBlank(raw, PyWhitespace, PyLineBreaks);
      assert Infos(lines)[i].blank;
    } else if w < |raw| && raw[w] == '#' {
      LineComment(raw, PyWhitespace, PyLineBreaks);
      assert Infos(lines)[i].comment;
    } else {
      LineKey(raw, PyWhitespace, PyLineBreaks);
      assert Infos(lines)[i].key.None?;
    }
  }

  // ---------------------------------------------------------------------
  // The loops
  // ---------------------------------------------------------------------

  /** The list loops (lines 76-91 and 115-130). */
  method ScanDashRun(ls: seq<LineInfo>, start: nat, fit: Fit, first: seq<Value>)
    returns (items: seq<Value>, next: nat)
    requires start <= |ls|
    ensures (items, next) == DashRun(ls, start, fit, first)
  {
    items, next := first, start;
    while next < |ls|
      invariant start <= next <= |ls|
      invariant DashRun(ls, next, fit, items) == DashRun(ls, start, fit, first)
      decreases |ls| - next
    {
      if ls[next].blank {
        next := next + 1;
      } else if FitLine(ls, next, fit) {
        items := items + [ls[next].dash.value.item];
        next := next + 1;
      } else {
        break;
      }
    }
  }

  /** The section loop (lines 53-147). */
  method ScanSection(ls: seq<LineInfo>, start: nat, indent: nat) returns (outcome: SectionEnd)
    requires start <= |ls|
    ensures outcome == Section(ls, start, indent, [])
  {
    var j := start;
    var nestedDict: seq<Entry> := [];
    while j < |ls|
      invariant start <= j <= |ls|
      invariant Section(ls, j, indent, nestedDict) == Section(ls, start, indent, [])
      decreases |ls| - j
    {
      if ls[j].blank {
        j := j + 1;
        continue;
      }
      var arrayMatch := ls[j].dash;
      if arrayMatch.Some? {
        if arrayMatch.value.indent > indent {
          var items, next := ScanDashRun(ls, j + 1, SameIndent(arrayMatch.value.indent), [arrayMatch.value.item]);
          return ListFound(next, items, nestedDict);
        }
        break;
      }
      var nextMatch := ls[j].key;
      if nextMatch.None? || nextMatch.value.indent <= indent {
        break;
      }
      var m := nextMatch.value;
      if m.value == [] {
        var nestedArrayItems, k := ScanDashRun(ls, j + 1, DeeperThan(m.indent), []);
        if nestedArrayItems != [] {
          nestedDict := Put(nestedDict, m.key, List(nestedArrayItems));
          j := k;
        } else {
          nestedDict := Put(nestedDict, m.key, Null);
          j := j + 1;
        }
      } else {
        nestedDict := Put(nestedDict, m.key, m.parsed);
        j := j + 1;
      }
    }
    outcome := Closed(j, nestedDict);
  }

  /** The outer loop (lines 35-162) over the classified lines. */
  method ScanDocument(ls: seq<LineInfo>) returns (result: seq<Entry>)
    ensures result == Scan(ls, 0, [])
  {
    result := [];
    var i := 0;
    while i < |ls|
      invariant Scan(ls, i, result) == Scan(ls, 0, [])
      decreases |ls| - i
    {
      if ls[i].blank || ls[i].comment || ls[i].key.None? {
        i := i + 1;
        continue;
      }
      var m := ls[i].key.value;
      if m.value != [] {
        result := Put(result, m.key, m.parsed);
        i := i + 1;
        continue;
      }
      var section := ScanSection(ls, i + 1, m.indent);
      ghost var before, header := i, result;
      if section.ListFound? {
        result := Put(result, m.key, List(section.items));
        i := section.next;
      }
      if section.nested != [] {
        result := Put(result, m.key, Dict(section.nested));
        i := section.next;
      } else {
        result := Put(result, m.key, Dict([]));
        i := i + 1;
      }
      assert (i, result) == AfterSection(before, m.key, section, header);
    }
  }

  /** `viash_parse_yaml(yaml_content)` (lines 3-162). */
  method ParseYaml(content: string) returns (result: seq<Entry>)
    ensures result == Parse(content)
  {
    var lines := Lines(content);
    result := ScanDocument(Infos(lines));
  }

  /** A `key: value` line inside a section: no dash, indented past the header. */
  predicate EntryLine(ls: seq<LineInfo>, j: nat, h: nat)
    requires j < |ls|
  {
    !ls[j].blank && ls[j].dash.None? && ls[j].key.Some? && ls[j].key.value.indent > h
  }

  /** Line `e` (or the end of the input) closes a section whose header is indented `h`. */
  predicate Closes(ls: seq<LineInfo>, e: nat, h: nat)
    requires e <= |ls|
  {
    e == |ls| ||
    (!ls[e].blank &&
     match ls[e].dash
     case Some(d) => d.indent <= h
     case None => ls[e].key.None? || ls[e].key.value.indent <= h)
  }

  /** What a nested key contributes when no dash items follow it. */
  function EntryValue(m: KeyInfo): Value
  {
    if m.value != [] then m.parsed else Null
  }

  /** The entries of lines `from` to `to - 1`, assigned in order. */
  function EntriesOf(ls: seq<LineInfo>, from: nat, to: nat, h: nat, nested: seq<Entry>): seq<Entry>
    requires from <= to <= |ls|
    decreases |ls| - from
  {
    if from == to then nested
    else
      var next := if EntryLine(ls, from, h) then Put(nested, ls[from].key.value.key, EntryValue(ls[from].key.value)) else nested;
      EntriesOf(ls, from + 1, to, h, next)
  }

  /** Blank lines are passed over inside a section. */
  lemma {:induction false} SectionSkipBlank(ls: seq<LineInfo>, k: nat, f: nat, h: nat, nested: seq<Entry>)
    requires k <= f <= |ls|
    requires forall j :: k <= j < f ==> ls[j].blank
    ensures Section(ls, k, h, nested) == Section(ls, f, h, nested)
    decreases |ls| - k
  {
    if k < f {
      SectionSkipBlank(ls, k + 1, f, h, nested);
    }
  }

  /** A section of plain `key: value` lines indented past the header: every
      key is assigned in order (an empty value as None), at any depth, and
      the section closes at the first line that is neither blank nor such a
      key line: a dash or key line not indented past the header, or a line
      matching neither pattern at any depth, such as a colon-free comment
      `    # note`. Whatever depth they sit at, all entries land in one
      dictionary. */
  lemma {:induction false} SectionRun(ls: seq<LineInfo>, s: nat, e: nat, h: nat, nested: seq<Entry>)
    requires s <= e <= |ls|
    requires forall j :: s <= j < e ==> ls[j].blank || EntryLine(ls, j, h)
    requires Closes(ls, e, h)
    ensures Section(ls, s, h, nested) == Closed(e, EntriesOf(ls, s, e, h, nested))
    decreases |ls| - s
  {
    if s < e && !ls[s].blank {
      var m := ls[s].key.value;
      if m.value == [] {
        var f := NextNonBlank(ls, s + 1);
        DashRunEnds(ls, s + 1, f, DeeperThan(m.indent), []);
        ItemsOfBlank(ls, s + 1, f);
      }
      SectionRun(ls, s + 1, e, h, Put(nested, m.key, EntryValue(m)));
    } else if s < e {
      SectionRun(ls, s + 1, e, h, nested);
    }
  }

  /** A nested key with an empty value followed by dash items deeper than it
      takes those items as a list, and the section resumes after them. */
  lemma SectionKeyList(ls: seq<LineInfo>, j: nat, h: nat, nested: seq<Entry>)
    requires j < |ls| && EntryLine(ls, j, h) && ls[j].key.value.value == []
    requires var f := NextNonBlank(ls, j + 1); f < |ls| && FitLine(ls, f, DeeperThan(ls[j].key.value.indent))
    ensures var m := ls[j].key.value;
      var (items, k) := DashRun(ls, j + 1, DeeperThan(m.indent), []);
      items != [] && items == ItemsOf(ls, j + 1, k) &&
      Section(ls, j, h, nested) == Section(ls, k, h, Put(nested, m.key, List(items)))
  {
    var m := ls[j].key.value;
    var f := NextNonBlank(ls, j + 1);
    DashRunStops(ls, j + 1, DeeperThan(m.indent), []);
    var k := DashRun(ls, j + 1, DeeperThan(m.indent), []).1;
    assert f < k;
    ItemsOfHas(ls, j + 1, k, f);
  }

  /** A run of plain `key: value` entries indented past the header that ends
      at a dash line deeper than the header: the section loop collects the
      entries, then takes the dash line as the start of a first-level list
      and leaves with that list and the entries collected so far. */
  lemma {:induction false} SectionRunThenList(ls: seq<LineInfo>, s: nat, e: nat, h: nat, nested: seq<Entry>)
    requires s <= e < |ls|
    requires forall j :: s <= j < e ==> ls[j].blank || (EntryLine(ls, j, h) && ls[j].key.value.value != [])
    requires !ls[e].blank && ls[e].dash.Some? && ls[e].dash.value.indent > h
    ensures var d := ls[e].dash.value;
      var (items, k) := DashRun(ls, e + 1, SameIndent(d.indent), [d.item]);
      Section(ls, s, h, nested) == ListFound(k, items, EntriesOf(ls, s, e, h, nested))
    decreases e - s
  {
    if s < e {
      if ls[s].blank {
        SectionRunThenList(ls, s + 1, e, h, nested);
      } else {
        var m := ls[s].key.value;
        SectionRunThenList(ls, s + 1, e, h, Put(nested, m.key, m.parsed));
      }
    }
  }

  // ---------------------------------------------------------------------
  // The outer loop
  // ---------------------------------------------------------------------

  /** A header followed by a run of plain entries: when there is at least one,
      the header gets them as a dictionary and scanning resumes at the line
      that closed the section; otherwise the header gets an empty dictionary
      (not None) and scanning resumes on the line after it. */
  lemma SectionHeader(ls: seq<LineInfo>, i: nat, e: nat, r: seq<Entry>)
    requires i < e <= |ls| && HeaderLine(ls, i)
    requires forall j :: i < j < e ==> ls[j].blank || EntryLine(ls, j, ls[i].key.value.indent)
    requires Closes(ls, e, ls[i].key.value.indent)
    ensures var m := ls[i].key.value;
      var nested := EntriesOf(ls, i + 1, e, m.indent, []);
      Scan(ls, i, r) ==
        if nested != [] then Scan(ls, e, Put(r, m.key, Dict(nested)))
        else Scan(ls, i + 1, Put(r, m.key, Dict([])))
  {
    SectionRun(ls, i + 1, e, ls[i].key.value.indent, []);
  }

  lemma {:induction false} EntriesOfBlank(ls: seq<LineInfo>, from: nat, to: nat, h: nat, nested: seq<Entry>)
    requires from <= to <= |ls|
    requires forall j :: from <= j < to ==> ls[j].blank
    ensures EntriesOf(ls, from, to, h, nested) == nested
    decreases |ls| - from
  {
    if from < to {
      EntriesOfBlank(ls, from + 1, to, h, nested);
    }
  }

  /** A header with nothing indented under it gets an empty dictionary. */
  lemma EmptyHeader(ls: seq<LineInfo>, i: nat, r: seq<Entry>)
    requires i < |ls| && HeaderLine(ls, i)
    requires Closes(ls, NextNonBlank(ls, i + 1), ls[i].key.value.indent)
    ensures Scan(ls, i, r) == Scan(ls, i + 1, Put(r, ls[i].key.value.key, Dict([])))
  {
    var e := NextNonBlank(ls, i + 1);
    EntriesOfBlank(ls, i + 1, e, ls[i].key.value.indent, []);
    SectionHeader(ls, i, e, r);
  }

  /** A header whose first line below is a deeper dash line: the items are
      collected as a list, the list is then overwritten by an empty
      dictionary, and the line that ended the list is skipped unread. */
  lemma HeaderThenList(ls: seq<LineInfo>, i: nat, r: seq<Entry>)
    requires i < |ls| && HeaderLine(ls, i)
    requires var f := NextNonBlank(ls, i + 1);
      f < |ls| && ls[f].dash.Some? && ls[f].dash.value.indent > ls[i].key.value.indent
    ensures var f := NextNonBlank(ls, i + 1);
      var d := ls[f].dash.value;
      var (items, e) := DashRun(ls, f + 1, SameIndent(d.indent), [d.item]);
      Scan(ls, i, r) == Scan(ls, e + 1, Put(r, ls[i].key.value.key, Dict([])))
  {
    var m := ls[i].key.value;
    var f := NextNonBlank(ls, i + 1);
    SectionSkipBlank(ls, i + 1, f, m.indent, []);
    var d := ls[f].dash.value;
    var (items, e) := DashRun(ls, f + 1, SameIndent(d.indent), [d.item]);
    var sec := Section(ls, i + 1, m.indent, []);
    assert sec == ListFound(e, items, []);
    assert AfterSection(i, m.key, sec, r) == (e + 1, Put(Put(r, m.key, List(items)), m.key, Dict([])));
    PutPut(r, m.key, List(items), Dict([]));
  }

  /** A header over plain entries and then a dash line deeper than the
      header: the list is stored and overwritten at once. With at least one
      entry, the header keeps the entries as a dictionary, the list is lost,
      and scanning resumes at the line that ended the list; with none, the
      header gets an empty dictionary and that line is skipped unread. */
  lemma HeaderEntriesThenList(ls: seq<LineInfo>, i: nat, e: nat, r: seq<Entry>)
    requires i < e < |ls| && HeaderLine(ls, i)
    requires forall j :: i < j < e ==>
      ls[j].blank || (EntryLine(ls, j, ls[i].key.value.indent) && ls[j].key.value.value != [])
    requires !ls[e].blank && ls[e].dash.Some? && ls[e].dash.value.indent > ls[i].key.value.indent
    ensures var m, d := ls[i].key.value, ls[e].dash.value;
      var (items, k) := DashRun(ls, e + 1, SameIndent(d.indent), [d.item]);
      var nested := EntriesOf(ls, i + 1, e, m.indent, []);
      Scan(ls, i, r) ==
        if nested != [] then Scan(ls, k, Put(r, m.key, Dict(nested)))
        else Scan(ls, k + 1, Put(r, m.key, Dict([])))
  {
    var m, d := ls[i].key.value, ls[e].dash.value;
    var (items, k) := DashRun(ls, e + 1, SameIndent(d.indent), [d.item]);
    var nested := EntriesOf(ls, i + 1, e, m.indent, []);
    SectionRunThenList(ls, i + 1, e, m.indent, []);
    assert Section(ls, i + 1, m.indent, []) == ListFound(k, items, nested);
    PutPut(r, m.key, List(items), Dict(nested));
    PutPut(r, m.key, List(items), Dict([]));
  }

  /** Line `i` is no section header. */
  predicate Flat(ls: seq<LineInfo>, i: nat)
    requires i < |ls|
  {
    ls[i].blank || ls[i].comment || ls[i].key.None? || ls[i].key.value.value != []
  }

  /** The value of the last `key: value` line for `k` from line `i` on. */
  function LastValue(ls: seq<LineInfo>, i: nat, k: string): Option<Value>
    decreases |ls| - i
  {
    if i >= |ls| then None
    else match LastValue(ls, i + 1, k)
      case Some(v) => Some(v)
      case None =>
        if !ls[i].blank && !ls[i].comment && ls[i].key.Some? && ls[i].key.value.key == k
        then Some(ls[i].key.value.parsed) else None
  }

  /** Without section headers the parser is a flat dictionary in which the
      last line for a key wins, at whatever indentation it stands. */
  lemma {:induction false} FlatLookup(ls: seq<LineInfo>, i: nat, r: seq<Entry>, k: string)
    requires forall j :: i <= j < |ls| ==> Flat(ls, j)
    ensures Get(Scan(ls, i, r), k) == match LastValue(ls, i, k) case Some(v) => Some(v) case None => Get(r, k)
    decreases |ls| - i
  {
    if i < |ls| {
      if ls[i].blank || ls[i].comment || ls[i].key.None? {
        FlatLookup(ls, i + 1, r, k);
      } else {
        assert Flat(ls, i);
        var m := ls[i].key.value;
        PutGet(r, m.key, m.parsed);
        FlatLookup(ls, i + 1, Put(r, m.key, m.parsed), k);
      }
    }
  }

  // ---------------------------------------------------------------------
  // Shape of the result
  // ---------------------------------------------------------------------

  /** A section dictionary: distinct keys, every value leafy. */
  predicate SectionShape(es: seq<Entry>)
  {
    UniqueKeys(es) && forall e :: e in es ==> Leafy(e.val)
  }

  /** A top-level value: leafy, or a section dictionary. */
  predicate TopShape(v: Value)
  {
    Leafy(v) || (v.Dict? && SectionShape(v.entries))
  }

  /** The whole result: distinct keys, every value a top-level value. */
  predicate DocShape(es: seq<Entry>)
  {
    UniqueKeys(es) && forall e :: e in es ==> TopShape(e.val)
  }

  lemma PutSectionShape(es: seq<Entry>, k: string, v: Value)
    requires SectionShape(es) && Leafy(v)
    ensures SectionShape(Put(es, k, v))
  {
    PutUnique(es, k, v);
    PutEntries(es, k, v);
  }

  lemma PutDocShape(es: seq<Entry>, k: string, v: Value)
    requires DocShape(es) && TopShape(v)
    ensures DocShape(Put(es, k, v))
  {
    PutUnique(es, k, v);
    PutEntries(es, k, v);
  }

  /** A section holds only leaves and lists of leaves, under distinct keys. */
  lemma {:induction false} SectionShapeKept(ls: seq<LineInfo>, j: nat, h: nat, nested: seq<Entry>)
    requires j <= |ls| && AllScalarInfo(ls) && SectionShape(nested)
    ensures var r := Section(ls, j, h, nested);
      SectionShape(r.nested) && (r.ListFound? ==> AllScalar(r.items))
    decreases |ls| - j
  {
    if j < |ls| && !ls[j].blank {
      assert ScalarInfo(ls[j]);
      match ls[j].dash
      case Some(d) =>
        if d.indent > h {
          DashRunScalar(ls, j + 1, SameIndent(d.indent), [d.item]);
        }
      case None =>
        if ls[j].key.Some? && ls[j].key.value.indent > h {
          var m := ls[j].key.value;
          if m.value != [] {
            PutSectionShape(nested, m.key, m.parsed);
            SectionShapeKept(ls, j + 1, h, Put(nested, m.key, m.parsed));
          } else {
            var (items, k) := DashRun(ls, j + 1, DeeperThan(m.indent), []);
            DashRunScalar(ls, j + 1, DeeperThan(m.indent), []);
            if items != [] {
              PutSectionShape(nested, m.key, List(items));
              SectionShapeKept(ls, k, h, Put(nested, m.key, List(items)));
            } else {
              PutSectionShape(nested, m.key, Null);
              SectionShapeKept(ls, j + 1, h, Put(nested, m.key, Null));
            }
          }
        }
    } else if j < |ls| {
      SectionShapeKept(ls, j + 1, h, nested);
    }
  }

  /** The result has exactly two levels: every value is a leaf, a list of
      leaves, or a dictionary of those; no key occurs twice at either level. */
  lemma {:induction false} ScanShape(ls: seq<LineInfo>, i: nat, r: seq<Entry>)
    requires AllScalarInfo(ls) && DocShape(r)
    ensures DocShape(Scan(ls, i, r))
    decreases |ls| - i
  {
    if i < |ls| && !ls[i].blank && !ls[i].comment && ls[i].key.Some? {
      var m := ls[i].key.value;
      assert ScalarInfo(ls[i]);
      if m.value != [] {
        PutDocShape(r, m.key, m.parsed);
        ScanShape(ls, i + 1, Put(r, m.key, m.parsed));
      } else {
        var section := Section(ls, i + 1, m.indent, []);
        SectionShapeKept(ls, i + 1, m.indent, []);
        var base := r;
        if section.ListFound? {
          PutDocShape(r, m.key, List(section.items));
          base := Put(r, m.key, List(section.items));
        }
        PutDocShape(base, m.key, Dict(section.nested));
        PutDocShape(base, m.key, Dict([]));
        var (next, updated) := AfterSection(i, m.key, section, r);
        ScanShape(ls, next, updated);
      }
    } else if i < |ls| {
      ScanShape(ls, i + 1, r);
    }
  }

  lemma InfosScalar(lines: seq<string>)
    ensures AllScalarInfo(Infos(lines))
  {
    var ls := Infos(lines);
    forall j | 0 <= j < |ls| ensures ScalarInfo(ls[j]) {
      assert ls[j] == Classify(lines[j]);
    }
  }

  /** Whatever the input, the parser returns a two-level dictionary with distinct keys. */
  lemma ParseShape(content: string)
    ensures DocShape(Parse(content))
  {
    InfosScalar(Lines(content));
    ScanShape(Infos(Lines(content)), 0, []);
  }
}
