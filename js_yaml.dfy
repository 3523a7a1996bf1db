/**
 * `viashParseYaml` of the JavaScript parser: a flat scanner over the lines
 * of the trimmed content.
 *
 * The outer loop (index `i`) assigns every `key: value` line, at whatever
 * indentation, to the one result object. A `key:` line with an empty value
 * runs the look-ahead loop (index `j`), which collects the dash items
 * indented more than the key; with none the key is set to null. Nothing is
 * ever nested, so the object holds only leaves and lists of leaves.
 *
 * As for the Python scanner, the loops consult a line only through
 * `Classify`; the look-ahead is the list loop `DashRun` shared with it.
 */
module JsYaml {
  import opened Wrappers
  import opened Text
  import opened Values
  import opened Patterns
  import opened LineFacts
  import JsScalar

  /** `yamlContent.trim().split('\n')`. */
  function Lines(content: string): seq<string>
  {
    Split(Strip(content, JsWhitespace), '\n')
  }

  /** What the loops compute about `lines[i]`: the line is end-trimmed,
      tested for being blank and for being a comment, and matched against
      `^(\s*)([^:]+):\s*(.*)` and `^(\s*)-\s*(.*)`; each captured value is
      trimmed and passed to `parseValue`. */
  function Classify(raw: string): LineInfo
  {
    var line := RStrip(raw, JsWhitespace);
    LineInfo(
      BlankLine(line, JsWhitespace),
      CommentLine(line, JsWhitespace),
      match KeyLine(line, JsWhitespace, JsLineBreaks)
      case None => None
      case Some(m) =>
        var value := Strip(m.rest, JsWhitespace);
        Some(KeyInfo(m.indent, Strip(m.key, JsWhitespace), value, JsScalar.ParseValue(value))),
      match DashLine(line, JsWhitespace, JsLineBreaks)
      case None => None
      case Some(d) => Some(DashInfo(d.indent, JsScalar.ParseValue(Strip(d.rest, JsWhitespace)))))
  }

  function Infos(lines: seq<string>): (ls: seq<LineInfo>)
    ensures |ls| == |lines|
    ensures forall i :: 0 <= i < |lines| ==> ls[i] == Classify(lines[i])
  {
    if lines == [] then [] else [Classify(lines[0])] + Infos(lines[1..])
  }

  /** The outer loop, from line `i` with the object built so far. */
  function Scan(ls: seq<LineInfo>, i: nat, result: seq<Entry>): seq<Entry>
    decreases |ls| - i
  {
    if i >= |ls| then result
    else if ls[i].blank || ls[i].comment then Scan(ls, i + 1, result)
    else match ls[i].key
      case None => Scan(ls, i + 1, result)
      case Some(m) =>
        if m.value == [] then
          var (items, j) := DashRun(ls, i + 1, DeeperThan(m.indent), []);
          if items != [] then Scan(ls, j, Put(result, m.key, List(items)))
          else Scan(ls, i + 1, Put(result, m.key, Null))
        else Scan(ls, i + 1, Put(result, m.key, m.parsed))
  }

  /** `viashParseYaml(yamlContent)` applied to `content`. */
  function Parse(content: string): seq<Entry>
  {
    Scan(Infos(Lines(content)), 0, [])
  }

  /** The outer loop passes over, without assigning anything, a line of
      whitespace only, a line whose first character past the indentation
      is `#`, a line with no colon, and a line that starts with a colon. */
  lemma LineDropped(lines: seq<string>, i: nat, r: seq<Entry>)
    requires i < |lines|
    requires var raw, w := lines[i], LeadingWs(lines[i], JsWhitespace);
      AllIn(raw, JsWhitespace) || (w < |raw| && raw[w] == '#') || ':' !in raw || raw[0] == ':'
    ensures Scan(Infos(lines), i, r) == Scan(Infos(lines), i + 1, r)
  {
    var raw, w := lines[i], LeadingWs(lines[i], JsWhitespace);
    PlainSpaces();
    if AllIn(raw, JsWhitespace) {
      LineBlank(raw, JsWhitespace, JsLineBreaks);
      assert Infos(lines)[i].blank;
    } else if w < |raw| && raw[w] == '#' {
      LineComment(raw, JsWhitespace, JsLineBreaks);
      assert Infos(lines)[i].comment;
    } else {
      LineKey(raw, JsWhitespace, JsLineBreaks);
      assert Infos(lines)[i].key.None?;
    }
  }

  // ---------------------------------------------------------------------
  // The loops
  // ---------------------------------------------------------------------

  /** The outer loop (lines 30-93) with the look-ahead loop (lines 52-73)
      inside it, over the classified lines. */
  method ScanDocument(ls: seq<LineInfo>) returns (result: seq<Entry>)
    ensures result == Scan(ls, 0, [])
  {
    result := [];
    var i := 0;
    while i < |ls|
      invariant Scan(ls, i, result) == Scan(ls, 0, [])
      decreases |ls| - i
    {
      if ls[i].blank || ls[i].comment {
        i := i + 1;
        continue;
      }
      var key := ls[i].key;
      if key.Some? {
        var m := key.value;
        if m.value == [] {
          var j := i + 1;
          var arrayItems: seq<Value> := [];
          while j < |ls|
            invariant i + 1 <= j <= |ls|
            invariant DashRun(ls, j, DeeperThan(m.indent), arrayItems) == DashRun(ls, i + 1, DeeperThan(m.indent), [])
            decreases |ls| - j
          {
            if ls[j].blank {
              j := j + 1;
              continue;
            }
            var arrayMatch := ls[j].dash;
            if arrayMatch.Some? {
              if arrayMatch.value.indent > m.indent {
                arrayItems := arrayItems + [arrayMatch.value.item];
                j := j + 1;
                continue;
              }
            }
            break;
          }
          if arrayItems != [] {
            result := Put(result, m.key, List(arrayItems));
            i := j;
            continue;
          } else {
            result := Put(result, m.key, Null);
            i := i + 1;
            continue;
          }
        } else {
          result := Put(result, m.key, m.parsed);
          i := i + 1;
          continue;
        }
      }
      i := i + 1;
    }
  }

  /** `viashParseYaml(yamlContent)` (lines 3-96), given the content. */
  method ParseYaml(content: string) returns (result: seq<Entry>)
    ensures result == Parse(content)
  {
    var lines := Lines(content);
    result := ScanDocument(Infos(lines));
  }

  // ---------------------------------------------------------------------
  // What the scanner does with a line
  // ---------------------------------------------------------------------

  /** A `key:` line followed (past blank lines) by a dash line indented more
      than the key takes as its array every such dash line up to the first
      line that is neither blank nor one of them (a comment included), and
      scanning resumes on that line. */
  lemma ListKey(ls: seq<LineInfo>, i: nat, r: seq<Entry>)
    requires i < |ls| && HeaderLine(ls, i)
    requires var f := NextNonBlank(ls, i + 1); f < |ls| && FitLine(ls, f, DeeperThan(ls[i].key.value.indent))
    ensures var m := ls[i].key.value;
      var (items, e) := DashRun(ls, i + 1, DeeperThan(m.indent), []);
      items != [] && items == ItemsOf(ls, i + 1, e) &&
      (forall j :: i < j < e ==> ls[j].blank || FitLine(ls, j, DeeperThan(m.indent))) &&
      (e == |ls| || (!ls[e].blank && !FitLine(ls, e, DeeperThan(m.indent)))) &&
      Scan(ls, i, r) == Scan(ls, e, Put(r, m.key, List(items)))
  {
    var m := ls[i].key.value;
    var f := NextNonBlank(ls, i + 1);
    DashRunStops(ls, i + 1, DeeperThan(m.indent), []);
    var e := DashRun(ls, i + 1, DeeperThan(m.indent), []).1;
    assert f < e;
    ItemsOfHas(ls, i + 1, e, f);
  }

  /** A `key:` line not followed by such a dash line maps the key to null,
      and scanning goes on with the very next line. */
  lemma NullKey(ls: seq<LineInfo>, i: nat, r: seq<Entry>)
    requires i < |ls| && HeaderLine(ls, i)
    requires var f := NextNonBlank(ls, i + 1); f == |ls| || !FitLine(ls, f, DeeperThan(ls[i].key.value.indent))
    ensures Scan(ls, i, r) == Scan(ls, i + 1, Put(r, ls[i].key.value.key, Null))
  {
    var m := ls[i].key.value;
    var f := NextNonBlank(ls, i + 1);
    DashRunEnds(ls, i + 1, f, DeeperThan(m.indent), []);
    ItemsOfBlank(ls, i + 1, f);
  }

  // ---------------------------------------------------------------------
  // Shape of the result
  // ---------------------------------------------------------------------

  /** A flat object: distinct keys, every value a leaf or a list of leaves. */
  predicate FlatShape(es: seq<Entry>)
  {
    UniqueKeys(es) && forall e :: e in es ==> Leafy(e.val)
  }

  lemma PutFlatShape(es: seq<Entry>, k: string, v: Value)
    requires FlatShape(es) && Leafy(v)
    ensures FlatShape(Put(es, k, v))
  {
    PutUnique(es, k, v);
    PutEntries(es, k, v);
  }

  /** The scanner never builds a nested object. */
  lemma {:induction false} ScanFlat(ls: seq<LineInfo>, i: nat, r: seq<Entry>)
    requires AllScalarInfo(ls) && FlatShape(r)
    ensures FlatShape(Scan(ls, i, r))
    decreases |ls| - i
  {
    if i < |ls| && !ls[i].blank && !ls[i].comment && ls[i].key.Some? {
      var m := ls[i].key.value;
      assert ScalarInfo(ls[i]);
      if m.value == [] {
        var (items, j) := DashRun(ls, i + 1, DeeperThan(m.indent), []);
        DashRunScalar(ls, i + 1, DeeperThan(m.indent), []);
        if items != [] {
          PutFlatShape(r, m.key, List(items));
          ScanFlat(ls, j, Put(r, m.key, List(items)));
        } else {
          PutFlatShape(r, m.key, Null);
          ScanFlat(ls, i + 1, Put(r, m.key, Null));
        }
      } else {
        PutFlatShape(r, m.key, m.parsed);
        ScanFlat(ls, i + 1, Put(r, m.key, m.parsed));
      }
    } else if i < |ls| {
      ScanFlat(ls, i + 1, r);
    }
  }

  lemma InfosScalar(lines: seq<string>)
    ensures AllScalarInfo(Infos(lines))
  {
    var ls := Infos(lines);
    forall j | 0 <= j < |ls| ensures ScalarInfo(ls[j]) {
      assert ls[j] == Classify(lines[j]);
    }
  }

  /** Whatever the input, the parser returns one flat object with distinct
      keys, whose values are leaves and lists of leaves. */
  lemma ParseFlat(content: string)
    ensures FlatShape(Parse(content))
  {
    InfosScalar(Lines(content));
    ScanFlat(Infos(Lines(content)), 0, []);
  }
}
