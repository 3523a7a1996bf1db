/**
 * The two scanners side by side, over the same classified lines. Without
 * section headers they build the same dictionary; a `key:` header is where
 * they part, the Python scanner opening a section and the JavaScript one
 * looking only for dash items.
 */
module Compare {
  import opened Wrappers
  import opened Values
  import opened LineFacts
  import PyYaml
  import JsYaml

  /** On lines without `key:` headers both scanners assign every
      `key: value` line in order, so they agree. */
  lemma {:induction false} FlatAgree(ls: seq<LineInfo>, i: nat, r: seq<Entry>)
    requires forall j :: i <= j < |ls| ==> PyYaml.Flat(ls, j)
    ensures JsYaml.Scan(ls, i, r) == PyYaml.Scan(ls, i, r)
    decreases |ls| - i
  {
    if i < |ls| {
      assert PyYaml.Flat(ls, i);
      if ls[i].blank || ls[i].comment || ls[i].key.None? {
        FlatAgree(ls, i + 1, r);
      } else {
        var m := ls[i].key.value;
        FlatAgree(ls, i + 1, Put(r, m.key, m.parsed));
      }
    }
  }

  /** Hence the JavaScript object is a flat dictionary in which the last
      line for a key wins, whatever its indentation, and keys no line
      mentions keep the value they had. */
  lemma JsFlatLookup(ls: seq<LineInfo>, r: seq<Entry>, k: string)
    requires forall j :: 0 <= j < |ls| ==> PyYaml.Flat(ls, j)
    ensures Get(JsYaml.Scan(ls, 0, r), k) ==
      match PyYaml.LastValue(ls, 0, k) case Some(v) => Some(v) case None => Get(r, k)
  {
    FlatAgree(ls, 0, r);
    PyYaml.FlatLookup(ls, 0, r, k);
  }

  /** A header followed by dash items indented past it: the JavaScript
      scanner stores them as a list, the Python one ends with an empty
      dictionary for the key. */
  lemma HeaderListDiverges(ls: seq<LineInfo>, i: nat, r: seq<Entry>)
    requires i < |ls| && HeaderLine(ls, i)
    requires var f := NextNonBlank(ls, i + 1); f < |ls| && FitLine(ls, f, DeeperThan(ls[i].key.value.indent))
    ensures var m := ls[i].key.value;
      var f := NextNonBlank(ls, i + 1);
      var d := ls[f].dash.value;
      var (items, e) := DashRun(ls, i + 1, DeeperThan(m.indent), []);
      var (pyItems, pyEnd) := DashRun(ls, f + 1, SameIndent(d.indent), [d.item]);
      items != [] &&
      JsYaml.Scan(ls, i, r) == JsYaml.Scan(ls, e, Put(r, m.key, List(items))) &&
      PyYaml.Scan(ls, i, r) == PyYaml.Scan(ls, pyEnd + 1, Put(r, m.key, Dict([])))
  {
    JsYaml.ListKey(ls, i, r);
    PyYaml.HeaderThenList(ls, i, r);
  }
}
