# viash YAML-subset parsers, modelled in Dafny

viash embeds two small YAML readers, written without any library, into the
scripts it generates. One is in Python (`viash_parse_yaml` with
`_parse_value`) and one in JavaScript (`viashParseYaml` with `parseValue`).
Each has two parts:

- a line scanner that uses indentation to decide what belongs to what;
- a scalar coercion that turns a token into null, a boolean, a number, a
  string or the token itself.

This project models both parsers as the code is written, quirks included,
and proves what they do.

- `text.dfy` (Text). The string operations the parsers call:
  - `strip`/`rstrip` (`trim`/`trimEnd`), `startswith`/`endswith`;
  - `split` on one character, global `replace`;
  - the whitespace sets of `str.isspace()` / Python's `\s`, and of
    ECMAScript's `trim` / `\s`.

  The sets are written out in full: Python's includes U+001C..U+001F and
  U+0085, ECMAScript's includes U+FEFF.
- `values.dfy` (Values). The result tree. A dictionary is an ordered
  association list, and assigning to an existing key replaces its value
  where it stands.
- `patterns.dfy` (Patterns). The regular expressions `^(\s*)([^:]+):\s*(.*)`
  and `^(\s*)-\s*(.*)` as character functions, with lemmas showing each
  returns the match a backtracking regex engine picks. In `"  : x"` the
  greedy `\s*` gives one space back, so group 2 is one space, the indent is
  1, and the stored key, after `strip()`/`trim()`, is the empty string. As a
  first line, `"  : x"` loses its indentation to the strip of the whole
  content and does not match. `": x"` does not match.
- `numerals.dfy`, `escapes.dfy`, `py_scalar.dfy`, `js_scalar.dfy`. The two
  scalar coercions:
  - Python's `int()`/`float()` acceptance over ASCII text, with underscores
    and exponents;
  - the JavaScript regular expressions `^-?\d+$`, `^-?\d*\.\d+$` and
    `^"(.*)"$`;
  - the three ordered global replacements that unescape quoted text.
- `linefacts.dfy` (LineFacts). What a scanner learns about a line: blank,
  comment, key match, dash match. It also holds the dash-item loop
  (`DashRun`), which both scanners share.
- `py_yaml.dfy` (PyYaml). The Python scanner: outer loop `i`, section loop
  `j`, nested list loop `k`, and the first-level list loop. Each loop is a
  `method` with a `while` loop, proved equal to a tail-recursive
  specification function; lemmas state what those functions compute.
- `js_yaml.dfy` (JsYaml). The JavaScript scanner: outer loop `i` with the
  look-ahead loop `j` nested inside it, specified the same way.
- `compare.dfy` (Compare). The two scanners over the same classified lines.
  Given the same classified lines without `key:` headers, they agree. (The
  same text can classify differently in the two languages: `~` is None in
  Python and a string in JavaScript, and `.` stops at `\r` only in
  JavaScript.) On a header followed by
  dash items they differ: JavaScript keeps the list, Python ends with `{}`.

The scanners re-strip and re-match a line each time a loop looks at it.
These tests are pure functions of the line, so the model computes them once
per line (`Classify`, collected by `Infos`). The loop methods then run over
those results.

Behaviour of the code worth knowing, which the model reproduces:

- Unescaping order. The code replaces `\"` (or `\'`), then `\n`, then
  `\\` (python/ViashParseYaml.py:175-177, 182-184;
  javascript/ViashParseYaml.js:114-116). As a result, `\\n` becomes a
  backslash and a newline (`Escapes.EscapedBackslashBeforeN`).
- Empty top-level section. A header with nothing under it stores `{}` in
  the Python code (python/ViashParseYaml.py:152-155). An empty value gives `{}` for a
  top-level header and None for a key inside a section; the tokens `null`
  and `~` and an empty dash item give None anywhere (Python). JavaScript
  gives null for `null` and for an empty value with no list under it.
- Nesting. The Python code has exactly two hard-coded levels: deeper keys
  are flattened into the header's dictionary. A list found directly under a
  header is stored and then overwritten by `{}`, with one more line
  skipped, although the docstring advertises that shape
  (python/ViashParseYaml.py:18-20). The JavaScript code has one level.
- JavaScript tests. The test file expects nested access and single-quote
  stripping (src/test/resources/io/viash/helpers/languages/javascript/test_ViashParseYaml.js:79-84, 121).
  The JavaScript code does neither, and the model follows the code.

## Model

| member | source | states |
|---|---|---|
| Text.Strip | src/main/resources/io/viash/languages/python/ViashParseYaml.py:39 | `strip()`/`trim()`: empty exactly when the string is all whitespace; otherwise the contiguous run starting at the first non-whitespace character, with no whitespace at either end, and only whitespace after it |
| Text.LStrip | src/main/resources/io/viash/languages/python/ViashParseYaml.py:32 | the leading half of `strip()`/`trim()`: a suffix of the input, the removed prefix is all whitespace, and the result does not start with whitespace |
| Text.StartsWith | src/main/resources/io/viash/languages/python/ViashParseYaml.py:39 | `startswith`/`startsWith`: a reference definition with no contract of its own; `StartsWithFirst` states that a non-empty string starts with its own first character, which `LineFacts.LineComment` uses to reduce `startswith("#")` to a first-character test, and `PyScalar.DoubleQuoted`/`SingleQuoted` state it for the quote tests |
| Text.EndsWith | src/main/resources/io/viash/languages/python/ViashParseYaml.py:172 | `endswith`: a reference definition with no contract of its own, stated for quotes by `PyScalar.DoubleQuoted` and `PyScalar.SingleQuoted` |
| Text.RStrip | src/main/resources/io/viash/languages/python/ViashParseYaml.py:36 | `rstrip()`/`trimEnd()`: a prefix of the input, followed in the input only by whitespace, and not ending in whitespace |
| Text.LeadingWs | src/main/resources/io/viash/languages/python/ViashParseYaml.py:44 | group `(\s*)`: the number of leading whitespace characters, with the next character not whitespace |
| Text.IndexOf | src/main/resources/io/viash/languages/python/ViashParseYaml.py:44 | position of the first occurrence of a character: none before it, it is there, and it equals the length exactly when the character is absent |
| Text.Split | src/main/resources/io/viash/languages/python/ViashParseYaml.py:32 | `split('\n')`: at least one piece, no piece holds the separator, and joining the pieces with it gives the input back |
| Text.SplitJoin | src/main/resources/io/viash/languages/python/ViashParseYaml.py:32 | splitting a join of separator-free pieces gives exactly those pieces |
| Text.ReplaceAllAbsent | src/main/resources/io/viash/languages/python/ViashParseYaml.py:175-177 | global replacement leaves a string without the pattern's first character unchanged |
| Text.ReplaceAll | src/main/resources/io/viash/languages/python/ViashParseYaml.py:175-177 | global `replace`: left to right, each non-overlapping occurrence replaced; its meaning is stated by `ReplaceAllAbsent`, `ReplaceAllShrinks` and the Escapes lemmas |
| Text.ReplaceAllShrinks | src/main/resources/io/viash/languages/python/ViashParseYaml.py:175-177 | replacing with text no longer than the pattern never makes the string longer |
| Text.ReplaceAllSplit | src/main/resources/io/viash/languages/python/ViashParseYaml.py:175-177 | global `replace` scans left to right: when no occurrence starts inside `a`, `a + pat + b` becomes the replacement of `a`, then `rep`, then the replacement of `b` |
| Values.PutGet | src/main/resources/io/viash/languages/python/ViashParseYaml.py:157 | after `d[k] = v`, `d[k]` is `v` and every other key reads as before |
| Values.PutKeys | src/main/resources/io/viash/languages/python/ViashParseYaml.py:157 | assignment keeps the key order, and a new key goes at the end |
| Values.PutUnique | src/main/resources/io/viash/languages/python/ViashParseYaml.py:157 | assignment keeps keys distinct |
| Values.PutPut | src/main/resources/io/viash/languages/python/ViashParseYaml.py:93-154 | a second assignment to a key wins and leaves no trace of the first |
| Values.PutEntries | src/main/resources/io/viash/languages/python/ViashParseYaml.py:157 | assignment brings in no entry other than the assigned one |
| Values.Put | src/main/resources/io/viash/languages/python/ViashParseYaml.py:157 | `d[k] = v` on an insertion-ordered dict; its meaning is stated by `PutGet`, `PutKeys`, `PutUnique`, `PutEntries` and `PutPut` |
| Patterns.UpTo | src/main/resources/io/viash/languages/python/ViashParseYaml.py:44 | group `(.*)`: the longest prefix free of characters that `.` does not match |
| Patterns.RestOfLine | src/main/resources/io/viash/languages/python/ViashParseYaml.py:44 | the `\s*(.*)` tail of both patterns: a reference definition with no contract of its own, stated by `KeyLineSpec` and `DashLineSpec` (the value group starts after the longest whitespace run and stops before the first line terminator) |
| Patterns.KeyLine | src/main/resources/io/viash/languages/python/ViashParseYaml.py:44-49 | `re.match(r'^(\s*)([^:]+):\s*(.*)', line)` and its groups; stated by `KeyLineSpec` and `KeyIndentBound` |
| Patterns.KeyLineSpec | src/main/resources/io/viash/languages/python/ViashParseYaml.py:44 | `^(\s*)([^:]+):\s*(.*)` matches exactly when some split into whitespace indent, colon-free non-empty key and colon exists; the match uses the first colon and the longest possible indent |
| Patterns.KeyIndentBound | src/main/resources/io/viash/languages/python/ViashParseYaml.py:44-47 | the key pattern's indentation never exceeds the line's leading whitespace |
| Patterns.DashLineSpec | src/main/resources/io/viash/languages/python/ViashParseYaml.py:64 | `^(\s*)-\s*(.*)` matches exactly when the first non-whitespace character is `-`, and only at that indentation |
| Patterns.DashLine | src/main/resources/io/viash/languages/python/ViashParseYaml.py:64-67 | `re.match(r'^(\s*)-\s*(.*)', line)` and its groups; stated by `DashLineSpec` |
| Escapes.UnescapeNoBackslash | src/main/resources/io/viash/languages/python/ViashParseYaml.py:174-184 | quoted text without a backslash comes out of either unescaping unchanged |
| Escapes.EscapedBackslashBeforeN | src/main/resources/io/viash/languages/python/ViashParseYaml.py:175-177 | because `\n` is replaced before `\\`, the text `\\n` becomes a backslash and a newline |
| Escapes.SingleEscapes | src/main/resources/io/viash/languages/python/ViashParseYaml.py:175-182 | each escape on its own: `\"`, `\n`, `\\` and `\'` |
| Escapes.UnescapeDouble | src/main/resources/io/viash/languages/python/ViashParseYaml.py:174-177 | the three ordered replacements of a double-quoted inside (also javascript/ViashParseYaml.js:113-116); stated by `UnescapeNoBackslash`, `EscapedBackslashBeforeN`, `SingleEscapes` and `UnescapeShrinks` |
| Escapes.UnescapeSingle | src/main/resources/io/viash/languages/python/ViashParseYaml.py:181-184 | the same with `\'` first; stated by the same lemmas |
| Escapes.UnescapeShrinks | src/main/resources/io/viash/languages/python/ViashParseYaml.py:174-184 | unescaping never lengthens the text |
| PyScalar.ParseValue | src/main/resources/io/viash/languages/python/ViashParseYaml.py:164-194 | `_parse_value` always returns a leaf, never a list or dict |
| PyScalar.Inner | src/main/resources/io/viash/languages/python/ViashParseYaml.py:174 | `value[1:-1]`, empty for a one-character token (also line 181); a reference definition with no contract of its own |
| PyScalar.IsPyInt | src/main/resources/io/viash/languages/python/ViashParseYaml.py:191-192 | what Python `int()` accepts over ASCII: surrounding whitespace, an optional `+` or `-`, then digits with single underscores between digits; a reference definition with no contract of its own, used by `IntToken`, `DecimalIsPyInt` and `Verbatim` |
| PyScalar.PyIntValue | src/main/resources/io/viash/languages/python/ViashParseYaml.py:192 | the value `int()` returns for such a token: underscores dropped, the digits read in base 10, negated after a `-`; a reference definition with no contract of its own |
| PyScalar.IsPyFloat | src/main/resources/io/viash/languages/python/ViashParseYaml.py:189-190 | what Python `float()` accepts over ASCII for a token holding a dot: surrounding whitespace, an optional sign, a point form (`[digitpart] "." digitpart` or `digitpart "."`, a digit part being digits with single underscores between digits) and an optional exponent (`e` or `E`, a sign, a digit part); a reference definition with no contract of its own, used by `FloatToken`, `FloatShape` and `Verbatim` |
| PyScalar.PyNumber | src/main/resources/io/viash/languages/python/ViashParseYaml.py:186-194 | the `try` block: `float()` when the token holds a dot, else `int()`, else the token; stated by `IntToken`, `FloatToken`, `FloatShape` and `Verbatim` |
| PyScalar.Verbatim | src/main/resources/io/viash/languages/python/ViashParseYaml.py:186-194 | a token comes back as itself exactly when it is no keyword, not quoted, and the conversion the `try` block picks raises (`simple_value`, `True`, `a.b`) |
| PyScalar.NullIff | src/main/resources/io/viash/languages/python/ViashParseYaml.py:166-167 | None comes from exactly `null`, `~` and the empty token |
| PyScalar.BoolIff | src/main/resources/io/viash/languages/python/ViashParseYaml.py:168-171 | booleans come from exactly `true` and `false` |
| PyScalar.DoubleQuoted | src/main/resources/io/viash/languages/python/ViashParseYaml.py:172-178 | a token starting and ending with `"` is a string: its inside, unescaped; unchanged without a backslash |
| PyScalar.SingleQuoted | src/main/resources/io/viash/languages/python/ViashParseYaml.py:179-185 | the same for `'` (with `\'`) |
| PyScalar.PlainToken | src/main/resources/io/viash/languages/python/ViashParseYaml.py:186-194 | a token ending in a digit, dot or whitespace gets only the numeric rules: float if it has a dot and `float()` accepts it, else int if `int()` accepts it, else the token as a string |
| PyScalar.IntToken | src/main/resources/io/viash/languages/python/ViashParseYaml.py:191-192 | every token `int()` accepts (signs, zero, underscores, leading zeros) without a dot becomes that integer |
| PyScalar.FloatToken | src/main/resources/io/viash/languages/python/ViashParseYaml.py:189-190 | every token `float()` accepts becomes a float |
| PyScalar.FloatShape | src/main/resources/io/viash/languages/python/ViashParseYaml.py:189-190 | a token `float()` accepts holds a dot and ends in a digit, a dot or whitespace |
| PyScalar.DecimalIsPyInt | src/main/resources/io/viash/languages/python/ViashParseYaml.py:192 | the decimal rendering of any integer is accepted by `int()` with that value |
| PyScalar.IntRoundTrip | src/main/resources/io/viash/languages/python/ViashParseYaml.py:191-192 | rendering an integer and coercing it gives the integer back |
| JsScalar.ParseValue | src/main/resources/io/viash/languages/javascript/ViashParseYaml.js:98-128 | `parseValue` always returns a leaf |
| JsScalar.IsJsQuoted | src/main/resources/io/viash/languages/javascript/ViashParseYaml.js:111 | `^"(.*)"$`: two quotes and no line terminator between them; a reference definition with no contract of its own |
| JsScalar.IsJsInt | src/main/resources/io/viash/languages/javascript/ViashParseYaml.js:118 | `^-?\d+$`: an optional `-` and at least one ASCII digit; a reference definition with no contract of its own |
| JsScalar.JsIntValue | src/main/resources/io/viash/languages/javascript/ViashParseYaml.js:120 | `parseInt(value, 10)` on such a token: the digits in base 10, negated after a `-`; a reference definition with no contract of its own |
| JsScalar.IsJsFloat | src/main/resources/io/viash/languages/javascript/ViashParseYaml.js:121 | `^-?\d*\.\d+$`: an optional `-`, digits, one dot, and at least one digit after it; a reference definition with no contract of its own |
| JsScalar.NullIff | src/main/resources/io/viash/languages/javascript/ViashParseYaml.js:105-106 | null comes from exactly `null` |
| JsScalar.EmptyAndTilde | src/main/resources/io/viash/languages/javascript/ViashParseYaml.js:124-126 | the empty token and `~` stay strings |
| JsScalar.BoolIff | src/main/resources/io/viash/languages/javascript/ViashParseYaml.js:107-110 | booleans come from exactly `true` and `false` |
| JsScalar.Quoted | src/main/resources/io/viash/languages/javascript/ViashParseYaml.js:111-117 | a token of `^"(.*)"$` is its inside with `\"`, `\n`, `\\` replaced in that order; unchanged without a backslash |
| JsScalar.IntToken | src/main/resources/io/viash/languages/javascript/ViashParseYaml.js:118-120 | every token of `^-?\d+$` becomes that integer |
| JsScalar.FloatToken | src/main/resources/io/viash/languages/javascript/ViashParseYaml.js:121-123 | every token of `^-?\d*\.\d+$` becomes a float |
| JsScalar.DigitEnded | src/main/resources/io/viash/languages/javascript/ViashParseYaml.js:118-127 | a token ending in a digit gets only the numeric rules |
| JsScalar.IntRoundTrip | src/main/resources/io/viash/languages/javascript/ViashParseYaml.js:118-120 | rendering an integer and coercing it gives the integer back |
| JsScalar.Unrecognised | src/main/resources/io/viash/languages/javascript/ViashParseYaml.js:124-126 | single-quoted text, `+5` and other tokens with no recognised first character come back verbatim |
| JsScalar.NotFloats | src/main/resources/io/viash/languages/javascript/ViashParseYaml.js:121-126 | `5.` and `1.0.0` stay strings |
| JsScalar.Verbatim | src/main/resources/io/viash/languages/javascript/ViashParseYaml.js:124-126 | a token comes back as itself exactly when it is no keyword and none of the quote, integer and float patterns accepts it |
| LineFacts.LineBlank | src/main/resources/io/viash/languages/python/ViashParseYaml.py:39-41 | a whitespace-only line is blank, no comment, and matches neither pattern (both scanners) |
| LineFacts.LineComment | src/main/resources/io/viash/languages/python/ViashParseYaml.py:39-41 | a line whose first non-space character is `#` is a comment, not blank, and not a dash line |
| LineFacts.LineDash | src/main/resources/io/viash/languages/python/ViashParseYaml.py:63-67 | a line whose first non-space character is `-` is a dash line at that indentation, neither blank nor a comment, whatever else it holds |
| LineFacts.LineKey | src/main/resources/io/viash/languages/python/ViashParseYaml.py:44-45 | a line matches the key pattern exactly when it holds a colon and does not start with one |
| LineFacts.BlankLine | src/main/resources/io/viash/languages/python/ViashParseYaml.py:39 | `not line.strip()` / `!line.trim()` for the given whitespace set (also javascript/ViashParseYaml.js:34); a reference definition with no contract of its own, stated by `LineBlank` |
| LineFacts.CommentLine | src/main/resources/io/viash/languages/python/ViashParseYaml.py:39 | `line.strip().startswith('#')` / `line.trim().startsWith('#')`; a reference definition with no contract of its own, stated by `LineComment` |
| PyYaml.Classify | src/main/resources/io/viash/languages/python/ViashParseYaml.py:36-49 | what the loops compute about one line: `rstrip()`, the blank and comment tests, both patterns, and the stripped key, value and parsed value (also lines 58-72, 100-108); stated by `LineBlank`, `LineComment`, `LineDash`, `LineKey` and `LineDropped` |
| LineFacts.DashRun | src/main/resources/io/viash/languages/python/ViashParseYaml.py:115-130 | a list loop stops at or after its start, within the lines |
| LineFacts.DashRunStops | src/main/resources/io/viash/languages/python/ViashParseYaml.py:115-130 | a list loop passes only blank and accepted dash lines, stops at the end or at the first other line, and has appended exactly the items of the lines it passed |
| LineFacts.DashRunEnds | src/main/resources/io/viash/languages/python/ViashParseYaml.py:76-91 | conversely, any position ending such a run is where the loop stops, with those items |
| LineFacts.DashRunScalar | src/main/resources/io/viash/languages/python/ViashParseYaml.py:125 | list items are leaves |
| PyYaml.Infos | src/main/resources/io/viash/languages/python/ViashParseYaml.py:35-36 | one classification per line, in order |
| PyYaml.Lines | src/main/resources/io/viash/languages/python/ViashParseYaml.py:32 | `yaml_content.strip().split('\n')`; a reference definition with no contract of its own, stated by `Text.Strip` and `Text.Split` |
| PyYaml.AfterSection | src/main/resources/io/viash/languages/python/ViashParseYaml.py:149-155 | after a header the outer index always moves forward |
| PyYaml.Section | src/main/resources/io/viash/languages/python/ViashParseYaml.py:57-147 | the section loop ends at or after its start, within the lines |
| PyYaml.Scan | src/main/resources/io/viash/languages/python/ViashParseYaml.py:35-162 | the outer loop over classified lines; stated by `LineDropped`, `SectionHeader`, `EmptyHeader`, `HeaderThenList`, `FlatLookup` and `ScanShape`, and computed by `ScanDocument` |
| PyYaml.LineDropped | src/main/resources/io/viash/languages/python/ViashParseYaml.py:35-41 | a whitespace-only line, a `#` line, a line with no colon, or a line starting with a colon is passed over with nothing assigned (the last two at lines 159-160) |
| PyYaml.ScanDashRun | src/main/resources/io/viash/languages/python/ViashParseYaml.py:76-91 | the list loops (also lines 115-130) compute `DashRun`: the collected items and the stopping line |
| PyYaml.ScanSection | src/main/resources/io/viash/languages/python/ViashParseYaml.py:53-147 | the section loop computes `Section`: the nested dict, the stopping line, and any first-level list |
| PyYaml.ScanDocument | src/main/resources/io/viash/languages/python/ViashParseYaml.py:31-162 | the outer loop computes `Scan` over the classified lines |
| PyYaml.Parse | src/main/resources/io/viash/languages/python/ViashParseYaml.py:3-162 | `viash_parse_yaml` as a function of the content: a reference definition with no contract of its own, stated by `ParseYaml` (the loops compute it) and `ParseShape` (its shape) |
| PyYaml.ParseYaml | src/main/resources/io/viash/languages/python/ViashParseYaml.py:3-162 | `viash_parse_yaml` on a given content string equals `Parse` |
| PyYaml.SectionSkipBlank | src/main/resources/io/viash/languages/python/ViashParseYaml.py:59-61 | blank lines inside a section are passed over |
| PyYaml.SectionRun | src/main/resources/io/viash/languages/python/ViashParseYaml.py:99-147 | a section of key lines indented past the header assigns every key in order (empty value as None) into one dict at any depth, and closes at the first line that is neither blank nor such a key line: a dash or key line not indented past the header, or, at any depth, a line matching neither pattern, such as a colon-free comment `    # note` (lines 146-147) |
| PyYaml.SectionKeyList | src/main/resources/io/viash/languages/python/ViashParseYaml.py:110-134 | a nested `key:` followed by deeper dash lines takes them as a non-empty list, and the section resumes after them |
| PyYaml.SectionRunThenList | src/main/resources/io/viash/languages/python/ViashParseYaml.py:63-95 | a run of plain entries ended by a dash line deeper than the header: the section loop leaves with the entries so far and that first-level list, stopping where the list stops |
| PyYaml.SectionHeader | src/main/resources/io/viash/languages/python/ViashParseYaml.py:149-155 | a header over plain entries gets them as a dict and scanning resumes at the closing line; with none it gets `{}` and scanning resumes on the next line |
| PyYaml.EmptyHeader | src/main/resources/io/viash/languages/python/ViashParseYaml.py:152-155 | a header with nothing indented under it gets `{}` |
| PyYaml.HeaderThenList | src/main/resources/io/viash/languages/python/ViashParseYaml.py:69-155 | a header directly followed by deeper dash items ends with `{}` (the list is overwritten), and the line that ended the list is skipped unread |
| PyYaml.HeaderEntriesThenList | src/main/resources/io/viash/languages/python/ViashParseYaml.py:93-95 | plain entries and then a deeper dash line under a header: with entries, the header keeps them as a dict, the list is lost, and scanning resumes at the line that ended the list (lines 149-151); with none, `{}` and that line is skipped |
| PyYaml.FlatLookup | src/main/resources/io/viash/languages/python/ViashParseYaml.py:35-160 | over classified lines without headers, a key reads the parsed value of the last `key: value` line for it, at any indentation, or the value it had before when no line mentions it |
| PyYaml.SectionShapeKept | src/main/resources/io/viash/languages/python/ViashParseYaml.py:99-142 | a section dict holds only leaves and lists of leaves, under distinct keys |
| PyYaml.ScanShape | src/main/resources/io/viash/languages/python/ViashParseYaml.py:35-162 | the outer loop keeps the result two-level with distinct keys |
| PyYaml.ParseShape | src/main/resources/io/viash/languages/python/ViashParseYaml.py:3-162 | for every input, a dict with distinct keys whose values are leaves, lists of leaves, or dicts of those |
| JsYaml.Infos | src/main/resources/io/viash/languages/javascript/ViashParseYaml.js:30-31 | one classification per line, in order |
| JsYaml.Lines | src/main/resources/io/viash/languages/javascript/ViashParseYaml.js:27 | `yamlContent.trim().split('\n')`; a reference definition with no contract of its own, stated by `Text.Strip` and `Text.Split` |
| JsYaml.Classify | src/main/resources/io/viash/languages/javascript/ViashParseYaml.js:31-44 | `trimEnd()`, the blank and comment tests, both patterns, and the trimmed key, value and parsed value (also lines 53-67); stated by the LineFacts line lemmas and `LineDropped` |
| JsYaml.Scan | src/main/resources/io/viash/languages/javascript/ViashParseYaml.js:30-93 | the outer loop with its look-ahead over classified lines; stated by `LineDropped`, `ListKey`, `NullKey`, `ScanFlat` and `Compare.FlatAgree`, and computed by `ScanDocument` |
| JsYaml.LineDropped | src/main/resources/io/viash/languages/javascript/ViashParseYaml.js:33-37 | a whitespace-only line, a `#` line, a line with no colon, or a line starting with a colon is passed over with nothing assigned (the last two at line 92) |
| JsYaml.ScanDocument | src/main/resources/io/viash/languages/javascript/ViashParseYaml.js:30-95 | the outer loop with its look-ahead computes `Scan` over the classified lines |
| JsYaml.Parse | src/main/resources/io/viash/languages/javascript/ViashParseYaml.js:3-96 | `viashParseYaml` as a function of the content: a reference definition with no contract of its own, stated by `ParseYaml` (the loops compute it) and `ParseFlat` (its shape) |
| JsYaml.ParseYaml | src/main/resources/io/viash/languages/javascript/ViashParseYaml.js:3-96 | `viashParseYaml` on a given content string equals `Parse` |
| JsYaml.ListKey | src/main/resources/io/viash/languages/javascript/ViashParseYaml.js:46-78 | a `key:` line followed by deeper dash lines takes every such line (blank lines skipped) as a non-empty array, stops at the first other line, a comment included, and scanning resumes there |
| JsYaml.NullKey | src/main/resources/io/viash/languages/javascript/ViashParseYaml.js:79-84 | a `key:` line with no such dash line maps to null and scanning goes on with the next line |
| JsYaml.ScanFlat | src/main/resources/io/viash/languages/javascript/ViashParseYaml.js:30-95 | the outer loop keeps the result flat with distinct keys |
| JsYaml.ParseFlat | src/main/resources/io/viash/languages/javascript/ViashParseYaml.js:3-96 | for every input, one object with distinct keys and no nested object |
| Compare.FlatAgree | src/main/resources/io/viash/languages/javascript/ViashParseYaml.js:85-88 | given the same classified lines without headers, the JavaScript scanner builds the same dictionary as the Python one |
| Compare.JsFlatLookup | src/main/resources/io/viash/languages/javascript/ViashParseYaml.js:40-44 | without headers the last `key: value` line for a key wins, at any indentation |
| Compare.HeaderListDiverges | src/main/resources/io/viash/languages/javascript/ViashParseYaml.js:75-78 | a header over deeper dash items: JavaScript stores the non-empty list, Python ends with `{}` |

## Left out

- Reading from standard input when the content argument is absent
  (python/ViashParseYaml.py:28-29, javascript/ViashParseYaml.js:20-24). This
  is I/O: the parsers are modelled on a given content string.
- `ViashParseJson.py` and `ViashParseJson.js` are not part of this model:
  they read an environment variable and a file, then hand the text to the
  standard JSON parser.
- Float values. `float()` and `parseFloat` produce IEEE doubles; the model
  keeps the accepted token as text (`Float(text)`).
- PyScalar.ParseValue: `int()` and `float()` acceptance is modelled for
  ASCII digits only. Unicode decimal digits and `int()`'s limit on the
  number of digits (beyond it `int()` raises, so the token stays a string)
  are not modelled. Dot-free tokens such as `inf`, `nan` and `1e5` go to
  `int()`, which rejects them, so they stay strings, in the model as in the
  code.
- JsScalar.ParseValue: integers are unbounded, so `parseInt` losing
  precision beyond 2^53 is not modelled, and `-0` is the integer 0.
- JavaScript object key order: integer-like keys are enumerated first in a
  real object. The model keeps insertion order for all keys, and treats a
  `__proto__` key as an ordinary key.
- LineFacts.DashRun: its own contract gives only the bounds of the stopping
  line; the items and the stopping line are stated by `DashRunStops` and
  `DashRunEnds`.
- PyYaml.Section: its own contract gives only the bounds of the stopping
  line; what it collects is stated by `SectionRun`, `SectionKeyList` and
  `HeaderThenList`.
- PyYaml.AfterSection: its own contract states only that the outer index
  advances; what it stores is stated by `SectionHeader`, `EmptyHeader` and
  `HeaderThenList`.
- Line classification for the scanners is stated about the line tests and
  pattern results. No lemma restates `Classify` as a whole for a concrete
  line.
