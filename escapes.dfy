/**
 * The escape processing applied to the inside of a quoted token: three
 * global replacements in a fixed order. The same order is used by both
 * parsers for double quotes; the Python parser repeats it for single quotes
 * with `\'` in place of `\"`.
 */
module Escapes {
  import opened Text

  /** `\"` -> `"`, then `\n` -> newline, then `\\` -> `\`. */
  function UnescapeDouble(s: string): string
  {
    ReplaceAll(ReplaceAll(ReplaceAll(s, "\\\"", "\""), "\\n", "\n"), "\\\\", "\\")
  }

  /** `\'` -> `'`, then `\n` -> newline, then `\\` -> `\`. */
  function UnescapeSingle(s: string): string
  {
    ReplaceAll(ReplaceAll(ReplaceAll(s, "\\'", "'"), "\\n", "\n"), "\\\\", "\\")
  }

  /** Text without a backslash comes through either unescaping unchanged. */
  lemma UnescapeNoBackslash(s: string)
    requires '\\' !in s
    ensures UnescapeDouble(s) == s
    ensures UnescapeSingle(s) == s
  {
    ReplaceAllAbsent(s, "\\\"", "\"");
    ReplaceAllAbsent(s, "\\'", "'");
    ReplaceAllAbsent(s, "\\n", "\n");
    ReplaceAllAbsent(s, "\\\\", "\\");
  }

  /** Unescaping never lengthens the text: each replacement shortens what it replaces. */
  lemma UnescapeShrinks(s: string)
    ensures |UnescapeDouble(s)| <= |s|
    ensures |UnescapeSingle(s)| <= |s|
  {
    var d := ReplaceAll(s, "\\\"", "\"");
    ReplaceAllShrinks(s, "\\\"", "\"");
    ReplaceAllShrinks(d, "\\n", "\n");
    ReplaceAllShrinks(ReplaceAll(d, "\\n", "\n"), "\\\\", "\\");
    var q := ReplaceAll(s, "\\'", "'");
    ReplaceAllShrinks(s, "\\'", "'");
    ReplaceAllShrinks(q, "\\n", "\n");
    ReplaceAllShrinks(ReplaceAll(q, "\\n", "\n"), "\\\\", "\\");
  }

  /** Because `\n` is rewritten before `\\`, an escaped backslash followed by
      `n` comes out as a backslash and a newline, not as a backslash and `n`. */
  lemma EscapedBackslashBeforeN()
    ensures UnescapeDouble("\\\\n") == "\\\n"
    ensures UnescapeSingle("\\\\n") == "\\\n"
  {
    var s := "\\\\n";
    assert s[1..] == "\\n" && "\\n"[1..] == "n";
    assert ReplaceAll(s, "\\\"", "\"") == s by {
      assert s[..2][1] == '\\' && "\\n"[..2][1] == 'n';
    }
    assert ReplaceAll(s, "\\'", "'") == s by {
      assert s[..2][1] == '\\' && "\\n"[..2][1] == 'n';
    }
    assert ReplaceAll(s, "\\n", "\n") == "\\\n" by {
      assert s[..2][1] == '\\' && "\\n"[2..] == "";
    }
    assert ReplaceAll("\\\n", "\\\\", "\\") == "\\\n" by {
      assert "\\\n"[..2][1] == '\n' && "\\\n"[1..] == "\n";
    }
  }

  /** Each escape on its own. */
  lemma SingleEscapes()
    ensures UnescapeDouble("\\\"") == "\""
    ensures UnescapeDouble("\\n") == "\n"
    ensures UnescapeDouble("\\\\") == "\\"
    ensures UnescapeSingle("\\'") == "'"
  {
    assert ReplaceAll("\\n", "\\\"", "\"") == "\\n" by {
      assert "\\n"[..2][1] == 'n' && "\\\""[1] == '"';
      assert "\\n"[1..] == "n";
    }
    assert ReplaceAll("\\n", "\\n", "\n") == "\n" by {
      assert "\\n"[2..] == "";
    }
  }
}
