/**
 * `_parse_value` of the Python parser: coerces one token to None, a bool,
 * a quoted string, an int, a float or the token itself. The numeric cases
 * are Python's `int()` and `float()` acceptance rules for ASCII text: an
 * optional sign, digit groups with single underscores between digits, and
 * for `float()` a point form with an optional exponent. `float()` is only
 * tried on tokens containing `.`, so `inf`, `nan` and the point-less forms
 * never reach it.
 */
module PyScalar {
  import opened Text
  import opened Numerals
  import opened Escapes
  import opened Values

  /** `digitpart ::= digit (["_"] digit)*`. */
  predicate DigitPart(s: string)
  {
    |s| >= 1 && IsDigit(s[0]) && DigitTail(s[1..])
  }

  /** `(["_"] digit)*`. */
  predicate DigitTail(s: string)
    decreases |s|
  {
    s == [] ||
    (IsDigit(s[0]) && DigitTail(s[1..])) ||
    (|s| >= 2 && s[0] == '_' && IsDigit(s[1]) && DigitTail(s[2..]))
  }

  /** A digit part ends in a digit and holds only digits and underscores. */
  lemma {:induction false} DigitPartChars(s: string)
    requires DigitPart(s)
    ensures IsDigit(s[|s| - 1])
    ensures forall i :: 0 <= i < |s| ==> IsDigit(s[i]) || s[i] == '_'
  {
    DigitTailChars(s[1..]);
    if |s| > 1 {
      assert s[|s| - 1] == s[1..][|s| - 2];
    }
    forall i | 1 <= i < |s| ensures IsDigit(s[i]) || s[i] == '_' {
      assert s[i] == s[1..][i - 1];
    }
  }

  lemma {:induction false} DigitTailChars(s: string)
    requires DigitTail(s)
    ensures s != [] ==> IsDigit(s[|s| - 1])
    ensures forall i :: 0 <= i < |s| ==> IsDigit(s[i]) || s[i] == '_'
    decreases |s|
  {
    if s != [] {
      if IsDigit(s[0]) && DigitTail(s[1..]) {
        DigitTailChars(s[1..]);
        if |s| > 1 {
          assert s[|s| - 1] == s[1..][|s| - 2];
        }
        forall i | 1 <= i < |s| ensures IsDigit(s[i]) || s[i] == '_' {
          assert s[i] == s[1..][i - 1];
        }
      } else {
        DigitTailChars(s[2..]);
        if |s| > 2 {
          assert s[|s| - 1] == s[2..][|s| - 3];
        }
        forall i | 2 <= i < |s| ensures IsDigit(s[i]) || s[i] == '_' {
          assert s[i] == s[2..][i - 2];
        }
      }
    }
  }

  /** Every non-empty digit string is a digit part. */
  lemma {:induction false} DigitsAreDigitPart(s: string)
    requires |s| >= 1 && AllDigits(s)
    ensures DigitPart(s)
  {
    DigitsAreDigitTail(s[1..]);
  }

  lemma {:induction false} DigitsAreDigitTail(s: string)
    requires AllDigits(s)
    ensures DigitTail(s)
    decreases |s|
  {
    if s != [] {
      DigitsAreDigitTail(s[1..]);
    }
  }

  /** The text after an optional leading `+` or `-`. */
  function Unsigned(t: string): string
  {
    if |t| > 0 && (t[0] == '+' || t[0] == '-') then t[1..] else t
  }

  function RemoveUnderscores(s: string): (r: string)
    ensures '_' !in s ==> r == s
  {
    if s == [] then [] else (if s[0] == '_' then [] else [s[0]]) + RemoveUnderscores(s[1..])
  }

  /** The digit characters of a digit part, in order. */
  lemma {:induction false} RemoveUnderscoresDigits(s: string)
    requires forall i :: 0 <= i < |s| ==> IsDigit(s[i]) || s[i] == '_'
    ensures AllDigits(RemoveUnderscores(s))
  {
    if s != [] {
      RemoveUnderscoresDigits(s[1..]);
    }
  }

  /** `int(v)` succeeds. */
  predicate IsPyInt(v: string)
  {
    DigitPart(Unsigned(Strip(v, PyWhitespace)))
  }

  /** The value `int(v)` returns. */
  function PyIntValue(v: string): int
    requires IsPyInt(v)
  {
    var t := Strip(v, PyWhitespace);
    var digits := RemoveUnderscores(Unsigned(t));
    DigitPartChars(Unsigned(t));
    RemoveUnderscoresDigits(Unsigned(t));
    var magnitude: int := DigitsValue(digits);
    if t[0] == '-' then -magnitude else magnitude
  }

  /** Position of the first `e` or `E`, or |s|. */
  function ExponentMark(s: string): (k: nat)
    ensures k <= |s|
    ensures forall i :: 0 <= i < k ==> s[i] != 'e' && s[i] != 'E'
    ensures k < |s| ==> s[k] == 'e' || s[k] == 'E'
  {
    if s == [] || s[0] == 'e' || s[0] == 'E' then 0 else 1 + ExponentMark(s[1..])
  }

  /** `pointfloat ::= [digitpart] "." digitpart | digitpart "."`. */
  predicate PointFloat(s: string)
  {
    var p := IndexOf(s, '.');
    p < |s| &&
    var left, right := s[..p], s[p + 1..];
    (left == [] && DigitPart(right)) || (DigitPart(left) && (right == [] || DigitPart(right)))
  }

  /** `float(v)` succeeds on a token that contains `.`: sign, point form, optional exponent. */
  predicate IsPyFloat(v: string)
  {
    FloatBody(Unsigned(Strip(v, PyWhitespace)))
  }

  /** A point form, optionally followed by an exponent: `e` or `E`, a sign and a digit part. */
  predicate FloatBody(u: string)
  {
    var e := ExponentMark(u);
    PointFloat(u[..e]) && (e == |u| || DigitPart(Unsigned(u[e + 1..])))
  }

  /** Python's `value[1:-1]`, which is empty for a one-character token. */
  function Inner(v: string): string
  {
    if |v| >= 2 then v[1..|v| - 1] else []
  }

  /** `_parse_value(value)`. */
  function ParseValue(v: string): (r: Value)
    ensures IsScalar(r)
  {
    if v == "null" || v == "~" || v == "" then Null
    else if v == "true" then Bool(true)
    else if v == "false" then Bool(false)
    else if StartsWith(v, "\"") && EndsWith(v, "\"") then Str(UnescapeDouble(Inner(v)))
    else if StartsWith(v, "'") && EndsWith(v, "'") then Str(UnescapeSingle(Inner(v)))
    else PyNumber(v)
  }

  /** The `try` block: `float(value)` when the token holds a dot, else
      `int(value)`, and the token itself when the conversion raises. */
  function PyNumber(v: string): Value
  {
    if '.' in v then (if IsPyFloat(v) then Float(v) else Str(v))
    else if IsPyInt(v) then Int(PyIntValue(v))
    else Str(v)
  }

  /** None comes from exactly three spellings. */
  lemma NullIff(v: string)
    ensures ParseValue(v) == Null <==> v == "null" || v == "~" || v == ""
  {
  }

  /** Booleans come from exactly `true` and `false`; `True`, `yes` and the like do not qualify. */
  lemma BoolIff(v: string, b: bool)
    ensures ParseValue(v) == Bool(b) <==> v == (if b then "true" else "false")
  {
  }

  /** A token that starts and ends with a double quote is always a string:
      its inside, unescaped. A lone `"` counts and gives the empty string. */
  lemma DoubleQuoted(v: string)
    requires |v| >= 1 && v[0] == '"' && v[|v| - 1] == '"'
    ensures ParseValue(v) == Str(UnescapeDouble(Inner(v)))
    ensures '\\' !in v ==> ParseValue(v) == Str(Inner(v))
  {
    assert StartsWith(v, "\"") && EndsWith(v, "\"");
    if '\\' !in v {
      UnescapeNoBackslash(Inner(v));
    }
  }

  /** The same for single quotes, when the token is not also double-quoted. */
  lemma SingleQuoted(v: string)
    requires |v| >= 1 && v[0] == '\'' && v[|v| - 1] == '\''
    ensures ParseValue(v) == Str(UnescapeSingle(Inner(v)))
    ensures '\\' !in v ==> ParseValue(v) == Str(Inner(v))
  {
    assert StartsWith(v, "'") && EndsWith(v, "'");
    assert !StartsWith(v, "\"") by { assert v[..1][0] == '\''; }
    if '\\' !in v {
      UnescapeNoBackslash(Inner(v));
    }
  }

  /** The fallback, in both directions: a token comes back as itself exactly
      when it is no keyword, is not quoted, and the conversion the `try`
      block picks for it (`float()` with a dot, `int()` without) raises.
      `simple_value`, `True` and `a.b` are such tokens. A quoted token never
      comes back as itself, since unescaping its inside cannot make it
      longer. */
  lemma Verbatim(v: string)
    ensures ParseValue(v) == Str(v) <==>
      v != "null" && v != "~" && v != "" && v != "true" && v != "false" &&
      !(StartsWith(v, "\"") && EndsWith(v, "\"")) &&
      !(StartsWith(v, "'") && EndsWith(v, "'")) &&
      (if '.' in v then !IsPyFloat(v) else !IsPyInt(v))
  {
    if (StartsWith(v, "\"") && EndsWith(v, "\"")) || (StartsWith(v, "'") && EndsWith(v, "'")) {
      UnescapeShrinks(Inner(v));
      assert |Inner(v)| < |v|;
    }
  }

  /** A token that ends in a digit, a dot or whitespace is none of the
      keywords and is not quoted, so only the numeric rules apply to it. */
  lemma PlainToken(v: string)
    requires |v| >= 1
    requires var c := v[|v| - 1]; IsDigit(c) || c == '.' || c in PyWhitespace
    ensures ParseValue(v) == PyNumber(v)
  {
    var c := v[|v| - 1];
    assert c != 'l' && c != '~' && c != 'e' && c != '"' && c != '\'';
    UnmarkedEnd(v);
  }

  /** A token whose last character ends no keyword and no quote is neither. */
  lemma UnmarkedEnd(v: string)
    requires |v| >= 1
    requires var c := v[|v| - 1]; c != 'l' && c != '~' && c != 'e' && c != '"' && c != '\''
    ensures v != "null" && v != "~" && v != "true" && v != "false"
    ensures !EndsWith(v, "\"") && !EndsWith(v, "'")
  {
    assert v[|v| - 1] == v[|v| - 1..][0];
    assert "null"[3] == 'l' && "~"[0] == '~' && "true"[3] == 'e' && "false"[4] == 'e';
  }

  /** Every token `int()` accepts (negative, zero, underscores, leading zeros)
      and that has no `.` becomes that integer. */
  lemma IntToken(v: string)
    requires IsPyInt(v) && '.' !in v
    ensures ParseValue(v) == Int(PyIntValue(v))
  {
    var t := Strip(v, PyWhitespace);
    DigitPartChars(Unsigned(t));
    UnsignedLast(t);
    StripLast(v, PyWhitespace);
    PlainToken(v);
  }

  /** Every token `float()` accepts becomes a float, kept as its text. */
  lemma FloatToken(v: string)
    requires IsPyFloat(v)
    ensures ParseValue(v) == Float(v)
  {
    FloatShape(v);
    PlainToken(v);
  }

  /** A token `float()` accepts holds a dot and ends in a digit, a dot or whitespace. */
  lemma FloatShape(v: string)
    requires IsPyFloat(v)
    ensures '.' in v && |v| >= 1
    ensures var c := v[|v| - 1]; IsDigit(c) || c == '.' || c in PyWhitespace
  {
    FloatBodyShape(Unsigned(Strip(v, PyWhitespace)));
    StrippedShape(v, PyWhitespace);
  }

  /** A token whose unsigned, stripped body holds a dot and ends in a digit
      or a dot holds that dot itself, and ends in a digit, a dot or whitespace. */
  lemma StrippedShape(v: string, ws: set<char>)
    requires var u := Unsigned(Strip(v, ws)); '.' in u && (IsDigit(u[|u| - 1]) || u[|u| - 1] == '.')
    ensures '.' in v && |v| >= 1
    ensures var c := v[|v| - 1]; IsDigit(c) || c == '.' || c in ws
  {
    var t := Strip(v, ws);
    UnsignedLast(t);
    UnsignedDot(t);
    StripSub(v, ws, '.');
    StripLast(v, ws);
  }

  /** Dropping the sign keeps the last character. */
  lemma UnsignedLast(t: string)
    requires Unsigned(t) != []
    ensures t[|t| - 1] == Unsigned(t)[|Unsigned(t)| - 1]
  {
  }

  /** Dropping the sign keeps the dots. */
  lemma UnsignedDot(t: string)
    requires '.' in Unsigned(t)
    ensures '.' in t
  {
    var u := Unsigned(t);
    var i :| 0 <= i < |u| && u[i] == '.';
    assert t[|t| - |u| + i] == '.';
  }

  /** The unsigned part of a float token holds a dot and ends in a digit or a dot. */
  lemma FloatBodyShape(u: string)
    requires FloatBody(u)
    ensures '.' in u
    ensures IsDigit(u[|u| - 1]) || u[|u| - 1] == '.'
  {
    var e := ExponentMark(u);
    var m := u[..e];
    var p := IndexOf(m, '.');
    assert u[p] == m[p];
    if e < |u| {
      ExponentLast(u, e);
    } else {
      assert m == u;
      PointLast(m);
    }
  }

  /** A point form ends in a digit or in its dot. */
  lemma PointLast(m: string)
    requires PointFloat(m)
    ensures IsDigit(m[|m| - 1]) || m[|m| - 1] == '.'
  {
    var p := IndexOf(m, '.');
    var right := m[p + 1..];
    if right != [] {
      DigitPartChars(right);
      assert m[|m| - 1] == right[|right| - 1];
    }
  }

  /** An exponent's digits end the token. */
  lemma ExponentLast(u: string, e: nat)
    requires e < |u| && DigitPart(Unsigned(u[e + 1..]))
    ensures IsDigit(u[|u| - 1])
  {
    var x := Unsigned(u[e + 1..]);
    DigitPartChars(x);
    assert u[|u| - 1] == x[|x| - 1];
  }

  /** The decimal rendering of an integer is a token `int()` accepts, with that value. */
  lemma DecimalIsPyInt(n: int)
    ensures var s := Decimal(n); IsPyInt(s) && '.' !in s && PyIntValue(s) == n
  {
    var s := Decimal(n);
    DecimalStripped(n);
    var u := Unsigned(s);
    assert u == if n < 0 then s[1..] else s;
    DigitsAreDigitPart(u);
  }

  /** A decimal rendering has no whitespace to strip. */
  lemma DecimalStripped(n: int)
    ensures Strip(Decimal(n), PyWhitespace) == Decimal(n)
  {
    var s := Decimal(n);
    assert s[0] == '-' || IsDigit(s[0]);
    NotSpace(s[0]);
    NotSpace(s[|s| - 1]);
    StripUnchanged(s, PyWhitespace);
  }

  /** Digits and the minus sign are not whitespace. */
  lemma NotSpace(c: char)
    requires IsDigit(c) || c == '-'
    ensures c !in PyWhitespace
  {
  }

  /** Rendering an integer in decimal and coercing it gives the integer back. */
  lemma IntRoundTrip(n: int)
    ensures ParseValue(Decimal(n)) == Int(n)
  {
    DecimalIsPyInt(n);
    IntToken(Decimal(n));
  }
}
