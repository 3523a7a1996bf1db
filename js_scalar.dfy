/**
 * `parseValue` of the JavaScript parser. The three shape tests are the
 * regular expressions `^"(.*)"$`, `^-?\d+$` and `^-?\d*\.\d+$`, where `\d`
 * is an ASCII digit and `.` any character but a line terminator.
 */
module JsScalar {
  import opened Text
  import opened Numerals
  import opened Escapes
  import opened Values

  /** `^"(.*)"$`: two quotes, and no line terminator between them. */
  predicate IsJsQuoted(v: string)
  {
    |v| >= 2 && v[0] == '"' && v[|v| - 1] == '"' &&
    forall i :: 1 <= i < |v| - 1 ==> v[i] !in JsLineBreaks
  }

  /** The text after an optional leading `-`. */
  function OptMinus(v: string): string
  {
    if |v| > 0 && v[0] == '-' then v[1..] else v
  }

  /** `^-?\d+$`. */
  predicate IsJsInt(v: string)
  {
    var b := OptMinus(v);
    |b| >= 1 && AllDigits(b)
  }

  /** `parseInt(value, 10)` on a token that passed `^-?\d+$`. */
  function JsIntValue(v: string): int
    requires IsJsInt(v)
  {
    var magnitude: int := DigitsValue(OptMinus(v));
    if v[0] == '-' then -magnitude else magnitude
  }

  /** `^-?\d*\.\d+$`. */
  predicate IsJsFloat(v: string)
  {
    var b := OptMinus(v);
    var p := IndexOf(b, '.');
    p + 1 < |b| && AllDigits(b[..p]) && AllDigits(b[p + 1..])
  }

  /** `parseValue(value)`. */
  function ParseValue(v: string): (r: Value)
    ensures IsScalar(r)
  {
    if v == "null" then Null
    else if v == "true" then Bool(true)
    else if v == "false" then Bool(false)
    else if IsJsQuoted(v) then Str(UnescapeDouble(v[1..|v| - 1]))
    else if IsJsInt(v) then Int(JsIntValue(v))
    else if IsJsFloat(v) then Float(v)
    else Str(v)
  }

  /** Only `null` gives null. */
  lemma NullIff(v: string)
    ensures ParseValue(v) == Null <==> v == "null"
  {
  }

  /** Unlike the Python coercion, the empty token and `~` stay strings. */
  lemma EmptyAndTilde()
    ensures ParseValue("") == Str("")
    ensures ParseValue("~") == Str("~")
  {
    assert !IsJsInt("~") && !IsJsFloat("~") by {
      assert OptMinus("~") == "~";
      assert !IsDigit("~"[0]);
    }
  }

  /** Booleans come from exactly `true` and `false`. */
  lemma BoolIff(v: string, b: bool)
    ensures ParseValue(v) == Bool(b) <==> v == (if b then "true" else "false")
  {
  }

  /** A token the quote pattern accepts is its inside, unescaped; without a
      backslash the inside comes back as it is. */
  lemma Quoted(v: string)
    requires IsJsQuoted(v)
    ensures ParseValue(v) == Str(UnescapeDouble(v[1..|v| - 1]))
    ensures '\\' !in v ==> ParseValue(v) == Str(v[1..|v| - 1])
  {
    assert v != "null" && v != "true" && v != "false" by {
      assert "null"[0] == 'n' && "true"[0] == 't' && "false"[0] == 'f';
    }
    if '\\' !in v {
      UnescapeNoBackslash(v[1..|v| - 1]);
    }
  }

  /** A token that ends in a digit is none of the keywords and not quoted. */
  lemma DigitEnded(v: string)
    requires |v| >= 1 && IsDigit(v[|v| - 1])
    ensures ParseValue(v) ==
      if IsJsInt(v) then Int(JsIntValue(v)) else if IsJsFloat(v) then Float(v) else Str(v)
  {
    assert v != "null" && v != "true" && v != "false" by {
      assert "null"[3] == 'l' && "true"[3] == 'e' && "false"[4] == 'e';
    }
  }

  /** Every token of the integer pattern becomes that integer. */
  lemma IntToken(v: string)
    requires IsJsInt(v)
    ensures ParseValue(v) == Int(JsIntValue(v))
  {
    var b := OptMinus(v);
    assert v[|v| - 1] == b[|b| - 1];
    DigitEnded(v);
  }

  /** Every token of the float pattern becomes a float, kept as its text. */
  lemma FloatToken(v: string)
    requires IsJsFloat(v)
    ensures ParseValue(v) == Float(v)
  {
    var b := OptMinus(v);
    var p := IndexOf(b, '.');
    assert b[p] == '.';
    assert !IsJsInt(v);
    assert v[|v| - 1] == b[p + 1..][|b| - p - 2];
    DigitEnded(v);
  }

  /** Rendering an integer in decimal and coercing it gives the integer back. */
  lemma IntRoundTrip(n: int)
    ensures ParseValue(Decimal(n)) == Int(n)
  {
    var s := Decimal(n);
    assert IsJsInt(s);
    IntToken(s);
  }

  /** The fallback, in both directions: a token comes back as itself exactly
      when it is no keyword and none of the three patterns accepts it. A
      quoted token never does, since unescaping its inside cannot make it
      longer. */
  lemma Verbatim(v: string)
    ensures ParseValue(v) == Str(v) <==>
      v != "null" && v != "true" && v != "false" &&
      !IsJsQuoted(v) && !IsJsInt(v) && !IsJsFloat(v)
  {
    if IsJsQuoted(v) {
      UnescapeShrinks(v[1..|v| - 1]);
    }
  }

  /** A token that starts with neither a digit, a dash, a dot, a quote nor the
      first letter of a keyword is returned verbatim: `'a'` and `+5`, for instance. */
  lemma Unrecognised(v: string)
    requires |v| >= 1 && !IsDigit(v[0]) && v[0] !in {'-', '.', '"', 'n', 't', 'f'}
    ensures ParseValue(v) == Str(v)
  {
    assert v != "null" && v != "true" && v != "false" by {
      assert "null"[0] == 'n' && "true"[0] == 't' && "false"[0] == 'f';
    }
    assert OptMinus(v) == v;
    assert !IsDigit(v[0]);
    if IndexOf(v, '.') < |v| {
      assert v[..IndexOf(v, '.')][0] == v[0];
    }
  }

  /** A trailing dot or a second dot is not a float: `5.` and `1.0.0` stay strings. */
  lemma NotFloats()
    ensures ParseValue("5.") == Str("5.")
    ensures ParseValue("1.0.0") == Str("1.0.0")
  {
    assert !IsJsInt("5.") by { assert !IsDigit("5."[1]); }
    assert !IsJsFloat("5.") by { assert IndexOf("5.", '.') == 1; }
    assert !IsJsInt("1.0.0") by { assert !IsDigit("1.0.0"[1]); }
    assert !IsJsFloat("1.0.0") by {
      assert IndexOf("1.0.0", '.') == 1;
      assert "1.0.0"[2..][1] == '.';
    }
  }
}
