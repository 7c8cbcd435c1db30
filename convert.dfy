/** `convert_to_number` (task0/xvm/vm.py): a token becomes an int when `int()`
    accepts it, else a float when `float()` accepts it, else it stays a string. */
module Convert {
  import opened Values
  import opened PyText

  predicate IsDigit(c: char) { '0' <= c <= '9' }

  /** Digits with single underscores between them, as `int()` and `float()` accept. */
  predicate DigitPart(s: string)
  {
    && |s| >= 1 && IsDigit(s[|s| - 1])
    && (|s| == 1
        || (if s[|s| - 2] == '_' then |s| >= 3 && DigitPart(s[..|s| - 2]) else DigitPart(s[..|s| - 1])))
  }

  /** The number a digit part denotes; underscores do not count. */
  function DigitsValue(s: string): (n: nat)
  {
    if s == [] then 0
    else if IsDigit(s[|s| - 1]) then 10 * DigitsValue(s[..|s| - 1]) + (s[|s| - 1] as int - '0' as int)
    else DigitsValue(s[..|s| - 1])
  }

  /** `int(s)` in base 10: surrounding whitespace, an optional sign, a digit part. */
  function ParseInt(s: string): (r: Option<int>)
  {
    var t := Strip(s);
    if |t| >= 1 && (t[0] == '-' || t[0] == '+') && DigitPart(t[1..]) then
      Some(if t[0] == '-' then -(DigitsValue(t[1..]) as int) else DigitsValue(t[1..]))
    else if DigitPart(t) then Some(DigitsValue(t))
    else None
  }

  function Lower(c: char): char
  {
    if 'A' <= c <= 'Z' then (c as int + 32) as char else c
  }

  /** Lower-case ASCII letters, as `float()` does when it compares with inf,
      infinity and nan. */
  function LowerAll(s: string): (r: string)
    ensures |r| == |s|
    ensures forall i :: 0 <= i < |s| ==> r[i] == Lower(s[i])
  {
    if s == [] then [] else [Lower(s[0])] + LowerAll(s[1..])
  }

  /** The mantissa of a decimal float: `1`, `1.`, `1.5` or `.5`. */
  predicate Mantissa(m: string)
  {
    if '.' !in m then DigitPart(m)
    else
      var k := IndexOf(m, '.');
      var a, b := m[..k], m[k + 1..];
      (a != [] || b != []) && (a == [] || DigitPart(a)) && (b == [] || DigitPart(b))
  }

  predicate Exponent(e: string)
  {
    if |e| >= 1 && (e[0] == '-' || e[0] == '+') then DigitPart(e[1..]) else DigitPart(e)
  }

  /** A float literal without its sign. */
  predicate UnsignedFloat(u: string)
  {
    var w := LowerAll(u);
    if w == "inf" || w == "infinity" || w == "nan" then true
    else if 'e' in w then
      var k := IndexOf(w, 'e');
      Mantissa(u[..k]) && Exponent(u[k + 1..])
    else Mantissa(u)
  }

  /** What `float(s)` accepts. */
  predicate IsFloatLiteral(s: string)
  {
    var t := Strip(s);
    if |t| >= 1 && (t[0] == '-' || t[0] == '+') then UnsignedFloat(t[1..]) else UnsignedFloat(t)
  }

  /** `convert_to_number(s)` */
  function ConvertToNumber(s: string): (v: Value)
    ensures ParseInt(s).Some? ==> v == IntV(ParseInt(s).value)
    ensures v.RealV? <==> ParseInt(s).None? && IsFloatLiteral(s)
    ensures v.StrV? <==> ParseInt(s).None? && !IsFloatLiteral(s)
    ensures v.RealV? ==> v.f == FLit(s)
    ensures v.StrV? ==> v.s == s
  {
    match ParseInt(s)
    case Some(n) => IntV(n)
    case None => if IsFloatLiteral(s) then RealV(FLit(s)) else StrV(s)
  }

  /** The decimal digits of a natural number, as `str(n)` writes them. */
  function Digits(n: nat): (s: string)
    ensures |s| >= 1
  {
    if n < 10 then [('0' as int + n) as char] else Digits(n / 10) + [('0' as int + n % 10) as char]
  }

  /** `str(n)` for an int. */
  function IntToString(n: int): string
  {
    if n < 0 then "-" + Digits(-n) else Digits(n)
  }

  /** `Digits` gives a digit part whose value is the number written. */
  lemma {:induction false} DigitsCorrect(n: nat)
    ensures DigitPart(Digits(n)) && DigitsValue(Digits(n)) == n
    ensures forall i :: 0 <= i < |Digits(n)| ==> IsDigit(Digits(n)[i])
  {
    if n >= 10 {
      DigitsCorrect(n / 10);
      var s := Digits(n);
      assert s[..|s| - 1] == Digits(n / 10);
    }
  }

  /** Writing an int with `str` and reading it back with `convert_to_number`
      gives the int again. */
  lemma IntRoundTrip(n: int)
    ensures ConvertToNumber(IntToString(n)) == IntV(n)
  {
    var m := if n < 0 then -n else n;
    var d := Digits(m);
    DigitsCorrect(m);
    assert IsDigit(d[0]) && IsDigit(d[|d| - 1]);
    if n < 0 {
      ParseNegative(d);
    } else {
      ParseUnsigned(d);
    }
  }

  /** A digit part with no sign is read as its value. */
  lemma ParseUnsigned(d: string)
    requires DigitPart(d) && IsDigit(d[0])
    ensures ParseInt(d) == Some(DigitsValue(d) as int)
  {
    StripKeeps(d);
    assert d[0] != '-' && d[0] != '+';
  }

  /** A minus sign before a digit part negates its value. */
  lemma ParseNegative(d: string)
    requires DigitPart(d) && IsDigit(d[0])
    ensures ParseInt("-" + d) == Some(-(DigitsValue(d) as int))
  {
    NegativeParts(d);
    ParseSigned("-" + d);
  }

  /** A minus sign before a digit part is stripped text whose tail is that part. */
  lemma NegativeParts(d: string)
    requires DigitPart(d)
    ensures Strip("-" + d) == "-" + d && ("-" + d)[0] == '-' && ("-" + d)[1..] == d
  {
    ConsParts('-', d);
    StripKeeps("-" + d);
  }

  /** The tail and the last element of a non-empty sequence with one element put in front. */
  lemma ConsParts<T>(x: T, d: seq<T>)
    requires |d| >= 1
    ensures ([x] + d)[1..] == d && ([x] + d)[|d|] == d[|d| - 1] && ([x] + d)[0] == x
  {
  }

  /** Stripped text made of a minus sign and a digit part. */
  lemma ParseSigned(s: string)
    requires Strip(s) == s && |s| >= 1 && s[0] == '-' && DigitPart(s[1..])
    ensures ParseInt(s) == Some(-(DigitsValue(s[1..]) as int))
  {
    ParseStrippedSigned(s);
  }

  /** `int()` of a text whose stripped form is a minus sign and a digit part. */
  lemma ParseStrippedSigned(s: string)
    requires |Strip(s)| >= 1 && Strip(s)[0] == '-' && DigitPart(Strip(s)[1..])
    ensures ParseInt(s) == Some(-(DigitsValue(Strip(s)[1..]) as int))
  {
  }

  /** ASCII letters and underscores only, as opcode names and variable names are. */
  predicate LetterWord(s: string)
  {
    forall i :: 0 <= i < |s| ==> 'A' <= s[i] <= 'Z' || 'a' <= s[i] <= 'z' || s[i] == '_'
  }

  lemma WordNotMantissa(m: string)
    requires LetterWord(m)
    ensures !Mantissa(m)
  {
    assert '.' !in m;
    assert m != [] ==> !IsDigit(m[|m| - 1]);
  }

  /** A token of letters and underscores that does not spell inf, infinity or nan
      stays a string; opcode names and plain variable names are such tokens. */
  lemma NameStaysString(s: string)
    requires LetterWord(s)
    requires LowerAll(s) != "inf" && LowerAll(s) != "infinity" && LowerAll(s) != "nan"
    ensures ConvertToNumber(s) == StrV(s)
  {
    if s != [] {
      assert !IsSpace(s[0]) && !IsSpace(s[|s| - 1]);
      StripKeeps(s);
      assert s[0] != '-' && s[0] != '+';
    }
    WordNotInt(s);
    WordNotFloat(s);
  }

  /** `int()` refuses a word of letters. */
  lemma WordNotInt(s: string)
    requires LetterWord(s) && Strip(s) == s
    ensures ParseInt(s) == None
  {
    if s != [] {
      assert !IsDigit(s[|s| - 1]);
    }
  }

  /** `float()` refuses a word of letters other than inf, infinity and nan. */
  lemma WordNotFloat(s: string)
    requires LetterWord(s) && Strip(s) == s && (s == [] || (s[0] != '-' && s[0] != '+'))
    requires LowerAll(s) != "inf" && LowerAll(s) != "infinity" && LowerAll(s) != "nan"
    ensures !IsFloatLiteral(s)
  {
    WordNotUnsigned(s);
  }

  /** Without its sign, a word of letters is no float literal either. */
  lemma WordNotUnsigned(s: string)
    requires LetterWord(s)
    requires LowerAll(s) != "inf" && LowerAll(s) != "infinity" && LowerAll(s) != "nan"
    ensures !UnsignedFloat(s)
  {
    WordNotMantissa(s);
    if 'e' in LowerAll(s) {
      var k := IndexOf(LowerAll(s), 'e');
      assert LetterWord(s[..k]);
      WordNotMantissa(s[..k]);
    }
  }

  /** The same for a word whose length or second letter already rules out inf,
      infinity and nan. */
  lemma WordStaysString(s: string)
    requires LetterWord(s)
    requires (|s| != 3 && |s| != 8) || (s[1] != 'N' && s[1] != 'n' && s[1] != 'A' && s[1] != 'a')
    ensures ConvertToNumber(s) == StrV(s)
  {
    NameStaysString(s);
  }

  /** A single digit is the int it denotes. */
  lemma DigitNumber(c: char)
    requires IsDigit(c)
    ensures ConvertToNumber([c]) == IntV(c as int - '0' as int)
  {
    StripKeeps([c]);
    assert [c][..0] == [];
    assert DigitPart([c]);
    assert DigitsValue([c]) == c as int - '0' as int;
    assert ParseInt([c]) == Some(c as int - '0' as int);
  }

  /** A digit, a point and a digit, such as `7.0`, is a float. */
  lemma PointNumber(a: char, b: char)
    requires IsDigit(a) && IsDigit(b)
    ensures ConvertToNumber([a, '.', b]) == RealV(FLit([a, '.', b]))
  {
    var s := [a, '.', b];
    StripKeeps(s);
    assert s[..2] == [a, '.'] && [a, '.'][..1] == [a];
    assert !DigitPart(s);
    assert LowerAll(s)[0] == a by {
      assert LowerAll(s)[0] == Lower(s[0]);
    }
    assert 'e' !in LowerAll(s) by {
      assert LowerAll(s)[1..] == LowerAll(s[1..]);
      assert LowerAll(s[1..])[1..] == LowerAll([b]);
    }
    assert IndexOf(s, '.') == 1;
    assert s[..1] == [a] && s[2..] == [b];
  }
}
