/** Dynamically typed variable values and the total coercions the guards and
    precondition checks apply to them (the Java string forms, boolean parsing,
    decimal and integer parsing). */
module Values {
  import opened Domain

  datatype Option<+T> = None | Some(value: T)

  /** A value held in a variable bag or a payload. Numbers keep apart the
      integral boxes (Integer, Long) from Double, because their string forms
      differ ("100" and "100.0") and one check parses the string form. */
  datatype Value =
    | VNull
    | VBool(b: bool)
    | VInt(i: int)
    | VDouble(d: real)
    | VStr(s: string)
    | VType(t: ProcessType)
    | VList(items: seq<Value>)

  /** A key/value bag: extended variables, stored variables or a payload. */
  type Vars = map<string, Value>

  /** Map lookup where a missing key reads as null. */
  function Lookup(m: Vars, k: string): Value {
    if k in m then m[k] else VNull
  }

  // ---------------------------------------------------------------------
  // Characters and strings
  // ---------------------------------------------------------------------

  /** Java's Character.isWhitespace: the ASCII separators and the Unicode
      space separators other than the non-breaking ones. */
  predicate IsWhitespace(c: char) {
    c == ' ' || c == '\t' || c == '\n' || c == '\U{B}' || c == '\U{C}' || c == '\r'
    || ('\U{1C}' <= c <= '\U{1F}') || c == '\U{1680}' || ('\U{2000}' <= c <= '\U{2006}')
    || ('\U{2008}' <= c <= '\U{200A}') || c == '\U{2028}' || c == '\U{2029}'
    || c == '\U{205F}' || c == '\U{3000}'
  }

  /** String.isBlank: empty or whitespace only. */
  predicate IsBlank(s: string) {
    forall i :: 0 <= i < |s| ==> IsWhitespace(s[i])
  }

  /** Leading characters at or below U+0020 removed, as String.trim does. */
  function TrimStart(s: string): (r: string)
    ensures |r| <= |s| && r == s[|s| - |r|..]
    ensures |r| > 0 ==> r[0] > ' '
    ensures forall i :: 0 <= i < |s| - |r| ==> s[i] <= ' '
  {
    if |s| > 0 && s[0] <= ' ' then TrimStart(s[1..]) else s
  }

  /** Trailing characters at or below U+0020 removed. */
  function TrimEnd(s: string): (r: string)
    ensures |r| <= |s| && r == s[..|r|]
    ensures |r| > 0 ==> r[|r| - 1] > ' '
    ensures forall i :: |r| <= i < |s| ==> s[i] <= ' '
  {
    if |s| > 0 && s[|s| - 1] <= ' ' then TrimEnd(s[..|s| - 1]) else s
  }

  /** String.trim. */
  function Trim(s: string): string {
    TrimEnd(TrimStart(s))
  }

  /** The trimmed string is a slice of the input that starts and ends with a
      character above U+0020, and only characters at or below U+0020 were cut. */
  lemma TrimIsInnerSlice(s: string)
    ensures exists a, b ::
              && 0 <= a <= b <= |s| && Trim(s) == s[a..b]
              && (forall i :: 0 <= i < a ==> s[i] <= ' ')
              && (forall i :: b <= i < |s| ==> s[i] <= ' ')
    ensures |Trim(s)| > 0 ==> Trim(s)[0] > ' ' && Trim(s)[|Trim(s)| - 1] > ' '
  {
    var t := TrimStart(s);
    var u := TrimEnd(t);
    var a := |s| - |t|;
    var b := a + |u|;
    assert t == s[a..];
    assert u == t[..|u|];
    assert u == s[a..b];
    forall i | b <= i < |s|
      ensures s[i] <= ' '
    {
      assert s[i] == t[i - a];
    }
    assert Trim(s) == u;
  }

  /** Upper-casing of the ASCII letters. */
  function UpperChar(c: char): char {
    if 'a' <= c <= 'z' then (c as int - 32) as char else c
  }

  function ToUpper(s: string): (r: string)
    ensures |r| == |s| && forall i :: 0 <= i < |s| ==> r[i] == UpperChar(s[i])
  {
    if s == [] then [] else [UpperChar(s[0])] + ToUpper(s[1..])
  }

  /** String.equalsIgnoreCase, over ASCII case folding. */
  predicate EqualsIgnoreCase(a: string, b: string) {
    |a| == |b| && forall i :: 0 <= i < |a| ==> UpperChar(a[i]) == UpperChar(b[i])
  }

  /** Boolean.parseBoolean: true exactly for "true" in any letter case. */
  predicate ParseBoolean(s: string) {
    EqualsIgnoreCase(s, "true")
  }

  function BoolText(b: bool): string {
    if b then "true" else "false"
  }

  // ---------------------------------------------------------------------
  // Decimal digits and integers
  // ---------------------------------------------------------------------

  const MinInt: int := -0x8000_0000
  const MaxInt: int := 0x7FFF_FFFF

  predicate IsDigit(c: char) {
    '0' <= c <= '9'
  }

  predicate AllDigits(s: string) {
    forall i :: 0 <= i < |s| ==> IsDigit(s[i])
  }

  function DigitOf(c: char): nat
    requires IsDigit(c)
  {
    c as int - '0' as int
  }

  function DigitChar(d: nat): char
    requires d < 10
  {
    ('0' as int + d) as char
  }

  /** The number a run of decimal digits denotes (0 for the empty run). */
  function DigitsValue(s: string): nat
    requires AllDigits(s)
  {
    if s == [] then 0 else DigitsValue(s[..|s| - 1]) * 10 + DigitOf(s[|s| - 1])
  }

  /** Decimal text of a natural number, without leading zeros. */
  function NatText(n: nat): (r: string)
    ensures |r| > 0 && AllDigits(r)
  {
    if n < 10 then [DigitChar(n)] else NatText(n / 10) + [DigitChar(n % 10)]
  }

  /** The string form of an integral box (Integer.toString / Long.toString). */
  function IntText(i: int): string {
    if i < 0 then "-" + NatText(-i) else NatText(i)
  }

  lemma {:induction false} NatTextValue(n: nat)
    ensures DigitsValue(NatText(n)) == n
  {
    if n >= 10 {
      NatTextValue(n / 10);
      var t := NatText(n);
      assert t[..|t| - 1] == NatText(n / 10);
    }
  }

  /** Integer.parseInt: an optional sign followed by at least one ASCII digit,
      whose value fits in 32 bits; anything else fails. */
  function ParseInt(s: string): (r: Option<int>)
    ensures r.Some? ==> MinInt <= r.value <= MaxInt
    ensures r.Some? ==> |s| > 0 && if s[0] == '-' || s[0] == '+' then |s| > 1 && AllDigits(s[1..]) else AllDigits(s)
    ensures r.Some? && s[0] != '-' ==> r.value >= 0
    ensures |s| > 0 && AllDigits(s) && DigitsValue(s) <= MaxInt ==> r == Some(DigitsValue(s))
    ensures r.Some? ==> r.value == if s[0] == '-' then 0 - DigitsValue(s[1..])
                                   else if s[0] == '+' then DigitsValue(s[1..]) as int
                                   else DigitsValue(s) as int
    ensures |s| > 1 && s[0] == '-' && AllDigits(s[1..]) && DigitsValue(s[1..]) <= -MinInt ==> r == Some(0 - DigitsValue(s[1..]))
    ensures |s| > 1 && s[0] == '+' && AllDigits(s[1..]) && DigitsValue(s[1..]) <= MaxInt ==> r == Some(DigitsValue(s[1..]) as int)
  {
    if |s| == 0 then None
    else
      var digits := if s[0] == '-' || s[0] == '+' then s[1..] else s;
      if |digits| == 0 || !AllDigits(digits) then None
      else
        var v: int := if s[0] == '-' then 0 - DigitsValue(digits) else DigitsValue(digits);
        if MinInt <= v <= MaxInt then Some(v) else None
  }

  /** Parsing the string form of an integer gives it back exactly when it is
      in the 32-bit range. */
  lemma ParseIntText(i: int)
    ensures ParseInt(IntText(i)) == if MinInt <= i <= MaxInt then Some(i) else None
  {
    var n := if i < 0 then -i else i;
    NatTextValue(n);
    var t := NatText(n);
    if i < 0 {
      assert IntText(i)[1..] == t;
    } else {
      assert IsDigit(t[0]);
    }
  }

  // ---------------------------------------------------------------------
  // Decimal numbers (Double.parseDouble, over exact reals)
  // ---------------------------------------------------------------------

  function Pow10(n: nat): (r: real)
    ensures r >= 1.0
  {
    if n == 0 then 1.0 else 10.0 * Pow10(n - 1)
  }

  /** Position of the first character of s in cs, or |s| when there is none. */
  function IndexOf(s: string, cs: set<char>): (k: nat)
    ensures k <= |s|
    ensures k < |s| ==> s[k] in cs
    ensures forall j :: 0 <= j < k ==> s[j] !in cs
  {
    if s == [] then 0 else if s[0] in cs then 0 else 1 + IndexOf(s[1..], cs)
  }

  /** Digits with an optional decimal point, at least one digit overall. */
  function ParseMantissa(m: string): Option<real> {
    var p := IndexOf(m, {'.'});
    var intPart := m[..p];
    var fracPart := if p < |m| then m[p + 1..] else "";
    if AllDigits(intPart) && AllDigits(fracPart) && |intPart| + |fracPart| > 0 then
      Some(DigitsValue(intPart) as real + DigitsValue(fracPart) as real / Pow10(|fracPart|))
    else None
  }

  /** An optionally signed run of at least one digit. */
  function ParseExponent(e: string): Option<int> {
    var digits := if |e| > 0 && (e[0] == '-' || e[0] == '+') then e[1..] else e;
    if |digits| == 0 || !AllDigits(digits) then None
    else if e[0] == '-' then Some(0 - DigitsValue(digits)) else Some(DigitsValue(digits) as int)
  }

  function Scale(x: real, e: int): real {
    if e >= 0 then x * Pow10(e) else x / Pow10(-e)
  }

  /** An unsigned decimal literal: mantissa, then an optional exponent. */
  function ParseUnsigned(core: string): Option<real> {
    var k := IndexOf(core, {'e', 'E'});
    match ParseMantissa(core[..k])
    case None => None
    case Some(m) =>
      if k == |core| then Some(m)
      else match ParseExponent(core[k + 1..])
        case None => None
        case Some(e) => Some(Scale(m, e))
  }

  /** An unsigned literal with an optional type suffix f, F, d or D. */
  function ParseLiteral(body: string): Option<real> {
    if |body| > 0 && body[|body| - 1] in {'f', 'F', 'd', 'D'} then ParseUnsigned(body[..|body| - 1])
    else ParseUnsigned(body)
  }

  /** An optional sign, then the literal. */
  function ParseSigned(t: string): Option<real> {
    if |t| > 0 && t[0] == '-' then
      match ParseLiteral(t[1..])
      case None => None
      case Some(m) => Some(-m)
    else if |t| > 0 && t[0] == '+' then ParseLiteral(t[1..])
    else ParseLiteral(t)
  }

  /** Double.parseDouble over the decimal grammar: surrounding characters at
      or below U+0020 are ignored, then an optional sign, the unsigned literal
      and an optional type suffix. */
  function ParseDouble(s: string): Option<real> {
    ParseSigned(Trim(s))
  }

  // ---------------------------------------------------------------------
  // Coercions of values
  // ---------------------------------------------------------------------

  /** The guards' and checks' toDouble: null gives nothing, a number its
      value, anything else the parse of its string form. A boolean, a type
      name and a list's "[...]" never parse. */
  function ToDouble(v: Value): Option<real> {
    match v
    case VNull => None
    case VInt(i) => Some(i as real)
    case VDouble(d) => Some(d)
    case VStr(s) => ParseDouble(s)
    case _ => None
  }

  /** A Boolean is itself, null is the default, any other value is true iff
      its string form is "true" in any case; only strings can spell that. */
  function AsBoolean(v: Value, default: bool): bool {
    match v
    case VBool(b) => b
    case VNull => default
    case VStr(s) => ParseBoolean(s)
    case _ => false
  }

  /** "APPROVED".equalsIgnoreCase of the string form. Null's form is never
      "APPROVED"; neither is a number's or a list's, which hold digits or
      brackets. */
  predicate IsApproved(v: Value) {
    match v
    case VStr(s) => EqualsIgnoreCase(s, "APPROVED")
    case VBool(b) => EqualsIgnoreCase(BoolText(b), "APPROVED")
    case VType(t) => EqualsIgnoreCase(TypeName(t), "APPROVED")
    case _ => false
  }

  /** Objects.toString(v, "").isBlank(): null reads as the empty string; the
      forms of booleans, numbers, type names and lists are never blank. */
  predicate TextBlank(v: Value) {
    match v
    case VNull => true
    case VStr(s) => IsBlank(s)
    case _ => false
  }

  /** Integer.parseInt(String.valueOf(v)). A Double's form always holds a
      '.', an exponent or a letter, and a list's form brackets, so neither
      parses. */
  function IntOf(v: Value): Option<int> {
    match v
    case VNull => ParseInt("null")
    case VBool(b) => ParseInt(BoolText(b))
    case VInt(i) => ParseInt(IntText(i))
    case VStr(s) => ParseInt(s)
    case VType(t) => ParseInt(TypeName(t))
    case _ => None
  }

  // ---------------------------------------------------------------------
  // Properties of the coercions
  // ---------------------------------------------------------------------

  lemma MantissaExample()
    ensures ParseMantissa("0.960") == Some(0.96)
  {
    assert IndexOf("0.960", {'.'}) == 1;
    assert "0.960"[..1] == "0" && "0.960"[2..] == "960";
    assert "960"[..2] == "96" && "96"[..1] == "9" && "9"[..0] == "";
    assert DigitsValue("960") == 960;
    assert DigitsValue("0") == 0;
    assert Pow10(3) == 1000.0;
  }

  /** toDouble accepts numeric strings such as "0.960". */
  lemma ToDoubleDecimalString()
    ensures ToDouble(VStr("0.960")) == Some(0.96)
  {
    assert TrimStart("0.960") == "0.960";
    assert TrimEnd("0.960") == "0.960";
    assert IndexOf("0.960", {'e', 'E'}) == 5;
    assert "0.960"[..5] == "0.960";
    MantissaExample();
    assert ParseLiteral("0.960") == Some(0.96);
  }

  lemma TrimSignedSample()
    ensures Trim(" -1.5e1 ") == "-1.5e1"
  {
    assert TrimStart(" -1.5e1 ") == "-1.5e1 ";
    assert TrimEnd("-1.5e1 ") == "-1.5e1";
  }

  lemma MantissaOnePointFive()
    ensures ParseMantissa("1.5") == Some(1.5)
  {
    assert IndexOf("1.5", {'.'}) == 1;
    assert "1.5"[..1] == "1" && "1.5"[2..] == "5";
    assert DigitsValue("1") == 1 && DigitsValue("5") == 5;
  }

  lemma UnsignedWithExponent()
    ensures ParseUnsigned("1.5e1") == Some(15.0)
  {
    assert IndexOf("1.5e1", {'e', 'E'}) == 3;
    assert "1.5e1"[..3] == "1.5" && "1.5e1"[4..] == "1";
    MantissaOnePointFive();
    assert ParseExponent("1") == Some(1);
  }

  lemma SignedSample()
    ensures ParseSigned("-1.5e1") == Some(-15.0)
  {
    assert "-1.5e1"[0] == '-' && "-1.5e1"[1..] == "1.5e1";
    UnsignedWithExponent();
    assert ParseLiteral("1.5e1") == Some(15.0);
  }

  /** Surrounding blanks, a sign and an exponent are accepted. */
  lemma ToDoubleSignedExponent()
    ensures ToDouble(VStr(" -1.5e1 ")) == Some(-15.0)
  {
    TrimSignedSample();
    SignedSample();
  }

  /** A string with nothing at or below U+0020 at either end is its own trim. */
  lemma TrimInner(s: string)
    requires |s| > 0 && s[0] > ' ' && s[|s| - 1] > ' '
    ensures Trim(s) == s
  {
    assert TrimStart(s) == s;
  }

  /** A search for characters the string does not hold runs to its end. */
  lemma IndexOfAbsent(s: string, cs: set<char>)
    requires forall j :: 0 <= j < |s| ==> s[j] !in cs
    ensures IndexOf(s, cs) == |s|
  {
  }

  /** An unsigned run of digits parses, as a decimal literal, to its value. */
  lemma DigitsLiteral(t: string)
    requires |t| > 0 && AllDigits(t)
    ensures ParseLiteral(t) == Some(DigitsValue(t) as real)
  {
    assert !(t[|t| - 1] in {'f', 'F', 'd', 'D'});
    IndexOfAbsent(t, {'e', 'E'});
    IndexOfAbsent(t, {'.'});
    assert t[..|t|] == t;
  }

  /** The decimal text of a natural converts, as a double, to its value. */
  lemma ParseDoubleNatText(n: nat)
    ensures ParseDouble(NatText(n)) == Some(n as real)
  {
    var t := NatText(n);
    NatTextValue(n);
    DigitsLiteral(t);
    TrimInner(t);
    assert IsDigit(t[0]);
  }

  /** A leading minus negates the literal after it. */
  lemma MinusNegates(s: string)
    requires |s| > 0 && s[0] == '-' && ParseLiteral(s[1..]).Some?
    ensures ParseSigned(s) == Some(-ParseLiteral(s[1..]).value)
  {
  }

  /** The string form of every integral box converts, as a double, to the
      box's value. */
  lemma ParseDoubleIntText(i: int)
    ensures ParseDouble(IntText(i)) == Some(i as real)
  {
    if i < 0 {
      var t := NatText(-i);
      NatTextValue(-i);
      var s := "-" + t;
      assert s[1..] == t;
      DigitsLiteral(t);
      MinusNegates(s);
      assert s[|s| - 1] == t[|t| - 1] && IsDigit(t[|t| - 1]);
      TrimInner(s);
      assert IntText(i) == s;
    } else {
      ParseDoubleNatText(i);
    }
  }

  /** A string with no digits does not parse. */
  lemma ToDoubleRejects()
    ensures ToDouble(VStr("abc")) == None
    ensures ToDouble(VStr("")) == None
  {
    assert Trim("abc") == "abc";
    assert IndexOf("abc", {'e', 'E'}) == 3;
    assert IndexOf("abc", {'.'}) == 3;
    assert !IsDigit("abc"[0]);
  }

  /** asBoolean returns the default only for null, and a non-Boolean other
      value is true exactly when it is a string spelling "true" in any case. */
  lemma AsBooleanCases(v: Value, default: bool)
    ensures v == VNull ==> AsBoolean(v, default) == default
    ensures v.VBool? ==> AsBoolean(v, default) == v.b
    ensures !v.VNull? && !v.VBool? ==> (AsBoolean(v, default) <==> v.VStr? && EqualsIgnoreCase(v.s, "true"))
    ensures AsBoolean(VStr("TRUE"), default) && !AsBoolean(VStr("yes"), default)
  {
  }

  /** The integer parse of a value's string form: an integral box parses to
      itself within 32 bits, "100.0" and "abc" do not parse, and a Double
      never parses. */
  lemma IntOfCases(v: Value)
    ensures v.VInt? ==> IntOf(v) == if MinInt <= v.i <= MaxInt then Some(v.i) else None
    ensures v.VDouble? || v.VList? || v.VNull? ==> IntOf(v) == None
    ensures IntOf(VStr("100")) == Some(100)
    ensures IntOf(VStr("100.0")) == None && IntOf(VStr("abc")) == None
  {
    if v.VInt? {
      ParseIntText(v.i);
    }
    assert "100"[..2] == "10" && "10"[..1] == "1" && "1"[..0] == "";
    assert DigitsValue("100") == 100;
    assert !IsDigit("100.0"[3]) && !IsDigit("abc"[0]) && !IsDigit("null"[0]);
  }
}
