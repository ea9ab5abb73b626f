/// The JavaScript values that flow through the core untyped: scraped payloads,
/// the parsed narrator reply and log data. Numbers are integers; `Null` stands
/// for both `null` and `undefined`, which the core never tells apart.
module Json {
  import opened Wrappers
  import opened Strings

  datatype Value =
    | Null
    | Bool(b: bool)
    | Num(n: int)
    | NaN
    | Str(s: string)
    | Arr(items: seq<Value>)
    | Obj(fields: map<string, Value>)

  /** A plain object: `Record<string, unknown>`. */
  type Record = map<string, Value>

  /** `r[k]`, `undefined` when the key is missing. */
  function Get(r: Record, k: string): Value {
    if k in r then r[k] else Null
  }

  /** JavaScript truthiness. */
  predicate Truthy(v: Value) {
    match v
    case Null => false
    case Bool(b) => b
    case Num(n) => n != 0
    case NaN => false
    case Str(s) => s != ""
    case Arr(_) => true
    case Obj(_) => true
  }

  /** `a || b`. */
  function Or(a: Value, b: Value): (r: Value)
    ensures Truthy(a) ==> r == a
    ensures !Truthy(a) ==> r == b
  {
    if Truthy(a) then a else b
  }

  /** The text of a string value; any other value reads as no text. */
  function TextOf(v: Value): string {
    if v.Str? then v.s else ""
  }

  /** `(v as string) || fallback` for a field expected to hold a string. */
  function TextOr(v: Value, fallback: string): (r: string)
    ensures Truthy(v) && v.Str? ==> r == v.s
    ensures !(v.Str? && v.s != "") ==> r == fallback
  {
    if v.Str? && v.s != "" then v.s else fallback
  }

  /** A string field as an optional string: present only when it holds a string. */
  function OptText(v: Value): Option<string> {
    if v.Str? then Some(v.s) else None
  }

  /** `(v as number) || 0` for a field expected to hold a number. */
  function NumOr0(v: Value): int {
    if v.Num? then v.n else 0
  }

  /** A numeric field as an optional number. */
  function OptNum(v: Value): Option<int> {
    if v.Num? then Some(v.n) else None
  }

  /** `(v as T[]) || []` for a field expected to hold an array. */
  function ItemsOf(v: Value): seq<Value> {
    if v.Arr? then v.items else []
  }

  /** `(v as Record) || {}` for a field expected to hold an object. */
  function FieldsOf(v: Value): Record {
    if v.Obj? then v.fields else map[]
  }

  /** The strings of an array of values, with non-strings read as `""`. */
  function Texts(vs: seq<Value>): (r: seq<string>)
    ensures |r| == |vs|
    ensures forall i :: 0 <= i < |vs| ==> r[i] == TextOf(vs[i])
  {
    seq(|vs|, i requires 0 <= i < |vs| => TextOf(vs[i]))
  }

  /** An optional string as a value: `undefined` when absent. */
  function FromOpt(o: Option<string>): Value {
    match o
    case Some(s) => Str(s)
    case None => Null
  }

  // ---------------------------------------------------------------------------
  // Number(...) coercion

  /** The value of a digit character in base `radix` (letters from 10), if it is one. */
  function RadixDigit(c: char, radix: nat): Option<nat> {
    var d := if '0' <= c <= '9' then c as int - '0' as int
             else if 'a' <= c <= 'z' then c as int - 'a' as int + 10
             else if 'A' <= c <= 'Z' then c as int - 'A' as int + 10
             else radix;
    if d < radix then Some(d) else None
  }

  predicate AllRadixDigits(s: string, radix: nat) {
    forall k :: 0 <= k < |s| ==> RadixDigit(s[k], radix).Some?
  }

  /** The value of a run of base-`radix` digits, most significant first. */
  function RadixValue(s: string, radix: nat): nat
    requires AllRadixDigits(s, radix)
  {
    if s == [] then 0
    else radix * RadixValue(s[..|s| - 1], radix) + RadixDigit(s[|s| - 1], radix).value
  }

  /** The base a `0x`, `0o` or `0b` prefix letter announces, or 0. */
  function RadixOfPrefix(c: char): nat {
    if c == 'x' || c == 'X' then 16
    else if c == 'o' || c == 'O' then 8
    else if c == 'b' || c == 'B' then 2
    else 0
  }

  function Pow10(e: nat): (r: nat)
    ensures r >= 1
  {
    if e == 0 then 1 else 10 * Pow10(e - 1)
  }

  /** The position of the exponent marker `e` or `E`, or the length. */
  function ExponentAt(t: string): (i: nat)
    ensures i <= |t|
    ensures forall k :: 0 <= k < i ==> t[k] != 'e' && t[k] != 'E'
    ensures i < |t| ==> t[i] == 'e' || t[i] == 'E'
  {
    if t == [] || t[0] == 'e' || t[0] == 'E' then 0 else 1 + ExponentAt(t[1..])
  }

  /** The position of the decimal point, or the length. */
  function PointAt(t: string): (i: nat)
    ensures i <= |t|
    ensures forall k :: 0 <= k < i ==> t[k] != '.'
    ensures i < |t| ==> t[i] == '.'
  {
    if t == [] || t[0] == '.' then 0 else 1 + PointAt(t[1..])
  }

  predicate AllDigits(s: string) {
    forall k :: 0 <= k < |s| ==> IsDigit(s[k])
  }

  /** An optionally signed exponent: `[+-]digits`. */
  function ExponentValue(t: string): Option<int> {
    var neg := t != [] && t[0] == '-';
    var ds := if t != [] && (t[0] == '-' || t[0] == '+') then t[1..] else t;
    if ds != [] && AllDigits(ds) then Some(if neg then 0 - DigitsValue(ds) as int else DigitsValue(ds) as int) else None
  }

  /**
   * The digits of a mantissa `digits[.digits]` (at least one digit) with the
   * point removed, and how many of them follow the point.
   */
  function Mantissa(t: string): Option<(nat, nat)> {
    var p := PointAt(t);
    var whole := t[..p];
    var fraction := if p < |t| then t[p + 1..] else "";
    if whole + fraction == "" || !AllDigits(whole) || !AllDigits(fraction) then None
    else Some((DigitsValue(whole + fraction), |fraction|))
  }

  /** m times ten to the `shift`, when that is an integer. */
  function Scaled(m: nat, shift: int): Option<int> {
    if shift >= 0 then Some(m * Pow10(shift))
    else if m % Pow10(-shift) == 0 then Some(m / Pow10(-shift))
    else None
  }

  /**
   * The value of an unsigned decimal literal `digits[.digits][e[+-]digits]`,
   * when that value is an integer: the mantissa's digits times ten to the
   * exponent less the number of fraction digits.
   */
  function DecimalValue(t: string): Option<int> {
    var e := ExponentAt(t);
    var exponent := if e < |t| then ExponentValue(t[e + 1..]) else Some(0);
    match (Mantissa(t[..e]), exponent)
    case (Some((m, f)), Some(x)) => Scaled(m, x - f)
    case _ => None
  }

  /**
   * `Number(s)` (StringToNumber, section 7.1.4.1.1 of ECMA-262) for the texts
   * whose value is an integer: surrounding whitespace is ignored; the blank
   * text is 0; `0x`, `0o` and `0b` introduce unsigned hexadecimal, octal and
   * binary digits; otherwise an optional sign precedes a decimal literal with
   * an optional fraction and exponent. Any other text is NaN, and so are the
   * texts whose value is fractional or infinite, which integers cannot hold.
   */
  function ParseNumber(s: string): (r: Value)
    ensures r.Num? || r.NaN?
  {
    TrimmedNumber(Trim(s))
  }

  /** `Number` of a text without surrounding whitespace. */
  function TrimmedNumber(t: string): (r: Value)
    ensures r.Num? || r.NaN?
  {
    if t == "" then Num(0)
    else if |t| >= 2 && t[0] == '0' && RadixOfPrefix(t[1]) != 0 then
      var digits := t[2..];
      if digits != [] && AllRadixDigits(digits, RadixOfPrefix(t[1])) then Num(RadixValue(digits, RadixOfPrefix(t[1])))
      else NaN
    else
      var body := if t[0] == '-' || t[0] == '+' then t[1..] else t;
      match DecimalValue(body)
      case Some(n) => Num(if t[0] == '-' then -n else n)
      case None => NaN
  }

  /** A run of digits is read as a decimal literal (a leading digit is never a base prefix). */
  lemma ParseDigitsText(t: string)
    requires t != [] && AllDigits(t)
    ensures ParseNumber(t) == (match DecimalValue(t) case Some(n) => Num(n) case None => NaN)
  {
    TrimUnpadded(t);
    assert |t| >= 2 ==> RadixOfPrefix(t[1]) == 0;
  }

  /** A minus sign before a run of digits negates its decimal value. */
  lemma ParseNegatedDigitsText(t: string)
    requires t != [] && AllDigits(t)
    ensures ParseNumber("-" + t) == (match DecimalValue(t) case Some(n) => Num(-n) case None => NaN)
  {
    var u := "-" + t;
    assert u[0] == '-' && u[|u| - 1] == t[|t| - 1];
    TrimUnpadded(u);
    SignedDecimal(t, u);
  }

  lemma SignedDecimal(t: string, u: string)
    requires t != [] && AllDigits(t) && u == "-" + t && Trim(u) == u
    ensures ParseNumber(u) == (match DecimalValue(t) case Some(n) => Num(-n) case None => NaN)
  {
    assert u[1..] == t;
  }

  /** The text of a natural number, bare or with a minus sign, converts back to it. */
  lemma NumberOfDecimalText(n: nat)
    ensures ParseNumber(NatToString(n)) == Num(n)
    ensures ParseNumber("-" + NatToString(n)) == Num(0 - n)
  {
    DigitsValueOfText(n);
    DigitsNumber(NatToString(n), n);
    NegatedDigitsNumber(NatToString(n), n);
  }

  lemma DigitsNumber(t: string, n: nat)
    requires t != [] && AllDigits(t) && DigitsValue(t) == n
    ensures ParseNumber(t) == Num(n)
  {
    DecimalOfDigits(t);
    ParseDigitsText(t);
  }

  lemma NegatedDigitsNumber(t: string, n: nat)
    requires t != [] && AllDigits(t) && DigitsValue(t) == n
    ensures ParseNumber("-" + t) == Num(0 - n)
  {
    DecimalOfDigits(t);
    assert DecimalValue(t) == Some(n as int);
    ParseNegatedDigitsText(t);
  }

  /** `m` followed by `e` and a non-negative exponent `x` converts to m times ten to the x. */
  lemma NumberOfExponent(m: nat, x: nat)
    ensures ParseNumber(NatToString(m) + "e" + NatToString(x)) == Num(m * Pow10(x))
  {
    DigitsValueOfText(m);
    DigitsValueOfText(x);
    ExponentNumber(NatToString(m), NatToString(x), m, x);
  }

  lemma ExponentNumber(a: string, b: string, m: nat, x: nat)
    requires a != [] && AllDigits(a) && b != [] && AllDigits(b) && DigitsValue(a) == m && DigitsValue(b) == x
    ensures ParseNumber(a + "e" + b) == Num(m * Pow10(x))
  {
    ExponentDecimal(a, b);
    ExponentTextEnds(a, b);
    UnsignedDecimalText(a + "e" + b);
  }

  lemma ExponentTextEnds(a: string, b: string)
    requires a != [] && AllDigits(a) && b != [] && AllDigits(b)
    ensures var t := a + "e" + b;
      IsDigit(t[0]) && IsDigit(t[|t| - 1]) && RadixOfPrefix(t[1]) == 0
  {
    var t := a + "e" + b;
    assert t[0] == a[0] && t[|t| - 1] == b[|b| - 1];
    if |a| >= 2 { assert t[1] == a[1]; } else { assert t[1] == 'e'; }
  }

  /** A text that starts and ends with a digit is read as an unsigned decimal literal. */
  lemma UnsignedDecimalText(t: string)
    requires t != [] && IsDigit(t[0]) && IsDigit(t[|t| - 1]) && (|t| >= 2 ==> RadixOfPrefix(t[1]) == 0)
    ensures ParseNumber(t) == (match DecimalValue(t) case Some(n) => Num(n) case None => NaN)
  {
    TrimUnpadded(t);
  }

  /** Digits, `e`, digits: the mantissa times ten to the exponent. */
  lemma ExponentDecimal(a: string, b: string)
    requires a != [] && AllDigits(a) && b != [] && AllDigits(b)
    ensures DecimalValue(a + "e" + b) == Some(DigitsValue(a) * Pow10(DigitsValue(b)))
  {
    var t := a + "e" + b;
    ExponentAfterDigits(a, "e" + b);
    assert t == a + ("e" + b);
    assert t[..|a|] == a;
    assert t[|a| + 1..] == b;
    assert ExponentValue(b) == Some(DigitsValue(b) as int) by { assert b[0] != '-' && b[0] != '+'; }
    WholeMantissa(a);
  }

  /** A mantissa without a point is its own digits, with no fraction digit. */
  lemma WholeMantissa(a: string)
    requires a != [] && AllDigits(a)
    ensures Mantissa(a) == Some((DigitsValue(a), 0))
  {
    PointAfterDigits(a);
    assert a[..|a|] == a;
    assert a + "" == a;
  }

  lemma {:induction false} ExponentAfterDigits(a: string, rest: string)
    requires AllDigits(a) && rest != [] && rest[0] == 'e'
    ensures ExponentAt(a + rest) == |a|
  {
    if a != [] {
      assert (a + rest)[1..] == a[1..] + rest;
      ExponentAfterDigits(a[1..], rest);
    }
  }

  lemma {:induction false} PointAfterDigits(a: string)
    requires AllDigits(a)
    ensures PointAt(a) == |a|
  {
    if a != [] {
      PointAfterDigits(a[1..]);
    }
  }

  lemma {:induction false} ExponentAbsent(a: string)
    requires AllDigits(a)
    ensures ExponentAt(a) == |a|
  {
    if a != [] {
      ExponentAbsent(a[1..]);
    }
  }

  /** A plain run of digits, as a decimal literal, is worth its digits. */
  lemma DecimalOfDigits(t: string)
    requires t != [] && AllDigits(t)
    ensures DecimalValue(t) == Some(DigitsValue(t) as int)
  {
    ExponentAbsent(t);
    assert t[..|t|] == t;
    WholeMantissa(t);
  }

  /** A radix digit is a letter or a decimal digit, never whitespace. */
  lemma RadixDigitIsNotSpace(c: char, radix: nat)
    requires RadixDigit(c, radix).Some?
    ensures !IsSpace(c)
  {
  }

  /** `0x`, `0o` or `0b` followed by digits of that base reads as their value. */
  lemma PrefixedNumber(c: char, ds: string)
    requires RadixOfPrefix(c) != 0 && ds != [] && AllRadixDigits(ds, RadixOfPrefix(c))
    ensures ParseNumber(['0', c] + ds) == Num(RadixValue(ds, RadixOfPrefix(c)))
  {
    var t := ['0', c] + ds;
    assert t[|t| - 1] == ds[|ds| - 1];
    RadixDigitIsNotSpace(ds[|ds| - 1], RadixOfPrefix(c));
    TrimUnpadded(t);
    PrefixedTrimmed(c, ds, t);
  }

  lemma PrefixedTrimmed(c: char, ds: string, t: string)
    requires RadixOfPrefix(c) != 0 && ds != [] && AllRadixDigits(ds, RadixOfPrefix(c))
    requires t == ['0', c] + ds && Trim(t) == t
    ensures ParseNumber(t) == Num(RadixValue(ds, RadixOfPrefix(c)))
  {
    assert t[2..] == ds;
  }

  /** A sign before a base prefix makes the text NaN. */
  lemma SignedPrefixIsNaN(c: char, ds: string)
    requires RadixOfPrefix(c) != 0 && ds != [] && AllRadixDigits(ds, RadixOfPrefix(c))
    ensures ParseNumber("-" + ['0', c] + ds) == NaN
  {
    var t := "-" + ['0', c] + ds;
    assert t[|t| - 1] == ds[|ds| - 1];
    RadixDigitIsNotSpace(ds[|ds| - 1], RadixOfPrefix(c));
    TrimUnpadded(t);
    PrefixedBodyIsNotDecimal(c, t[1..]);
    SignedTrimmedNaN(t);
  }

  lemma SignedTrimmedNaN(t: string)
    requires |t| >= 2 && t[0] == '-' && Trim(t) == t && DecimalValue(t[1..]).None?
    ensures ParseNumber(t) == NaN
  {
  }

  /** `0` and a prefix letter never start a decimal literal. */
  lemma PrefixedBodyIsNotDecimal(c: char, u: string)
    requires RadixOfPrefix(c) != 0 && |u| >= 2 && u[0] == '0' && u[1] == c
    ensures DecimalValue(u).None?
  {
    var e := ExponentAt(u);
    assert e >= 2 by { assert u[1..][0] == c; }
    var m := u[..e];
    assert m[1] == c;
    assert PointAt(m) >= 2 by { assert m[1..][0] == c; }
    assert m[..PointAt(m)][1] == c;
  }

  /** Fraction digits and an exponent combine: 2.50 times ten is 25. */
  lemma FractionForm()
    ensures ParseNumber("2.50e1") == Num(25)
  {
    FractionTrimmed();
    FractionDecimal();
    FractionNumber();
  }

  lemma FractionTrimmed()
    ensures Trim("2.50e1") == "2.50e1"
  {
    TrimUnpadded("2.50e1");
  }

  lemma FractionDecimal()
    ensures DecimalValue("2.50e1") == Some(25)
  {
    assert ExponentAt("2.50e1") == 4;
    assert "2.50e1"[..4] == "2.50" && "2.50e1"[5..] == "1";
    assert ExponentValue("1") == Some(1);
    assert PointAt("2.50") == 1;
    assert "2.50"[..1] == "2" && "2.50"[2..] == "50";
    assert DigitsValue("250") == 250 by { assert "250"[..2] == "25"; assert "25"[..1] == "2"; assert "2"[..0] == ""; }
    assert "2" + "50" == "250";
    assert Mantissa("2.50") == Some((250, 2));
  }

  lemma FractionNumber()
    requires Trim("2.50e1") == "2.50e1" && DecimalValue("2.50e1") == Some(25)
    ensures ParseNumber("2.50e1") == Num(25)
  {
  }

  /** `Number(v)` (for `null`; `undefined` never reaches a conversion here). */
  function ToNumber(v: Value): (r: Value)
    ensures r.Num? || r.NaN?
    ensures v.Num? ==> r == v
    decreases v, 0
  {
    match v
    case Null => Num(0)
    case Bool(b) => Num(if b then 1 else 0)
    case Num(n) => v
    case NaN => NaN
    case Str(s) => ParseNumber(s)
    case Arr(items) =>
      // An array converts through its text: `[]` is "", `[x]` is `String(x)`,
      // and two or more elements always leave a comma in the text.
      if |items| == 0 then Num(0)
      else if |items| >= 2 then NaN
      else ElementNumber(items[0])
    case Obj(_) => NaN
  }

  /** `Number(String(x))` for the single element `x` of an array. */
  function ElementNumber(x: Value): (r: Value)
    ensures r.Num? || r.NaN?
    decreases x, 1
  {
    match x
    case Null => Num(0)
    case Bool(_) => NaN
    case _ => ToNumber(x)
  }
}
