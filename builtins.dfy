/** The parts of Python's built-ins the downloader relies on: decoded JSON scalars, the
    exceptions that can be raised, str() of a value, int() of a string, the truncating
    conversion int(a / b), and repetition of a one-character string (c * n). */
module Builtins {

  /** Python exceptions raised (or caught) by the modelled code. */
  datatype Exception =
    | KeyError(key: string)
    | AttributeError(name: string)
    | TypeError
    | ValueError
    | IndexError
    | ZeroDivisionError
    | ConnectionError(url: string)
    | ArgumentsException(message: string)

  /** A Python call either returns a value or raises an exception. */
  datatype Result<+T> = Ok(value: T) | Raised(exc: Exception)

  datatype Option<+T> = None | Some(value: T)

  /** A scalar as the JSON decoder hands it to Python: None, a bool, an int or a str. */
  datatype Value = Null | Bool(b: bool) | Int(i: int) | Str(s: string)

  predicate IsDigit(c: char) {
    '0' <= c <= '9'
  }

  function DigitChar(d: nat): (c: char)
    requires d < 10
    ensures IsDigit(c) && DigitValue(c) == d
  {
    ('0' as int + d) as char
  }

  function DigitValue(c: char): (d: nat)
    requires IsDigit(c)
    ensures d < 10
  {
    c as int - '0' as int
  }

  predicate AllDigits(s: string) {
    forall i :: 0 <= i < |s| ==> IsDigit(s[i])
  }

  /** Decimal digits of n, most significant first, without leading zeros. */
  function NatToString(n: nat): (s: string)
    ensures |s| > 0 && AllDigits(s)
    decreases n
  {
    if n < 10 then [DigitChar(n)] else NatToString(n / 10) + [DigitChar(n % 10)]
  }

  /** str(i) for a Python int. */
  function IntToString(i: int): string {
    if i < 0 then "-" + NatToString(-i) else NatToString(i)
  }

  /** The number a string of decimal digits denotes. */
  function DigitsValue(s: string): nat
    requires AllDigits(s)
  {
    if s == [] then 0 else 10 * DigitsValue(s[..|s| - 1]) + DigitValue(s[|s| - 1])
  }

  /** str(v), which is also what "{}".format(v) inserts for these values. */
  function PyStr(v: Value): string {
    match v
    case Null => "None"
    case Bool(b) => if b then "True" else "False"
    case Int(i) => IntToString(i)
    case Str(s) => s
  }

  /** The characters int() strips around the digits: space, \t, \n, \v, \f and \r. */
  predicate IsSpace(c: char) {
    c == ' ' || 9 <= c as int <= 13
  }

  function StripStart(s: string): (r: string)
    ensures |r| <= |s| && r == s[|s| - |r|..]
    ensures r != [] ==> !IsSpace(r[0])
  {
    if s != [] && IsSpace(s[0]) then StripStart(s[1..]) else s
  }

  function StripEnd(s: string): (r: string)
    ensures |r| <= |s| && r == s[..|r|]
    ensures r != [] ==> !IsSpace(r[|r| - 1])
  {
    if s != [] && IsSpace(s[|s| - 1]) then StripEnd(s[..|s| - 1]) else s
  }

  /** Digits, with single underscores allowed only between two digits, as int() accepts them. */
  predicate ValidDigits(s: string) {
    |s| > 0 && forall i :: 0 <= i < |s| ==> DigitOrJoiner(s, i)
  }

  predicate DigitOrJoiner(s: string, i: nat)
    requires i < |s|
  {
    IsDigit(s[i]) || (s[i] == '_' && 0 < i < |s| - 1 && IsDigit(s[i - 1]) && IsDigit(s[i + 1]))
  }

  function RemoveUnderscores(s: string): (r: string)
    ensures forall i :: 0 <= i < |r| ==> r[i] != '_' && r[i] in s
  {
    if s == [] then []
    else if s[|s| - 1] == '_' then RemoveUnderscores(s[..|s| - 1])
    else RemoveUnderscores(s[..|s| - 1]) + [s[|s| - 1]]
  }

  function ParseDigits(s: string): Option<nat> {
    if ValidDigits(s) then
      var d := RemoveUnderscores(s);
      assert AllDigits(d) by {
        forall i | 0 <= i < |d| ensures IsDigit(d[i]) {
          var j :| 0 <= j < |s| && s[j] == d[i];
          assert DigitOrJoiner(s, j);
        }
      }
      Some(DigitsValue(d))
    else None
  }

  /** int(s) for a str in base 10: surrounding white space is ignored, one optional sign,
      then digits (with single underscores between them). None stands for ValueError. */
  function ParseInt(s: string): Option<int> {
    var t := StripEnd(StripStart(s));
    if |t| > 0 && (t[0] == '+' || t[0] == '-') then
      match ParseDigits(t[1..])
      case None => None
      case Some(n) =>
        var m: int := n;
        var v := if t[0] == '-' then -m else m;
        Some(v)
    else
      ParseDigits(t)
  }

  lemma {:induction false} DigitsValueOfNatToString(n: nat)
    ensures DigitsValue(NatToString(n)) == n
    decreases n
  {
    if n >= 10 {
      var s := NatToString(n / 10);
      var t := NatToString(n);
      assert t == s + [DigitChar(n % 10)];
      assert t[..|t| - 1] == s;
      DigitsValueOfNatToString(n / 10);
    }
  }

  lemma {:induction false} RemoveUnderscoresOfDigits(s: string)
    requires AllDigits(s)
    ensures RemoveUnderscores(s) == s
  {
    if s != [] {
      RemoveUnderscoresOfDigits(s[..|s| - 1]);
      assert s[..|s| - 1] + [s[|s| - 1]] == s;
    }
  }

  lemma ParseDigitsOfNatToString(n: nat)
    ensures ParseDigits(NatToString(n)) == Some(n)
  {
    var s := NatToString(n);
    RemoveUnderscoresOfDigits(s);
    DigitsValueOfNatToString(n);
  }

  /** int(str(i)) == i: the decimal text Python prints for an int reads back as that int. */
  lemma ParseIntOfIntToString(i: int)
    ensures ParseInt(IntToString(i)) == Some(i)
  {
    var s := IntToString(i);
    var digits := NatToString(if i < 0 then -i else i);
    assert !IsSpace(s[0]) && !IsSpace(s[|s| - 1]);
    assert StripStart(s) == s;
    assert StripEnd(s) == s;
    ParseDigitsOfNatToString(if i < 0 then -i else i);
    if i < 0 {
      assert s[1..] == digits;
    } else {
      assert s[0] != '+' && s[0] != '-';
    }
  }

  function Abs(x: int): nat {
    if x < 0 then -x else x
  }

  /** n / d for naturals lies between the two multiples of d around n. */
  lemma FloorBetween(n: nat, d: nat)
    requires d > 0
    ensures (n / d) * d <= n < (n / d + 1) * d
  {
    assert n == (n / d) * d + n % d;
    assert (n / d + 1) * d == (n / d) * d + d;
  }

  /** int(a / b) for Python ints: true division, then truncation toward zero. */
  function TruncDiv(a: int, b: int): (q: int)
    requires b != 0
    ensures (a >= 0) == (b > 0) || a == 0 ==> q >= 0
    ensures a >= 0 && b > 0 ==> q == a / b
  {
    if b > 0 then
      if a >= 0 then a / b else -(-a / b)
    else
      if a >= 0 then -(a / -b) else -a / -b
  }

  /** Truncation toward zero, stated without division: the result is the integer of
      largest magnitude whose multiple of b does not pass a, and it is never positive
      when the operands differ in sign. */
  lemma TruncDivTruncates(a: int, b: int)
    requires b != 0
    ensures Abs(TruncDiv(a, b)) * Abs(b) <= Abs(a) < (Abs(TruncDiv(a, b)) + 1) * Abs(b)
    ensures (a > 0) == (b < 0) ==> TruncDiv(a, b) <= 0
  {
    assert Abs(TruncDiv(a, b)) == Abs(a) / Abs(b);
    FloorBetween(Abs(a), Abs(b));
  }

  /** The one-character string c repeated n times, "c" * n; empty when n <= 0. */
  function Repeat(c: char, n: int): (s: string)
    ensures |s| == (if n <= 0 then 0 else n)
    ensures forall i :: 0 <= i < |s| ==> s[i] == c
    decreases if n <= 0 then 0 else n
  {
    if n <= 0 then [] else [c] + Repeat(c, n - 1)
  }
}
