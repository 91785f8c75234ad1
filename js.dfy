/** The few pieces of JavaScript value semantics the playground relies on:
    truthiness, string conversion, String.prototype.includes and parseInt. */
module Js {

  datatype Option<+T> = None | Some(value: T)

  /** What a control of the properties panel delivers to the change handler:
      the checked state of a checkbox, the text value of any other control. */
  datatype Input = Typed(s: string) | Checked(b: bool)

  /** JavaScript truthiness of a delivered value: an empty string is falsy. */
  predicate Truthy(v: Input)
    ensures Truthy(v) <==> v != Typed("") && v != Checked(false)
  {
    match v
    case Checked(b) => b
    case Typed(s) => s != ""
  }

  /** String conversion, as a template literal or a DOM write performs it. */
  function Stringify(v: Input): string
  {
    match v
    case Checked(b) => if b then "true" else "false"
    case Typed(s) => s
  }

  /** `s.includes(sub)`: sub occurs in s at some position. */
  predicate Contains(s: string, sub: string)
    ensures Contains(s, sub) ==> |sub| <= |s|
    ensures sub <= s ==> Contains(s, sub)
    ensures |sub| == 0 ==> Contains(s, sub)
    decreases |s|
  {
    |sub| <= |s| && (s[..|sub|] == sub || (0 < |s| && Contains(s[1..], sub)))
  }

  /** A string is found only where its first character is. */
  lemma {:induction false} ContainsNeedsHead(s: string, sub: string)
    requires |sub| > 0 && sub[0] !in s
    ensures !Contains(s, sub)
    decreases |s|
  {
    if |sub| <= |s| {
      assert s[..|sub|][0] == s[0];
      if 0 < |s| {
        assert forall c :: c in s[1..] ==> c in s;
        ContainsNeedsHead(s[1..], sub);
      }
    }
  }

  /** A string found at the start of b is found in a + b. */
  lemma {:induction false} ContainsInside(a: string, b: string, sub: string)
    requires sub <= b
    ensures Contains(a + b, sub)
    decreases |a|
  {
    if |a| > 0 {
      assert (a + b)[1..] == a[1..] + b;
      ContainsInside(a[1..], b, sub);
    } else {
      assert a + b == b;
    }
  }

  predicate IsDigit(c: char) { '0' <= c <= '9' }

  /** The characters JavaScript's parseInt skips before the number:
      white space and line terminators. */
  predicate IsSpace(c: char)
  {
    var n := c as int;
    (9 <= n <= 13) || n == 32 || n == 0xA0 || n == 0x1680 || (0x2000 <= n <= 0x200A) ||
    n == 0x2028 || n == 0x2029 || n == 0x202F || n == 0x205F || n == 0x3000 || n == 0xFEFF
  }

  /** The suffix parseInt reads after skipping leading white space. */
  function TrimStart(s: string): (t: string)
    ensures |t| <= |s| && t == s[|s| - |t|..]
    ensures forall i :: 0 <= i < |s| - |t| ==> IsSpace(s[i])
    ensures |t| > 0 ==> !IsSpace(t[0])
    decreases |s|
  {
    if |s| > 0 && IsSpace(s[0]) then TrimStart(s[1..]) else s
  }

  /** Length of the run of decimal digits that starts s. */
  function DigitRun(s: string): (n: nat)
    ensures n <= |s|
    ensures forall i :: 0 <= i < n ==> IsDigit(s[i])
    ensures n < |s| ==> !IsDigit(s[n])
    decreases |s|
  {
    if |s| > 0 && IsDigit(s[0]) then 1 + DigitRun(s[1..]) else 0
  }

  function DigitValue(c: char): nat requires IsDigit(c) { c as int - '0' as int }

  function DigitChar(d: nat): (c: char)
    requires d < 10
    ensures IsDigit(c) && DigitValue(c) == d
  {
    ('0' as int + d) as char
  }

  /** Value of a string of decimal digits. */
  function Decimal(d: string): nat
    requires forall i :: 0 <= i < |d| ==> IsDigit(d[i])
  {
    if |d| == 0 then 0 else 10 * Decimal(d[..|d| - 1]) + DigitValue(d[|d| - 1])
  }

  /** Decimal numeral of a natural number, as String(n) writes it. */
  function NatToString(n: nat): string
  {
    if n < 10 then [DigitChar(n)] else NatToString(n / 10) + [DigitChar(n % 10)]
  }

  /** `parseInt(s)` with the default radix: leading white space, an optional
      sign, then the longest run of decimal digits; None stands for NaN. */
  function ParseInt(s: string): (r: Option<int>)
    ensures r.Some? && r.value < 0 ==> '-' in s
    ensures |s| > 0 && IsDigit(s[0]) ==> r.Some? && r.value >= 0
  {
    var t := TrimStart(s);
    var signed := |t| > 0 && (t[0] == '-' || t[0] == '+');
    var u := if signed then t[1..] else t;
    var n := DigitRun(u);
    if n == 0 then None
    else if signed && t[0] == '-' then Some(-(Decimal(u[..n]) as int))
    else Some(Decimal(u[..n]))
  }

  /** A numeral is a non-empty run of digits denoting its number. */
  lemma {:induction false} NumeralDenotes(n: nat)
    ensures |NatToString(n)| > 0
    ensures forall i :: 0 <= i < |NatToString(n)| ==> IsDigit(NatToString(n)[i])
    ensures Decimal(NatToString(n)) == n
    decreases n
  {
    if n >= 10 {
      NumeralDenotes(n / 10);
      var d := NatToString(n);
      assert d[..|d| - 1] == NatToString(n / 10);
    }
  }

  /** The digit run of a string starting with a numeral followed by a non-digit
      is exactly that numeral. */
  lemma {:induction false} DigitRunOfPrefix(d: string, rest: string)
    requires forall i :: 0 <= i < |d| ==> IsDigit(d[i])
    requires rest == [] || !IsDigit(rest[0])
    ensures DigitRun(d + rest) == |d|
    decreases |d|
  {
    if |d| > 0 {
      assert (d + rest)[1..] == d[1..] + rest;
      DigitRunOfPrefix(d[1..], rest);
    } else {
      assert d + rest == rest;
    }
  }

  /** A string that starts with a digit is read from its first character. */
  lemma ParseIntOfDigits(s: string)
    requires |s| > 0 && IsDigit(s[0])
    ensures ParseInt(s) == Some(Decimal(s[..DigitRun(s)]))
  {
    assert !IsSpace(s[0]);
    assert TrimStart(s) == s;
  }

  /** parseInt reads back a numeral that is followed by a unit such as "px". */
  lemma {:induction false} ParseIntOfNumeral(n: nat, unit: string)
    requires unit == [] || !IsDigit(unit[0])
    ensures ParseInt(NatToString(n) + unit) == Some(n)
  {
    var d := NatToString(n);
    NumeralDenotes(n);
    var s := d + unit;
    assert s[0] == d[0];
    ParseIntOfDigits(s);
    DigitRunOfPrefix(d, unit);
    assert s[..|d|] == d;
  }

  /** parseInt gives NaN when no digit follows the white space and sign. */
  lemma ParseIntWithoutDigits(s: string)
    requires forall i :: 0 <= i < |s| ==> !IsDigit(s[i])
    ensures ParseInt(s) == None
  {
  }
}
