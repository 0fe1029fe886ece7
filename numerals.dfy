/** Integer text as Python writes and reads it: `hex(n)` (the JSON-RPC
    QUANTITY fields the load generator sends), `int(s, 16)` (the fields it
    reads back), and `str(n)` for integers (the values the controller writes
    into the environment), each encoder with its decoder. */
module Numerals {
  import opened Wrappers

  /** The lower-case digit Python prints for `d` (bases up to 16). */
  function DigitChar(d: nat): char
    requires d < 16
  {
    if d < 10 then ('0' as int + d) as char else ('a' as int + d - 10) as char
  }

  /** The value of a digit character; both letter cases are accepted, as
      Python's `int(s, base)` does. */
  function DigitValue(c: char): Option<nat>
  {
    if '0' <= c <= '9' then Some(c as int - '0' as int)
    else if 'a' <= c <= 'f' then Some(c as int - 'a' as int + 10)
    else if 'A' <= c <= 'F' then Some(c as int - 'A' as int + 10)
    else None
  }

  lemma DigitCharValue(d: nat)
    requires d < 16
    ensures DigitValue(DigitChar(d)) == Some(d)
  {
  }

  lemma DivideByBase(n: nat, base: nat)
    requires 2 <= base <= n
    ensures n == (n / base) * base + n % base
    ensures 0 < n / base < n && n % base < base
  {
    var q := n / base;
    assert q >= 1;
    assert q * base >= q * 2;
  }

  predicate IsDigitIn(c: char, base: nat)
  {
    DigitValue(c).Some? && DigitValue(c).value < base
  }

  predicate AllDigitsIn(s: string, base: nat)
  {
    forall i :: 0 <= i < |s| ==> IsDigitIn(s[i], base)
  }

  /** The digits of `n` in `base`, most significant first, without leading
      zeros (a lone "0" for zero). */
  function Digits(n: nat, base: nat): (s: string)
    requires 2 <= base <= 16
    ensures |s| >= 1 && AllDigitsIn(s, base)
    ensures |s| > 1 ==> s[0] != '0'
    ensures n == 0 <==> s == "0"
    decreases n
  {
    if n < base then
      DigitCharValue(n);
      [DigitChar(n)]
    else
      DivideByBase(n, base);
      var q, d := n / base, n % base;
      var front := Digits(q, base);
      DigitCharValue(d);
      var s := front + [DigitChar(d)];
      assert forall i :: 0 <= i < |front| ==> s[i] == front[i];
      s
  }

  /** The number a digit string denotes in `base`. */
  function DigitsValue(s: string, base: nat): nat
    requires AllDigitsIn(s, base)
  {
    if |s| == 0 then 0
    else DigitsValue(s[..|s| - 1], base) * base + DigitValue(s[|s| - 1]).value
  }

  /** At least one digit and nothing else. */
  function ParseDigits(s: string, base: nat): Option<nat>
  {
    if |s| > 0 && AllDigitsIn(s, base) then Some(DigitsValue(s, base)) else None
  }

  /** `hex(n)`: "0x" and the lower-case digits, "-0x" for a negative number. */
  function Hex(n: int): string
  {
    if n < 0 then "-0x" + Digits(-n, 16) else "0x" + Digits(n, 16)
  }

  /** `int(s, 16)`: an optional sign, an optional "0x" or "0X" prefix, then at
      least one hexadecimal digit; anything else raises ValueError (None). */
  function ParseHex(s: string): Option<int>
  {
    if |s| > 0 && (s[0] == '-' || s[0] == '+') then
      match ParseUnsignedHex(s[1..])
      case None => None
      case Some(v) => var x: int := v; if s[0] == '-' then Some(-x) else Some(x)
    else
      match ParseUnsignedHex(s)
      case None => None
      case Some(v) => Some(v)
  }

  function ParseUnsignedHex(s: string): Option<nat>
  {
    var body := if |s| >= 2 && s[0] == '0' && (s[1] == 'x' || s[1] == 'X') then s[2..] else s;
    ParseDigits(body, 16)
  }

  /** `str(n)` for an integer. */
  function Decimal(n: int): string
  {
    if n < 0 then "-" + Digits(-n, 10) else Digits(n, 10)
  }

  /** `int(s)` for an integer literal: an optional sign and decimal digits. */
  function ParseDecimal(s: string): Option<int>
  {
    if |s| > 0 && (s[0] == '-' || s[0] == '+') then
      match ParseDigits(s[1..], 10)
      case None => None
      case Some(v) => var x: int := v; if s[0] == '-' then Some(-x) else Some(x)
    else
      match ParseDigits(s, 10)
      case None => None
      case Some(v) => Some(v)
  }

  lemma {:induction false} DigitsRoundTrip(n: nat, base: nat)
    requires 2 <= base <= 16
    ensures DigitsValue(Digits(n, base), base) == n
    decreases n
  {
    if n >= base {
      DivideByBase(n, base);
      var q, d := n / base, n % base;
      var p := Digits(q, base);
      var s := Digits(n, base);
      assert s == p + [DigitChar(d)];
      assert s[..|s| - 1] == p;
      DigitCharValue(d);
      DigitsRoundTrip(q, base);
    } else {
      DigitCharValue(n);
    }
  }

  /** Reading back what `hex` wrote gives the number again. */
  lemma HexRoundTrip(n: int)
    ensures ParseHex(Hex(n)) == Some(n)
  {
    if n < 0 {
      DigitsRoundTrip(-n, 16);
      PrefixedHexValue(Digits(-n, 16));
      NegativeHexValue(Digits(-n, 16));
    } else {
      DigitsRoundTrip(n, 16);
      PrefixedHexValue(Digits(n, 16));
    }
  }

  /** "0x" and digits read back as the digits' value. */
  lemma PrefixedHexValue(ds: string)
    requires |ds| > 0 && AllDigitsIn(ds, 16)
    ensures ParseHex("0x" + ds) == Some(DigitsValue(ds, 16))
  {
    var s := "0x" + ds;
    assert s[0] == '0' && s[1] == 'x';
    assert s[2..] == ds;
  }

  /** "-0x" and digits read back as the digits' value, negated. */
  lemma NegativeHexValue(ds: string)
    requires |ds| > 0 && AllDigitsIn(ds, 16)
    ensures ParseHex("-0x" + ds) == Some(0 - DigitsValue(ds, 16) as int)
  {
    var s := "-0x" + ds;
    assert s[1..] == "0x" + ds;
    assert ParseUnsignedHex(s[1..]) == Some(DigitsValue(ds, 16)) by {
      assert s[1..][2..] == ds;
    }
  }

  /** `hex` never writes two numbers the same way. */
  lemma HexInjective(a: int, b: int)
    requires Hex(a) == Hex(b)
    ensures a == b
  {
    HexRoundTrip(a);
    HexRoundTrip(b);
  }

  /** A digit as Python prints it: a decimal digit or a lower-case letter. */
  predicate LowerDigit(c: char)
  {
    '0' <= c <= '9' || 'a' <= c <= 'f'
  }

  /** `Digits` writes only lower-case digits. */
  lemma {:induction false} DigitsLowerCase(n: nat, base: nat)
    requires 2 <= base <= 16
    ensures forall i :: 0 <= i < |Digits(n, base)| ==> LowerDigit(Digits(n, base)[i])
    decreases n
  {
    if n >= base {
      DivideByBase(n, base);
      DigitsLowerCase(n / base, base);
      var front := Digits(n / base, base);
      assert Digits(n, base) == front + [DigitChar(n % base)];
    }
  }

  /** The shape of `hex(n)` for every integer: "0x", or "-0x" for a negative
      number, then lower-case digits without a leading zero (a lone "0" for
      zero). */
  lemma HexShape(n: int)
    ensures n >= 0 ==> |Hex(n)| >= 3 && Hex(n)[..2] == "0x"
    ensures n < 0 ==> |Hex(n)| >= 4 && Hex(n)[..3] == "-0x"
    ensures var ds := Hex(n)[if n < 0 then 3 else 2..];
      && |ds| >= 1
      && (forall i :: 0 <= i < |ds| ==> LowerDigit(ds[i]))
      && (ds[0] == '0' <==> n == 0)
  {
    var m: nat := if n < 0 then -n else n;
    var ds := Digits(m, 16);
    DigitsLowerCase(m, 16);
    if n < 0 {
      assert Hex(n) == "-0x" + ds;
      assert Hex(n)[3..] == ds;
    } else {
      assert Hex(n) == "0x" + ds;
      assert Hex(n)[2..] == ds;
    }
    if ds[0] == '0' {
      assert |ds| == 1;
      assert ds == "0";
    }
  }

  /** Instances of `HexShape`: zero, a positive and a negative number. */
  lemma HexExamples()
    ensures Hex(0) == "0x0" && Hex(26) == "0x1a" && Hex(-255) == "-0xff"
  {
  }

  /** What `int(s, 16)` reads: the prefix is optional, either case of "x" and
      of the digits is accepted, a sign goes before the prefix, and a missing
      digit or a non-digit is refused. */
  lemma ParseHexExamples()
    ensures ParseHex("0x1a") == Some(26) && ParseHex("0X1A") == Some(26) && ParseHex("1a") == Some(26)
    ensures ParseHex("-0x1a") == Some(-26) && ParseHex("+1A") == Some(26)
    ensures ParseHex("") == None && ParseHex("0x") == None && ParseHex("-") == None
    ensures ParseHex("0x1g") == None && ParseHex("0x-1") == None
  {
    assert "1a"[..1] == "1" && "1A"[..1] == "1";
    assert DigitsValue("1a", 16) == 26 && DigitsValue("1A", 16) == 26;
    assert "0X1A"[2..] == "1A" && "+1A"[1..] == "1A";
    assert "0x1g"[2..][1] == 'g' && !IsDigitIn('g', 16);
    assert "0x-1"[2..][0] == '-' && !IsDigitIn('-', 16);
  }

  /** Reading back what `str` wrote gives the integer again. */
  lemma DecimalRoundTrip(n: int)
    ensures ParseDecimal(Decimal(n)) == Some(n)
  {
    var m: nat := if n < 0 then -n else n;
    var ds := Digits(m, 10);
    DigitsRoundTrip(m, 10);
    assert ParseDigits(ds, 10) == Some(m);
    if n < 0 {
      assert Decimal(n) == "-" + ds;
      assert Decimal(n)[1..] == ds;
    } else {
      assert Decimal(n) == ds;
      assert ds[0] != '-' && ds[0] != '+' by { assert IsDigitIn(ds[0], 10); }
    }
  }

  /** The shape of `str(n)` for every integer: a "-" exactly for a negative
      number, then decimal digits without a leading zero (a lone "0" for
      zero). */
  lemma DecimalShape(n: int)
    ensures |Decimal(n)| >= 1 && (Decimal(n)[0] == '-' <==> n < 0)
    ensures var ds := Decimal(n)[if n < 0 then 1 else 0..];
      && |ds| >= 1
      && (forall i :: 0 <= i < |ds| ==> '0' <= ds[i] <= '9')
      && (ds[0] == '0' <==> n == 0)
  {
    var m: nat := if n < 0 then -n else n;
    var ds := Digits(m, 10);
    assert IsDigitIn(ds[0], 10);
    assert forall i :: 0 <= i < |ds| ==> IsDigitIn(ds[i], 10);
    if n < 0 {
      assert Decimal(n) == "-" + ds;
      assert Decimal(n)[1..] == ds;
    } else {
      assert Decimal(n) == ds;
    }
    if ds[0] == '0' {
      assert |ds| == 1;
      assert ds == "0";
    }
  }

  /** What `str` and `int(s)` do at their edges: a "-" sign only for
      negatives; on reading, either sign is accepted, and an empty text, a
      lone sign or a non-digit is refused. */
  lemma DecimalExamples()
    ensures Decimal(0) == "0" && Decimal(120) == "120" && Decimal(-7) == "-7"
    ensures ParseDecimal("+7") == Some(7) && ParseDecimal("-7") == Some(-7) && ParseDecimal("007") == Some(7)
    ensures ParseDecimal("") == None && ParseDecimal("-") == None && ParseDecimal("1.5") == None
  {
    assert "007"[..2] == "00" && "00"[..1] == "0";
    assert DigitsValue("007", 10) == 7;
  }

  /** `str` never writes two integers the same way. */
  lemma DecimalInjective(a: int, b: int)
    requires Decimal(a) == Decimal(b)
    ensures a == b
  {
    DecimalRoundTrip(a);
    DecimalRoundTrip(b);
  }
}
