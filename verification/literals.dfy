/** Numeric literals: decimal integers, `0b`/`0x` integers, and the float
    fallback supplied by the host. */
module Literals {
  import opened Base
  import opened Values
  import opened Text

  /** The value of a hexadecimal digit of either case; 16 for any other character. */
  function HexValue(c: char): (d: nat)
    ensures d <= 16
    ensures IsDigit(c) <==> d < 10
  {
    if '0' <= c <= '9' then c as int - '0' as int
    else if 'a' <= c <= 'f' then c as int - 'a' as int + 10
    else if 'A' <= c <= 'F' then c as int - 'A' as int + 10
    else 16
  }

  predicate AllDigitsIn(s: string, base: nat) {
    forall i :: 0 <= i < |s| ==> HexValue(s[i]) < base
  }

  /** The number the digits `s` denote in `base`, most significant first. */
  function DigitsValue(s: string, base: nat): nat
    requires AllDigitsIn(s, base)
  {
    if |s| == 0 then 0
    else DigitsValue(s[..|s| - 1], base) * base + HexValue(s[|s| - 1])
  }

  /** `int(t)` on a token: an optional sign and at least one decimal digit. */
  function ParseDecimal(t: string): (r: Option<int>)
    ensures r.Some? <==>
      || (|t| > 0 && AllDigitsIn(t, 10))
      || (|t| > 1 && (t[0] == '-' || t[0] == '+') && AllDigitsIn(t[1..], 10))
    ensures r.Some? && r.value < 0 ==> t[0] == '-'
  {
    if |t| > 0 && (t[0] == '-' || t[0] == '+') then
      var digits := t[1..];
      if |digits| > 0 && AllDigitsIn(digits, 10) then
        var n: int := DigitsValue(digits, 10);
        Some(if t[0] == '-' then -n else n)
      else None
    else if |t| > 0 && AllDigitsIn(t, 10) then Some(DigitsValue(t, 10))
    else None
  }

  /** Tokens the calculator hands to Python's literal evaluator. */
  predicate IsPrefixed(t: string) {
    |t| >= 2 && t[0] == '0' && (t[1] == 'b' || t[1] == 'x')
  }

  /** The base a prefixed literal is written in. */
  function PrefixBase(t: string): nat
    requires IsPrefixed(t)
  {
    if t[1] == 'b' then 2 else 16
  }

  /** A `0b` or `0x` literal: the prefix and at least one digit of that base. */
  function ParsePrefixed(t: string): (r: Option<nat>)
    requires IsPrefixed(t)
    ensures r.Some? <==> |t| > 2 && AllDigitsIn(t[2..], PrefixBase(t))
    ensures r.Some? ==> r.value == DigitsValue(t[2..], PrefixBase(t))
  {
    var base := PrefixBase(t);
    var digits := t[2..];
    if |digits| > 0 && AllDigitsIn(digits, base) then Some(DigitsValue(digits, base)) else None
  }

  /** A token that is not a command, read as a number: prefixed literals
      first, then `int`, then `float`. */
  function ParseNumber(lib: Library, t: string): (r: Result<Value>)
    ensures r.Err? ==> r.error == Unparsable
    ensures IsPrefixed(t) && r.Ok? ==> r.value.Int? && r.value.i >= 0
    ensures r.Ok? && r.value.NonInt? ==> !IsPrefixed(t) && ParseDecimal(t).None?
    ensures IsPrefixed(t) ==> (r.Ok? <==> ParsePrefixed(t).Some?)
    ensures IsPrefixed(t) && r.Ok? ==> r.value.i == DigitsValue(t[2..], PrefixBase(t))
    ensures ParseDecimal(t).Some? && !IsPrefixed(t) ==> r == Ok(Int(ParseDecimal(t).value))
    ensures !IsPrefixed(t) && ParseDecimal(t).None? ==>
      (r.Ok? <==> lib.parseFloat(t).Some?) && (r.Ok? ==> r.value == NonInt(lib.parseFloat(t).value))
  {
    if IsPrefixed(t) then
      match ParsePrefixed(t)
      case Some(k) => Ok(Int(k))
      case None => Err(Unparsable)
    else
      match ParseDecimal(t)
      case Some(k) => Ok(Int(k))
      case None =>
        match lib.parseFloat(t)
        case Some(f) => Ok(NonInt(f))
        case None => Err(Unparsable)
  }

  /** Reading back the decimal digits of `n` gives `n`. */
  lemma {:induction false} DigitsOfNatToString(n: nat)
    ensures AllDigitsIn(NatToString(n), 10)
    ensures DigitsValue(NatToString(n), 10) == n
    decreases n
  {
    var s := NatToString(n);
    if n < 10 {
      assert s == [DigitChar(n)];
      assert s[..0] == [];
    } else {
      DigitsOfNatToString(n / 10);
      assert s[..|s| - 1] == NatToString(n / 10);
      assert s[|s| - 1] == DigitChar(n % 10);
    }
  }

  /** A digit of a base up to 16, in lower case as `bin` and `hex` write it. */
  function BaseDigit(d: nat): (c: char)
    requires d < 16
    ensures HexValue(c) == d
  {
    if d < 10 then ('0' as int + d) as char else ('a' as int + d - 10) as char
  }

  /** The digits of `n` in `base`, without leading zeros: what `bin(n)` and
      `hex(n)` write after the prefix. */
  function DigitsIn(n: nat, base: nat): (s: string)
    requires 2 <= base <= 16
    ensures |s| > 0
    decreases n
  {
    if n < base then [BaseDigit(n)] else DigitsIn(n / base, base) + [BaseDigit(n % base)]
  }

  /** Reading back the digits of `n` in `base` gives `n`. */
  lemma {:induction false} DigitsInRoundTrip(n: nat, base: nat)
    requires 2 <= base <= 16
    ensures AllDigitsIn(DigitsIn(n, base), base)
    ensures DigitsValue(DigitsIn(n, base), base) == n
    decreases n
  {
    var s := DigitsIn(n, base);
    if n < base {
      assert s == [BaseDigit(n)] && s[..0] == [];
    } else {
      var q, d := n / base, n % base;
      DivideByBase(n, base);
      var front := DigitsIn(q, base);
      DigitsInRoundTrip(q, base);
      assert s == front + [BaseDigit(d)];
      assert s[..|s| - 1] == front;
      assert HexValue(s[|s| - 1]) == d;
      assert n == q * base + d;
    }
  }

  lemma DivideByBase(n: nat, base: nat)
    requires 2 <= base <= n
    ensures n == n / base * base + n % base && n / base < n && n % base < base
  {
    var q := n / base;
    assert q * base <= n;
    assert q * 2 <= q * base;
  }

  /** `bin(n)` and `hex(n)` typed back in give `n`: the renderings of the
      binary and hexadecimal display modes are read as the same integer. */
  lemma PrefixedRoundTrip(lib: Library, n: nat)
    ensures ParseNumber(lib, "0b" + DigitsIn(n, 2)) == Ok(Int(n))
    ensures ParseNumber(lib, "0x" + DigitsIn(n, 16)) == Ok(Int(n))
  {
    var b, x := "0b" + DigitsIn(n, 2), "0x" + DigitsIn(n, 16);
    DigitsInRoundTrip(n, 2);
    DigitsInRoundTrip(n, 16);
    assert b[2..] == DigitsIn(n, 2) && x[2..] == DigitsIn(n, 16);
  }

  /** `int(str(k)) == k`: the decimal rendering of an integer parses back to it. */
  lemma DecimalRoundTrip(k: int)
    ensures ParseDecimal(IntToString(k)) == Some(k)
  {
    var s := IntToString(k);
    if k < 0 {
      assert s[1..] == NatToString(-k);
      DigitsOfNatToString(-k);
    } else {
      DigitsOfNatToString(k);
      assert s[0] != '-' && s[0] != '+';
    }
  }

  /** The rendering of an integer is read back as that integer, never as a
      prefixed literal or a float. */
  lemma NumberRoundTrip(lib: Library, k: int)
    ensures ParseNumber(lib, IntToString(k)) == Ok(Int(k))
  {
    DecimalRoundTrip(k);
  }

  /** An empty token, produced by two adjacent spaces, is no number as long
      as the float parser rejects the empty string as Python's does. */
  lemma EmptyTokenUnparsable(lib: Library)
    requires lib.parseFloat("") == None
    ensures ParseNumber(lib, "") == Err(Unparsable)
  {
  }
}
