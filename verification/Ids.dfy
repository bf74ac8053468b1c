/** Hexadecimal identities: Id::encode and Id::decode of include/dpufabric/id.h. */
module Ids {
  import opened Base

  const MAX_DIGITS := 16

  predicate IsDigit(c: byte) {
    '0' as int <= c <= '9' as int || 'a' as int <= c <= 'f' as int || 'A' as int <= c <= 'F' as int
  }

  function DigitValue(c: byte): (d: int)
    requires IsDigit(c)
    ensures 0 <= d < 16
  {
    if c <= '9' as int then c - '0' as int
    else if c <= 'F' as int then c - 'A' as int + 10
    else c - 'a' as int + 10
  }

  function Digit(d: int): (c: byte)
    requires 0 <= d < 16
    ensures IsDigit(c) && DigitValue(c) == d
  {
    if d < 10 then '0' as int + d else 'a' as int + (d - 10)
  }

  predicate AllDigits(s: Str) {
    forall i :: 0 <= i < |s| ==> IsDigit(s[i])
  }

  /** The number that a run of hexadecimal digits denotes. */
  function Value(s: Str): nat
    requires AllDigits(s)
  {
    if s == [] then 0 else 16 * Value(s[..|s| - 1]) + DigitValue(s[|s| - 1])
  }

  /** The last n digits of v. */
  function Digits(v: nat, n: nat): (s: Str)
    ensures |s| == n && AllDigits(s)
  {
    if n == 0 then [] else Digits(v / 16, n - 1) + [Digit(v % 16)]
  }

  /** Whether a tag admits the value: generations, boots and epochs reject zero. */
  predicate ValidFor(v: u64, allowZero: bool) {
    v != 0 || allowZero
  }

  /** What a string decodes to. */
  function Denoted(s: Str, allowZero: bool): Option<u64> {
    if 1 <= |s| <= MAX_DIGITS && AllDigits(s) && Value(s) <= U64_MAX && ValidFor(Value(s), allowZero) then Some(Value(s))
    else None
  }

  method Encode(v0: u64) returns (out: Str)
    ensures out == Digits(v0, MAX_DIGITS)
  {
    var v: nat := v0;
    out := seq(MAX_DIGITS, _ => '0' as int);
    for i := MAX_DIGITS downto 0
      invariant |out| == MAX_DIGITS
      invariant Digits(v, i) + out[i..] == Digits(v0, MAX_DIGITS)
    {
      assert Digits(v, i + 1) == Digits(v / 16, i) + [Digit(v % 16)];
      out := out[i := Digit(v % 16)];
      assert out[i..] == [Digit(v % 16)] + out[i + 1..];
      v := v / 16;
    }
  }

  method Decode(s: Str, allowZero: bool) returns (r: Option<u64>)
    ensures r == Denoted(s, allowZero)
  {
    if |s| > MAX_DIGITS || |s| == 0 {
      return None;
    }
    var v: u64 := 0;
    for i := 0 to |s|
      invariant AllDigits(s[..i]) && v == Value(s[..i])
    {
      if !IsDigit(s[i]) {
        return None;
      }
      var d := DigitValue(s[i]);
      assert s[..i + 1][..i] == s[..i];
      GuardExact(v, d);
      if v > (U64_MAX - d) / 16 {
        if AllDigits(s) {
          PrefixSmaller(s, i + 1);
        }
        return None;
      }
      v := v * 16 + d;
    }
    assert s[..|s|] == s;
    return if ValidFor(v, allowZero) then Some(v) else None;
  }

  /** The overflow guard fires exactly when the next step would not fit 64 bits. */
  lemma GuardExact(v: u64, d: int)
    requires 0 <= d < 16
    ensures v > (U64_MAX - d) / 16 <==> v * 16 + d > U64_MAX
  {
  }

  lemma {:induction false} PrefixSmaller(s: Str, k: nat)
    requires k <= |s| && AllDigits(s)
    ensures AllDigits(s[..k]) && Value(s[..k]) <= Value(s)
  {
    if k < |s| {
      var init := s[..|s| - 1];
      PrefixSmaller(init, k);
      assert init[..k] == s[..k];
    } else {
      assert s[..k] == s;
    }
  }

  function Power16(n: nat): nat {
    if n == 0 then 1 else 16 * Power16(n - 1)
  }

  lemma {:induction false} ValueBound(s: Str)
    requires AllDigits(s)
    ensures Value(s) < Power16(|s|)
  {
    if s != [] {
      ValueBound(s[..|s| - 1]);
    }
  }

  /** At most sixteen digits always fit: the overflow guard never decides. */
  lemma SixteenDigitsFit(s: Str)
    requires AllDigits(s) && |s| <= MAX_DIGITS
    ensures Value(s) <= U64_MAX
  {
    ValueBound(s);
    PowersGrow(|s|, MAX_DIGITS);
    SixteenPowers();
  }

  lemma SixteenPowers()
    ensures Power16(MAX_DIGITS) == TWO_64
  {
    assert Power16(4) == 0x1_0000;
    assert Power16(8) == 0x1_0000_0000;
    assert Power16(12) == 0x1_0000_0000_0000;
  }

  lemma {:induction false} PowersGrow(m: nat, n: nat)
    requires m <= n
    ensures Power16(m) <= Power16(n)
  {
    if m < n {
      PowersGrow(m, n - 1);
    }
  }

  lemma {:induction false} ValueOfDigits(v: nat, n: nat)
    requires v < Power16(n)
    ensures Value(Digits(v, n)) == v
  {
    if n != 0 {
      ValueOfDigits(v / 16, n - 1);
      assert Digits(v, n)[..n - 1] == Digits(v / 16, n - 1);
    }
  }

  /** Exactly the strings of 1 to 16 digits denoting an admitted value decode, and to that value. */
  lemma DecodesExactly(s: Str, allowZero: bool)
    ensures Denoted(s, allowZero).Some? <==>
            1 <= |s| <= MAX_DIGITS && AllDigits(s) && (Value(s) != 0 || allowZero)
    ensures Denoted(s, allowZero).Some? ==> Denoted(s, allowZero).value == Value(s)
  {
    if |s| <= MAX_DIGITS && AllDigits(s) {
      SixteenDigitsFit(s);
    }
  }

  /** Every admitted identity survives encoding and decoding. */
  lemma RoundTrip(v: u64, allowZero: bool)
    requires ValidFor(v, allowZero)
    ensures Denoted(Digits(v, MAX_DIGITS), allowZero) == Some(v)
  {
    SixteenPowers();
    ValueOfDigits(v, MAX_DIGITS);
  }
}
