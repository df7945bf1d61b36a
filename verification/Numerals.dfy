/** Decimal and octal numerals, as Rust prints a `u64` and parses one back. */
module Numerals {
  import opened Prelude

  predicate Radix(r: nat) { r == 8 || r == 10 }

  predicate IsDigit(c: char, r: nat)
    requires Radix(r)
  {
    '0' <= c && (c as int) < '0' as int + r
  }

  function DigitValue(c: char): (v: nat)
    requires '0' <= c
  {
    c as int - '0' as int
  }

  function DigitChar(d: nat): (c: char)
    requires d < 10
    ensures '0' <= c <= '9' && DigitValue(c) == d
  {
    ('0' as int + d) as char
  }

  predicate AllDigits(s: string, r: nat)
    requires Radix(r)
  {
    forall i :: 0 <= i < |s| ==> IsDigit(s[i], r)
  }

  /** Positional value, most significant digit first. */
  function Value(s: string, r: nat): nat
    requires Radix(r) && AllDigits(s, r)
  {
    if s == [] then 0 else Value(s[..|s| - 1], r) * r + DigitValue(s[|s| - 1])
  }

  /** The numeral without leading zeros. */
  function Print(n: nat, r: nat): string
    requires Radix(r)
    decreases n
  {
    if n < r then [DigitChar(n)] else Print(n / r, r) + [DigitChar(n % r)]
  }

  /** At least one digit, and no zero in front of another digit. */
  predicate Canonical(s: string, r: nat)
    requires Radix(r)
  {
    s != [] && AllDigits(s, r) && (|s| > 1 ==> s[0] != '0')
  }

  lemma {:induction false} PrintIsCanonical(n: nat, r: nat)
    requires Radix(r)
    ensures Canonical(Print(n, r), r) && Value(Print(n, r), r) == n
    ensures n > 0 ==> Print(n, r)[0] != '0'
    decreases n
  {
    if n >= r {
      PrintIsCanonical(n / r, r);
      var front := Print(n / r, r);
      var s := Print(n, r);
      assert s[..|s| - 1] == front;
      assert n == (n / r) * r + n % r by {
        if r == 8 {} else {}
      }
    } else {
      assert Print(n, r)[..0] == [];
    }
  }

  lemma {:induction false} CanonicalIsPrinted(s: string, r: nat)
    requires Radix(r) && Canonical(s, r)
    ensures Print(Value(s, r), r) == s
    ensures |s| > 1 ==> Value(s, r) >= r
    decreases |s|
  {
    var k := |s| - 1;
    var last := DigitValue(s[k]);
    if k == 0 {
      assert s[..0] == [];
    } else {
      var front := s[..k];
      CanonicalIsPrinted(front, r);
      var v := Value(front, r);
      if k == 1 {
        assert v > 0 by { assert front[..0] == []; }
      }
      assert Value(s, r) == v * r + last;
      assert (v * r + last) / r == v && (v * r + last) % r == last && v * r + last >= r by {
        if r == 8 {} else {}
      }
      assert s == front + [s[k]];
    }
  }

  /** `u64::from_str_radix`: an optional plus sign, then at least one digit, within 64 bits. */
  function ParseU64(s: string, r: nat): Option<nat>
    requires Radix(r)
  {
    var digits := if s != [] && s[0] == '+' then s[1..] else s;
    if digits == [] || !AllDigits(digits, r) || Value(digits, r) >= U64_MODULUS then None
    else Some(Value(digits, r))
  }

  /** Exactly the texts read as `n`: its digits in this radix, any number of leading zeros, perhaps a plus sign. */
  lemma ParsesExactly(s: string, r: nat, n: nat)
    requires Radix(r)
    ensures ParseU64(s, r) == Some(n) <==>
            && n < 18446744073709551616
            && exists digits :: (s == digits || s == "+" + digits) && digits != [] && AllDigits(digits, r) && Value(digits, r) == n
  {
    if s != [] && s[0] == '+' {
      assert s == "+" + s[1..];
    }
    if digits :| (s == digits || s == "+" + digits) && digits != [] && AllDigits(digits, r) && Value(digits, r) == n {
      assert digits[0] != '+';
      assert s == "+" + digits ==> s[1..] == digits;
    }
  }

  lemma ParsePrint(n: nat, r: nat)
    requires Radix(r) && n < U64_MODULUS
    ensures ParseU64(Print(n, r), r) == Some(n)
  {
    PrintIsCanonical(n, r);
  }
}
