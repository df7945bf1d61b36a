/**
 * The tar header fields replay reads (crates/delta-core/src/recompress.rs).
 *
 * The layout is the ustar interchange format of the `pax` utility in IEEE Std
 * 1003.1-2017: the size at bytes 124 to 136, the type flag at byte 156. Types
 * `L` and `K` are GNU extensions.
 */
module TarHeaders {
  import opened Prelude
  import opened Numerals
  import opened Text

  const BLOCK: nat := 512
  const SIZE_FIELD: nat := 12

  const TYPE_LONG_NAME: byte := 76
  const TYPE_LONG_LINK: byte := 75

  /** What the layout needs of a header: its declared size, and whether a chained NUL follows the payload. */
  datatype Dialect = Dialect(size: Bytes -> Option<nat>, long: Bytes -> bool)

  const USTAR := Dialect(ParseSize, IsLong)

  predicate Blank(c: char) { c == '\0' || c == ' ' }

  function TrimStart(s: string): string {
    if s != [] && Blank(s[0]) then TrimStart(s[1..]) else s
  }

  function TrimEnd(s: string): string {
    if s != [] && Blank(s[|s| - 1]) then TrimEnd(s[..|s| - 1]) else s
  }

  /** Bytes that are not ASCII are never octal digits, whether or not they are text. */
  function AsText(field: Bytes): string {
    seq(|field|, i requires 0 <= i < |field| => (field[i] as int) as char)
  }

  /** Octal digits between blanks; nothing but blanks is zero. */
  function ParseOctal(text: string): Option<nat> {
    var trimmed := TrimEnd(TrimStart(text));
    if trimmed == [] then Some(0) else ParseU64(trimmed, 8)
  }

  function ParseSize(header: Bytes): Option<nat> {
    if |header| == BLOCK then ParseOctal(AsText(header[124..136])) else None
  }

  predicate IsLong(header: Bytes) {
    |header| == BLOCK && (header[156] == TYPE_LONG_NAME || header[156] == TYPE_LONG_LINK)
  }

  // ---- trimming ----------------------------------------------------------------

  lemma {:induction false} TrimStartDrops(blanks: string, rest: string)
    requires Every(blanks, Blank) && (rest == [] || !Blank(rest[0]))
    ensures TrimStart(blanks + rest) == rest
    decreases |blanks|
  {
    if blanks == [] {
      assert [] + rest == rest;
    } else {
      TrimStartDrops(blanks[1..], rest);
      assert (blanks + rest)[1..] == blanks[1..] + rest;
    }
  }

  lemma {:induction false} TrimEndDrops(rest: string, blanks: string)
    requires Every(blanks, Blank) && (rest == [] || !Blank(rest[|rest| - 1]))
    ensures TrimEnd(rest + blanks) == rest
    decreases |blanks|
  {
    if blanks == [] {
      assert rest + [] == rest;
    } else {
      var k := |blanks| - 1;
      TrimEndDrops(rest, blanks[..k]);
      assert (rest + blanks)[..|rest| + k] == rest + blanks[..k];
    }
  }

  /** Blanks on either side are no part of the number; nothing else in the field may be other than a numeral. */
  lemma OctalExactly(before: string, core: string, after: string)
    requires Every(before, Blank) && Every(after, Blank)
    requires core != [] ==> !Blank(core[0]) && !Blank(core[|core| - 1])
    ensures ParseOctal(before + (core + after)) == if core == [] then Some(0) else ParseU64(core, 8)
  {
    if core == [] {
      assert [] + after == after;
      assert before + after == (before + after) + [];
      assert Every(before + after, Blank);
      TrimStartDrops(before + after, []);
    } else {
      TrimStartDrops(before, core + after);
      TrimEndDrops(core, after);
    }
  }

  /** Whatever blanks surround it, a run of octal digits parses to its value when it fits in 64 bits. */
  lemma OctalBetweenBlanks(before: string, digits: string, after: string)
    requires Every(before, Blank) && Every(after, Blank) && AllDigits(digits, 8)
    ensures var v := Value(digits, 8);
            ParseOctal(before + (digits + after)) == if v < U64_MODULUS then Some(v) else None
  {
    if digits != [] {
      assert IsDigit(digits[0], 8) && IsDigit(digits[|digits| - 1], 8);
    }
    OctalExactly(before, digits, after);
  }

  // ---- printing a size ------------------------------------------------------------

  function Pow8(k: nat): (p: nat)
    ensures p > 0
  {
    if k == 0 then 1 else 8 * Pow8(k - 1)
  }

  lemma {:induction false} ValueBelowPower(s: string)
    requires AllDigits(s, 8)
    ensures Value(s, 8) < Pow8(|s|)
    decreases |s|
  {
    if s != [] {
      ValueBelowPower(s[..|s| - 1]);
      assert IsDigit(s[|s| - 1], 8);
    }
  }

  lemma {:induction false} PrintFits(n: nat, k: nat)
    requires n < Pow8(k) && k > 0
    ensures |Print(n, 8)| <= k
    decreases n
  {
    if n >= 8 {
      PrintFits(n / 8, k - 1);
    }
  }

  lemma {:induction false} LeadingZeros(zeros: string, s: string)
    requires AllDigits(s, 8) && Every(zeros, c => c == '0')
    ensures AllDigits(zeros + s, 8) && Value(zeros + s, 8) == Value(s, 8)
    decreases |zeros| + |s|
  {
    var all := zeros + s;
    if s != [] {
      LeadingZeros(zeros, s[..|s| - 1]);
      assert all[..|all| - 1] == zeros + s[..|s| - 1];
    } else if zeros != [] {
      LeadingZeros(zeros[..|zeros| - 1], []);
      assert all[..|all| - 1] == zeros[..|zeros| - 1] + [];
    }
  }

  /** The size field as an archive writer prints it: eleven octal digits, zero padded, and a NUL. */
  function SizeField(n: nat): (field: string)
    requires n < Pow8(SIZE_FIELD - 1)
    ensures |field| == SIZE_FIELD
  {
    PrintFits(n, SIZE_FIELD - 1);
    seq(SIZE_FIELD - 1 - |Print(n, 8)|, _ => '0') + Print(n, 8) + ['\0']
  }

  /** Parsing the size field inverts printing it. */
  lemma SizeRoundTrip(header: Bytes, n: nat)
    requires n < Pow8(SIZE_FIELD - 1)
    requires |header| == BLOCK && AsText(header[124..136]) == SizeField(n)
    ensures ParseSize(header) == Some(n)
  {
    PrintFits(n, SIZE_FIELD - 1);
    var zeros := seq(SIZE_FIELD - 1 - |Print(n, 8)|, _ => '0');
    var digits := zeros + Print(n, 8);
    PrintIsCanonical(n, 8);
    LeadingZeros(zeros, Print(n, 8));
    OctalBetweenBlanks([], digits, ['\0']);
    assert SizeField(n) == [] + (digits + ['\0']);
    Pow8Values();
  }

  lemma Pow8Values()
    ensures Pow8(11) == 0x2_0000_0000 && Pow8(12) == 0x10_0000_0000
  {
    assert Pow8(4) == 4096;
    assert Pow8(8) == 0x100_0000;
  }

  lemma {:induction false} TrimIsNoLonger(s: string)
    ensures |TrimStart(s)| <= |s| && |TrimEnd(s)| <= |s|
    decreases |s|
  {
    if s != [] {
      TrimIsNoLonger(s[1..]);
      TrimIsNoLonger(s[..|s| - 1]);
    }
  }

  lemma {:induction false} Pow8Monotone(j: nat, k: nat)
    requires j <= k
    ensures Pow8(j) <= Pow8(k)
    decreases k
  {
    if j < k {
      Pow8Monotone(j, k - 1);
    }
  }

  /** No header declares 2^36 bytes or more, so adding the long-name NUL cannot overflow a `u64`. */
  lemma DeclaredSizeFits(header: Bytes)
    requires ParseSize(header).Some?
    ensures ParseSize(header).value < 0x10_0000_0000
  {
    var text := AsText(header[124..136]);
    TrimIsNoLonger(text);
    TrimIsNoLonger(TrimStart(text));
    var trimmed := TrimEnd(TrimStart(text));
    if trimmed != [] {
      var digits := if trimmed[0] == '+' then trimmed[1..] else trimmed;
      ValueBelowPower(digits);
      Pow8Monotone(|digits|, 12);
    }
    Pow8Values();
  }
}
