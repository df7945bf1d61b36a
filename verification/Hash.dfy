/** Digests and their hex spelling (crates/delta-core/src/hash.rs). */
module Hash {
  import opened Prelude
  import opened Text

  const HEX_LEN: nat := 64

  /** A 256-bit digest, as 64 nibbles. */
  type FileHash = d: seq<nat> | |d| == 64 && (forall i :: 0 <= i < |d| ==> d[i] < 16) witness seq(64, _ => 0)

  predicate HexChar(c: char) {
    Numeral(c) || 'a' <= c <= 'f' || 'A' <= c <= 'F'
  }

  predicate LowerHexChar(c: char) {
    Numeral(c) || 'a' <= c <= 'f'
  }

  function HexValue(c: char): (v: nat)
    requires HexChar(c)
    ensures v < 16
  {
    if Numeral(c) then c as int - '0' as int
    else if 'a' <= c <= 'f' then c as int - 'a' as int + 10
    else c as int - 'A' as int + 10
  }

  function HexDigit(v: nat): (c: char)
    requires v < 16
    ensures LowerHexChar(c) && HexValue(c) == v
  {
    if v < 10 then ('0' as int + v) as char else ('a' as int + (v - 10)) as char
  }

  /** Either case is accepted. */
  function FromHex(value: string): Option<FileHash> {
    if |value| != HEX_LEN || !Every(value, HexChar) then None
    else Some(seq(HEX_LEN, i requires 0 <= i < HEX_LEN => HexValue(value[i])))
  }

  /** Always lower case. */
  function ToHex(d: FileHash): string {
    seq(HEX_LEN, i requires 0 <= i < HEX_LEN => HexDigit(d[i]))
  }

  lemma HexRoundTrip(d: FileHash)
    ensures FromHex(ToHex(d)) == Some(d)
  {
    var back := FromHex(ToHex(d)).value;
    assert back == d;
  }

  /** A text is read as a digest exactly when it spells its nibbles in order, in either case. */
  lemma FromHexExactly(value: string, d: FileHash)
    ensures FromHex(value) == Some(d) <==>
            && |value| == 64
            && forall i :: 0 <= i < 64 ==> value[i] == "0123456789abcdef"[d[i]] || value[i] == "0123456789ABCDEF"[d[i]]
  {
    if |value| == 64 {
      forall i | 0 <= i < 64
        ensures HexChar(value[i]) && HexValue(value[i]) == d[i] <==>
                value[i] == "0123456789abcdef"[d[i]] || value[i] == "0123456789ABCDEF"[d[i]]
      {
        NibbleSpelled(value[i], d[i]);
      }
      if Every(value, HexChar) {
        var read := FromHex(value).value;
        assert forall i :: 0 <= i < 64 ==> read[i] == HexValue(value[i]);
        assert read == d <==> forall i :: 0 <= i < 64 ==> read[i] == d[i];
      }
    }
  }

  lemma NibbleSpelled(c: char, v: nat)
    requires v < 16
    ensures HexChar(c) && HexValue(c) == v <==> c == "0123456789abcdef"[v] || c == "0123456789ABCDEF"[v]
  {
  }

  lemma ToHexInjective(a: FileHash, b: FileHash)
    requires ToHex(a) == ToHex(b)
    ensures a == b
  {
    HexRoundTrip(a);
    HexRoundTrip(b);
  }

  /**
   * Nothing else has the digest of `bytes`. BLAKE3 is taken to have no second
   * preimages for the particular artifacts an argument is about.
   */
  ghost predicate Unrivalled(hash: Bytes -> FileHash, bytes: Bytes) {
    forall other :: hash(other) == hash(bytes) ==> other == bytes
  }
}
