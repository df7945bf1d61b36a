/**
 * The authenticated release identity and its wire form
 * (crates/delta-core/src/release_identity.rs).
 */
module ReleaseIdentities {
  import opened Prelude
  import opened Numerals
  import opened Text
  import opened Hash
  import SemVer

  const PROTOCOL_V1 := "delta-v1"
  const PROTOCOL_FAMILY := "delta-v"
  const MAX_COMMENT_BYTES: nat := 512

  datatype Field = App | Version | Platform | Blake3 | Size | Representation

  datatype IdentityError = UnsupportedProtocol(tag: string) | Malformed | Mismatch(field: Field)

  function Spaced(head: string, tail: string): string {
    head + [' '] + tail
  }

  datatype ReleaseIdentity = ReleaseIdentity(
    appId: string, version: string, platform: string, representation: string,
    artifactBlake3: string, artifactSize: nat, signedAt: nat)
  {
    /** The exact text the signature covers. */
    function ToTrustedComment(): string {
      Spaced(PROTOCOL_V1, Spaced("app:" + appId, Spaced("v:" + version, Spaced("plat:" + platform,
        Spaced("rep:" + representation, Spaced("b3:" + artifactBlake3, Spaced("sz:" + Print(artifactSize, 10),
        "ts:" + Print(signedAt, 10))))))))
    }

    function Check(app: string, ver: string, plat: string, blake3: string, size: nat): Result<(), IdentityError> {
      if appId != app then Err(Mismatch(App))
      else if version != ver then Err(Mismatch(Field.Version))
      else if platform != plat then Err(Mismatch(Platform))
      else if artifactBlake3 != blake3 then Err(Mismatch(Blake3))
      else if artifactSize != size then Err(Mismatch(Size))
      else Ok(())
    }

    function CheckRepresentation(rep: string): Result<(), IdentityError> {
      if representation != rep then Err(Mismatch(Representation)) else Ok(())
    }
  }

  datatype ReleaseBinding = Authenticated(identity: ReleaseIdentity) | Legacy
  {
    function Identity(): Option<ReleaseIdentity> {
      if Authenticated? then Some(identity) else None
    }

    predicate PermitsDelta() { Authenticated? }
  }

  // ---- field validators ------------------------------------------------------

  predicate AppIdChar(c: char) { Alphanumeric(c) || c == '.' || c == '-' || c == '_' }

  predicate CheckAppId(value: string) {
    0 < |value| <= 155 && Every(value, AppIdChar)
  }

  /** Strict semver that reprints to itself. */
  predicate CheckVersion(value: string) {
    match SemVer.Parse(value)
    case None => false
    case Some(parsed) => SemVer.Show(parsed) == value
  }

  predicate PlatformChar(c: char) { Lower(c) || Numeral(c) || c == '_' }

  predicate CheckPlatform(value: string) {
    match SplitOnce(value, '-')
    case None => false
    case Some((os, arch)) => os != [] && Every(os, PlatformChar) && arch != [] && Every(arch, PlatformChar)
  }

  predicate TokenChar(c: char) { Lower(c) || Numeral(c) || c == '-' || c == '.' || c == '_' }

  predicate CheckToken(value: string) {
    0 < |value| <= 64 && Every(value, TokenChar)
  }

  predicate CheckBlake3(value: string) {
    |value| == 64 && Every(value, LowerHexChar) && FromHex(value).Some?
  }

  function CheckDecimal(value: string): Option<nat> {
    if value == [] || !AllDigits(value, 10) || (|value| > 1 && value[0] == '0') then None
    else ParseU64(value, 10)
  }

  /** As `CheckDecimal`, and not zero. */
  function CheckSize(value: string): Option<nat> {
    match CheckDecimal(value)
    case Some(0) => None
    case other => other
  }

  // ---- the parser --------------------------------------------------------------

  predicate Ascii(c: char) { c as int < 128 }

  predicate Control(c: char) { c as int < 32 || c as int == 127 }

  function ParseTrustedComment(comment: string): Result<ReleaseBinding, IdentityError> {
    if !(PROTOCOL_FAMILY <= comment) then Ok(Legacy)
    else if |comment| > MAX_COMMENT_BYTES || !Every(comment, Ascii) || exists i :: 0 <= i < |comment| && Control(comment[i]) then
      Err(Malformed)
    else
      var tokens := Split(comment, ' ');
      if tokens[0] != PROTOCOL_V1 then Err(UnsupportedProtocol(tokens[0]))
      else if |tokens| != 8 then Err(Malformed)
      else ParseFields(tokens)
  }

  function ParseFields(tokens: seq<string>): Result<ReleaseBinding, IdentityError>
    requires |tokens| == 8
  {
    match (StripPrefix(tokens[1], "app:"), StripPrefix(tokens[2], "v:"), StripPrefix(tokens[3], "plat:"),
           StripPrefix(tokens[4], "rep:"), StripPrefix(tokens[5], "b3:"), StripPrefix(tokens[6], "sz:"),
           StripPrefix(tokens[7], "ts:"))
    case (Some(app), Some(version), Some(platform), Some(representation), Some(blake3), Some(size), Some(timestamp)) =>
      if CheckAppId(app) && CheckVersion(version) && CheckPlatform(platform) && CheckToken(representation)
         && CheckBlake3(blake3) && CheckSize(size).Some? && CheckDecimal(timestamp).Some?
      then Ok(Authenticated(ReleaseIdentity(app, version, platform, representation, blake3,
                                            CheckSize(size).value, CheckDecimal(timestamp).value)))
      else Err(Malformed)
    case _ => Err(Malformed)
  }

  // ---- what a valid identity is ------------------------------------------------

  ghost predicate ValidIdentity(id: ReleaseIdentity) {
    && CheckAppId(id.appId) && CheckVersion(id.version) && CheckPlatform(id.platform)
    && CheckToken(id.representation) && CheckBlake3(id.artifactBlake3)
    && 0 < id.artifactSize < U64_MODULUS && id.signedAt < U64_MODULUS
  }

  function Tokens(id: ReleaseIdentity): seq<string> {
    [PROTOCOL_V1, "app:" + id.appId, "v:" + id.version, "plat:" + id.platform, "rep:" + id.representation,
     "b3:" + id.artifactBlake3, "sz:" + Print(id.artifactSize, 10), "ts:" + Print(id.signedAt, 10)]
  }

  lemma JoinStep(pieces: seq<string>)
    requires |pieces| > 1
    ensures Join(pieces, ' ') == Spaced(pieces[0], Join(pieces[1..], ' '))
  {
  }

  /** The comment is the eight tokens joined by single spaces. */
  lemma CommentIsTokens(id: ReleaseIdentity)
    ensures id.ToTrustedComment() == Join(Tokens(id), ' ')
  {
    var t := Tokens(id);
    JoinStep(t);
    JoinStep(t[1..]);
    JoinStep(t[2..]);
    JoinStep(t[3..]);
    JoinStep(t[4..]);
    JoinStep(t[5..]);
    JoinStep(t[6..]);
    assert t[1..][1..] == t[2..] && t[2..][1..] == t[3..] && t[3..][1..] == t[4..];
    assert t[4..][1..] == t[5..] && t[5..][1..] == t[6..] && t[6..][1..] == t[7..];
    assert Join(t[7..], ' ') == t[7];
  }

  /** Printable ASCII other than the separator. */
  predicate Plain(c: char) { 32 < c as int < 127 }

  lemma VersionIsPlain(value: string)
    requires CheckVersion(value)
    ensures Every(value, Plain)
  {
    forall i | 0 <= i < |value| ensures Plain(value[i]) {
      if !Plain(value[i]) {
        SemVer.VersionAlphabet(value, value[i]);
      }
    }
  }

  lemma PlatformIsPlain(value: string)
    requires CheckPlatform(value)
    ensures Every(value, Plain)
  {
    SplitOnceSound(value, '-');
  }

  lemma DecimalIsPlain(n: nat)
    ensures Every(Print(n, 10), Plain)
  {
    PrintIsCanonical(n, 10);
  }

  /** No field can contain the separator, a control character or anything outside ASCII. */
  lemma TokensArePlain(id: ReleaseIdentity)
    requires ValidIdentity(id)
    ensures forall k :: 0 <= k < |Tokens(id)| ==> Every(Tokens(id)[k], Plain)
  {
    VersionIsPlain(id.version);
    PlatformIsPlain(id.platform);
    DecimalIsPlain(id.artifactSize);
    DecimalIsPlain(id.signedAt);
  }

  lemma {:induction false} JoinIsPlain(pieces: seq<string>)
    requires |pieces| > 0 && forall k :: 0 <= k < |pieces| ==> Every(pieces[k], Plain)
    ensures forall i :: 0 <= i < |Join(pieces, ' ')| ==> Plain(Join(pieces, ' ')[i]) || Join(pieces, ' ')[i] == ' '
    decreases |pieces|
  {
    if |pieces| > 1 {
      JoinIsPlain(pieces[1..]);
    }
  }

  lemma StripConcat(prefix: string, rest: string)
    ensures StripPrefix(prefix + rest, prefix) == Some(rest)
  {
    assert (prefix + rest)[|prefix|..] == rest;
  }

  lemma DecimalChecks(n: nat)
    requires n < U64_MODULUS
    ensures CheckDecimal(Print(n, 10)) == Some(n)
  {
    PrintIsCanonical(n, 10);
    ParsePrint(n, 10);
  }

  lemma FieldsRoundTrip(id: ReleaseIdentity)
    requires ValidIdentity(id)
    ensures ParseFields(Tokens(id)) == Ok(Authenticated(id))
  {
    StripConcat("app:", id.appId);
    StripConcat("v:", id.version);
    StripConcat("plat:", id.platform);
    StripConcat("rep:", id.representation);
    StripConcat("b3:", id.artifactBlake3);
    StripConcat("sz:", Print(id.artifactSize, 10));
    StripConcat("ts:", Print(id.signedAt, 10));
    DecimalChecks(id.artifactSize);
    DecimalChecks(id.signedAt);
  }

  /** Every valid identity whose printed form fits parses back to itself. */
  lemma PrintThenParse(id: ReleaseIdentity)
    requires ValidIdentity(id) && |id.ToTrustedComment()| <= MAX_COMMENT_BYTES
    ensures ParseTrustedComment(id.ToTrustedComment()) == Ok(Authenticated(id))
  {
    var comment := id.ToTrustedComment();
    CommentIsTokens(id);
    TokensArePlain(id);
    JoinIsPlain(Tokens(id));
    SplitJoin(Tokens(id), ' ');
    FieldsRoundTrip(id);
    assert comment[..|PROTOCOL_FAMILY|] == PROTOCOL_FAMILY;
  }

  lemma PrefixRestores(token: string, prefix: string)
    requires StripPrefix(token, prefix).Some?
    ensures token == prefix + StripPrefix(token, prefix).value
  {
  }

  lemma DecimalRestores(value: string)
    requires CheckDecimal(value).Some?
    ensures Print(CheckDecimal(value).value, 10) == value && CheckDecimal(value).value < U64_MODULUS
  {
    CanonicalIsPrinted(value, 10);
    assert value[0] != '+';
  }

  lemma FieldsReprint(tokens: seq<string>, id: ReleaseIdentity)
    requires |tokens| == 8 && tokens[0] == PROTOCOL_V1
    requires ParseFields(tokens) == Ok(Authenticated(id))
    ensures tokens == Tokens(id) && ValidIdentity(id)
  {
    PrefixRestores(tokens[1], "app:");
    PrefixRestores(tokens[2], "v:");
    PrefixRestores(tokens[3], "plat:");
    PrefixRestores(tokens[4], "rep:");
    PrefixRestores(tokens[5], "b3:");
    PrefixRestores(tokens[6], "sz:");
    PrefixRestores(tokens[7], "ts:");
    DecimalRestores(StripPrefix(tokens[6], "sz:").value);
    DecimalRestores(StripPrefix(tokens[7], "ts:").value);
  }

  /** Every comment accepted as an identity reprints to itself, byte for byte. */
  lemma ParseThenPrint(comment: string, id: ReleaseIdentity)
    requires ParseTrustedComment(comment) == Ok(Authenticated(id))
    ensures id.ToTrustedComment() == comment && ValidIdentity(id) && |comment| <= MAX_COMMENT_BYTES
  {
    var tokens := Split(comment, ' ');
    JoinSplit(comment, ' ');
    FieldsReprint(tokens, id);
    CommentIsTokens(id);
  }

  /** Exactly the identities that survive their own parser: valid fields, and a printed form that fits. */
  lemma RoundTripsExactly(id: ReleaseIdentity)
    ensures ParseTrustedComment(id.ToTrustedComment()) == Ok(Authenticated(id)) <==>
            ValidIdentity(id) && |id.ToTrustedComment()| <= MAX_COMMENT_BYTES
  {
    if ParseTrustedComment(id.ToTrustedComment()) == Ok(Authenticated(id)) {
      ParseThenPrint(id.ToTrustedComment(), id);
    }
    if ValidIdentity(id) && |id.ToTrustedComment()| <= MAX_COMMENT_BYTES {
      PrintThenParse(id);
    }
  }

  /** The accepted comments are exactly the printed forms of valid identities that fit. */
  lemma AcceptedExactly(comment: string)
    ensures (exists id :: ParseTrustedComment(comment) == Ok(Authenticated(id))) <==>
            (exists id :: ValidIdentity(id) && id.ToTrustedComment() == comment && |comment| <= MAX_COMMENT_BYTES)
  {
    if id :| ParseTrustedComment(comment) == Ok(Authenticated(id)) {
      ParseThenPrint(comment, id);
    }
    if id :| ValidIdentity(id) && id.ToTrustedComment() == comment && |comment| <= MAX_COMMENT_BYTES {
      PrintThenParse(id);
    }
  }

  /** The re-serialisation test in the version check can never be what rejects a version. */
  lemma CanonicalTestIsRedundant(value: string)
    ensures CheckVersion(value) <==> SemVer.Parse(value).Some?
  {
    if SemVer.Parse(value).Some? {
      SemVer.ParseIsCanonical(value);
    }
  }

  // ---- the accepted comments, spelled out ----------------------------------------------

  /** Lower-case letters, digits, and whatever else `more` allows. */
  ghost predicate Over(value: string, more: string) {
    forall i :: 0 <= i < |value| ==> 'a' <= value[i] <= 'z' || '0' <= value[i] <= '9' || value[i] in more
  }

  /**
   * The wire format, read as a description: what a signer in any language has
   * to write for `id`, and what each field may hold.
   */
  ghost predicate Wire(comment: string, id: ReleaseIdentity) {
    && |comment| <= 512
    && comment == "delta-v1 app:" + (id.appId + (" v:" + (id.version + (" plat:" + (id.platform + (" rep:" + (id.representation
                  + (" b3:" + (id.artifactBlake3 + (" sz:" + (Print(id.artifactSize, 10) + (" ts:" + Print(id.signedAt, 10)))))))))))))
    && 0 < |id.appId| <= 155
    && (forall i :: 0 <= i < |id.appId| ==>
          var c := id.appId[i]; 'A' <= c <= 'Z' || 'a' <= c <= 'z' || '0' <= c <= '9' || c in ".-_")
    && (exists v :: SemVer.Spells(id.version, v))
    && (exists os, arch :: id.platform == os + "-" + arch && os != [] && arch != [] && Over(os, "_") && Over(arch, "_"))
    && 0 < |id.representation| <= 64 && Over(id.representation, "-._")
    && |id.artifactBlake3| == 64
    && (forall i :: 0 <= i < 64 ==> '0' <= id.artifactBlake3[i] <= '9' || 'a' <= id.artifactBlake3[i] <= 'f')
    && 0 < id.artifactSize < 18446744073709551616 && id.signedAt < 18446744073709551616
  }

  lemma AppIdSpelled(value: string)
    ensures CheckAppId(value) <==>
            && 0 < |value| <= 155
            && forall i :: 0 <= i < |value| ==>
                 var c := value[i]; 'A' <= c <= 'Z' || 'a' <= c <= 'z' || '0' <= c <= '9' || c in ".-_"
  {
  }

  lemma VersionSpelled(value: string)
    ensures CheckVersion(value) <==> exists v :: SemVer.Spells(value, v)
  {
    CanonicalTestIsRedundant(value);
    if SemVer.Parse(value).Some? {
      SemVer.ParsesExactly(value, SemVer.Parse(value).value);
    }
    if v :| SemVer.Spells(value, v) {
      SemVer.ParsesExactly(value, v);
    }
  }

  lemma PartSpelled(part: string)
    ensures Every(part, PlatformChar) <==> Over(part, "_")
    ensures Over(part, "_") ==> '-' !in part
  {
  }

  lemma PlatformSpelled(value: string)
    ensures CheckPlatform(value) <==>
            exists os: string, arch: string :: value == os + "-" + arch && os != [] && arch != [] && Over(os, "_") && Over(arch, "_")
  {
    SplitOnceSound(value, '-');
    if CheckPlatform(value) {
      var (os, arch) := SplitOnce(value, '-').value;
      PartSpelled(os);
      PartSpelled(arch);
      assert value == os + "-" + arch;
    }
    if os, arch :| value == os + "-" + arch && os != [] && arch != [] && Over(os, "_") && Over(arch, "_") {
      PartSpelled(os);
      PartSpelled(arch);
      SplitOnceAt(os, arch, '-');
    }
  }

  lemma TokenSpelled(value: string)
    ensures CheckToken(value) <==> 0 < |value| <= 64 && Over(value, "-._")
  {
  }

  lemma Blake3Spelled(value: string)
    ensures CheckBlake3(value) <==>
            |value| == 64 && forall i :: 0 <= i < 64 ==> '0' <= value[i] <= '9' || 'a' <= value[i] <= 'f'
  {
  }

  lemma SpacedField(key: string, value: string, next: string, rest: string, gap: string)
    requires gap == " " + next
    ensures Spaced(key + value, next + rest) == key + (value + (gap + rest))
  {
    assert (key + value) + [' '] + (next + rest) == key + (value + (([' '] + next) + rest));
  }

  lemma CommentSpelled(id: ReleaseIdentity)
    ensures id.ToTrustedComment()
            == "delta-v1 app:" + (id.appId + (" v:" + (id.version + (" plat:" + (id.platform + (" rep:" + (id.representation
               + (" b3:" + (id.artifactBlake3 + (" sz:" + (Print(id.artifactSize, 10) + (" ts:" + Print(id.signedAt, 10)))))))))))))
  {
    var size := Print(id.artifactSize, 10) + (" ts:" + Print(id.signedAt, 10));
    var blake3 := id.artifactBlake3 + (" sz:" + size);
    var representation := id.representation + (" b3:" + blake3);
    var platform := id.platform + (" rep:" + representation);
    var version := id.version + (" plat:" + platform);
    var app := id.appId + (" v:" + version);
    SpacedField("sz:", Print(id.artifactSize, 10), "ts:", Print(id.signedAt, 10), " ts:");
    SpacedField("b3:", id.artifactBlake3, "sz:", size, " sz:");
    SpacedField("rep:", id.representation, "b3:", blake3, " b3:");
    SpacedField("plat:", id.platform, "rep:", representation, " rep:");
    SpacedField("v:", id.version, "plat:", platform, " plat:");
    SpacedField("app:", id.appId, "v:", version, " v:");
    assert Spaced(PROTOCOL_V1, "app:" + app) == "delta-v1 app:" + app;
  }

  lemma WireIsValid(comment: string, id: ReleaseIdentity)
    ensures Wire(comment, id) <==>
            ValidIdentity(id) && id.ToTrustedComment() == comment && |comment| <= MAX_COMMENT_BYTES
  {
    AppIdSpelled(id.appId);
    VersionSpelled(id.version);
    PlatformSpelled(id.platform);
    TokenSpelled(id.representation);
    Blake3Spelled(id.artifactBlake3);
    CommentSpelled(id);
  }

  /** Exactly the comments accepted, and as what: the parser reads this description and nothing else. */
  lemma WireExactly(comment: string, id: ReleaseIdentity)
    ensures ParseTrustedComment(comment) == Ok(Authenticated(id)) <==> Wire(comment, id)
  {
    WireIsValid(comment, id);
    if ParseTrustedComment(comment) == Ok(Authenticated(id)) {
      ParseThenPrint(comment, id);
    }
    if Wire(comment, id) {
      PrintThenParse(id);
    }
  }

  /** A short printable comment of the family that opens with `tag`, another protocol. */
  ghost predicate OtherProtocol(comment: string, tag: string) {
    && "delta-v" <= comment && |comment| <= 512 && (forall i :: 0 <= i < |comment| ==> ' ' <= comment[i] <= '~')
    && tag != "delta-v1" && ' ' !in tag && (comment == tag || tag + " " <= comment)
  }

  lemma FirstPiece(s: string, sep: char, t: string)
    ensures Split(s, sep)[0] == t <==> sep !in t && (s == t || t + [sep] <= s)
  {
    var pieces := Split(s, sep);
    JoinSplit(s, sep);
    SplitSeparates(s, sep);
    if sep !in t && s == t {
      SplitFree(t, sep);
    } else if sep !in t && t + [sep] <= s {
      assert s == t + [sep] + s[|t| + 1..];
      SplitFirst(t, s[|t| + 1..], sep);
    }
  }

  /** A comment is legacy exactly when it is not of the family; one of the family is never taken for legacy, whatever is wrong with it. */
  lemma OutsideExactly(comment: string, tag: string)
    ensures ParseTrustedComment(comment) == Ok(Legacy) <==> !("delta-v" <= comment)
    ensures ParseTrustedComment(comment) == Err(UnsupportedProtocol(tag)) <==> OtherProtocol(comment, tag)
  {
    FirstPiece(comment, ' ', tag);
  }
}
