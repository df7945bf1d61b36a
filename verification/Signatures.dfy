/**
 * Signature verification and the token it yields (crates/delta-core/src/signature.rs).
 *
 * The cryptography is a parameter: what a key or a signature decodes to, and
 * which signatures verify. A signature block carries the trusted comment its
 * global signature covers.
 */
module Signatures {
  import opened Prelude
  import opened Hash
  import opened ReleaseIdentities

  datatype SignatureBlock = SignatureBlock(body: string, trustedComment: string)

  datatype Scheme = Scheme(
    hash: Bytes -> FileHash,
    decodeKey: string -> Option<string>,
    decodeSignature: string -> Option<SignatureBlock>,
    verifies: (string, Bytes, SignatureBlock) -> bool)

  datatype SignatureError = Unverified | Identity(error: IdentityError)

  /** Bytes whose signature verified, with the statement that signature carried. */
  datatype VerifiedArtifact = VerifiedArtifact(bytes: Bytes, binding: ReleaseBinding)

  function VerifyArtifact(scheme: Scheme, bytes: Bytes, signature: string, pubkey: string)
    : Result<VerifiedArtifact, SignatureError>
  {
    match (scheme.decodeKey(pubkey), scheme.decodeSignature(signature))
    case (Some(key), Some(block)) =>
      if !scheme.verifies(key, bytes, block) then Err(Unverified)
      else
        (match ParseTrustedComment(block.trustedComment)
         case Ok(binding) => Ok(VerifiedArtifact(bytes, binding))
         case Err(e) => Err(Identity(e)))
    case _ => Err(Unverified)
  }

  /** What the trusted comment claims, with no verification at all. */
  function AdvisoryBinding(scheme: Scheme, signature: string): Result<ReleaseBinding, SignatureError> {
    match scheme.decodeSignature(signature)
    case None => Err(Unverified)
    case Some(block) =>
      match ParseTrustedComment(block.trustedComment)
      case Ok(binding) => Ok(binding)
      case Err(e) => Err(Identity(e))
  }

  /** Verification never changes the bytes, and its binding is the advisory one. */
  lemma VerifiedIsAdvised(scheme: Scheme, bytes: Bytes, signature: string, pubkey: string)
    ensures var v := VerifyArtifact(scheme, bytes, signature, pubkey);
            && (v.Ok? ==> v.value.bytes == bytes && AdvisoryBinding(scheme, signature) == Ok(v.value.binding))
            && (AdvisoryBinding(scheme, signature).Err? ==> v.Err?)
  {
  }

  // ---- exactly what verifies --------------------------------------------------------

  /** Both encodings decode, and the key signed these bytes. */
  ghost predicate Genuine(scheme: Scheme, bytes: Bytes, signature: string, pubkey: string) {
    && scheme.decodeKey(pubkey).Some? && scheme.decodeSignature(signature).Some?
    && scheme.verifies(scheme.decodeKey(pubkey).value, bytes, scheme.decodeSignature(signature).value)
  }

  /** The comment states these bytes as this release. */
  ghost predicate States(scheme: Scheme, comment: string, bytes: Bytes, app: string, version: string, platform: string) {
    exists s :: Wire(comment, s) && s.appId == app && s.version == version && s.platform == platform
                && s.artifactBlake3 == ToHex(scheme.hash(bytes)) && s.artifactSize == |bytes|
  }

  /**
   * Verification succeeds exactly for genuine bytes whose comment is outside the
   * family, and then there is no identity, or is the wire form of one, and then
   * it is that one. What is not genuine is reported as such, whatever the comment.
   */
  lemma VerifiesExactly(scheme: Scheme, bytes: Bytes, signature: string, pubkey: string, v: VerifiedArtifact)
    ensures VerifyArtifact(scheme, bytes, signature, pubkey) == Ok(v) <==>
            && Genuine(scheme, bytes, signature, pubkey) && v.bytes == bytes
            && var comment := scheme.decodeSignature(signature).value.trustedComment;
            match v.binding
            case Legacy => !("delta-v" <= comment)
            case Authenticated(id) => Wire(comment, id)
    ensures VerifyArtifact(scheme, bytes, signature, pubkey) == Err(Unverified) <==> !Genuine(scheme, bytes, signature, pubkey)
  {
    if scheme.decodeSignature(signature).Some? {
      var comment := scheme.decodeSignature(signature).value.trustedComment;
      OutsideExactly(comment, "");
      if v.binding.Authenticated? {
        WireExactly(comment, v.binding.identity);
      }
    }
  }

  /** What the checks of an identity accept, the comment states. */
  lemma CheckedIsStated(scheme: Scheme, comment: string, bytes: Bytes, app: string, version: string, platform: string, s: ReleaseIdentity)
    requires Wire(comment, s) && s.Check(app, version, platform, ToHex(scheme.hash(bytes)), |bytes|).Ok?
    ensures States(scheme, comment, bytes, app, version, platform)
  {
  }

  lemma StatedIsChecked(scheme: Scheme, comment: string, bytes: Bytes, app: string, version: string, platform: string)
    returns (s: ReleaseIdentity)
    requires States(scheme, comment, bytes, app, version, platform)
    ensures Wire(comment, s) && s.Check(app, version, platform, ToHex(scheme.hash(bytes)), |bytes|).Ok?
  {
    s :| Wire(comment, s) && s.appId == app && s.version == version && s.platform == platform
         && s.artifactBlake3 == ToHex(scheme.hash(bytes)) && s.artifactSize == |bytes|;
  }

  /** With an identity, verification and its check together are genuine bytes that the comment states. */
  lemma StatedExactly(scheme: Scheme, bytes: Bytes, signature: string, pubkey: string, app: string, version: string, platform: string)
    ensures var v := VerifyArtifact(scheme, bytes, signature, pubkey);
            && v.Ok? && v.value.binding.Authenticated?
            && v.value.binding.identity.Check(app, version, platform, ToHex(scheme.hash(bytes)), |bytes|).Ok?
            <==>
            && Genuine(scheme, bytes, signature, pubkey)
            && States(scheme, scheme.decodeSignature(signature).value.trustedComment, bytes, app, version, platform)
  {
    var v := VerifyArtifact(scheme, bytes, signature, pubkey);
    if v.Ok? {
      VerifiesExactly(scheme, bytes, signature, pubkey, v.value);
      if v.value.binding.Authenticated?
         && v.value.binding.identity.Check(app, version, platform, ToHex(scheme.hash(bytes)), |bytes|).Ok? {
        CheckedIsStated(scheme, scheme.decodeSignature(signature).value.trustedComment, bytes, app, version, platform,
                        v.value.binding.identity);
      }
    }
    if Genuine(scheme, bytes, signature, pubkey)
       && States(scheme, scheme.decodeSignature(signature).value.trustedComment, bytes, app, version, platform) {
      var s := StatedIsChecked(scheme, scheme.decodeSignature(signature).value.trustedComment, bytes, app, version, platform);
      VerifiesExactly(scheme, bytes, signature, pubkey, VerifiedArtifact(bytes, Authenticated(s)));
    }
  }
}
