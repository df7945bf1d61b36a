/**
 * The decisions of `plan_update` that touch nothing
 * (crates/delta-core/src/client.rs): which release this is, whether it may be
 * installed at all, and whether a delta may be tried.
 */
module Planning {
  import opened Prelude
  import opened Hash
  import opened Hosts
  import opened Manifests
  import opened ReleaseIdentities
  import opened Signatures
  import opened UpdateIdentities

  datatype Limits = Limits(maxTargetBytes: nat, maxTarBytes: nat)

  /** Everything about the host but its cache. `platform` is the running build's own `{os}-{arch}`. */
  datatype PlanContext = PlanContext(
    base: Option<string>, installedApp: bool, seeded: Option<string>,
    pubkey: string, appId: string, platform: string, limits: Limits)

  /** The delta paths a plan had tried by the time it gave up on them. */
  datatype Attempted = Attempted(tarDelta: bool, directDelta: bool)

  /** The rebuilt artifact of a delta is the workspace file `Artifact`. */
  datatype UpdateSource =
    | TarDelta(space: Workspace, signature: string, downloaded: nat, wouldHaveDownloaded: nat)
    | Delta(space: Workspace, signature: string, downloaded: nat, wouldHaveDownloaded: nat)
    | Full(url: string, signature: string, attempted: Attempted)
    | AlreadyInstalled
    | RefusedSource(reason: Refusal)

  function FallBack(id: UpdateIdentity, attempted: Attempted): UpdateSource {
    Full(id.downloadUrl, id.signature, attempted)
  }

  function FromJson(host: Host, json: string): Option<Manifest> {
    match host.parseJson(json)
    case None => None
    case Some(m) => if Valid(m) then Some(m) else None
  }

  /** The advisory reading of the signature: refuse, or carry on with its binding. */
  function Advised(scheme: Scheme, id: UpdateIdentity, ctx: PlanContext): Option<ReleaseBinding> {
    match AdvisoryBinding(scheme, id.signature)
    case Err(_) => None
    case Ok(binding) =>
      match binding.Identity()
      case None => Some(binding)
      case Some(signed) =>
        if signed.Check(ctx.appId, id.version, ctx.platform, signed.artifactBlake3, signed.artifactSize).Err? then None
        else Some(binding)
  }

  /** Either the plan is settled before anything is fetched, or a delta may be tried against `entry`. */
  datatype Screening = Settled(source: UpdateSource) | Eligible(entry: DeltaPlatform, signed: ReleaseIdentity)

  /** What the document says of the selected artifact; a document that cannot be read says nothing. */
  function Resolved(host: Host, id: UpdateIdentity): Result<Option<DeltaPlatform>, Refusal> {
    match FromJson(host, id.rawJson)
    case None => Ok(None)
    case Some(manifest) => ResolveIdentity(manifest, id)
  }

  function Screen(host: Host, id: UpdateIdentity, ctx: PlanContext): Screening {
    var resolved := Resolved(host, id);
    if resolved.Err? then Settled(RefusedSource(resolved.error))
    else
      match EvaluateVersion(host.precedence, id.currentVersion, id.version)
      case UpToDate => Settled(AlreadyInstalled)
      case Refused(reason) => Settled(RefusedSource(reason))
      case Upgrade =>
        var binding := Advised(host.scheme, id, ctx);
        if binding.None? then Settled(RefusedSource(ReleaseIdentityRefused))
        else if resolved.value.None? || resolved.value.value.targetInstallerSize > ctx.limits.maxTargetBytes
                || !binding.value.PermitsDelta() then
          Settled(FallBack(id, Attempted(false, false)))
        else Eligible(resolved.value.value, binding.value.identity)
  }

  /** The authoritative check, on an artifact whose signature verified. */
  function CheckReleaseIdentity(scheme: Scheme, ctx: PlanContext, id: UpdateIdentity, artifact: VerifiedArtifact): bool {
    match artifact.binding.Identity()
    case None => true
    case Some(signed) =>
      signed.Check(ctx.appId, id.version, ctx.platform, ToHex(scheme.hash(artifact.bytes)), |artifact.bytes|).Ok?
  }

  /** These bytes verify under the identity's signature and are the release it states. */
  ghost predicate Acceptable(scheme: Scheme, ctx: PlanContext, id: UpdateIdentity, bytes: Bytes) {
    && VerifyArtifact(scheme, bytes, id.signature, ctx.pubkey).Ok?
    && CheckReleaseIdentity(scheme, ctx, id, VerifyArtifact(scheme, bytes, id.signature, ctx.pubkey).value)
  }

  /**
   * An early refusal is sound: whenever the unverified reading refuses, no
   * bytes whatever would have passed verification and the authoritative check.
   * When it does not, it has not authorised anything either: what is left to
   * establish is exactly that the bytes verify and, for an authenticated
   * release, that they are the ones the signature names.
   */
  lemma EarlyRefusalIsSound(scheme: Scheme, ctx: PlanContext, id: UpdateIdentity, bytes: Bytes)
    ensures Advised(scheme, id, ctx).None? ==> !Acceptable(scheme, ctx, id, bytes)
    ensures Advised(scheme, id, ctx).Some? ==>
      (Acceptable(scheme, ctx, id, bytes) <==>
        && VerifyArtifact(scheme, bytes, id.signature, ctx.pubkey).Ok?
        && match Advised(scheme, id, ctx).value.Identity()
           case None => true
           case Some(signed) => signed.artifactBlake3 == ToHex(scheme.hash(bytes)) && signed.artifactSize == |bytes|)
  {
    VerifiedIsAdvised(scheme, bytes, id.signature, ctx.pubkey);
  }

  /**
   * Path independence. Whatever the server, the cache and the disk held, and
   * whichever way each was obtained, two acceptable artifacts of one
   * authenticated release are the same bytes.
   */
  lemma PathIndependence(scheme: Scheme, ctx: PlanContext, id: UpdateIdentity, a: Bytes, b: Bytes)
    requires Unrivalled(scheme.hash, a)
    requires Acceptable(scheme, ctx, id, a) && Acceptable(scheme, ctx, id, b)
    requires VerifyArtifact(scheme, a, id.signature, ctx.pubkey).value.binding.Authenticated?
    ensures a == b
  {
    VerifiedIsAdvised(scheme, a, id.signature, ctx.pubkey);
    VerifiedIsAdvised(scheme, b, id.signature, ctx.pubkey);
    ToHexInjective(scheme.hash(a), scheme.hash(b));
  }

  /** What being eligible for a delta means, all of it established before any fetch. */
  lemma EligibleMeans(host: Host, id: UpdateIdentity, ctx: PlanContext)
    requires Screen(host, id, ctx).Eligible?
    ensures var s := Screen(host, id, ctx);
            && Newer(host.precedence, id.currentVersion, id.version)
            && Advised(host.scheme, id, ctx) == Some(Authenticated(s.signed))
            && s.signed.version == id.version && s.signed.appId == ctx.appId && s.signed.platform == ctx.platform
            && s.entry.targetVersion == id.version && s.entry.signature == id.signature
            && s.entry.targetInstallerSize <= ctx.limits.maxTargetBytes
            && FromHex(s.entry.targetInstallerBlake3).Some?
  {
    ResolvedEntry(FromJson(host, id.rawJson).value, id);
  }

  /** Whatever the plan settles on, a full download is only ever chosen for a strictly newer version. */
  lemma FullMeansNewer(host: Host, id: UpdateIdentity, ctx: PlanContext)
    requires Screen(host, id, ctx).Settled? && Screen(host, id, ctx).source.Full?
    ensures Newer(host.precedence, id.currentVersion, id.version)
    ensures Screen(host, id, ctx).source == FallBack(id, Attempted(false, false))
  {
  }

  // ---- the same decisions, from what they are about --------------------------------------

  /** The bytes are signed, and the signature states them as this release or states no release at all. */
  ghost predicate Authentic(scheme: Scheme, ctx: PlanContext, id: UpdateIdentity, bytes: Bytes) {
    && Genuine(scheme, bytes, id.signature, ctx.pubkey)
    && var comment := scheme.decodeSignature(id.signature).value.trustedComment;
    !("delta-v" <= comment) || States(scheme, comment, bytes, ctx.appId, id.version, ctx.platform)
  }

  lemma AcceptableExactly(scheme: Scheme, ctx: PlanContext, id: UpdateIdentity, bytes: Bytes)
    ensures Acceptable(scheme, ctx, id, bytes) <==> Authentic(scheme, ctx, id, bytes)
  {
    var v := VerifyArtifact(scheme, bytes, id.signature, ctx.pubkey);
    StatedExactly(scheme, bytes, id.signature, ctx.pubkey, ctx.appId, id.version, ctx.platform);
    VerifiesExactly(scheme, bytes, id.signature, ctx.pubkey, VerifiedArtifact(bytes, Legacy));
    if v.Ok? {
      VerifiesExactly(scheme, bytes, id.signature, ctx.pubkey, v.value);
      if v.value.binding.Authenticated? {
        OutsideExactly(scheme.decodeSignature(id.signature).value.trustedComment, "");
      }
    }
  }

  /** The comment is the wire form of `s`, and `s` is this version of this application on this platform. */
  ghost predicate Claims(ctx: PlanContext, id: UpdateIdentity, comment: string, s: ReleaseIdentity) {
    Wire(comment, s) && s.appId == ctx.appId && s.version == id.version && s.platform == ctx.platform
  }

  /** The advisory reading, before anything is fetched or verified. */
  lemma AdvisedExactly(scheme: Scheme, id: UpdateIdentity, ctx: PlanContext, s: ReleaseIdentity)
    ensures var block := scheme.decodeSignature(id.signature);
            && (Advised(scheme, id, ctx) == Some(Legacy) <==> block.Some? && !("delta-v" <= block.value.trustedComment))
            && (Advised(scheme, id, ctx) == Some(Authenticated(s)) <==> block.Some? && Claims(ctx, id, block.value.trustedComment, s))
  {
    var block := scheme.decodeSignature(id.signature);
    if block.Some? {
      OutsideExactly(block.value.trustedComment, "");
      WireExactly(block.value.trustedComment, s);
    }
  }

  /**
   * What the plan is screened to, by what the document says, the precedence of
   * the two versions, and the claim in the signature. Of these the document
   * comes first, then the versions.
   */
  lemma ScreenedExactly(host: Host, id: UpdateIdentity, ctx: PlanContext, entry: DeltaPlatform, s: ReleaseIdentity)
    requires Resolved(host, id).Ok?
    ensures var said, advised, screening := Resolved(host, id).value, Advised(host.scheme, id, ctx), Screen(host, id, ctx);
            match (ParseVersion(id.currentVersion), ParseVersion(id.version))
            case (None, _) => screening == Settled(RefusedSource(UncomparableVersion(Installed, id.currentVersion)))
            case (_, None) => screening == Settled(RefusedSource(UncomparableVersion(Target, id.version)))
            case (Some(installed), Some(target)) =>
              var rise := host.precedence(target) - host.precedence(installed);
              && (screening == Settled(AlreadyInstalled) <==> rise == 0.0)
              && (screening == Settled(RefusedSource(Downgrade(id.currentVersion, id.version))) <==> rise < 0.0)
              && (screening == Settled(RefusedSource(ReleaseIdentityRefused)) <==> rise > 0.0 && advised.None?)
              && (screening == Settled(Full(id.downloadUrl, id.signature, Attempted(false, false))) <==>
                    rise > 0.0 && advised.Some?
                    && (advised.value.Legacy? || said.None? || said.value.targetInstallerSize > ctx.limits.maxTargetBytes))
              && (screening == Eligible(entry, s) <==>
                    rise > 0.0 && advised == Some(Authenticated(s))
                    && said == Some(entry) && entry.targetInstallerSize <= ctx.limits.maxTargetBytes)
  {
  }

  /** What a refusing document or the two versions settle by themselves. */
  ghost predicate Ruled(host: Host, id: UpdateIdentity, source: UpdateSource) {
    match Resolved(host, id)
    case Err(reason) => source == RefusedSource(reason)
    case Ok(_) =>
      match (ParseVersion(id.currentVersion), ParseVersion(id.version))
      case (None, _) => source == RefusedSource(UncomparableVersion(Installed, id.currentVersion))
      case (_, None) => source == RefusedSource(UncomparableVersion(Target, id.version))
      case (Some(installed), Some(target)) =>
        && (source == AlreadyInstalled <==> host.precedence(target) == host.precedence(installed))
        && (source == RefusedSource(Downgrade(id.currentVersion, id.version))
            <==> host.precedence(target) < host.precedence(installed))
  }

  lemma RefusedByDocument(host: Host, id: UpdateIdentity, ctx: PlanContext)
    requires Resolved(host, id).Err?
    ensures Screen(host, id, ctx) == Settled(RefusedSource(Resolved(host, id).error))
  {
  }

  lemma ScreenRules(host: Host, id: UpdateIdentity, ctx: PlanContext)
    ensures match Screen(host, id, ctx)
            case Settled(source) => Ruled(host, id, source)
            case Eligible(_, _) => Resolved(host, id).Ok? && Newer(host.precedence, id.currentVersion, id.version)
  {
    if Resolved(host, id).Err? {
      RefusedByDocument(host, id, ctx);
    }
  }
}
