/**
 * From the release generator to a client's installer: what was published in
 * one place is what a client in another can use.
 */
module EndToEnd {
  import opened Prelude
  import opened ArtifactCaches
  import opened CacheTypes
  import opened Client
  import opened Flow
  import opened Hash
  import opened Hosts
  import opened Manifests
  import opened Planning
  import opened ReleaseIdentities
  import opened Releases
  import opened Signatures
  import opened TarLayout
  import opened UpdateIdentities
  import opened Zstd

  /** What the release machine left behind: its request, the document and the files, with nothing inherited. */
  datatype Publication = Publication(
    tools: Tools, files: map<string, Bytes>, req: Request, signedAt: nat,
    manifest: Manifest, proven: bool, summaries: seq<PatchSummary>)
  {
    ghost predicate Made() {
      && Released(tools, files, req, None, signedAt, manifest, proven, summaries)
      && WindowObeyed(tools.codec) && Unrivalled(tools.scheme.hash, files[req.newInstaller])
    }

    ghost function New(): Bytes
      requires Made()
    {
      files[req.newInstaller]
    }

    ghost function Entry(): DeltaPlatform
      requires Made()
    {
      manifest.delta.value.platforms[req.platform]
    }

    ghost function Identity(): ReleaseIdentity
      requires Made()
    {
      IdentityOf(tools, req, New(), signedAt)
    }
  }

  /** A client of that release, that Tauri pointed at the document `m` published for it. */
  ghost predicate Reads(pub: Publication, m: Manifest, host: Host, id: UpdateIdentity, ctx: PlanContext)
    requires pub.Made()
  {
    && host.scheme == pub.tools.scheme && host.codec == pub.tools.codec && host.gzip == pub.tools.gzip && host.reliable
    && host.parseJson(id.rawJson) == Some(m) && id.version == pub.req.version
    && id.downloadUrl == pub.req.installerUrl && id.signature == pub.manifest.platforms[pub.req.platform].signature
    && Newer(host.precedence, id.currentVersion, id.version)
    && KeyPair(pub.tools, ctx.pubkey) && ctx.appId == pub.req.appId && ctx.platform == pub.req.platform
    && |pub.New()| <= ctx.limits.maxTargetBytes
  }

  /** Such a client of the document as generated, on predecessor `i`. */
  ghost predicate Follows(pub: Publication, i: nat, host: Host, id: UpdateIdentity, ctx: PlanContext)
    requires pub.Made()
  {
    && Reads(pub, pub.manifest, host, id, ctx)
    && i < |pub.req.predecessors| && id.currentVersion == pub.req.predecessors[i].fromVersion
  }

  lemma PublishedDocument(pub: Publication)
    requires pub.Made()
    ensures var m, platform := pub.manifest, pub.req.platform;
            && Valid(m) && m.version == pub.req.version && m.delta.Some? && platform in m.delta.value.platforms
            && m.platforms == map[platform := TauriPlatform(pub.req.installerUrl, m.platforms[platform].signature)]
    ensures pub.Entry().targetInstallerBlake3 == ToHex(pub.tools.scheme.hash(pub.New()))
    ensures pub.Entry().targetInstallerSize == |pub.New()|
  {
  }

  /** It finds the published entry, in that document or in one that differs only in its delta layer. */
  lemma ReaderResolves(pub: Publication, m: Manifest, host: Host, id: UpdateIdentity, ctx: PlanContext)
    requires pub.Made() && Reads(pub, m, host, id, ctx)
    requires Valid(m) && m.version == pub.manifest.version && m.platforms == pub.manifest.platforms
    requires m.delta.Some? && pub.req.platform in m.delta.value.platforms
    ensures FromJson(host, id.rawJson) == Some(m)
    ensures ResolveIdentity(m, id) == Ok(Some(m.delta.value.platforms[pub.req.platform]))
  {
    PublishedDocument(pub);
    SoleResolves(m, id, pub.req.platform);
  }

  lemma SoleResolves(m: Manifest, id: UpdateIdentity, platform: string)
    requires Valid(m) && m.version == id.version && m.platforms == map[platform := TauriPlatform(id.downloadUrl, id.signature)]
    requires m.delta.Some? && platform in m.delta.value.platforms
    ensures ResolveIdentity(m, id) == Ok(Some(m.delta.value.platforms[platform]))
  {
    assert Selected(m, id) == {platform};
    ResolvesSole(m, id, platform);
  }

  /** It reads the identity bound into the signature, and would accept exactly the published installer. */
  lemma ReaderAdvised(pub: Publication, m: Manifest, host: Host, id: UpdateIdentity, ctx: PlanContext)
    requires pub.Made() && Reads(pub, m, host, id, ctx)
    ensures Advised(host.scheme, id, ctx) == Some(Authenticated(pub.Identity()))
    ensures Acceptable(host.scheme, ctx, id, pub.New())
  {
    SignedVerifies(pub.tools, pub.req, pub.New(), pub.signedAt, ctx.pubkey);
    VerifiedIsAdvised(host.scheme, pub.New(), id.signature, ctx.pubkey);
  }

  lemma ScreenedEligible(host: Host, id: UpdateIdentity, ctx: PlanContext, m: Manifest, entry: DeltaPlatform, signed: ReleaseIdentity)
    requires FromJson(host, id.rawJson) == Some(m) && ResolveIdentity(m, id) == Ok(Some(entry))
    requires Newer(host.precedence, id.currentVersion, id.version)
    requires Advised(host.scheme, id, ctx) == Some(Authenticated(signed))
    requires entry.targetInstallerSize <= ctx.limits.maxTargetBytes
    ensures Screen(host, id, ctx) == Eligible(entry, signed)
  {
  }

  lemma FollowerIsEligible(pub: Publication, i: nat, host: Host, id: UpdateIdentity, ctx: PlanContext)
    requires pub.Made() && Follows(pub, i, host, id, ctx)
    ensures Screen(host, id, ctx) == Eligible(pub.Entry(), pub.Identity())
    ensures Acceptable(host.scheme, ctx, id, pub.New())
  {
    PublishedDocument(pub);
    ReaderResolves(pub, pub.manifest, host, id, ctx);
    ReaderAdvised(pub, pub.manifest, host, id, ctx);
    ScreenedEligible(host, id, ctx, pub.manifest, pub.Entry(), pub.Identity());
  }

  /** A published tar layer claims the representation the signature states. */
  lemma LayerMatches(pub: Publication)
    requires pub.Made() && pub.Entry().tarLayer.Some?
    ensures pub.Entry().tarLayer.value.representation == pub.Identity().representation
  {
    assert LayerSound(pub.tools, pub.files, pub.req, pub.New(), None, pub.Entry().tarLayer, pub.proven, pub.summaries);
  }

  /** A patch proven at release time rebuilds exactly the new installer for a client that knows its size. */
  lemma ProvenRebuilds(tools: Tools, old_: Bytes, new_: Bytes)
    requires WindowObeyed(tools.codec) && Unrivalled(tools.scheme.hash, new_)
    requires Reconstructs(tools, old_, Diff(tools.codec, old_, new_), None, new_)
    ensures Rebuilt(tools.codec, old_, Diff(tools.codec, old_, new_), Some(|new_|)) == Some(new_)
  {
    ProofCarriesOver(tools.codec, old_, new_);
  }

  /** The published files of predecessor `i`'s direct patch, served, over a cache whose ACTIVE is its installer as staging records it. */
  ghost predicate DirectSituation(pub: Publication, i: nat, host: Host, ctx: PlanContext, cache: ArtifactCache, e: CacheEntry)
    requires pub.Made() && i < |pub.req.predecessors|
    reads cache.store, cache.blobs
  {
    var pred := pub.req.predecessors[i];
    && pred.installer in pub.files && pred.patchOut in pub.files
    && var old_ := pub.files[pred.installer];
    && !LooksLikeAppTarGz(pub.req.newInstaller, pub.New())
    && cache.representation == Representation.Opaque && ctx.base.None?
    && cache.Holds(e, old_, ctx.pubkey)
    && Records(pub.tools.scheme, cache.gunzip, Representation.Opaque, e, e.version, old_, e.signature)
    && forall t :: host.server(t, pred.patchUrl) == Some(pub.files[pred.patchOut])
  }

  ghost function DirectProspect(files: map<string, Bytes>, pred: Predecessor, new_: Bytes, e: CacheEntry): Prospect
    requires pred.installer in files && pred.patchOut in files
  {
    Prospect(e, files[pred.installer], files[pred.installer], files[pred.patchOut], [], new_)
  }

  /** A direct patch a release proved serves a client whose base is the one it was made from. */
  lemma ProvenDirectServes(tools: Tools, files: map<string, Bytes>, pred: Predecessor, new_: Bytes, patch: Patch,
                           host: Host, cache: ArtifactCache?, ctx: PlanContext, entry: DeltaPlatform, signed: ReleaseIdentity, e: CacheEntry)
    requires DirectProven(tools, files, pred, new_, patch) && WindowObeyed(tools.codec) && Unrivalled(tools.scheme.hash, new_)
    requires host.scheme == tools.scheme && host.codec == tools.codec && host.reliable
    requires entry.targetInstallerBlake3 == ToHex(tools.scheme.hash(new_)) && entry.targetInstallerSize == |new_|
    requires DirectBaseHeld(host, cache, ctx, patch, signed, e, files[pred.installer])
    requires forall t :: host.server(t, pred.patchUrl) == Some(files[pred.patchOut])
    ensures DirectServes(host, cache, ctx, entry, patch, signed, DirectProspect(files, pred, new_, e))
  {
    ProvenRebuilds(tools, files[pred.installer], new_);
    HexRoundTrip(host.scheme.hash(files[pred.patchOut]));
    HexRoundTrip(host.scheme.hash(new_));
  }

  lemma DirectCompletes(pub: Publication, i: nat, host: Host, id: UpdateIdentity, ctx: PlanContext, cache: ArtifactCache, e: CacheEntry)
    requires pub.Made() && Follows(pub, i, host, id, ctx) && DirectSituation(pub, i, host, ctx, cache, e)
    ensures var pred := pub.req.predecessors[i];
            DirectReady(host, id, ctx, cache, DirectProspect(pub.files, pred, pub.New(), e))
    ensures TarOfferOf(host, id, ctx, cache).None?
  {
    var pred := pub.req.predecessors[i];
    OpaqueHasNoLayer(pub);
    CachedIsHeld(pub, i, host, ctx, cache, e);
    PatchCompletes(pub, i, host, id, ctx, cache, e);
    FollowerIsEligible(pub, i, host, id, ctx);
  }

  lemma CachedIsHeld(pub: Publication, i: nat, host: Host, ctx: PlanContext, cache: ArtifactCache, e: CacheEntry)
    requires pub.Made() && i < |pub.req.predecessors| && host.reliable && DirectSituation(pub, i, host, ctx, cache, e)
    ensures PatchServed(pub, i, host, ctx, cache, e)
  {
    ReleasedPatch(pub, i);
  }

  /** Over any base the client holds, the published patch from its version makes the direct path ready. */
  lemma PatchCompletes(pub: Publication, i: nat, host: Host, id: UpdateIdentity, ctx: PlanContext, cache: ArtifactCache?, e: CacheEntry)
    requires pub.Made() && Follows(pub, i, host, id, ctx)
    requires PatchServed(pub, i, host, ctx, cache, e)
    ensures DirectReady(host, id, ctx, cache, DirectProspect(pub.files, pub.req.predecessors[i], pub.New(), e))
  {
    FollowerIsEligible(pub, i, host, id, ctx);
    PatchServes(pub, i, host, ctx, cache, e);
    if pub.Entry().tarLayer.Some? {
      LayerMatches(pub);
    }
    DirectReadyFrom(host, id, ctx, cache, pub.Entry(), pub.Identity(),
                    DirectProspect(pub.files, pub.req.predecessors[i], pub.New(), e));
  }

  /** Predecessor `i`'s patch file is served, and its installer is held as a base. */
  ghost predicate PatchServed(pub: Publication, i: nat, host: Host, ctx: PlanContext, cache: ArtifactCache?, e: CacheEntry)
    requires pub.Made() && i < |pub.req.predecessors|
    reads CacheFrame(cache)
  {
    var pred := pub.req.predecessors[i];
    && pred.fromVersion in pub.Entry().patches && pred.installer in pub.files && pred.patchOut in pub.files
    && DirectBaseHeld(host, cache, ctx, pub.Entry().patches[pred.fromVersion], pub.Identity(), e, pub.files[pred.installer])
    && forall t :: host.server(t, pred.patchUrl) == Some(pub.files[pred.patchOut])
  }

  /** An opaque release, its patch file served, and predecessor `i`'s installer kept on disk since installation. */
  ghost predicate SeededSituation(pub: Publication, i: nat, host: Host, ctx: PlanContext)
    requires pub.Made() && i < |pub.req.predecessors|
  {
    var pred := pub.req.predecessors[i];
    && pred.installer in pub.files && pred.patchOut in pub.files && ctx.base.None? && ctx.seeded.Some?
    && !LooksLikeAppTarGz(pub.req.newInstaller, pub.New())
    && Unrivalled(pub.tools.scheme.hash, pub.files[pred.installer])
    && (forall t :: host.disk(t, ctx.seeded.value) == Some(pub.files[pred.installer]))
    && forall t :: host.server(t, pred.patchUrl) == Some(pub.files[pred.patchOut])
  }

  lemma SeedIsServed(pub: Publication, i: nat, host: Host, ctx: PlanContext, cache: ArtifactCache?, e: CacheEntry)
    requires pub.Made() && i < |pub.req.predecessors| && SeededSituation(pub, i, host, ctx)
    requires host.scheme == pub.tools.scheme && host.reliable
    requires cache != null ==> cache.representation == Representation.Opaque
    ensures PatchServed(pub, i, host, ctx, cache, e)
  {
    var pred := pub.req.predecessors[i];
    ReleasedPatch(pub, i);
    SeedHeld(pub.tools, pub.files, pred, pub.New(), pub.Entry().patches[pred.fromVersion], host, cache, ctx, pub.Identity(), e);
  }

  /** The installer a patch was made from is the base it declares, kept on disk as well as anywhere. */
  lemma SeedHeld(tools: Tools, files: map<string, Bytes>, pred: Predecessor, new_: Bytes, patch: Patch,
                 host: Host, cache: ArtifactCache?, ctx: PlanContext, signed: ReleaseIdentity, e: CacheEntry)
    requires DirectProven(tools, files, pred, new_, patch) && host.scheme == tools.scheme && host.reliable
    requires signed.representation == REPRESENTATION_OPAQUE_V1 && (cache != null ==> cache.representation == Representation.Opaque)
    requires ctx.base.None? && ctx.seeded.Some? && (forall t :: host.disk(t, ctx.seeded.value) == Some(files[pred.installer]))
    requires Unrivalled(tools.scheme.hash, files[pred.installer])
    ensures DirectBaseHeld(host, cache, ctx, patch, signed, e, files[pred.installer])
  {
  }

  lemma PatchServes(pub: Publication, i: nat, host: Host, ctx: PlanContext, cache: ArtifactCache?, e: CacheEntry)
    requires pub.Made() && i < |pub.req.predecessors| && PatchServed(pub, i, host, ctx, cache, e)
    requires host.scheme == pub.tools.scheme && host.codec == pub.tools.codec && host.reliable
    ensures var pred := pub.req.predecessors[i];
            DirectServes(host, cache, ctx, pub.Entry(), pub.Entry().patches[pred.fromVersion], pub.Identity(),
                         DirectProspect(pub.files, pred, pub.New(), e))
  {
    var pred := pub.req.predecessors[i];
    ReleasedPatch(pub, i);
    ProvenDirectServes(pub.tools, pub.files, pred, pub.New(), pub.Entry().patches[pred.fromVersion],
                       host, cache, ctx, pub.Entry(), pub.Identity(), e);
  }

  lemma DirectReadyFrom(host: Host, id: UpdateIdentity, ctx: PlanContext, cache: ArtifactCache?, entry: DeltaPlatform,
                        signed: ReleaseIdentity, w: Prospect)
    requires Screen(host, id, ctx) == Eligible(entry, signed) && id.currentVersion in entry.patches
    requires entry.tarLayer.Some? ==> entry.tarLayer.value.representation == signed.representation
    requires DirectServes(host, cache, ctx, entry, entry.patches[id.currentVersion], signed, w)
    ensures DirectReady(host, id, ctx, cache, w)
  {
  }

  lemma ReleasedPatch(pub: Publication, i: nat)
    requires pub.Made() && i < |pub.req.predecessors|
    ensures var pred, entry := pub.req.predecessors[i], pub.Entry();
            && pred.fromVersion in entry.patches
            && DirectProven(pub.tools, pub.files, pred, pub.New(), entry.patches[pred.fromVersion])
            && entry.targetInstallerBlake3 == ToHex(pub.tools.scheme.hash(pub.New())) && entry.targetInstallerSize == |pub.New()|
  {
  }

  /** An installer that is not an `.app.tar.gz` never gets a tar layer. */
  lemma OpaqueHasNoLayer(pub: Publication)
    requires pub.Made() && !LooksLikeAppTarGz(pub.req.newInstaller, pub.New())
    ensures pub.Entry().tarLayer.None?
  {
    assert LayerSound(pub.tools, pub.files, pub.req, pub.New(), None, pub.Entry().tarLayer, pub.proven, pub.summaries);
  }

  /** The published files of predecessor `i`'s tar patch, served, over a cache whose ACTIVE is its installer as staging records it. */
  ghost predicate TarSituation(pub: Publication, i: nat, host: Host, ctx: PlanContext, cache: ArtifactCache, e: CacheEntry)
    requires pub.Made() && i < |pub.req.predecessors|
    reads cache.store, cache.blobs
  {
    var pred := pub.req.predecessors[i];
    && i < |pub.summaries| && TarProduced(pub.summaries[i]) && pred.tarLayer.Some?
    && pred.installer in pub.files && pred.tarLayer.value.patchOut in pub.files
    && var old_ := pub.files[pred.installer];
    && cache.gunzip == pub.tools.gunzip && cache.gunzip(old_).Some? && cache.gunzip(pub.New()).Some?
    && var baseTar := cache.gunzip(old_).value;
    && cache.Holds(e, old_, ctx.pubkey) && cache.blobs.scheme == host.scheme
    && Unrivalled(pub.tools.scheme.hash, cache.gunzip(pub.New()).value)
    && Records(pub.tools.scheme, cache.gunzip, AppTarGz, e, e.version, old_, e.signature)
    && |baseTar| <= ctx.limits.maxTarBytes && |baseTar| <= cache.limits.maxTarBytes
    && |cache.gunzip(pub.New()).value| <= ctx.limits.maxTarBytes
    && forall t :: host.server(t, pred.tarLayer.value.patchUrl) == Some(pub.files[pred.tarLayer.value.patchOut])
  }

  lemma RecompressedWithin(gzip: seq<Bytes> -> Bytes, tar: Bytes, limit: nat, other: nat)
    requires Recompressed(gzip, tar, limit).Some? && |tar| <= other
    ensures Recompressed(gzip, tar, other) == Recompressed(gzip, tar, limit)
  {
  }

  /** The release-time round trip, read with an injective digest and under any ceiling the tar fits. */
  lemma RoundTripGives(tools: Tools, baseTar: Bytes, delta: Bytes, targetTar: Bytes, new_: Bytes, limit: nat)
    requires Unrivalled(tools.scheme.hash, targetTar) && Unrivalled(tools.scheme.hash, new_)
    requires RoundTripped(tools, baseTar, delta, targetTar, new_) && |targetTar| <= limit
    ensures Rebuilt(tools.codec, baseTar, delta, Some(|targetTar|)) == Some(targetTar)
    ensures Recompressed(tools.gzip, targetTar, limit) == Some(new_)
  {
    RecompressedWithin(tools.gzip, targetTar, RELEASE_MAX_TAR_BYTES, limit);
  }

  ghost function TarProspect(tools: Tools, files: map<string, Bytes>, pred: Predecessor, new_: Bytes, e: CacheEntry): Prospect
    requires pred.tarLayer.Some? && pred.installer in files && pred.tarLayer.value.patchOut in files
    requires tools.gunzip(files[pred.installer]).Some? && tools.gunzip(new_).Some?
  {
    Prospect(e, files[pred.installer], tools.gunzip(files[pred.installer]).value, files[pred.tarLayer.value.patchOut],
             tools.gunzip(new_).value, new_)
  }

  /** A tar patch a release proved serves a client that has the tar it was made from. */
  lemma ProvenTarServes(tools: Tools, files: map<string, Bytes>, pred: Predecessor, new_: Bytes, layer: TarLayer, patch: TarPatch,
                        host: Host, cache: ArtifactCache?, ctx: PlanContext, entry: DeltaPlatform, e: CacheEntry)
    requires TarProven(tools, files, pred, new_, patch) && NamesTar(tools, new_, layer)
    requires Unrivalled(tools.scheme.hash, new_) && Unrivalled(tools.scheme.hash, tools.gunzip(new_).value)
    requires host.scheme == tools.scheme && host.codec == tools.codec && host.gzip == tools.gzip && host.reliable
    requires entry.targetInstallerBlake3 == ToHex(tools.scheme.hash(new_)) && entry.targetInstallerSize == |new_|
    requires var old_ := files[pred.installer];
             var baseTar := tools.gunzip(old_).value;
             TarBaseReady(host, cache, ctx, patch, e, old_, baseTar) && |baseTar| <= ctx.limits.maxTarBytes
    requires |tools.gunzip(new_).value| <= ctx.limits.maxTarBytes
    requires forall t :: host.server(t, pred.tarLayer.value.patchUrl) == Some(files[pred.tarLayer.value.patchOut])
    ensures TarServes(host, cache, ctx, entry, layer, patch, TarProspect(tools, files, pred, new_, e))
  {
    var baseTar, targetTar := tools.gunzip(files[pred.installer]).value, tools.gunzip(new_).value;
    RoundTripGives(tools, baseTar, files[pred.tarLayer.value.patchOut], targetTar, new_, ctx.limits.maxTarBytes);
    HexRoundTrip(host.scheme.hash(files[pred.tarLayer.value.patchOut]));
    HexRoundTrip(host.scheme.hash(new_));
    HexRoundTrip(host.scheme.hash(targetTar));
  }

  /** Staged as it was published, the predecessor's installer is the base the tar patch was made from. */
  lemma CachedTarReady(tools: Tools, files: map<string, Bytes>, pred: Predecessor, new_: Bytes, patch: TarPatch,
                       host: Host, cache: ArtifactCache, ctx: PlanContext, e: CacheEntry)
    requires TarProven(tools, files, pred, new_, patch) && host.scheme == tools.scheme && host.reliable
    requires cache.gunzip == tools.gunzip && cache.blobs.scheme == host.scheme
    requires var old_ := files[pred.installer];
             var baseTar := tools.gunzip(old_).value;
             && cache.Holds(e, old_, ctx.pubkey) && Records(tools.scheme, cache.gunzip, AppTarGz, e, e.version, old_, e.signature)
             && |baseTar| <= cache.limits.maxTarBytes
    ensures TarBaseReady(host, cache, ctx, patch, e, files[pred.installer], tools.gunzip(files[pred.installer]).value)
  {
    HexRoundTrip(host.scheme.hash(tools.gunzip(files[pred.installer]).value));
  }

  lemma ReleasedTarPatch(pub: Publication, i: nat)
    requires pub.Made() && i < |pub.req.predecessors| && i < |pub.summaries| && TarProduced(pub.summaries[i])
    ensures pub.Entry().tarLayer.Some?
    ensures var pred, layer := pub.req.predecessors[i], pub.Entry().tarLayer.value;
            && pred.fromVersion in layer.patches && NamesTar(pub.tools, pub.New(), layer)
            && TarProven(pub.tools, pub.files, pred, pub.New(), layer.patches[pred.fromVersion])
            && layer.representation == pub.Identity().representation
  {
    var layer := pub.Entry().tarLayer;
    assert LayerSound(pub.tools, pub.files, pub.req, pub.New(), None, layer, pub.proven, pub.summaries);
    assert TarPublished(pub.tools, pub.files, pub.req.predecessors[i], pub.New(), layer.value, pub.summaries[i]);
  }

  lemma TarReadyFrom(host: Host, id: UpdateIdentity, ctx: PlanContext, cache: ArtifactCache?, entry: DeltaPlatform,
                     signed: ReleaseIdentity, layer: TarLayer, w: Prospect)
    requires Screen(host, id, ctx) == Eligible(entry, signed) && (cache != null || ctx.installedApp)
    requires entry.tarLayer == Some(layer) && layer.Support().Supported? && id.currentVersion in layer.patches
    requires layer.representation == signed.representation
    requires TarServes(host, cache, ctx, entry, layer, layer.patches[id.currentVersion], w)
    ensures TarReady(host, id, ctx, cache, w)
  {
  }

  /** Predecessor `i` has a tar patch, its file is served, and the tar it was made from can be had; both tars fit. */
  ghost predicate TarServed(pub: Publication, i: nat, host: Host, ctx: PlanContext, cache: ArtifactCache?, e: CacheEntry)
    requires pub.Made() && i < |pub.req.predecessors|
    reads CacheFrame(cache)
  {
    var pred := pub.req.predecessors[i];
    && i < |pub.summaries| && TarProduced(pub.summaries[i]) && pred.tarLayer.Some?
    && pred.installer in pub.files && pred.tarLayer.value.patchOut in pub.files
    && pub.Entry().tarLayer.Some? && pred.fromVersion in pub.Entry().tarLayer.value.patches
    && var old_, gunzip := pub.files[pred.installer], pub.tools.gunzip;
    && gunzip(old_).Some? && gunzip(pub.New()).Some?
    && Unrivalled(pub.tools.scheme.hash, gunzip(pub.New()).value)
    && TarBaseReady(host, cache, ctx, pub.Entry().tarLayer.value.patches[pred.fromVersion], e, old_, gunzip(old_).value)
    && |gunzip(old_).value| <= ctx.limits.maxTarBytes && |gunzip(pub.New()).value| <= ctx.limits.maxTarBytes
    && forall t :: host.server(t, pred.tarLayer.value.patchUrl) == Some(pub.files[pred.tarLayer.value.patchOut])
  }

  lemma CachedTarIsServed(pub: Publication, i: nat, host: Host, ctx: PlanContext, cache: ArtifactCache, e: CacheEntry)
    requires pub.Made() && i < |pub.req.predecessors| && host.scheme == pub.tools.scheme && host.reliable
    requires TarSituation(pub, i, host, ctx, cache, e)
    ensures TarServed(pub, i, host, ctx, cache, e)
  {
    var pred := pub.req.predecessors[i];
    ReleasedTarPatch(pub, i);
    CachedTarReady(pub.tools, pub.files, pred, pub.New(), pub.Entry().tarLayer.value.patches[pred.fromVersion], host, cache, ctx, e);
  }

  lemma TarServedServes(pub: Publication, i: nat, host: Host, ctx: PlanContext, cache: ArtifactCache?, e: CacheEntry)
    requires pub.Made() && i < |pub.req.predecessors| && TarServed(pub, i, host, ctx, cache, e)
    requires host.scheme == pub.tools.scheme && host.codec == pub.tools.codec && host.gzip == pub.tools.gzip && host.reliable
    ensures var pred, layer := pub.req.predecessors[i], pub.Entry().tarLayer.value;
            TarServes(host, cache, ctx, pub.Entry(), layer, layer.patches[pred.fromVersion],
                      TarProspect(pub.tools, pub.files, pred, pub.New(), e))
  {
    var pred := pub.req.predecessors[i];
    ReleasedPatch(pub, i);
    ReleasedTarPatch(pub, i);
    var layer := pub.Entry().tarLayer.value;
    ProvenTarServes(pub.tools, pub.files, pred, pub.New(), layer, layer.patches[pred.fromVersion],
                    host, cache, ctx, pub.Entry(), e);
  }

  /** Wherever the base tar comes from, the published tar patch makes the tar path ready. */
  lemma TarPatchCompletes(pub: Publication, i: nat, host: Host, id: UpdateIdentity, ctx: PlanContext, cache: ArtifactCache?, e: CacheEntry)
    requires pub.Made() && Follows(pub, i, host, id, ctx) && TarServed(pub, i, host, ctx, cache, e)
    requires cache != null || ctx.installedApp
    ensures TarReady(host, id, ctx, cache, TarProspect(pub.tools, pub.files, pub.req.predecessors[i], pub.New(), e))
  {
    FollowerIsEligible(pub, i, host, id, ctx);
    ReleasedTarPatch(pub, i);
    TarServedServes(pub, i, host, ctx, cache, e);
    TarReadyFrom(host, id, ctx, cache, pub.Entry(), pub.Identity(), pub.Entry().tarLayer.value,
                 TarProspect(pub.tools, pub.files, pub.req.predecessors[i], pub.New(), e));
  }

  lemma TarCompletes(pub: Publication, i: nat, host: Host, id: UpdateIdentity, ctx: PlanContext, cache: ArtifactCache, e: CacheEntry)
    requires pub.Made() && Follows(pub, i, host, id, ctx) && TarSituation(pub, i, host, ctx, cache, e)
    ensures var pred := pub.req.predecessors[i];
            TarReady(host, id, ctx, cache, TarProspect(pub.tools, pub.files, pred, pub.New(), e))
  {
    CachedTarIsServed(pub, i, host, ctx, cache, e);
    TarPatchCompletes(pub, i, host, id, ctx, cache, e);
  }

  /** The installed bundle archives to the tar inside predecessor `i`'s installer, which the recipe reproduces from it. */
  ghost predicate BundleSituation(pub: Publication, i: nat, host: Host, ctx: PlanContext)
    requires pub.Made() && i < |pub.req.predecessors|
  {
    var pred := pub.req.predecessors[i];
    && i < |pub.summaries| && TarProduced(pub.summaries[i]) && pred.tarLayer.Some?
    && pred.installer in pub.files && pred.tarLayer.value.patchOut in pub.files && ctx.installedApp
    && var old_, gunzip := pub.files[pred.installer], pub.tools.gunzip;
    && gunzip(old_).Some? && gunzip(pub.New()).Some?
    && var baseTar, targetTar := gunzip(old_).value, gunzip(pub.New()).value;
    && (forall t :: host.archive(t).Some? && Flatten(host.archive(t).value) == baseTar)
    && Recompressed(host.gzip, baseTar, ctx.limits.maxTarBytes) == Some(old_)
    && Unrivalled(pub.tools.scheme.hash, baseTar) && Unrivalled(pub.tools.scheme.hash, targetTar)
    && |baseTar| <= ctx.limits.maxTarBytes && |targetTar| <= ctx.limits.maxTarBytes
    && forall t :: host.server(t, pred.tarLayer.value.patchUrl) == Some(pub.files[pred.tarLayer.value.patchOut])
  }

  lemma BundleTarIsServed(pub: Publication, i: nat, host: Host, ctx: PlanContext, cache: ArtifactCache?, e: CacheEntry)
    requires pub.Made() && i < |pub.req.predecessors| && host.scheme == pub.tools.scheme && host.reliable
    requires BundleSituation(pub, i, host, ctx)
    ensures TarServed(pub, i, host, ctx, cache, e)
  {
    var pred := pub.req.predecessors[i];
    ReleasedTarPatch(pub, i);
    BundleTarReady(pub.tools, pub.files, pred, pub.New(), pub.Entry().tarLayer.value.patches[pred.fromVersion], host, cache, ctx, e);
  }

  /** A bundle that archives to the base tar, and recompresses to the installer, is the base the tar patch was made from. */
  lemma BundleTarReady(tools: Tools, files: map<string, Bytes>, pred: Predecessor, new_: Bytes, patch: TarPatch,
                       host: Host, cache: ArtifactCache?, ctx: PlanContext, e: CacheEntry)
    requires TarProven(tools, files, pred, new_, patch) && host.scheme == tools.scheme && host.reliable && ctx.installedApp
    requires var old_ := files[pred.installer];
             var baseTar := tools.gunzip(old_).value;
             && (forall t :: host.archive(t).Some? && Flatten(host.archive(t).value) == baseTar)
             && Recompressed(host.gzip, baseTar, ctx.limits.maxTarBytes) == Some(old_) && Unrivalled(tools.scheme.hash, baseTar)
    ensures TarBaseReady(host, cache, ctx, patch, e, files[pred.installer], tools.gunzip(files[pred.installer]).value)
  {
  }

  /** A compressed copy a release proved decodes, within the declared size, to exactly the installer. */
  lemma PublishedCopyDecodes(tools: Tools, files: map<string, Bytes>, installer: string, out: string, url: string, full: CompressedFull)
    requires CopyProven(tools, files, installer, out, url, full)
    requires WindowObeyed(tools.codec) && Unrivalled(tools.scheme.hash, files[installer])
    ensures Rebuilt(tools.codec, [], files[out], Some(|files[installer]|)) == Some(files[installer])
    ensures |files[out]| == full.size && ToHex(tools.scheme.hash(files[out])) == full.blake3
  {
    ProvenRebuilds(tools, [], files[installer]);
  }

  /** The document with the copy at `out` attached, as `url`, and that copy served. */
  ghost predicate CopySituation(pub: Publication, host: Host, out: string, url: string, full: CompressedFull)
    requires pub.Made()
  {
    && pub.manifest.delta.Some? && pub.req.platform in pub.manifest.delta.value.platforms
    && Valid(WithCompressedFull(pub.manifest, pub.req.platform, Some(full)))
    && CopyProven(pub.tools, pub.files, pub.req.newInstaller, out, url, full) && full.size < |pub.New()|
    && forall t :: host.server(t, url) == Some(pub.files[out])
  }

  lemma CopyServesFrom(host: Host, id: UpdateIdentity, ctx: PlanContext, m: Manifest, entry: DeltaPlatform, full: CompressedFull,
                       copied: Bytes, new_: Bytes)
    requires FromJson(host, id.rawJson) == Some(m) && ResolveIdentity(m, id) == Ok(Some(entry))
    requires entry.compressedFull == Some(full) && full.backendId == ZSTD_ID
    requires entry.targetInstallerBlake3 == ToHex(host.scheme.hash(new_)) && entry.targetInstallerSize == |new_|
    requires full.size < |new_| <= ctx.limits.maxTargetBytes && host.reliable
    requires |copied| == full.size && full.blake3 == ToHex(host.scheme.hash(copied))
    requires Rebuilt(host.codec, [], copied, Some(|new_|)) == Some(new_)
    requires forall t :: host.server(t, full.url) == Some(copied)
    ensures CopyServes(host, id, ctx, copied, new_)
  {
    HexRoundTrip(host.scheme.hash(new_));
  }

  lemma ProceedsFrom(host: Host, id: UpdateIdentity, ctx: PlanContext, cache: ArtifactCache?, entry: DeltaPlatform, signed: ReleaseIdentity)
    requires Screen(host, id, ctx) == Eligible(entry, signed)
    requires entry.tarLayer.Some? ==> entry.tarLayer.value.representation == signed.representation
    ensures Proceeds(host, id, ctx, cache)
  {
  }

  /** Attaching the copy changes nothing a reader of the document resolves but the copy. */
  lemma CopyReaderResolves(pub: Publication, host: Host, id: UpdateIdentity, ctx: PlanContext, m: Manifest, entry: DeltaPlatform,
                           out: string, url: string, full: CompressedFull)
    requires pub.Made() && CopySituation(pub, host, out, url, full) && Reads(pub, m, host, id, ctx)
    requires m == WithCompressedFull(pub.manifest, pub.req.platform, Some(full)) && entry == pub.Entry().(compressedFull := Some(full))
    ensures FromJson(host, id.rawJson) == Some(m) && ResolveIdentity(m, id) == Ok(Some(entry))
    ensures entry.targetInstallerBlake3 == ToHex(pub.tools.scheme.hash(pub.New())) && entry.targetInstallerSize == |pub.New()|
  {
    PublishedDocument(pub);
    ReaderResolves(pub, m, host, id, ctx);
  }

  /** With the published copy served, the compressed path has everything it needs, and the plan proceeds. */
  lemma CopyCompletes(pub: Publication, host: Host, id: UpdateIdentity, ctx: PlanContext, cache: ArtifactCache?,
                      m: Manifest, out: string, url: string, full: CompressedFull)
    requires pub.Made() && CopySituation(pub, host, out, url, full) && Reads(pub, m, host, id, ctx)
    requires m == WithCompressedFull(pub.manifest, pub.req.platform, Some(full))
    ensures CopyServes(host, id, ctx, pub.files[out], pub.New()) && Proceeds(host, id, ctx, cache)
    ensures Acceptable(host.scheme, ctx, id, pub.New())
  {
    var entry := pub.Entry().(compressedFull := Some(full));
    CopyReaderResolves(pub, host, id, ctx, m, entry, out, url, full);
    ReaderAdvised(pub, m, host, id, ctx);
    ScreenedEligible(host, id, ctx, m, entry, pub.Identity());
    PublishedCopyDecodes(pub.tools, pub.files, pub.req.newInstaller, out, url, full);
    CopyServesFrom(host, id, ctx, m, entry, full, pub.files[out], pub.New());
    if entry.tarLayer.Some? {
      LayerMatches(pub);
    }
    ProceedsFrom(host, id, ctx, cache, entry, pub.Identity());
  }

  // ---- and so the update arrives -----------------------------------------------------------

  /** An opaque release: the client on a listed predecessor gets the direct delta, byte for byte the new installer. */
  method DirectDeltaArrives(host: Host, id: UpdateIdentity, ctx: PlanContext, cache: ArtifactCache, now: int,
                            ghost pub: Publication, ghost i: nat, ghost e: CacheEntry)
    returns (r: Result<RunReport, FlowError>, ghost installed: Option<Bytes>)
    requires CacheValid(host, cache) && pub.Made() && Follows(pub, i, host, id, ctx) && DirectSituation(pub, i, host, ctx, cache, e)
    requires forall t :: host.installs(t)
    modifies CacheFrame(cache), host`clock, host`trace
    ensures r.Ok? && r.value.outcome.InstalledFromDelta? && installed == Some(pub.New())
  {
    ghost var pred := pub.req.predecessors[i];
    DirectCompletes(pub, i, host, id, ctx, cache, e);
    FollowerIsEligible(pub, i, host, id, ctx);
    ghost var fetches;
    r, fetches, installed := RunUpdate(host, id, ctx, cache, now, DirectProspect(pub.files, pred, pub.New(), e));
  }

  /** An `.app.tar.gz` release with a tar patch published: the client gets the tar delta, byte for byte the new installer. */
  method TarDeltaArrives(host: Host, id: UpdateIdentity, ctx: PlanContext, cache: ArtifactCache, now: int,
                         ghost pub: Publication, ghost i: nat, ghost e: CacheEntry)
    returns (r: Result<RunReport, FlowError>, ghost installed: Option<Bytes>)
    requires CacheValid(host, cache) && pub.Made() && Follows(pub, i, host, id, ctx) && TarSituation(pub, i, host, ctx, cache, e)
    requires forall t :: host.installs(t)
    modifies CacheFrame(cache), host`clock, host`trace
    ensures r.Ok? && r.value.outcome.InstalledFromTarDelta? && installed == Some(pub.New())
  {
    ghost var pred := pub.req.predecessors[i];
    TarCompletes(pub, i, host, id, ctx, cache, e);
    FollowerIsEligible(pub, i, host, id, ctx);
    ghost var fetches;
    r, fetches, installed := RunUpdate(host, id, ctx, cache, now, TarProspect(pub.tools, pub.files, pred, pub.New(), e));
  }

  /**
   * A client whose host supplies the installer it runs: whatever its cache, and
   * whether or not a tar layer was published and tried first, it gets a delta,
   * byte for byte the new installer.
   */
  method HostBaseDeltaArrives(host: Host, id: UpdateIdentity, ctx: PlanContext, cache: ArtifactCache?, now: int,
                              ghost pub: Publication, ghost i: nat)
    returns (r: Result<RunReport, FlowError>, ghost installed: Option<Bytes>)
    requires CacheValid(host, cache) && pub.Made() && Follows(pub, i, host, id, ctx) && ctx.base.Some?
    requires var pred := pub.req.predecessors[i];
             && pred.installer in pub.files && pred.patchOut in pub.files
             && (forall t :: host.disk(t, ctx.base.value) == Some(pub.files[pred.installer]))
             && forall t :: host.server(t, pred.patchUrl) == Some(pub.files[pred.patchOut])
    requires forall t :: host.installs(t)
    modifies CacheFrame(cache), host`clock, host`trace
    ensures r.Ok? && (r.value.outcome.InstalledFromDelta? || r.value.outcome.InstalledFromTarDelta?) && installed == Some(pub.New())
  {
    ghost var e := CacheEntry("", "", 0, None, "");
    ReleasedPatch(pub, i);
    PatchCompletes(pub, i, host, id, ctx, cache, e);
    FollowerIsEligible(pub, i, host, id, ctx);
    ghost var fetches;
    r, fetches, installed := RunUpdate(host, id, ctx, cache, now, DirectProspect(pub.files, pub.req.predecessors[i], pub.New(), e));
  }

  /**
   * A release with a compressed copy: a client of any older version, whatever
   * its cache and bases hold and whatever becomes of the delta paths, gets the
   * new installer byte for byte without the full download.
   */
  method CopyArrives(host: Host, id: UpdateIdentity, ctx: PlanContext, cache: ArtifactCache?, now: int,
                     ghost pub: Publication, ghost out: string, ghost url: string, ghost full: CompressedFull)
    returns (r: Result<RunReport, FlowError>, ghost installed: Option<Bytes>)
    requires CacheValid(host, cache) && pub.Made() && CopySituation(pub, host, out, url, full)
    requires Reads(pub, WithCompressedFull(pub.manifest, pub.req.platform, Some(full)), host, id, ctx)
    requires forall t :: host.installs(t)
    modifies CacheFrame(cache), host`clock, host`trace
    ensures r.Ok? && r.value.outcome != InstalledFromFullDownload && installed == Some(pub.New())
  {
    CopyCompletes(pub, host, id, ctx, cache, WithCompressedFull(pub.manifest, pub.req.platform, Some(full)), out, url, full);
    ghost var fetches;
    r, fetches, installed := RunUpdate(host, id, ctx, cache, now,
      Prospect(CacheEntry("", "", 0, None, ""), [], [], pub.files[out], [], pub.New()));
  }

  /**
   * A first update over the installer kept at installation. The cache may be
   * missing, or be there and hold anything of its own kind.
   */
  method SeededDeltaArrives(host: Host, id: UpdateIdentity, ctx: PlanContext, cache: ArtifactCache?, now: int,
                            ghost pub: Publication, ghost i: nat)
    returns (r: Result<RunReport, FlowError>, ghost installed: Option<Bytes>)
    requires CacheValid(host, cache) && (cache != null ==> cache.representation == Representation.Opaque)
    requires pub.Made() && Follows(pub, i, host, id, ctx) && SeededSituation(pub, i, host, ctx)
    requires forall t :: host.installs(t)
    modifies CacheFrame(cache), host`clock, host`trace
    ensures r.Ok? && r.value.outcome.InstalledFromDelta? && installed == Some(pub.New())
  {
    ghost var e := CacheEntry("", "", 0, None, "");
    OpaqueHasNoLayer(pub);
    SeedIsServed(pub, i, host, ctx, cache, e);
    PatchCompletes(pub, i, host, id, ctx, cache, e);
    FollowerIsEligible(pub, i, host, id, ctx);
    ghost var fetches;
    r, fetches, installed := RunUpdate(host, id, ctx, cache, now, DirectProspect(pub.files, pub.req.predecessors[i], pub.New(), e));
  }

  /**
   * A first update of an `.app.tar.gz` release from the installed bundle alone.
   * The cache may be missing, or be there and hold anything.
   */
  method BundleDeltaArrives(host: Host, id: UpdateIdentity, ctx: PlanContext, cache: ArtifactCache?, now: int,
                            ghost pub: Publication, ghost i: nat)
    returns (r: Result<RunReport, FlowError>, ghost installed: Option<Bytes>)
    requires CacheValid(host, cache)
    requires pub.Made() && Follows(pub, i, host, id, ctx) && BundleSituation(pub, i, host, ctx)
    requires forall t :: host.installs(t)
    modifies CacheFrame(cache), host`clock, host`trace
    ensures r.Ok? && r.value.outcome.InstalledFromTarDelta? && installed == Some(pub.New())
  {
    ghost var e := CacheEntry("", "", 0, None, "");
    BundleTarIsServed(pub, i, host, ctx, cache, e);
    TarPatchCompletes(pub, i, host, id, ctx, cache, e);
    FollowerIsEligible(pub, i, host, id, ctx);
    ghost var fetches;
    r, fetches, installed := RunUpdate(host, id, ctx, cache, now,
      TarProspect(pub.tools, pub.files, pub.req.predecessors[i], pub.New(), e));
  }
}
