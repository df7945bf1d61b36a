/**
 * What a client does to avoid a full download (crates/delta-core/src/client.rs):
 * find a base, fetch a patch, rebuild, check. A path that does not work out
 * returns nothing, and the next one is taken.
 */
module Client {
  import opened Prelude
  import opened ArtifactCaches
  import opened CacheTypes
  import opened Hash
  import opened Hosts
  import opened Manifests
  import opened Planning
  import opened Reconstruction
  import opened ReleaseIdentities
  import opened Signatures
  import opened StateDirectory
  import opened StateStores
  import opened TarLayout
  import opened UpdateIdentities
  import opened Zstd

  /**
   * What a caller has in mind for an update: the cached entry and its bytes, the
   * base to patch, the patch served, the tar it gives, and the installer.
   */
  datatype Prospect = Prospect(entry: CacheEntry, artifact: Bytes, base: Bytes, patch: Bytes, tar: Bytes, result: Bytes)

  function CacheFrame(cache: ArtifactCache?): set<object> {
    if cache == null then {} else {cache.store, cache.blobs}
  }

  ghost predicate CacheValid(host: Host, cache: ArtifactCache?)
    reads CacheFrame(cache)
  {
    cache != null ==> cache.Valid() && cache.blobs.scheme == host.scheme
  }

  /** These bytes have the size and the digest a manifest spells. */
  predicate Matches(host: Host, bytes: Bytes, blake3: string, size: nat) {
    |bytes| == size && FromHex(blake3) == Some(host.scheme.hash(bytes))
  }

  /** Every file but these is as it was. */
  ghost predicate OnlyChanged(now: map<File, Bytes>, was: map<File, Bytes>, changed: set<File>) {
    forall f :: f !in changed ==> (f in now <==> f in was) && (f in now ==> now[f] == was[f])
  }

  // ---- the direct patch ------------------------------------------------------------

  /** What a server must send and a patch must do for a rebuild from `base` to give `bytes`. */
  ghost predicate Rebuilds(host: Host, url: string, backendId: string, blake3: string, base: Bytes, patch: Bytes, bytes: Bytes) {
    && host.reliable && (forall t :: host.server(t, url) == Some(patch))
    && backendId == ZSTD_ID && FromHex(blake3) == Some(host.scheme.hash(patch))
    && Rebuilt(host.codec, base, patch, Some(|bytes|)) == Some(bytes)
  }

  /** Fetch a patch into `file` and check its digest. */
  method FetchPatch(host: Host, ws: Workspace, url: string, blake3: string, file: File,
                    ghost held: Option<Bytes>, ghost patch: Bytes)
    returns (ok: bool)
    requires ws.Valid()
    modifies host`clock, host`trace, ws
    ensures ws.Valid() && host.trace == old(host.trace) + [Fetched(url, held)]
    ensures OnlyChanged(ws.files, old(ws.files), {file})
    ensures ok ==> file in ws.files && FromHex(blake3) == Some(host.scheme.hash(ws.files[file]))
    ensures
      ws.reliable && (forall t :: host.server(t, url) == Some(patch)) && FromHex(blake3) == Some(host.scheme.hash(patch))
      ==> ok && ws.files[file] == patch
  {
    var fetched := host.Fetch(url, ws, file, held);
    if !fetched {
      return false;
    }
    var expected := FromHex(blake3);
    if expected.None? {
      return false;
    }
    var body := ws.Read(file);
    return body.Some? && host.scheme.hash(body.value) == expected.value;
  }

  /** `held` is what is in hand as `base`: the workspace file itself, or what was read from elsewhere on disk at some moment. */
  ghost predicate HeldBy(host: Host, files: map<File, Bytes>, base: Base, held: Option<Bytes>) {
    match base
    case Inside(f) => f in files && held == Some(files[f])
    case Outside(path) => held.Some? ==> exists t :: host.disk(t, path) == held
  }

  /** One fetch, then the digest gates; on success `Artifact` is what the manifest declares. */
  method AttemptDelta(host: Host, ws: Workspace, entry: DeltaPlatform, patch: Patch, base: Base,
                      ghost held: Option<Bytes>, ghost b: Bytes, ghost p: Bytes, ghost bytes: Bytes)
    returns (ok: bool)
    requires ws.Valid() && ws.reliable == host.reliable && base != Inside(DirectPatch) && HeldBy(host, ws.files, base, held)
    modifies host`clock, host`trace, ws
    ensures ws.Valid() && host.trace == old(host.trace) + [Fetched(patch.patchUrl, held)]
    ensures ok ==> patch.backendId == "zstd" && (ws.reliable ==> DirectPatch !in ws.files)
    ensures ok ==> Artifact in ws.files && Matches(host, ws.files[Artifact], entry.targetInstallerBlake3, entry.targetInstallerSize)
    ensures
      && BaseIs(host, old(ws.files), base, b) && Rebuilds(host, patch.patchUrl, patch.backendId, patch.patchBlake3, b, p, bytes)
      && Matches(host, bytes, entry.targetInstallerBlake3, entry.targetInstallerSize)
      ==> ok && ws.files[Artifact] == bytes
  {
    var fetched := FetchPatch(host, ws, patch.patchUrl, patch.patchBlake3, DirectPatch, held, p);
    if !fetched {
      return false;
    }
    var target := SpecFor(patch.backendId, entry.targetInstallerSize, entry.targetInstallerBlake3);
    if target.None? {
      return false;
    }
    ok := TryReconstruct(host, ws, base, DirectPatch, Artifact, target.value, b, bytes);
    ws.Remove(DirectPatch);
  }

  /** ACTIVE of what reading this directory gives is recorded with this digest and size. */
  ghost predicate ActiveIs(d: Directory, ns: Namespace, blake3: string, size: nat) {
    && Opened(d, ns).Some? && Opened(d, ns).value.state.active.Some?
    && Opened(d, ns).value.state.active.value.compressedBlake3 == blake3
    && Opened(d, ns).value.state.active.value.compressedSize == size
  }

  /** A direct base out of the cache: only from an opaque one, and only with the declared digest and size. */
  method CachedDirectBase(host: Host, ws: Workspace, cache: ArtifactCache?, ctx: PlanContext, patch: Patch,
                          signed: ReleaseIdentity, now: int)
    returns (ok: bool)
    requires ws.Valid() && CacheValid(host, cache) && ws.reliable == host.reliable
    modifies CacheFrame(cache), ws
    ensures ws.Valid() && CacheValid(host, cache)
    ensures cache != null && cache.Alone() ==> cache.Seen(old(cache.store.Dir()), old(cache.blobs.blobs), now)
    ensures ok ==>
      && cache != null && cache.representation == Representation.Opaque && signed.representation == REPRESENTATION_OPAQUE_V1
      && BaseArtifact in ws.files && patch.DeclaredBase().Some?
      && Matches(host, ws.files[BaseArtifact], patch.DeclaredBase().value.0, patch.DeclaredBase().value.1)
      && (cache.store.Alone() ==>
            ActiveIs(old(cache.store.Dir()), cache.ns, patch.DeclaredBase().value.0, patch.DeclaredBase().value.1))
    ensures forall e, b ::
      && cache != null && old(cache.Holds(e, b, ctx.pubkey)) && cache.representation == Representation.Opaque && host.reliable
      && signed.representation == REPRESENTATION_OPAQUE_V1 && patch.DeclaredBase() == Some((e.compressedBlake3, e.compressedSize))
      ==> ok && ws.files[BaseArtifact] == b
  {
    if cache == null || cache.representation != Representation.Opaque {
      return false;
    }
    if signed.CheckRepresentation(REPRESENTATION_OPAQUE_V1).Err? {
      return false;
    }
    var declared := patch.DeclaredBase();
    if declared.None? {
      return false;
    }
    var active := cache.Active(ctx.pubkey, now);
    if active.Err? || active.value.None? {
      return false;
    }
    var base := active.value.value;
    if base.entry.compressedBlake3 != declared.value.0 || base.entry.compressedSize != declared.value.1 {
      return false;
    }
    ok := ws.Write(BaseArtifact, base.artifact.bytes);
  }

  ghost predicate SizeSeen(host: Host, path: string, size: nat) {
    exists t :: host.disk(t, path).Some? && |host.disk(t, path).value| == size
  }

  /**
   * A direct base kept outside the cache since installation. Its size and its
   * digest are read at two moments, and it is read again when it is used.
   */
  method SeededDirectBase(host: Host, cache: ArtifactCache?, seed: string, patch: Patch, signed: ReleaseIdentity, ghost b: Bytes)
    returns (ok: bool, ghost seen: Bytes)
    modifies host`clock
    ensures ok ==>
      && (cache != null ==> cache.representation == Representation.Opaque) && signed.representation == REPRESENTATION_OPAQUE_V1
      && patch.DeclaredBase().Some?
      && (exists t :: host.disk(t, seed) == Some(seen))
      && FromHex(patch.DeclaredBase().value.0) == Some(host.scheme.hash(seen))
      && SizeSeen(host, seed, patch.DeclaredBase().value.1)
    ensures
      && (cache != null ==> cache.representation == Representation.Opaque) && signed.representation == REPRESENTATION_OPAQUE_V1
      && (forall t :: host.disk(t, seed) == Some(b)) && patch.DeclaredBase() == Some((ToHex(host.scheme.hash(b)), |b|))
      ==> ok
  {
    seen := [];
    if cache != null && cache.representation != Representation.Opaque {
      return false, seen;
    }
    if signed.CheckRepresentation(REPRESENTATION_OPAQUE_V1).Err? {
      return false, seen;
    }
    var declared := patch.DeclaredBase();
    if declared.None? {
      return false, seen;
    }
    var stat := host.ReadDisk(seed);
    if stat.None? || |stat.value| != declared.value.1 {
      return false, seen;
    }
    var contents := host.ReadDisk(seed);
    if contents.None? || ToHex(host.scheme.hash(contents.value)) != declared.value.0 {
      return false, seen;
    }
    HexRoundTrip(host.scheme.hash(contents.value));
    return true, contents.value;
  }

  // ---- the tar layer -----------------------------------------------------------------

  /** ACTIVE holds `b` undisturbed, and both it and the tar inside it are what `patch` declares. */
  ghost predicate TarBaseHeld(cache: ArtifactCache, pubkey: string, patch: TarPatch, e: CacheEntry, b: Bytes)
    reads cache.store, cache.blobs
  {
    && cache.Holds(e, b, pubkey)
    && e.compressedBlake3 == patch.baseInstallerBlake3 && e.compressedSize == patch.baseInstallerSize
    && e.tar == Some(TarFacts(patch.baseTarBlake3, patch.baseTarSize))
    && cache.Declares(b, patch.baseTarBlake3, patch.baseTarSize)
  }

  method TarBaseFromCache(host: Host, ws: Workspace, cache: ArtifactCache, pubkey: string, patch: TarPatch, now: int,
                          ghost e: CacheEntry, ghost b: Bytes)
    returns (ok: bool)
    requires ws.Valid() && CacheValid(host, cache) && ws.reliable == host.reliable
    modifies CacheFrame(cache), ws
    ensures ws.Valid() && CacheValid(host, cache)
    ensures cache.Alone() ==> cache.Seen(old(cache.store.Dir()), old(cache.blobs.blobs), now)
    ensures ok ==> BaseTar in ws.files && Matches(host, ws.files[BaseTar], patch.baseTarBlake3, patch.baseTarSize)
    ensures cache.store.Alone() && ok ==>
      && ActiveIs(old(cache.store.Dir()), cache.ns, patch.baseInstallerBlake3, patch.baseInstallerSize)
      && Opened(old(cache.store.Dir()), cache.ns).value.state.active.value.tar == Some(TarFacts(patch.baseTarBlake3, patch.baseTarSize))
    ensures host.reliable && old(TarBaseHeld(cache, pubkey, patch, e, b)) ==> ok && Some(ws.files[BaseTar]) == cache.gunzip(b)
  {
    var active := cache.Active(pubkey, now);
    if active.Err? || active.value.None? {
      return false;
    }
    var base := active.value.value;
    if base.entry.compressedBlake3 != patch.baseInstallerBlake3 || base.entry.compressedSize != patch.baseInstallerSize {
      return false;
    }
    if base.entry.tar != Some(TarFacts(patch.baseTarBlake3, patch.baseTarSize)) {
      return false;
    }
    var tar := cache.ExpandToTar(base.artifact, patch.baseTarBlake3, patch.baseTarSize);
    if tar.Err? {
      return false;
    }
    ok := ws.Write(BaseTar, tar.value);
  }

  /** The installed bundle archives to `base`, which is the base `patch` declares, and so is the installer recompressed from it. */
  ghost predicate InstalledBaseHeld(host: Host, patch: TarPatch, limits: Limits, base: Bytes) {
    && host.reliable && (forall t :: host.archive(t).Some? && Flatten(host.archive(t).value) == base)
    && |base| == patch.baseTarSize && patch.baseTarBlake3 == ToHex(host.scheme.hash(base))
    && var installer := Recompressed(host.gzip, base, limits.maxTarBytes);
    && installer.Some? && |installer.value| == patch.baseInstallerSize
    && patch.baseInstallerBlake3 == ToHex(host.scheme.hash(installer.value))
  }

  /**
   * A base tar archived out of the installed bundle. Both the tar and what it
   * recompresses to must have the digests and sizes that `patch` declares.
   */
  method TarBaseFromInstalledApp(host: Host, ws: Workspace, patch: TarPatch, limits: Limits, ghost base: Bytes) returns (ok: bool)
    requires ws.Valid() && ws.reliable == host.reliable
    modifies host`clock, ws
    ensures ws.Valid()
    ensures InstalledBaseHeld(host, patch, limits, base) ==> ok && BaseTar in ws.files && ws.files[BaseTar] == base
    ensures ok ==>
      && BaseTar in ws.files && Matches(host, ws.files[BaseTar], patch.baseTarBlake3, patch.baseTarSize)
      && Recompressed(host.gzip, ws.files[BaseTar], limits.maxTarBytes).Some?
      && Matches(host, Recompressed(host.gzip, ws.files[BaseTar], limits.maxTarBytes).value,
                 patch.baseInstallerBlake3, patch.baseInstallerSize)
  {
    var rebuilt := host.RebuildTar(patch.baseTarSize);
    if rebuilt.None? {
      return false;
    }
    var tar := rebuilt.value;
    var written := ws.Write(BaseTar, tar);
    if !written || |tar| != patch.baseTarSize || ToHex(host.scheme.hash(tar)) != patch.baseTarBlake3 {
      return false;
    }
    HexRoundTrip(host.scheme.hash(tar));
    var installer := Recompressed(host.gzip, tar, limits.maxTarBytes);
    if installer.None? {
      return false;
    }
    written := ws.Write(BaseInstaller, installer.value);
    ok := written && |installer.value| == patch.baseInstallerSize
          && ToHex(host.scheme.hash(installer.value)) == patch.baseInstallerBlake3;
    HexRoundTrip(host.scheme.hash(installer.value));
    ws.Remove(BaseInstaller);
  }

  /**
   * Where `base` can be had as the tar patch's base: inside the cached artifact
   * `b`, or, whatever the cache holds, from the installed bundle.
   */
  ghost predicate TarBaseReady(host: Host, cache: ArtifactCache?, ctx: PlanContext, patch: TarPatch,
                               e: CacheEntry, b: Bytes, base: Bytes)
    reads CacheFrame(cache)
  {
    || (cache != null && host.reliable && TarBaseHeld(cache, ctx.pubkey, patch, e, b) && cache.gunzip(b) == Some(base))
    || (ctx.installedApp && InstalledBaseHeld(host, patch, ctx.limits, base) && Unrivalled(host.scheme.hash, base))
  }

  /** Some base for the tar patch: the cache's, or else the installed bundle's. */
  method TarBase(host: Host, ws: Workspace, cache: ArtifactCache?, ctx: PlanContext, patch: TarPatch, now: int,
                 ghost e: CacheEntry, ghost b: Bytes, ghost base: Bytes)
    returns (ok: bool)
    requires ws.Valid() && CacheValid(host, cache) && ws.reliable == host.reliable
    modifies CacheFrame(cache), host`clock, ws
    ensures ws.Valid() && CacheValid(host, cache)
    ensures cache != null && cache.Alone() ==> cache.Seen(old(cache.store.Dir()), old(cache.blobs.blobs), now)
    ensures ok ==> BaseTar in ws.files && Matches(host, ws.files[BaseTar], patch.baseTarBlake3, patch.baseTarSize)
    ensures !ok && ws.reliable ==> BaseTar !in ws.files
    ensures old(TarBaseReady(host, cache, ctx, patch, e, b, base)) ==> ok && ws.files[BaseTar] == base
  {
    ok := false;
    if cache != null {
      ok := TarBaseFromCache(host, ws, cache, ctx.pubkey, patch, now, e, b);
    }
    HexRoundTrip(host.scheme.hash(base));
    if !ok {
      ws.Remove(BaseTar);
      if ctx.installedApp {
        ok := TarBaseFromInstalledApp(host, ws, patch, ctx.limits, base);
        if !ok {
          ws.Remove(BaseTar);
        }
      }
    }
  }

  /** `Artifact` from `TargetTar`: recompressed under a working name, checked there, then renamed. */
  method RecompressTarget(host: Host, ws: Workspace, entry: DeltaPlatform, limits: Limits) returns (ok: bool)
    requires ws.Valid()
    modifies ws
    ensures ws.Valid()
    ensures ok ==> Artifact in ws.files && Matches(host, ws.files[Artifact], entry.targetInstallerBlake3, entry.targetInstallerSize)
    ensures ok && ws.reliable ==> TargetTar !in ws.files
    ensures !ok && ws.reliable && FromHex(entry.targetInstallerBlake3).Some? && TargetTar in old(ws.files)
            && Recompressed(host.gzip, old(ws.files)[TargetTar], limits.maxTarBytes).Some? ==>
      TargetTar !in ws.files && Part(Artifact) !in ws.files
    ensures forall p :: p in ws.held - old(ws.held) && p.0 == Artifact ==>
      Matches(host, p.1, entry.targetInstallerBlake3, entry.targetInstallerSize)
    ensures
      && ws.reliable && TargetTar in old(ws.files)
      && Recompressed(host.gzip, old(ws.files)[TargetTar], limits.maxTarBytes).Some?
      && Matches(host, Recompressed(host.gzip, old(ws.files)[TargetTar], limits.maxTarBytes).value,
                 entry.targetInstallerBlake3, entry.targetInstallerSize)
      ==> ok && Recompressed(host.gzip, old(ws.files)[TargetTar], limits.maxTarBytes) == Some(ws.files[Artifact])
  {
    var building := Part(Artifact);
    var tar := ws.Read(TargetTar);
    if tar.None? {
      return false;
    }
    var recompressed := Recompressed(host.gzip, tar.value, limits.maxTarBytes);
    if recompressed.None? {
      return false;
    }
    var written := ws.Write(building, recompressed.value);
    if !written {
      return false;
    }
    ws.Remove(TargetTar);
    var expected := FromHex(entry.targetInstallerBlake3);
    if expected.None? {
      return false;
    }
    var rebuilt := ws.Read(building);
    if rebuilt.None? || host.scheme.hash(rebuilt.value) != expected.value {
      ws.Remove(building);
      return false;
    }
    if |rebuilt.value| != entry.targetInstallerSize {
      ws.Remove(building);
      return false;
    }
    ok := ws.Rename(building, Artifact);
  }

  /** The new tar, from the base tar in the workspace and one fetched patch. */
  method PatchTar(host: Host, ws: Workspace, layer: TarLayer, patch: TarPatch, ghost p: Bytes, ghost tar: Bytes) returns (ok: bool)
    requires ws.Valid() && ws.reliable == host.reliable && BaseTar in ws.files
    modifies host`clock, host`trace, ws
    ensures ws.Valid() && host.trace == old(host.trace) + [Fetched(patch.patchUrl, Some(old(ws.files)[BaseTar]))]
    ensures ok ==> patch.backendId == "zstd"
    ensures ok ==> TargetTar in ws.files && Matches(host, ws.files[TargetTar], layer.targetTarBlake3, layer.targetTarSize)
    ensures
      && Rebuilds(host, patch.patchUrl, patch.backendId, patch.patchBlake3, old(ws.files)[BaseTar], p, tar)
      && Matches(host, tar, layer.targetTarBlake3, layer.targetTarSize)
      ==> ok && ws.files[TargetTar] == tar
  {
    ghost var base := ws.files[BaseTar];
    var fetched := FetchPatch(host, ws, patch.patchUrl, patch.patchBlake3, TarPatchFile, Some(base), p);
    if !fetched {
      return false;
    }
    ok := ApplyTarPatch(host, ws, layer, patch.backendId, base, tar);
  }

  /** The new tar from the base and the patch in the workspace, which are then no longer needed. */
  method ApplyTarPatch(host: Host, ws: Workspace, layer: TarLayer, backendId: string, ghost base: Bytes, ghost tar: Bytes)
    returns (ok: bool)
    requires ws.Valid() && TarPatchFile in ws.files
    modifies host`clock, ws
    ensures ws.Valid() && (ok ==> backendId == "zstd" && (ws.reliable ==> TarPatchFile !in ws.files && BaseTar !in ws.files))
    ensures ok ==> TargetTar in ws.files && Matches(host, ws.files[TargetTar], layer.targetTarBlake3, layer.targetTarSize)
    ensures
      && ws.reliable && backendId == ZSTD_ID && BaseTar in old(ws.files) && old(ws.files)[BaseTar] == base
      && Rebuilt(host.codec, base, old(ws.files)[TarPatchFile], Some(|tar|)) == Some(tar)
      && Matches(host, tar, layer.targetTarBlake3, layer.targetTarSize)
      ==> ok && ws.files[TargetTar] == tar
  {
    var target := SpecFor(backendId, layer.targetTarSize, layer.targetTarBlake3);
    if target.None? {
      return false;
    }
    ok := TryReconstruct(host, ws, Inside(BaseTar), TarPatchFile, TargetTar, target.value, base, tar);
    if ok {
      ws.Remove(TarPatchFile);
      ws.Remove(BaseTar);
    }
  }

  /** The tar patch may be fetched: the sizes fit the local ceilings, and the base is the declared one. */
  ghost predicate TarFetch(host: Host, limits: Limits, layer: TarLayer, patch: TarPatch, event: Event) {
    && layer.targetTarSize <= limits.maxTarBytes && patch.baseTarSize <= limits.maxTarBytes
    && event.Fetched? && event.url == patch.patchUrl
    && event.held.Some? && Matches(host, event.held.value, patch.baseTarBlake3, patch.baseTarSize)
  }

  /** What makes the tar path succeed with `bytes`: the base tar, the served patch `p` and the tar it gives. */
  ghost predicate TarServes(host: Host, cache: ArtifactCache?, ctx: PlanContext, entry: DeltaPlatform, layer: TarLayer,
                            patch: TarPatch, w: Prospect)
    reads CacheFrame(cache)
  {
    && layer.targetTarSize <= ctx.limits.maxTarBytes && patch.baseTarSize <= ctx.limits.maxTarBytes
    && TarBaseReady(host, cache, ctx, patch, w.entry, w.artifact, w.base)
    && Rebuilds(host, patch.patchUrl, patch.backendId, patch.patchBlake3, w.base, w.patch, w.tar)
    && Matches(host, w.tar, layer.targetTarBlake3, layer.targetTarSize)
    && Recompressed(host.gzip, w.tar, ctx.limits.maxTarBytes) == Some(w.result)
    && Matches(host, w.result, entry.targetInstallerBlake3, entry.targetInstallerSize)
  }

  /**
   * The whole tar path: the two ceilings, a base, one fetch, a digest gate on
   * the tar and another on the artifact, in that order.
   */
  method AttemptTarDelta(host: Host, ws: Workspace, entry: DeltaPlatform, layer: TarLayer, patch: TarPatch,
                         cache: ArtifactCache?, ctx: PlanContext, now: int,
                         ghost w: Prospect)
    returns (ok: bool)
    requires ws.Valid() && CacheValid(host, cache) && ws.reliable == host.reliable
    modifies CacheFrame(cache), host`clock, host`trace, ws
    ensures ws.Valid() && CacheValid(host, cache)
    ensures cache != null && cache.Alone() ==> cache.Seen(old(cache.store.Dir()), old(cache.blobs.blobs), now)
    ensures host.trace == old(host.trace)
         || (|host.trace| == |old(host.trace)| + 1 && host.trace[..|old(host.trace)|] == old(host.trace)
             && TarFetch(host, ctx.limits, layer, patch, host.trace[|old(host.trace)|]))
    ensures ok ==> host.trace != old(host.trace) && patch.backendId == "zstd"
    ensures ok ==> Artifact in ws.files && Matches(host, ws.files[Artifact], entry.targetInstallerBlake3, entry.targetInstallerSize)
    ensures old(TarServes(host, cache, ctx, entry, layer, patch, w)) ==>
      ok && ws.files[Artifact] == w.result
  {
    if layer.targetTarSize > ctx.limits.maxTarBytes || patch.baseTarSize > ctx.limits.maxTarBytes {
      return false;
    }
    var based := TarBase(host, ws, cache, ctx, patch, now, w.entry, w.artifact, w.base);
    if !based {
      return false;
    }
    var patched := PatchTar(host, ws, layer, patch, w.patch, w.tar);
    if !patched {
      return false;
    }
    ok := RecompressTarget(host, ws, entry, ctx.limits);
  }

  // ---- the plan ------------------------------------------------------------------------

  /**
   * A base in hand before the direct patch is asked for: it has the declared
   * digest, and the declared size too, or it is the kept installer as read from
   * disk, which was seen with that size.
   */
  ghost predicate DeclaredBaseHeld(host: Host, ctx: PlanContext, patch: Patch, held: Option<Bytes>) {
    && held.Some? && patch.DeclaredBase().Some?
    && FromHex(patch.DeclaredBase().value.0) == Some(host.scheme.hash(held.value))
    && (|held.value| == patch.DeclaredBase().value.1
        || (ctx.seeded.Some? && SizeSeen(host, ctx.seeded.value, patch.DeclaredBase().value.1)
            && exists t :: host.disk(t, ctx.seeded.value) == held))
  }

  ghost predicate DirectFetch(host: Host, ctx: PlanContext, patch: Patch, event: Event) {
    && event.Fetched? && event.url == patch.patchUrl
    && (ctx.base.None? ==> DeclaredBaseHeld(host, ctx, patch, event.held))
  }

  /**
   * Where `b` can be had as the base of the direct patch: from the host, from
   * the cache, or, whatever an opaque cache holds, from the kept installer.
   */
  ghost predicate DirectBaseHeld(host: Host, cache: ArtifactCache?, ctx: PlanContext, patch: Patch, signed: ReleaseIdentity,
                                 e: CacheEntry, b: Bytes)
    reads CacheFrame(cache)
  {
    match ctx.base
    case Some(path) => forall t :: host.disk(t, path) == Some(b)
    case None =>
      && signed.representation == REPRESENTATION_OPAQUE_V1 && host.reliable
      && (|| (cache != null && cache.Holds(e, b, ctx.pubkey) && cache.representation == Representation.Opaque
              && patch.DeclaredBase() == Some((e.compressedBlake3, e.compressedSize)))
          || (ctx.seeded.Some? && (forall t :: host.disk(t, ctx.seeded.value) == Some(b))
              && patch.DeclaredBase() == Some((ToHex(host.scheme.hash(b)), |b|))
              && (cache != null ==> cache.representation == Representation.Opaque && Unrivalled(host.scheme.hash, b))))
  }

  /** Host-supplied first, then the managed cache, then the kept installer. */
  method DirectBase(host: Host, ws: Workspace, cache: ArtifactCache?, ctx: PlanContext, patch: Patch, signed: ReleaseIdentity,
                    now: int, ghost e: CacheEntry, ghost b: Bytes)
    returns (r: Option<Base>, ghost held: Option<Bytes>)
    requires ws.Valid() && CacheValid(host, cache) && ws.reliable == host.reliable
    modifies CacheFrame(cache), host`clock, ws
    ensures ws.Valid() && CacheValid(host, cache)
    ensures cache != null && cache.Alone() ==> cache.Seen(old(cache.store.Dir()), old(cache.blobs.blobs), now)
    ensures r.Some? ==> r.value != Inside(DirectPatch) && HeldBy(host, ws.files, r.value, held)
    ensures r.Some? && ctx.base.None? ==>
      && DeclaredBaseHeld(host, ctx, patch, held)
      && if r.value == Inside(BaseArtifact) then |held.value| == patch.DeclaredBase().value.1
         else ctx.seeded.Some? && r.value == Outside(ctx.seeded.value)
    ensures old(DirectBaseHeld(host, cache, ctx, patch, signed, e, b)) ==> r.Some? && BaseIs(host, ws.files, r.value, b)
  {
    held := None;
    if ctx.base.Some? {
      return Some(Outside(ctx.base.value)), None;
    }
    var cached := CachedDirectBase(host, ws, cache, ctx, patch, signed, now);
    HexRoundTrip(host.scheme.hash(b));
    if cached {
      return Some(Inside(BaseArtifact)), Some(ws.files[BaseArtifact]);
    }
    if ctx.seeded.None? {
      return None, None;
    }
    var ok, seen := SeededDirectBase(host, cache, ctx.seeded.value, patch, signed, b);
    return if ok then Some(Outside(ctx.seeded.value)) else None, Some(seen);
  }

  ghost predicate DirectServes(host: Host, cache: ArtifactCache?, ctx: PlanContext, entry: DeltaPlatform, patch: Patch,
                               signed: ReleaseIdentity, w: Prospect)
    reads CacheFrame(cache)
  {
    && DirectBaseHeld(host, cache, ctx, patch, signed, w.entry, w.base)
    && Rebuilds(host, patch.patchUrl, patch.backendId, patch.patchBlake3, w.base, w.patch, w.result)
    && Matches(host, w.result, entry.targetInstallerBlake3, entry.targetInstallerSize)
  }

  /** A rebuilt artifact ready in its own workspace. */
  ghost predicate Rebuild(host: Host, ws: Workspace, entry: DeltaPlatform)
    reads ws
  {
    && ws.Valid() && ws.reliable == host.reliable
    && Artifact in ws.files && Matches(host, ws.files[Artifact], entry.targetInstallerBlake3, entry.targetInstallerSize)
  }

  /** The direct patch, when there is one from the running version. */
  method PlanDirect(host: Host, id: UpdateIdentity, ctx: PlanContext, cache: ArtifactCache?, entry: DeltaPlatform,
                    signed: ReleaseIdentity, tried: bool, now: int,
                    ghost w: Prospect)
    returns (source: UpdateSource, ghost fetches: seq<Event>)
    requires CacheValid(host, cache)
    modifies CacheFrame(cache), host`clock, host`trace
    ensures CacheValid(host, cache) && host.trace == old(host.trace) + fetches && |fetches| <= 1
    ensures cache != null && cache.Alone() ==> cache.Seen(old(cache.store.Dir()), old(cache.blobs.blobs), now)
    ensures fetches != [] ==> id.currentVersion in entry.patches && DirectFetch(host, ctx, entry.patches[id.currentVersion], fetches[0])
    ensures source.Delta? || source == FallBack(id, Attempted(tried, id.currentVersion in entry.patches))
    ensures source.Delta? ==>
      && fetches != [] && fresh(source.space) && Rebuild(host, source.space, entry) && source.signature == id.signature
      && entry.patches[id.currentVersion].backendId == "zstd"
      && source.downloaded == entry.patches[id.currentVersion].patchSize && source.wouldHaveDownloaded == entry.targetInstallerSize
    ensures
      && id.currentVersion in entry.patches
      && old(DirectServes(host, cache, ctx, entry, entry.patches[id.currentVersion], signed, w))
      ==> source.Delta? && source.space.files[Artifact] == w.result
  {
    fetches := [];
    if id.currentVersion !in entry.patches {
      return FallBack(id, Attempted(tried, false)), [];
    }
    var patch := entry.patches[id.currentVersion];
    var attempted := Attempted(tried, true);
    var space := host.OpenWorkspace();
    if space.None? {
      return FallBack(id, attempted), [];
    }
    var ws := space.value;
    var base, held := DirectBase(host, ws, cache, ctx, patch, signed, now, w.entry, w.base);
    if base.None? {
      return FallBack(id, attempted), [];
    }
    var rebuilt := AttemptDelta(host, ws, entry, patch, base.value, held, w.base, w.patch, w.result);
    fetches := [Fetched(patch.patchUrl, held)];
    if !rebuilt {
      return FallBack(id, attempted), fetches;
    }
    return Delta(ws, id.signature, patch.patchSize, entry.targetInstallerSize), fetches;
  }

  /** Whether the tar path is reached, and if so with which layer and patch. */
  function TarOffer(cache: ArtifactCache?, ctx: PlanContext, entry: DeltaPlatform, version: string): Option<(TarLayer, TarPatch)> {
    if cache == null && !ctx.installedApp then None
    else
      match entry.TarPatchFor(version)
      case Ok(offer) => offer
      case Err(_) => None
  }

  /** What is offered is the tar patch published from the running version, and this build can use its layer. */
  ghost predicate Published(entry: DeltaPlatform, version: string, offer: Option<(TarLayer, TarPatch)>) {
    offer.Some? ==>
      var (layer, patch) := offer.value;
      && entry.tarLayer == Some(layer) && version in layer.patches && patch == layer.patches[version]
      && layer.representation == "app-tar-gz-v1" && layer.recompression == "tauri-app-tar-gz-v1"
  }

  /** The tar path is open exactly to a client with a cache or a bundle, for a patch and a layer it can use. */
  lemma OfferedExactly(cache: ArtifactCache?, ctx: PlanContext, entry: DeltaPlatform, version: string)
    ensures var offer := TarOffer(cache, ctx, entry, version);
            && Published(entry, version, offer)
            && (offer.Some? <==>
                  && (cache != null || ctx.installedApp) && entry.tarLayer.Some? && version in entry.tarLayer.value.patches
                  && entry.tarLayer.value.representation == "app-tar-gz-v1"
                  && entry.tarLayer.value.recompression == "tauri-app-tar-gz-v1")
  {
  }

  /** The tar path's turn: an artifact, or nothing. */
  method PlanTar(host: Host, ctx: PlanContext, cache: ArtifactCache?, entry: DeltaPlatform, layer: TarLayer, patch: TarPatch,
                 now: int, ghost w: Prospect)
    returns (space: Option<Workspace>, ghost fetches: seq<Event>)
    requires CacheValid(host, cache)
    modifies CacheFrame(cache), host`clock, host`trace
    ensures CacheValid(host, cache) && host.trace == old(host.trace) + fetches && |fetches| <= 1
    ensures cache != null && cache.Alone() ==> cache.Seen(old(cache.store.Dir()), old(cache.blobs.blobs), now)
    ensures fetches != [] ==> TarFetch(host, ctx.limits, layer, patch, fetches[0])
    ensures space.Some? ==> fetches != [] && fresh(space.value) && Rebuild(host, space.value, entry) && patch.backendId == "zstd"
    ensures old(TarServes(host, cache, ctx, entry, layer, patch, w)) ==>
      space.Some? && space.value.files[Artifact] == w.result
  {
    fetches := [];
    space := host.OpenWorkspace();
    if space.None? {
      return;
    }
    ghost var before := host.trace;
    var rebuilt := AttemptTarDelta(host, space.value, entry, layer, patch, cache, ctx, now, w);
    if host.trace != before {
      fetches := [host.trace[|before|]];
    }
    if !rebuilt {
      space := None;
    }
  }

  /** What the planner may have fetched: the tar patch, then the direct patch, each at most once and each entitled to. */
  ghost predicate Entitled(host: Host, id: UpdateIdentity, ctx: PlanContext, entry: DeltaPlatform,
                           offer: Option<(TarLayer, TarPatch)>, tarFetches: seq<Event>, directFetches: seq<Event>)
  {
    && |tarFetches| <= 1 && |directFetches| <= 1
    && (tarFetches != [] ==> offer.Some? && TarFetch(host, ctx.limits, offer.value.0, offer.value.1, tarFetches[0]))
    && (directFetches != [] ==>
          id.currentVersion in entry.patches && DirectFetch(host, ctx, entry.patches[id.currentVersion], directFetches[0]))
  }

  /** What the planner may answer once a delta may be tried. */
  ghost predicate Answers(id: UpdateIdentity, entry: DeltaPlatform, signed: ReleaseIdentity,
                          offer: Option<(TarLayer, TarPatch)>, tarFetches: seq<Event>, directFetches: seq<Event>,
                          source: UpdateSource)
  {
    && (source.RefusedSource? <==> offer.Some? && offer.value.0.representation != signed.representation)
    && match source
    case TarDelta(_, signature, downloaded, would) =>
      && offer.Some? && tarFetches != [] && directFetches == [] && offer.value.1.backendId == "zstd"
      && signature == id.signature && downloaded == offer.value.1.patchSize && would == entry.targetInstallerSize
    case Delta(_, signature, downloaded, would) =>
      && id.currentVersion in entry.patches && directFetches != [] && entry.patches[id.currentVersion].backendId == "zstd"
      && signature == id.signature && downloaded == entry.patches[id.currentVersion].patchSize
      && would == entry.targetInstallerSize
    case Full(_, _, _) => source == FallBack(id, Attempted(offer.Some?, id.currentVersion in entry.patches))
    case AlreadyInstalled => false
    case RefusedSource(reason) => reason == ReleaseIdentityRefused && tarFetches == [] && directFetches == []
  }

  /** Both delta paths in turn: the tar layer's, then the direct one. */
  method PlanEligible(host: Host, id: UpdateIdentity, ctx: PlanContext, cache: ArtifactCache?,
                      entry: DeltaPlatform, signed: ReleaseIdentity, now: int,
                      ghost w: Prospect)
    returns (source: UpdateSource, ghost tarFetches: seq<Event>, ghost directFetches: seq<Event>)
    requires CacheValid(host, cache)
    modifies CacheFrame(cache), host`clock, host`trace
    ensures CacheValid(host, cache)
    ensures cache != null && cache.Alone() ==> cache.Seen(old(cache.store.Dir()), old(cache.blobs.blobs), now)
    ensures host.trace == old(host.trace) + (tarFetches + directFetches)
    ensures Entitled(host, id, ctx, entry, TarOffer(cache, ctx, entry, id.currentVersion), tarFetches, directFetches)
    ensures Answers(id, entry, signed, TarOffer(cache, ctx, entry, id.currentVersion), tarFetches, directFetches, source)
    ensures source.TarDelta? || source.Delta? ==> fresh(source.space) && Rebuild(host, source.space, entry)
    ensures
      var offer := TarOffer(cache, ctx, entry, id.currentVersion);
      && offer.Some? && offer.value.0.representation == signed.representation
      && old(TarServes(host, cache, ctx, entry, offer.value.0, offer.value.1, w))
      ==> source.TarDelta? && source.space.files[Artifact] == w.result
    ensures
      var offer := TarOffer(cache, ctx, entry, id.currentVersion);
      && (offer.Some? ==> offer.value.0.representation == signed.representation) && id.currentVersion in entry.patches
      && old(DirectServes(host, cache, ctx, entry, entry.patches[id.currentVersion], signed, w))
      ==> (source.Delta? && source.space.files[Artifact] == w.result) || (offer.Some? && source.TarDelta?)
  {
    tarFetches, directFetches := [], [];
    var offer := TarOffer(cache, ctx, entry, id.currentVersion);
    if offer.Some? {
      var (layer, patch) := offer.value;
      if signed.CheckRepresentation(layer.representation).Err? {
        return RefusedSource(ReleaseIdentityRefused), [], [];
      }
      var space, tried := PlanTar(host, ctx, cache, entry, layer, patch, now, w);
      tarFetches := tried;
      if space.Some? {
        return TarDelta(space.value, id.signature, patch.patchSize, entry.targetInstallerSize), tarFetches, [];
      }
    }
    label Tried:
    var direct, fetches := PlanDirect(host, id, ctx, cache, entry, signed, offer.Some?, now, w);
    if cache != null && cache.Alone() {
      SeenTwice(old(cache.store.Dir()), old(cache.blobs.blobs), cache.ns, now,
                old@Tried(cache.store.Dir()), old@Tried(cache.blobs.blobs), cache.store.Dir(), cache.blobs.blobs);
    }
    return direct, tarFetches, fetches;
  }

  function TarOfferOf(host: Host, id: UpdateIdentity, ctx: PlanContext, cache: ArtifactCache?): Option<(TarLayer, TarPatch)> {
    match Screen(host, id, ctx)
    case Settled(_) => None
    case Eligible(entry, _) => TarOffer(cache, ctx, entry, id.currentVersion)
  }

  /** A plan, with the artifact a delta leaves in its workspace. */
  ghost predicate Planned(host: Host, id: UpdateIdentity, ctx: PlanContext, screening: Screening, offer: Option<(TarLayer, TarPatch)>,
                          source: UpdateSource, artifact: Bytes, tarFetches: seq<Event>, directFetches: seq<Event>)
  {
    match screening
    case Settled(settled) => source == settled && tarFetches == [] && directFetches == []
    case Eligible(entry, signed) =>
      && Entitled(host, id, ctx, entry, offer, tarFetches, directFetches)
      && Answers(id, entry, signed, offer, tarFetches, directFetches, source)
      && (source.TarDelta? || source.Delta? ==>
            Matches(host, artifact, entry.targetInstallerBlake3, entry.targetInstallerSize))
  }

  lemma PlanIsRuled(host: Host, id: UpdateIdentity, ctx: PlanContext, offer: Option<(TarLayer, TarPatch)>,
                    source: UpdateSource, artifact: Bytes, tarFetches: seq<Event>, directFetches: seq<Event>)
    requires Planned(host, id, ctx, Screen(host, id, ctx), offer, source, artifact, tarFetches, directFetches)
    ensures Ruled(host, id, source)
  {
    ScreenRules(host, id, ctx);
  }

  /** The tar path is reached, and everything it needs is there and gives `bytes`. */
  ghost predicate TarReady(host: Host, id: UpdateIdentity, ctx: PlanContext, cache: ArtifactCache?,
                           w: Prospect)
    reads CacheFrame(cache)
  {
    && Screen(host, id, ctx).Eligible?
    && var Eligible(entry, signed) := Screen(host, id, ctx);
    var offer := TarOffer(cache, ctx, entry, id.currentVersion);
    && offer.Some? && offer.value.0.representation == signed.representation
    && TarServes(host, cache, ctx, entry, offer.value.0, offer.value.1, w)
  }

  /** Everything the direct path needs is there and gives `w.result`, should the plan come to it. */
  ghost predicate DirectReady(host: Host, id: UpdateIdentity, ctx: PlanContext, cache: ArtifactCache?,
                              w: Prospect)
    reads CacheFrame(cache)
  {
    && Screen(host, id, ctx).Eligible?
    && var Eligible(entry, signed) := Screen(host, id, ctx);
    var offer := TarOffer(cache, ctx, entry, id.currentVersion);
    && (offer.Some? ==> offer.value.0.representation == signed.representation) && id.currentVersion in entry.patches
    && DirectServes(host, cache, ctx, entry, entry.patches[id.currentVersion], signed, w)
  }

  /**
   * The planner. Settled plans fetch nothing. Otherwise at most the tar patch and
   * then the direct patch are fetched, each only once its declared sizes fit
   * the local ceilings and its base is in hand; a rebuilt artifact has the
   * declared digest and size. When the published files serve a base the client
   * holds, the delta is what it gets.
   */
  method PlanUpdate(host: Host, id: UpdateIdentity, ctx: PlanContext, cache: ArtifactCache?, now: int,
                    ghost w: Prospect)
    returns (source: UpdateSource, ghost tarFetches: seq<Event>, ghost directFetches: seq<Event>)
    requires CacheValid(host, cache)
    modifies CacheFrame(cache), host`clock, host`trace
    ensures CacheValid(host, cache)
    ensures cache != null && cache.Alone() ==> cache.Seen(old(cache.store.Dir()), old(cache.blobs.blobs), now)
    ensures host.trace == old(host.trace) + (tarFetches + directFetches)
    ensures source.TarDelta? || source.Delta? ==>
      fresh(source.space) && source.space.Valid() && source.space.reliable == host.reliable && Artifact in source.space.files
    ensures Planned(host, id, ctx, Screen(host, id, ctx), TarOfferOf(host, id, ctx, cache), source,
                    if source.TarDelta? || source.Delta? then source.space.files[Artifact] else [], tarFetches, directFetches)
    ensures Ruled(host, id, source)
    ensures cache != null && Screen(host, id, ctx).Settled? ==>
      cache.store.Dir() == old(cache.store.Dir()) && cache.blobs.blobs == old(cache.blobs.blobs)
    ensures old(TarReady(host, id, ctx, cache, w)) ==> source.TarDelta? && source.space.files[Artifact] == w.result
    ensures old(DirectReady(host, id, ctx, cache, w)) ==>
      || (source.Delta? && source.space.files[Artifact] == w.result)
      || (TarOfferOf(host, id, ctx, cache).Some? && source.TarDelta?)
  {
    match Screen(host, id, ctx) {
      case Settled(settled) =>
        source, tarFetches, directFetches := settled, [], [];
      case Eligible(entry, signed) =>
        source, tarFetches, directFetches := PlanEligible(host, id, ctx, cache, entry, signed, now, w);
    }
    PlanIsRuled(host, id, ctx, TarOfferOf(host, id, ctx, cache), source,
                if source.TarDelta? || source.Delta? then source.space.files[Artifact] else [], tarFetches, directFetches);
  }
}
