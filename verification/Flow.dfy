/**
 * Acting on a plan until an installer is handed its bytes
 * (crates/plugin/src/flow.rs), with the compressed full copy of
 * crates/delta-core/src/client.rs.
 */
module Flow {
  import opened Prelude
  import opened ArtifactCaches
  import opened CacheTypes
  import opened Client
  import opened Hash
  import opened Hosts
  import opened Manifests
  import opened Planning
  import opened Reconstruction
  import opened StateDirectory
  import opened BlobStores
  import opened ReleaseIdentities
  import opened Signatures
  import opened StateStores
  import opened UpdateIdentities
  import opened Zstd

  datatype Outcome =
    | InstalledFromTarDelta(downloaded: nat, savedAgainst: nat)
    | InstalledFromDelta(downloaded: nat, savedAgainst: nat)
    | InstalledFromCompressedFull(downloaded: nat, savedAgainst: nat)
    | InstalledFromFullDownload
    | NothingToDo
  {
    predicate FullPath() { InstalledFromCompressedFull? || InstalledFromFullDownload? }
  }

  datatype FlowError = IoFailed | FetchFailed | SignatureFailed | RefusedUpdate(reason: Refusal) | InstallFailed

  datatype RunReport = RunReport(outcome: Outcome, cacheWriteError: bool, fullDownloaded: Option<nat>)

  // ---- the compressed full copy ------------------------------------------------------

  function CompressedFullFor(host: Host, id: UpdateIdentity): Option<(CompressedFull, TargetSpec)> {
    match FromJson(host, id.rawJson)
    case None => None
    case Some(manifest) =>
      match ResolveIdentity(manifest, id)
      case Ok(Some(entry)) =>
        (match entry.UsableCompressedFull()
         case None => None
         case Some(full) =>
           match SpecFor(full.backendId, entry.targetInstallerSize, entry.targetInstallerBlake3)
           case None => None
           case Some(target) => Some((full, target)))
      case _ => None
  }

  /** The copy is the one published for the artifact Tauri selected, in the encoding this build decodes, and its target the installer. */
  lemma CopyExactly(host: Host, id: UpdateIdentity, full: CompressedFull, target: TargetSpec)
    ensures CompressedFullFor(host, id) == Some((full, target)) <==>
            && Resolved(host, id).Ok? && Resolved(host, id).value.Some?
            && var entry := Resolved(host, id).value.value;
            && entry.compressedFull == Some(full) && full.backendId == "zstd" && target.backendId == "zstd"
            && target.size == entry.targetInstallerSize && FromHex(entry.targetInstallerBlake3) == Some(target.digest)
  {
  }

  /** Fetching the copy saves something, and what it decodes to fits the ceiling. */
  predicate WorthFetching(full: CompressedFull, target: TargetSpec, limits: Limits) {
    full.size < target.size <= limits.maxTargetBytes
  }

  /** The copy itself, checked by size and digest before it is decoded. */
  method FetchCopy(host: Host, ws: Workspace, full: CompressedFull, ghost copy: Bytes) returns (ok: bool)
    requires ws.Valid() && ws.reliable == host.reliable
    modifies host`clock, host`trace, ws
    ensures ws.Valid() && host.trace == old(host.trace) + [Fetched(full.url, None)]
    ensures OnlyChanged(ws.files, old(ws.files), {CompressedCopy})
    ensures ok ==>
      && CompressedCopy in ws.files && |ws.files[CompressedCopy]| == full.size
      && full.blake3 == ToHex(host.scheme.hash(ws.files[CompressedCopy]))
    ensures
      && host.reliable && (forall t :: host.server(t, full.url) == Some(copy))
      && |copy| == full.size && full.blake3 == ToHex(host.scheme.hash(copy))
      ==> ok && ws.files[CompressedCopy] == copy
  {
    var fetched := host.Fetch(full.url, ws, CompressedCopy, None);
    if !fetched {
      return false;
    }
    var body := ws.Read(CompressedCopy);
    return body.Some? && |body.value| == full.size && ToHex(host.scheme.hash(body.value)) == full.blake3;
  }

  /** The copy, applied as a patch to an empty file. */
  method DecodeCopy(host: Host, ws: Workspace, target: TargetSpec, ghost bytes: Bytes) returns (ok: bool)
    requires ws.Valid() && CompressedCopy in ws.files
    modifies host`clock, ws
    ensures ws.Valid() && (FullArtifact in old(ws.files) ==> FullArtifact in ws.files && ws.files[FullArtifact] == old(ws.files)[FullArtifact])
    ensures ok ==> RebuiltFull in ws.files && Meets(host, ws.files[RebuiltFull], target)
    ensures
      && ws.reliable && target.backendId == ZSTD_ID && Meets(host, bytes, target)
      && Rebuilt(host.codec, [], old(ws.files)[CompressedCopy], Some(target.size)) == Some(bytes)
      ==> ok && ws.files[RebuiltFull] == bytes
  {
    ok := ws.Write(EmptyBase, []);
    if !ok {
      return;
    }
    ok := RebuildFromEmpty(host, ws, target, bytes);
  }

  method RebuildFromEmpty(host: Host, ws: Workspace, target: TargetSpec, ghost bytes: Bytes) returns (ok: bool)
    requires ws.Valid() && CompressedCopy in ws.files && EmptyBase in ws.files && ws.files[EmptyBase] == []
    modifies host`clock, ws
    ensures ws.reliable ==> CompressedCopy !in ws.files && EmptyBase !in ws.files
    ensures ws.Valid() && (FullArtifact in old(ws.files) ==> FullArtifact in ws.files && ws.files[FullArtifact] == old(ws.files)[FullArtifact])
    ensures ok ==> RebuiltFull in ws.files && Meets(host, ws.files[RebuiltFull], target)
    ensures
      && ws.reliable && target.backendId == ZSTD_ID && Meets(host, bytes, target)
      && Rebuilt(host.codec, [], old(ws.files)[CompressedCopy], Some(target.size)) == Some(bytes)
      ==> ok && ws.files[RebuiltFull] == bytes
  {
    ok := TryReconstruct(host, ws, Inside(EmptyBase), CompressedCopy, RebuiltFull, target, [], bytes);
    ws.Remove(CompressedCopy);
    ws.Remove(EmptyBase);
  }

  /** The compressed copy, fetched if worth it and rebuilt through the gates every patch passes. */
  method FetchCompressedFull(host: Host, ws: Workspace, full: CompressedFull, target: TargetSpec, limits: Limits,
                             ghost copy: Bytes, ghost bytes: Bytes)
    returns (ok: bool)
    requires ws.Valid() && ws.reliable == host.reliable
    modifies host`clock, host`trace, ws
    ensures ws.Valid()
    ensures host.trace == old(host.trace) + if WorthFetching(full, target, limits) then [Fetched(full.url, None)] else []
    ensures ok ==> WorthFetching(full, target, limits) && RebuiltFull in ws.files && Meets(host, ws.files[RebuiltFull], target)
    ensures FullArtifact in old(ws.files) ==> FullArtifact in ws.files && ws.files[FullArtifact] == old(ws.files)[FullArtifact]
    ensures
      && WorthFetching(full, target, limits) && host.reliable && target.backendId == ZSTD_ID && Meets(host, bytes, target)
      && (forall t :: host.server(t, full.url) == Some(copy)) && |copy| == full.size && full.blake3 == ToHex(host.scheme.hash(copy))
      && Rebuilt(host.codec, [], copy, Some(target.size)) == Some(bytes)
      ==> ok && ws.files[RebuiltFull] == bytes
  {
    if target.size > limits.maxTargetBytes || full.size >= target.size {
      return false;
    }
    ok := FetchCopy(host, ws, full, copy);
    if ok {
      ok := DecodeCopy(host, ws, target, bytes);
    }
  }

  // ---- verify, stage, install --------------------------------------------------------

  function Classify(e: SignatureError): FlowError {
    match e
    case Identity(_) => RefusedUpdate(ReleaseIdentityRefused)
    case Unverified => SignatureFailed
  }

  /** The events of an install: staged first when there is a cache, then handed over. */
  function Finale(staged: bool, id: UpdateIdentity, installed: Option<Bytes>): seq<Event> {
    match installed
    case None => []
    case Some(bytes) => (if staged then [Staged(id.version, bytes)] else []) + [Handed(bytes)]
  }

  /**
   * A cache that held `dir` and `shelf`, after an update that handed over what
   * `installed` says and, if it came to report, reported `told`.
   */
  ghost predicate CacheLeft(cache: ArtifactCache, dir: Directory, shelf: map<string, Node>, id: UpdateIdentity,
                            installed: Option<Bytes>, now: int, told: Option<bool>)
    reads cache.store, cache.blobs
  {
    match installed
    case None => cache.store.Dir() == dir && cache.blobs.blobs == shelf
    case Some(bytes) => cache.Offered(dir, shelf, id.version, bytes, id.signature, now, told)
  }

  function Told(r: Result<RunReport, FlowError>): Option<bool> {
    if r.Ok? then Some(r.value.cacheWriteError) else None
  }

  function Reported(r: Result<bool, FlowError>): Option<bool> {
    if r.Ok? then Some(r.value) else None
  }

  /** Offer the artifact to the cache. The caller goes on whether or not it is taken. */
  method Stage(host: Host, cache: ArtifactCache?, id: UpdateIdentity, artifact: VerifiedArtifact, now: int)
    returns (failed: bool, ghost entry: Option<CacheEntry>)
    requires CacheValid(host, cache)
    modifies CacheFrame(cache), host`trace
    ensures CacheValid(host, cache) && (cache != null ==> (failed <==> entry.None?)) && (cache == null ==> !failed)
    ensures entry.Some? ==>
      cache != null && Records(host.scheme, cache.gunzip, cache.representation, entry.value, id.version, artifact.bytes, id.signature)
    ensures cache != null && entry.Some? && cache.store.Alone() ==>
      && Landable(old(cache.store.Dir()), cache.ns)
      && Committed(old(cache.store.Dir()), cache.store.Dir(), cache.ns,
                   CacheTypes.Staged(Opened(old(cache.store.Dir()), cache.ns).value.state, entry.value))
    ensures cache != null && cache.Alone() ==>
      cache.Offered(old(cache.store.Dir()), old(cache.blobs.blobs), id.version, artifact.bytes, id.signature, now, Some(failed))
    ensures host.trace == old(host.trace) + if cache != null then [Staged(id.version, artifact.bytes)] else []
  {
    if cache == null {
      return false, None;
    }
    var staged := cache.StagePending(id.version, artifact, id.signature, now);
    host.RecordStage(id.version, artifact.bytes);
    return staged.Err?, if staged.Ok? then Some(staged.value) else None;
  }

  /** A verified artifact goes to the cache, and then, whatever became of that, to the installer. */
  method StageAndInstall(host: Host, id: UpdateIdentity, cache: ArtifactCache?, artifact: VerifiedArtifact, now: int)
    returns (r: Result<bool, FlowError>)
    requires CacheValid(host, cache)
    modifies CacheFrame(cache), host`clock, host`trace
    ensures CacheValid(host, cache) && host.trace == old(host.trace) + Finale(cache != null, id, Some(artifact.bytes))
    ensures cache == null && r.Ok? ==> !r.value
    ensures cache != null && cache.Alone() ==>
      cache.Offered(old(cache.store.Dir()), old(cache.blobs.blobs), id.version, artifact.bytes, id.signature, now, Reported(r))
    ensures r.Err? ==> r == Err(InstallFailed)
    ensures (forall t :: host.installs(t)) ==> r.Ok?
  {
    var failed, _ := Stage(host, cache, id, artifact, now);
    var ok := host.HandOff(artifact);
    return if ok then Ok(failed) else Err(InstallFailed);
  }

  /**
   * The only way to the installer. Bytes that do not verify, or are not the
   * release their signature states, reach neither the cache nor the installer.
   */
  method VerifyAndInstall(host: Host, id: UpdateIdentity, ctx: PlanContext, cache: ArtifactCache?, bytes: Bytes, now: int)
    returns (r: Result<bool, FlowError>, ghost installed: Option<Bytes>)
    requires CacheValid(host, cache)
    modifies CacheFrame(cache), host`clock, host`trace
    ensures CacheValid(host, cache) && host.trace == old(host.trace) + Finale(cache != null, id, installed)
    ensures cache == null && r.Ok? ==> !r.value
    ensures cache != null && cache.Alone() ==>
      CacheLeft(cache, old(cache.store.Dir()), old(cache.blobs.blobs), id, installed, now, Reported(r))
    ensures installed == if Acceptable(host.scheme, ctx, id, bytes) then Some(bytes) else None
    ensures r.Ok? ==> installed == Some(bytes)
    ensures installed.Some? && r.Err? ==> r == Err(InstallFailed)
    ensures installed.Some? && (forall t :: host.installs(t)) ==> r.Ok?
    ensures installed.None? ==>
      r == Err(if Genuine(host.scheme, bytes, id.signature, ctx.pubkey) then RefusedUpdate(ReleaseIdentityRefused) else SignatureFailed)
  {
    match VerifyArtifact(host.scheme, bytes, id.signature, ctx.pubkey) {
      case Err(e) =>
        VerifiesExactly(host.scheme, bytes, id.signature, ctx.pubkey, VerifiedArtifact(bytes, Legacy));
        return Err(Classify(e)), None;
      case Ok(artifact) =>
        VerifiedIsAdvised(host.scheme, bytes, id.signature, ctx.pubkey);
        VerifiesExactly(host.scheme, bytes, id.signature, ctx.pubkey, artifact);
        if !CheckReleaseIdentity(host.scheme, ctx, id, artifact) {
          return Err(RefusedUpdate(ReleaseIdentityRefused)), None;
        }
        r := StageAndInstall(host, id, cache, artifact, now);
        return r, Some(bytes);
    }
  }

  /** The fetches of the full path: the compressed copy when it is worth it, the installer when that did not do. */
  ghost predicate FullFetches(host: Host, id: UpdateIdentity, ctx: PlanContext, fetches: seq<Event>) {
    var copy := CompressedFullFor(host, id);
    var first := if copy.Some? && WorthFetching(copy.value.0, copy.value.1, ctx.limits) then [Fetched(copy.value.0.url, None)] else [];
    fetches == [] || fetches == first || fetches == first + [Fetched(id.downloadUrl, None)]
  }

  /** The published compressed copy is worth fetching, is what the server sends, and decodes to `bytes`. */
  ghost predicate CopyServes(host: Host, id: UpdateIdentity, ctx: PlanContext, copied: Bytes, bytes: Bytes) {
    && CompressedFullFor(host, id).Some?
    && var (copy, target) := CompressedFullFor(host, id).value;
    && WorthFetching(copy, target, ctx.limits) && host.reliable && Meets(host, bytes, target)
    && (forall t :: host.server(t, copy.url) == Some(copied))
    && |copied| == copy.size && copy.blake3 == ToHex(host.scheme.hash(copied))
    && Rebuilt(host.codec, [], copied, Some(target.size)) == Some(bytes)
  }

  /** Both full paths: obtain the whole installer, compressed if possible. */
  method ObtainFull(host: Host, id: UpdateIdentity, ctx: PlanContext, ghost copied: Bytes, ghost bytes: Bytes)
    returns (r: Result<(Bytes, Option<nat>), FlowError>, ghost fetches: seq<Event>)
    modifies host`clock, host`trace
    ensures host.trace == old(host.trace) + fetches && FullFetches(host, id, ctx, fetches)
    ensures r.Ok? ==> (r.value.1.None? ==> |fetches| > 0 && fetches[|fetches| - 1] == Fetched(id.downloadUrl, None)
                                           && exists t :: host.server(t, id.downloadUrl) == Some(r.value.0))
    ensures r.Ok? && r.value.1.Some? ==>
      && CompressedFullFor(host, id).Some?
      && var (copy, target) := CompressedFullFor(host, id).value;
      && r.value.1 == Some(copy.size) && Meets(host, r.value.0, target) && copy.size < |r.value.0|
      && fetches == [Fetched(copy.url, None)]
    ensures CopyServes(host, id, ctx, copied, bytes) ==> r.Ok? && r.value.1.Some? && r.value.0 == bytes
    ensures r.Err? ==> r.error.IoFailed? || r.error.FetchFailed?
    ensures host.reliable && (forall t :: host.server(t, id.downloadUrl).Some?) ==> r.Ok?
  {
    fetches := [];
    var space := host.OpenWorkspace();
    if space.None? {
      return Err(IoFailed), [];
    }
    var ws := space.value;
    var file, compressed := FullArtifact, None;
    var published := CompressedFullFor(host, id);
    if published.Some? {
      var (copy, target) := published.value;
      var rebuilt := FetchCompressedFull(host, ws, copy, target, ctx.limits, copied, bytes);
      fetches := if WorthFetching(copy, target, ctx.limits) then [Fetched(copy.url, None)] else [];
      if rebuilt {
        file, compressed := RebuiltFull, Some(copy.size);
      }
    }
    if compressed.None? {
      var fetched := host.Fetch(id.downloadUrl, ws, FullArtifact, None);
      fetches := fetches + [Fetched(id.downloadUrl, None)];
      if !fetched {
        return Err(FetchFailed), fetches;
      }
    }
    var artifact := ws.Read(file);
    if artifact.None? {
      return Err(IoFailed), fetches;
    }
    return Ok((artifact.value, compressed)), fetches;
  }

  /** `bytes` are the release, nothing else has their digest, and the installer accepts what it is handed. */
  ghost predicate Deliverable(host: Host, id: UpdateIdentity, ctx: PlanContext, bytes: Bytes) {
    && host.reliable && Acceptable(host.scheme, ctx, id, bytes) && Unrivalled(host.scheme.hash, bytes)
    && forall t :: host.installs(t)
  }

  /** The plan is neither settled as done nor refused, early or for a tar layer the signature contradicts. */
  ghost predicate Proceeds(host: Host, id: UpdateIdentity, ctx: PlanContext, cache: ArtifactCache?) {
    match Screen(host, id, ctx)
    case Settled(source) => source.Full?
    case Eligible(entry, signed) =>
      var offer := TarOffer(cache, ctx, entry, id.currentVersion);
      offer.Some? ==> offer.value.0.representation == signed.representation
  }

  /** A delta of a plan that proceeds is the artifact everything else published for it gives. */
  lemma DeltaIsIt(host: Host, id: UpdateIdentity, ctx: PlanContext, cache: ArtifactCache?, source: UpdateSource, artifact: Bytes,
                  tarFetches: seq<Event>, directFetches: seq<Event>, w: Prospect)
    requires Planned(host, id, ctx, Screen(host, id, ctx), TarOfferOf(host, id, ctx, cache), source, artifact, tarFetches, directFetches)
    ensures Unrivalled(host.scheme.hash, w.result) && Screen(host, id, ctx).Eligible? && (source.TarDelta? || source.Delta?) ==>
      var entry := Screen(host, id, ctx).entry;
      Matches(host, w.result, entry.targetInstallerBlake3, entry.targetInstallerSize) ==> artifact == w.result
    ensures Unrivalled(host.scheme.hash, w.result) && CopyServes(host, id, ctx, w.patch, w.result) && Proceeds(host, id, ctx, cache) ==>
      source.Full? || ((source.TarDelta? || source.Delta?) && artifact == w.result)
  {
    if CopyServes(host, id, ctx, w.patch, w.result) && Screen(host, id, ctx).Eligible? {
      CopyIsOfEntry(host, id, ctx, w.patch, w.result);
    }
  }

  /** The copy decodes to what the entry a delta would be tried against describes. */
  lemma CopyIsOfEntry(host: Host, id: UpdateIdentity, ctx: PlanContext, copied: Bytes, bytes: Bytes)
    requires CopyServes(host, id, ctx, copied, bytes) && Screen(host, id, ctx).Eligible?
    ensures var entry := Screen(host, id, ctx).entry;
            Matches(host, bytes, entry.targetInstallerBlake3, entry.targetInstallerSize)
  {
  }

  /**
   * One run of an update, from plan to hand-over.
   *
   * At most one artifact is ever handed to the installer, last of all events.
   * It verifies under the configured key, is the release its signature states,
   * and its version is strictly above the installed one. A refused or settled
   * plan fetches, stages and installs nothing. A delta outcome means the
   * signature carries an identity and the artifact has the declared digest and
   * size; a release without one only ever reaches the two full paths.
   */
  method RunUpdate(host: Host, id: UpdateIdentity, ctx: PlanContext, cache: ArtifactCache?, now: int,
                   ghost w: Prospect)
    returns (r: Result<RunReport, FlowError>, ghost fetches: seq<Event>, ghost installed: Option<Bytes>)
    requires CacheValid(host, cache)
    modifies CacheFrame(cache), host`clock, host`trace
    ensures CacheValid(host, cache) && host.trace == old(host.trace) + (fetches + Finale(cache != null, id, installed))
    ensures cache == null && r.Ok? ==> !r.value.cacheWriteError
    ensures cache != null && cache.Alone() ==>
      CacheAfter(cache, old(cache.store.Dir()), old(cache.blobs.blobs), id, installed, now, Told(r))
    ensures FollowsPolicy(host, id, fetches, installed, r)
    ensures Sound(host, id, ctx, Screen(host, id, ctx), fetches, installed, r)
    ensures old(TarReady(host, id, ctx, cache, w)) && Acceptable(host.scheme, ctx, id, w.result)
            && (forall t :: host.installs(t)) ==>
      r.Ok? && r.value.outcome.InstalledFromTarDelta? && installed == Some(w.result)
    ensures Deliverable(host, id, ctx, w.result) && old(DirectReady(host, id, ctx, cache, w)) ==>
      && r.Ok? && installed == Some(w.result)
      && (r.value.outcome.InstalledFromDelta? || (TarOfferOf(host, id, ctx, cache).Some? && r.value.outcome.InstalledFromTarDelta?))
    ensures Deliverable(host, id, ctx, w.result) && CopyServes(host, id, ctx, w.patch, w.result) && Proceeds(host, id, ctx, cache) ==>
      r.Ok? && installed == Some(w.result) && r.value.outcome != InstalledFromFullDownload
  {
    ghost var source, artifact, tarFetches, directFetches, more;
    r, installed, source, artifact, tarFetches, directFetches, more := PlanAndAct(host, id, ctx, cache, now, w);
    fetches := (tarFetches + directFetches) + more;
    if cache != null && cache.Alone() {
      ReadMakesNoDifference(cache, old(cache.store.Dir()), old(cache.blobs.blobs), id, installed, now, Told(r));
    }
    Gather(old(host.trace), tarFetches + directFetches, more, Finale(cache != null, id, installed));
    if Screen(host, id, ctx).Eligible? {
      OfferedExactly(cache, ctx, Screen(host, id, ctx).entry, id.currentVersion);
    }
    RunHolds(host, id, ctx, TarOfferOf(host, id, ctx, cache), source, artifact, tarFetches, directFetches, more, installed, r);
  }

  /** The run itself, with what the plan and the acting on it came to. */
  method PlanAndAct(host: Host, id: UpdateIdentity, ctx: PlanContext, cache: ArtifactCache?, now: int, ghost w: Prospect)
    returns (r: Result<RunReport, FlowError>, ghost installed: Option<Bytes>, ghost source: UpdateSource, ghost artifact: Bytes,
             ghost tarFetches: seq<Event>, ghost directFetches: seq<Event>, ghost more: seq<Event>)
    requires CacheValid(host, cache)
    modifies CacheFrame(cache), host`clock, host`trace
    ensures CacheValid(host, cache)
    ensures host.trace == (old(host.trace) + (tarFetches + directFetches)) + (more + Finale(cache != null, id, installed))
    ensures cache == null && r.Ok? ==> !r.value.cacheWriteError
    ensures cache != null && cache.Alone() ==>
      CacheRead(cache, old(cache.store.Dir()), old(cache.blobs.blobs), id, installed, now, Told(r))
    ensures Planned(host, id, ctx, Screen(host, id, ctx), TarOfferOf(host, id, ctx, cache), source, artifact, tarFetches, directFetches)
    ensures Concluded(host, id, ctx, source, artifact, more, installed, r)
    ensures old(TarReady(host, id, ctx, cache, w)) && Acceptable(host.scheme, ctx, id, w.result)
            && (forall t :: host.installs(t)) ==>
      r.Ok? && r.value.outcome.InstalledFromTarDelta? && installed == Some(w.result)
    ensures Deliverable(host, id, ctx, w.result) && old(DirectReady(host, id, ctx, cache, w)) ==>
      && r.Ok? && installed == Some(w.result)
      && (r.value.outcome.InstalledFromDelta? || (TarOfferOf(host, id, ctx, cache).Some? && r.value.outcome.InstalledFromTarDelta?))
    ensures Deliverable(host, id, ctx, w.result) && CopyServes(host, id, ctx, w.patch, w.result) && Proceeds(host, id, ctx, cache) ==>
      r.Ok? && installed == Some(w.result) && r.value.outcome != InstalledFromFullDownload
  {
    var plan;
    plan, tarFetches, directFetches := PlanUpdate(host, id, ctx, cache, now, w);
    source, artifact := plan, if plan.TarDelta? || plan.Delta? then plan.space.files[Artifact] else [];
    DeltaIsIt(host, id, ctx, cache, plan, artifact, tarFetches, directFetches, w);
    r, more, installed := Conclude(host, id, ctx, cache, plan, now, w.patch, w.result);
  }

  /** The cache perhaps read, and then offered what was installed, if anything was. */
  ghost predicate CacheRead(cache: ArtifactCache, dir: Directory, shelf: map<string, Node>, id: UpdateIdentity,
                            installed: Option<Bytes>, now: int, told: Option<bool>)
    reads cache.store, cache.blobs
  {
    exists d, left :: SeenAs(dir, shelf, cache.ns, now, d, left) && CacheLeft(cache, d, left, id, installed, now, told)
  }

  /**
   * The cache after a whole run. Having been read first makes no difference
   * unless there was something to reset or the numbers end.
   */
  ghost predicate CacheAfter(cache: ArtifactCache, dir: Directory, shelf: map<string, Node>, id: UpdateIdentity,
                             installed: Option<Bytes>, now: int, told: Option<bool>)
    reads cache.store, cache.blobs
  {
    && CacheRead(cache, dir, shelf, id, installed, now, told)
    && (installed.Some? && Ordinary(dir, cache.ns) ==>
          cache.Offered(dir, shelf, id.version, installed.value, id.signature, now, told))
  }

  lemma ReadMakesNoDifference(cache: ArtifactCache, dir: Directory, shelf: map<string, Node>, id: UpdateIdentity,
                              installed: Option<Bytes>, now: int, told: Option<bool>)
    requires CacheRead(cache, dir, shelf, id, installed, now, told)
    ensures CacheAfter(cache, dir, shelf, id, installed, now, told)
  {
    if installed.Some? && Ordinary(dir, cache.ns) {
      var d, left :| SeenAs(dir, shelf, cache.ns, now, d, left) && CacheLeft(cache, d, left, id, installed, now, told);
      cache.OfferedFromStart(dir, shelf, d, left, id.version, installed.value, id.signature, now, told);
    }
  }

  /** Nothing is fetched, and nothing reaches the installer or the report but this answer. */
  ghost predicate Nothing(fetches: seq<Event>, installed: Option<Bytes>) {
    fetches == [] && installed.None?
  }

  /**
   * What a refusing document or the two versions decide by themselves, whatever
   * else is there: an update is only ever an upgrade.
   */
  ghost predicate FollowsPolicy(host: Host, id: UpdateIdentity, fetches: seq<Event>, installed: Option<Bytes>,
                                r: Result<RunReport, FlowError>)
  {
    match Resolved(host, id)
    case Err(reason) => r == Err(RefusedUpdate(reason)) && Nothing(fetches, installed)
    case Ok(_) =>
      match (ParseVersion(id.currentVersion), ParseVersion(id.version))
      case (None, _) => r == Err(RefusedUpdate(UncomparableVersion(Installed, id.currentVersion))) && Nothing(fetches, installed)
      case (_, None) => r == Err(RefusedUpdate(UncomparableVersion(Target, id.version))) && Nothing(fetches, installed)
      case (Some(current), Some(target)) =>
        var rise := host.precedence(target) - host.precedence(current);
        if rise == 0.0 then r.Ok? && r.value.outcome == NothingToDo && Nothing(fetches, installed)
        else if rise < 0.0 then r == Err(RefusedUpdate(Downgrade(id.currentVersion, id.version))) && Nothing(fetches, installed)
        else r.Ok? ==> r.value.outcome != NothingToDo && installed.Some?
  }

  lemma SettledFollowsPolicy(host: Host, id: UpdateIdentity, source: UpdateSource, fetches: seq<Event>, installed: Option<Bytes>,
                             r: Result<RunReport, FlowError>)
    requires Ruled(host, id, source)
    requires match source
             case AlreadyInstalled => r.Ok? && r.value.outcome == NothingToDo && Nothing(fetches, installed)
             case RefusedSource(reason) => r == Err(RefusedUpdate(reason)) && Nothing(fetches, installed)
             case _ => r.Ok? ==> r.value.outcome != NothingToDo && installed.Some?
    ensures FollowsPolicy(host, id, fetches, installed, r)
  {
  }

  lemma NewerFollowsPolicy(host: Host, id: UpdateIdentity, fetches: seq<Event>, installed: Option<Bytes>,
                           r: Result<RunReport, FlowError>)
    requires Resolved(host, id).Ok? && Newer(host.precedence, id.currentVersion, id.version)
    requires r.Ok? ==> r.value.outcome != NothingToDo && installed.Some?
    ensures FollowsPolicy(host, id, fetches, installed, r)
  {
  }

  lemma SoundFollowsPolicy(host: Host, id: UpdateIdentity, ctx: PlanContext, screening: Screening, fetches: seq<Event>,
                           installed: Option<Bytes>, r: Result<RunReport, FlowError>)
    requires Sound(host, id, ctx, screening, fetches, installed, r)
    requires match screening
             case Settled(source) => Ruled(host, id, source)
             case Eligible(_, _) => Resolved(host, id).Ok? && Newer(host.precedence, id.currentVersion, id.version)
    requires screening.Eligible? && r.Ok? ==> r.value.outcome != NothingToDo
    ensures FollowsPolicy(host, id, fetches, installed, r)
  {
    match screening
    case Settled(source) => SettledFollowsPolicy(host, id, source, fetches, installed, r);
    case Eligible(_, _) => NewerFollowsPolicy(host, id, fetches, installed, r);
  }

  ghost predicate AllFetched(events: seq<Event>) {
    forall i :: 0 <= i < |events| ==> events[i].Fetched?
  }

  lemma Gather(before: seq<Event>, plan: seq<Event>, more: seq<Event>, finale: seq<Event>)
    ensures ((before + plan) + (more + finale)) == before + ((plan + more) + finale)
    ensures AllFetched(plan) && AllFetched(more) ==> AllFetched(plan + more)
  {
  }

  /**
   * What every run keeps. Only fetches precede an install; what is installed
   * verifies, is the release its signature states, and is strictly newer; a
   * settled or refused plan does nothing; a delta outcome is only reached with
   * an authenticated identity, and installs what the manifest declares.
   */
  ghost predicate Sound(host: Host, id: UpdateIdentity, ctx: PlanContext, screening: Screening,
                        fetches: seq<Event>, installed: Option<Bytes>, r: Result<RunReport, FlowError>)
  {
    && |fetches| <= 4 && AllFetched(fetches)
    && (installed.Some? ==>
          && Acceptable(host.scheme, ctx, id, installed.value) && Authentic(host.scheme, ctx, id, installed.value)
          && Newer(host.precedence, id.currentVersion, id.version))
    && (r.Ok? ==> (installed.None? <==> r.value.outcome == NothingToDo))
    && (installed.Some? && r.Err? ==> r == Err(InstallFailed))
    && match screening
       case Settled(AlreadyInstalled) => r == Ok(RunReport(NothingToDo, false, None)) && fetches == [] && installed.None?
       case Settled(RefusedSource(reason)) => r == Err(RefusedUpdate(reason)) && fetches == [] && installed.None?
       case Settled(_) => FullFetches(host, id, ctx, fetches) && (r.Ok? ==> FullReport(host, id, installed, r.value))
       case Eligible(entry, _) =>
         r.Ok? ==>
           if r.value.outcome.FullPath() then FullReport(host, id, installed, r.value)
           else DeltaReport(host, id, entry, installed, r.value)
  }

  /** A full outcome reports the bytes it cost, and what the compressed copy saved. */
  ghost predicate FullReport(host: Host, id: UpdateIdentity, installed: Option<Bytes>, report: RunReport) {
    && installed.Some?
    && match report.outcome
       case InstalledFromCompressedFull(downloaded, saved) =>
         && CompressedFullFor(host, id).Some? && downloaded == CompressedFullFor(host, id).value.0.size
         && downloaded < saved == |installed.value| && report.fullDownloaded.None?
       case InstalledFromFullDownload => report.fullDownloaded == Some(|installed.value|)
       case _ => false
  }

  /** A delta outcome reports the size of the patch published from the running version, and the size of what it spared. */
  ghost predicate DeltaReport(host: Host, id: UpdateIdentity, entry: DeltaPlatform, installed: Option<Bytes>, report: RunReport) {
    && installed.Some? && Matches(host, installed.value, entry.targetInstallerBlake3, entry.targetInstallerSize)
    && report.fullDownloaded.None?
    && match report.outcome
       case InstalledFromTarDelta(downloaded, saved) =>
         && entry.tarLayer.Some? && id.currentVersion in entry.tarLayer.value.patches
         && downloaded == entry.tarLayer.value.patches[id.currentVersion].patchSize && saved == |installed.value|
       case InstalledFromDelta(downloaded, saved) =>
         && id.currentVersion in entry.patches
         && downloaded == entry.patches[id.currentVersion].patchSize && saved == |installed.value|
       case _ => false
  }

  /** What acting on a plan establishes; `artifact` is what a delta left in its workspace. */
  ghost predicate Concluded(host: Host, id: UpdateIdentity, ctx: PlanContext, source: UpdateSource, artifact: Bytes,
                            fetches: seq<Event>, installed: Option<Bytes>, r: Result<RunReport, FlowError>)
  {
    && (installed.Some? ==> Acceptable(host.scheme, ctx, id, installed.value))
    && (installed.Some? && r.Err? ==> r == Err(InstallFailed))
    && (r.Ok? ==> (installed.None? <==> r.value.outcome == NothingToDo))
    && match source
       case AlreadyInstalled => r == Ok(RunReport(NothingToDo, false, None)) && fetches == [] && installed.None?
       case RefusedSource(reason) => r == Err(RefusedUpdate(reason)) && fetches == [] && installed.None?
       case Full(_, _, _) => FullFetches(host, id, ctx, fetches) && (r.Ok? ==> FullReport(host, id, installed, r.value))
       case _ =>
         && fetches == [] && (installed.Some? ==> installed == Some(artifact))
         && (r.Ok? ==> r.value.outcome == DeltaOutcome(source) && r.value.fullDownloaded.None?)
  }

  lemma PlannedAreFetches(host: Host, id: UpdateIdentity, ctx: PlanContext, screening: Screening, offer: Option<(TarLayer, TarPatch)>,
                          source: UpdateSource, artifact: Bytes, tarFetches: seq<Event>, directFetches: seq<Event>)
    requires Planned(host, id, ctx, screening, offer, source, artifact, tarFetches, directFetches)
    ensures |tarFetches + directFetches| <= 2 && AllFetched(tarFetches + directFetches)
  {
  }

  lemma ConcludedAreFetches(host: Host, id: UpdateIdentity, ctx: PlanContext, source: UpdateSource, artifact: Bytes,
                            fetches: seq<Event>, installed: Option<Bytes>, r: Result<RunReport, FlowError>)
    requires Concluded(host, id, ctx, source, artifact, fetches, installed, r)
    ensures |fetches| <= 2 && AllFetched(fetches)
  {
  }

  lemma RunIsSound(host: Host, id: UpdateIdentity, ctx: PlanContext, screening: Screening, offer: Option<(TarLayer, TarPatch)>,
                   source: UpdateSource, artifact: Bytes, tarFetches: seq<Event>, directFetches: seq<Event>,
                   more: seq<Event>, installed: Option<Bytes>, r: Result<RunReport, FlowError>)
    requires screening.Settled? ==> !screening.source.TarDelta? && !screening.source.Delta?
    requires screening.Eligible? || screening.source.Full? ==> Newer(host.precedence, id.currentVersion, id.version)
    requires Planned(host, id, ctx, screening, offer, source, artifact, tarFetches, directFetches)
    requires screening.Eligible? ==> Published(screening.entry, id.currentVersion, offer)
    requires Concluded(host, id, ctx, source, artifact, more, installed, r)
    ensures Sound(host, id, ctx, screening, (tarFetches + directFetches) + more, installed, r)
  {
    if installed.Some? {
      AcceptableExactly(host.scheme, ctx, id, installed.value);
    }
    PlannedAreFetches(host, id, ctx, screening, offer, source, artifact, tarFetches, directFetches);
    ConcludedAreFetches(host, id, ctx, source, artifact, more, installed, r);
    match screening
    case Settled(_) => assert ([] + []) + more == more;
    case Eligible(entry, signed) =>
      DeltaIsReported(host, id, ctx, entry, signed, offer, source, artifact, tarFetches, directFetches, more, installed, r);
  }

  lemma DeltaIsReported(host: Host, id: UpdateIdentity, ctx: PlanContext, entry: DeltaPlatform, signed: ReleaseIdentity,
                        offer: Option<(TarLayer, TarPatch)>, source: UpdateSource, artifact: Bytes,
                        tarFetches: seq<Event>, directFetches: seq<Event>, more: seq<Event>, installed: Option<Bytes>,
                        r: Result<RunReport, FlowError>)
    requires Planned(host, id, ctx, Eligible(entry, signed), offer, source, artifact, tarFetches, directFetches)
    requires Published(entry, id.currentVersion, offer) && Concluded(host, id, ctx, source, artifact, more, installed, r)
    ensures r.Ok? ==>
      if r.value.outcome.FullPath() then FullReport(host, id, installed, r.value)
      else DeltaReport(host, id, entry, installed, r.value)
  {
  }

  lemma RunHolds(host: Host, id: UpdateIdentity, ctx: PlanContext, offer: Option<(TarLayer, TarPatch)>,
                 source: UpdateSource, artifact: Bytes, tarFetches: seq<Event>, directFetches: seq<Event>,
                 more: seq<Event>, installed: Option<Bytes>, r: Result<RunReport, FlowError>)
    requires Planned(host, id, ctx, Screen(host, id, ctx), offer, source, artifact, tarFetches, directFetches)
    requires Screen(host, id, ctx).Eligible? ==> Published(Screen(host, id, ctx).entry, id.currentVersion, offer)
    requires Concluded(host, id, ctx, source, artifact, more, installed, r)
    ensures Sound(host, id, ctx, Screen(host, id, ctx), (tarFetches + directFetches) + more, installed, r)
    ensures FollowsPolicy(host, id, (tarFetches + directFetches) + more, installed, r)
  {
    ScreeningAllows(host, id, ctx);
    RunIsSound(host, id, ctx, Screen(host, id, ctx), offer, source, artifact, tarFetches, directFetches, more, installed, r);
    ScreenRules(host, id, ctx);
    PlannedMakesProgress(host, id, ctx, offer, source, artifact, tarFetches, directFetches);
    SoundFollowsPolicy(host, id, ctx, Screen(host, id, ctx), (tarFetches + directFetches) + more, installed, r);
  }

  lemma PlannedMakesProgress(host: Host, id: UpdateIdentity, ctx: PlanContext, offer: Option<(TarLayer, TarPatch)>,
                             source: UpdateSource, artifact: Bytes, tarFetches: seq<Event>, directFetches: seq<Event>)
    requires Planned(host, id, ctx, Screen(host, id, ctx), offer, source, artifact, tarFetches, directFetches)
    ensures Screen(host, id, ctx).Eligible? ==> !source.AlreadyInstalled?
  {
  }

  lemma ScreeningAllows(host: Host, id: UpdateIdentity, ctx: PlanContext)
    ensures var s := Screen(host, id, ctx);
            && (s.Settled? ==> !s.source.TarDelta? && !s.source.Delta?)
            && (s.Eligible? || s.source.Full? ==> Newer(host.precedence, id.currentVersion, id.version))
  {
    if Screen(host, id, ctx).Eligible? {
      EligibleMeans(host, id, ctx);
    } else if Screen(host, id, ctx).source.Full? {
      FullMeansNewer(host, id, ctx);
    }
  }

  /** Act on the plan. */
  method Conclude(host: Host, id: UpdateIdentity, ctx: PlanContext, cache: ArtifactCache?, source: UpdateSource, now: int,
                  ghost copied: Bytes, ghost bytes: Bytes)
    returns (r: Result<RunReport, FlowError>, ghost fetches: seq<Event>, ghost installed: Option<Bytes>)
    requires CacheValid(host, cache)
    requires source.TarDelta? || source.Delta? ==> source.space.Valid() && Artifact in source.space.files
    modifies CacheFrame(cache), host`clock, host`trace
    ensures CacheValid(host, cache) && host.trace == old(host.trace) + (fetches + Finale(cache != null, id, installed))
    ensures cache == null && r.Ok? ==> !r.value.cacheWriteError
    ensures cache != null && cache.Alone() ==>
      CacheLeft(cache, old(cache.store.Dir()), old(cache.blobs.blobs), id, installed, now, Told(r))
    ensures Concluded(host, id, ctx, source, old(if source.TarDelta? || source.Delta? then source.space.files[Artifact] else []),
                      fetches, installed, r)
    ensures source.TarDelta? || source.Delta? ==>
      (&& source.space.reliable && Acceptable(host.scheme, ctx, id, old(source.space.files[Artifact]))
       && (forall t :: host.installs(t))
       ==> r.Ok? && r.value.outcome == DeltaOutcome(source) && installed == Some(old(source.space.files[Artifact])))
    ensures source.Full? && CopyServes(host, id, ctx, copied, bytes) && Deliverable(host, id, ctx, bytes) ==>
      r.Ok? && r.value.outcome.InstalledFromCompressedFull? && installed == Some(bytes)
  {
    match source {
      case AlreadyInstalled =>
        return Ok(RunReport(NothingToDo, false, None)), [], None;
      case RefusedSource(reason) =>
        return Err(RefusedUpdate(reason)), [], None;
      case Full(_, _, _) =>
        r, fetches, installed := RunFull(host, id, ctx, cache, now, copied, bytes);
      case _ =>
        var done;
        done, installed := InstallRebuilt(host, id, ctx, cache, source.space, now);
        fetches := [];
        r := match done case Err(error) => Err(error) case Ok(failed) => Ok(RunReport(DeltaOutcome(source), failed, None));
    }
  }

  function DeltaOutcome(source: UpdateSource): Outcome
    requires source.TarDelta? || source.Delta?
  {
    match source
    case TarDelta(_, _, downloaded, would) => InstalledFromTarDelta(downloaded, would)
    case Delta(_, _, downloaded, would) => InstalledFromDelta(downloaded, would)
  }

  /** The artifact a delta left in its workspace: read, verified, installed. */
  method InstallRebuilt(host: Host, id: UpdateIdentity, ctx: PlanContext, cache: ArtifactCache?, space: Workspace, now: int)
    returns (r: Result<bool, FlowError>, ghost installed: Option<Bytes>)
    requires CacheValid(host, cache) && Artifact in space.files
    modifies CacheFrame(cache), host`clock, host`trace
    ensures CacheValid(host, cache) && host.trace == old(host.trace) + Finale(cache != null, id, installed)
    ensures cache == null && r.Ok? ==> !r.value
    ensures cache != null && cache.Alone() ==>
      CacheLeft(cache, old(cache.store.Dir()), old(cache.blobs.blobs), id, installed, now, Reported(r))
    ensures installed.Some? ==> installed == Some(old(space.files[Artifact])) && Acceptable(host.scheme, ctx, id, installed.value)
    ensures r.Ok? ==> installed.Some?
    ensures installed.Some? && r.Err? ==> r == Err(InstallFailed)
    ensures space.reliable && Acceptable(host.scheme, ctx, id, old(space.files[Artifact])) && (forall t :: host.installs(t)) ==>
      r.Ok? && installed == Some(old(space.files[Artifact]))
  {
    var bytes := space.Read(Artifact);
    if bytes.None? {
      return Err(IoFailed), None;
    }
    r, installed := VerifyAndInstall(host, id, ctx, cache, bytes.value, now);
  }

  /** The full paths: obtain, verify, install. */
  method RunFull(host: Host, id: UpdateIdentity, ctx: PlanContext, cache: ArtifactCache?, now: int,
                 ghost copied: Bytes, ghost full: Bytes)
    returns (r: Result<RunReport, FlowError>, ghost fetches: seq<Event>, ghost installed: Option<Bytes>)
    requires CacheValid(host, cache)
    modifies CacheFrame(cache), host`clock, host`trace
    ensures CacheValid(host, cache) && host.trace == old(host.trace) + (fetches + Finale(cache != null, id, installed))
    ensures cache == null && r.Ok? ==> !r.value.cacheWriteError
    ensures cache != null && cache.Alone() ==>
      CacheLeft(cache, old(cache.store.Dir()), old(cache.blobs.blobs), id, installed, now, Told(r))
    ensures FullFetches(host, id, ctx, fetches)
    ensures installed.Some? ==> Acceptable(host.scheme, ctx, id, installed.value)
    ensures installed.Some? && r.Err? ==> r == Err(InstallFailed)
    ensures r.Ok? ==> FullReport(host, id, installed, r.value)
    ensures CopyServes(host, id, ctx, copied, full) && Deliverable(host, id, ctx, full) ==>
      r.Ok? && r.value.outcome.InstalledFromCompressedFull? && installed == Some(full)
  {
    installed := None;
    var obtained;
    obtained, fetches := ObtainFull(host, id, ctx, copied, full);
    if obtained.Err? {
      return Err(obtained.error), fetches, None;
    }
    r, installed := InstallWhole(host, id, ctx, cache, obtained.value.0, obtained.value.1, now);
    if r.Ok? {
      WholeIsReported(host, id, obtained.value.0, obtained.value.1, r.value);
    }
  }

  lemma WholeIsReported(host: Host, id: UpdateIdentity, bytes: Bytes, compressed: Option<nat>, report: RunReport)
    requires compressed.Some? ==>
      && CompressedFullFor(host, id).Some?
      && compressed.value == CompressedFullFor(host, id).value.0.size < |bytes|
    requires Whole(bytes, compressed, report)
    ensures FullReport(host, id, Some(bytes), report)
  {
  }

  /** The report of an installer obtained as `compressed` bytes or as it is. */
  ghost predicate Whole(bytes: Bytes, compressed: Option<nat>, report: RunReport) {
    && report.outcome == (if compressed.Some? then InstalledFromCompressedFull(compressed.value, |bytes|) else InstalledFromFullDownload)
    && report.fullDownloaded == if compressed.Some? then None else Some(|bytes|)
  }

  /** The installer obtained whole, as `compressed` bytes or as it is. */
  method InstallWhole(host: Host, id: UpdateIdentity, ctx: PlanContext, cache: ArtifactCache?, bytes: Bytes, compressed: Option<nat>,
                      now: int)
    returns (r: Result<RunReport, FlowError>, ghost installed: Option<Bytes>)
    requires CacheValid(host, cache)
    modifies CacheFrame(cache), host`clock, host`trace
    ensures CacheValid(host, cache) && host.trace == old(host.trace) + Finale(cache != null, id, installed)
    ensures cache == null && r.Ok? ==> !r.value.cacheWriteError
    ensures cache != null && cache.Alone() ==>
      CacheLeft(cache, old(cache.store.Dir()), old(cache.blobs.blobs), id, installed, now, Told(r))
    ensures installed == if Acceptable(host.scheme, ctx, id, bytes) then Some(bytes) else None
    ensures installed.Some? && r.Err? ==> r == Err(InstallFailed)
    ensures installed.Some? && (forall t :: host.installs(t)) ==> r.Ok?
    ensures r.Ok? ==> installed == Some(bytes) && Whole(bytes, compressed, r.value)
  {
    var done;
    done, installed := VerifyAndInstall(host, id, ctx, cache, bytes, now);
    if done.Err? {
      return Err(done.error), installed;
    }
    match compressed {
      case Some(downloaded) =>
        return Ok(RunReport(InstalledFromCompressedFull(downloaded, |bytes|), done.value, None)), installed;
      case None =>
        return Ok(RunReport(InstalledFromFullDownload, done.value, Some(|bytes|))), installed;
    }
  }

  /**
   * Path independence of installs. Any two runs of one authenticated release
   * that reach the installer, by any of the four ways, with any server answers,
   * cache contents and base files, install the same bytes; those bytes verify
   * under the configured key, and the target is strictly newer.
   */
  lemma RunsInstallTheSame(one: Host, other: Host, id: UpdateIdentity, mine: PlanContext, theirs: PlanContext,
                           fetches: seq<Event>, installed: Option<Bytes>, r: Result<RunReport, FlowError>,
                           fetches': seq<Event>, installed': Option<Bytes>, r': Result<RunReport, FlowError>)
    requires one.scheme == other.scheme
    requires mine.pubkey == theirs.pubkey && mine.appId == theirs.appId && mine.platform == theirs.platform
    requires Sound(one, id, mine, Screen(one, id, mine), fetches, installed, r) && installed.Some?
    requires Unrivalled(one.scheme.hash, installed.value)
    requires Sound(other, id, theirs, Screen(other, id, theirs), fetches', installed', r') && installed'.Some?
    requires AdvisoryBinding(one.scheme, id.signature).Ok? && AdvisoryBinding(one.scheme, id.signature).value.Authenticated?
    ensures installed == installed'
    ensures VerifyArtifact(one.scheme, installed.value, id.signature, mine.pubkey).Ok?
    ensures Newer(one.precedence, id.currentVersion, id.version)
  {
    VerifiedIsAdvised(one.scheme, installed.value, id.signature, mine.pubkey);
    PathIndependence(one.scheme, mine, id, installed.value, installed'.value);
  }

  /** A release whose signature carries no identity only ever reaches the two full paths. */
  lemma LegacyReachesOnlyFull(host: Host, id: UpdateIdentity, ctx: PlanContext,
                              fetches: seq<Event>, installed: Option<Bytes>, r: Result<RunReport, FlowError>)
    requires Sound(host, id, ctx, Screen(host, id, ctx), fetches, installed, r)
    requires AdvisoryBinding(host.scheme, id.signature) == Ok(Legacy)
    ensures installed.Some? && r.Ok? ==> r.value.outcome.FullPath()
    ensures fetches != [] ==> FullFetches(host, id, ctx, fetches)
  {
    if Screen(host, id, ctx).Eligible? {
      EligibleMeans(host, id, ctx);
    }
  }
}
