/** The independent checker, the last gate before publication (crates/delta-release/src/verify.rs). */
module ReleaseChecks {
  import opened Prelude
  import opened CacheTypes
  import opened Hash
  import opened Manifests
  import opened ReleaseIdentities
  import opened Releases
  import opened Signatures
  import opened Text
  import opened UpdateIdentities

  /** What the publisher knows about a release without reading its document. */
  datatype ReleaseUnderTest = ReleaseUnderTest(
    tag: string, appId: string, platform: string, artifact: string, pubkey: string, allowInsecureUrls: bool)

  datatype ReleaseReport = ReleaseReport(
    version: string, platform: string, artifactBlake3: string, artifactSize: nat, identity: string,
    directPatchFrom: seq<string>, tarPatchFrom: seq<string>)

  /** A tag is its version with one optional prefix. */
  function VersionFromTag(tag: string): string {
    match StripPrefix(tag, "app-v")
    case Some(version) => version
    case None =>
      match StripPrefix(tag, "v")
      case Some(version) => version
      case None => tag
  }

  /** Exactly what a tag names: the version after `app-v`, or else after `v`, or else the whole of it. */
  lemma TagNames(tag: string, version: string)
    ensures VersionFromTag(tag) == version <==>
            || tag == "app-v" + version
            || (tag == "v" + version && !("app-v" <= tag))
            || (tag == version && !("app-v" <= tag) && !("v" <= tag))
  {
    if "app-v" <= tag {
      assert tag == "app-v" + tag[5..];
    }
    if "v" <= tag {
      assert tag == "v" + tag[1..];
    }
  }

  /** The keys of a map in order, each once. */
  ghost predicate Listing(s: seq<string>, keys: set<string>) {
    && (forall k :: k in s <==> k in keys)
    && (forall i, j :: 0 <= i < j < |s| ==> LexLe(s[i], s[j]) && s[i] != s[j])
  }

  /** Check each patch's URL in key order, collecting the versions. */
  method CollectVersions(tools: Tools, urls: map<string, string>, insecure: bool) returns (r: Option<seq<string>>)
    ensures r.Some? <==> forall k :: k in urls ==> tools.publishable(urls[k], insecure)
    ensures r.Some? ==> Listing(r.value, urls.Keys)
  {
    var rest := urls.Keys;
    var found: seq<string> := [];
    while rest != {}
      invariant rest <= urls.Keys
      invariant forall k :: k in urls.Keys - rest ==> tools.publishable(urls[k], insecure)
      invariant Listing(found, urls.Keys - rest)
      invariant forall i, k :: 0 <= i < |found| && k in rest ==> LexLe(found[i], k)
    {
      var from := Least(rest);
      if !tools.publishable(urls[from], insecure) {
        return None;
      }
      found := found + [from];
      rest := rest - {from};
    }
    assert urls.Keys - {} == urls.Keys;
    return Some(found);
  }

  /** What the delta metadata must say. */
  predicate EntryPublishable(tools: Tools, entry: DeltaPlatform, identity: ReleaseIdentity, blake3: string, size: nat, insecure: bool) {
    && entry.targetInstallerBlake3 == blake3 && entry.targetInstallerSize == size
    && (forall from :: from in entry.patches ==> tools.publishable(entry.patches[from].patchUrl, insecure))
    && (entry.compressedFull.Some? ==> tools.publishable(entry.compressedFull.value.url, insecure))
    && (entry.tarLayer.Some? ==>
          && entry.tarLayer.value.representation == identity.representation
          && forall from :: from in entry.tarLayer.value.patches ==>
               tools.publishable(entry.tarLayer.value.patches[from].patchUrl, insecure))
  }

  /** Everything the checker compares, against facts outside the document. */
  ghost predicate Publishable(tools: Tools, files: map<string, Bytes>, m: Manifest, release: ReleaseUnderTest) {
    && m.version == VersionFromTag(release.tag) && Valid(m) && release.platform in m.platforms
    && var tauri := m.platforms[release.platform];
    && tools.publishable(tauri.url, release.allowInsecureUrls) && release.artifact in files
    && var bytes := files[release.artifact];
    var verified := VerifyArtifact(tools.scheme, bytes, tauri.signature, release.pubkey);
    && verified.Ok? && verified.value.binding.Authenticated?
    && var identity := verified.value.binding.identity;
    var blake3 := ToHex(tools.scheme.hash(bytes));
    && identity.Check(release.appId, m.version, release.platform, blake3, |bytes|).Ok?
    && (m.delta.Some? && release.platform in m.delta.value.platforms ==>
          EntryPublishable(tools, m.delta.value.platforms[release.platform], identity, blake3, |bytes|, release.allowInsecureUrls))
  }

  method CheckEntry(tools: Tools, entry: DeltaPlatform, identity: ReleaseIdentity, blake3: string, size: nat, insecure: bool)
    returns (r: Option<(seq<string>, seq<string>)>)
    ensures r.Some? <==> EntryPublishable(tools, entry, identity, blake3, size, insecure)
    ensures r.Some? ==>
      && Listing(r.value.0, entry.patches.Keys)
      && Listing(r.value.1, if entry.tarLayer.Some? then entry.tarLayer.value.patches.Keys else {})
  {
    if entry.targetInstallerBlake3 != blake3 || entry.targetInstallerSize != size {
      return None;
    }
    var urls := map from | from in entry.patches :: entry.patches[from].patchUrl;
    assert urls.Keys == entry.patches.Keys;
    var direct := CollectVersions(tools, urls, insecure);
    if direct.None? {
      return None;
    }
    if entry.compressedFull.Some? && !tools.publishable(entry.compressedFull.value.url, insecure) {
      return None;
    }
    match entry.tarLayer {
      case None => return Some((direct.value, []));
      case Some(layer) =>
        if identity.CheckRepresentation(layer.representation).Err? {
          return None;
        }
        var tarUrls := map from | from in layer.patches :: layer.patches[from].patchUrl;
        assert tarUrls.Keys == layer.patches.Keys;
        var tars := CollectVersions(tools, tarUrls, insecure);
        return if tars.Some? then Some((direct.value, tars.value)) else None;
    }
  }

  /** Accepts exactly the publishable releases, and reports which versions each kind of patch covers, in order. */
  method VerifyRelease(bench: Bench, m: Manifest, release: ReleaseUnderTest) returns (r: Result<ReleaseReport, ReleaseError>)
    ensures r.Ok? ==> Publishable(bench.tools, bench.files, m, release)
    ensures bench.reliable ==> (r.Ok? <==> Publishable(bench.tools, bench.files, m, release))
    ensures r.Ok? && m.delta.Some? && release.platform in m.delta.value.platforms ==>
      var entry := m.delta.value.platforms[release.platform];
      && Listing(r.value.directPatchFrom, entry.patches.Keys)
      && Listing(r.value.tarPatchFrom, if entry.tarLayer.Some? then entry.tarLayer.value.patches.Keys else {})
    ensures r.Ok? ==>
      && release.platform in m.platforms && release.artifact in bench.files
      && var scheme, bytes, signature := bench.tools.scheme, bench.files[release.artifact], m.platforms[release.platform].signature;
      && Genuine(scheme, bytes, signature, release.pubkey)
      && r.value.identity == scheme.decodeSignature(signature).value.trustedComment
      && States(scheme, r.value.identity, bytes, release.appId, m.version, release.platform)
    ensures r.Ok? ==> r.value.version == m.version && r.value.artifactSize == |bench.files[release.artifact]|
                      && r.value.artifactBlake3 == ToHex(bench.tools.scheme.hash(bench.files[release.artifact]))
  {
    if m.version != VersionFromTag(release.tag) || !Valid(m) || release.platform !in m.platforms {
      return Err(RequestError);
    }
    var tauri := m.platforms[release.platform];
    if !bench.tools.publishable(tauri.url, release.allowInsecureUrls) {
      return Err(RequestError);
    }
    var bytes := bench.Read(release.artifact);
    if bytes.None? {
      return Err(IoError);
    }
    var blake3 := ToHex(bench.tools.scheme.hash(bytes.value));
    var verified := VerifyArtifact(bench.tools.scheme, bytes.value, tauri.signature, release.pubkey);
    if verified.Err? || verified.value.binding.Legacy? {
      return Err(RequestError);
    }
    var identity := verified.value.binding.identity;
    if identity.Check(release.appId, m.version, release.platform, blake3, |bytes.value|).Err? {
      return Err(RequestError);
    }
    VerifiesExactly(bench.tools.scheme, bytes.value, tauri.signature, release.pubkey, verified.value);
    WireIsValid(bench.tools.scheme.decodeSignature(tauri.signature).value.trustedComment, identity);
    var listed: (seq<string>, seq<string>) := ([], []);
    if m.delta.Some? && release.platform in m.delta.value.platforms {
      var entry := CheckEntry(bench.tools, m.delta.value.platforms[release.platform], identity, blake3, |bytes.value|,
                              release.allowInsecureUrls);
      if entry.None? {
        return Err(RequestError);
      }
      listed := entry.value;
    }
    return Ok(ReleaseReport(m.version, release.platform, blake3, |bytes.value|, identity.ToTrustedComment(), listed.0, listed.1));
  }

  // ---- what the generator emits, the checker accepts ------------------------------------

  lemma {:induction false} UrlsHold(preds: seq<Predecessor>, i: nat)
    requires i < |preds|
    ensures preds[i].patchUrl in Urls(preds)
    ensures preds[i].tarLayer.Some? ==> preds[i].tarLayer.value.patchUrl in Urls(preds)
    decreases |preds|
  {
    var last := preds[|preds| - 1];
    if i < |preds| - 1 {
      UrlsHold(preds[..|preds| - 1], i);
    } else {
      assert UrlsOf(last)[0] == last.patchUrl;
      if last.tarLayer.Some? {
        assert UrlsOf(last)[1] == last.tarLayer.value.patchUrl;
      }
    }
  }

  /**
   * What a release took over from an inherited manifest of the same version
   * meets the checker's rules: the URLs of patches not made in this run, the
   * URL of a compressed copy, and a tar layer nobody asked to rebuild.
   */
  ghost predicate InheritedPublishable(tools: Tools, req: Request, entry: DeltaPlatform, summaries: seq<PatchSummary>,
                                       identity: ReleaseIdentity)
    requires |summaries| == |req.predecessors|
  {
    var preds := req.predecessors;
    && (forall from :: from in entry.patches && !(exists i :: 0 <= i < |preds| && preds[i].fromVersion == from) ==>
          tools.publishable(entry.patches[from].patchUrl, req.allowInsecureUrls))
    && (entry.compressedFull.Some? ==> tools.publishable(entry.compressedFull.value.url, req.allowInsecureUrls))
    && (entry.tarLayer.Some? ==>
          && (Asked(preds, |preds|) || entry.tarLayer.value.representation == identity.representation)
          && forall from :: from in entry.tarLayer.value.patches
                            && !(exists j :: 0 <= j < |preds| && preds[j].fromVersion == from && TarProduced(summaries[j])) ==>
               tools.publishable(entry.tarLayer.value.patches[from].patchUrl, req.allowInsecureUrls))
  }

  /** The checker's verdict on a built entry is decided by what was inherited, and by nothing made in the run. */
  lemma InheritanceDecides(tools: Tools, files: map<string, Bytes>, req: Request, was: DeltaPlatform, new_: Bytes,
                           entry: DeltaPlatform, proven: bool, summaries: seq<PatchSummary>, identity: ReleaseIdentity)
    requires WellPosed(tools, req) && EntryReleased(tools, files, req, was, new_, entry, proven, summaries)
    requires identity.representation == RepresentationOf(req.newInstaller, new_)
    ensures EntryPublishable(tools, entry, identity, ToHex(tools.scheme.hash(new_)), |new_|, req.allowInsecureUrls)
            <==> InheritedPublishable(tools, req, entry, summaries, identity)
  {
    MadePatchesPublishable(tools, files, req, was.patches, new_, entry.patches);
    MadeTarsPublishable(tools, files, req, new_, was.tarLayer, entry.tarLayer, proven, summaries);
  }

  /** Every direct patch made in the run has a URL the request's checks accepted. */
  lemma MadePatchesPublishable(tools: Tools, files: map<string, Bytes>, req: Request, was: map<string, Patch>, new_: Bytes,
                               patches: map<string, Patch>)
    requires WellPosed(tools, req) && PatchesReleased(tools, files, req.predecessors, was, new_, patches, |req.predecessors|)
    ensures forall i :: 0 <= i < |req.predecessors| ==>
      tools.publishable(patches[req.predecessors[i].fromVersion].patchUrl, req.allowInsecureUrls)
  {
    forall i | 0 <= i < |req.predecessors|
      ensures tools.publishable(patches[req.predecessors[i].fromVersion].patchUrl, req.allowInsecureUrls)
    {
      UrlsHold(req.predecessors, i);
    }
  }

  /** And so has every tar patch. */
  lemma MadeTarsPublishable(tools: Tools, files: map<string, Bytes>, req: Request, new_: Bytes, inherited: Option<TarLayer>,
                            layer: Option<TarLayer>, proven: bool, summaries: seq<PatchSummary>)
    requires WellPosed(tools, req) && |summaries| == |req.predecessors|
    requires LayerSound(tools, files, req, new_, inherited, layer, proven, summaries)
    ensures forall j :: 0 <= j < |summaries| && TarProduced(summaries[j]) ==>
      && layer.Some? && req.predecessors[j].fromVersion in layer.value.patches
      && tools.publishable(layer.value.patches[req.predecessors[j].fromVersion].patchUrl, req.allowInsecureUrls)
  {
    forall j | 0 <= j < |summaries| && TarProduced(summaries[j])
      ensures layer.Some? && req.predecessors[j].fromVersion in layer.value.patches
      ensures tools.publishable(layer.value.patches[req.predecessors[j].fromVersion].patchUrl, req.allowInsecureUrls)
    {
      UrlsHold(req.predecessors, j);
    }
  }

  /**
   * Generator implies checker. Whatever request the generator accepted, the
   * checker accepts the result, under any tag naming that version and for the
   * same application, platform, key, URL flag and installer bytes, exactly when
   * what was inherited from a manifest of the same version is publishable. With
   * no such manifest it always accepts.
   */
  lemma GeneratorImpliesChecker(tools: Tools, files: map<string, Bytes>, req: Request, existing: Option<Manifest>, signedAt: nat,
                                m: Manifest, proven: bool, summaries: seq<PatchSummary>, release: ReleaseUnderTest)
    requires Released(tools, files, req, existing, signedAt, m, proven, summaries)
    requires KeyPair(tools, release.pubkey)
    requires VersionFromTag(release.tag) == req.version && release.appId == req.appId && release.platform == req.platform
    requires release.allowInsecureUrls == req.allowInsecureUrls
    requires release.artifact in files && files[release.artifact] == files[req.newInstaller]
    ensures var identity := IdentityOf(tools, req, files[req.newInstaller], signedAt);
            Publishable(tools, files, m, release) <==>
            InheritedPublishable(tools, req, m.delta.value.platforms[req.platform], summaries, identity)
    ensures (existing.Some? ==> existing.value.version != req.version) ==> Publishable(tools, files, m, release)
  {
    var was := EntryOf(Inherited(existing, req), req.platform);
    var entry, new_ := m.delta.value.platforms[req.platform], files[req.newInstaller];
    var identity := IdentityOf(tools, req, new_, signedAt);
    DocumentPublishable(tools, files, req, existing, signedAt, m, proven, summaries, release);
    InheritanceDecides(tools, files, req, was, new_, entry, proven, summaries, identity);
    if existing.Some? ==> existing.value.version != req.version {
      NothingInherited(tools, files, req, was, new_, entry, proven, summaries);
    }
  }

  /** Everything the checker asks outside the delta entry holds of a release. */
  lemma DocumentPublishable(tools: Tools, files: map<string, Bytes>, req: Request, existing: Option<Manifest>, signedAt: nat,
                            m: Manifest, proven: bool, summaries: seq<PatchSummary>, release: ReleaseUnderTest)
    requires Released(tools, files, req, existing, signedAt, m, proven, summaries)
    requires KeyPair(tools, release.pubkey)
    requires VersionFromTag(release.tag) == req.version && release.appId == req.appId && release.platform == req.platform
    requires release.allowInsecureUrls == req.allowInsecureUrls
    requires release.artifact in files && files[release.artifact] == files[req.newInstaller]
    ensures var new_ := files[req.newInstaller];
            Publishable(tools, files, m, release) <==>
            EntryPublishable(tools, m.delta.value.platforms[req.platform], IdentityOf(tools, req, new_, signedAt),
                             ToHex(tools.scheme.hash(new_)), |new_|, req.allowInsecureUrls)
  {
    var new_ := files[req.newInstaller];
    SignedVerifies(tools, req, new_, signedAt, release.pubkey);
    IdentityChecks(tools, req, new_, signedAt);
    assert tools.publishable(req.installerUrl, req.allowInsecureUrls);
  }

  lemma IdentityChecks(tools: Tools, req: Request, new_: Bytes, signedAt: nat)
    ensures IdentityOf(tools, req, new_, signedAt).Check(req.appId, req.version, req.platform, ToHex(tools.scheme.hash(new_)), |new_|).Ok?
  {
  }

  lemma NothingInherited(tools: Tools, files: map<string, Bytes>, req: Request, was: DeltaPlatform, new_: Bytes,
                         entry: DeltaPlatform, proven: bool, summaries: seq<PatchSummary>)
    requires EntryReleased(tools, files, req, was, new_, entry, proven, summaries)
    requires was.patches == map[] && was.tarLayer.None? && was.compressedFull.None?
    ensures forall identity :: InheritedPublishable(tools, req, entry, summaries, identity)
  {
    if entry.tarLayer.Some? {
      forall from | from in entry.tarLayer.value.patches
        ensures exists j :: 0 <= j < |summaries| && req.predecessors[j].fromVersion == from && TarProduced(summaries[j])
      {
        assert FromRunOrInherited(req.predecessors, summaries, was.tarLayer, entry.tarLayer.value, from);
      }
    }
  }
}
