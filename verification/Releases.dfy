/**
 * The release generator (crates/delta-release/src/lib.rs and tar_layer.rs).
 *
 * It works on the files of a build machine. Paths name files one to one, and
 * the scratch directories are its own.
 */
module Releases {
  import opened Prelude
  import opened ArtifactCaches
  import opened CacheTypes
  import opened Hash
  import opened Manifests
  import opened ReleaseIdentities
  import opened Signatures
  import opened TarHeaders
  import opened TarLayout
  import opened Zstd

  const RELEASE_MAX_TAR_BYTES: nat := 8 * 1024 * 1024 * 1024

  /** The machine's codecs, its key, and the shared predicate on URLs. */
  datatype Tools = Tools(
    scheme: Scheme, codec: Codec, gzip: seq<Bytes> -> Bytes, gunzip: Bytes -> Option<Bytes>,
    sign: (Bytes, string) -> Option<string>, publishable: (string, bool) -> bool)

  datatype TarOptions = TarOptions(patchUrl: string, patchOut: string, maxTarBytes: nat, required: bool)

  datatype Predecessor = Predecessor(
    fromVersion: string, installer: string, patchUrl: string, patchOut: string, tarLayer: Option<TarOptions>)

  datatype Request = Request(
    platform: string, version: string, newInstaller: string, installerUrl: string,
    notes: Option<string>, pubDate: Option<string>, appId: string,
    predecessors: seq<Predecessor>, allowInsecureUrls: bool)

  datatype PatchSummary = PatchSummary(fromVersion: string, patchSize: nat, tarPatchSize: Option<nat>, tarLayerSkipped: bool)

  datatype ReleaseError = IoError | RequestError | SignError | EngineError | ManifestError

  // ---- the request -----------------------------------------------------------------

  predicate NoDuplicates(s: seq<string>) {
    forall i, j :: 0 <= i < j < |s| ==> s[i] != s[j]
  }

  lemma NoDuplicatesSnoc(s: seq<string>, x: string)
    ensures NoDuplicates(s + [x]) <==> NoDuplicates(s) && x !in s
  {
    var t := s + [x];
    assert t[|s|] == x && forall i :: 0 <= i < |s| ==> t[i] == s[i];
  }

  lemma NoDuplicatesPrefix(s: seq<string>, t: seq<string>)
    requires NoDuplicates(s + t)
    ensures NoDuplicates(s)
  {
    assert forall i :: 0 <= i < |s| ==> (s + t)[i] == s[i];
  }

  function Froms(preds: seq<Predecessor>): seq<string> {
    if preds == [] then [] else Froms(preds[..|preds| - 1]) + [preds[|preds| - 1].fromVersion]
  }

  function Urls(preds: seq<Predecessor>): seq<string> {
    if preds == [] then [] else Urls(preds[..|preds| - 1]) + UrlsOf(preds[|preds| - 1])
  }

  function UrlsOf(pred: Predecessor): seq<string> {
    [pred.patchUrl] + if pred.tarLayer.Some? then [pred.tarLayer.value.patchUrl] else []
  }

  function Outputs(preds: seq<Predecessor>): seq<string> {
    if preds == [] then [] else Outputs(preds[..|preds| - 1]) + OutputsOf(preds[|preds| - 1])
  }

  function OutputsOf(pred: Predecessor): seq<string> {
    [pred.patchOut] + if pred.tarLayer.Some? then [pred.tarLayer.value.patchOut] else []
  }

  predicate AllPublishable(tools: Tools, urls: seq<string>, insecure: bool) {
    forall i :: 0 <= i < |urls| ==> tools.publishable(urls[i], insecure)
  }

  /** What the request's own checks require. */
  predicate WellPosed(tools: Tools, req: Request) {
    && tools.publishable(req.installerUrl, req.allowInsecureUrls)
    && NoDuplicates(Froms(req.predecessors))
    && AllPublishable(tools, Urls(req.predecessors), req.allowInsecureUrls)
    && NoDuplicates(Urls(req.predecessors)) && NoDuplicates(Outputs(req.predecessors))
  }

  predicate PosedSoFar(tools: Tools, preds: seq<Predecessor>, insecure: bool) {
    && NoDuplicates(Froms(preds)) && AllPublishable(tools, Urls(preds), insecure)
    && NoDuplicates(Urls(preds)) && NoDuplicates(Outputs(preds))
  }

  lemma {:induction false} PosedPrefix(tools: Tools, preds: seq<Predecessor>, n: nat, insecure: bool)
    requires n <= |preds| && PosedSoFar(tools, preds, insecure)
    ensures PosedSoFar(tools, preds[..n], insecure)
    decreases |preds|
  {
    if n == |preds| {
      assert preds[..n] == preds;
    } else {
      var front := preds[..|preds| - 1];
      NoDuplicatesPrefix(Froms(front), [preds[|preds| - 1].fromVersion]);
      NoDuplicatesPrefix(Urls(front), UrlsOf(preds[|preds| - 1]));
      NoDuplicatesPrefix(Outputs(front), OutputsOf(preds[|preds| - 1]));
      assert forall i :: 0 <= i < |Urls(front)| ==> Urls(preds)[i] == Urls(front)[i];
      PosedPrefix(tools, front, n, insecure);
      assert front[..n] == preds[..n];
    }
  }

  predicate Distinct2(used: set<string>, first: string, second: Option<string>) {
    first !in used && (second.Some? ==> second.value !in used && second.value != first)
  }

  function TarUrl(pred: Predecessor): Option<string> {
    if pred.tarLayer.Some? then Some(pred.tarLayer.value.patchUrl) else None
  }

  function TarOut(pred: Predecessor): Option<string> {
    if pred.tarLayer.Some? then Some(pred.tarLayer.value.patchOut) else None
  }

  ghost predicate Holds(used: set<string>, s: seq<string>) {
    forall x :: x in used <==> x in s
  }

  lemma DistinctIffNoDuplicates(used: set<string>, s: seq<string>, first: string, second: Option<string>)
    requires Holds(used, s)
    ensures var more := [first] + if second.Some? then [second.value] else [];
            && (NoDuplicates(s + more) <==> NoDuplicates(s) && Distinct2(used, first, second))
            && Holds(used + {first} + (if second.Some? then {second.value} else {}), s + more)
  {
    NoDuplicatesSnoc(s, first);
    if second.Some? {
      NoDuplicatesSnoc(s + [first], second.value);
      assert s + ([first] + [second.value]) == s + [first] + [second.value];
    } else {
      assert s + ([first] + []) == s + [first];
    }
  }

  /** The checks that need nothing but the request. */
  method CheckRequest(tools: Tools, req: Request) returns (ok: bool)
    ensures ok <==> WellPosed(tools, req)
  {
    if !tools.publishable(req.installerUrl, req.allowInsecureUrls) {
      return false;
    }
    var fromVersions, patchUrls, patchOutputs := {}, {}, {};
    var preds := req.predecessors;
    for i := 0 to |preds|
      invariant PosedSoFar(tools, preds[..i], req.allowInsecureUrls)
      invariant Holds(fromVersions, Froms(preds[..i]))
      invariant Holds(patchUrls, Urls(preds[..i]))
      invariant Holds(patchOutputs, Outputs(preds[..i]))
    {
      var pred := preds[i];
      var fits := CheckPredecessor(tools, pred, req.allowInsecureUrls, fromVersions, patchUrls, patchOutputs);
      PosedSnoc(tools, preds, i, req.allowInsecureUrls, fromVersions, patchUrls, patchOutputs);
      if !fits {
        if WellPosed(tools, req) {
          PosedPrefix(tools, preds, i + 1, req.allowInsecureUrls);
        }
        return false;
      }
      fromVersions := fromVersions + {pred.fromVersion};
      patchUrls := patchUrls + {pred.patchUrl} + if pred.tarLayer.Some? then {pred.tarLayer.value.patchUrl} else {};
      patchOutputs := patchOutputs + {pred.patchOut} + if pred.tarLayer.Some? then {pred.tarLayer.value.patchOut} else {};
    }
    assert preds[..|preds|] == preds;
    return true;
  }

  predicate Fits(tools: Tools, pred: Predecessor, insecure: bool, froms: set<string>, urls: set<string>, outs: set<string>) {
    && pred.fromVersion !in froms
    && tools.publishable(pred.patchUrl, insecure)
    && (pred.tarLayer.Some? ==> tools.publishable(pred.tarLayer.value.patchUrl, insecure))
    && Distinct2(urls, pred.patchUrl, TarUrl(pred))
    && Distinct2(outs, pred.patchOut, TarOut(pred))
  }

  method CheckPredecessor(tools: Tools, pred: Predecessor, insecure: bool,
                          froms: set<string>, urls: set<string>, outs: set<string>)
    returns (ok: bool)
    ensures ok <==> Fits(tools, pred, insecure, froms, urls, outs)
  {
    if pred.fromVersion in froms || !tools.publishable(pred.patchUrl, insecure) || pred.patchUrl in urls || pred.patchOut in outs {
      return false;
    }
    match pred.tarLayer {
      case None => return true;
      case Some(tar) =>
        return tools.publishable(tar.patchUrl, insecure)
               && tar.patchUrl !in urls + {pred.patchUrl} && tar.patchOut !in outs + {pred.patchOut};
    }
  }

  lemma PosedSnoc(tools: Tools, preds: seq<Predecessor>, i: nat, insecure: bool,
                  froms: set<string>, urls: set<string>, outs: set<string>)
    requires i < |preds| && PosedSoFar(tools, preds[..i], insecure)
    requires Holds(froms, Froms(preds[..i])) && Holds(urls, Urls(preds[..i])) && Holds(outs, Outputs(preds[..i]))
    ensures PosedSoFar(tools, preds[..i + 1], insecure) <==> Fits(tools, preds[i], insecure, froms, urls, outs)
    ensures Holds(froms + {preds[i].fromVersion}, Froms(preds[..i + 1]))
    ensures Holds(urls + {preds[i].patchUrl} + (if preds[i].tarLayer.Some? then {preds[i].tarLayer.value.patchUrl} else {}),
                  Urls(preds[..i + 1]))
    ensures Holds(outs + {preds[i].patchOut} + (if preds[i].tarLayer.Some? then {preds[i].tarLayer.value.patchOut} else {}),
                  Outputs(preds[..i + 1]))
  {
    var pred, front := preds[i], preds[..i];
    var all := preds[..i + 1];
    assert all[..|all| - 1] == front && all[|all| - 1] == pred;
    NoDuplicatesSnoc(Froms(front), pred.fromVersion);
    DistinctIffNoDuplicates(urls, Urls(front), pred.patchUrl, TarUrl(pred));
    DistinctIffNoDuplicates(outs, Outputs(front), pred.patchOut, TarOut(pred));
    PublishableSnoc(tools, Urls(front), UrlsOf(pred), insecure);
    assert UrlsOf(pred)[0] == pred.patchUrl;
    assert pred.tarLayer.Some? ==> UrlsOf(pred)[1] == pred.tarLayer.value.patchUrl;
  }

  lemma PublishableSnoc(tools: Tools, s: seq<string>, t: seq<string>, insecure: bool)
    ensures AllPublishable(tools, s + t, insecure) <==> AllPublishable(tools, s, insecure) && AllPublishable(tools, t, insecure)
  {
    assert forall i :: 0 <= i < |s| ==> (s + t)[i] == s[i];
    assert forall i :: 0 <= i < |t| ==> (s + t)[|s| + i] == t[i];
  }

  // ---- the build machine -------------------------------------------------------------

  /** The files of a build machine; a write that fails leaves some prefix. */
  class Bench {
    var files: map<string, Bytes>
    const tools: Tools
    const reliable: bool

    constructor (files: map<string, Bytes>, tools: Tools, reliable: bool)
      ensures this.files == files && this.tools == tools && this.reliable == reliable
    {
      this.files, this.tools, this.reliable := files, tools, reliable;
    }

    method Read(path: string) returns (r: Option<Bytes>)
      ensures r.Some? ==> path in files && r.value == files[path]
      ensures reliable && path in files ==> r.Some?
    {
      var failed: bool := *;
      return if path in files && (reliable || !failed) then Some(files[path]) else None;
    }

    method Write(path: string, content: Bytes) returns (ok: bool)
      modifies this
      ensures Kept(files, old(files), {path}) && (reliable ==> ok)
      ensures ok ==> path in files && files[path] == content
    {
      var failed: bool := *;
      ok := reliable || !failed;
      var n: nat :| n <= |content| by { assert 0 <= |content|; }
      files := files[path := if ok then content else content[..n]];
    }

    /** A removal whose failure nobody looks at. */
    method Remove(path: string)
      modifies this
      ensures Kept(files, old(files), {path}) && (reliable ==> path !in files)
      ensures files == old(files) || files == old(files) - {path}
    {
      var failed: bool := *;
      if reliable || !failed {
        files := files - {path};
      }
    }
  }

  /** Every file outside `changed` is as it was. */
  ghost predicate Kept(now: map<string, Bytes>, was: map<string, Bytes>, changed: set<string>) {
    forall f :: f !in changed ==> (f in now <==> f in was) && (f in now ==> now[f] == was[f])
  }

  /** Applying `delta` rebuilds something with the digest of `new_`. */
  predicate Reconstructs(tools: Tools, old_: Bytes, delta: Bytes, expected: Option<nat>, new_: Bytes) {
    match Rebuilt(tools.codec, old_, delta, expected)
    case None => false
    case Some(bytes) => tools.scheme.hash(bytes) == tools.scheme.hash(new_)
  }

  /**
   * What a direct patch's metadata says, proven: it describes the file left on
   * disk, generated from this predecessor, and that file rebuilds the installer.
   */
  ghost predicate DirectProven(tools: Tools, files: map<string, Bytes>, pred: Predecessor, new_: Bytes, patch: Patch) {
    && pred.installer in files && pred.patchOut in files
    && var old_, delta := files[pred.installer], files[pred.patchOut];
    && delta == Diff(tools.codec, old_, new_) && Reconstructs(tools, old_, delta, None, new_)
    && patch == Patch(ZSTD_ID, pred.patchUrl, ToHex(tools.scheme.hash(delta)), |delta|,
                      Some(ToHex(tools.scheme.hash(old_))), Some(|old_|))
  }

  /** Diff into `patchOut`, then `ProvePatch` on what is there. */
  method GenerateDirect(bench: Bench, pred: Predecessor, newInstaller: string, expected: FileHash) returns (r: Result<Patch, ReleaseError>)
    requires pred.patchOut != pred.installer && pred.patchOut != newInstaller
    requires newInstaller in bench.files && bench.tools.scheme.hash(bench.files[newInstaller]) == expected
    modifies bench
    ensures Kept(bench.files, old(bench.files), {pred.patchOut})
    ensures r.Ok? ==> DirectProven(bench.tools, bench.files, pred, bench.files[newInstaller], r.value)
    ensures bench.reliable && pred.installer in bench.files ==>
      (r.Ok? <==> var old_, new_ := bench.files[pred.installer], bench.files[newInstaller];
                  Reconstructs(bench.tools, old_, Diff(bench.tools.codec, old_, new_), None, new_))
  {
    var oldData := bench.Read(pred.installer);
    var newData := bench.Read(newInstaller);
    if oldData.None? || newData.None? {
      return Err(IoError);
    }
    var written := bench.Write(pred.patchOut, Diff(bench.tools.codec, oldData.value, newData.value));
    if !written {
      return Err(IoError);
    }
    r := ProvePatch(bench, pred, expected);
  }

  /** Metadata for the patch on disk, given only once applying it yields the expected digest. */
  method ProvePatch(bench: Bench, pred: Predecessor, expected: FileHash) returns (r: Result<Patch, ReleaseError>)
    ensures r.Ok? ==>
      && pred.installer in bench.files && pred.patchOut in bench.files
      && var old_, delta := bench.files[pred.installer], bench.files[pred.patchOut];
      && Rebuilt(bench.tools.codec, old_, delta, None).Some?
      && bench.tools.scheme.hash(Rebuilt(bench.tools.codec, old_, delta, None).value) == expected
      && r.value == Patch(ZSTD_ID, pred.patchUrl, ToHex(bench.tools.scheme.hash(delta)), |delta|,
                          Some(ToHex(bench.tools.scheme.hash(old_))), Some(|old_|))
    ensures bench.reliable && pred.installer in bench.files && pred.patchOut in bench.files ==>
      (r.Ok? <==>
         var rebuilt := Rebuilt(bench.tools.codec, bench.files[pred.installer], bench.files[pred.patchOut], None);
         rebuilt.Some? && bench.tools.scheme.hash(rebuilt.value) == expected)
  {
    var base := bench.Read(pred.installer);
    var delta := bench.Read(pred.patchOut);
    if base.None? || delta.None? {
      return Err(IoError);
    }
    var rebuilt := Rebuilt(bench.tools.codec, base.value, delta.value, None);
    if rebuilt.None? {
      return Err(EngineError);
    }
    if bench.tools.scheme.hash(rebuilt.value) != expected {
      return Err(RequestError);
    }
    return Ok(Patch(ZSTD_ID, pred.patchUrl, ToHex(bench.tools.scheme.hash(delta.value)), |delta.value|,
                    Some(ToHex(bench.tools.scheme.hash(base.value))), Some(|base.value|)));
  }

  // ---- the tar layer -------------------------------------------------------------------

  function AsciiLower(c: char): char {
    if 'A' <= c <= 'Z' then (c as int + 32) as char else c
  }

  /** Taken for a gzipped tar: by its name, and by its first two bytes. */
  predicate LooksLikeAppTarGz(path: string, bytes: Bytes) {
    var lower := seq(|path|, i requires 0 <= i < |path| => AsciiLower(path[i]));
    |path| >= 7 && lower[|path| - 7..] == ".tar.gz" && |bytes| >= 2 && bytes[0] == 0x1f && bytes[1] == 0x8b
  }

  /** The layer names exactly the tar inside `new_`, with the identifiers this build implements. */
  predicate NamesTar(tools: Tools, new_: Bytes, layer: TarLayer) {
    && layer.Support().Supported?
    && tools.gunzip(new_).Some?
    && layer.targetTarBlake3 == ToHex(tools.scheme.hash(tools.gunzip(new_).value))
    && layer.targetTarSize == |tools.gunzip(new_).value|
  }

  /** Rebuilding the tar and recompressing it gives something with the digest of `new_`. */
  predicate RoundTripped(tools: Tools, baseTar: Bytes, delta: Bytes, targetTar: Bytes, new_: Bytes) {
    match Rebuilt(tools.codec, baseTar, delta, Some(|targetTar|))
    case None => false
    case Some(tar) =>
      && tools.scheme.hash(tar) == tools.scheme.hash(targetTar)
      && match Recompressed(tools.gzip, tar, RELEASE_MAX_TAR_BYTES)
         case None => false
         case Some(bytes) => tools.scheme.hash(bytes) == tools.scheme.hash(new_)
  }

  /** The proof of a tar patch: the patch gives a tar with the digest expected, and that tar, of at most 8 GiB, replays into the installer's. */
  lemma RoundTrippedExactly(tools: Tools, baseTar: Bytes, delta: Bytes, targetTar: Bytes, new_: Bytes)
    ensures RoundTripped(tools, baseTar, delta, targetTar, new_) <==>
            exists tar :: Rebuilt(tools.codec, baseTar, delta, Some(|targetTar|)) == Some(tar)
                          && tools.scheme.hash(tar) == tools.scheme.hash(targetTar)
                          && |tar| <= 8589934592 && Replayed(USTAR, tar, |tar|).Some?
                          && tools.scheme.hash(tools.gzip(Replayed(USTAR, tar, |tar|).value)) == tools.scheme.hash(new_)
  {
  }

  /** What a tar patch's metadata says of the file left on disk, from which a client's steps give `new_` back. */
  ghost predicate TarProven(tools: Tools, files: map<string, Bytes>, pred: Predecessor, new_: Bytes, patch: TarPatch) {
    && pred.tarLayer.Some? && pred.installer in files && pred.tarLayer.value.patchOut in files
    && var old_, delta := files[pred.installer], files[pred.tarLayer.value.patchOut];
    && tools.gunzip(old_).Some? && tools.gunzip(new_).Some?
    && var baseTar, targetTar := tools.gunzip(old_).value, tools.gunzip(new_).value;
    && delta == Diff(tools.codec, baseTar, targetTar) && RoundTripped(tools, baseTar, delta, targetTar, new_)
    && patch == TarPatch(ZSTD_ID, pred.tarLayer.value.patchUrl, ToHex(tools.scheme.hash(delta)), |delta|,
                         ToHex(tools.scheme.hash(old_)), |old_|, ToHex(tools.scheme.hash(baseTar)), |baseTar|)
  }

  /** The layer carried over, if it still names the tar being published. */
  function Carried(existing: Option<TarLayer>, targetTarBlake3: string): map<string, TarPatch> {
    if existing.Some? && existing.value.targetTarBlake3 == targetTarBlake3 then existing.value.patches else map[]
  }

  /** A tar patch can be made and proven between these two installers. */
  predicate TarPossible(tools: Tools, oldPath: string, old_: Bytes, newPath: string, new_: Bytes, maxTarBytes: nat) {
    && LooksLikeAppTarGz(newPath, new_) && LooksLikeAppTarGz(oldPath, old_)
    && Expand(tools.gunzip, old_, maxTarBytes).Ok? && Expand(tools.gunzip, new_, maxTarBytes).Ok?
    && var baseTar, targetTar := Expand(tools.gunzip, old_, maxTarBytes).value, Expand(tools.gunzip, new_, maxTarBytes).value;
    && tools.scheme.hash(baseTar) != tools.scheme.hash(targetTar)
    && RoundTripped(tools, baseTar, Diff(tools.codec, baseTar, targetTar), targetTar, new_)
  }

  /** One more tar patch in the layer, once its round trip has succeeded. */
  method BuildTarLayer(bench: Bench, pred: Predecessor, newInstaller: string, existing: Option<TarLayer>)
    returns (r: Result<(TarLayer, nat), ReleaseError>)
    requires pred.tarLayer.Some? && pred.tarLayer.value.patchOut != pred.installer && pred.tarLayer.value.patchOut != newInstaller
    requires newInstaller in bench.files
    modifies bench
    ensures Kept(bench.files, old(bench.files), {pred.tarLayer.value.patchOut})
    ensures bench.reliable ==>
      (r.Ok? <==>
         && pred.installer in bench.files
         && TarPossible(bench.tools, pred.installer, bench.files[pred.installer], newInstaller, bench.files[newInstaller],
                        pred.tarLayer.value.maxTarBytes))
    ensures r.Ok? ==>
      var (layer, size) := r.value;
      && LooksLikeAppTarGz(newInstaller, bench.files[newInstaller])
      && NamesTar(bench.tools, bench.files[newInstaller], layer)
      && pred.fromVersion in layer.patches && size == layer.patches[pred.fromVersion].patchSize
      && layer.patches == Carried(existing, layer.targetTarBlake3)[pred.fromVersion := layer.patches[pred.fromVersion]]
      && TarProven(bench.tools, bench.files, pred, bench.files[newInstaller], layer.patches[pred.fromVersion])
  {
    var tools, options := bench.tools, pred.tarLayer.value;
    var newData := bench.Read(newInstaller);
    var oldData := bench.Read(pred.installer);
    if newData.None? || oldData.None? {
      return Err(IoError);
    }
    if !LooksLikeAppTarGz(newInstaller, newData.value) || !LooksLikeAppTarGz(pred.installer, oldData.value) {
      return Err(RequestError);
    }
    var base := Expand(tools.gunzip, oldData.value, options.maxTarBytes);
    var target := Expand(tools.gunzip, newData.value, options.maxTarBytes);
    if base.Err? || target.Err? {
      return Err(EngineError);
    }
    var baseTar, targetTar := base.value, target.value;
    if tools.scheme.hash(baseTar) == tools.scheme.hash(targetTar) {
      return Err(RequestError);
    }
    var delta := Diff(tools.codec, baseTar, targetTar);
    var written := bench.Write(options.patchOut, delta);
    if !written {
      return Err(IoError);
    }
    var onDisk := bench.Read(options.patchOut);
    if onDisk.None? || !RoundTripped(tools, baseTar, onDisk.value, targetTar, newData.value) {
      return Err(EngineError);
    }
    var patch := TarPatch(ZSTD_ID, options.patchUrl, ToHex(tools.scheme.hash(onDisk.value)), |onDisk.value|,
                          ToHex(tools.scheme.hash(oldData.value)), |oldData.value|,
                          ToHex(tools.scheme.hash(baseTar)), |baseTar|);
    var name := ToHex(tools.scheme.hash(targetTar));
    var layer := TarLayer(REPRESENTATION_APP_TAR_GZ_V1, RECOMPRESSION_TAURI_APP_TAR_GZ_V1, name, |targetTar|,
                          Carried(existing, name)[pred.fromVersion := patch]);
    return Ok((layer, patch.patchSize));
  }

  // ---- the signature -------------------------------------------------------------------

  function RepresentationOf(path: string, bytes: Bytes): string {
    if LooksLikeAppTarGz(path, bytes) then REPRESENTATION_APP_TAR_GZ_V1 else REPRESENTATION_OPAQUE_V1
  }

  /** `.tar.gz` in letters of either case. */
  ghost predicate TarSuffix(suffix: string) {
    && |suffix| == 7 && suffix[0] == '.' && suffix[1] in "tT" && suffix[2] in "aA" && suffix[3] in "rR"
    && suffix[4] == '.' && suffix[5] in "gG" && suffix[6] in "zZ"
  }

  /** The representation stated of an installer is decided by its name and its first two bytes, and there are two of them. */
  lemma RepresentationExactly(path: string, bytes: Bytes)
    ensures RepresentationOf(path, bytes) == "app-tar-gz-v1" <==>
            && |path| >= 7 && TarSuffix(path[|path| - 7..]) && |bytes| >= 2 && bytes[0] == 31 && bytes[1] == 139
    ensures RepresentationOf(path, bytes) != "app-tar-gz-v1" ==> RepresentationOf(path, bytes) == "opaque-v1"
  {
    var lower := seq(|path|, i requires 0 <= i < |path| => AsciiLower(path[i]));
    if |path| >= 7 {
      var n := |path| - 7;
      assert forall i :: 0 <= i < 7 ==> lower[n..][i] == AsciiLower(path[n..][i]);
      SuffixLowers(path[n..], lower[n..]);
    }
  }

  lemma SuffixLowers(suffix: string, lower: string)
    requires |suffix| == |lower| == 7 && forall i :: 0 <= i < 7 ==> lower[i] == AsciiLower(suffix[i])
    ensures lower == ".tar.gz" <==> TarSuffix(suffix)
  {
  }

  /** The identity bound into the signature: digest and size are read off the bytes being signed. */
  function IdentityOf(tools: Tools, req: Request, bytes: Bytes, signedAt: nat): ReleaseIdentity {
    ReleaseIdentity(req.appId, req.version, req.platform, RepresentationOf(req.newInstaller, bytes),
                    ToHex(tools.scheme.hash(bytes)), |bytes|, signedAt)
  }

  /** Refuses to sign a statement this build could not read back. */
  function SignRelease(tools: Tools, req: Request, bytes: Bytes, signedAt: nat): Option<string> {
    var identity := IdentityOf(tools, req, bytes, signedAt);
    if ParseTrustedComment(identity.ToTrustedComment()) != Ok(Authenticated(identity)) then None
    else tools.sign(bytes, identity.ToTrustedComment())
  }

  /** What is taken of minisign: what the key signs verifies under `pubkey` and carries its comment. */
  ghost predicate KeyPair(tools: Tools, pubkey: string) {
    && tools.scheme.decodeKey(pubkey).Some?
    && forall bytes, comment :: tools.sign(bytes, comment).Some? ==>
         var block := tools.scheme.decodeSignature(tools.sign(bytes, comment).value);
         && block.Some? && block.value.trustedComment == comment
         && tools.scheme.verifies(tools.scheme.decodeKey(pubkey).value, bytes, block.value)
  }

  /** A release signature verifies, and verifying it yields exactly the identity that was bound. */
  lemma SignedVerifies(tools: Tools, req: Request, bytes: Bytes, signedAt: nat, pubkey: string)
    requires KeyPair(tools, pubkey) && SignRelease(tools, req, bytes, signedAt).Some?
    ensures VerifyArtifact(tools.scheme, bytes, SignRelease(tools, req, bytes, signedAt).value, pubkey)
            == Ok(VerifiedArtifact(bytes, Authenticated(IdentityOf(tools, req, bytes, signedAt))))
    ensures ValidIdentity(IdentityOf(tools, req, bytes, signedAt))
  {
    var identity := IdentityOf(tools, req, bytes, signedAt);
    RoundTripsExactly(identity);
    assert tools.sign(bytes, identity.ToTrustedComment()).Some?;
  }

  // ---- the predecessors, one after another ----------------------------------------------

  /** What the distinctness checks give, pairwise. */
  ghost predicate Apart(preds: seq<Predecessor>) {
    && (forall i, j :: 0 <= i < j < |preds| ==> preds[i].fromVersion != preds[j].fromVersion)
    && (forall i, j :: 0 <= i < j < |preds| ==> OutputsApart(preds[i], preds[j]))
    && (forall i :: 0 <= i < |preds| && preds[i].tarLayer.Some? ==> preds[i].patchOut != preds[i].tarLayer.value.patchOut)
  }

  ghost predicate OutputsApart(a: Predecessor, b: Predecessor) {
    forall x, y :: x in OutputsOf(a) && y in OutputsOf(b) ==> x != y
  }

  lemma {:induction false} OutputsHold(preds: seq<Predecessor>, i: nat)
    requires i < |preds|
    ensures forall x :: x in OutputsOf(preds[i]) ==> x in Outputs(preds)
    ensures preds[i].fromVersion in Froms(preds)
    decreases |preds|
  {
    if i < |preds| - 1 {
      OutputsHold(preds[..|preds| - 1], i);
    }
  }

  lemma {:induction false} PosedMeansApart(preds: seq<Predecessor>)
    requires NoDuplicates(Froms(preds)) && NoDuplicates(Outputs(preds))
    ensures Apart(preds)
    decreases |preds|
  {
    if preds != [] {
      var front, last := preds[..|preds| - 1], preds[|preds| - 1];
      NoDuplicatesSnoc(Froms(front), last.fromVersion);
      NoDuplicatesPrefix(Outputs(front), OutputsOf(last));
      PosedMeansApart(front);
      AcrossDistinct(Outputs(front), OutputsOf(last));
      forall i | 0 <= i < |front| ensures preds[i].fromVersion != last.fromVersion && OutputsApart(preds[i], last) {
        OutputsHold(front, i);
      }
      if last.tarLayer.Some? {
        assert Outputs(preds)[|Outputs(front)|] == last.patchOut;
        assert Outputs(preds)[|Outputs(front)| + 1] == last.tarLayer.value.patchOut;
      }
    }
  }

  lemma AcrossDistinct(s: seq<string>, t: seq<string>)
    requires NoDuplicates(s + t)
    ensures forall x, y :: x in s && y in t ==> x != y
  {
    forall i, j | 0 <= i < |s| && 0 <= j < |t| ensures s[i] != t[j] {
      assert (s + t)[i] == s[i] && (s + t)[|s| + j] == t[j];
    }
  }

  /** Assumed of the request: no output is one of its inputs. */
  ghost predicate OutputsFree(req: Request) {
    forall x :: x in Outputs(req.predecessors) ==>
      x != req.newInstaller && forall i :: 0 <= i < |req.predecessors| ==> x != req.predecessors[i].installer
  }

  ghost function OutputSet(preds: seq<Predecessor>): set<string> {
    set x | x in Outputs(preds)
  }

  lemma InOutputs(pred: Predecessor)
    ensures pred.patchOut in OutputsOf(pred)
    ensures pred.tarLayer.Some? ==> pred.tarLayer.value.patchOut in OutputsOf(pred)
  {
    assert OutputsOf(pred)[0] == pred.patchOut;
    if pred.tarLayer.Some? {
      assert OutputsOf(pred)[1] == pred.tarLayer.value.patchOut;
    }
  }

  /** `out` may be written without touching an input. */
  ghost predicate Free(req: Request, out: string) {
    && out in OutputSet(req.predecessors) && out != req.newInstaller
    && forall j :: 0 <= j < |req.predecessors| ==> out != req.predecessors[j].installer
  }

  lemma OutputFacts(req: Request, i: nat)
    requires OutputsFree(req) && i < |req.predecessors|
    ensures var pred := req.predecessors[i];
            Free(req, pred.patchOut) && (pred.tarLayer.Some? ==> Free(req, pred.tarLayer.value.patchOut))
  {
    OutputsHold(req.predecessors, i);
    InOutputs(req.predecessors[i]);
  }

  lemma OutputsDiffer(preds: seq<Predecessor>, i: nat, j: nat)
    requires Apart(preds) && i < |preds| && j < |preds| && i != j
    ensures preds[i].patchOut != preds[j].patchOut
    ensures preds[i].tarLayer.Some? ==> preds[i].tarLayer.value.patchOut != preds[j].patchOut
    ensures preds[i].tarLayer.Some? && preds[j].tarLayer.Some? ==>
      preds[i].tarLayer.value.patchOut != preds[j].tarLayer.value.patchOut
  {
    InOutputs(preds[i]);
    InOutputs(preds[j]);
    if i < j {
      assert OutputsApart(preds[i], preds[j]);
    } else {
      assert OutputsApart(preds[j], preds[i]);
    }
  }

  lemma DirectSurvives(tools: Tools, was: map<string, Bytes>, now: map<string, Bytes>, changed: set<string>,
                       pred: Predecessor, new_: Bytes, patch: Patch)
    requires DirectProven(tools, was, pred, new_, patch) && Kept(now, was, changed)
    requires pred.installer !in changed && pred.patchOut !in changed
    ensures DirectProven(tools, now, pred, new_, patch)
  {
  }

  lemma TarSurvives(tools: Tools, was: map<string, Bytes>, now: map<string, Bytes>, changed: set<string>,
                    pred: Predecessor, new_: Bytes, patch: TarPatch)
    requires TarProven(tools, was, pred, new_, patch) && Kept(now, was, changed)
    requires pred.installer !in changed && pred.tarLayer.value.patchOut !in changed
    ensures TarProven(tools, now, pred, new_, patch)
  {
  }

  /** Writing the next patch disturbs none of those already proven. */
  lemma EarlierSurvive(tools: Tools, req: Request, was: map<string, Bytes>, now: map<string, Bytes>, i: nat,
                       new_: Bytes, direct: seq<Patch>)
    requires OutputsFree(req) && Apart(req.predecessors) && i == |direct| < |req.predecessors|
    requires Kept(now, was, {req.predecessors[i].patchOut})
    requires forall j :: 0 <= j < i ==> DirectProven(tools, was, req.predecessors[j], new_, direct[j])
    ensures forall j :: 0 <= j < i ==> DirectProven(tools, now, req.predecessors[j], new_, direct[j])
  {
    var preds := req.predecessors;
    OutputFacts(req, i);
    forall j | 0 <= j < i ensures DirectProven(tools, now, preds[j], new_, direct[j]) {
      OutputsDiffer(preds, i, j);
      DirectSurvives(tools, was, now, {preds[i].patchOut}, preds[j], new_, direct[j]);
    }
  }

  /** The patches proven so far, on the files as they are now. */
  ghost predicate AllProven(tools: Tools, files: map<string, Bytes>, preds: seq<Predecessor>, new_: Bytes, direct: seq<Patch>) {
    |direct| <= |preds| && forall i :: 0 <= i < |direct| ==> DirectProven(tools, files, preds[i], new_, direct[i])
  }

  /** Predecessor `i` is missing, or the patch made from it does not rebuild the new installer. */
  ghost predicate Unproven(tools: Tools, files: map<string, Bytes>, req: Request, i: nat)
    requires req.newInstaller in files && i < |req.predecessors|
  {
    var path, new_ := req.predecessors[i].installer, files[req.newInstaller];
    path in files ==> !Reconstructs(tools, files[path], Diff(tools.codec, files[path], new_), None, new_)
  }

  /** The next predecessor's patch, beside those already proven. */
  method NextDirect(bench: Bench, req: Request, expected: FileHash, direct: seq<Patch>) returns (r: Result<seq<Patch>, ReleaseError>)
    requires OutputsFree(req) && Apart(req.predecessors) && |direct| < |req.predecessors|
    requires req.newInstaller in bench.files && bench.tools.scheme.hash(bench.files[req.newInstaller]) == expected
    requires AllProven(bench.tools, bench.files, req.predecessors, bench.files[req.newInstaller], direct)
    modifies bench
    ensures Kept(bench.files, old(bench.files), OutputSet(req.predecessors))
    ensures req.newInstaller in bench.files && bench.files[req.newInstaller] == old(bench.files)[req.newInstaller]
    ensures r.Ok? ==>
      && |r.value| == |direct| + 1
      && AllProven(bench.tools, bench.files, req.predecessors, bench.files[req.newInstaller], r.value)
    ensures r.Err? && bench.reliable ==> Unproven(bench.tools, old(bench.files), req, |direct|)
  {
    ghost var was, new_ := bench.files, bench.files[req.newInstaller];
    OutputFacts(req, |direct|);
    var patch := GenerateDirect(bench, req.predecessors[|direct|], req.newInstaller, expected);
    if patch.Err? {
      return Err(patch.error);
    }
    EarlierSurvive(bench.tools, req, was, bench.files, |direct|, new_, direct);
    return Ok(direct + [patch.value]);
  }

  lemma KeptOn(now: map<string, Bytes>, mid: map<string, Bytes>, was: map<string, Bytes>, changed: set<string>)
    requires Kept(now, mid, changed) && Kept(mid, was, changed)
    ensures Kept(now, was, changed)
  {
  }

  /** Some direct patch cannot be proven. */
  ghost predicate DirectBlocked(tools: Tools, files: map<string, Bytes>, req: Request)
    requires req.newInstaller in files
  {
    exists i :: 0 <= i < |req.predecessors| && Unproven(tools, files, req, i)
  }

  lemma UnprovenBefore(tools: Tools, req: Request, was: map<string, Bytes>, now: map<string, Bytes>, i: nat)
    requires OutputsFree(req) && i < |req.predecessors| && req.newInstaller in was && Kept(now, was, OutputSet(req.predecessors))
    ensures req.newInstaller in now && (Unproven(tools, now, req, i) <==> Unproven(tools, was, req, i))
  {
    assert req.newInstaller !in OutputSet(req.predecessors);
    assert req.predecessors[i].installer !in OutputSet(req.predecessors);
  }

  /** Every predecessor's direct patch, each proven on the file it leaves on disk. */
  method DirectPatches(bench: Bench, req: Request, expected: FileHash) returns (r: Result<seq<Patch>, ReleaseError>)
    requires OutputsFree(req) && Apart(req.predecessors)
    requires req.newInstaller in bench.files && bench.tools.scheme.hash(bench.files[req.newInstaller]) == expected
    modifies bench
    ensures Kept(bench.files, old(bench.files), OutputSet(req.predecessors))
    ensures r.Ok? ==>
      && |r.value| == |req.predecessors|
      && req.newInstaller in bench.files
      && AllProven(bench.tools, bench.files, req.predecessors, bench.files[req.newInstaller], r.value)
    ensures r.Err? && bench.reliable ==> DirectBlocked(bench.tools, old(bench.files), req)
  {
    var direct: seq<Patch> := [];
    for i := 0 to |req.predecessors|
      invariant |direct| == i && Kept(bench.files, old(bench.files), OutputSet(req.predecessors))
      invariant req.newInstaller in bench.files && bench.files[req.newInstaller] == old(bench.files)[req.newInstaller]
      invariant AllProven(bench.tools, bench.files, req.predecessors, bench.files[req.newInstaller], direct)
    {
      ghost var mid := bench.files;
      var next := NextDirect(bench, req, expected, direct);
      KeptOn(bench.files, mid, old(bench.files), OutputSet(req.predecessors));
      if next.Err? {
        UnprovenBefore(bench.tools, req, old(bench.files), mid, i);
        return Err(next.error);
      }
      direct := next.value;
    }
    return Ok(direct);
  }

  // ---- the tar layer across predecessors -------------------------------------------------

  /** What one predecessor contributed: its tar patch size if one was published, and whether a request for one was skipped. */
  predicate TarProduced(summary: PatchSummary) { summary.tarPatchSize.Some? }

  /** One of the first `n` predecessors asked for a tar layer. */
  predicate Asked(preds: seq<Predecessor>, n: nat)
    requires n <= |preds|
  {
    exists i :: 0 <= i < n && preds[i].tarLayer.Some?
  }

  /** The patch this run published for a version, as its summary and the layer agree. */
  ghost predicate TarPublished(tools: Tools, files: map<string, Bytes>, pred: Predecessor, new_: Bytes,
                               layer: TarLayer, summary: PatchSummary)
  {
    && pred.fromVersion in layer.patches
    && TarProven(tools, files, pred, new_, layer.patches[pred.fromVersion])
    && summary.tarPatchSize == Some(layer.patches[pred.fromVersion].patchSize)
  }

  /**
   * The layer part way through: while nobody asked for one it is what was
   * inherited; once somebody has, it is absent or names exactly the tar inside
   * the new installer, and every patch in it was proven in this run or was
   * inherited for that same tar.
   */
  ghost predicate LayerSound(tools: Tools, files: map<string, Bytes>, req: Request, new_: Bytes, inherited: Option<TarLayer>,
                             layer: Option<TarLayer>, proven: bool, summaries: seq<PatchSummary>)
    requires |summaries| <= |req.predecessors|
  {
    var preds, n := req.predecessors, |summaries|;
    && (!Asked(preds, n) ==> layer == inherited && !proven)
    && (Asked(preds, n) && layer.Some? ==> proven)
    && (proven ==>
          && layer.Some? && NamesTar(tools, new_, layer.value) && LooksLikeAppTarGz(req.newInstaller, new_)
          && layer.value.patches != map[]
          && (forall from :: from in layer.value.patches ==> FromRunOrInherited(preds, summaries, inherited, layer.value, from))
          && Retains(preds, summaries, inherited, layer.value))
    && Reported(tools, files, preds, new_, layer, proven, summaries)
  }

  /** The first predecessor that asked for a tar patch got one. */
  ghost predicate FirstMade(preds: seq<Predecessor>, summaries: seq<PatchSummary>)
    requires |summaries| <= |preds|
  {
    exists j :: 0 <= j < |summaries| && TarProduced(summaries[j]) && forall i :: 0 <= i < j ==> preds[i].tarLayer.None?
  }

  /** An inherited layer for the same tar is kept whole if so, and is otherwise cleared: every patch is then of this run. */
  ghost predicate Retains(preds: seq<Predecessor>, summaries: seq<PatchSummary>, inherited: Option<TarLayer>, layer: TarLayer)
    requires |summaries| <= |preds|
  {
    if FirstMade(preds, summaries) then
      inherited.Some? && inherited.value.targetTarBlake3 == layer.targetTarBlake3 ==>
        forall from :: from in inherited.value.patches ==> from in layer.patches
    else
      forall from :: from in layer.patches ==> MadeInRun(preds, summaries, from)
  }

  ghost predicate MadeInRun(preds: seq<Predecessor>, summaries: seq<PatchSummary>, from: string)
    requires |summaries| <= |preds|
  {
    exists j :: 0 <= j < |summaries| && preds[j].fromVersion == from && TarProduced(summaries[j])
  }

  lemma FirstMadeSnoc(preds: seq<Predecessor>, summaries: seq<PatchSummary>, summary: PatchSummary)
    requires |summaries| < |preds|
    ensures FirstMade(preds, summaries + [summary])
            <==> FirstMade(preds, summaries) || (TarProduced(summary) && !Asked(preds, |summaries|))
  {
    var n, all := |summaries|, summaries + [summary];
    assert all[n] == summary;
    if j :| 0 <= j < n && TarProduced(summaries[j]) && forall i :: 0 <= i < j ==> preds[i].tarLayer.None? {
      assert all[j] == summaries[j];
    }
    if j :| 0 <= j < n + 1 && TarProduced(all[j]) && forall i :: 0 <= i < j ==> preds[i].tarLayer.None? {
      assert j < n ==> all[j] == summaries[j];
    }
  }

  lemma MadeStays(preds: seq<Predecessor>, summaries: seq<PatchSummary>, summary: PatchSummary, from: string)
    requires |summaries| < |preds| && MadeInRun(preds, summaries, from)
    ensures MadeInRun(preds, summaries + [summary], from)
  {
    var j :| 0 <= j < |summaries| && preds[j].fromVersion == from && TarProduced(summaries[j]);
    assert (summaries + [summary])[j] == summaries[j];
  }

  /** A predecessor without a patch changes nothing about that. */
  lemma RetainsUnmade(preds: seq<Predecessor>, summaries: seq<PatchSummary>, inherited: Option<TarLayer>, layer: TarLayer,
                      summary: PatchSummary)
    requires |summaries| < |preds| && !TarProduced(summary) && Retains(preds, summaries, inherited, layer)
    ensures Retains(preds, summaries + [summary], inherited, layer)
  {
    FirstMadeSnoc(preds, summaries, summary);
    forall from | from in layer.patches && MadeInRun(preds, summaries, from) ensures MadeInRun(preds, summaries + [summary], from) {
      MadeStays(preds, summaries, summary, from);
    }
  }

  /** Neither does one with a patch, added to a layer there was or carried over from the one inherited. */
  lemma RetainsMade(preds: seq<Predecessor>, summaries: seq<PatchSummary>, inherited: Option<TarLayer>, layer: Option<TarLayer>,
                    published: TarLayer, summary: PatchSummary)
    requires |summaries| < |preds| && TarProduced(summary) && preds[|summaries|].fromVersion in published.patches
    requires published.patches == Carried(layer, published.targetTarBlake3)
               [preds[|summaries|].fromVersion := published.patches[preds[|summaries|].fromVersion]]
    requires if Asked(preds, |summaries|) then
               if layer.Some? then
                 layer.value.targetTarBlake3 == published.targetTarBlake3 && Retains(preds, summaries, inherited, layer.value)
               else !FirstMade(preds, summaries)
             else layer == inherited
    ensures Retains(preds, summaries + [summary], inherited, published)
  {
    var n := |summaries|;
    FirstMadeSnoc(preds, summaries, summary);
    if !FirstMade(preds, summaries + [summary]) {
      forall from | from in published.patches ensures MadeInRun(preds, summaries + [summary], from) {
        if from == preds[n].fromVersion {
          assert (summaries + [summary])[n] == summary;
        } else {
          MadeStays(preds, summaries, summary, from);
        }
      }
    }
  }

  /** The summaries say which predecessors have a proven tar patch in the layer, and which were skipped although they need not be. */
  ghost predicate Reported(tools: Tools, files: map<string, Bytes>, preds: seq<Predecessor>, new_: Bytes,
                           layer: Option<TarLayer>, proven: bool, summaries: seq<PatchSummary>)
    requires |summaries| <= |preds| && (proven ==> layer.Some?)
  {
    var n := |summaries|;
    && (forall j :: 0 <= j < n ==> summaries[j].fromVersion == preds[j].fromVersion)
    && (forall j :: 0 <= j < n && TarProduced(summaries[j]) ==>
          proven && TarPublished(tools, files, preds[j], new_, layer.value, summaries[j]))
    && (forall j :: 0 <= j < n && !TarProduced(summaries[j]) ==>
          (summaries[j].tarLayerSkipped <==> preds[j].tarLayer.Some?)
          && (preds[j].tarLayer.Some? ==> !preds[j].tarLayer.value.required))
  }

  ghost predicate FromRunOrInherited(preds: seq<Predecessor>, summaries: seq<PatchSummary>, inherited: Option<TarLayer>,
                                     layer: TarLayer, from: string)
    requires |summaries| <= |preds| && from in layer.patches
  {
    || (exists j :: 0 <= j < |summaries| && preds[j].fromVersion == from && TarProduced(summaries[j]))
    || (inherited.Some? && inherited.value.targetTarBlake3 == layer.targetTarBlake3
        && from in inherited.value.patches && inherited.value.patches[from] == layer.patches[from])
  }

  /** The loop over predecessors that fills the tar layer. */
  method TarPatches(bench: Bench, req: Request, inherited: Option<TarLayer>, direct: seq<Patch>)
    returns (r: Result<(Option<TarLayer>, seq<PatchSummary>), ReleaseError>, ghost proven: bool)
    requires OutputsFree(req) && Apart(req.predecessors) && |direct| == |req.predecessors|
    requires req.newInstaller in bench.files
    modifies bench
    ensures Kept(bench.files, old(bench.files), TarOutputs(req.predecessors))
    ensures r.Ok? ==>
      && |r.value.1| == |req.predecessors|
      && LayerSound(bench.tools, bench.files, req, old(bench.files)[req.newInstaller], inherited, r.value.0, proven, r.value.1)
      && forall i :: 0 <= i < |direct| ==> r.value.1[i].patchSize == direct[i].patchSize
    ensures r.Err? && bench.reliable ==> TarsBlocked(bench.tools, old(bench.files), req)
    ensures r.Ok? && bench.reliable ==> MadeWherePossible(bench.tools, old(bench.files), req, r.value.1)
  {
    var preds := req.predecessors;
    ghost var was := bench.files;
    var layer := inherited;
    var provenForTarget := false;
    var summaries: seq<PatchSummary> := [];
    NobodyAsked(bench.tools, bench.files, req, inherited, direct);
    for i := 0 to |preds|
      invariant |summaries| == i && TarsSoFar(bench.tools, was, bench.files, req, inherited, direct, layer, provenForTarget, summaries)
      invariant bench.reliable ==> MadeWherePossible(bench.tools, was, req, summaries)
    {
      var done := TarStep(bench, req, i, direct[i].patchSize, was, inherited, layer, provenForTarget, summaries);
      if done.None? {
        return Err(RequestError), false;
      }
      OneMore(bench.tools, was, bench.files, req, inherited, direct, done.value.0, done.value.1, summaries, done.value.2);
      layer, provenForTarget := done.value.0, done.value.1;
      summaries := summaries + [done.value.2];
    }
    return Ok((layer, summaries)), provenForTarget;
  }

  /** What the loop has come to: the layer and the reports so far, on files of which only tar patches have changed. */
  ghost predicate TarsSoFar(tools: Tools, was: map<string, Bytes>, now: map<string, Bytes>, req: Request, inherited: Option<TarLayer>,
                            direct: seq<Patch>, layer: Option<TarLayer>, proven: bool, summaries: seq<PatchSummary>)
    requires |summaries| <= |req.predecessors| && |summaries| <= |direct|
  {
    && Kept(now, was, TarOutputs(req.predecessors))
    && req.newInstaller in was && req.newInstaller in now && now[req.newInstaller] == was[req.newInstaller]
    && LayerSound(tools, now, req, was[req.newInstaller], inherited, layer, proven, summaries)
    && forall j :: 0 <= j < |summaries| ==> summaries[j].patchSize == direct[j].patchSize
  }

  lemma NobodyAsked(tools: Tools, files: map<string, Bytes>, req: Request, inherited: Option<TarLayer>, direct: seq<Patch>)
    requires req.newInstaller in files
    ensures TarsSoFar(tools, files, files, req, inherited, direct, inherited, false, [])
    ensures MadeWherePossible(tools, files, req, [])
  {
  }

  lemma OneMore(tools: Tools, was: map<string, Bytes>, now: map<string, Bytes>, req: Request, inherited: Option<TarLayer>,
                direct: seq<Patch>, layer: Option<TarLayer>, proven: bool, summaries: seq<PatchSummary>, summary: PatchSummary)
    requires |summaries| < |req.predecessors| == |direct| && Kept(now, was, TarOutputs(req.predecessors))
    requires req.newInstaller in was && req.newInstaller in now && now[req.newInstaller] == was[req.newInstaller]
    requires LayerSound(tools, now, req, was[req.newInstaller], inherited, layer, proven, summaries + [summary])
    requires forall j :: 0 <= j < |summaries| ==> summaries[j].patchSize == direct[j].patchSize
    requires summary.patchSize == direct[|summaries|].patchSize
    ensures TarsSoFar(tools, was, now, req, inherited, direct, layer, proven, summaries + [summary])
  {
  }

  /** One turn of that loop, on files that were `was` when it began. */
  method TarStep(bench: Bench, req: Request, i: nat, patchSize: nat, ghost was: map<string, Bytes>, ghost inherited: Option<TarLayer>,
                 layer: Option<TarLayer>, proven: bool, ghost summaries: seq<PatchSummary>)
    returns (r: Option<(Option<TarLayer>, bool, PatchSummary)>)
    requires OutputsFree(req) && Apart(req.predecessors) && i == |summaries| < |req.predecessors|
    requires Kept(bench.files, was, TarOutputs(req.predecessors))
    requires req.newInstaller in was && req.newInstaller in bench.files && bench.files[req.newInstaller] == was[req.newInstaller]
    requires LayerSound(bench.tools, bench.files, req, was[req.newInstaller], inherited, layer, proven, summaries)
    requires bench.reliable ==> MadeWherePossible(bench.tools, was, req, summaries)
    modifies bench
    ensures Kept(bench.files, was, TarOutputs(req.predecessors))
    ensures req.newInstaller in bench.files && bench.files[req.newInstaller] == was[req.newInstaller]
    ensures r.None? && bench.reliable ==> TarsBlocked(bench.tools, was, req)
    ensures r.Some? ==>
      && LayerSound(bench.tools, bench.files, req, was[req.newInstaller], inherited, r.value.0, r.value.1, summaries + [r.value.2])
      && r.value.2.patchSize == patchSize
      && (bench.reliable ==> MadeWherePossible(bench.tools, was, req, summaries + [r.value.2]))
  {
    TarPossibleAmidTars(bench.tools, req, was, bench.files, i);
    match req.predecessors[i].tarLayer {
      case None =>
        var summary := PatchSummary(req.predecessors[i].fromVersion, patchSize, None, false);
        SoundWhenNotAsked(bench.tools, bench.files, req, was[req.newInstaller], inherited, layer, proven, summaries, summary);
        r := Some((layer, proven, summary));
      case Some(_) =>
        r := TarPatchFrom(bench, req, i, patchSize, inherited, layer, proven, summaries);
        assert r.None? && bench.reliable ==> TarImpossible(bench.tools, was, req, i);
    }
    if r.Some? && bench.reliable {
      MadeSnoc(bench.tools, was, req, summaries, r.value.2);
    }
  }

  /** One predecessor that asked for a tar patch; nothing comes back when the patch was required and failed. */
  method TarPatchFrom(bench: Bench, req: Request, i: nat, patchSize: nat, ghost inherited: Option<TarLayer>,
                      layer: Option<TarLayer>, proven: bool, ghost summaries: seq<PatchSummary>)
    returns (r: Option<(Option<TarLayer>, bool, PatchSummary)>)
    requires OutputsFree(req) && Apart(req.predecessors)
    requires req.newInstaller in bench.files && i == |summaries| < |req.predecessors|
    requires req.predecessors[i].tarLayer.Some?
    requires LayerSound(bench.tools, bench.files, req, bench.files[req.newInstaller], inherited, layer, proven, summaries)
    modifies bench
    ensures Kept(bench.files, old(bench.files), {req.predecessors[i].tarLayer.value.patchOut})
    ensures req.newInstaller in bench.files && bench.files[req.newInstaller] == old(bench.files)[req.newInstaller]
    ensures r.Some? ==>
      && LayerSound(bench.tools, bench.files, req, old(bench.files)[req.newInstaller], inherited, r.value.0, r.value.1, summaries + [r.value.2])
      && r.value.2.patchSize == patchSize
    ensures bench.reliable ==>
      && (r.None? ==> TarImpossible(bench.tools, old(bench.files), req, i))
      && (r.Some? ==> (TarProduced(r.value.2) <==> TarPossibleFrom(bench.tools, old(bench.files), req, i)))
  {
    var pred := req.predecessors[i];
    ghost var was, new_ := bench.files, bench.files[req.newInstaller];
    OutputFacts(req, i);
    var built := BuildTarLayer(bench, pred, req.newInstaller, layer);
    EarlierTarsSurvive(bench.tools, req, was, bench.files, new_, inherited, layer, proven, summaries);
    match built {
      case Ok((published, size)) =>
        var summary := PatchSummary(pred.fromVersion, patchSize, Some(size), false);
        SoundWhenBuilt(bench.tools, bench.files, req, new_, inherited, layer, proven, summaries, published, summary);
        return Some((Some(published), true, summary));
      case Err(_) =>
        if pred.tarLayer.value.required {
          return None;
        }
        var summary := PatchSummary(pred.fromVersion, patchSize, None, true);
        SoundWhenSkipped(bench.tools, bench.files, req, new_, inherited, layer, proven, summaries, summary);
        return Some((if proven then layer else None, proven, summary));
    }
  }

  /** Predecessor `i` asked for a tar patch, and one can be made and proven from these files. */
  ghost predicate TarPossibleFrom(tools: Tools, files: map<string, Bytes>, req: Request, i: nat)
    requires req.newInstaller in files && i < |req.predecessors|
  {
    var pred := req.predecessors[i];
    && pred.tarLayer.Some? && pred.installer in files
    && TarPossible(tools, pred.installer, files[pred.installer], req.newInstaller, files[req.newInstaller],
                   pred.tarLayer.value.maxTarBytes)
  }

  /** A tar patch was required from predecessor `i` and cannot be made. */
  ghost predicate TarImpossible(tools: Tools, files: map<string, Bytes>, req: Request, i: nat)
    requires req.newInstaller in files && i < |req.predecessors|
  {
    var pred := req.predecessors[i];
    pred.tarLayer.Some? && pred.tarLayer.value.required && !TarPossibleFrom(tools, files, req, i)
  }

  /** Some required tar patch cannot be made. */
  ghost predicate TarsBlocked(tools: Tools, files: map<string, Bytes>, req: Request)
    requires req.newInstaller in files
  {
    exists i :: 0 <= i < |req.predecessors| && TarImpossible(tools, files, req, i)
  }

  /** Nobody who could have a tar patch was passed over, and nobody else has one. */
  ghost predicate MadeWherePossible(tools: Tools, files: map<string, Bytes>, req: Request, summaries: seq<PatchSummary>)
    requires req.newInstaller in files && |summaries| <= |req.predecessors|
  {
    forall i :: 0 <= i < |summaries| ==> (TarProduced(summaries[i]) <==> TarPossibleFrom(tools, files, req, i))
  }

  lemma MadeSnoc(tools: Tools, files: map<string, Bytes>, req: Request, summaries: seq<PatchSummary>, summary: PatchSummary)
    requires req.newInstaller in files && |summaries| < |req.predecessors|
    requires MadeWherePossible(tools, files, req, summaries)
    requires TarProduced(summary) <==> TarPossibleFrom(tools, files, req, |summaries|)
    ensures MadeWherePossible(tools, files, req, summaries + [summary])
  {
  }

  /** No output is an input, so what is possible does not change as outputs are written. */
  lemma TarPossibleAtStart(tools: Tools, req: Request, was: map<string, Bytes>, now: map<string, Bytes>, i: nat)
    requires OutputsFree(req) && i < |req.predecessors| && req.newInstaller in was && Kept(now, was, OutputSet(req.predecessors))
    ensures req.newInstaller in now && (TarPossibleFrom(tools, now, req, i) <==> TarPossibleFrom(tools, was, req, i))
  {
    assert req.newInstaller !in OutputSet(req.predecessors);
    assert req.predecessors[i].installer !in OutputSet(req.predecessors);
  }

  lemma TarPossibleAmidTars(tools: Tools, req: Request, was: map<string, Bytes>, now: map<string, Bytes>, i: nat)
    requires OutputsFree(req) && i < |req.predecessors| && req.newInstaller in was && Kept(now, was, TarOutputs(req.predecessors))
    ensures req.newInstaller in now && (TarPossibleFrom(tools, now, req, i) <==> TarPossibleFrom(tools, was, req, i))
  {
    TarOutputsAreOutputs(req);
    TarPossibleAtStart(tools, req, was, now, i);
  }

  ghost function TarOutputs(preds: seq<Predecessor>): set<string> {
    set i | 0 <= i < |preds| && preds[i].tarLayer.Some? :: preds[i].tarLayer.value.patchOut
  }

  lemma SoundWhenNotAsked(tools: Tools, files: map<string, Bytes>, req: Request, new_: Bytes, inherited: Option<TarLayer>,
                          layer: Option<TarLayer>, proven: bool, summaries: seq<PatchSummary>, summary: PatchSummary)
    requires |summaries| < |req.predecessors| && LayerSound(tools, files, req, new_, inherited, layer, proven, summaries)
    requires var pred := req.predecessors[|summaries|];
             pred.tarLayer.None? && summary.fromVersion == pred.fromVersion && !TarProduced(summary) && !summary.tarLayerSkipped
    ensures LayerSound(tools, files, req, new_, inherited, layer, proven, summaries + [summary])
  {
    StillFrom(req.predecessors, summaries, inherited, layer, summary);
    if proven {
      RetainsUnmade(req.predecessors, summaries, inherited, layer.value, summary);
    }
    ReportedUnmade(tools, files, req.predecessors, new_, layer, layer, proven, summaries, summary);
  }

  lemma StillFrom(preds: seq<Predecessor>, summaries: seq<PatchSummary>, inherited: Option<TarLayer>, layer: Option<TarLayer>,
                  summary: PatchSummary)
    requires |summaries| < |preds|
    ensures forall from ::
      layer.Some? && from in layer.value.patches && FromRunOrInherited(preds, summaries, inherited, layer.value, from) ==>
        FromRunOrInherited(preds, summaries + [summary], inherited, layer.value, from)
  {
    forall from | layer.Some? && from in layer.value.patches && FromRunOrInherited(preds, summaries, inherited, layer.value, from)
      ensures FromRunOrInherited(preds, summaries + [summary], inherited, layer.value, from)
    {
      if j :| 0 <= j < |summaries| && preds[j].fromVersion == from && TarProduced(summaries[j]) {
        assert (summaries + [summary])[j] == summaries[j];
      }
    }
  }

  lemma SoundWhenSkipped(tools: Tools, files: map<string, Bytes>, req: Request, new_: Bytes, inherited: Option<TarLayer>,
                         layer: Option<TarLayer>, proven: bool, summaries: seq<PatchSummary>, summary: PatchSummary)
    requires |summaries| < |req.predecessors| && LayerSound(tools, files, req, new_, inherited, layer, proven, summaries)
    requires var pred := req.predecessors[|summaries|];
             && pred.tarLayer.Some? && !pred.tarLayer.value.required && summary.fromVersion == pred.fromVersion
             && !TarProduced(summary) && summary.tarLayerSkipped
    ensures LayerSound(tools, files, req, new_, inherited, if proven then layer else None, proven, summaries + [summary])
  {
    StillFrom(req.predecessors, summaries, inherited, layer, summary);
    if proven {
      RetainsUnmade(req.predecessors, summaries, inherited, layer.value, summary);
    }
    ReportedUnmade(tools, files, req.predecessors, new_, layer, if proven then layer else None, proven, summaries, summary);
  }

  lemma ReportedUnmade(tools: Tools, files: map<string, Bytes>, preds: seq<Predecessor>, new_: Bytes, layer: Option<TarLayer>,
                       kept: Option<TarLayer>, proven: bool, summaries: seq<PatchSummary>, summary: PatchSummary)
    requires |summaries| < |preds| && (proven ==> layer.Some? && kept == layer)
    requires Reported(tools, files, preds, new_, layer, proven, summaries)
    requires summary.fromVersion == preds[|summaries|].fromVersion && !TarProduced(summary)
    requires summary.tarLayerSkipped <==> preds[|summaries|].tarLayer.Some?
    requires preds[|summaries|].tarLayer.Some? ==> !preds[|summaries|].tarLayer.value.required
    ensures Reported(tools, files, preds, new_, kept, proven, summaries + [summary])
  {
  }

  lemma SoundWhenBuilt(tools: Tools, files: map<string, Bytes>, req: Request, new_: Bytes, inherited: Option<TarLayer>,
                       layer: Option<TarLayer>, proven: bool, summaries: seq<PatchSummary>, published: TarLayer, summary: PatchSummary)
    requires Apart(req.predecessors)
    requires |summaries| < |req.predecessors| && LayerSound(tools, files, req, new_, inherited, layer, proven, summaries)
    requires LooksLikeAppTarGz(req.newInstaller, new_) && NamesTar(tools, new_, published)
    requires var pred := req.predecessors[|summaries|];
             && pred.tarLayer.Some? && summary.fromVersion == pred.fromVersion
             && TarPublished(tools, files, pred, new_, published, summary)
             && published.patches == Carried(layer, published.targetTarBlake3)[pred.fromVersion := published.patches[pred.fromVersion]]
    ensures LayerSound(tools, files, req, new_, inherited, Some(published), true, summaries + [summary])
  {
    CarriedFrom(req.predecessors, summaries, inherited, layer, proven, published, summary);
    RetainsMade(req.predecessors, summaries, inherited, layer, published, summary);
    ReportedBuilt(tools, files, req.predecessors, new_, layer, proven, summaries, published, summary);
  }

  lemma ReportedBuilt(tools: Tools, files: map<string, Bytes>, preds: seq<Predecessor>, new_: Bytes, layer: Option<TarLayer>,
                      proven: bool, summaries: seq<PatchSummary>, published: TarLayer, summary: PatchSummary)
    requires Apart(preds) && |summaries| < |preds|
    requires proven ==> layer.Some? && NamesTar(tools, new_, layer.value)
    requires Reported(tools, files, preds, new_, layer, proven, summaries)
    requires NamesTar(tools, new_, published) && summary.fromVersion == preds[|summaries|].fromVersion
    requires TarPublished(tools, files, preds[|summaries|], new_, published, summary)
    requires published.patches == Carried(layer, published.targetTarBlake3)
               [preds[|summaries|].fromVersion := published.patches[preds[|summaries|].fromVersion]]
    ensures Reported(tools, files, preds, new_, Some(published), true, summaries + [summary])
  {
    if proven {
      PublishedStay(tools, files, preds, new_, layer.value, summaries, published);
    }
  }

  /** Adding a patch under a new version leaves those already published as they were. */
  lemma PublishedStay(tools: Tools, files: map<string, Bytes>, preds: seq<Predecessor>, new_: Bytes,
                      layer: TarLayer, summaries: seq<PatchSummary>, published: TarLayer)
    requires Apart(preds) && |summaries| < |preds|
    requires NamesTar(tools, new_, layer) && NamesTar(tools, new_, published)
    requires preds[|summaries|].fromVersion in published.patches
    requires published.patches == layer.patches[preds[|summaries|].fromVersion := published.patches[preds[|summaries|].fromVersion]]
    requires forall j :: 0 <= j < |summaries| && TarProduced(summaries[j]) ==>
      TarPublished(tools, files, preds[j], new_, layer, summaries[j])
    ensures forall j :: 0 <= j < |summaries| && TarProduced(summaries[j]) ==>
      TarPublished(tools, files, preds[j], new_, published, summaries[j])
  {
    forall j | 0 <= j < |summaries| && TarProduced(summaries[j])
      ensures TarPublished(tools, files, preds[j], new_, published, summaries[j])
    {
      assert preds[j].fromVersion != preds[|summaries|].fromVersion;
    }
  }

  lemma CarriedFrom(preds: seq<Predecessor>, summaries: seq<PatchSummary>, inherited: Option<TarLayer>, layer: Option<TarLayer>,
                    proven: bool, published: TarLayer, summary: PatchSummary)
    requires |summaries| < |preds| && TarProduced(summary)
    requires preds[|summaries|].fromVersion in published.patches
    requires published.patches == Carried(layer, published.targetTarBlake3)
               [preds[|summaries|].fromVersion := published.patches[preds[|summaries|].fromVersion]]
    requires layer != inherited ==>
      layer.Some? ==> forall from :: from in layer.value.patches ==> FromRunOrInherited(preds, summaries, inherited, layer.value, from)
    ensures forall from :: from in published.patches ==>
      FromRunOrInherited(preds, summaries + [summary], inherited, published, from)
  {
    var n := |summaries|;
    forall from | from in published.patches ensures FromRunOrInherited(preds, summaries + [summary], inherited, published, from) {
      if from == preds[n].fromVersion {
        assert (summaries + [summary])[n] == summary;
      } else if layer != inherited {
        StillFrom(preds, summaries, inherited, layer, summary);
        assert from in layer.value.patches && published.patches[from] == layer.value.patches[from];
        assert FromRunOrInherited(preds, summaries + [summary], inherited, layer.value, from);
      }
    }
  }

  lemma EarlierTarsSurvive(tools: Tools, req: Request, was: map<string, Bytes>, now: map<string, Bytes>, new_: Bytes,
                           inherited: Option<TarLayer>, layer: Option<TarLayer>, proven: bool, summaries: seq<PatchSummary>)
    requires OutputsFree(req) && Apart(req.predecessors) && |summaries| < |req.predecessors|
    requires req.predecessors[|summaries|].tarLayer.Some?
    requires Kept(now, was, {req.predecessors[|summaries|].tarLayer.value.patchOut})
    requires LayerSound(tools, was, req, new_, inherited, layer, proven, summaries)
    ensures LayerSound(tools, now, req, new_, inherited, layer, proven, summaries)
  {
    ReportedSurvives(tools, req, was, now, new_, layer, proven, summaries);
  }

  lemma ReportedSurvives(tools: Tools, req: Request, was: map<string, Bytes>, now: map<string, Bytes>, new_: Bytes,
                         layer: Option<TarLayer>, proven: bool, summaries: seq<PatchSummary>)
    requires OutputsFree(req) && Apart(req.predecessors) && |summaries| < |req.predecessors|
    requires req.predecessors[|summaries|].tarLayer.Some?
    requires Kept(now, was, {req.predecessors[|summaries|].tarLayer.value.patchOut})
    requires (proven ==> layer.Some?) && Reported(tools, was, req.predecessors, new_, layer, proven, summaries)
    ensures Reported(tools, now, req.predecessors, new_, layer, proven, summaries)
  {
    var preds, n := req.predecessors, |summaries|;
    OutputFacts(req, n);
    forall j | 0 <= j < n && TarProduced(summaries[j])
      ensures TarPublished(tools, now, preds[j], new_, layer.value, summaries[j])
    {
      OutputsDiffer(preds, n, j);
      TarSurvives(tools, was, now, {preds[n].tarLayer.value.patchOut}, preds[j], new_, layer.value.patches[preds[j].fromVersion]);
    }
  }

  // ---- the whole release ---------------------------------------------------------------

  /** A manifest of another version is replaced, not merged. */
  function Inherited(existing: Option<Manifest>, req: Request): Manifest {
    if existing.Some? && existing.value.version == req.version then existing.value
    else Manifest(req.version, None, None, map[], None)
  }

  function DeltaOf(m: Manifest): DeltaLayer {
    if m.delta.Some? then m.delta.value else DeltaLayer(SCHEMA_VERSION, HASH_ALGO, map[])
  }

  /** What the inherited manifest says about this platform, if anything. */
  function EntryOf(m: Manifest, platform: string): DeltaPlatform {
    if platform in DeltaOf(m).platforms then DeltaOf(m).platforms[platform]
    else DeltaPlatform("", "", 0, "", map[], None, None)
  }

  /** The entry published for the request's platform. */
  ghost predicate EntryReleased(tools: Tools, files: map<string, Bytes>, req: Request, was: DeltaPlatform, new_: Bytes,
                                entry: DeltaPlatform, proven: bool, summaries: seq<PatchSummary>)
  {
    && entry.targetVersion == req.version && entry.targetInstallerBlake3 == ToHex(tools.scheme.hash(new_))
    && entry.targetInstallerSize == |new_| && entry.compressedFull == was.compressedFull
    && |summaries| == |req.predecessors|
    && PatchesReleased(tools, files, req.predecessors, was.patches, new_, entry.patches, |req.predecessors|)
    && (forall i :: 0 <= i < |summaries| ==> summaries[i].patchSize == entry.patches[req.predecessors[i].fromVersion].patchSize)
    && LayerSound(tools, files, req, new_, was.tarLayer, entry.tarLayer, proven, summaries)
  }

  /** The first `n` predecessors have their proven patch; every other patch was inherited, and none that was is missing. */
  ghost predicate PatchesReleased(tools: Tools, files: map<string, Bytes>, preds: seq<Predecessor>, was: map<string, Patch>,
                                  new_: Bytes, patches: map<string, Patch>, n: nat)
    requires n <= |preds|
  {
    && (forall i :: 0 <= i < n ==>
          preds[i].fromVersion in patches && DirectProven(tools, files, preds[i], new_, patches[preds[i].fromVersion]))
    && (forall from :: from in patches ==>
          (exists i :: 0 <= i < n && preds[i].fromVersion == from) || (from in was && was[from] == patches[from]))
    && forall from :: from in was ==> from in patches
  }

  /**
   * What a successful release is. Every predecessor has exactly one patch under
   * its own version, describing the file left on disk, which rebuilds the new
   * installer; the signature states exactly these bytes and this release; the
   * tar layer is absent or names the tar inside them, whatever was inherited;
   * nothing else of the inherited manifest changed; and the document is valid.
   */
  ghost predicate Released(tools: Tools, files: map<string, Bytes>, req: Request, existing: Option<Manifest>, signedAt: nat,
                           m: Manifest, proven: bool, summaries: seq<PatchSummary>)
  {
    var was := Inherited(existing, req);
    && WellPosed(tools, req) && req.newInstaller in files
    && (forall i :: 0 <= i < |req.predecessors| ==> req.predecessors[i].fromVersion != req.version)
    && var new_ := files[req.newInstaller];
    && SignRelease(tools, req, new_, signedAt).Some?
    && var signature := SignRelease(tools, req, new_, signedAt).value;
    && Valid(m) && m.version == req.version && m.delta.Some? && req.platform in m.delta.value.platforms
    && m.platforms == was.platforms[req.platform := TauriPlatform(req.installerUrl, signature)]
    && m.notes == (if req.notes.Some? then req.notes else was.notes)
    && m.pubDate == (if req.pubDate.Some? then req.pubDate else was.pubDate)
    && var entry := m.delta.value.platforms[req.platform];
    && m.delta.value == DeltaOf(was).(platforms := DeltaOf(was).platforms[req.platform := entry])
    && entry.signature == signature
    && EntryReleased(tools, files, req, EntryOf(was, req.platform), new_, entry, proven, summaries)
  }

  /**
   * What a release makes of a manifest of its own version that was already
   * there: every other platform stands as it was, in both layers, and of its own
   * entry every patch from another version and the compressed copy.
   */
  lemma MergesExactly(tools: Tools, files: map<string, Bytes>, req: Request, was: Manifest, signedAt: nat,
                      m: Manifest, proven: bool, summaries: seq<PatchSummary>)
    requires Released(tools, files, req, Some(was), signedAt, m, proven, summaries) && was.version == req.version
    ensures m.notes == (if req.notes.Some? then req.notes else was.notes)
    ensures m.pubDate == (if req.pubDate.Some? then req.pubDate else was.pubDate)
    ensures forall p :: p != req.platform ==>
      && (p in m.platforms <==> p in was.platforms) && (p in m.platforms ==> m.platforms[p] == was.platforms[p])
    ensures was.delta.Some? ==> forall p :: p != req.platform ==>
      && (p in m.delta.value.platforms <==> p in was.delta.value.platforms)
      && (p in m.delta.value.platforms ==> m.delta.value.platforms[p] == was.delta.value.platforms[p])
    ensures was.delta.Some? && req.platform in was.delta.value.platforms ==>
      var before, now := was.delta.value.platforms[req.platform], m.delta.value.platforms[req.platform];
      && now.compressedFull == before.compressedFull
      && forall from :: from in before.patches ==>
           && from in now.patches
           && (now.patches[from] == before.patches[from]
               || exists i :: 0 <= i < |req.predecessors| && req.predecessors[i].fromVersion == from)
  {
    if was.delta.Some? && req.platform in was.delta.value.platforms {
      EntryMerges(tools, files, req, was.delta.value.platforms[req.platform], files[req.newInstaller],
                  m.delta.value.platforms[req.platform], proven, summaries);
    }
  }

  lemma EntryMerges(tools: Tools, files: map<string, Bytes>, req: Request, before: DeltaPlatform, new_: Bytes,
                    now: DeltaPlatform, proven: bool, summaries: seq<PatchSummary>)
    requires EntryReleased(tools, files, req, before, new_, now, proven, summaries)
    ensures now.compressedFull == before.compressedFull
    ensures forall from :: from in before.patches ==>
      && from in now.patches
      && (now.patches[from] == before.patches[from]
          || exists i :: 0 <= i < |req.predecessors| && req.predecessors[i].fromVersion == from)
  {
  }

  /** A manifest of any other version leaves no trace. */
  lemma StartsOver(tools: Tools, files: map<string, Bytes>, req: Request, existing: Option<Manifest>, signedAt: nat,
                   m: Manifest, proven: bool, summaries: seq<PatchSummary>)
    requires Released(tools, files, req, existing, signedAt, m, proven, summaries)
    requires existing.Some? ==> existing.value.version != req.version
    ensures m.platforms.Keys == {req.platform} && m.delta.value.platforms.Keys == {req.platform}
    ensures m.notes == req.notes && m.pubDate == req.pubDate
    ensures var entry := m.delta.value.platforms[req.platform];
            && entry.compressedFull.None?
            && forall from :: from in entry.patches ==>
                 exists i :: 0 <= i < |req.predecessors| && req.predecessors[i].fromVersion == from
  {
  }

  /** Nothing is carried over from an earlier manifest. */
  predicate StartsAfresh(existing: Option<Manifest>, req: Request) {
    existing.Some? ==> existing.value.version != req.version
  }

  /** A valid manifest can describe predecessor `i`: nothing in it is empty or the same as its target. */
  ghost predicate Describable(tools: Tools, files: map<string, Bytes>, req: Request, i: nat)
    requires req.newInstaller in files && i < |req.predecessors|
  {
    var path, new_ := req.predecessors[i].installer, files[req.newInstaller];
    && path in files && files[path] != [] && tools.scheme.hash(files[path]) != tools.scheme.hash(new_)
    && (TarPossibleFrom(tools, files, req, i) ==> tools.gunzip(files[path]) != Some([]) && tools.gunzip(new_) != Some([]))
  }

  /** Everything a release needs, in terms of the files it starts from. */
  ghost predicate Releasable(tools: Tools, files: map<string, Bytes>, req: Request, signedAt: nat) {
    && WellPosed(tools, req) && Present(files, req)
    && SignRelease(tools, req, files[req.newInstaller], signedAt).Some?
    && forall i :: 0 <= i < |req.predecessors| ==>
         !Unproven(tools, files, req, i) && !TarImpossible(tools, files, req, i) && Describable(tools, files, req, i)
  }

  lemma HexIsHex(hash: FileHash)
    ensures IsHex(ToHex(hash))
  {
    HexRoundTrip(hash);
  }

  /** A patch made in this run is a valid one. */
  lemma MadePatchValid(tools: Tools, was: map<string, Bytes>, now: map<string, Bytes>, req: Request, entry: DeltaPlatform, i: nat)
    requires OutputsFree(req) && Present(was, req) && Kept(now, was, OutputSet(req.predecessors)) && i < |req.predecessors|
    requires entry.targetVersion == req.version && entry.targetInstallerBlake3 == ToHex(tools.scheme.hash(was[req.newInstaller]))
    requires var from := req.predecessors[i].fromVersion;
             from in entry.patches && DirectProven(tools, now, req.predecessors[i], was[req.newInstaller], entry.patches[from])
    ensures var pred := req.predecessors[i];
            ValidPatch(entry, pred.fromVersion, entry.patches[pred.fromVersion])
            <==> was[pred.installer] != [] && tools.scheme.hash(was[pred.installer]) != tools.scheme.hash(was[req.newInstaller])
  {
    var pred := req.predecessors[i];
    var delta, old_ := now[pred.patchOut], was[pred.installer];
    assert pred.installer !in OutputSet(req.predecessors);
    HexIsHex(tools.scheme.hash(delta));
    HexIsHex(tools.scheme.hash(old_));
    if ToHex(tools.scheme.hash(old_)) == entry.targetInstallerBlake3 {
      ToHexInjective(tools.scheme.hash(old_), tools.scheme.hash(was[req.newInstaller]));
    }
  }

  /** And so is a tar patch made in this run, except that an empty tar cannot be described. */
  lemma MadeTarValid(tools: Tools, was: map<string, Bytes>, now: map<string, Bytes>, req: Request, layer: TarLayer, i: nat)
    requires OutputsFree(req) && Present(was, req) && Kept(now, was, OutputSet(req.predecessors)) && i < |req.predecessors|
    requires NamesTar(tools, was[req.newInstaller], layer) && TarPossibleFrom(tools, was, req, i)
    requires was[req.predecessors[i].installer] != []
    requires var from := req.predecessors[i].fromVersion;
             from in layer.patches && TarProven(tools, now, req.predecessors[i], was[req.newInstaller], layer.patches[from])
    ensures var pred := req.predecessors[i];
            ValidTarPatch(layer, req.version, pred.fromVersion, layer.patches[pred.fromVersion])
            <==> tools.gunzip(was[pred.installer]) != Some([])
  {
    var pred := req.predecessors[i];
    assert pred.installer !in OutputSet(req.predecessors);
    var delta, old_ := now[pred.tarLayer.value.patchOut], was[pred.installer];
    var baseTar, targetTar := tools.gunzip(old_).value, tools.gunzip(was[req.newInstaller]).value;
    HexIsHex(tools.scheme.hash(delta));
    HexIsHex(tools.scheme.hash(old_));
    HexIsHex(tools.scheme.hash(baseTar));
    if ToHex(tools.scheme.hash(baseTar)) == layer.targetTarBlake3 {
      ToHexInjective(tools.scheme.hash(baseTar), tools.scheme.hash(targetTar));
    }
  }

  /** With nothing inherited, what the run built is valid. */
  lemma FreshEntryValid(tools: Tools, was: map<string, Bytes>, now: map<string, Bytes>, req: Request, signedAt: nat,
                        entry: DeltaPlatform, proven: bool, summaries: seq<PatchSummary>)
    requires OutputsFree(req) && Kept(now, was, OutputSet(req.predecessors)) && Releasable(tools, was, req, signedAt)
    requires EntryReleased(tools, now, req, DeltaPlatform("", "", 0, "", map[], None, None), was[req.newInstaller], entry, proven, summaries)
    requires MadeWherePossible(tools, was, req, summaries)
    ensures forall from :: from in entry.patches ==> ValidPatch(entry, from, entry.patches[from])
    ensures entry.tarLayer.Some? ==> ValidTarLayer(entry.targetVersion, entry.tarLayer.value)
    ensures entry.compressedFull.None? && IsHex(entry.targetInstallerBlake3)
  {
    var preds := req.predecessors;
    HexIsHex(tools.scheme.hash(was[req.newInstaller]));
    forall from | from in entry.patches ensures ValidPatch(entry, from, entry.patches[from]) {
      var i :| 0 <= i < |preds| && preds[i].fromVersion == from;
      assert Describable(tools, was, req, i);
      MadePatchValid(tools, was, now, req, entry, i);
    }
    if entry.tarLayer.Some? {
      FreshLayerValid(tools, was, now, req, signedAt, entry.tarLayer, proven, summaries);
    }
  }

  lemma FreshTarPatchValid(tools: Tools, was: map<string, Bytes>, now: map<string, Bytes>, req: Request, signedAt: nat,
                           layer: TarLayer, summaries: seq<PatchSummary>, i: nat)
    requires OutputsFree(req) && Kept(now, was, OutputSet(req.predecessors)) && Releasable(tools, was, req, signedAt)
    requires i < |req.predecessors| == |summaries| && MadeWherePossible(tools, was, req, summaries) && TarProduced(summaries[i])
    requires NamesTar(tools, was[req.newInstaller], layer)
    requires TarPublished(tools, now, req.predecessors[i], was[req.newInstaller], layer, summaries[i])
    ensures var from := req.predecessors[i].fromVersion;
            from in layer.patches && ValidTarPatch(layer, req.version, from, layer.patches[from]) && layer.targetTarSize != 0
  {
    assert Describable(tools, was, req, i) && TarPossibleFrom(tools, was, req, i);
    MadeTarValid(tools, was, now, req, layer, i);
  }

  lemma FreshLayerValid(tools: Tools, was: map<string, Bytes>, now: map<string, Bytes>, req: Request, signedAt: nat,
                        layer: Option<TarLayer>, proven: bool, summaries: seq<PatchSummary>)
    requires OutputsFree(req) && Kept(now, was, OutputSet(req.predecessors)) && Releasable(tools, was, req, signedAt)
    requires |summaries| == |req.predecessors| && layer.Some?
    requires LayerSound(tools, now, req, was[req.newInstaller], None, layer, proven, summaries)
    requires MadeWherePossible(tools, was, req, summaries)
    ensures ValidTarLayer(req.version, layer.value)
  {
    var preds := req.predecessors;
    forall from | from in layer.value.patches
      ensures ValidTarPatch(layer.value, req.version, from, layer.value.patches[from]) && layer.value.targetTarSize != 0
    {
      assert FromRunOrInherited(preds, summaries, None, layer.value, from);
      var i :| 0 <= i < |summaries| && preds[i].fromVersion == from && TarProduced(summaries[i]);
      assert TarPublished(tools, now, preds[i], was[req.newInstaller], layer.value, summaries[i]);
      FreshTarPatchValid(tools, was, now, req, signedAt, layer.value, summaries, i);
    }
    HexIsHex(tools.scheme.hash(tools.gunzip(was[req.newInstaller]).value));
    var from :| from in layer.value.patches;
  }

  /** With nothing inherited, a run that had everything it needed ends in a valid manifest. */
  lemma FreshIsValid(tools: Tools, was: map<string, Bytes>, now: map<string, Bytes>, req: Request, signedAt: nat,
                     m: Manifest, entry: DeltaPlatform, proven: bool, summaries: seq<PatchSummary>)
    requires OutputsFree(req) && Kept(now, was, OutputSet(req.predecessors)) && Releasable(tools, was, req, signedAt)
    requires EntryReleased(tools, now, req, DeltaPlatform("", "", 0, "", map[], None, None), was[req.newInstaller], entry, proven, summaries)
    requires MadeWherePossible(tools, was, req, summaries)
    requires m.version == req.version && m.platforms == map[req.platform := TauriPlatform(req.installerUrl, entry.signature)]
    requires m.delta == Some(DeltaLayer(SCHEMA_VERSION, HASH_ALGO, map[req.platform := entry]))
    ensures Valid(m)
  {
    FreshEntryValid(tools, was, now, req, signedAt, entry, proven, summaries);
    assert ValidEntry(m, req.platform, entry);
  }

  /** What was released could be released: the conditions are necessary, whatever was inherited. */
  lemma ReleasedWasReleasable(tools: Tools, was: map<string, Bytes>, now: map<string, Bytes>, req: Request, existing: Option<Manifest>,
                              signedAt: nat, m: Manifest, proven: bool, summaries: seq<PatchSummary>)
    requires OutputsFree(req) && Present(was, req) && Kept(now, was, OutputSet(req.predecessors))
    requires Released(tools, now, req, existing, signedAt, m, proven, summaries)
    requires MadeWherePossible(tools, was, req, summaries)
    ensures Releasable(tools, was, req, signedAt)
  {
    assert req.newInstaller !in OutputSet(req.predecessors);
    var entry := m.delta.value.platforms[req.platform];
    assert ValidEntry(m, req.platform, entry);
    forall i | 0 <= i < |req.predecessors|
      ensures !Unproven(tools, was, req, i) && !TarImpossible(tools, was, req, i) && Describable(tools, was, req, i)
    {
      PredecessorWasFit(tools, was, now, req, EntryOf(Inherited(existing, req), req.platform), entry, proven, summaries, i);
    }
  }

  lemma PredecessorWasFit(tools: Tools, was: map<string, Bytes>, now: map<string, Bytes>, req: Request, inherited: DeltaPlatform,
                          entry: DeltaPlatform, proven: bool, summaries: seq<PatchSummary>, i: nat)
    requires OutputsFree(req) && Present(was, req) && Kept(now, was, OutputSet(req.predecessors)) && i < |req.predecessors|
    requires EntryReleased(tools, now, req, inherited, was[req.newInstaller], entry, proven, summaries)
    requires MadeWherePossible(tools, was, req, summaries)
    requires forall from :: from in entry.patches ==> ValidPatch(entry, from, entry.patches[from])
    requires entry.tarLayer.Some? ==> ValidTarLayer(req.version, entry.tarLayer.value)
    ensures !Unproven(tools, was, req, i) && !TarImpossible(tools, was, req, i) && Describable(tools, was, req, i)
  {
    assert req.predecessors[i].installer !in OutputSet(req.predecessors);
    MadePatchValid(tools, was, now, req, entry, i);
    TarWasFit(tools, was, now, req, inherited.tarLayer, entry.tarLayer, proven, summaries, i);
  }

  lemma TarWasFit(tools: Tools, was: map<string, Bytes>, now: map<string, Bytes>, req: Request, inherited: Option<TarLayer>,
                  layer: Option<TarLayer>, proven: bool, summaries: seq<PatchSummary>, i: nat)
    requires OutputsFree(req) && Present(was, req) && Kept(now, was, OutputSet(req.predecessors))
    requires i < |req.predecessors| == |summaries| && was[req.predecessors[i].installer] != []
    requires LayerSound(tools, now, req, was[req.newInstaller], inherited, layer, proven, summaries)
    requires MadeWherePossible(tools, was, req, summaries)
    requires layer.Some? ==> ValidTarLayer(req.version, layer.value)
    ensures !TarImpossible(tools, was, req, i)
    ensures TarPossibleFrom(tools, was, req, i) ==>
      tools.gunzip(was[req.predecessors[i].installer]) != Some([]) && tools.gunzip(was[req.newInstaller]) != Some([])
  {
    if TarProduced(summaries[i]) {
      assert TarPublished(tools, now, req.predecessors[i], was[req.newInstaller], layer.value, summaries[i]);
      MadeTarValid(tools, was, now, req, layer.value, i);
    }
  }

  /** Record each proven patch under its own version. */
  method InsertPatches(bench: Bench, req: Request, was: map<string, Patch>, direct: seq<Patch>) returns (patches: map<string, Patch>)
    requires Apart(req.predecessors) && |direct| == |req.predecessors| && req.newInstaller in bench.files
    requires forall i :: 0 <= i < |direct| ==>
      DirectProven(bench.tools, bench.files, req.predecessors[i], bench.files[req.newInstaller], direct[i])
    ensures PatchesReleased(bench.tools, bench.files, req.predecessors, was, bench.files[req.newInstaller], patches, |direct|)
    ensures forall i :: 0 <= i < |direct| ==> patches[req.predecessors[i].fromVersion] == direct[i]
  {
    var preds := req.predecessors;
    patches := was;
    for i := 0 to |direct|
      invariant forall j :: 0 <= j < i ==> preds[j].fromVersion in patches && patches[preds[j].fromVersion] == direct[j]
      invariant forall from :: from in patches ==>
        (exists j :: 0 <= j < i && preds[j].fromVersion == from) || (from in was && was[from] == patches[from])
      invariant forall from :: from in was ==> from in patches
    {
      patches := patches[preds[i].fromVersion := direct[i]];
    }
  }

  lemma DirectSurviveTars(tools: Tools, req: Request, was: map<string, Bytes>, now: map<string, Bytes>, old_: map<string, Patch>,
                          new_: Bytes, patches: map<string, Patch>)
    requires OutputsFree(req) && Apart(req.predecessors) && Kept(now, was, TarOutputs(req.predecessors))
    requires PatchesReleased(tools, was, req.predecessors, old_, new_, patches, |req.predecessors|)
    ensures PatchesReleased(tools, now, req.predecessors, old_, new_, patches, |req.predecessors|)
  {
    var preds := req.predecessors;
    forall i | 0 <= i < |preds| ensures DirectProven(tools, now, preds[i], new_, patches[preds[i].fromVersion]) {
      OutsideTars(req, i);
      DirectSurvives(tools, was, now, TarOutputs(preds), preds[i], new_, patches[preds[i].fromVersion]);
    }
  }

  lemma OutsideTars(req: Request, i: nat)
    requires OutputsFree(req) && Apart(req.predecessors) && i < |req.predecessors|
    ensures req.predecessors[i].patchOut !in TarOutputs(req.predecessors)
    ensures req.predecessors[i].installer !in TarOutputs(req.predecessors)
  {
    var preds := req.predecessors;
    forall k | 0 <= k < |preds| && preds[k].tarLayer.Some?
      ensures preds[k].tarLayer.value.patchOut != preds[i].patchOut && preds[k].tarLayer.value.patchOut != preds[i].installer
    {
      OutputFacts(req, k);
      if i != k {
        OutputsDiffer(preds, k, i);
      }
    }
  }

  lemma TarOutputsAreOutputs(req: Request)
    requires OutputsFree(req)
    ensures TarOutputs(req.predecessors) <= OutputSet(req.predecessors) && req.newInstaller !in TarOutputs(req.predecessors)
  {
    forall x | x in TarOutputs(req.predecessors) ensures x in OutputSet(req.predecessors) && x != req.newInstaller {
      var i :| 0 <= i < |req.predecessors| && req.predecessors[i].tarLayer.Some? && req.predecessors[i].tarLayer.value.patchOut == x;
      OutputFacts(req, i);
    }
  }

  /** The files to read are there, and the new version is not also an old one. */
  ghost predicate Present(files: map<string, Bytes>, req: Request) {
    && req.newInstaller in files
    && forall i :: 0 <= i < |req.predecessors| ==>
         req.predecessors[i].fromVersion != req.version && req.predecessors[i].installer in files
  }

  method CheckInstallers(bench: Bench, req: Request) returns (ok: bool)
    ensures ok <==> Present(bench.files, req)
  {
    if req.newInstaller !in bench.files {
      return false;
    }
    for i := 0 to |req.predecessors|
      invariant forall j :: 0 <= j < i ==>
        req.predecessors[j].fromVersion != req.version && req.predecessors[j].installer in bench.files
    {
      if req.predecessors[i].fromVersion == req.version || req.predecessors[i].installer !in bench.files {
        return false;
      }
    }
    return true;
  }

  lemma TarsBlockedAtStart(tools: Tools, req: Request, was: map<string, Bytes>, now: map<string, Bytes>)
    requires OutputsFree(req)
    requires req.newInstaller in was && req.newInstaller in now && Kept(now, was, OutputSet(req.predecessors))
    requires TarsBlocked(tools, now, req)
    ensures TarsBlocked(tools, was, req)
  {
    var i :| 0 <= i < |req.predecessors| && TarImpossible(tools, now, req, i);
    TarPossibleAtStart(tools, req, was, now, i);
    assert TarImpossible(tools, was, req, i);
  }

  lemma MadeAtStart(tools: Tools, req: Request, was: map<string, Bytes>, now: map<string, Bytes>, summaries: seq<PatchSummary>)
    requires OutputsFree(req) && |summaries| <= |req.predecessors|
    requires req.newInstaller in was && req.newInstaller in now && Kept(now, was, OutputSet(req.predecessors))
    requires MadeWherePossible(tools, now, req, summaries)
    ensures MadeWherePossible(tools, was, req, summaries)
  {
    forall i | 0 <= i < |summaries| ensures TarProduced(summaries[i]) <==> TarPossibleFrom(tools, was, req, i) {
      TarPossibleAtStart(tools, req, was, now, i);
    }
  }

  lemma EntryIsReleased(tools: Tools, files: map<string, Bytes>, req: Request, was: DeltaPlatform, new_: Bytes, direct: seq<Patch>,
                        entry: DeltaPlatform, proven: bool, summaries: seq<PatchSummary>)
    requires entry.targetVersion == req.version && entry.targetInstallerBlake3 == ToHex(tools.scheme.hash(new_))
    requires entry.targetInstallerSize == |new_| && entry.compressedFull == was.compressedFull
    requires |direct| == |summaries| == |req.predecessors|
    requires PatchesReleased(tools, files, req.predecessors, was.patches, new_, entry.patches, |req.predecessors|)
    requires forall i :: 0 <= i < |direct| ==> entry.patches[req.predecessors[i].fromVersion] == direct[i]
    requires forall i :: 0 <= i < |direct| ==> summaries[i].patchSize == direct[i].patchSize
    requires LayerSound(tools, files, req, new_, was.tarLayer, entry.tarLayer, proven, summaries)
    ensures EntryReleased(tools, files, req, was, new_, entry, proven, summaries)
  {
  }

  /** The patches and the entry that describes them. */
  method BuildEntry(bench: Bench, req: Request, was: DeltaPlatform, digest: FileHash, size: nat, signature: string)
    returns (r: Result<(DeltaPlatform, seq<PatchSummary>), ReleaseError>, ghost proven: bool)
    requires OutputsFree(req) && Apart(req.predecessors) && req.newInstaller in bench.files
    requires digest == bench.tools.scheme.hash(bench.files[req.newInstaller]) && size == |bench.files[req.newInstaller]|
    modifies bench
    ensures Kept(bench.files, old(bench.files), OutputSet(req.predecessors))
    ensures r.Ok? ==>
      && r.value.0.signature == signature
      && EntryReleased(bench.tools, bench.files, req, was, old(bench.files)[req.newInstaller], r.value.0, proven, r.value.1)
    ensures r.Err? && bench.reliable ==>
      DirectBlocked(bench.tools, old(bench.files), req) || TarsBlocked(bench.tools, old(bench.files), req)
    ensures r.Ok? && bench.reliable ==> MadeWherePossible(bench.tools, old(bench.files), req, r.value.1)
  {
    proven := false;
    ghost var new_ := bench.files[req.newInstaller];
    TarOutputsAreOutputs(req);
    var direct := DirectPatches(bench, req, digest);
    if direct.Err? {
      return Err(direct.error), false;
    }
    assert req.newInstaller !in OutputSet(req.predecessors);
    var patches := InsertPatches(bench, req, was.patches, direct.value);
    ghost var mid := bench.files;
    var tars, done := TarPatches(bench, req, was.tarLayer, direct.value);
    if tars.Err? {
      if bench.reliable {
        TarsBlockedAtStart(bench.tools, req, old(bench.files), mid);
      }
      return Err(tars.error), false;
    }
    DirectSurviveTars(bench.tools, req, mid, bench.files, was.patches, new_, patches);
    var entry := DeltaPlatform(req.version, ToHex(digest), size, signature, patches, tars.value.0, was.compressedFull);
    EntryIsReleased(bench.tools, bench.files, req, was, new_, direct.value, entry, done, tars.value.1);
    if bench.reliable {
      MadeAtStart(bench.tools, req, old(bench.files), mid, tars.value.1);
    }
    return Ok((entry, tars.value.1)), done;
  }

  /** The manifest with this platform's download and entry, and everything else as inherited. */
  method FoldIn(was: Manifest, req: Request, signature: string, entry: DeltaPlatform) returns (m: Manifest)
    ensures m.version == was.version
    ensures m.notes == (if req.notes.Some? then req.notes else was.notes)
    ensures m.pubDate == (if req.pubDate.Some? then req.pubDate else was.pubDate)
    ensures m.platforms == was.platforms[req.platform := TauriPlatform(req.installerUrl, signature)]
    ensures m.delta == Some(DeltaOf(was).(platforms := DeltaOf(was).platforms[req.platform := entry]))
  {
    m := was;
    if req.notes.Some? {
      m := m.(notes := req.notes);
    }
    if req.pubDate.Some? {
      m := m.(pubDate := req.pubDate);
    }
    m := m.(platforms := m.platforms[req.platform := TauriPlatform(req.installerUrl, signature)]);
    var delta := DeltaOf(m);
    m := m.(delta := Some(delta.(platforms := delta.platforms[req.platform := entry])));
  }

  /** The patches and the entry, folded into the manifest the release starts from. */
  method Assemble(bench: Bench, req: Request, existing: Option<Manifest>, ghost signedAt: nat, new_: Bytes, signature: string)
    returns (r: Result<(Manifest, seq<PatchSummary>), ReleaseError>, ghost proven: bool)
    requires OutputsFree(req) && WellPosed(bench.tools, req) && Apart(req.predecessors) && Present(bench.files, req)
    requires new_ == bench.files[req.newInstaller] && SignRelease(bench.tools, req, new_, signedAt) == Some(signature)
    modifies bench
    ensures Kept(bench.files, old(bench.files), OutputSet(req.predecessors))
    ensures r.Ok? ==> Released(bench.tools, bench.files, req, existing, signedAt, r.value.0, proven, r.value.1)
    ensures bench.reliable ==> Decided(bench.tools, old(bench.files), req, existing, signedAt, r)
  {
    var manifest := Inherited(existing, req);
    var was := EntryOf(manifest, req.platform);
    var built, done := BuildEntry(bench, req, was, bench.tools.scheme.hash(new_), |new_|, signature);
    if built.Err? {
      return Err(built.error), false;
    }
    assert req.newInstaller !in OutputSet(req.predecessors);
    var (entry, summaries) := built.value;
    manifest := FoldIn(manifest, req, signature, entry);
    if !Valid(manifest) {
      if bench.reliable && StartsAfresh(existing, req) && Releasable(bench.tools, old(bench.files), req, signedAt) {
        FreshIsValid(bench.tools, old(bench.files), bench.files, req, signedAt, manifest, entry, done, summaries);
        assert false;
      }
      return Err(ManifestError), false;
    }
    if bench.reliable {
      ReleasedWasReleasable(bench.tools, old(bench.files), bench.files, req, existing, signedAt, manifest, done, summaries);
    }
    return Ok((manifest, summaries)), done;
  }

  /**
   * What decides a release when no file operation fails. One that succeeded
   * had everything it needed and gave a tar patch to exactly those who could
   * have one; one that had everything it needed can only be stopped by what an
   * earlier manifest of the same version says.
   */
  ghost predicate Decided(tools: Tools, files: map<string, Bytes>, req: Request, existing: Option<Manifest>, signedAt: nat,
                          r: Result<(Manifest, seq<PatchSummary>), ReleaseError>)
  {
    && (r.Ok? ==>
          && Releasable(tools, files, req, signedAt)
          && |r.value.1| == |req.predecessors| && MadeWherePossible(tools, files, req, r.value.1))
    && (r.Err? && Releasable(tools, files, req, signedAt) ==> r.error == ManifestError && !StartsAfresh(existing, req))
  }

  /** Generate every patch, prove it, and fold it into the manifest. */
  method BuildRelease(bench: Bench, req: Request, existing: Option<Manifest>, signedAt: nat)
    returns (r: Result<(Manifest, seq<PatchSummary>), ReleaseError>, ghost proven: bool)
    requires OutputsFree(req)
    modifies bench
    ensures Kept(bench.files, old(bench.files), OutputSet(req.predecessors))
    ensures !WellPosed(bench.tools, req) ==> r == Err(RequestError) && bench.files == old(bench.files)
    ensures r.Ok? ==> Released(bench.tools, bench.files, req, existing, signedAt, r.value.0, proven, r.value.1)
    ensures bench.reliable ==> Decided(bench.tools, old(bench.files), req, existing, signedAt, r)
  {
    proven := false;
    var posed := CheckRequest(bench.tools, req);
    if !posed {
      return Err(RequestError), false;
    }
    var present := CheckInstallers(bench, req);
    if !present {
      return Err(RequestError), false;
    }
    PosedMeansApart(req.predecessors);
    var newData := bench.Read(req.newInstaller);
    if newData.None? {
      return Err(IoError), false;
    }
    var signature := SignRelease(bench.tools, req, newData.value, signedAt);
    if signature.None? {
      return Err(SignError), false;
    }
    r, proven := Assemble(bench, req, existing, signedAt, newData.value, signature.value);
  }

  // ---- the compressed full copy -----------------------------------------------------------

  /** `out` holds the installer diffed from the empty file, which rebuilds it, and `full` describes `out`. */
  ghost predicate CopyProven(tools: Tools, files: map<string, Bytes>, installer: string, out: string, url: string, full: CompressedFull) {
    && installer in files && out in files && files[out] == Diff(tools.codec, [], files[installer])
    && Reconstructs(tools, [], files[out], None, files[installer])
    && full == CompressedFull(ZSTD_ID, url, ToHex(tools.scheme.hash(files[out])), |files[out]|)
  }

  function WithCompressedFull(m: Manifest, platform: string, full: Option<CompressedFull>): Manifest
    requires m.delta.Some? && platform in m.delta.value.platforms
  {
    var entry := m.delta.value.platforms[platform];
    m.(delta := Some(m.delta.value.(platforms := m.delta.value.platforms[platform := entry.(compressedFull := full)])))
  }

  /** A copy can be made, proven and, if it is a saving, described. */
  ghost predicate CopyPossible(tools: Tools, files: map<string, Bytes>, m: Manifest, platform: string, installer: string,
                               url: string, insecure: bool)
  {
    && tools.publishable(url, insecure) && m.delta.Some? && platform in m.delta.value.platforms && installer in files
    && var entry, bytes := m.delta.value.platforms[platform], files[installer];
    var copy := Diff(tools.codec, [], bytes);
    && entry.targetInstallerBlake3 == ToHex(tools.scheme.hash(bytes)) && Reconstructs(tools, [], copy, None, bytes)
    && (|copy| < entry.targetInstallerSize ==>
          Valid(WithCompressedFull(m, platform, Some(CompressedFull(ZSTD_ID, url, ToHex(tools.scheme.hash(copy)), |copy|)))))
  }

  /** Diff the installer from the empty file and describe the result in the entry, unless it saves nothing. */
  method AddCompressedFull(bench: Bench, m: Manifest, platform: string, installer: string, url: string, out: string, insecure: bool)
    returns (r: Result<Option<CompressedFull>, ReleaseError>, updated: Manifest)
    requires out != installer
    modifies bench
    ensures Kept(bench.files, old(bench.files), {out})
    ensures bench.reliable ==> (r.Ok? <==> CopyPossible(bench.tools, old(bench.files), m, platform, installer, url, insecure))
    ensures r.Ok? ==>
      && bench.tools.publishable(url, insecure) && m.delta.Some? && platform in m.delta.value.platforms
      && updated == WithCompressedFull(m, platform, r.value)
      && installer in bench.files
      && m.delta.value.platforms[platform].targetInstallerBlake3 == ToHex(bench.tools.scheme.hash(bench.files[installer]))
    ensures r.Ok? && r.value.Some? ==>
      && Valid(updated) && CopyProven(bench.tools, bench.files, installer, out, url, r.value.value)
      && r.value.value.size < m.delta.value.platforms[platform].targetInstallerSize
    ensures r == Ok(None) && bench.reliable ==>
      && out !in bench.files
      && |Diff(bench.tools.codec, [], bench.files[installer])| >= m.delta.value.platforms[platform].targetInstallerSize
  {
    updated := m;
    if !bench.tools.publishable(url, insecure) || m.delta.None? || platform !in m.delta.value.platforms {
      return Err(RequestError), m;
    }
    var entry := m.delta.value.platforms[platform];
    var bytes := bench.Read(installer);
    if bytes.None? || ToHex(bench.tools.scheme.hash(bytes.value)) != entry.targetInstallerBlake3 {
      return Err(RequestError), m;
    }
    var written := bench.Write(out, Diff(bench.tools.codec, [], bytes.value));
    if !written {
      return Err(IoError), m;
    }
    var copy := bench.Read(out);
    if copy.None? || !Reconstructs(bench.tools, [], copy.value, None, bytes.value) {
      return Err(EngineError), m;
    }
    if |copy.value| >= entry.targetInstallerSize {
      bench.Remove(out);
      updated := WithCompressedFull(m, platform, None);
      return Ok(None), updated;
    }
    var full := CompressedFull(ZSTD_ID, url, ToHex(bench.tools.scheme.hash(copy.value)), |copy.value|);
    updated := WithCompressedFull(m, platform, Some(full));
    if !Valid(updated) {
      return Err(EngineError), updated;
    }
    return Ok(Some(full)), updated;
  }
}
