/** Rebuilding an artifact beside its destination (crates/delta-core/src/reconstruct.rs). */
module Reconstruction {
  import opened Prelude
  import opened Hash
  import opened Hosts
  import opened Manifests
  import opened Zstd

  /** What a rebuilt artifact has to be, and by which backend. */
  datatype TargetSpec = TargetSpec(backendId: string, size: nat, digest: FileHash)

  function SpecFor(backendId: string, size: nat, blake3: string): Option<TargetSpec> {
    match FromHex(blake3)
    case Some(digest) => Some(TargetSpec(backendId, size, digest))
    case None => None
  }

  /** A base to patch: a workspace file, or one somewhere else on disk. */
  datatype Base = Inside(file: File) | Outside(path: string)

  ghost predicate BaseIs(host: Host, files: map<File, Bytes>, base: Base, content: Bytes) {
    match base
    case Inside(f) => f in files && files[f] == content
    case Outside(path) => forall t :: host.disk(t, path) == Some(content)
  }

  predicate Meets(host: Host, bytes: Bytes, target: TargetSpec) {
    |bytes| == target.size && host.scheme.hash(bytes) == target.digest
  }

  method ReadBase(host: Host, ws: Workspace, base: Base) returns (r: Option<Bytes>)
    modifies host`clock
    ensures forall b :: BaseIs(host, ws.files, base, b) && ws.reliable ==> r == Some(b)
  {
    match base {
      case Inside(f) => r := ws.Read(f);
      case Outside(path) => r := host.ReadDisk(path);
    }
  }

  ghost predicate Untouched(now: map<File, Bytes>, was: map<File, Bytes>, out: File) {
    forall f :: f != out && f != Part(out) ==> (f in now <==> f in was) && (f in now ==> now[f] == was[f])
  }

  /*
   * In the members below `b` and `t` are a base and an artifact the caller has
   * in mind: if the base is `b` and the patch takes it to `t`, they succeed.
   */

  /** Apply the patch into `building`, told the size to expect; a failure leaves scraps of at most that size. */
  method ApplyPatch(host: Host, ws: Workspace, base: Base, patch: File, building: File, size: nat,
                    ghost b: Bytes, ghost t: Bytes)
    returns (ok: bool)
    requires ws.Valid()
    modifies host`clock, ws
    ensures ws.Valid()
    ensures forall f :: f != building ==> (f in ws.files <==> f in old(ws.files)) && (f in ws.files ==> ws.files[f] == old(ws.files)[f])
    ensures forall p :: p in ws.held - old(ws.held) ==> p.0 == building
    ensures building in ws.files ==> building in old(ws.files) || |ws.files[building]| <= size
    ensures ok ==> building in ws.files && |ws.files[building]| == size
    ensures
      && ws.reliable && patch in old(ws.files) && BaseIs(host, old(ws.files), base, b)
      && Rebuilt(host.codec, b, old(ws.files)[patch], Some(size)) == Some(t)
      ==> ok && ws.files[building] == t
  {
    var old_ := ReadBase(host, ws, base);
    var delta := ws.Read(patch);
    if old_.None? || delta.None? {
      return false;
    }
    var rebuilt := Rebuilt(host.codec, old_.value, delta.value, Some(size));
    if rebuilt.None? {
      var scraps: Bytes :| |scraps| <= size by { var none: Bytes := []; assert |none| <= size; }
      var _ := ws.Write(building, scraps);
      return false;
    }
    ok := ws.Write(building, rebuilt.value);
  }

  /** What was built beside the destination goes there if it has the digest, and otherwise goes away. */
  method Promote(host: Host, ws: Workspace, out: File, target: TargetSpec) returns (ok: bool)
    requires ws.Valid() && Part(out) in ws.files && |ws.files[Part(out)]| == target.size && out != Part(out)
    modifies ws
    ensures ws.Valid() && Untouched(ws.files, old(ws.files), out)
    ensures ok ==>
      && Meets(host, old(ws.files)[Part(out)], target) && out in ws.files && ws.files[out] == old(ws.files)[Part(out)]
      && ws.held == old(ws.held) + {(out, ws.files[out])}
    ensures !ok ==> (out in ws.files <==> out in old(ws.files)) && ws.held == old(ws.held)
    ensures ws.reliable ==> Part(out) !in ws.files && (ok <==> Meets(host, old(ws.files)[Part(out)], target))
  {
    var building := Part(out);
    var check := ws.Read(building);
    if check.None? || host.scheme.hash(check.value) != target.digest {
      ws.Remove(building);
      return false;
    }
    ok := ws.Rename(building, out);
  }

  /** Apply beside the destination, check the digest, and only then move it into place. */
  method ReconstructInner(host: Host, ws: Workspace, base: Base, patch: File, out: File, target: TargetSpec,
                        ghost b: Bytes, ghost t: Bytes)
    returns (ok: bool)
    requires ws.Valid() && patch != Part(out) && out != Part(out)
    modifies host`clock, ws
    ensures ws.Valid() && Untouched(ws.files, old(ws.files), out)
    ensures ok ==> out in ws.files && Meets(host, ws.files[out], target) && target.backendId == "zstd"
    ensures !ok ==> (out in ws.files <==> out in old(ws.files))
    ensures ws.reliable && ok ==> Part(out) !in ws.files
    ensures
      && ws.reliable && target.backendId == ZSTD_ID && patch in old(ws.files) && BaseIs(host, old(ws.files), base, b)
      && Rebuilt(host.codec, b, old(ws.files)[patch], Some(target.size)) == Some(t)
      ==> Part(out) !in ws.files
    ensures forall p :: p in ws.held - old(ws.held) ==> p.0 == Part(out) || (p.0 == out && Meets(host, p.1, target))
    ensures
      && ws.reliable && target.backendId == ZSTD_ID && patch in old(ws.files) && BaseIs(host, old(ws.files), base, b)
      && Rebuilt(host.codec, b, old(ws.files)[patch], Some(target.size)) == Some(t) && Meets(host, t, target)
      ==> ok && ws.files[out] == t
  {
    if target.backendId != ZSTD_ID {
      return false;
    }
    var building := Part(out);
    var applied := ApplyPatch(host, ws, base, patch, building, target.size, b, t);
    if !applied {
      return false;
    }
    ok := Promote(host, ws, out, target);
  }

  /**
   * Never fails: `out` ends up holding exactly what the manifest promised, or
   * the caller falls back. At no moment does `out` hold anything else.
   */
  method TryReconstruct(host: Host, ws: Workspace, base: Base, patch: File, out: File, target: TargetSpec,
                        ghost b: Bytes, ghost t: Bytes)
    returns (verified: bool)
    requires ws.Valid() && patch != Part(out) && out != Part(out)
    modifies host`clock, ws
    ensures ws.Valid() && Untouched(ws.files, old(ws.files), out)
    ensures verified ==> out in ws.files && Meets(host, ws.files[out], target) && target.backendId == "zstd"
    ensures !verified && ws.reliable ==> out !in ws.files
    ensures forall p :: p in ws.held - old(ws.held) ==> p.0 == Part(out) || (p.0 == out && Meets(host, p.1, target))
    ensures
      && ws.reliable && target.backendId == ZSTD_ID && patch in old(ws.files) && BaseIs(host, old(ws.files), base, b)
      && Rebuilt(host.codec, b, old(ws.files)[patch], Some(target.size)) == Some(t) && Meets(host, t, target)
      ==> verified && ws.files[out] == t
  {
    verified := ReconstructInner(host, ws, base, patch, out, target, b, t);
    if !verified {
      ws.Remove(out);
    }
  }
}
