/**
 * What an update run touches: a private workspace of files, and the host with
 * its server, its disk and its installer. The server and the disk may answer
 * differently each time; the trace records the fetches, stages and hand-offs.
 */
module Hosts {
  import opened Prelude
  import opened Manifests
  import opened Signatures
  import opened TarLayout
  import opened Zstd
  import SemVer

  /** The file names an update uses inside its own workspace. */
  datatype File =
    | DirectPatch | TarPatchFile | BaseTar | TargetTar | BaseArtifact | BaseInstaller
    | Artifact | FullArtifact | CompressedCopy | EmptyBase | RebuiltFull
    | Part(beside: File)

  /** One update's directory. `held` is every content any name in it ever had. */
  class Workspace {
    var files: map<File, Bytes>
    ghost var held: set<(File, Bytes)>
    const reliable: bool

    ghost predicate Valid()
      reads this
    {
      forall f :: f in files ==> (f, files[f]) in held
    }

    constructor (reliable: bool)
      ensures Valid() && files == map[] && held == {} && this.reliable == reliable
    {
      this.files := map[];
      this.held := {};
      this.reliable := reliable;
    }

    /** Replace a file; a failure leaves some prefix of the content. */
    method Write(f: File, content: Bytes) returns (ok: bool)
      requires Valid()
      modifies this
      ensures Valid() && (reliable ==> ok)
      ensures f in files && files == old(files)[f := files[f]] && held == old(held) + {(f, files[f])}
      ensures files[f] <= content && (ok ==> files[f] == content)
    {
      var failed: bool := *;
      ok := reliable || !failed;
      var n: nat :| n <= |content| by { assert 0 <= |content|; }
      files := files[f := if ok then content else content[..n]];
      held := held + {(f, files[f])};
    }

    method Read(f: File) returns (r: Option<Bytes>)
      ensures r.Some? ==> f in files && r.value == files[f]
      ensures reliable && f in files ==> r.Some?
    {
      var failed: bool := *;
      return if f in files && (reliable || !failed) then Some(files[f]) else None;
    }

    /** A removal whose failure nobody looks at. */
    method Remove(f: File)
      requires Valid()
      modifies this`files
      ensures Valid()
      ensures files == old(files) - {f} || (!reliable && files == old(files))
    {
      var failed: bool := *;
      if reliable || !failed {
        files := files - {f};
      }
    }

    method Rename(f: File, to: File) returns (ok: bool)
      requires Valid() && f != to
      modifies this
      ensures Valid()
      ensures !ok ==> files == old(files) && held == old(held)
      ensures ok ==>
        && f in old(files) && files == (old(files) - {f})[to := old(files)[f]]
        && held == old(held) + {(to, old(files)[f])}
      ensures reliable && f in old(files) ==> ok
    {
      var failed: bool := *;
      ok := f in files && (reliable || !failed);
      if ok {
        var content := files[f];
        files := (files - {f})[to := content];
        held := held + {(to, content)};
      }
    }
  }

  /** `held` on a fetch is the base in hand when the request was made. */
  datatype Event =
    | Fetched(url: string, held: Option<Bytes>)
    | Staged(version: string, bytes: Bytes)
    | Handed(bytes: Bytes)

  class Host {
    const scheme: Scheme
    const codec: Codec
    const gzip: seq<Bytes> -> Bytes
    const parseJson: string -> Option<Manifest>
    const precedence: SemVer.Version -> real
    const server: (nat, string) -> Option<Bytes>
    const disk: (nat, string) -> Option<Bytes>
    /** The writes an archive builder would make of the installed bundle, as it is at that moment. */
    const archive: nat -> Option<seq<Bytes>>
    const installs: nat -> bool
    const reliable: bool
    var clock: nat
    ghost var trace: seq<Event>

    constructor (scheme: Scheme, codec: Codec, gzip: seq<Bytes> -> Bytes, parseJson: string -> Option<Manifest>,
                 precedence: SemVer.Version -> real, server: (nat, string) -> Option<Bytes>,
                 disk: (nat, string) -> Option<Bytes>, archive: nat -> Option<seq<Bytes>>, installs: nat -> bool,
                 reliable: bool)
      ensures this.scheme == scheme && this.codec == codec && this.gzip == gzip && this.server == server
      ensures this.parseJson == parseJson && this.precedence == precedence
      ensures this.disk == disk && this.archive == archive && this.installs == installs && this.reliable == reliable
      ensures trace == []
    {
      this.scheme, this.codec, this.gzip, this.server := scheme, codec, gzip, server;
      this.parseJson, this.precedence := parseJson, precedence;
      this.disk, this.archive, this.installs, this.reliable := disk, archive, installs, reliable;
      clock, trace := 0, [];
    }

    method OpenWorkspace() returns (r: Option<Workspace>)
      ensures reliable ==> r.Some?
      ensures r.Some? ==> fresh(r.value) && r.value.Valid() && r.value.files == map[] && r.value.reliable == reliable
    {
      var failed: bool := *;
      if failed && !reliable {
        return None;
      }
      var ws := new Workspace(reliable);
      return Some(ws);
    }

    /** Whatever the server sends for `url` this time, into a workspace file. */
    method Fetch(url: string, ws: Workspace, f: File, ghost held: Option<Bytes>) returns (ok: bool)
      requires ws.Valid()
      modifies this`clock, this`trace, ws
      ensures ws.Valid() && trace == old(trace) + [Fetched(url, held)]
      ensures ok ==> f in ws.files && server(old(clock), url) == Some(ws.files[f])
      ensures forall g :: g != f ==> (g in ws.files <==> g in old(ws.files)) && (g in ws.files ==> ws.files[g] == old(ws.files)[g])
      ensures forall p :: p in ws.held - old(ws.held) ==> p.0 == f
      ensures ws.reliable && server(old(clock), url).Some? ==> ok
    {
      var body := server(clock, url);
      clock := clock + 1;
      trace := trace + [Fetched(url, held)];
      if body.None? {
        return false;
      }
      ok := ws.Write(f, body.value);
    }

    /** A file outside the workspace, as it is this time. */
    method ReadDisk(path: string) returns (r: Option<Bytes>)
      modifies this`clock
      ensures r == disk(old(clock), path)
    {
      r := disk(clock, path);
      clock := clock + 1;
    }

    /** The bundle's tar, if its writes stay within the bound. */
    method RebuildTar(maxBytes: nat) returns (r: Option<Bytes>)
      modifies this`clock
      ensures r.Some? ==> |r.value| <= maxBytes && archive(old(clock)).Some? && r.value == Flatten(archive(old(clock)).value)
      ensures archive(old(clock)).Some? && |Flatten(archive(old(clock)).value)| <= maxBytes ==> r.Some?
    {
      var pieces := archive(clock);
      clock := clock + 1;
      if pieces.None? || |Flatten(pieces.value)| > maxBytes {
        return None;
      }
      return Some(Flatten(pieces.value));
    }

    method HandOff(artifact: VerifiedArtifact) returns (ok: bool)
      modifies this`clock, this`trace
      ensures trace == old(trace) + [Handed(artifact.bytes)]
      ensures ok == installs(old(clock))
    {
      ok := installs(clock);
      clock := clock + 1;
      trace := trace + [Handed(artifact.bytes)];
    }

    ghost method RecordStage(version: string, bytes: Bytes)
      modifies this`trace
      ensures trace == old(trace) + [Staged(version, bytes)]
    {
      trace := trace + [Staged(version, bytes)];
    }
  }
}
