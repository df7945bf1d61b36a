/**
 * Content-addressed blobs (crates/delta-core/src/cache/blob.rs).
 *
 * `blobs` holds the entries named `<stem>.tar.gz`. Before every filesystem call
 * the directory becomes whatever `others` makes of it, and between opening a
 * file and reading it the contents may become whatever `drift` makes of them.
 */
module BlobStores {
  import opened Prelude
  import opened Text
  import opened Hash
  import opened CacheTypes
  import opened ReleaseIdentities
  import opened Signatures

  /** A directory entry: a regular file, or a directory, symlink or device. */
  datatype Node =
    | Regular(bytes: Bytes, modified: Option<int>)
    | Special(removable: bool, modified: Option<int>)

  /** Whether `retain` may remove `stem`: a digest name, not kept, and old enough. */
  predicate Expendable(blobs: map<string, Node>, keep: seq<string>, grace: nat, now: int, stem: string) {
    && stem in blobs
    && FromHex(stem).Some?
    && stem !in keep
    && (grace == 0 || (blobs[stem].modified.Some? && now - blobs[stem].modified.value >= grace))
  }

  predicate Removable(node: Node) {
    node.Regular? || node.removable
  }

  /**
   * What a collection leaves of a directory: every blob that is named, younger
   * than the grace period, of unknown age, not removable or not called after a
   * digest, as it was, and nothing else. No grace at all means any age will do.
   */
  ghost predicate Collected(was: map<string, Node>, left: map<string, Node>, named: set<string>, grace: nat, now: int) {
    && (forall stem :: stem in left ==> stem in was && left[stem] == was[stem])
    && forall stem :: stem in was ==>
         (stem !in left <==>
            && stem !in named && FromHex(stem).Some? && (was[stem].Special? ==> was[stem].removable)
            && (grace > 0 ==> was[stem].modified.Some? && now - was[stem].modified.value >= grace))
  }

  ghost function Names(keep: seq<string>): (names: set<string>)
    ensures keep == [] ==> names == {}
  {
    set k | k in keep
  }

  /** What is wrong with a stored blob that is not handed back: the first of these in order. */
  ghost function Objection(scheme: Scheme, bytes: Bytes, digestHex: string, expectedSize: nat, maxBytes: nat,
                           signature: string, pubkey: string): CacheError
  {
    if FromHex(digestHex).None? then InvalidHash
    else if expectedSize > maxBytes then TooLarge(expectedSize, maxBytes)
    else if |bytes| != expectedSize then UnexpectedSize(expectedSize, |bytes|)
    else if FromHex(digestHex) != Some(scheme.hash(bytes)) then ChecksumMismatch
    else if Genuine(scheme, bytes, signature, pubkey) then BadIdentity
    else BadSignature
  }

  class BlobStore {
    var blobs: map<string, Node>
    const others: (nat, map<string, Node>) -> map<string, Node>
    const drift: (nat, Bytes) -> Bytes
    const faults: nat -> bool
    const scheme: Scheme
    var clock: nat

    /** The directory just before our last call took effect. */
    ghost var seen: map<string, Node>

    constructor (blobs: map<string, Node>, others: (nat, map<string, Node>) -> map<string, Node>,
                 drift: (nat, Bytes) -> Bytes, faults: nat -> bool, scheme: Scheme)
      ensures this.blobs == blobs && this.others == others && this.drift == drift
      ensures this.faults == faults && this.scheme == scheme
    {
      this.blobs := blobs;
      this.others := others;
      this.drift := drift;
      this.faults := faults;
      this.scheme := scheme;
      clock, seen := 0, blobs;
    }

    ghost predicate Alone() {
      forall t, f :: others(t, f) == f && !faults(t)
    }

    method Interfere() returns (ok: bool)
      modifies this`blobs, this`clock, this`seen
      ensures seen == blobs
      ensures Alone() ==> ok && blobs == old(blobs)
    {
      blobs := others(clock, blobs);
      ok := !faults(clock);
      clock := clock + 1;
      seen := blobs;
    }

    /**
     * Link the bytes under the name of their digest. A name already taken counts
     * as done if what it names is regular and as long.
     */
    method Put(artifact: VerifiedArtifact, now: int) returns (r: Result<FileHash, CacheError>)
      modifies this`blobs, this`clock, this`seen
      ensures r.Ok? ==> r.value == scheme.hash(artifact.bytes)
      ensures r.Ok? ==>
        var stem := ToHex(r.value);
        && stem in blobs && blobs[stem].Regular? && |blobs[stem].bytes| == |artifact.bytes|
        && (blobs == seen || (stem !in seen && blobs == seen[stem := Regular(artifact.bytes, Some(now))]))
      ensures r.Err? ==> blobs == seen && (r.error.Io? || r.error.NotRegular? || r.error.UnexpectedSize?)
      ensures Alone() ==>
        var stem := ToHex(scheme.hash(artifact.bytes));
        && (stem !in old(blobs) ==> r.Ok? && blobs == old(blobs)[stem := Regular(artifact.bytes, Some(now))])
        && (stem in old(blobs) ==>
             && blobs == old(blobs)
             && (r.Ok? <==> old(blobs)[stem].Regular? && |old(blobs)[stem].bytes| == |artifact.bytes|))
    {
      var digest := scheme.hash(artifact.bytes);
      var target := ToHex(digest);
      var written := Interfere();
      if !written {
        return Err(Io);
      }
      var temp := Regular(artifact.bytes, Some(now));
      var linked := Interfere();
      if !linked {
        return Err(Io);
      }
      if target !in blobs {
        blobs := blobs[target := temp];
        return Ok(digest);
      }
      var stat := Interfere();
      if !stat || target !in blobs {
        return Err(Io);
      }
      if !blobs[target].Regular? {
        return Err(NotRegular);
      }
      if |blobs[target].bytes| != |artifact.bytes| {
        return Err(UnexpectedSize(|artifact.bytes|, |blobs[target].bytes|));
      }
      return Ok(digest);
    }

    /**
     * Read a blob back and check everything about the bytes read: length,
     * digest, and signature under the key configured now.
     */
    method Get(digestHex: string, expectedSize: nat, signature: string, pubkey: string, maxBytes: nat)
      returns (r: Result<VerifiedArtifact, CacheError>)
      modifies this`blobs, this`clock, this`seen
      ensures blobs == seen
      ensures r.Ok? ==>
        && FromHex(digestHex) == Some(scheme.hash(r.value.bytes))
        && |r.value.bytes| == expectedSize <= maxBytes
        && VerifyArtifact(scheme, r.value.bytes, signature, pubkey) == Ok(r.value)
      ensures Alone() ==> blobs == old(blobs)
      ensures Alone() && (forall t, b :: drift(t, b) == b)
              && digestHex in old(blobs) && old(blobs)[digestHex].Regular? ==>
        var bytes := old(blobs)[digestHex].bytes;
        && (r.Ok? <==> && FromHex(digestHex) == Some(scheme.hash(bytes)) && |bytes| == expectedSize <= maxBytes
                       && VerifyArtifact(scheme, bytes, signature, pubkey).Ok?)
        && (r.Ok? ==> r.value.bytes == bytes)
        && (r.Err? ==> r.error == Objection(scheme, bytes, digestHex, expectedSize, maxBytes, signature, pubkey))
    {
      seen := blobs;
      var expected := FromHex(digestHex);
      if expected.None? {
        return Err(InvalidHash);
      }
      var stat := Interfere();
      if !stat || digestHex !in blobs {
        return Err(Io);
      }
      if !blobs[digestHex].Regular? {
        return Err(NotRegular);
      }
      if expectedSize > maxBytes {
        return Err(TooLarge(expectedSize, maxBytes));
      }
      var open := Interfere();
      if !open || digestHex !in blobs {
        return Err(Io);
      }
      var handle := blobs[digestHex];
      if !handle.Regular? {
        return Err(NotRegular);
      }
      if |handle.bytes| != expectedSize {
        return Err(UnexpectedSize(expectedSize, |handle.bytes|));
      }
      var contents := drift(clock, handle.bytes);
      var read := Interfere();
      if !read {
        return Err(Io);
      }
      var bytes := if |contents| > expectedSize + 1 then contents[..expectedSize + 1] else contents;
      if |bytes| != expectedSize {
        return Err(UnexpectedSize(expectedSize, |bytes|));
      }
      if scheme.hash(bytes) != expected.value {
        return Err(ChecksumMismatch);
      }
      VerifiesExactly(scheme, bytes, signature, pubkey, VerifiedArtifact(bytes, Legacy));
      match VerifyArtifact(scheme, bytes, signature, pubkey) {
        case Ok(artifact) => return Ok(artifact);
        case Err(Unverified) => return Err(BadSignature);
        case Err(Identity(_)) => return Err(BadIdentity);
      }
    }

    /** Delete every expendable blob; a removal that fails is skipped. */
    method Retain(keep: seq<string>, grace: nat, now: int) returns (r: Result<nat, CacheError>)
      modifies this`blobs, this`clock, this`seen
      ensures r.Err? ==> r.error == Io
      ensures Alone() ==> r.Ok? && Collected(old(blobs), blobs, Names(keep), grace, now) && |blobs| + r.value == |old(blobs)|
    {
      var listed := Interfere();
      if !listed {
        return Err(Io);
      }
      ghost var was := blobs;
      var todo := blobs.Keys;
      var removed := 0;
      while todo != {}
        invariant todo <= was.Keys
        invariant Alone() ==>
          && (forall stem :: stem in blobs <==>
                stem in was && (stem in todo || !(Expendable(was, keep, grace, now, stem) && Removable(was[stem]))))
          && (forall stem :: stem in blobs ==> blobs[stem] == was[stem])
          && |blobs| + removed == |was|
        decreases todo
      {
        var stem :| stem in todo;
        var ok := Interfere();
        if ok && Expendable(blobs, keep, grace, now, stem) && Removable(blobs[stem]) {
          blobs := blobs - {stem};
          removed := removed + 1;
        }
        todo := todo - {stem};
      }
      return Ok(removed);
    }
  }
}
