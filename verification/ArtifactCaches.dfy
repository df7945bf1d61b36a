/**
 * The ACTIVE/PENDING cache (crates/delta-core/src/cache/mod.rs), with its retry
 * loops, over a state directory and a blob directory others share.
 */
module ArtifactCaches {
  import opened Prelude
  import opened Hash
  import opened CacheTypes
  import opened StateDirectory
  import opened StateStores
  import opened BlobStores
  import opened Signatures

  /** Each attempt publishes at most twice on its own account before it commits. */
  const CAS_ROOM: nat := 2 * MAX_CAS_ATTEMPTS + 1

  datatype CacheLimits = CacheLimits(maxBlobBytes: nat, maxTarBytes: nat, blobGrace: nat)

  datatype Reconciliation =
    | Promoted(version: string)
    | DiscardedPending(staged: string, running: string)
    | NothingStaged
    | NamespaceReset

  datatype ActiveBase = ActiveBase(entry: CacheEntry, artifact: VerifiedArtifact)

  /** Bounded decompression: the exact tar inside `bytes`, or why there is none within `limit`. */
  function Expand(gunzip: Bytes -> Option<Bytes>, bytes: Bytes, limit: nat): Result<Bytes, CacheError> {
    match gunzip(bytes)
    case None => Err(Decompression)
    case Some(tar) => if |tar| > limit then Err(OutputTooLarge(limit)) else Ok(tar)
  }

  /** What `stage_pending` records about an artifact. */
  ghost predicate Records(
    scheme: Scheme, gunzip: Bytes -> Option<Bytes>, representation: Representation,
    e: CacheEntry, version: string, bytes: Bytes, signature: string)
  {
    && e.version == version && e.signature == signature
    && e.compressedBlake3 == ToHex(scheme.hash(bytes)) && e.compressedSize == |bytes|
    && match representation
       case Opaque => e.tar.None?
       case AppTarGz =>
         && gunzip(bytes).Some?
         && e.tar == Some(TarFacts(ToHex(scheme.hash(gunzip(bytes).value)), |gunzip(bytes).value|))
  }

  // ---- what one process alone sees -------------------------------------------------

  /**
   * What `current` returns on a directory nobody else touches, if generation
   * numbers did not end. `Opened` is what it returns where they do.
   */
  ghost function Settled(d: Directory, ns: Namespace): Versioned {
    var top := Newest(d.Listed());
    match Loaded(d)
    case Some(v) => if v.state.ns == ns then v else Versioned(top + 1, EmptyState(ns))
    case None => Versioned(Max(top, -1) + 1, EmptyState(ns))
  }

  /** And what it leaves there. */
  ghost function SettledFiles(d: Directory, ns: Namespace): map<nat, FileBody> {
    if Live(d, ns) then d.files else d.files[Settled(d, ns).generation := Document(EmptyState(ns))]
  }

  /** The newest generation is a readable state of `ns`. */
  ghost predicate Live(d: Directory, ns: Namespace) {
    Loaded(d).Some? && Loaded(d).value.state.ns == ns
  }

  /** A state of another namespace is handed back as it is when the name for a reset is taken. */
  ghost function Opened(d: Directory, ns: Namespace): Option<Versioned> {
    match Initialised(d, ns)
    case None => None
    case Some(v) =>
      if v.state.ns == ns || Succ(v.generation) in d.files then Some(v)
      else Some(Versioned(Succ(v.generation), EmptyState(ns)))
  }

  ghost function OpenedFiles(d: Directory, ns: Namespace): map<nat, FileBody> {
    match Initialised(d, ns)
    case None => d.files
    case Some(v) =>
      if v.state.ns == ns then InitialisedFiles(d, ns)
      else if Succ(v.generation) in d.files then d.files
      else d.files[Succ(v.generation) := Document(EmptyState(ns))]
  }

  /** There is a state of another namespace, and a free name to publish an empty one over it. */
  ghost predicate Resets(d: Directory, ns: Namespace) {
    Loaded(d).Some? && Loaded(d).value.state.ns != ns && Succ(Loaded(d).value.generation) !in d.files
  }

  /** There is nothing to reset, and a number for whatever `current` may have to publish. */
  ghost predicate Ordinary(d: Directory, ns: Namespace) {
    !Resets(d, ns) && Settled(d, ns).generation < U64_MODULUS
  }

  /** What `current` leaves of the blobs: none that can go after a reset, and otherwise all. */
  ghost predicate OpenedBlobs(d: Directory, ns: Namespace, was: map<string, Node>, left: map<string, Node>, now: int) {
    if Resets(d, ns) then Collected(was, left, {}, 0, now) else left == was
  }

  ghost predicate Numbered(d: Directory) {
    forall g :: g in d.Listed() ==> g < U64_MODULUS
  }

  lemma OpenedIsSettled(d: Directory, ns: Namespace)
    requires Numbered(d) && Settled(d, ns).generation < U64_MODULUS
    ensures Opened(d, ns) == Some(Settled(d, ns)) && OpenedFiles(d, ns) == SettledFiles(d, ns)
  {
    AboveNewest(d);
  }

  /** A commit over what `current` returns finds its name free. */
  ghost predicate Landable(d: Directory, ns: Namespace) {
    Opened(d, ns).Some? && Succ(Opened(d, ns).value.generation) !in OpenedFiles(d, ns)
  }

  /** That is so unless the numbers end there and begin again at ones that are taken. */
  lemma LandableExactly(d: Directory, ns: Namespace)
    requires Numbered(d)
    ensures var k := Settled(d, ns).generation;
            Landable(d, ns) <==>
            (k < U64_MODULUS || 0 !in d.files) && (k + 1 < U64_MODULUS || (k + 1) % U64_MODULUS !in d.files)
  {
    AboveNewest(d);
    var k := Settled(d, ns).generation;
    if k < U64_MODULUS {
      OpenedIsSettled(d, ns);
    }
  }

  /**
   * What a successful commit of `next` leaves, `current` having found `was`.
   * It is the newest state exactly when there is a number above the one it was
   * computed from; otherwise readers find what they would have found without it.
   */
  ghost predicate Committed(was: Directory, now: Directory, ns: Namespace, next: CacheState) {
    var k, last := Settled(was, ns).generation, U64_MODULUS - 1;
    if k < last then Newest(now.Listed()) == k + 1 && k + 1 in now.files && now.files[k + 1] == Document(next)
    else SeenAtEnd(was, now, ns)
  }

  /** The last generation of all is the newest, and holds nothing but what `current` left there. */
  ghost predicate SeenAtEnd(was: Directory, now: Directory, ns: Namespace) {
    var last := U64_MODULUS - 1;
    && Newest(now.Listed()) == last
    && (last in now.files ==> last in OpenedFiles(was, ns) && now.files[last] == OpenedFiles(was, ns)[last])
  }

  /** What `current` leaves, as a directory. */
  ghost function OpenedDir(d: Directory, ns: Namespace): Directory {
    d.(files := OpenedFiles(d, ns))
  }

  /** Opening what has been opened changes nothing more. */
  lemma OpenedOnce(d: Directory, ns: Namespace)
    ensures !Resets(OpenedDir(d, ns), ns) && OpenedDir(OpenedDir(d, ns), ns) == OpenedDir(d, ns)
  {
    AboveNewest(d);
    var e := OpenedDir(d, ns);
    if e.files != d.files {
      var g :| g in e.files && g !in d.files && e.files == d.files[g := Document(EmptyState(ns))];
      NewestAfterLink(d, g, Document(EmptyState(ns)));
    }
  }

  lemma OpenedStays(d: Directory, ns: Namespace)
    requires Settled(d, ns).generation < U64_MODULUS
    ensures var e := OpenedDir(d, ns);
            && Opened(e, ns) == Opened(d, ns) && OpenedFiles(e, ns) == OpenedFiles(d, ns)
            && Settled(e, ns) == Settled(d, ns) && Live(e, ns)
  {
    SettledNewest(d, ns);
    AboveNewest(d);
    OpenedIsSettled(d, ns);
  }

  lemma SettledNewest(d: Directory, ns: Namespace)
    ensures Newest(d.(files := SettledFiles(d, ns)).Listed()) == Settled(d, ns).generation
    ensures Newest(d.Listed()) <= Settled(d, ns).generation <= Newest(d.Listed()) + 1
  {
    if !Live(d, ns) {
      NewestAfterLink(d, Settled(d, ns).generation, Document(EmptyState(ns)));
    }
  }

  lemma OpenedTop(d: Directory, ns: Namespace)
    requires Numbered(d)
    ensures Numbered(OpenedDir(d, ns))
    ensures Newest(OpenedDir(d, ns).Listed()) == Min(Settled(d, ns).generation, U64_MODULUS - 1)
  {
    AboveNewest(d);
    var k := Settled(d, ns).generation;
    NewestAfterLink(d, 0, Document(EmptyState(ns)));
    if k < U64_MODULUS {
      OpenedIsSettled(d, ns);
      SettledNewest(d, ns);
    }
    forall g | g in OpenedDir(d, ns).Listed() ensures g < U64_MODULUS {
      assert g in d.Listed() || g in OpenedFiles(d, ns);
    }
  }

  /** The directory `current` leaves, with `next` under the number after the one it returns. */
  ghost function Landing(d: Directory, ns: Namespace, next: CacheState): Directory
    requires Opened(d, ns).Some?
  {
    d.(files := OpenedFiles(d, ns)[Succ(Opened(d, ns).value.generation) := Document(next)])
  }

  /** Everything listed before the last three numbers is gone, and nothing else. */
  ghost predicate Trimmed(was: Directory, now: Directory) {
    now.strays == was.strays
    && exists found :: IsListing(was, found)
         && (forall g :: g in now.files <==> g in was.files && !(exists i :: 0 <= i < |found| - 3 && found[i] == g))
         && forall g :: g in now.files ==> now.files[g] == was.files[g]
  }

  /** Exactly what a successful commit of `next` leaves, `current` having found `was`. */
  ghost predicate Placed(was: Directory, now: Directory, ns: Namespace, next: CacheState) {
    Landable(was, ns) && Trimmed(Landing(was, ns, next), now)
  }

  /** Just linked: its number is nobody else's spelling, so pruning spares it. */
  ghost predicate Landed(was: Directory, now: Directory, ns: Namespace, next: CacheState) {
    Committed(was, now, ns, next) && (Settled(was, ns).generation + 1 < U64_MODULUS ==> Newest(now.Listed()) !in now.strays)
  }

  /** The number a commit goes to: the next one, or, past the last, one of the first two. */
  lemma CommitNumber(d: Directory, ns: Namespace)
    requires Numbered(d) && Opened(d, ns).Some?
    ensures var k, g := Settled(d, ns).generation, Succ(Opened(d, ns).value.generation);
            if k + 1 < U64_MODULUS then g == k + 1 else g <= 1
  {
    AboveNewest(d);
    if Settled(d, ns).generation < U64_MODULUS {
      OpenedIsSettled(d, ns);
    }
  }

  lemma CommitLands(d: Directory, ns: Namespace, next: CacheState)
    requires Numbered(d) && Landable(d, ns)
    ensures var g := Succ(Opened(d, ns).value.generation);
            var now := d.(files := OpenedFiles(d, ns)[g := Document(next)]);
            Landed(d, now, ns, next)
  {
    var g := Succ(Opened(d, ns).value.generation);
    OpenedTop(d, ns);
    CommitNumber(d, ns);
    LinkLands(d, OpenedDir(d, ns), ns, g, next);
  }

  lemma LinkLands(d: Directory, e: Directory, ns: Namespace, g: nat, next: CacheState)
    requires e == OpenedDir(d, ns) && g !in e.files
    requires Newest(e.Listed()) == Min(Settled(d, ns).generation, U64_MODULUS - 1)
    requires if Settled(d, ns).generation + 1 < U64_MODULUS then g == Settled(d, ns).generation + 1 else g <= 1
    ensures Landed(d, e.(files := e.files[g := Document(next)]), ns, next)
  {
    AboveNewest(e);
    NewestAfterLink(e, g, Document(next));
  }

  /** At the end of the numbers, with generation 0 taken, nothing can be committed and `current` changes nothing. */
  lemma Jammed(d: Directory, ns: Namespace)
    requires Numbered(d) && Settled(d, ns).generation + 1 >= U64_MODULUS && !Landable(d, ns)
    ensures var e := OpenedDir(d, ns);
            && OpenedFiles(e, ns) == e.files && !Landable(e, ns)
            && Numbered(e) && Settled(e, ns).generation + 1 >= U64_MODULUS && SeenAtEnd(d, e, ns)
  {
    OpenedTop(d, ns);
    AboveNewest(d);
    var e := OpenedDir(d, ns);
    if Settled(d, ns).generation < U64_MODULUS {
      OpenedIsSettled(d, ns);
    }
    assert Newest(e.Listed()) == U64_MODULUS - 1 && 0 in e.files;
  }

  /** A state with something staged was read, not published. */
  lemma OpenedPending(d: Directory, ns: Namespace)
    requires Opened(d, ns).Some? && Opened(d, ns).value.state.pending.Some?
    ensures Opened(d, ns) == Loaded(d) && OpenedFiles(d, ns) == d.files
  {
  }

  /** What pruning leaves alone: the newest generation, unless other spellings of its number push it out. */
  ghost predicate Spares(was: Directory, now: Directory) {
    var top := Newest(was.Listed());
    && now.strays == was.strays && Newest(now.Listed()) == top
    && (top in now.files ==> top in was.files && now.files[top] == was.files[top])
    && (top in was.files && top !in was.strays ==> top in now.files)
  }

  lemma SparesCommitted(was: Directory, mid: Directory, now: Directory, ns: Namespace, next: CacheState)
    requires Landed(was, mid, ns, next) && Spares(mid, now)
    ensures Committed(was, now, ns, next)
  {
  }

  lemma SparedByPrune(was: Directory, found: seq<nat>, keep: nat)
    requires IsListing(was, found) && keep > 0 && Newest(was.Listed()) !in was.strays
    ensures Newest(was.Listed()) !in Superseded(found, keep)
  {
    var n, top := |found|, Newest(was.Listed());
    ListingNewest(was, found);
    if top in Superseded(found, keep) {
      var i :| 0 <= i < n - keep && found[i] == top;
      TwiceInMultiset(found, i, n - 1);
    }
  }

  lemma PruneSpares(was: Directory, found: seq<nat>, keep: nat, gone: set<nat>)
    requires IsListing(was, found) && keep > 0 && gone == Members(Superseded(found, keep))
    ensures Spares(was, was.(files := was.files - gone))
  {
    var top := Newest(was.Listed());
    if top !in was.strays {
      SparedByPrune(was, found, keep);
    }
    NewestSpared(was, gone);
  }

  lemma PruneTrims(was: Directory, found: seq<nat>, now: Directory)
    requires IsListing(was, found) && now == was.(files := was.files - Members(Superseded(found, PRUNE_KEEP)))
    ensures Trimmed(was, now)
  {
    forall g ensures g in Superseded(found, PRUNE_KEEP) <==> exists i :: 0 <= i < |found| - 3 && found[i] == g {
      BeforeLastThree(found, g);
    }
  }

  lemma BeforeLastThree(found: seq<nat>, g: nat)
    ensures g in Superseded(found, PRUNE_KEEP) <==> exists i :: 0 <= i < |found| - 3 && found[i] == g
  {
    if i :| 0 <= i < |found| - 3 && found[i] == g {
      assert found[..|found| - 3][i] == g;
    }
  }

  lemma NewestSpared(was: Directory, gone: set<nat>)
    requires Newest(was.Listed()) !in was.strays ==> Newest(was.Listed()) !in gone
    ensures Spares(was, was.(files := was.files - gone))
  {
    var top, now := Newest(was.Listed()), was.(files := was.files - gone);
    assert forall g :: g in now.Listed() ==> g in was.Listed();
    if was.Listed() != {} {
      assert top in now.Listed();
    }
    NewestIs(now.Listed(), top);
  }

  /** What one attempt of `reconcile` does alone, and so the whole of it: each later attempt finds what the first found. */
  ghost predicate Reconciles(was: Directory, after: Directory, ns: Namespace, running: string,
                             r: Result<Option<Reconciliation>, CacheError>)
  {
    match Opened(was, ns)
    case None => r == Err(Uninitialised) && after == was
    case Some(v) =>
      match v.state.pending
      case None =>
        && after == OpenedDir(was, ns)
        && r == Ok(Some(if Loaded(was).Some? && Loaded(was).value.state.ns != ns then NamespaceReset else NothingStaged))
      case Some(pending) =>
        if Landable(was, ns) then
          && r == Ok(Some(if pending.version == running then Promoted(running) else DiscardedPending(pending.version, running)))
          && Committed(was, after, ns, Reconciled(v.state, running)) && Placed(was, after, ns, Reconciled(v.state, running))
        else r == Ok(None) && after == was
  }

  /** A cache nobody else touches, as it was or as reading it once leaves it. */
  ghost predicate SeenAs(d: Directory, shelf: map<string, Node>, ns: Namespace, now: int, d': Directory, shelf': map<string, Node>) {
    (d' == d && shelf' == shelf) || (d' == OpenedDir(d, ns) && OpenedBlobs(d, ns, shelf, shelf', now))
  }

  lemma SeenTwice(d: Directory, shelf: map<string, Node>, ns: Namespace, now: int, d': Directory, shelf': map<string, Node>,
                  d'': Directory, shelf'': map<string, Node>)
    requires SeenAs(d, shelf, ns, now, d', shelf') && SeenAs(d', shelf', ns, now, d'', shelf'')
    ensures SeenAs(d, shelf, ns, now, d'', shelf'')
  {
    OpenedOnce(d, ns);
  }

  /** The state reconciling leaves in force, given what `current` returned. */
  ghost function Settling(state: CacheState, running: string): CacheState {
    if state.pending.Some? then Reconciled(state, running) else state
  }

  /** What reconciling does to the blobs, alone: it drops what the state it leaves does not name, once that is old enough. */
  ghost predicate Tidies(d: Directory, ns: Namespace, running: string, was: map<string, Node>, left: map<string, Node>,
                         grace: nat, now: int)
    requires Opened(d, ns).Some?
  {
    if Resets(d, ns) then Collected(was, left, {}, 0, now)
    else Collected(was, left, Settling(Opened(d, ns).value.state, running).Named(), grace, now)
  }

  lemma PlacedAlike(d: Directory, now: Directory, ns: Namespace, next: CacheState)
    requires Settled(d, ns).generation < U64_MODULUS
    requires Committed(OpenedDir(d, ns), now, ns, next) && Placed(OpenedDir(d, ns), now, ns, next)
    ensures Committed(d, now, ns, next) && Placed(d, now, ns, next)
  {
    OpenedStays(d, ns);
    assert Landing(OpenedDir(d, ns), ns, next) == Landing(d, ns, next);
  }

  class ArtifactCache {
    const store: StateStore
    const blobs: BlobStore
    const ns: Namespace
    const representation: Representation
    const limits: CacheLimits
    const gunzip: Bytes -> Option<Bytes>

    ghost predicate Valid()
      reads store
    {
      store.Valid() && ns.RepresentationKind() == Some(representation)
    }

    constructor (store: StateStore, blobs: BlobStore, ns: Namespace, representation: Representation,
                 limits: CacheLimits, gunzip: Bytes -> Option<Bytes>)
      requires store.Valid() && ns.RepresentationKind() == Some(representation)
      ensures Valid() && this.store == store && this.blobs == blobs && this.ns == ns
      ensures this.representation == representation && this.limits == limits && this.gunzip == gunzip
    {
      this.store := store;
      this.blobs := blobs;
      this.ns := ns;
      this.representation := representation;
      this.limits := limits;
      this.gunzip := gunzip;
    }

    /** There is a cache exactly when the namespace's identifiers are a pair this model knows. */
    static method Open(store: StateStore, blobs: BlobStore, ns: Namespace, limits: CacheLimits,
                       gunzip: Bytes -> Option<Bytes>)
      returns (r: Option<ArtifactCache>)
      requires store.Valid()
      ensures r.Some? <==>
        || (ns.representation == "app-tar-gz-v1" && ns.recompression == "tauri-app-tar-gz-v1")
        || (ns.representation == "opaque-v1" && ns.recompression == "none")
      ensures r.Some? ==> (r.value.representation == Opaque <==> ns.representation == "opaque-v1")
      ensures r.Some? ==> fresh(r.value) && r.value.Valid() && r.value.ns == ns && r.value.store == store && r.value.blobs == blobs
                             && r.value.limits == limits && r.value.gunzip == gunzip
    {
      match ns.RepresentationKind() {
        case None => return None;
        case Some(representation) =>
          var cache := new ArtifactCache(store, blobs, ns, representation, limits, gunzip);
          return Some(cache);
      }
    }

    ghost predicate Alone() {
      store.Alone() && blobs.Alone()
    }

    /** Nobody interferes, ACTIVE of the newest generation is `e`, and its blob is there and verifies. */
    ghost predicate Holds(e: CacheEntry, bytes: Bytes, pubkey: string)
      reads store, blobs
    {
      && Valid() && Alone() && (forall t, b :: blobs.drift(t, b) == b) && Live(store.Dir(), ns)
      && Loaded(store.Dir()).value.state.active == Some(e)
      && e.compressedBlake3 in blobs.blobs && blobs.blobs[e.compressedBlake3].Regular?
      && blobs.blobs[e.compressedBlake3].bytes == bytes
      && FromHex(e.compressedBlake3) == Some(blobs.scheme.hash(bytes)) && |bytes| == e.compressedSize <= limits.maxBlobBytes
      && VerifyArtifact(blobs.scheme, bytes, e.signature, pubkey).Ok?
    }

    /** A state to work from, and whether one of another namespace was found in its place. */
    method Current(now: int) returns (r: Result<(Versioned, bool), CacheError>)
      requires Valid()
      modifies store`files, store`clock, store`seen, store`rivals
      modifies blobs`blobs, blobs`clock, blobs`seen
      ensures Valid() && store.rivals >= old(store.rivals)
      ensures r.Ok? ==> r.value.0.generation < U64_MODULUS
      ensures r.Err? ==> r.error == Io || r.error == Uninitialised
      ensures old(store.Roomy(2)) && r.Ok? && store.Ahead(r.value.0.generation) ==> store.rivals > old(store.rivals)
      ensures old(store.Roomy(2)) && r == Err(Uninitialised) ==> store.rivals >= old(store.rivals) + 8
      ensures forall room: nat :: room > 1 && old(store.Roomy(room)) ==>
        store.Roomy(room - 2) && (r.Ok? ==> r.value.0.generation + room - 2 < U64_MODULUS)
      ensures store.Alone() ==>
        && store.rivals == old(store.rivals) && store.files == OpenedFiles(old(store.Dir()), ns)
        && match Opened(old(store.Dir()), ns)
           case None => r == Err(Uninitialised)
           case Some(v) =>
             && r.Ok? && r.value.0 == v
             && (r.value.1 <==> old(Loaded(store.Dir())).Some? && old(Loaded(store.Dir())).value.state.ns != ns)
      ensures store.Alone() && !Resets(old(store.Dir()), ns) ==> blobs.blobs == old(blobs.blobs)
      ensures Alone() ==> OpenedBlobs(old(store.Dir()), ns, old(blobs.blobs), blobs.blobs, now)
    {
      var initialised := store.Initialise(ns);
      if initialised.Err? {
        return Err(initialised.error);
      }
      if initialised.value.state.ns == ns {
        return Ok((initialised.value, false));
      }
      r := Reset(initialised.value, now);
    }

    /** Drop every blob, whatever its age. Failure is ignored. */
    method Wipe(now: int)
      modifies blobs`blobs, blobs`clock, blobs`seen
      ensures blobs.Alone() ==> Collected(old(blobs.blobs), blobs.blobs, {}, 0, now)
    {
      var _ := blobs.Retain([], 0, now);
    }

    /** Publish an empty state over one of another namespace, and drop that one's blobs. */
    method Reset(current: Versioned, now: int) returns (r: Result<(Versioned, bool), CacheError>)
      requires Valid() && current.generation < U64_MODULUS
      modifies store`files, store`clock, store`seen, store`rivals
      modifies blobs`blobs, blobs`clock, blobs`seen
      ensures Valid() && store.rivals >= old(store.rivals)
      ensures r.Ok? ==> r.value.1 && r.value.0.generation < U64_MODULUS
      ensures r.Err? ==> r.error == Io || r.error == Uninitialised
      ensures old(store.Roomy(1)) && current.generation + 1 < U64_MODULUS && !old(store.Ahead(current.generation))
              && r.Ok? && store.Ahead(r.value.0.generation) ==>
        store.rivals > old(store.rivals)
      ensures old(store.Roomy(1)) && r == Err(Uninitialised) ==> store.rivals >= old(store.rivals) + 8
      ensures forall room: nat :: room > 0 && old(store.Roomy(room)) && current.generation + room < U64_MODULUS ==>
        store.Roomy(room - 1) && (r.Ok? ==> r.value.0.generation + room - 1 < U64_MODULUS)
      ensures store.Alone() && old(Loaded(store.Dir())) == Some(current) ==>
        var next := Succ(current.generation);
        && store.rivals == old(store.rivals)
        && if next in old(store.files) then r == Ok((current, true)) && store.files == old(store.files)
           else r == Ok((Versioned(next, EmptyState(ns)), true)) && store.files == old(store.files)[next := Document(EmptyState(ns))]
      ensures store.Alone() && Succ(current.generation) in old(store.files) ==> blobs.blobs == old(blobs.blobs)
      ensures Alone() && Succ(current.generation) !in old(store.files) ==> Collected(old(blobs.blobs), blobs.blobs, {}, 0, now)
    {
      var reset := EmptyState(ns);
      var cas := store.CompareAndSet(current.generation, reset);
      match cas {
        case Ok(generation) =>
          Wipe(now);
          return Ok((Versioned(generation, reset), true));
        case Err(Conflict) =>
          var again := store.Initialise(ns);
          match again {
            case Ok(v) => return Ok((v, true));
            case Err(e) => return Err(e);
          }
        case Err(Failed(e)) => return Err(e);
      }
    }

    /** Drop old blobs the state does not name. Failure is ignored. */
    method Collect(state: CacheState, now: int)
      modifies blobs`blobs, blobs`clock, blobs`seen
      ensures blobs.Alone() ==> Collected(old(blobs.blobs), blobs.blobs, state.Named(), limits.blobGrace, now)
    {
      var keep: seq<string> := [];
      if state.active.Some? {
        keep := keep + [state.active.value.compressedBlake3];
      }
      if state.pending.Some? {
        keep := keep + [state.pending.value.compressedBlake3];
      }
      assert state.Named() == Names(keep);
      var _ := blobs.Retain(keep, limits.blobGrace, now);
    }

    /** Pruning after a commit, whatever comes of it. */
    method PruneSuperseded()
      requires Valid()
      modifies store`files, store`clock, store`seen, store`rivals
      ensures Valid() && store.rivals >= old(store.rivals)
      ensures store.Alone() ==>
        store.rivals == old(store.rivals) && Spares(old(store.Dir()), store.Dir()) && Trimmed(old(store.Dir()), store.Dir())
    {
      ghost var was := store.Dir();
      var _ := store.Prune(PRUNE_KEEP);
      if store.Alone() {
        ghost var found :| IsListing(was, found) && store.files == was.files - Members(Superseded(found, PRUNE_KEEP));
        PruneSpares(was, found, PRUNE_KEEP, Members(Superseded(found, PRUNE_KEEP)));
        PruneTrims(was, found, store.Dir());
      }
    }

    /** After a commit of `reconcile`: collect against the new state, then prune. */
    method Tidy(next: CacheState, now: int)
      requires Valid()
      modifies store`files, store`clock, store`seen, store`rivals
      modifies blobs`blobs, blobs`clock, blobs`seen
      ensures Valid() && store.rivals >= old(store.rivals)
      ensures store.Alone() ==>
        store.rivals == old(store.rivals) && Spares(old(store.Dir()), store.Dir()) && Trimmed(old(store.Dir()), store.Dir())
      ensures blobs.Alone() ==> Collected(old(blobs.blobs), blobs.blobs, next.Named(), limits.blobGrace, now)
    {
      Collect(next, now);
      PruneSuperseded();
    }

    lemma NumberedDir()
      requires Valid()
      ensures Numbered(store.Dir())
    {
      NumbersWithin(store.strays);
    }

    /** Publish `next` over what `current` returned, having found `was`. */
    method Commit(ghost was: Directory, current: Versioned, next: CacheState) returns (r: Result<nat, CasError>)
      requires Valid() && current.generation < U64_MODULUS && Numbered(was)
      requires store.Alone() ==> Opened(was, ns) == Some(current) && store.Dir() == OpenedDir(was, ns)
      modifies store`files, store`clock, store`seen, store`rivals
      ensures Valid() && store.rivals >= old(store.rivals)
      ensures r.Err? ==> r.error.Conflict? || r.error == Failed(Io)
      ensures r == Err(Conflict) && current.generation + 1 < U64_MODULUS && !old(store.Ahead(current.generation)) ==>
        store.rivals > old(store.rivals)
      ensures r.Err? ==> forall room: nat :: old(store.Roomy(room)) ==> store.Roomy(room)
      ensures store.Alone() ==>
        && store.rivals == old(store.rivals) && (r.Ok? <==> Landable(was, ns))
        && (r.Err? ==> r == Err(Conflict) && store.Dir() == old(store.Dir()))
        && (r.Ok? ==> Landed(was, store.Dir(), ns, next) && store.Dir() == Landing(was, ns, next))
    {
      if store.Alone() && Landable(was, ns) {
        CommitLands(was, ns, next);
      }
      r := store.CompareAndSet(current.generation, next);
    }

    /** One attempt of `reconcile`: its outcome, or nothing when the name to publish under was taken. */
    method ReconcileOnce(running: string, now: int) returns (r: Result<Option<Reconciliation>, CacheError>)
      requires Valid()
      modifies store`files, store`clock, store`seen, store`rivals
      modifies blobs`blobs, blobs`clock, blobs`seen
      ensures Valid() && store.rivals >= old(store.rivals)
      ensures r.Err? ==> r.error == Io || r.error == Uninitialised
      ensures r == Ok(None) ==> forall room: nat :: room > 2 && old(store.Roomy(room)) ==>
        store.Roomy(room - 2) && store.rivals > old(store.rivals)
      ensures store.Alone() ==>
        store.rivals == old(store.rivals) && Reconciles(old(store.Dir()), store.Dir(), ns, running, r)
      ensures Alone() ==>
        match r
        case Ok(Some(_)) =>
          && Opened(old(store.Dir()), ns).Some?
          && Tidies(old(store.Dir()), ns, running, old(blobs.blobs), blobs.blobs, limits.blobGrace, now)
        case _ => blobs.blobs == old(blobs.blobs)
    {
      ghost var was := store.Dir();
      NumberedDir();
      var got := Current(now);
      if got.Err? {
        return Err(got.error);
      }
      var (current, wasReset) := got.value;
      match current.state.pending {
        case None =>
          Collect(current.state, now);
          return Ok(Some(if wasReset then NamespaceReset else NothingStaged));
        case Some(pending) =>
          var next := Reconciled(current.state, running);
          var outcome :=
            if pending.version == running then Promoted(pending.version)
            else DiscardedPending(pending.version, running);
          var cas := Commit(was, current, next);
          match cas {
            case Ok(_) =>
              ghost var mid := store.Dir();
              Tidy(next, now);
              if store.Alone() {
                SparesCommitted(was, mid, store.Dir(), ns, next);
              }
              return Ok(Some(outcome));
            case Err(Conflict) =>
              if store.Alone() {
                OpenedPending(was, ns);
              }
              return Ok(None);
            case Err(Failed(e)) => return Err(e);
          }
      }
    }

    /**
     * Settle PENDING by the version the caller observed. With room above the
     * newest generation, contention is reported only after at least 64
     * publications by other processes; alone, only at the end of the numbers.
     */
    method Reconcile(running: string, now: int) returns (r: Result<Reconciliation, CacheError>)
      requires Valid()
      modifies store`files, store`clock, store`seen, store`rivals
      modifies blobs`blobs, blobs`clock, blobs`seen
      ensures Valid() && store.rivals >= old(store.rivals)
      ensures old(store.Roomy(129)) && r == Err(Contended) ==> store.rivals >= old(store.rivals) + 64
      ensures store.Alone() ==>
        && store.rivals == old(store.rivals)
        && Reconciles(old(store.Dir()), store.Dir(), ns, running,
                      match r case Ok(outcome) => Ok(Some(outcome)) case Err(e) => if e == Contended then Ok(None) else Err(e))
      ensures Alone() && r.Ok? ==>
        && Opened(old(store.Dir()), ns).Some?
        && Tidies(old(store.Dir()), ns, running, old(blobs.blobs), blobs.blobs, limits.blobGrace, now)
      ensures Alone() && r.Err? ==> blobs.blobs == old(blobs.blobs)
    {
      for attempt := 0 to MAX_CAS_ATTEMPTS
        invariant Valid() && store.rivals >= old(store.rivals)
        invariant old(store.Roomy(CAS_ROOM)) ==>
          store.Roomy(CAS_ROOM - 2 * attempt) && store.rivals >= old(store.rivals) + attempt
        invariant store.Alone() ==>
          && store.rivals == old(store.rivals) && store.Dir() == old(store.Dir())
          && (attempt > 0 ==> Reconciles(old(store.Dir()), store.Dir(), ns, running, Ok(None)))
        invariant Alone() ==> blobs.blobs == old(blobs.blobs)
      {
        var done := ReconcileOnce(running, now);
        match done {
          case Err(e) => return Err(e);
          case Ok(Some(outcome)) => return Ok(outcome);
          case Ok(None) =>
        }
      }
      return Err(Contended);
    }

    /** Everything staging `bytes` needs of a cache nobody else touches: the ceilings, the name of the blob, and a number to commit under. */
    ghost predicate Takes(dir: Directory, shelf: map<string, Node>, bytes: Bytes) {
      && |bytes| <= limits.maxBlobBytes
      && (representation == AppTarGz ==> gunzip(bytes).Some? && |gunzip(bytes).value| <= limits.maxTarBytes)
      && (var stem := ToHex(blobs.scheme.hash(bytes)); stem in shelf ==> shelf[stem].Regular? && |shelf[stem].bytes| == |bytes|)
      && Landable(dir, ns)
    }

    /**
     * What staging leaves of a cache that held `dir` and `shelf`: PENDING is the
     * entry recorded, everything else of the state is as it was, and the blob is
     * among the others, unless those had to go.
     */
    ghost predicate Keeps(dir: Directory, shelf: map<string, Node>, e: CacheEntry, version: string, bytes: Bytes, signature: string,
                          now: int)
      reads store, blobs
    {
      && Records(blobs.scheme, gunzip, representation, e, version, bytes, signature) && Landable(dir, ns)
      && Committed(dir, store.Dir(), ns, Staged(Opened(dir, ns).value.state, e))
      && Placed(dir, store.Dir(), ns, Staged(Opened(dir, ns).value.state, e))
      && OpenedBlobs(dir, ns, Shelved(shelf, e.compressedBlake3, bytes, now), blobs.blobs, now)
    }

    ghost predicate Seen(dir: Directory, shelf: map<string, Node>, now: int)
      reads store, blobs
    {
      SeenAs(dir, shelf, ns, now, store.Dir(), blobs.blobs)
    }

    /**
     * What an artifact offered to a cache that held `dir` and `shelf` leaves, and
     * whether the caller, if it was told anything, was told of a failure: it is
     * staged whenever it can be, and told of exactly when it cannot.
     */
    ghost predicate Offered(dir: Directory, shelf: map<string, Node>, version: string, bytes: Bytes, signature: string,
                            now: int, told: Option<bool>)
      reads store, blobs
    {
      && (told.Some? ==> (told.value <==> !Takes(dir, shelf, bytes)))
      && if Takes(dir, shelf, bytes) then exists e :: Keeps(dir, shelf, e, version, bytes, signature, now)
         else store.Dir() == dir || store.Dir() == OpenedDir(dir, ns)
    }

    /** Reading the cache first makes no difference to what can be staged, short of a reset and of the last number. */
    lemma OfferedFromStart(dir: Directory, shelf: map<string, Node>, dir': Directory, shelf': map<string, Node>,
                           version: string, bytes: Bytes, signature: string, now: int, told: Option<bool>)
      requires Ordinary(dir, ns)
      requires SeenAs(dir, shelf, ns, now, dir', shelf') && Offered(dir', shelf', version, bytes, signature, now, told)
      ensures Offered(dir, shelf, version, bytes, signature, now, told)
    {
      if dir' != dir {
        OpenedOnce(dir, ns);
        OpenedStays(dir, ns);
        if Takes(dir', shelf', bytes) {
          var e :| Keeps(dir', shelf', e, version, bytes, signature, now);
          PlacedAlike(dir, store.Dir(), ns, Staged(Opened(dir, ns).value.state, e));
          assert Keeps(dir, shelf, e, version, bytes, signature, now);
        }
      }
    }

    /**
     * The blob of what was staged is there exactly when there was nothing to
     * reset: over a state of another namespace, staging commits an entry for a
     * blob that it has itself put and dropped again.
     */
    lemma StagedBlob(dir: Directory, shelf: map<string, Node>, e: CacheEntry, version: string, bytes: Bytes, signature: string, now: int)
      requires Takes(dir, shelf, bytes) && Keeps(dir, shelf, e, version, bytes, signature, now)
      ensures e.compressedBlake3 in blobs.blobs <==> (Loaded(dir).Some? ==> Loaded(dir).value.state.ns == ns)
      ensures e.compressedBlake3 in blobs.blobs && e.compressedBlake3 !in shelf ==>
        blobs.blobs[e.compressedBlake3] == Regular(bytes, Some(now))
    {
      HexRoundTrip(blobs.scheme.hash(bytes));
    }

    /** The tar facts a staged artifact is recorded with. */
    method Facts(bytes: Bytes) returns (r: Result<Option<TarFacts>, CacheError>)
      ensures r.Ok? ==> match representation
                        case Opaque => r.value.None?
                        case AppTarGz =>
                          && gunzip(bytes).Some? && |gunzip(bytes).value| <= limits.maxTarBytes
                          && r.value == Some(TarFacts(ToHex(blobs.scheme.hash(gunzip(bytes).value)), |gunzip(bytes).value|))
      ensures r.Err? <==> representation == AppTarGz && Expand(gunzip, bytes, limits.maxTarBytes).Err?
      ensures r.Err? ==> r.error.Decompression? || r.error.OutputTooLarge?
    {
      match representation {
        case Opaque => return Ok(None);
        case AppTarGz =>
          match Expand(gunzip, bytes, limits.maxTarBytes) {
            case Err(e) => return Err(e);
            case Ok(tar) => return Ok(Some(TarFacts(ToHex(blobs.scheme.hash(tar)), |tar|)));
          }
      }
    }

    /**
     * Put an artifact's blob and commit an entry for it. All of the entry but its
     * version and signature is computed from the bytes, and ACTIVE stays as it is.
     */
    method StagePending(version: string, artifact: VerifiedArtifact, signature: string, now: int)
      returns (r: Result<CacheEntry, CacheError>)
      requires Valid()
      modifies store`files, store`clock, store`seen, store`rivals
      modifies blobs`blobs, blobs`clock, blobs`seen
      ensures Valid() && store.rivals >= old(store.rivals)
      ensures r.Ok? ==> Records(blobs.scheme, gunzip, representation, r.value, version, artifact.bytes, signature)
      ensures old(store.Roomy(129)) && r == Err(Contended) ==> store.rivals >= old(store.rivals) + 64
      ensures |artifact.bytes| > limits.maxBlobBytes ==>
        r.Err? && store.files == old(store.files) && blobs.blobs == old(blobs.blobs)
      ensures store.Alone() && r.Err? ==>
        store.Dir() == old(store.Dir()) || (!Landable(old(store.Dir()), ns) && store.Dir() == OpenedDir(old(store.Dir()), ns))
      ensures store.Alone() && r.Ok? ==>
        && Landable(old(store.Dir()), ns)
        && Committed(old(store.Dir()), store.Dir(), ns, Staged(Opened(old(store.Dir()), ns).value.state, r.value))
        && Placed(old(store.Dir()), store.Dir(), ns, Staged(Opened(old(store.Dir()), ns).value.state, r.value))
      ensures Alone() ==> (r.Ok? <==> Takes(old(store.Dir()), old(blobs.blobs), artifact.bytes))
      ensures Alone() && r.Ok? ==>
        Keeps(old(store.Dir()), old(blobs.blobs), r.value, version, artifact.bytes, signature, now)
    {
      if |artifact.bytes| > limits.maxBlobBytes {
        return Err(TooLarge(|artifact.bytes|, limits.maxBlobBytes));
      }
      var facts := Facts(artifact.bytes);
      if facts.Err? {
        return Err(facts.error);
      }
      var put := blobs.Put(artifact, now);
      if put.Err? {
        return Err(put.error);
      }
      var entry := CacheEntry(version, ToHex(put.value), |artifact.bytes|, facts.value, signature);
      var committed := CommitPending(entry, now);
      match committed {
        case Ok(_) => return Ok(entry);
        case Err(e) => return Err(e);
      }
    }

    /** One attempt to commit `entry` as PENDING: whether it was. */
    method CommitOnce(entry: CacheEntry, now: int) returns (r: Result<bool, CacheError>)
      requires Valid()
      modifies store`files, store`clock, store`seen, store`rivals
      modifies blobs`blobs, blobs`clock, blobs`seen
      ensures Valid() && store.rivals >= old(store.rivals)
      ensures r.Err? ==> r.error == Io || r.error == Uninitialised
      ensures r == Ok(false) ==> forall room: nat :: room > 2 && old(store.Roomy(room)) ==>
        store.Roomy(room - 2) && store.rivals > old(store.rivals)
      ensures store.Alone() ==>
        && store.rivals == old(store.rivals)
        && r == (if Landable(old(store.Dir()), ns) then Ok(true)
                 else if Opened(old(store.Dir()), ns).Some? then Ok(false)
                 else Err(Uninitialised))
        && (r != Ok(true) ==> store.Dir() == OpenedDir(old(store.Dir()), ns))
        && (r == Ok(true) ==>
              && Committed(old(store.Dir()), store.Dir(), ns, Staged(Opened(old(store.Dir()), ns).value.state, entry))
              && Placed(old(store.Dir()), store.Dir(), ns, Staged(Opened(old(store.Dir()), ns).value.state, entry)))
      ensures Alone() ==> OpenedBlobs(old(store.Dir()), ns, old(blobs.blobs), blobs.blobs, now)
    {
      ghost var was := store.Dir();
      NumberedDir();
      var got := Current(now);
      if got.Err? {
        return Err(got.error);
      }
      var (current, _) := got.value;
      var next := Staged(current.state, entry);
      var cas := Commit(was, current, next);
      match cas {
        case Ok(_) =>
          ghost var mid := store.Dir();
          PruneSuperseded();
          if store.Alone() {
            SparesCommitted(was, mid, store.Dir(), ns, next);
          }
          return Ok(true);
        case Err(Conflict) =>
          return Ok(false);
        case Err(Failed(e)) => return Err(e);
      }
    }

    /**
     * The retry loop of `stage_pending`. Alone it fails only at the end of the
     * numbers, where it may report contention although nobody else published.
     */
    method CommitPending(entry: CacheEntry, now: int) returns (r: Result<(), CacheError>)
      requires Valid()
      modifies store`files, store`clock, store`seen, store`rivals
      modifies blobs`blobs, blobs`clock, blobs`seen
      ensures Valid() && store.rivals >= old(store.rivals)
      ensures old(store.Roomy(129)) && r == Err(Contended) ==> store.rivals >= old(store.rivals) + 64
      ensures store.Alone() ==>
        && store.rivals == old(store.rivals)
        && (r.Ok? <==> Landable(old(store.Dir()), ns))
        && (r.Err? ==>
              && store.Dir() == OpenedDir(old(store.Dir()), ns)
              && r.error == (if Opened(store.Dir(), ns).Some? then Contended else Uninitialised))
        && (r.Ok? ==>
              && Committed(old(store.Dir()), store.Dir(), ns, Staged(Opened(old(store.Dir()), ns).value.state, entry))
              && Placed(old(store.Dir()), store.Dir(), ns, Staged(Opened(old(store.Dir()), ns).value.state, entry)))
      ensures Alone() ==> OpenedBlobs(old(store.Dir()), ns, old(blobs.blobs), blobs.blobs, now)
    {
      NumberedDir();
      LandableExactly(store.Dir(), ns);
      OpenedOnce(store.Dir(), ns);
      for attempt := 0 to MAX_CAS_ATTEMPTS
        invariant Valid() && store.rivals >= old(store.rivals)
        invariant old(store.Roomy(CAS_ROOM)) ==>
          store.Roomy(CAS_ROOM - 2 * attempt) && store.rivals >= old(store.rivals) + attempt
        invariant store.Alone() ==>
          && store.rivals == old(store.rivals)
          && (attempt == 0 ==> store.Dir() == old(store.Dir()))
          && (attempt > 0 ==> !Landable(old(store.Dir()), ns) && store.Dir() == OpenedDir(old(store.Dir()), ns))
          && (attempt > 1 ==> Opened(store.Dir(), ns).Some?)
        invariant Alone() ==>
          if attempt == 0 then blobs.blobs == old(blobs.blobs)
          else OpenedBlobs(old(store.Dir()), ns, old(blobs.blobs), blobs.blobs, now)
      {
        var done := CommitOnce(entry, now);
        if store.Alone() && !Landable(old(store.Dir()), ns) {
          Jammed(old(store.Dir()), ns);
        }
        match done {
          case Err(e) => return Err(e);
          case Ok(true) => return Ok(());
          case Ok(false) =>
        }
      }
      return Err(Contended);
    }

    /**
     * The blob ACTIVE names, if any. Whatever is returned is checked
     * against the entry and the key configured now. On a directory nobody else
     * touches the files are left alone exactly when the newest generation is a
     * readable state of this namespace, or no name above it is free.
     */
    method Active(pubkey: string, now: int) returns (r: Result<Option<ActiveBase>, CacheError>)
      requires Valid()
      modifies store`files, store`clock, store`seen, store`rivals
      modifies blobs`blobs, blobs`clock, blobs`seen
      ensures Valid()
      ensures r.Ok? && r.value.Some? ==>
        var base := r.value.value;
        && FromHex(base.entry.compressedBlake3) == Some(blobs.scheme.hash(base.artifact.bytes))
        && |base.artifact.bytes| == base.entry.compressedSize
        && VerifyArtifact(blobs.scheme, base.artifact.bytes, base.entry.signature, pubkey) == Ok(base.artifact)
        && Genuine(blobs.scheme, base.artifact.bytes, base.entry.signature, pubkey)
      ensures store.Alone() ==>
        var was := old(store.Dir());
        && store.files == OpenedFiles(was, ns)
        && (r.Ok? ==>
              && Opened(was, ns).Some?
              && (r.value.Some? <==> Opened(was, ns).value.state.active.Some?)
              && (r.value.Some? ==> Some(r.value.value.entry) == Opened(was, ns).value.state.active))
        && (store.files == old(store.files) <==> Live(was, ns) || FreeAbove(old(store.Top())) in old(store.files))
      ensures Alone() ==> OpenedBlobs(old(store.Dir()), ns, old(blobs.blobs), blobs.blobs, now)
      ensures forall e, bytes :: old(Holds(e, bytes, pubkey)) ==>
        && Holds(e, bytes, pubkey)
        && r.Ok? && r.value.Some? && r.value.value.entry == e && r.value.value.artifact.bytes == bytes
    {
      NumberedDir();
      OpenedUnchanged(store.Dir(), ns);
      var got := Current(now);
      if got.Err? {
        return Err(got.error);
      }
      match got.value.0.state.active {
        case None => return Ok(None);
        case Some(entry) =>
          var read := blobs.Get(entry.compressedBlake3, entry.compressedSize, entry.signature, pubkey, limits.maxBlobBytes);
          match read {
            case Ok(artifact) =>
              VerifiesExactly(blobs.scheme, artifact.bytes, entry.signature, pubkey, artifact);
              return Ok(Some(ActiveBase(entry, artifact)));
            case Err(e) => return Err(e);
          }
      }
    }

    /** The tar inside `bytes` exists, is within the local ceiling, and has the declared size and digest. */
    ghost predicate Declares(bytes: Bytes, blake3: string, size: nat) {
      && gunzip(bytes).Some?
      && |gunzip(bytes).value| == size <= limits.maxTarBytes
      && FromHex(blake3) == Some(blobs.scheme.hash(gunzip(bytes).value))
    }

    /** The tar inside an artifact, provided it is the one declared. */
    method ExpandToTar(artifact: VerifiedArtifact, expectedBlake3: string, expectedSize: nat)
      returns (r: Result<Bytes, CacheError>)
      ensures r.Ok? <==> Declares(artifact.bytes, expectedBlake3, expectedSize)
      ensures r.Ok? ==> gunzip(artifact.bytes) == Some(r.value)
    {
      var expected := FromHex(expectedBlake3);
      if expected.None? {
        return Err(InvalidHash);
      }
      if expectedSize > limits.maxTarBytes {
        return Err(TooLarge(expectedSize, limits.maxTarBytes));
      }
      var ceiling := Min(expectedSize, limits.maxTarBytes);
      match Expand(gunzip, artifact.bytes, ceiling) {
        case Err(e) => return Err(e);
        case Ok(tar) =>
          if |tar| != expectedSize {
            return Err(UnexpectedSize(expectedSize, |tar|));
          }
          if blobs.scheme.hash(tar) != expected.value {
            return Err(ChecksumMismatch);
          }
          return Ok(tar);
      }
    }
  }

  /** The blobs once `bytes` have been put among them under their digest. */
  ghost function Shelved(was: map<string, Node>, stem: string, bytes: Bytes, now: int): map<string, Node> {
    if stem in was then was else was[stem := Regular(bytes, Some(now))]
  }

  lemma OpenedUnchanged(d: Directory, ns: Namespace)
    requires Numbered(d)
    ensures OpenedFiles(d, ns) == d.files <==> Live(d, ns) || FreeAbove(Newest(d.Listed())) in d.files
  {
  }

  /**
   * What `active` returns for an entry is, byte for byte, what the stage that
   * recorded the entry was given, and it verifies under the key in use.
   */
  lemma StagedBytesReturn(
    scheme: Scheme, gunzip: Bytes -> Option<Bytes>, representation: Representation,
    e: CacheEntry, version: string, staged: Bytes, signature: string,
    base: ActiveBase, pubkey: string)
    requires Unrivalled(scheme.hash, staged)
    requires Records(scheme, gunzip, representation, e, version, staged, signature)
    requires base.entry == e
    requires FromHex(base.entry.compressedBlake3) == Some(scheme.hash(base.artifact.bytes))
    requires VerifyArtifact(scheme, base.artifact.bytes, base.entry.signature, pubkey) == Ok(base.artifact)
    ensures base.artifact.bytes == staged
    ensures VerifyArtifact(scheme, staged, signature, pubkey).Ok?
  {
    HexRoundTrip(scheme.hash(staged));
  }

  /** A committed state is what is found next. */
  lemma CommittedOpens(was: Directory, now: Directory, ns: Namespace, next: CacheState)
    requires Settled(was, ns).generation + 1 < U64_MODULUS && Committed(was, now, ns, next)
    requires next.ns == ns && next.formatVersion == CACHE_FORMAT_VERSION
    ensures Settled(now, ns) == Versioned(Settled(was, ns).generation + 1, next)
    ensures Opened(now, ns) == Some(Settled(now, ns)) && OpenedFiles(now, ns) == now.files
  {
  }

  /**
   * A whole life in the cache. Whatever others do, if what is read back is the
   * entry this stage recorded, it is the staged bytes, verified under the key in
   * use. With nobody else at the state directory and two numbers left above it,
   * that is what happens when the staged version is then observed running: the
   * artifact becomes ACTIVE and is read back or not at all, whatever happened to
   * the blob directory meanwhile. Observed running with any other version, it is
   * never read back: ACTIVE is still what it was before the stage.
   */
  method StageReconcileRead(cache: ArtifactCache, version: string, artifact: VerifiedArtifact, signature: string,
                            running: string, pubkey: string, now: int)
    returns (r: Result<Option<ActiveBase>, CacheError>, ghost staged: Option<CacheEntry>)
    requires cache.Valid() && Unrivalled(cache.blobs.scheme.hash, artifact.bytes)
    modifies cache.store, cache.blobs
    ensures r.Ok? && r.value.Some? && staged == Some(r.value.value.entry) ==>
      && r.value.value.artifact.bytes == artifact.bytes
      && VerifyArtifact(cache.blobs.scheme, artifact.bytes, signature, pubkey) == Ok(r.value.value.artifact)
    ensures cache.store.Alone() && old(Settled(cache.store.Dir(), cache.ns)).generation + 2 < U64_MODULUS && r.Ok? ==>
      staged.Some? && match r.value
                      case None => version != running && old(Settled(cache.store.Dir(), cache.ns)).state.active.None?
                      case Some(base) =>
                        if version == running then base.entry == staged.value
                        else old(Settled(cache.store.Dir(), cache.ns)).state.active == Some(base.entry)
  {
    ghost var was := cache.store.Dir();
    ghost var alone := cache.store.Alone() && Settled(was, cache.ns).generation + 2 < U64_MODULUS;
    cache.NumberedDir();
    var recorded := cache.StagePending(version, artifact, signature, now);
    if recorded.Err? {
      return Err(recorded.error), None;
    }
    staged := Some(recorded.value);
    ghost var pending := cache.store.Dir();
    if alone {
      OpenedIsSettled(was, cache.ns);
      CommittedOpens(was, pending, cache.ns, Staged(Settled(was, cache.ns).state, recorded.value));
    }
    cache.NumberedDir();
    LandableExactly(pending, cache.ns);
    var _ := cache.Reconcile(running, now);
    if alone {
      CommittedOpens(pending, cache.store.Dir(), cache.ns, Reconciled(Settled(pending, cache.ns).state, running));
    }
    r := cache.Active(pubkey, now);
    if r.Ok? && r.value.Some? && staged == Some(r.value.value.entry) {
      StagedBytesReturn(cache.blobs.scheme, cache.gunzip, cache.representation, recorded.value, version, artifact.bytes, signature,
                        r.value.value, pubkey);
    }
  }
}
