/**
 * Any number of processes running the cache operations over one directory.
 *
 * Every filesystem call is one step: list, read, create the temporary file,
 * complete it, link it, unlink it, remove a generation, examine a blob.  A
 * process may stop at any point (a crash or an I/O error) and start another
 * operation later.  Temporary names are private to a process, so a temporary
 * file is part of the process that owns it.
 */
module CacheMachine {
  import opened Prelude
  import opened CacheTypes
  import opened StateDirectory

  /** The namespace all live processes share, the newest generation found at the start, and the collection grace. */
  datatype Config = Config(ns: Namespace, floor: int, grace: nat)

  /**
   * The shared state.  `blobs` maps a content address to the time its bytes
   * were written.  `staged` and `promoted` are history: what some
   * `stage_pending` recorded and what some `reconcile` promoted.
   */
  datatype Shared = Shared(
    dir: Directory, blobs: map<string, nat>, now: nat,
    staged: set<CacheEntry>, promoted: set<CacheEntry>)
  {
    ghost function Top(): int { Newest(dir.Listed()) }
  }

  datatype Op = Observe | Stage(entry: CacheEntry) | Reconcile(running: string)

  /** Why a generation is being published. `base` is the state a commit was computed from. */
  datatype Purpose = Initialise | Reset | Commit(base: CacheState)

  datatype Publication = Publication(generation: nat, state: CacheState, purpose: Purpose)

  datatype Pc =
    | Idle
    | PutWrite
    | PutLink
    | Load
    | Read(generation: nat)
    | Relist
    | Write(pub: Publication)
    | Sync(pub: Publication)
    | Link(pub: Publication)
    | Unlink(pub: Publication, won: bool)
    | Wipe(generation: nat)
    | Collect(keep: set<string>, committed: bool)
    | Sweep(keep: set<string>, committed: bool, scanned: nat)
    | ListPrune
    | Prune(todo: seq<nat>)

  /**
   * One process. `since` is when the state in hand was last known to be the
   * newest; `wrote` is when
   * the blob being staged was written, by this `put` or by the one that left it.
   */
  datatype Process = Process(
    op: Op, pc: Pc, temp: Option<FileBody>,
    casTries: nat, initTries: nat, second: bool, since: nat, wrote: nat)

  // ---- local computation between filesystem calls ------------------------

  /** Continue once `current` has returned `state`, read at `generation`. */
  function Proceed(q: Process, generation: nat, state: CacheState): Process {
    match q.op
    case Observe => q.(pc := Idle)
    case Stage(entry) =>
      q.(pc := Write(Publication(generation + 1, Staged(state, entry), Commit(state))))
    case Reconcile(running) =>
      if state.pending.None? then
        q.(pc := Collect(state.Named(), false))
      else
        q.(pc := Write(Publication(generation + 1, Reconciled(state, running), Commit(state))))
  }

  /** `current`, given what `initialise` returned. */
  function Have(c: Config, q: Process, generation: nat, state: CacheState): Process {
    if !q.second && state.ns != c.ns then
      q.(pc := Write(Publication(generation + 1, EmptyState(c.ns), Reset)))
    else
      Proceed(q, generation, state)
  }

  /** Continue once a publication won, as of time `now`. */
  function Won(c: Config, q: Process, pub: Publication): Process {
    match pub.purpose
    case Initialise => Have(c, q, pub.generation, pub.state)
    case Reset => q.(pc := Wipe(pub.generation))
    case Commit(_) =>
      match q.op
      case Reconcile(_) => q.(pc := Collect(pub.state.Named(), true))
      case _ => q.(pc := ListPrune)
  }

  /** Continue once a publication found its generation taken. */
  function Lost(q: Process, pub: Publication): Process {
    match pub.purpose
    case Initialise =>
      if q.initTries + 1 < INITIALISE_ATTEMPTS then q.(pc := Load, initTries := q.initTries + 1)
      else q.(pc := Idle)
    case Reset => q.(pc := Load, initTries := 0, second := true)
    case Commit(_) =>
      if q.casTries + 1 < MAX_CAS_ATTEMPTS then
        q.(pc := Load, casTries := q.casTries + 1, initTries := 0, second := false)
      else q.(pc := Idle)
  }

  // ---- one step of one process -------------------------------------------

  ghost predicate Begin(sh: Shared, q: Process, sh': Shared, q': Process) {
    && q.pc.Idle? && sh' == sh
    && q' == Process(q'.op, if q'.op.Stage? then PutWrite else Load, None, 0, 0, false, q'.since, q'.wrote)
  }

  ghost predicate Stop(sh: Shared, q: Process, sh': Shared, q': Process) {
    sh' == sh && q' == q.(pc := Idle, temp := q'.temp)
  }

  ghost predicate PutWriteStep(sh: Shared, q: Process, sh': Shared, q': Process) {
    q.pc.PutWrite? && sh' == sh && q' == q.(pc := PutLink, wrote := sh.now)
  }

  /** The blob's link either creates it or confirms what is already there; its time of writing is not refreshed. */
  ghost predicate PutLinkStep(sh: Shared, q: Process, sh': Shared, q': Process) {
    && q.pc.PutLink? && q.op.Stage?
    && var address := q.op.entry.compressedBlake3;
    if address in sh.blobs then sh' == sh && q' == q.(pc := Load, wrote := sh.blobs[address])
    else sh' == sh.(blobs := sh.blobs[address := q.wrote]) && q' == q.(pc := Load)
  }

  ghost predicate LoadStep(sh: Shared, q: Process, sh': Shared, q': Process) {
    && q.pc.Load? && sh' == sh
    && var top := sh.Top();
    q' == q.(since := sh.now, pc := if top < 0 then Relist else Read(top))
  }

  /** The read finds a document this build reads, or nothing: a pruned name, another format, or a failed read. */
  ghost predicate ReadStep(c: Config, sh: Shared, q: Process, sh': Shared, q': Process) {
    && q.pc.Read? && sh' == sh
    && var g := q.pc.generation;
    || q' == q.(pc := Relist)
    || (g in sh.dir.files && sh.dir.files[g].Readable() && q' == Have(c, q, g, sh.dir.files[g].state))
  }

  ghost predicate RelistStep(c: Config, sh: Shared, q: Process, sh': Shared, q': Process) {
    && q.pc.Relist? && sh' == sh
    && q' == q.(pc := Write(Publication(Max(sh.Top(), -1) + 1, EmptyState(c.ns), Initialise)))
  }

  ghost predicate WriteStep(sh: Shared, q: Process, sh': Shared, q': Process) {
    q.pc.Write? && sh' == sh && q' == q.(pc := Sync(q.pc.pub), temp := Some(Garbage))
  }

  ghost predicate SyncStep(sh: Shared, q: Process, sh': Shared, q': Process) {
    q.pc.Sync? && sh' == sh && q' == q.(pc := Link(q.pc.pub), temp := Some(Document(q.pc.pub.state)))
  }

  /** The link publishes whatever the temporary file holds, if the name is free. */
  ghost predicate LinkStep(sh: Shared, q: Process, sh': Shared, q': Process) {
    && q.pc.Link? && q.temp.Some?
    && var pub := q.pc.pub;
    if pub.generation in sh.dir.files then
      sh' == sh && q' == q.(pc := Unlink(pub, false))
    else
      && q' == q.(pc := Unlink(pub, true), since := sh.now)
      && sh' == Recorded(q.op, pub, sh.(dir := sh.dir.(files := sh.dir.files[pub.generation := q.temp.value])))
  }

  /** History kept by a successful commit. */
  ghost function Recorded(op: Op, pub: Publication, sh: Shared): Shared {
    if !pub.purpose.Commit? then sh else
      match op
      case Observe => sh
      case Stage(entry) => sh.(staged := sh.staged + {entry})
      case Reconcile(running) =>
        if pub.purpose.base.pending.Some? && pub.purpose.base.pending.value.version == running then
          sh.(promoted := sh.promoted + {pub.purpose.base.pending.value})
        else sh
  }

  ghost predicate UnlinkStep(c: Config, sh: Shared, q: Process, sh': Shared, q': Process) {
    && q.pc.Unlink? && sh' == sh
    && var rest := q.(temp := None);
    q' == if q.pc.won then Won(c, rest, q.pc.pub) else Lost(rest, q.pc.pub)
  }

  /** A namespace reset drops every blob whatever its age; the state it published is empty. */
  ghost predicate WipeStep(c: Config, sh: Shared, q: Process, sh': Shared, q': Process) {
    && q.pc.Wipe?
    && ((sh' == sh && q' == Proceed(q, q.pc.generation, EmptyState(c.ns)))
        || (q' == q && exists b :: b in sh.blobs && sh' == sh.(blobs := sh.blobs - {b})))
  }

  ghost predicate CollectStep(sh: Shared, q: Process, sh': Shared, q': Process) {
    q.pc.Collect? && sh' == sh && q' == q.(pc := Sweep(q.pc.keep, q.pc.committed, sh.now))
  }

  /** A blob `retain` may remove: not kept, and at least `grace` old at the scan. */
  predicate Expendable(c: Config, sh: Shared, keep: set<string>, scanned: nat, b: string) {
    b in sh.blobs && b !in keep && scanned - sh.blobs[b] >= c.grace
  }

  /** The scan examines blobs in any order, any number of times. */
  ghost predicate SweepStep(c: Config, sh: Shared, q: Process, sh': Shared, q': Process) {
    && q.pc.Sweep?
    && ((sh' == sh && q' == q.(pc := if q.pc.committed then ListPrune else Idle))
        || (q' == q && exists b :: Expendable(c, sh, q.pc.keep, q.pc.scanned, b)
                                && sh' == sh.(blobs := sh.blobs - {b})))
  }

  ghost predicate ListPruneStep(sh: Shared, q: Process, sh': Shared, q': Process) {
    && q.pc.ListPrune? && sh' == sh
    && exists found :: IsListing(sh.dir, found) && q' == q.(pc := Prune(Superseded(found, PRUNE_KEEP)))
  }

  /** Removing a generation may fail, in which case the loop goes on. */
  ghost predicate PruneStep(sh: Shared, q: Process, sh': Shared, q': Process) {
    && q.pc.Prune?
    && if q.pc.todo == [] then sh' == sh && q' == q.(pc := Idle)
    else
      && q' == q.(pc := Prune(q.pc.todo[1..]))
      && (sh' == sh || sh' == sh.(dir := sh.dir.(files := sh.dir.files - {q.pc.todo[0]})))
  }

  ghost predicate ProcessStep(c: Config, sh: Shared, q: Process, sh': Shared, q': Process) {
    || Begin(sh, q, sh', q')
    || Stop(sh, q, sh', q')
    || PutWriteStep(sh, q, sh', q')
    || PutLinkStep(sh, q, sh', q')
    || LoadStep(sh, q, sh', q')
    || ReadStep(c, sh, q, sh', q')
    || RelistStep(c, sh, q, sh', q')
    || WriteStep(sh, q, sh', q')
    || SyncStep(sh, q, sh', q')
    || LinkStep(sh, q, sh', q')
    || UnlinkStep(c, sh, q, sh', q')
    || WipeStep(c, sh, q, sh', q')
    || CollectStep(sh, q, sh', q')
    || SweepStep(c, sh, q, sh', q')
    || ListPruneStep(sh, q, sh', q')
    || PruneStep(sh, q, sh', q')
  }

  // ---- the whole system --------------------------------------------------

  datatype State = State(sh: Shared, procs: map<nat, Process>)

  ghost predicate Step(c: Config, s: State, s': State, p: nat) {
    && p in s.procs && p in s'.procs
    && s'.procs == s.procs[p := s'.procs[p]]
    && ProcessStep(c, s.sh, s.procs[p], s'.sh, s'.procs[p])
  }

  ghost predicate Tick(s: State, s': State) {
    s.sh.now <= s'.sh.now && s' == s.(sh := s.sh.(now := s'.sh.now))
  }

  ghost predicate Next(c: Config, s: State, s': State) {
    Tick(s, s') || exists p :: Step(c, s, s', p)
  }

  /** Entries named by documents of the live namespace that were there at the start. */
  ghost predicate KnownBody(c: Config, sh: Shared, body: FileBody) {
    body.Readable() && body.state.ns == c.ns ==> KnownState(sh, body.state)
  }

  ghost predicate KnownState(sh: Shared, state: CacheState) {
    && (state.active.Some? ==> state.active.value in sh.promoted)
    && (state.pending.Some? ==> state.pending.value in sh.staged)
  }

  /**
   * The start: any directory contents and no operation under way. Whatever live
   * documents the directory already holds are entered in the history.
   */
  ghost predicate Init(c: Config, s: State) {
    && c.floor == s.sh.Top()
    && (forall p :: p in s.procs ==> s.procs[p].pc.Idle? && !s.procs[p].second)
    && (forall g :: g in s.sh.dir.files ==> KnownBody(c, s.sh, s.sh.dir.files[g]))
    && s.sh.promoted <= s.sh.staged
  }

  ghost predicate Behaviour(c: Config, b: seq<State>) {
    && |b| > 0 && Init(c, b[0])
    && forall i :: 0 <= i < |b| - 1 ==> Next(c, b[i], b[i + 1])
  }
}
