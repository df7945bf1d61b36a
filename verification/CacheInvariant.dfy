/** What every step of the machine keeps, proved one process and one step at a time. */
module CacheInvariant {
  import opened Prelude
  import opened CacheTypes
  import opened StateDirectory
  import opened CacheMachine

  /** A state some live process may publish. */
  ghost predicate Live(c: Config, sh: Shared, state: CacheState) {
    state.formatVersion == CACHE_FORMAT_VERSION && state.ns == c.ns && KnownState(sh, state)
  }

  ghost predicate LiveBody(c: Config, sh: Shared, body: FileBody) {
    body.Document? && Live(c, sh, body.state)
  }

  /**
   * The directory invariant. Above `floor` every generation is a complete live
   * document, and the newest three of those generations are present.
   */
  ghost predicate SharedInv(c: Config, sh: Shared) {
    && -1 <= c.floor <= sh.Top()
    && (forall g :: g in sh.dir.strays ==> g <= c.floor)
    && (forall g :: g in sh.dir.files ==> KnownBody(c, sh, sh.dir.files[g]))
    && (forall g :: g in sh.dir.files && g > c.floor ==> LiveBody(c, sh, sh.dir.files[g]))
    && (forall g: nat :: c.floor < g <= sh.Top() && g >= sh.Top() - 2 ==> g in sh.dir.files)
    && sh.promoted <= sh.staged
  }

  /** `state` is what the process has in hand for `generation`. */
  ghost predicate Holds(c: Config, sh: Shared, generation: nat, state: CacheState) {
    && c.floor <= generation <= sh.Top()
    && (generation == sh.Top() ==>
         generation in sh.dir.files && sh.dir.files[generation] == Document(state))
  }

  /** The state `op` publishes over `base`. */
  ghost predicate Computed(op: Op, base: CacheState, next: CacheState) {
    match op
    case Observe => false
    case Stage(entry) => next == Staged(base, entry)
    case Reconcile(running) => base.pending.Some? && next == Reconciled(base, running)
  }

  ghost predicate Publishable(c: Config, sh: Shared, op: Op, pub: Publication) {
    && c.floor < pub.generation <= sh.Top() + 1
    && (pub.purpose.Commit? ==>
         && pub.generation > 0
         && Holds(c, sh, pub.generation - 1, pub.purpose.base)
         && Live(c, sh, pub.purpose.base)
         && Computed(op, pub.purpose.base, pub.state))
    && (!pub.purpose.Commit? ==> pub.state == EmptyState(c.ns))
  }

  ghost predicate ProcInv(c: Config, sh: Shared, q: Process) {
    && (q.second ==> sh.Top() > c.floor)
    && match q.pc
      case Idle | PutWrite | PutLink | Load | Relist => true
      case Read(g) => c.floor <= g <= sh.Top() && (q.second ==> g > c.floor)
      case Write(pub) => Publishable(c, sh, q.op, pub)
      case Sync(pub) => Publishable(c, sh, q.op, pub)
      case Link(pub) => Publishable(c, sh, q.op, pub) && q.temp == Some(Document(pub.state))
      case Unlink(pub, won) =>
        && (won ==> c.floor < pub.generation && Holds(c, sh, pub.generation, pub.state))
        && (won && !pub.purpose.Commit? ==> pub.state == EmptyState(c.ns))
        && (!won ==> c.floor < pub.generation <= sh.Top())
      case Wipe(g) => c.floor < g && Holds(c, sh, g, EmptyState(c.ns))
      case Collect(_, committed) => committed ==> sh.Top() > c.floor
      case Sweep(_, committed, _) => committed ==> sh.Top() > c.floor
      case ListPrune => sh.Top() > c.floor
      case Prune(todo) => forall t :: t in todo ==> t < sh.Top() && (t > c.floor ==> t < sh.Top() - 2)
  }

  /** What any step, by any process, guarantees to the others. */
  ghost predicate Guarantee(c: Config, sh: Shared, sh': Shared) {
    && sh'.dir.strays == sh.dir.strays
    && sh.now <= sh'.now
    && sh.Top() <= sh'.Top() <= sh.Top() + 1
    && (sh.Top() in sh.dir.files ==> sh.Top() in sh'.dir.files)
    && (forall g :: g in sh'.dir.files && g in sh.dir.files ==> sh'.dir.files[g] == sh.dir.files[g])
    && sh.staged <= sh'.staged && sh.promoted <= sh'.promoted
  }

  // ---- the directory operations ------------------------------------------

  lemma {:induction false} TopAfterLink(sh: Shared, sh': Shared, g: nat, body: FileBody)
    requires sh'.dir == sh.dir.(files := sh.dir.files[g := body])
    ensures sh'.Top() == Max(sh.Top(), g)
  {
    NewestAfterLink(sh.dir, g, body);
  }

  lemma {:induction false} TopAfterRemove(sh: Shared, sh': Shared, g: nat)
    requires sh'.dir == sh.dir.(files := sh.dir.files - {g})
    requires g < sh.Top()
    ensures sh'.Top() == sh.Top()
  {
    NewestAfterRemove(sh.dir, {g});
  }

  lemma KnownMonotone(c: Config, sh: Shared, sh': Shared, state: CacheState)
    requires sh.staged <= sh'.staged && sh.promoted <= sh'.promoted
    ensures KnownState(sh, state) ==> KnownState(sh', state)
  {
  }

  /** Linking a live document at a free generation not above the next keeps the directory invariant. */
  lemma {:induction false} LinkKeepsShared(c: Config, sh: Shared, sh': Shared, g: nat, state: CacheState)
    requires SharedInv(c, sh)
    requires g !in sh.dir.files && c.floor < g <= sh.Top() + 1
    requires sh'.dir == sh.dir.(files := sh.dir.files[g := Document(state)])
    requires sh.staged <= sh'.staged && sh.promoted <= sh'.promoted <= sh'.staged
    requires Live(c, sh', state) && sh'.now == sh.now
    ensures SharedInv(c, sh') && Guarantee(c, sh, sh')
    ensures g <= sh.Top() ==> g < sh.Top() - 2 && sh'.Top() == sh.Top()
    ensures g == sh.Top() + 1 ==> sh'.Top() == g
  {
    TopAfterLink(sh, sh', g, Document(state));
    forall h | h in sh'.dir.files
      ensures KnownBody(c, sh', sh'.dir.files[h])
      ensures h > c.floor ==> LiveBody(c, sh', sh'.dir.files[h])
    {
      if h != g {
        KnownMonotoneBody(c, sh, sh', sh.dir.files[h]);
      }
    }
  }

  lemma KnownMonotoneBody(c: Config, sh: Shared, sh': Shared, body: FileBody)
    requires sh.staged <= sh'.staged && sh.promoted <= sh'.promoted
    ensures KnownBody(c, sh, body) ==> KnownBody(c, sh', body)
    ensures LiveBody(c, sh, body) ==> LiveBody(c, sh', body)
  {
  }

  lemma {:induction false} RemoveKeepsShared(c: Config, sh: Shared, sh': Shared, g: nat)
    requires SharedInv(c, sh)
    requires g < sh.Top() && (g > c.floor ==> g < sh.Top() - 2)
    requires sh' == sh.(dir := sh.dir.(files := sh.dir.files - {g}))
    ensures SharedInv(c, sh') && Guarantee(c, sh, sh') && sh'.Top() == sh.Top()
  {
    TopAfterRemove(sh, sh', g);
  }

  // ---- the other processes -----------------------------------------------

  lemma HoldsStable(c: Config, sh: Shared, sh': Shared, g: nat, state: CacheState)
    requires Guarantee(c, sh, sh') && Holds(c, sh, g, state)
    ensures Holds(c, sh', g, state)
  {
  }

  lemma PublishableStable(c: Config, sh: Shared, sh': Shared, op: Op, pub: Publication)
    requires Guarantee(c, sh, sh') && Publishable(c, sh, op, pub)
    ensures Publishable(c, sh', op, pub)
  {
    if pub.purpose.Commit? {
      HoldsStable(c, sh, sh', pub.generation - 1, pub.purpose.base);
      KnownMonotone(c, sh, sh', pub.purpose.base);
    }
  }

  /** A process's invariant survives any step of the others. */
  lemma {:induction false} OthersKeep(c: Config, sh: Shared, sh': Shared, q: Process)
    requires Guarantee(c, sh, sh') && ProcInv(c, sh, q)
    ensures ProcInv(c, sh', q)
  {
    match q.pc
    case Write(pub) => PublishableStable(c, sh, sh', q.op, pub);
    case Sync(pub) => PublishableStable(c, sh, sh', q.op, pub);
    case Link(pub) => PublishableStable(c, sh, sh', q.op, pub);
    case Unlink(pub, won) => if won { HoldsStable(c, sh, sh', pub.generation, pub.state); }
    case Wipe(g) => HoldsStable(c, sh, sh', g, EmptyState(c.ns));
    case _ =>
  }

  // ---- the acting process ------------------------------------------------

  lemma EmptyIsLive(c: Config, sh: Shared)
    ensures Live(c, sh, EmptyState(c.ns))
  {
  }

  lemma ComputedIsLive(c: Config, sh: Shared, sh': Shared, op: Op, base: CacheState, pub: Publication)
    requires Live(c, sh, base) && Computed(op, base, pub.state) && pub.purpose == Commit(base)
    requires sh'.staged == Recorded(op, pub, sh).staged && sh'.promoted == Recorded(op, pub, sh).promoted
    requires sh.promoted <= sh.staged
    ensures Live(c, sh', pub.state)
    ensures sh.staged <= sh'.staged && sh.promoted <= sh'.promoted <= sh'.staged
  {
  }

  lemma {:induction false} ProceedKeeps(c: Config, sh: Shared, q: Process, g: nat, state: CacheState)
    requires SharedInv(c, sh)
    requires q.second ==> sh.Top() > c.floor
    requires Holds(c, sh, g, state) && Live(c, sh, state)
    ensures ProcInv(c, sh, Proceed(q, g, state))
  {
  }

  lemma {:induction false} HaveKeeps(c: Config, sh: Shared, q: Process, g: nat, state: CacheState)
    requires SharedInv(c, sh)
    requires q.second ==> sh.Top() > c.floor
    requires Holds(c, sh, g, state)
    requires state.formatVersion == CACHE_FORMAT_VERSION
    requires state.ns == c.ns ==> Live(c, sh, state)
    requires q.second ==> Live(c, sh, state)
    ensures ProcInv(c, sh, Have(c, q, g, state))
  {
    if state.ns == c.ns {
      ProceedKeeps(c, sh, q, g, state);
    }
  }

  lemma {:induction false} ReadKeeps(c: Config, sh: Shared, q: Process, sh': Shared, q': Process)
    requires SharedInv(c, sh) && ProcInv(c, sh, q) && ReadStep(c, sh, q, sh', q')
    ensures ProcInv(c, sh', q')
  {
    var g := q.pc.generation;
    if q' != q.(pc := Relist) {
      assert KnownBody(c, sh, sh.dir.files[g]);
      assert q.second ==> LiveBody(c, sh, sh.dir.files[g]);
      HaveKeeps(c, sh, q, g, sh.dir.files[g].state);
    }
  }

  lemma {:induction false} LinkKeeps(c: Config, sh: Shared, q: Process, sh': Shared, q': Process)
    requires SharedInv(c, sh) && ProcInv(c, sh, q) && LinkStep(sh, q, sh', q')
    ensures SharedInv(c, sh') && Guarantee(c, sh, sh') && ProcInv(c, sh', q')
  {
    var pub := q.pc.pub;
    if pub.generation in sh.dir.files {
      assert pub.generation in sh.dir.Listed();
    } else {
      if pub.purpose.Commit? {
        ComputedIsLive(c, sh, sh', q.op, pub.purpose.base, pub);
      } else {
        EmptyIsLive(c, sh');
      }
      LinkKeepsShared(c, sh, sh', pub.generation, pub.state);
    }
  }

  lemma {:induction false} WonKeeps(c: Config, sh: Shared, q: Process, pub: Publication)
    requires SharedInv(c, sh)
    requires q.second ==> sh.Top() > c.floor
    requires c.floor < pub.generation && Holds(c, sh, pub.generation, pub.state)
    requires !pub.purpose.Commit? ==> pub.state == EmptyState(c.ns)
    ensures ProcInv(c, sh, Won(c, q, pub))
  {
    EmptyIsLive(c, sh);
    if pub.purpose.Initialise? {
      HaveKeeps(c, sh, q, pub.generation, pub.state);
    }
  }

  lemma {:induction false} UnlinkKeeps(c: Config, sh: Shared, q: Process, sh': Shared, q': Process)
    requires SharedInv(c, sh) && ProcInv(c, sh, q) && UnlinkStep(c, sh, q, sh', q')
    ensures ProcInv(c, sh', q')
  {
    if q.pc.won {
      WonKeeps(c, sh, q.(temp := None), q.pc.pub);
    }
  }

  lemma {:induction false} PruneKeeps(c: Config, sh: Shared, q: Process, sh': Shared, q': Process)
    requires SharedInv(c, sh) && ProcInv(c, sh, q) && PruneStep(sh, q, sh', q')
    ensures SharedInv(c, sh') && Guarantee(c, sh, sh') && ProcInv(c, sh', q')
  {
    if q.pc.todo != [] {
      var g := q.pc.todo[0];
      assert g in q.pc.todo;
      if sh' != sh {
        RemoveKeepsShared(c, sh, sh', g);
      }
      forall t | t in q'.pc.todo ensures t in q.pc.todo {}
    }
  }

  lemma {:induction false} ListPruneKeeps(c: Config, sh: Shared, q: Process, sh': Shared, q': Process)
    requires SharedInv(c, sh) && ProcInv(c, sh, q) && ListPruneStep(sh, q, sh', q')
    ensures ProcInv(c, sh', q')
  {
    var found :| IsListing(sh.dir, found) && q' == q.(pc := Prune(Superseded(found, PRUNE_KEEP)));
    PruneSparesNewest(sh.dir, found, c.floor);
  }

  /** Steps that only touch blobs or nothing at all. */
  lemma {:induction false} BlobsAreApart(c: Config, sh: Shared, sh': Shared)
    requires SharedInv(c, sh)
    requires sh' == sh.(blobs := sh'.blobs, now := sh'.now) && sh.now <= sh'.now
    ensures SharedInv(c, sh') && Guarantee(c, sh, sh')
  {
    assert sh'.Top() == sh.Top();
    forall g | g in sh.dir.files
      ensures KnownBody(c, sh', sh.dir.files[g])
      ensures LiveBody(c, sh, sh.dir.files[g]) ==> LiveBody(c, sh', sh.dir.files[g])
    {
      KnownMonotoneBody(c, sh, sh', sh.dir.files[g]);
    }
  }

  lemma {:induction false} PutLinkKeeps(c: Config, sh: Shared, q: Process, sh': Shared, q': Process)
    requires SharedInv(c, sh) && ProcInv(c, sh, q) && PutLinkStep(sh, q, sh', q')
    ensures SharedInv(c, sh') && Guarantee(c, sh, sh') && ProcInv(c, sh', q')
  {
    BlobsAreApart(c, sh, sh');
  }

  lemma {:induction false} WipeKeeps(c: Config, sh: Shared, q: Process, sh': Shared, q': Process)
    requires SharedInv(c, sh) && ProcInv(c, sh, q) && WipeStep(c, sh, q, sh', q')
    ensures SharedInv(c, sh') && Guarantee(c, sh, sh') && ProcInv(c, sh', q')
  {
    BlobsAreApart(c, sh, sh');
    EmptyIsLive(c, sh);
    if q' == q {
      OthersKeep(c, sh, sh', q);
    } else {
      ProceedKeeps(c, sh, q, q.pc.generation, EmptyState(c.ns));
    }
  }

  lemma {:induction false} SweepKeeps(c: Config, sh: Shared, q: Process, sh': Shared, q': Process)
    requires SharedInv(c, sh) && ProcInv(c, sh, q) && SweepStep(c, sh, q, sh', q')
    ensures SharedInv(c, sh') && Guarantee(c, sh, sh') && ProcInv(c, sh', q')
  {
    BlobsAreApart(c, sh, sh');
  }

  lemma {:induction false} QuietKeeps(c: Config, sh: Shared, q: Process, sh': Shared, q': Process)
    requires SharedInv(c, sh) && ProcInv(c, sh, q)
    requires || Begin(sh, q, sh', q') || Stop(sh, q, sh', q') || PutWriteStep(sh, q, sh', q')
             || LoadStep(sh, q, sh', q') || RelistStep(c, sh, q, sh', q') || WriteStep(sh, q, sh', q')
             || SyncStep(sh, q, sh', q') || CollectStep(sh, q, sh', q')
    ensures ProcInv(c, sh', q')
  {
  }

  lemma {:induction false} StepKeeps(c: Config, sh: Shared, q: Process, sh': Shared, q': Process)
    requires SharedInv(c, sh) && ProcInv(c, sh, q) && ProcessStep(c, sh, q, sh', q')
    ensures SharedInv(c, sh') && Guarantee(c, sh, sh') && ProcInv(c, sh', q')
  {
    if LinkStep(sh, q, sh', q') { LinkKeeps(c, sh, q, sh', q'); }
    else if PruneStep(sh, q, sh', q') { PruneKeeps(c, sh, q, sh', q'); }
    else if PutLinkStep(sh, q, sh', q') { PutLinkKeeps(c, sh, q, sh', q'); }
    else if WipeStep(c, sh, q, sh', q') { WipeKeeps(c, sh, q, sh', q'); }
    else if SweepStep(c, sh, q, sh', q') { SweepKeeps(c, sh, q, sh', q'); }
    else {
      BlobsAreApart(c, sh, sh');
      if ReadStep(c, sh, q, sh', q') { ReadKeeps(c, sh, q, sh', q'); }
      else if UnlinkStep(c, sh, q, sh', q') { UnlinkKeeps(c, sh, q, sh', q'); }
      else if ListPruneStep(sh, q, sh', q') { ListPruneKeeps(c, sh, q, sh', q'); }
      else { QuietKeeps(c, sh, q, sh', q'); }
    }
  }

  // ---- the whole system --------------------------------------------------

  ghost predicate Inv(c: Config, s: State) {
    SharedInv(c, s.sh) && forall p :: p in s.procs ==> ProcInv(c, s.sh, s.procs[p])
  }

  lemma InitInv(c: Config, s: State)
    requires Init(c, s)
    ensures Inv(c, s)
  {
    forall g | g in s.sh.dir.strays ensures g <= s.sh.Top() {
      assert g in s.sh.dir.Listed();
    }
    forall g | g in s.sh.dir.files ensures g <= s.sh.Top() {
      assert g in s.sh.dir.Listed();
    }
  }

  lemma {:induction false} NextInv(c: Config, s: State, s': State)
    requires Inv(c, s) && Next(c, s, s')
    ensures Inv(c, s') && Guarantee(c, s.sh, s'.sh)
  {
    if Tick(s, s') {
      BlobsAreApart(c, s.sh, s'.sh);
    } else {
      var p :| Step(c, s, s', p);
      StepKeeps(c, s.sh, s.procs[p], s'.sh, s'.procs[p]);
    }
    forall r | r in s'.procs && s'.procs[r] == s.procs[r]
      ensures ProcInv(c, s'.sh, s'.procs[r])
    {
      OthersKeep(c, s.sh, s'.sh, s.procs[r]);
    }
  }

  lemma {:induction false} ReachableInv(c: Config, b: seq<State>, i: nat)
    requires Behaviour(c, b) && i < |b|
    ensures Inv(c, b[i])
  {
    if i == 0 {
      InitInv(c, b[0]);
    } else {
      ReachableInv(c, b, i - 1);
      NextInv(c, b[i - 1], b[i]);
    }
  }

  /** An operation gives up only on losing its eighth name to initialise under, or its 64th to commit under; a lost reset never ends one. */
  lemma GivesUpExactly(q: Process, pub: Publication)
    ensures Lost(q, pub).pc.Idle? <==>
            (pub.purpose.Initialise? && q.initTries >= 7) || (pub.purpose.Commit? && q.casTries >= 63)
  {
  }
}
