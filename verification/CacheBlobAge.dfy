/**
 * Why the age floor of `retain` keeps every base the state names.
 *
 * A stage writes its blob, or finds it written, and later publishes a state
 * that names it; a collection takes a snapshot of the state, then scans the blob directory.
 * Nothing is locked.  If the age of a blob when it is committed and the second
 * gap together stay below the grace period, every blob the newest state names is
 * on disk in every reachable state. `CacheBlobLosses` shows that nothing less does.
 */
module CacheBlobAge {
  import opened Prelude
  import opened CacheTypes
  import opened StateDirectory
  import opened CacheMachine
  import opened CacheInvariant

  /**
   * What runs are allowed: the age of a blob when a stage commits it, the
   * snapshot-to-scan gap of a collection, how many generations behind the newest
   * a writer's read may be when its link succeeds, and whether the directory may
   * hold readable states of another namespace at the start.
   */
  datatype Allowance = Allowance(commit: nat, scan: nat, lag: nat, foreign: bool)

  /** The content addresses named by the newest state. */
  ghost function Named(sh: Shared): set<string> {
    var top := sh.Top();
    if top in sh.dir.files && sh.dir.files[top].Readable() then sh.dir.files[top].state.Named() else {}
  }

  /** The assumptions, as restrictions on which steps a run may take. */
  ghost predicate Timely(t: Allowance, s: State, p: nat)
    requires p in s.procs
  {
    var q := s.procs[p];
    && (q.pc.Link? && q.pc.pub.generation !in s.sh.dir.files ==> s.sh.Top() - (q.pc.pub.generation - 1) <= t.lag)
    && (q.pc.Link? && q.op.Stage? && q.pc.pub.purpose.Commit? && q.pc.pub.generation !in s.sh.dir.files ==>
          s.sh.now <= q.wrote + t.commit)
    && (q.pc.Collect? ==> s.sh.now <= q.since + t.scan)
  }

  ghost predicate TimelyNext(c: Config, t: Allowance, s: State, s': State) {
    Tick(s, s') || exists p :: Step(c, s, s', p) && Timely(t, s, p)
  }

  /** The start: unless allowed, nothing readable belongs to another namespace, and what the newest state names is on disk. */
  ghost predicate TimelyInit(c: Config, t: Allowance, s: State) {
    && Init(c, s)
    && (t.foreign || forall g :: g in s.sh.dir.files && s.sh.dir.files[g].Readable() ==> s.sh.dir.files[g].state.ns == c.ns)
    && Named(s.sh) <= s.sh.blobs.Keys
  }

  ghost predicate TimelyBehaviour(c: Config, t: Allowance, b: seq<State>) {
    && |b| > 0 && TimelyInit(c, t, b[0])
    && forall i :: 0 <= i < |b| - 1 ==> TimelyNext(c, t, b[i], b[i + 1])
  }

  // ---- the invariant -------------------------------------------------------

  /** Every named blob a collection would not keep was written too recently for its scan to remove. */
  ghost predicate Covered(t: Allowance, sh: Shared, keep: set<string>, since: nat) {
    && since <= sh.now
    && forall d :: d in Named(sh) ==> d in keep || (d in sh.blobs && sh.blobs[d] + t.commit >= since)
  }

  /** Until its commit deadline passes, a staged blob is on disk. */
  ghost predicate InFlight(t: Allowance, sh: Shared, e: CacheEntry, wrote: nat) {
    sh.now <= wrote + t.commit ==>
      e.compressedBlake3 in sh.blobs && sh.blobs[e.compressedBlake3] >= wrote
  }

  predicate BeforeCommit(pc: Pc) {
    pc.Load? || pc.Read? || pc.Relist? || pc.Write? || pc.Sync? || pc.Link? || pc.Unlink?
  }

  predicate NotReset(pub: Publication) {
    !pub.purpose.Reset?
  }

  ghost predicate BlobInv(c: Config, sh: Shared) {
    && (forall g :: g in sh.dir.files && sh.dir.files[g].Readable() ==> sh.dir.files[g].state.ns == c.ns)
    && Named(sh) <= sh.blobs.Keys
  }

  ghost predicate BlobProc(c: Config, t: Allowance, sh: Shared, q: Process) {
    && (q.op.Stage? && BeforeCommit(q.pc) && !(q.pc.Unlink? && q.pc.won && q.pc.pub.purpose.Commit?) ==>
         InFlight(t, sh, q.op.entry, q.wrote))
    && match q.pc
       case Read(g) =>
         g in sh.dir.files && sh.dir.files[g].Readable() ==> Covered(t, sh, sh.dir.files[g].state.Named(), q.since)
       case Write(pub) => NotReset(pub)
       case Sync(pub) => NotReset(pub)
       case Link(pub) => NotReset(pub)
       case Unlink(pub, won) => NotReset(pub) && (won ==> Covered(t, sh, pub.state.Named(), q.since))
       case Wipe(_) => false
       case Collect(keep, _) => Covered(t, sh, keep, q.since)
       case Sweep(keep, _, scanned) =>
         Covered(t, sh, keep, q.since) && scanned <= q.since + t.scan && scanned <= sh.now
       case _ => true
  }

  /** What a timely step guarantees to the other processes. */
  ghost predicate BlobGuarantee(t: Allowance, sh: Shared, sh': Shared) {
    && sh.now <= sh'.now
    && (forall b :: b in sh.blobs && b in sh'.blobs ==> sh.blobs[b] == sh'.blobs[b])
    && (forall b :: b in sh.blobs && b !in sh'.blobs ==> sh.blobs[b] + t.commit < sh.now && b !in Named(sh))
    && (forall d :: d in Named(sh') ==> d in Named(sh) || (d in sh'.blobs && sh'.blobs[d] + t.commit >= sh.now))
    && (forall g :: g in sh'.dir.files && g <= sh.Top() ==> g in sh.dir.files && sh.dir.files[g] == sh'.dir.files[g])
  }

  lemma CoveredStable(t: Allowance, sh: Shared, sh': Shared, keep: set<string>, since: nat)
    requires BlobGuarantee(t, sh, sh') && Covered(t, sh, keep, since)
    ensures Covered(t, sh', keep, since)
  {
  }

  lemma InFlightStable(t: Allowance, sh: Shared, sh': Shared, e: CacheEntry, wrote: nat)
    requires BlobGuarantee(t, sh, sh') && InFlight(t, sh, e, wrote)
    ensures InFlight(t, sh', e, wrote)
  {
  }

  lemma {:induction false} OthersKeepBlobs(c: Config, t: Allowance, sh: Shared, sh': Shared, q: Process)
    requires ProcInv(c, sh, q) && BlobGuarantee(t, sh, sh') && BlobProc(c, t, sh, q)
    ensures BlobProc(c, t, sh', q)
  {
    if q.op.Stage? && BeforeCommit(q.pc) && !(q.pc.Unlink? && q.pc.won && q.pc.pub.purpose.Commit?) {
      InFlightStable(t, sh, sh', q.op.entry, q.wrote);
    }
    match q.pc
    case Read(g) =>
      if g in sh'.dir.files && sh'.dir.files[g].Readable() {
        CoveredStable(t, sh, sh', sh.dir.files[g].state.Named(), q.since);
      }
    case Unlink(pub, won) => if won { CoveredStable(t, sh, sh', pub.state.Named(), q.since); }
    case Collect(keep, _) => CoveredStable(t, sh, sh', keep, q.since);
    case Sweep(keep, _, _) => CoveredStable(t, sh, sh', keep, q.since);
    case _ =>
  }

  // ---- the acting process ----------------------------------------------------

  /** A commit names nothing new except the blob it stages. */
  lemma ComputedNames(op: Op, base: CacheState, next: CacheState)
    requires Computed(op, base, next)
    ensures next.Named() <= base.Named() + (if op.Stage? then {op.entry.compressedBlake3} else {})
  {
  }

  lemma {:induction false} LinkKeepsBlobs(c: Config, t: Allowance, s: State, s': State, p: nat)
    requires t.lag <= 3
    requires Step(c, s, s', p) && Timely(t, s, p)
    requires SharedInv(c, s.sh) && BlobInv(c, s.sh)
    requires ProcInv(c, s.sh, s.procs[p]) && BlobProc(c, t, s.sh, s.procs[p])
    requires LinkStep(s.sh, s.procs[p], s'.sh, s'.procs[p])
    ensures BlobInv(c, s'.sh) && BlobGuarantee(t, s.sh, s'.sh) && BlobProc(c, t, s'.sh, s'.procs[p])
  {
    var sh, sh', q := s.sh, s'.sh, s.procs[p];
    var pub := q.pc.pub;
    if pub.generation in sh.dir.files {
      assert sh' == sh;
    } else {
      TopAfterLink(sh, sh', pub.generation, q.temp.value);
      assert pub.generation == sh.Top() + 1;
      LinkNames(c, sh, q, sh', s'.procs[p]);
    }
  }

  /** What a link of the next generation names: what was named before, and the blob being staged. */
  lemma LinkNames(c: Config, sh: Shared, q: Process, sh': Shared, q': Process)
    requires SharedInv(c, sh) && ProcInv(c, sh, q) && LinkStep(sh, q, sh', q')
    requires q.pc.pub.generation !in sh.dir.files && q.pc.pub.generation == sh.Top() + 1
    ensures Named(sh') == q.pc.pub.state.Named()
    ensures Named(sh') <= if q.pc.pub.purpose.Commit?
                          then Named(sh) + (if q.op.Stage? then {q.op.entry.compressedBlake3} else {})
                          else {}
  {
    var pub := q.pc.pub;
    LinkKeeps(c, sh, q, sh', q');
    assert LiveBody(c, sh', sh'.dir.files[pub.generation]);
    if pub.purpose.Commit? {
      ComputedNames(q.op, pub.purpose.base, pub.state);
      assert Named(sh) == pub.purpose.base.Named();
    }
  }

  lemma {:induction false} SweepKeepsBlobs(c: Config, t: Allowance, sh: Shared, q: Process, sh': Shared, q': Process)
    requires t.commit + t.scan < c.grace
    requires BlobInv(c, sh) && BlobProc(c, t, sh, q) && SweepStep(c, sh, q, sh', q')
    ensures BlobInv(c, sh') && BlobGuarantee(t, sh, sh') && BlobProc(c, t, sh', q')
  {
    assert sh'.dir == sh.dir;
    if sh' != sh {
      var b :| Expendable(c, sh, q.pc.keep, q.pc.scanned, b) && sh' == sh.(blobs := sh.blobs - {b});
      assert b !in Named(sh);
    }
  }

  lemma {:induction false} PutKeepsBlobs(c: Config, t: Allowance, s: State, s': State, p: nat)
    requires Step(c, s, s', p) && Timely(t, s, p)
    requires BlobInv(c, s.sh) && BlobProc(c, t, s.sh, s.procs[p])
    requires PutLinkStep(s.sh, s.procs[p], s'.sh, s'.procs[p])
    ensures BlobInv(c, s'.sh) && BlobGuarantee(t, s.sh, s'.sh) && BlobProc(c, t, s'.sh, s'.procs[p])
  {
    assert s'.sh.dir == s.sh.dir;
  }

  lemma {:induction false} PruneKeepsBlobs(c: Config, t: Allowance, sh: Shared, q: Process, sh': Shared, q': Process)
    requires SharedInv(c, sh) && ProcInv(c, sh, q) && PruneStep(sh, q, sh', q')
    requires BlobInv(c, sh) && BlobProc(c, t, sh, q)
    ensures BlobInv(c, sh') && BlobGuarantee(t, sh, sh') && BlobProc(c, t, sh', q')
  {
    if q.pc.todo != [] && sh' != sh {
      assert q.pc.todo[0] in q.pc.todo;
      TopAfterRemove(sh, sh', q.pc.todo[0]);
    }
  }

  lemma {:induction false} ReadKeepsBlobs(c: Config, t: Allowance, sh: Shared, q: Process, sh': Shared, q': Process)
    requires BlobInv(c, sh) && BlobProc(c, t, sh, q) && ReadStep(c, sh, q, sh', q')
    ensures BlobProc(c, t, sh', q')
  {
  }

  lemma {:induction false} UnlinkKeepsBlobs(c: Config, t: Allowance, sh: Shared, q: Process, sh': Shared, q': Process)
    requires SharedInv(c, sh) && ProcInv(c, sh, q) && UnlinkStep(c, sh, q, sh', q')
    requires BlobInv(c, sh) && BlobProc(c, t, sh, q)
    ensures BlobProc(c, t, sh', q')
  {
  }

  lemma {:induction false} QuietKeepsBlobs(c: Config, t: Allowance, s: State, s': State, p: nat)
    requires Step(c, s, s', p) && Timely(t, s, p)
    requires BlobInv(c, s.sh) && BlobProc(c, t, s.sh, s.procs[p])
    requires var sh, q, sh', q' := s.sh, s.procs[p], s'.sh, s'.procs[p];
             || Begin(sh, q, sh', q') || Stop(sh, q, sh', q') || PutWriteStep(sh, q, sh', q')
             || LoadStep(sh, q, sh', q') || RelistStep(c, sh, q, sh', q') || WriteStep(sh, q, sh', q')
             || SyncStep(sh, q, sh', q') || CollectStep(sh, q, sh', q') || ListPruneStep(sh, q, sh', q')
    ensures BlobProc(c, t, s'.sh, s'.procs[p])
  {
  }

  lemma {:induction false} StepKeepsBlobs(c: Config, t: Allowance, s: State, s': State, p: nat)
    requires t.commit + t.scan < c.grace && t.lag <= 3
    requires Step(c, s, s', p) && Timely(t, s, p)
    requires SharedInv(c, s.sh) && ProcInv(c, s.sh, s.procs[p])
    requires BlobInv(c, s.sh) && BlobProc(c, t, s.sh, s.procs[p])
    ensures BlobInv(c, s'.sh) && BlobGuarantee(t, s.sh, s'.sh) && BlobProc(c, t, s'.sh, s'.procs[p])
  {
    var sh, q, sh', q' := s.sh, s.procs[p], s'.sh, s'.procs[p];
    if LinkStep(sh, q, sh', q') { LinkKeepsBlobs(c, t, s, s', p); }
    else if SweepStep(c, sh, q, sh', q') { SweepKeepsBlobs(c, t, sh, q, sh', q'); }
    else if PutLinkStep(sh, q, sh', q') { PutKeepsBlobs(c, t, s, s', p); }
    else if PruneStep(sh, q, sh', q') { PruneKeepsBlobs(c, t, sh, q, sh', q'); }
    else {
      assert sh' == sh;
      if ReadStep(c, sh, q, sh', q') { ReadKeepsBlobs(c, t, sh, q, sh', q'); }
      else if UnlinkStep(c, sh, q, sh', q') { UnlinkKeepsBlobs(c, t, sh, q, sh', q'); }
      else { QuietKeepsBlobs(c, t, s, s', p); }
    }
  }

  // ---- the whole system --------------------------------------------------

  ghost predicate AgeInv(c: Config, t: Allowance, s: State) {
    && Inv(c, s) && BlobInv(c, s.sh)
    && forall p :: p in s.procs ==> BlobProc(c, t, s.sh, s.procs[p])
  }

  lemma {:induction false} TickKeepsBlobs(c: Config, t: Allowance, s: State, s': State)
    requires BlobInv(c, s.sh) && Tick(s, s')
    ensures BlobInv(c, s'.sh) && BlobGuarantee(t, s.sh, s'.sh)
  {
    assert s'.sh.dir == s.sh.dir;
  }

  lemma {:induction false} NextKeepsAge(c: Config, t: Allowance, s: State, s': State)
    requires t.commit + t.scan < c.grace && t.lag <= 3
    requires AgeInv(c, t, s) && TimelyNext(c, t, s, s')
    ensures AgeInv(c, t, s')
  {
    NextInv(c, s, s');
    if Tick(s, s') {
      TickKeepsBlobs(c, t, s, s');
    } else {
      var p :| Step(c, s, s', p) && Timely(t, s, p);
      StepKeepsBlobs(c, t, s, s', p);
    }
    forall r | r in s'.procs && s'.procs[r] == s.procs[r]
      ensures BlobProc(c, t, s'.sh, s'.procs[r])
    {
      OthersKeepBlobs(c, t, s.sh, s'.sh, s.procs[r]);
    }
  }

  /**
   * The allowance that keeps every named blob: the two gaps together stay below
   * the grace period, no writer wins from four or more behind, and nothing is
   * there at the start for a namespace reset to find.
   */
  predicate Safe(c: Config, t: Allowance) {
    t.commit + t.scan < c.grace && t.lag <= 3 && !(t.foreign && c.floor >= 0)
  }

  lemma {:induction false} ReachableAge(c: Config, t: Allowance, b: seq<State>, i: nat)
    requires Safe(c, t)
    requires TimelyBehaviour(c, t, b) && i < |b|
    ensures AgeInv(c, t, b[i])
  {
    if i == 0 {
      InitInv(c, b[0]);
    } else {
      ReachableAge(c, t, b, i - 1);
      assert TimelyNext(c, t, b[i - 1], b[i - 1 + 1]);
      NextKeepsAge(c, t, b[i - 1], b[i]);
    }
  }

  /** Every blob the newest state names is on disk, in every state a timely run reaches. */
  lemma {:induction false} BaseAvailability(c: Config, t: Allowance, b: seq<State>, i: nat, d: string)
    requires Safe(c, t)
    requires TimelyBehaviour(c, t, b) && i < |b|
    requires d in Named(b[i].sh)
    ensures d in b[i].sh.blobs
  {
    ReachableAge(c, t, b, i);
  }
}
