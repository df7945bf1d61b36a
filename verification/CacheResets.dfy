/**
 * When a live state can be reset.
 *
 * An empty state is published above a live one only by a process that found
 * nothing usable under the generation it had listed, and went on to list again.
 * While no process is at that point, and no read fails, what is staged stays
 * staged until something else is staged or a reconcile promotes or discards it.
 */
module CacheResets {
  import opened Prelude
  import opened CacheTypes
  import opened StateDirectory
  import opened CacheMachine
  import opened CacheInvariant
  import opened CacheRuns
  import R = CacheRefinement

  /** The newest generation is a readable state of the live namespace. */
  ghost predicate Alive(c: Config, sh: Shared) {
    R.Observe(c, sh).slots.Some?
  }

  /** The process is about to publish an empty state above everything there. */
  ghost predicate Armed(sh: Shared, q: Process) {
    match q.pc
    case Relist => true
    case Write(pub) => !pub.purpose.Commit? && pub.generation > sh.Top()
    case Sync(pub) => !pub.purpose.Commit? && pub.generation > sh.Top()
    case Link(pub) => !pub.purpose.Commit? && pub.generation > sh.Top()
    case _ => false
  }

  ghost predicate Calm(s: State) {
    forall p :: p in s.procs ==> !Armed(s.sh, s.procs[p])
  }

  /** The step from `s` to `s'` makes move `m`. */
  ghost predicate Makes(c: Config, s: State, s': State, m: R.Move) {
    exists p :: R.Advances(c, s, s', p, m)
  }

  /** Only an armed process resets, since only a publication of the next generation is seen. */
  lemma ResetterIsArmed(c: Config, s: State, s': State)
    requires Makes(c, s, s', R.ResetMove)
    ensures !Calm(s)
  {
    var p :| R.Advances(c, s, s', p, R.ResetMove);
    assert Armed(s.sh, s.procs[p]);
  }

  /** Over a live newest generation a step arms its process only if its read fails. */
  lemma ActorStaysCalm(c: Config, sh: Shared, q: Process, sh': Shared, q': Process)
    requires SharedInv(c, sh) && ProcInv(c, sh, q) && ProcessStep(c, sh, q, sh', q') && sh.Top() <= sh'.Top()
    requires Alive(c, sh) && !Armed(sh, q) && !(q.pc.Read? && q'.pc.Relist?)
    ensures !Armed(sh', q')
  {
    if ReadStep(c, sh, q, sh', q') {
      ReaderStaysCalm(c, sh, q, sh', q');
    } else if UnlinkStep(c, sh, q, sh', q') {
      WinnerStaysCalm(c, sh, q, sh', q');
    } else {
      OtherwiseCalm(c, sh, q, sh', q');
    }
  }

  lemma ReaderStaysCalm(c: Config, sh: Shared, q: Process, sh': Shared, q': Process)
    requires ProcInv(c, sh, q) && ReadStep(c, sh, q, sh', q') && Alive(c, sh) && !q'.pc.Relist?
    ensures !Armed(sh', q')
  {
  }

  lemma WinnerStaysCalm(c: Config, sh: Shared, q: Process, sh': Shared, q': Process)
    requires ProcInv(c, sh, q) && UnlinkStep(c, sh, q, sh', q')
    ensures !Armed(sh', q')
  {
  }

  lemma OtherwiseCalm(c: Config, sh: Shared, q: Process, sh': Shared, q': Process)
    requires SharedInv(c, sh) && ProcessStep(c, sh, q, sh', q') && sh.Top() <= sh'.Top()
    requires Alive(c, sh) && !Armed(sh, q) && !ReadStep(c, sh, q, sh', q') && !UnlinkStep(c, sh, q, sh', q')
    ensures !Armed(sh', q')
  {
    match q.pc
    case Load | Write(_) | Sync(_) | Wipe(_) =>
    case _ => assert !q'.pc.Relist? && !q'.pc.Write? && !q'.pc.Sync? && (q'.pc.Link? ==> q'.pc == q.pc);
  }

  lemma NextStaysCalm(c: Config, s: State, s': State)
    requires Inv(c, s) && Next(c, s, s') && Alive(c, s.sh) && Calm(s) && !ReadFails(s, s')
    ensures Alive(c, s'.sh) && Calm(s')
  {
    NextInv(c, s, s');
    R.NextRefines(c, s, s');
    if !Tick(s, s') {
      var p :| Step(c, s, s', p);
      StepKeepsCalm(c, s, s', p);
    }
  }

  lemma StepKeepsCalm(c: Config, s: State, s': State, p: nat)
    requires SharedInv(c, s.sh) && Step(c, s, s', p) && ProcInv(c, s.sh, s.procs[p]) && s.sh.Top() <= s'.sh.Top()
    requires Alive(c, s.sh) && Calm(s) && !ReadFails(s, s')
    ensures Calm(s')
  {
    ActorStaysCalm(c, s.sh, s.procs[p], s'.sh, s'.procs[p]);
    forall r | r in s'.procs && r != p ensures !Armed(s'.sh, s'.procs[r]) {
      assert s'.procs[r] == s.procs[r] && !Armed(s.sh, s.procs[r]);
    }
  }

  lemma StepOf(c: Config, b: seq<State>, i: nat, s: State, s': State)
    requires Behaviour(c, b) && i < |b| - 1 && s == b[i] && s' == b[i + 1]
    ensures Inv(c, s) && Next(c, s, s')
  {
    ReachableInv(c, b, i);
  }

  lemma {:induction false} RunStaysCalm(c: Config, b: seq<State>, k: nat, i: nat)
    requires Behaviour(c, b) && k <= i < |b|
    requires Alive(c, b[k].sh) && Calm(b[k]) && ReadsSucceed(b, k)
    ensures Alive(c, b[i].sh) && Calm(b[i])
    decreases i
  {
    if k < i {
      RunStaysCalm(c, b, k, i - 1);
      StepStaysCalm(c, b, i - 1, b[i - 1], b[i]);
    }
  }

  lemma StepStaysCalm(c: Config, b: seq<State>, i: nat, s: State, s': State)
    requires Behaviour(c, b) && i < |b| - 1 && s == b[i] && s' == b[i + 1]
    requires Alive(c, s.sh) && Calm(s) && !ReadFails(s, s')
    ensures Alive(c, s'.sh) && Calm(s')
  {
    StepOf(c, b, i, s, s');
    NextStaysCalm(c, s, s');
  }

  /** From a live newest generation that nobody is about to reset, no step is a reset while no read fails. */
  lemma NoResetWhileReadsSucceed(c: Config, b: seq<State>, k: nat, i: nat)
    requires Behaviour(c, b) && k <= i < |b| - 1
    requires Alive(c, b[k].sh) && Calm(b[k]) && ReadsSucceed(b, k)
    ensures !Makes(c, b[i], b[i + 1], R.ResetMove)
  {
    RunStaysCalm(c, b, k, i);
    if Makes(c, b[i], b[i + 1], R.ResetMove) {
      ResetterIsArmed(c, b[i], b[i + 1]);
    }
  }

  /** A run that starts on a live newest generation starts calm, so it has no reset at all unless a read fails. */
  lemma LiveStartNoReset(c: Config, b: seq<State>, i: nat)
    requires Behaviour(c, b) && Alive(c, b[0].sh) && ReadsSucceed(b, 0) && i < |b| - 1
    ensures !Makes(c, b[i], b[i + 1], R.ResetMove)
  {
    assert Calm(b[0]);
    NoResetWhileReadsSucceed(c, b, 0, i);
  }

  // ---- what is staged ------------------------------------------------------------

  ghost predicate Staging(c: Config, sh: Shared, e: CacheEntry) {
    Alive(c, sh) && R.Observe(c, sh).slots.value.pending == Some(e)
  }

  /** A move that takes `e` out of PENDING in one of the three ways it is meant to leave. */
  predicate Leaves(e: CacheEntry, before: R.Slots, m: R.Move, after: R.Slots) {
    match m
    case StageMove(other) => after == R.Slots(before.active, Some(other))
    case PromoteMove(running) => running == e.version && after == R.Slots(Some(e), None)
    case DiscardMove(running) => running != e.version && after == R.Slots(before.active, None)
    case ResetMove => false
  }

  ghost predicate Left(c: Config, s: State, s': State, e: CacheEntry) {
    && Staging(c, s.sh, e) && Alive(c, s'.sh)
    && exists m :: Makes(c, s, s', m) && Leaves(e, R.Observe(c, s.sh).slots.value, m, R.Observe(c, s'.sh).slots.value)
  }

  /** While no read fails, a staged entry stays until it is replaced, promoted or discarded. */
  lemma {:induction false} StagedIsKept(c: Config, b: seq<State>, e: CacheEntry, k: nat, n: nat)
    requires Behaviour(c, b) && k <= n < |b|
    requires Staging(c, b[k].sh, e) && Calm(b[k]) && ReadsSucceed(b, k)
    ensures Staging(c, b[n].sh, e) || exists i :: k <= i < n && Left(c, b[i], b[i + 1], e)
    decreases n
  {
    if k < n {
      StagedIsKept(c, b, e, k, n - 1);
      if Staging(c, b[n - 1].sh, e) {
        NoResetWhileReadsSucceed(c, b, k, n - 1);
        StepMayTake(c, b, n - 1, b[n - 1], b[n], e);
        assert Staging(c, b[n].sh, e) || Left(c, b[n - 1], b[n - 1 + 1], e);
      }
    }
  }

  lemma StepMayTake(c: Config, b: seq<State>, i: nat, s: State, s': State, e: CacheEntry)
    requires Behaviour(c, b) && i < |b| - 1 && s == b[i] && s' == b[i + 1]
    requires Staging(c, s.sh, e) && !Makes(c, s, s', R.ResetMove)
    ensures Staging(c, s'.sh, e) || Left(c, s, s', e)
  {
    StepOf(c, b, i, s, s');
    StepKeepsStaged(c, s, s', e);
  }

  lemma StepKeepsStaged(c: Config, s: State, s': State, e: CacheEntry)
    requires Inv(c, s) && Next(c, s, s') && Staging(c, s.sh, e) && !Makes(c, s, s', R.ResetMove)
    ensures Staging(c, s'.sh, e) || Left(c, s, s', e)
  {
    R.NextRefines(c, s, s');
    if R.Observe(c, s.sh) != R.Observe(c, s'.sh) {
      var p, m :| R.Advances(c, s, s', p, m);
      assert Makes(c, s, s', m);
      AdvanceTakes(c, s, s', p, m, e);
    }
  }

  lemma AdvanceTakes(c: Config, s: State, s': State, p: nat, m: R.Move, e: CacheEntry)
    requires R.Advances(c, s, s', p, m) && Makes(c, s, s', m) && m != R.ResetMove && Staging(c, s.sh, e)
    ensures Left(c, s, s', e)
  {
    assert Leaves(e, R.Observe(c, s.sh).slots.value, m, R.Observe(c, s'.sh).slots.value);
  }

  // ---- exactly when a reset can follow -----------------------------------------------

  ghost predicate ResetsAt(c: Config, b: seq<State>, i: nat) {
    i + 1 < |b| && Makes(c, b[i], b[i + 1], R.ResetMove)
  }

  /** Some continuation of `b` in which no further read fails resets what readers see. */
  ghost predicate CanReset(c: Config, b: seq<State>) {
    exists b', i :: Continues(c, b, b') && |b| - 1 <= i && ResetsAt(c, b', i)
  }

  /** An armed process needs only go on. */
  lemma ArmedResets(c: Config, b: seq<State>, p: nat) returns (b': seq<State>)
    requires Behaviour(c, b) && p in Last(b).procs && Armed(Last(b).sh, Last(b).procs[p])
    ensures |b'| > |b| && Continues(c, b, b') && ResetsAt(c, b', |b'| - 2) && b'[|b'| - 2].sh == Last(b).sh
    ensures R.Observe(c, Last(b').sh) == R.Observation(Last(b).sh.Top() + 1, Some(R.Slots(None, None)))
    ensures Last(b').sh.staged == Last(b).sh.staged && Last(b').sh.promoted == Last(b).sh.promoted
  {
    var b1, pub := Ready(c, b, p);
    b' := Publish(c, b1, p, pub);
    PublishedResets(c, b', p, pub, b'[|b'| - 2], Last(b'));
    ContinuesOn(c, b, b1, b');
  }

  lemma PublishedResets(c: Config, b: seq<State>, p: nat, pub: Publication, s: State, s': State)
    requires Behaviour(c, b) && |b| > 1 && s == b[|b| - 2] && s' == Last(b)
    requires Step(c, s, s', p) && LinkStep(s.sh, s.procs[p], s'.sh, s'.procs[p])
    requires s.procs[p].pc == Link(pub) && pub.generation == s.sh.Top() + 1
    requires !pub.purpose.Commit? && pub.state == EmptyState(c.ns)
    ensures ResetsAt(c, b, |b| - 2)
    ensures R.Observe(c, s'.sh) == R.Observation(s.sh.Top() + 1, Some(R.Slots(None, None)))
    ensures s'.sh.staged == s.sh.staged && s'.sh.promoted == s.sh.promoted
  {
    StepOf(c, b, |b| - 2, s, s');
    LinkResets(c, s, s', p, pub);
  }

  /** An armed process has an empty state for the next generation under way, once it has listed. */
  lemma Ready(c: Config, b: seq<State>, p: nat) returns (b': seq<State>, pub: Publication)
    requires Behaviour(c, b) && p in Last(b).procs && Armed(Last(b).sh, Last(b).procs[p])
    ensures |b'| >= |b| && Continues(c, b, b') && Last(b').sh == Last(b).sh && p in Last(b').procs
    ensures pub.generation == Last(b).sh.Top() + 1 && pub.state == EmptyState(c.ns) && !pub.purpose.Commit?
    ensures Publishing(Last(b').procs[p], pub)
  {
    var sh, q := Last(b).sh, Last(b).procs[p];
    ReachableInv(c, b, |b| - 1);
    assert ProcInv(c, sh, q);
    if q.pc.Relist? {
      pub := Publication(Max(sh.Top(), -1) + 1, EmptyState(c.ns), Initialise);
      b' := Extend(c, b, p, sh, q.(pc := Write(pub)));
    } else {
      b', pub := b, q.pc.pub;
    }
  }

  lemma LinkResets(c: Config, s: State, s': State, p: nat, pub: Publication)
    requires Inv(c, s) && Step(c, s, s', p) && LinkStep(s.sh, s.procs[p], s'.sh, s'.procs[p])
    requires s.procs[p].pc == Link(pub) && pub.generation == s.sh.Top() + 1
    requires !pub.purpose.Commit? && pub.state == EmptyState(c.ns)
    ensures Makes(c, s, s', R.ResetMove)
    ensures R.Observe(c, s'.sh) == R.Observation(s.sh.Top() + 1, Some(R.Slots(None, None)))
    ensures s'.sh.staged == s.sh.staged && s'.sh.promoted == s.sh.promoted
  {
    AboveNewest(s.sh.dir);
    R.LinkAdvances(c, s, s', p);
  }

  /** Over a live newest generation a reset can follow, with no further failing read, exactly when somebody is armed. */
  lemma ResetExactly(c: Config, b: seq<State>)
    requires Behaviour(c, b) && Alive(c, Last(b).sh)
    ensures CanReset(c, b) <==> !Calm(Last(b))
  {
    if !Calm(Last(b)) {
      var p :| p in Last(b).procs && Armed(Last(b).sh, Last(b).procs[p]);
      var b' := ArmedResets(c, b, p);
      assert ResetsAt(c, b', |b'| - 2);
    } else if CanReset(c, b) {
      var b', i :| Continues(c, b, b') && |b| - 1 <= i && ResetsAt(c, b', i);
      NoResetWhileReadsSucceed(c, b', |b| - 1, i);
    }
  }

  // ---- when a listed generation can be gone before it is read ---------------------------

  /** The generation found at the start outlives two later ones, if its canonical name is its only name. */
  ghost predicate FloorPresent(c: Config, sh: Shared) {
    sh.Top() < c.floor + 3 ==> c.floor >= 0 && c.floor in sh.dir.files
  }

  ghost predicate FloorSpared(c: Config, sh: Shared, q: Process) {
    q.pc.Prune? && sh.Top() < c.floor + 3 ==> c.floor !in q.pc.todo
  }

  ghost predicate FloorKept(c: Config, s: State) {
    FloorPresent(c, s.sh) && forall p :: p in s.procs ==> FloorSpared(c, s.sh, s.procs[p])
  }

  lemma FloorKeptByActor(c: Config, sh: Shared, q: Process, sh': Shared, q': Process)
    requires SharedInv(c, sh) && sh.Top() <= sh'.Top() && ProcessStep(c, sh, q, sh', q')
    requires c.floor !in sh.dir.strays && c.floor >= 0 && FloorPresent(c, sh) && FloorSpared(c, sh, q)
    ensures FloorPresent(c, sh') && FloorSpared(c, sh', q')
  {
    if ListPruneStep(sh, q, sh', q') {
      ListingSparesFloor(c, sh, q, q');
    } else if PruneStep(sh, q, sh', q') {
      PruningSparesFloor(c, sh, q, sh', q');
    } else {
      OthersOnlyAdd(c, sh, q, sh', q');
    }
  }

  lemma ListingSparesFloor(c: Config, sh: Shared, q: Process, q': Process)
    requires SharedInv(c, sh) && ListPruneStep(sh, q, sh, q') && c.floor !in sh.dir.strays && c.floor >= 0
    ensures FloorSpared(c, sh, q')
  {
    var found :| IsListing(sh.dir, found) && q' == q.(pc := Prune(Superseded(found, PRUNE_KEEP)));
    PruneSparesNewest(sh.dir, found, c.floor - 1);
  }

  lemma PruningSparesFloor(c: Config, sh: Shared, q: Process, sh': Shared, q': Process)
    requires sh.Top() <= sh'.Top() && PruneStep(sh, q, sh', q') && FloorPresent(c, sh) && FloorSpared(c, sh, q)
    ensures FloorPresent(c, sh') && FloorSpared(c, sh', q')
  {
    if q.pc.todo != [] {
      assert q.pc.todo[0] in q.pc.todo;
      assert forall t :: t in q.pc.todo[1..] ==> t in q.pc.todo;
    }
  }

  lemma OthersOnlyAdd(c: Config, sh: Shared, q: Process, sh': Shared, q': Process)
    requires ProcessStep(c, sh, q, sh', q') && !ListPruneStep(sh, q, sh', q') && !PruneStep(sh, q, sh', q')
    ensures sh.dir.files.Keys <= sh'.dir.files.Keys && !q'.pc.Prune?
  {
  }

  lemma FloorKeptByStep(c: Config, s: State, s': State, p: nat)
    requires SharedInv(c, s.sh) && s.sh.Top() <= s'.sh.Top() && Step(c, s, s', p)
    requires c.floor !in s.sh.dir.strays && c.floor >= 0 && FloorKept(c, s)
    ensures FloorKept(c, s')
  {
    FloorKeptByActor(c, s.sh, s.procs[p], s'.sh, s'.procs[p]);
  }

  lemma {:induction false} FloorKeptThroughout(c: Config, b: seq<State>, i: nat)
    requires Behaviour(c, b) && i < |b|
    requires c.floor in b[0].sh.dir.files && c.floor !in b[0].sh.dir.strays
    ensures FloorKept(c, b[i]) && b[i].sh.dir.strays == b[0].sh.dir.strays
  {
    if i > 0 {
      FloorKeptThroughout(c, b, i - 1);
      var s, s' := b[i - 1], b[i];
      StepOf(c, b, i - 1, s, s');
      NextInv(c, s, s');
      if !Tick(s, s') {
        var p :| Step(c, s, s', p);
        FloorKeptByStep(c, s, s', p);
      }
    }
  }

  /**
   * A generation a process listed is gone when it comes to read it only if
   * three later ones were published meanwhile. The one found at the start is
   * an exception only where the start did not hold it under its canonical name
   * alone.
   */
  lemma MissingMeansOvertaken(c: Config, b: seq<State>, i: nat, p: nat)
    requires Behaviour(c, b) && i < |b| && p in b[i].procs && b[i].procs[p].pc.Read?
    requires b[i].procs[p].pc.generation !in b[i].sh.dir.files
    ensures var g := b[i].procs[p].pc.generation;
            || b[i].sh.Top() >= g + 3
            || (g == c.floor && (g !in b[0].sh.dir.files || g in b[0].sh.dir.strays))
  {
    ReachableInv(c, b, i);
    assert ProcInv(c, b[i].sh, b[i].procs[p]);
    if c.floor in b[0].sh.dir.files && c.floor !in b[0].sh.dir.strays {
      FloorKeptThroughout(c, b, i);
    }
  }
}
