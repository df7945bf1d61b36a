/**
 * Every interleaving refines a two-slot machine.
 *
 * The abstract machine holds ACTIVE and PENDING, and moves only by Stage,
 * Promote, Discard and Reset.  What a reader sees, the newest generation, is a
 * run of that machine whatever the processes do and however they are interleaved.
 */
module CacheRefinement {
  import opened Prelude
  import opened CacheTypes
  import opened StateDirectory
  import opened CacheMachine
  import opened CacheInvariant

  datatype Slots = Slots(active: Option<CacheEntry>, pending: Option<CacheEntry>)

  /** What is observed: the newest generation and its slots, if it is a live document. */
  datatype Observation = Observation(generation: int, slots: Option<Slots>)

  ghost function Observe(c: Config, sh: Shared): Observation {
    var top := sh.Top();
    Observation(top,
      if top in sh.dir.files && sh.dir.files[top].Readable() && sh.dir.files[top].state.ns == c.ns then
        Some(Slots(sh.dir.files[top].state.active, sh.dir.files[top].state.pending))
      else None)
  }

  datatype Move = StageMove(entry: CacheEntry) | PromoteMove(running: string) | DiscardMove(running: string) | ResetMove

  /** The two-slot machine. Only a reset may ignore what was there. */
  predicate Moves(before: Option<Slots>, m: Move, after: Slots) {
    match m
    case ResetMove => after == Slots(None, None)
    case StageMove(e) => before.Some? && after == Slots(before.value.active, Some(e))
    case PromoteMove(running) =>
      && before.Some? && before.value.pending.Some?
      && before.value.pending.value.version == running
      && after == Slots(before.value.pending, None)
    case DiscardMove(running) =>
      && before.Some? && before.value.pending.Some?
      && before.value.pending.value.version != running
      && after == Slots(before.value.active, None)
  }

  /** The operation that makes each move. */
  predicate MadeBy(op: Op, pub: Publication, m: Move) {
    match m
    case ResetMove => !pub.purpose.Commit?
    case StageMove(e) => pub.purpose.Commit? && op == Stage(e)
    case PromoteMove(running) => pub.purpose.Commit? && op == Reconcile(running)
    case DiscardMove(running) => pub.purpose.Commit? && op == Reconcile(running)
  }

  /** Process `p` links the next generation, and that is move `m`. */
  ghost predicate Advances(c: Config, s: State, s': State, p: nat, m: Move) {
    && p in s.procs && s.procs[p].pc.Link?
    && var pub := s.procs[p].pc.pub;
    && MadeBy(s.procs[p].op, pub, m)
    && pub.generation == s'.sh.Top() == s.sh.Top() + 1
    && (pub.purpose.Commit? ==> s.sh.Top() in s.sh.dir.files && s.sh.dir.files[s.sh.Top()] == Document(pub.purpose.base))
    && Observe(c, s'.sh).slots.Some?
    && Moves(Observe(c, s.sh).slots, m, Observe(c, s'.sh).slots.value)
  }

  function MoveOf(op: Op, pub: Publication): Move {
    match pub.purpose
    case Commit(base) =>
      (match op
       case Stage(e) => StageMove(e)
       case Reconcile(running) =>
         if base.pending.Some? && base.pending.value.version == running then PromoteMove(running) else DiscardMove(running)
       case Observe => ResetMove)
    case _ => ResetMove
  }

  /** A link that is not the next generation changes nothing a reader sees. */
  lemma LinkUnseen(c: Config, s: State, s': State, p: nat)
    requires Inv(c, s) && Step(c, s, s', p) && LinkStep(s.sh, s.procs[p], s'.sh, s'.procs[p])
    requires s.procs[p].pc.pub.generation in s.sh.dir.files || s.procs[p].pc.pub.generation <= s.sh.Top()
    ensures Observe(c, s.sh) == Observe(c, s'.sh)
  {
    var q := s.procs[p];
    if q.pc.pub.generation !in s.sh.dir.files {
      LinkKeeps(c, s.sh, q, s'.sh, s'.procs[p]);
      TopAfterLink(s.sh, s'.sh, q.pc.pub.generation, q.temp.value);
    }
  }

  /** A link of the next generation makes the move of its operation. */
  lemma LinkAdvances(c: Config, s: State, s': State, p: nat)
    requires Inv(c, s) && Step(c, s, s', p) && LinkStep(s.sh, s.procs[p], s'.sh, s'.procs[p])
    requires s.procs[p].pc.pub.generation !in s.sh.dir.files && s.procs[p].pc.pub.generation > s.sh.Top()
    ensures Advances(c, s, s', p, MoveOf(s.procs[p].op, s.procs[p].pc.pub))
  {
    var q := s.procs[p];
    assert ProcInv(c, s.sh, q);
    LinkKeeps(c, s.sh, q, s'.sh, s'.procs[p]);
    TopAfterLink(s.sh, s'.sh, q.pc.pub.generation, q.temp.value);
    ComputedMoves(q.op, q.pc.pub, Observe(c, s.sh).slots);
  }

  /** A published state is its operation's move on the state it was computed from. */
  lemma ComputedMoves(op: Op, pub: Publication, before: Option<Slots>)
    requires match pub.purpose
             case Commit(base) => Computed(op, base, pub.state) && before == Some(Slots(base.active, base.pending))
             case _ => pub.state.active.None? && pub.state.pending.None?
    ensures Moves(before, MoveOf(op, pub), Slots(pub.state.active, pub.state.pending)) && MadeBy(op, pub, MoveOf(op, pub))
  {
  }

  lemma {:induction false} LinkRefines(c: Config, s: State, s': State, p: nat)
    requires Inv(c, s) && Step(c, s, s', p) && LinkStep(s.sh, s.procs[p], s'.sh, s'.procs[p])
    ensures Observe(c, s.sh) == Observe(c, s'.sh) ||
            Advances(c, s, s', p, MoveOf(s.procs[p].op, s.procs[p].pc.pub))
  {
    var g := s.procs[p].pc.pub.generation;
    if g in s.sh.dir.files || g <= s.sh.Top() {
      LinkUnseen(c, s, s', p);
    } else {
      LinkAdvances(c, s, s', p);
    }
  }

  /** A step leaves what readers see alone, or advances it by one generation and one move. */
  lemma {:induction false} NextRefines(c: Config, s: State, s': State)
    requires Inv(c, s) && Next(c, s, s')
    ensures Observe(c, s.sh) == Observe(c, s'.sh) || exists p, m :: Advances(c, s, s', p, m)
  {
    if Tick(s, s') {
      assert s.sh.dir == s'.sh.dir;
    } else {
      var p :| Step(c, s, s', p);
      if LinkStep(s.sh, s.procs[p], s'.sh, s'.procs[p]) {
        LinkRefines(c, s, s', p);
      } else {
        OthersUnseen(c, s, s', p);
      }
    }
  }

  /** No step but a link changes what readers see. */
  lemma OthersUnseen(c: Config, s: State, s': State, p: nat)
    requires Inv(c, s) && Step(c, s, s', p) && !LinkStep(s.sh, s.procs[p], s'.sh, s'.procs[p])
    ensures Observe(c, s.sh) == Observe(c, s'.sh)
  {
    if PruneStep(s.sh, s.procs[p], s'.sh, s'.procs[p]) {
      PruneUnseen(c, s.sh, s.procs[p], s'.sh, s'.procs[p]);
    } else {
      assert s.sh.dir == s'.sh.dir;
    }
  }

  lemma PruneUnseen(c: Config, sh: Shared, q: Process, sh': Shared, q': Process)
    requires SharedInv(c, sh) && ProcInv(c, sh, q) && PruneStep(sh, q, sh', q')
    ensures Observe(c, sh) == Observe(c, sh')
  {
    if q.pc.todo != [] && sh' != sh {
      assert q.pc.todo[0] in q.pc.todo;
      TopAfterRemove(sh, sh', q.pc.todo[0]);
    }
  }

  // ---- whole runs ----------------------------------------------------------

  /** The distinct observations of a behaviour, in order. */
  ghost function Observations(c: Config, b: seq<State>): (run: seq<Observation>)
    requires |b| > 0
    ensures |run| > 0 && run[|run| - 1] == Observe(c, b[|b| - 1].sh) && run[0] == Observe(c, b[0].sh)
  {
    if |b| == 1 then [Observe(c, b[0].sh)] else
      var run := Observations(c, b[..|b| - 1]);
      var last := Observe(c, b[|b| - 1].sh);
      if run[|run| - 1] == last then run else run + [last]
  }

  ghost predicate AbstractStep(before: Observation, after: Observation) {
    && after.generation == before.generation + 1
    && after.slots.Some?
    && exists m :: Moves(before.slots, m, after.slots.value)
  }

  ghost predicate AbstractRun(run: seq<Observation>) {
    forall i :: 0 <= i < |run| - 1 ==> AbstractStep(run[i], run[i + 1])
  }

  lemma {:induction false} PrefixBehaviour(c: Config, b: seq<State>, k: nat)
    requires Behaviour(c, b) && 0 < k <= |b|
    ensures Behaviour(c, b[..k])
  {
    var prefix := b[..k];
    forall i | 0 <= i < |prefix| - 1 ensures Next(c, prefix[i], prefix[i + 1]) {
      assert Next(c, b[i], b[i + 1]);
    }
  }

  /** Consecutive states of a behaviour show the same observation or one abstract step. */
  lemma {:induction false} ObservedStep(c: Config, b: seq<State>, i: nat)
    requires Behaviour(c, b) && i + 1 < |b|
    ensures Observe(c, b[i].sh) == Observe(c, b[i + 1].sh) ||
            AbstractStep(Observe(c, b[i].sh), Observe(c, b[i + 1].sh))
  {
    ReachableInv(c, b, i);
    NextRefines(c, b[i], b[i + 1]);
  }

  lemma ExtendRun(run: seq<Observation>, last: Observation)
    requires AbstractRun(run) && |run| > 0 && AbstractStep(run[|run| - 1], last)
    ensures AbstractRun(run + [last])
  {
  }

  /** The newest-generation states of any behaviour are a run of the two-slot machine. */
  lemma {:induction false} TraceRefinement(c: Config, b: seq<State>)
    requires Behaviour(c, b)
    ensures AbstractRun(Observations(c, b))
    decreases |b|
  {
    if |b| > 1 {
      var k := |b| - 1;
      PrefixBehaviour(c, b, k);
      TraceRefinement(c, b[..k]);
      ObservedStep(c, b, k - 1);
      var run := Observations(c, b[..k]);
      var last := Observe(c, b[k].sh);
      assert run[|run| - 1] == Observe(c, b[k - 1].sh);
      if run[|run| - 1] != last {
        ExtendRun(run, last);
      }
    }
  }

  /** Generations grow by at most one a step, so unbounded arithmetic is exact until the run is 2^64 steps long. */
  lemma {:induction false} GenerationsBounded(c: Config, b: seq<State>, i: nat)
    requires Behaviour(c, b) && i < |b|
    ensures b[0].sh.Top() <= b[i].sh.Top() <= b[0].sh.Top() + i
  {
    if i > 0 {
      GenerationsBounded(c, b, i - 1);
      TopMoves(c, b, i - 1);
    }
  }

  lemma TopMoves(c: Config, b: seq<State>, i: nat)
    requires Behaviour(c, b) && i + 1 < |b|
    ensures b[i].sh.Top() <= b[i + 1].sh.Top() <= b[i].sh.Top() + 1
  {
    ReachableInv(c, b, i);
    NextInv(c, b[i], b[i + 1]);
  }

  /** In every state a behaviour reaches, no computed generation leaves `u64` if the start plus the steps do not. */
  lemma {:induction false} NoOverflow(c: Config, b: seq<State>, i: nat, p: nat)
    requires Behaviour(c, b) && i < |b| && b[0].sh.Top() + |b| < U64_MODULUS
    requires p in b[i].procs && (b[i].procs[p].pc.Write? || b[i].procs[p].pc.Sync? || b[i].procs[p].pc.Link?)
    ensures b[i].procs[p].pc.pub.generation < U64_MODULUS
  {
    GenerationsBounded(c, b, i);
    ReachableInv(c, b, i);
    assert ProcInv(c, b[i].sh, b[i].procs[p]);
  }

  // ---- stale writers ---------------------------------------------------------

  /**
   * A commit whose read is at most three generations behind either becomes the
   * newest state or finds its name taken; whatever it is behind, a link that is
   * not the next generation changes nothing a reader sees.
   */
  lemma {:induction false} StaleCommit(c: Config, s: State, s': State, p: nat)
    requires Inv(c, s) && Step(c, s, s', p) && LinkStep(s.sh, s.procs[p], s'.sh, s'.procs[p])
    requires s.procs[p].pc.pub.purpose.Commit?
    ensures var pub := s.procs[p].pc.pub;
            var read := pub.generation - 1;
            var won := pub.generation !in s.sh.dir.files;
            && read <= s.sh.Top()
            && (won <==> s'.procs[p].pc == Unlink(pub, true))
            && (s.sh.Top() - read <= 3 ==> (won <==> read == s.sh.Top()))
            && (won && read == s.sh.Top() ==>
                  s'.sh.Top() == pub.generation && s'.sh.dir.files[s'.sh.Top()] == Document(pub.state))
            && (read != s.sh.Top() ==> Observe(c, s'.sh) == Observe(c, s.sh))
  {
    var q := s.procs[p];
    assert ProcInv(c, s.sh, q);
    var g := q.pc.pub.generation;
    if g !in s.sh.dir.files {
      TopAfterLink(s.sh, s'.sh, g, q.temp.value);
      LinkKeeps(c, s.sh, q, s'.sh, s'.procs[p]);
      if g > s.sh.Top() {
        assert g !in s.sh.dir.files;
      }
    } else {
      assert g in s.sh.dir.Listed();
    }
  }

  /** No step ever removes or rewrites the newest generation. */
  lemma {:induction false} NewestSurvives(c: Config, b: seq<State>, i: nat)
    requires Behaviour(c, b) && i + 1 < |b| && b[i].sh.Top() in b[i].sh.dir.files
    ensures var top := b[i].sh.Top();
            top in b[i + 1].sh.dir.files && b[i + 1].sh.dir.files[top] == b[i].sh.dir.files[top]
  {
    ReachableInv(c, b, i);
    NextInv(c, b[i], b[i + 1]);
  }
}
