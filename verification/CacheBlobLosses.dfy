/**
 * Exactly which runs keep every blob the newest state names.
 *
 * `CacheBlobAge` shows what suffices. Here each part of it is shown to be needed,
 * whatever the rest allows, by a run that ends with the newest state naming a
 * blob that is not on disk.
 */
module CacheBlobLosses {
  import opened Prelude
  import opened CacheTypes
  import opened StateDirectory
  import opened CacheMachine
  import opened CacheInvariant
  import opened CacheRuns
  import opened CacheResets
  import opened CacheBlobAge
  import opened CacheLosses
  import R = CacheRefinement

  // ---- timely runs, one step at a time -----------------------------------------------

  lemma TimelyIsBehaviour(c: Config, t: Allowance, b: seq<State>)
    requires TimelyBehaviour(c, t, b)
    ensures Behaviour(c, b)
  {
    forall i | 0 <= i < |b| - 1 ensures Next(c, b[i], b[i + 1]) {
      assert TimelyNext(c, t, b[i], b[i + 1]);
    }
  }

  lemma Grow(c: Config, t: Allowance, b: seq<State>, s': State) returns (b': seq<State>)
    requires TimelyBehaviour(c, t, b) && TimelyNext(c, t, Last(b), s')
    ensures TimelyBehaviour(c, t, b') && Last(b') == s'
  {
    b' := b + [s'];
    forall i | 0 <= i < |b'| - 1 ensures TimelyNext(c, t, b'[i], b'[i + 1]) {
      if i < |b| - 1 {
        assert b'[i] == b[i] && b'[i + 1] == b[i + 1];
      }
    }
  }

  lemma Wait(c: Config, t: Allowance, b: seq<State>, pause: nat) returns (b': seq<State>)
    requires TimelyBehaviour(c, t, b)
    ensures TimelyBehaviour(c, t, b') && Last(b') == Last(b).(sh := Last(b).sh.(now := Last(b).sh.now + pause))
  {
    b' := Grow(c, t, b, Last(b).(sh := Last(b).sh.(now := Last(b).sh.now + pause)));
  }

  /** Process `p` of the last state, which is `q` over `sh`, becomes `q'` over `sh'`. */
  lemma Go(c: Config, t: Allowance, b: seq<State>, p: nat, sh': Shared, q': Process) returns (b': seq<State>)
    requires TimelyBehaviour(c, t, b) && p in Last(b).procs && Timely(t, Last(b), p)
    requires ProcessStep(c, Last(b).sh, Last(b).procs[p], sh', q')
    ensures TimelyBehaviour(c, t, b') && Last(b') == State(sh', Last(b).procs[p := q'])
  {
    var s' := State(sh', Last(b).procs[p := q']);
    assert Step(c, Last(b), s', p);
    b' := Grow(c, t, b, s');
  }

  /** A process starting `op` lists and reads the live newest state. */
  lemma Reads(c: Config, t: Allowance, b: seq<State>, p: nat, op: Op) returns (b': seq<State>, q: Process)
    requires TimelyBehaviour(c, t, b) && p in Last(b).procs && Last(b).procs[p].pc.Idle? && !op.Stage? && Alive(c, Last(b).sh)
    ensures TimelyBehaviour(c, t, b') && Last(b') == State(Last(b).sh, Last(b).procs[p := q])
    ensures var sh := Last(b).sh;
            && q.since == sh.now && q.op == op
            && q.pc == Proceed(Process(op, Load, None, 0, 0, false, 0, 0), sh.Top(), sh.dir.files[sh.Top()].state).pc
  {
    var sh, was := Last(b).sh, Last(b).procs[p];
    q := Process(op, Load, None, 0, 0, false, was.since, was.wrote);
    b' := Go(c, t, b, p, sh, q);
    b', q := ReadsNewest(c, t, b', p);
  }

  lemma ReadsNewest(c: Config, t: Allowance, b: seq<State>, p: nat) returns (b': seq<State>, q: Process)
    requires TimelyBehaviour(c, t, b) && p in Last(b).procs && Last(b).procs[p].pc.Load? && !Last(b).procs[p].second
    requires Alive(c, Last(b).sh)
    ensures TimelyBehaviour(c, t, b')
    ensures q == Proceed(Last(b).procs[p].(since := Last(b).sh.now), Last(b).sh.Top(), Last(b).sh.dir.files[Last(b).sh.Top()].state)
    ensures Last(b') == State(Last(b).sh, Last(b).procs[p := q])
  {
    var sh, q0 := Last(b).sh, Last(b).procs[p];
    var top := sh.Top();
    var q1 := q0.(since := sh.now, pc := Read(top));
    var b1 := Go(c, t, b, p, sh, q1);
    q := Proceed(q0.(since := sh.now), top, sh.dir.files[top].state);
    assert Have(c, q1, top, sh.dir.files[top].state) == q;
    b' := Go(c, t, b1, p, sh, q);
  }

  /** From there to a completed temporary file, about to be linked. */
  lemma Completes(c: Config, t: Allowance, b: seq<State>, p: nat, pub: Publication) returns (b': seq<State>)
    requires TimelyBehaviour(c, t, b) && p in Last(b).procs && Last(b).procs[p].pc == Write(pub)
    ensures TimelyBehaviour(c, t, b')
    ensures Last(b') == State(Last(b).sh, Last(b).procs[p := Last(b).procs[p].(pc := Link(pub), temp := Some(Document(pub.state)))])
  {
    var sh, q := Last(b).sh, Last(b).procs[p];
    var q1 := q.(pc := Sync(pub), temp := Some(Garbage));
    var b1 := Go(c, t, b, p, sh, q1);
    b' := Go(c, t, b1, p, sh, q1.(pc := Link(pub), temp := Some(Document(pub.state))));
  }

  /** The link, at a free name no further behind than is allowed, and the unlinking after it. */
  lemma Links(c: Config, t: Allowance, b: seq<State>, p: nat, pub: Publication) returns (b': seq<State>)
    requires TimelyBehaviour(c, t, b) && p in Last(b).procs && Last(b).procs[p].pc == Link(pub)
    requires Last(b).procs[p].temp == Some(Document(pub.state)) && pub.generation !in Last(b).sh.dir.files
    requires Last(b).sh.Top() - (pub.generation - 1) <= t.lag
    requires Last(b).procs[p].op.Stage? && pub.purpose.Commit? ==> Last(b).sh.now <= Last(b).procs[p].wrote + t.commit
    ensures TimelyBehaviour(c, t, b')
    ensures var sh, q := Last(b).sh, Last(b).procs[p];
            Last(b') == State(Linked(q.op, pub, sh), Last(b).procs[p := Won(c, q.(temp := None, since := sh.now), pub)])
  {
    var sh, q := Last(b).sh, Last(b).procs[p];
    var sh1, q1 := Linked(q.op, pub, sh), q.(pc := Unlink(pub, true), since := sh.now);
    assert LinkStep(sh, q, sh1, q1);
    var b1 := Go(c, t, b, p, sh1, q1);
    b' := Go(c, t, b1, p, sh1, Won(c, q.(temp := None, since := sh.now), pub));
  }

  /** A publication at the next generation, from the process's decision to its own next step. */
  lemma Publishes(c: Config, t: Allowance, b: seq<State>, p: nat, pub: Publication) returns (b': seq<State>, q: Process)
    requires TimelyBehaviour(c, t, b) && p in Last(b).procs && Last(b).procs[p].pc == Write(pub) && !pub.purpose.Commit?
    requires pub.generation == Last(b).sh.Top() + 1
    ensures TimelyBehaviour(c, t, b') && q == Won(c, Last(b).procs[p].(temp := None, since := Last(b).sh.now), pub)
    ensures var sh := Last(b).sh;
            && Last(b') == State(sh.(dir := sh.dir.(files := sh.dir.files[pub.generation := Document(pub.state)])), Last(b).procs[p := q])
            && Last(b').sh.Top() == pub.generation
  {
    var sh := Last(b).sh;
    AboveNewest(sh.dir);
    q := Won(c, Last(b).procs[p].(temp := None, since := sh.now), pub);
    var b1 := Completes(c, t, b, p, pub);
    b' := Links(c, t, b1, p, pub);
    TopAfterLink(sh, Last(b').sh, pub.generation, Document(pub.state));
  }

  /** A stage of `e` puts its blob, which is new or as young as can be. */
  lemma Puts(c: Config, t: Allowance, b: seq<State>, r: nat, e: CacheEntry) returns (b': seq<State>, q: Process)
    requires TimelyBehaviour(c, t, b) && r in Last(b).procs && Last(b).procs[r].pc.Idle?
    requires var d := e.compressedBlake3; d in Last(b).sh.blobs ==> Last(b).sh.blobs[d] == Last(b).sh.now
    ensures TimelyBehaviour(c, t, b')
    ensures var sh := Last(b).sh;
            Last(b') == State(sh.(blobs := sh.blobs[e.compressedBlake3 := sh.now]), Last(b).procs[r := q])
    ensures q.op == Op.Stage(e) && q.pc.Load? && !q.second && q.wrote == Last(b).sh.now
  {
    var sh, was, d := Last(b).sh, Last(b).procs[r], e.compressedBlake3;
    q := Process(Op.Stage(e), PutWrite, None, 0, 0, false, was.since, was.wrote);
    var b1 := Go(c, t, b, r, sh, q);
    q := q.(pc := PutLink, wrote := sh.now);
    var b2 := Go(c, t, b1, r, sh, q);
    q := q.(pc := Load);
    assert d in sh.blobs ==> sh.blobs[d := sh.now] == sh.blobs;
    b' := Go(c, t, b2, r, sh.(blobs := sh.blobs[d := sh.now]), q);
  }

  /** The publication a stage of `e` makes over the newest state. */
  ghost function StageOver(sh: Shared, e: CacheEntry): Publication
    requires sh.Top() in sh.dir.files && sh.dir.files[sh.Top()].Document?
  {
    var state := sh.dir.files[sh.Top()].state;
    Publication(sh.Top() + 1, Staged(state, e), Commit(state))
  }

  /** A stage of `e` up to its link. */
  lemma Prepares(c: Config, t: Allowance, b: seq<State>, r: nat, e: CacheEntry) returns (b': seq<State>, q: Process)
    requires TimelyBehaviour(c, t, b) && r in Last(b).procs && Last(b).procs[r].pc.Idle? && Alive(c, Last(b).sh)
    requires var d := e.compressedBlake3; d in Last(b).sh.blobs ==> Last(b).sh.blobs[d] == Last(b).sh.now
    ensures TimelyBehaviour(c, t, b')
    ensures var sh := Last(b).sh;
            && Last(b') == State(sh.(blobs := sh.blobs[e.compressedBlake3 := sh.now]), Last(b).procs[r := q])
            && q.op == Op.Stage(e) && q.wrote == sh.now
            && q.pc == Link(StageOver(sh, e)) && q.temp == Some(Document(StageOver(sh, e).state))
  {
    var pub := StageOver(Last(b).sh, e);
    b', q := Puts(c, t, b, r, e);
    b', q := ReadsNewest(c, t, b', r);
    b' := Completes(c, t, b', r, pub);
    q := q.(pc := Link(pub), temp := Some(Document(pub.state)));
  }

  /** And its link, before anybody else's and soon enough. */
  lemma Commits(c: Config, t: Allowance, b: seq<State>, r: nat, e: CacheEntry) returns (b': seq<State>, q: Process)
    requires TimelyBehaviour(c, t, b) && r in Last(b).procs && Alive(c, Last(b).sh)
    requires var q, pub := Last(b).procs[r], StageOver(Last(b).sh, e);
             && q.op == Op.Stage(e) && q.pc == Link(pub) && q.temp == Some(Document(pub.state))
             && Last(b).sh.now <= q.wrote + t.commit
    ensures TimelyBehaviour(c, t, b') && q.pc.ListPrune?
    ensures var sh, sh' := Last(b).sh, Last(b').sh;
            && sh' == Linked(Op.Stage(e), StageOver(sh, e), sh) && Last(b').procs == Last(b).procs[r := q]
            && sh'.Top() == sh.Top() + 1 && Staging(c, sh', e)
  {
    var sh, pub := Last(b).sh, StageOver(Last(b).sh, e);
    AboveNewest(sh.dir);
    b' := Links(c, t, b, r, pub);
    q := Won(c, Last(b).procs[r].(temp := None, since := sh.now), pub);
    TopAfterLink(sh, Last(b').sh, pub.generation, Document(pub.state));
  }

  // ---- where the runs start -------------------------------------------------------------

  /** A live and empty newest state, no blobs, and two processes with nothing to do. */
  ghost predicate Quiet(c: Config, s: State) {
    && s.procs.Keys == {0, 1} && s.procs[0].pc.Idle? && s.procs[1].pc.Idle? && s.sh.blobs == map[]
    && s.sh.Top() in s.sh.dir.files && s.sh.dir.files[s.sh.Top()] == Document(EmptyState(c.ns))
  }

  ghost function Starting(files: map<nat, FileBody>): State {
    var idle := Process(Op.Observe, Idle, None, 0, 0, false, 0, 0);
    State(Shared(Directory(files, multiset{}), map[], 0, {}, {}), map[0 := idle, 1 := idle])
  }

  /** A directory holding one empty state, or nothing at all. */
  ghost function Opening(c: Config, ns: Namespace): State
    requires c.floor >= -1
  {
    Starting(if c.floor >= 0 then map[c.floor := Document(EmptyState(ns))] else map[])
  }

  lemma Opens(c: Config, t: Allowance, ns: Namespace)
    requires c.floor >= -1 && (t.foreign || ns == c.ns)
    ensures TimelyBehaviour(c, t, [Opening(c, ns)]) && Opening(c, ns).sh.Top() == c.floor
  {
    NewestIs(Opening(c, ns).sh.dir.Listed(), c.floor);
  }

  lemma QuietStart(c: Config, t: Allowance) returns (b: seq<State>)
    requires c.floor >= -1
    ensures TimelyBehaviour(c, t, b) && Quiet(c, Last(b))
  {
    Opens(c, t, c.ns);
    b := [Opening(c, c.ns)];
    if c.floor == -1 {
      b := Initialises(c, t, b);
    }
  }

  /** On an empty directory the first to look publishes generation 0. */
  lemma Initialises(c: Config, t: Allowance, b: seq<State>) returns (b': seq<State>)
    requires c.floor == -1 && TimelyBehaviour(c, t, b) && Last(b) == Opening(c, c.ns) && Last(b).sh.Top() == -1
    ensures TimelyBehaviour(c, t, b') && Quiet(c, Last(b'))
  {
    var sh := Last(b).sh;
    var pub := Publication(0, EmptyState(c.ns), Initialise);
    var q := Process(Op.Observe, Load, None, 0, 0, false, 0, 0);
    b' := Go(c, t, b, 1, sh, q);
    b' := Go(c, t, b', 1, sh, q.(pc := Relist));
    b' := Go(c, t, b', 1, sh, q.(pc := Write(pub)));
    b', q := Publishes(c, t, b', 1, pub);
  }

  // ---- the two gaps -----------------------------------------------------------------------

  /** Process 0 takes its snapshot of an empty state: nothing to keep. */
  lemma Snapshot(c: Config, t: Allowance, b: seq<State>) returns (b': seq<State>, q: Process)
    requires TimelyBehaviour(c, t, b) && 0 in Last(b).procs && Last(b).procs[0].pc.Idle?
    requires var sh := Last(b).sh; sh.Top() in sh.dir.files && sh.dir.files[sh.Top()] == Document(EmptyState(c.ns))
    ensures TimelyBehaviour(c, t, b') && Last(b') == State(Last(b).sh, Last(b).procs[0 := q])
    ensures q.pc == Collect({}, false) && q.since == Last(b).sh.now
  {
    assert EmptyState(c.ns).Named() == {};
    b', q := Reads(c, t, b, 0, Reconcile(""));
  }

  /** A collection with nothing to keep removes a blob that is old enough. */
  lemma Removes(c: Config, t: Allowance, b: seq<State>, d: string) returns (b': seq<State>)
    requires TimelyBehaviour(c, t, b) && 0 in Last(b).procs && Last(b).procs[0].pc.Collect? && Last(b).procs[0].pc.keep == {}
    requires Last(b).sh.now <= Last(b).procs[0].since + t.scan
    requires d in Last(b).sh.blobs && Last(b).sh.now - Last(b).sh.blobs[d] >= c.grace
    ensures TimelyBehaviour(c, t, b') && Last(b').sh == Last(b).sh.(blobs := Last(b).sh.blobs - {d})
  {
    var sh, q := Last(b).sh, Last(b).procs[0];
    var q1 := q.(pc := Sweep({}, q.pc.committed, sh.now));
    var b1 := Go(c, t, b, 0, sh, q1);
    assert Expendable(c, sh, {}, sh.now, d);
    b' := Go(c, t, b1, 0, sh.(blobs := sh.blobs - {d}), q1);
  }

  lemma NamesStaged(c: Config, sh: Shared, e: CacheEntry)
    requires Staging(c, sh, e)
    ensures e.compressedBlake3 in Named(sh)
  {
  }

  /** Process 1 has put the blob, and process 0 has since taken its snapshot; then process 1 commits at the last moment. */
  lemma CommitsLate(c: Config, t: Allowance, e: CacheEntry) returns (b: seq<State>)
    requires c.floor >= -1
    ensures TimelyBehaviour(c, t, b) && Staging(c, Last(b).sh, e) && 0 in Last(b).procs
    ensures var sh, q := Last(b).sh, Last(b).procs[0];
            && q.pc == Collect({}, false) && q.since == sh.now
            && e.compressedBlake3 in sh.blobs && sh.now - sh.blobs[e.compressedBlake3] == t.commit
  {
    var q, snapshot;
    b := QuietStart(c, t);
    b, q := Prepares(c, t, b, 1, e);
    b := Wait(c, t, b, t.commit);
    b, snapshot := Snapshot(c, t, b);
    b, q := Commits(c, t, b, 1, e);
  }

  /**
   * As soon as the two gaps together reach the grace period, whatever else is
   * forbidden, a collector can take its snapshot just before a stage commits as
   * late as it may, and then scan as late as it may.
   */
  lemma BlobCanVanish(c: Config, t: Allowance, e: CacheEntry) returns (b: seq<State>)
    requires c.floor >= -1 && t.commit + t.scan >= c.grace
    ensures TimelyBehaviour(c, t, b) && e.compressedBlake3 in Named(Last(b).sh) && e.compressedBlake3 !in Last(b).sh.blobs
  {
    b := CommitsLate(c, t, e);
    b := Wait(c, t, b, t.scan);
    NamesStaged(c, Last(b).sh, e);
    b := Removes(c, t, b, e.compressedBlake3);
  }

  // ---- a reset by namespace -------------------------------------------------------------------

  /** Process 0 finds a state of another namespace and publishes an empty one over it, with the blobs still to be wiped. */
  lemma Resets(c: Config, t: Allowance, ns: Namespace) returns (b: seq<State>)
    requires c.floor >= 0 && t.foreign && ns != c.ns
    ensures TimelyBehaviour(c, t, b) && Last(b).procs.Keys == {0, 1} && Last(b).procs[0].pc.Wipe? && Last(b).procs[1].pc.Idle?
    ensures Alive(c, Last(b).sh) && Last(b).sh.blobs == map[]
  {
    Opens(c, t, ns);
    b := [Opening(c, ns)];
    var pub, q;
    b, pub := FindsForeign(c, t, b, ns);
    b, q := Publishes(c, t, b, 0, pub);
  }

  lemma FindsForeign(c: Config, t: Allowance, b: seq<State>, ns: Namespace) returns (b': seq<State>, pub: Publication)
    requires c.floor >= 0 && ns != c.ns && TimelyBehaviour(c, t, b)
    requires Last(b) == Opening(c, ns) && Last(b).sh.Top() == c.floor
    ensures pub == Publication(c.floor + 1, EmptyState(c.ns), Reset)
    ensures TimelyBehaviour(c, t, b') && Last(b').sh == Last(b).sh && Last(b').procs.Keys == {0, 1}
    ensures Last(b').procs[0].pc == Write(pub) && Last(b').procs[1].pc.Idle?
  {
    var sh := Last(b).sh;
    var q := Process(Op.Observe, Load, None, 0, 0, false, 0, 0);
    pub := Publication(c.floor + 1, EmptyState(c.ns), Reset);
    b' := Go(c, t, b, 0, sh, q);
    b' := Go(c, t, b', 0, sh, q.(pc := Read(c.floor)));
    assert Have(c, q.(pc := Read(c.floor)), c.floor, EmptyState(ns)) == q.(pc := Write(pub));
    b' := Go(c, t, b', 0, sh, q.(pc := Write(pub)));
  }

  /**
   * A reset by namespace drops every blob, and with it one that was staged over
   * the state it published. No gap need have any length.
   */
  lemma ResetLosesBlob(c: Config, t: Allowance, e: CacheEntry) returns (b: seq<State>)
    requires c.floor >= 0 && t.foreign
    ensures TimelyBehaviour(c, t, b) && e.compressedBlake3 in Named(Last(b).sh) && e.compressedBlake3 !in Last(b).sh.blobs
  {
    var q;
    b := Resets(c, t, c.ns.(bundleId := c.ns.bundleId + "!"));
    b, q := Prepares(c, t, b, 1, e);
    b, q := Commits(c, t, b, 1, e);
    NamesStaged(c, Last(b).sh, e);
    var sh, d := Last(b).sh, e.compressedBlake3;
    b := Go(c, t, b, 0, sh.(blobs := sh.blobs - {d}), Last(b).procs[0]);
  }

  // ---- a writer four behind ---------------------------------------------------------------------

  /** A whole stage of `e` by process 1, without its pruning. */
  lemma Stages(c: Config, t: Allowance, b: seq<State>, e: CacheEntry) returns (b': seq<State>)
    requires TimelyBehaviour(c, t, b) && 1 in Last(b).procs && Last(b).procs[1].pc.Idle? && Alive(c, Last(b).sh)
    requires var d := e.compressedBlake3; d in Last(b).sh.blobs ==> Last(b).sh.blobs[d] == Last(b).sh.now
    ensures TimelyBehaviour(c, t, b') && Staging(c, Last(b').sh, e)
    ensures var sh, sh' := Last(b).sh, Last(b').sh;
            && sh'.now == sh.now && sh'.blobs == sh.blobs[e.compressedBlake3 := sh.now]
            && sh'.dir.strays == sh.dir.strays && sh'.Top() == sh.Top() + 1
            && sh'.dir.files == sh.dir.files[sh.Top() + 1 := Document(Staged(sh.dir.files[sh.Top()].state, e))]
    ensures 1 in Last(b').procs && Last(b').procs == Last(b).procs[1 := Last(b').procs[1]] && Last(b').procs[1].pc.Idle?
  {
    var q;
    b', q := Prepares(c, t, b, 1, e);
    b', q := Commits(c, t, b', 1, e);
    b' := Go(c, t, b', 1, Last(b').sh, q.(pc := Idle));
  }

  /** A launch that will discard what is staged, up to its link. */
  lemma PreparesDiscard(c: Config, t: Allowance, b: seq<State>, e: CacheEntry, running: string) returns (b': seq<State>, q: Process)
    requires TimelyBehaviour(c, t, b) && 0 in Last(b).procs && Last(b).procs[0].pc.Idle?
    requires Staging(c, Last(b).sh, e) && e.version != running
    ensures TimelyBehaviour(c, t, b') && Last(b') == State(Last(b).sh, Last(b).procs[0 := q])
    ensures var sh := Last(b).sh; var state := sh.dir.files[sh.Top()].state;
            var pub := Publication(sh.Top() + 1, state.(pending := None), Commit(state));
            q.op == Reconcile(running) && q.pc == Link(pub) && q.temp == Some(Document(pub.state))
  {
    var sh := Last(b).sh;
    var state := sh.dir.files[sh.Top()].state;
    var pub := Publication(sh.Top() + 1, state.(pending := None), Commit(state));
    b', q := Reads(c, t, b, 0, Reconcile(running));
    b' := Completes(c, t, b', 0, pub);
    q := q.(pc := Link(pub), temp := Some(Document(pub.state)));
  }

  /** Process `r` prunes everything it set out to. */
  lemma {:induction false} Prunes(c: Config, t: Allowance, b: seq<State>, r: nat) returns (b': seq<State>, q: Process)
    requires TimelyBehaviour(c, t, b) && r in Last(b).procs && Last(b).procs[r].pc.Prune?
    ensures TimelyBehaviour(c, t, b') && R.Observe(c, Last(b').sh) == R.Observe(c, Last(b).sh)
    ensures Last(b').sh == Last(b).sh.(dir := Last(b').sh.dir) && Last(b').procs == Last(b).procs[r := q]
    ensures forall g :: g in Last(b').sh.dir.files <==> g in Last(b).sh.dir.files && g !in Last(b).procs[r].pc.todo
    decreases |Last(b).procs[r].pc.todo|
  {
    var sh := Last(b).sh;
    q := Last(b).procs[r];
    var todo := q.pc.todo;
    if todo == [] {
      b' := b;
      assert Last(b).procs == Last(b).procs[r := q];
    } else {
      var sh' := sh.(dir := sh.dir.(files := sh.dir.files - {todo[0]}));
      TimelyIsBehaviour(c, t, b);
      PrunedUnseen(c, b, r, sh, q, sh', q.(pc := Prune(todo[1..])));
      var b1 := Go(c, t, b, r, sh', q.(pc := Prune(todo[1..])));
      b', q := Prunes(c, t, b1, r);
      assert todo == [todo[0]] + todo[1..];
    }
  }

  predicate Holding(files: map<nat, FileBody>, x: nat) { x in files && x + 1 in files && x + 2 in files }

  /** Process 1, done staging, prunes a generation with three later ones. */
  lemma PrunesAway(c: Config, t: Allowance, b: seq<State>, x: nat) returns (b': seq<State>, q: Process)
    requires TimelyBehaviour(c, t, b) && 1 in Last(b).procs && Last(b).procs[1].pc.ListPrune?
    requires Holding(Last(b).sh.dir.files, x) && x + 3 in Last(b).sh.dir.files
    ensures TimelyBehaviour(c, t, b') && R.Observe(c, Last(b').sh) == R.Observe(c, Last(b).sh)
    ensures Last(b').sh == Last(b).sh.(dir := Last(b').sh.dir) && Last(b').procs == Last(b).procs[1 := q]
    ensures x !in Last(b').sh.dir.files
  {
    var b1, todo := ListsToPrune(c, t, b, x);
    b', q := Prunes(c, t, b1, 1);
  }

  lemma ListsToPrune(c: Config, t: Allowance, b: seq<State>, x: nat) returns (b': seq<State>, todo: seq<nat>)
    requires TimelyBehaviour(c, t, b) && 1 in Last(b).procs && Last(b).procs[1].pc.ListPrune?
    requires Holding(Last(b).sh.dir.files, x) && x + 3 in Last(b).sh.dir.files
    ensures TimelyBehaviour(c, t, b') && x in todo
    ensures Last(b') == State(Last(b).sh, Last(b).procs[1 := Last(b).procs[1].(pc := Prune(todo))])
  {
    var sh, q := Last(b).sh, Last(b).procs[1];
    todo := PruneList(sh.dir, x);
    assert ListPruneStep(sh, q, sh, q.(pc := Prune(todo)));
    b' := Go(c, t, b, 1, sh, q.(pc := Prune(todo)));
  }

  lemma PruneList(d: Directory, x: nat) returns (todo: seq<nat>)
    requires Holding(d.files, x) && x + 3 in d.files
    ensures x in todo && exists found :: IsListing(d, found) && todo == Superseded(found, PRUNE_KEEP)
  {
    var found := ListingExists(d);
    ThreeLater(d, found, x);
    todo := Superseded(found, PRUNE_KEEP);
  }

  /** Since `was` process 1 has staged `e`, `n` times over, and nothing else has happened but pruning. */
  ghost predicate StagedSince(c: Config, was: State, s: State, e: CacheEntry, n: nat) {
    && Staging(c, s.sh, e) && s.sh.now == was.sh.now && s.sh.blobs == was.sh.blobs[e.compressedBlake3 := was.sh.now]
    && s.sh.Top() == was.sh.Top() + n && 1 in s.procs && s.procs == was.procs[1 := s.procs[1]]
  }

  lemma StagesAgain(c: Config, t: Allowance, b: seq<State>, was: State, e: CacheEntry, n: nat) returns (b': seq<State>)
    requires TimelyBehaviour(c, t, b) && StagedSince(c, was, Last(b), e, n) && Last(b).procs[1].pc.Idle?
    ensures TimelyBehaviour(c, t, b') && StagedSince(c, was, Last(b'), e, n + 1) && Last(b').procs[1].pc.Idle?
    ensures forall g :: g in Last(b').sh.dir.files <==> g in Last(b).sh.dir.files || g == Last(b').sh.Top()
  {
    assert Last(b).sh.blobs[e.compressedBlake3 := was.sh.now] == Last(b).sh.blobs;
    b' := Stages(c, t, b, e);
  }

  lemma StagesThree(c: Config, t: Allowance, b: seq<State>, e: CacheEntry, x: nat) returns (b': seq<State>)
    requires TimelyBehaviour(c, t, b) && 1 in Last(b).procs && Last(b).procs[1].pc.Idle? && Alive(c, Last(b).sh)
    requires var d := e.compressedBlake3; d in Last(b).sh.blobs ==> Last(b).sh.blobs[d] == Last(b).sh.now
    requires Last(b).sh.Top() == x
    ensures TimelyBehaviour(c, t, b') && StagedSince(c, Last(b), Last(b'), e, 3) && Last(b').procs[1].pc.Idle?
    ensures Holding(Last(b').sh.dir.files, x + 1)
  {
    var b1 := Stages(c, t, b, e);
    var b2 := StagesAgain(c, t, b1, Last(b), e, 1);
    b' := StagesAgain(c, t, b2, Last(b), e, 2);
  }

  /** The fourth time, up to its pruning. */
  lemma StagesFourth(c: Config, t: Allowance, b: seq<State>, was: State, e: CacheEntry) returns (b': seq<State>)
    requires TimelyBehaviour(c, t, b) && StagedSince(c, was, Last(b), e, 3) && Last(b).procs[1].pc.Idle?
    ensures TimelyBehaviour(c, t, b') && StagedSince(c, was, Last(b'), e, 4) && Last(b').procs[1].pc.ListPrune?
    ensures forall g :: g in Last(b').sh.dir.files <==> g in Last(b).sh.dir.files || g == Last(b').sh.Top()
  {
    assert Last(b).sh.blobs[e.compressedBlake3 := was.sh.now] == Last(b).sh.blobs;
    var b1, q := Prepares(c, t, b, 1, e);
    b', q := Commits(c, t, b1, 1, e);
  }

  lemma PrunesFirst(c: Config, t: Allowance, b: seq<State>, was: State, e: CacheEntry, x: nat) returns (b': seq<State>)
    requires TimelyBehaviour(c, t, b) && StagedSince(c, was, Last(b), e, 4) && Last(b).procs[1].pc.ListPrune?
    requires Holding(Last(b).sh.dir.files, x) && x + 3 in Last(b).sh.dir.files
    ensures TimelyBehaviour(c, t, b') && StagedSince(c, was, Last(b'), e, 4) && x !in Last(b').sh.dir.files
  {
    var q;
    b', q := PrunesAway(c, t, b, x);
  }

  lemma StagesFour(c: Config, t: Allowance, b: seq<State>, e: CacheEntry, x: nat) returns (b': seq<State>)
    requires TimelyBehaviour(c, t, b) && 1 in Last(b).procs && Last(b).procs[1].pc.Idle? && Alive(c, Last(b).sh)
    requires var d := e.compressedBlake3; d in Last(b).sh.blobs ==> Last(b).sh.blobs[d] == Last(b).sh.now
    requires Last(b).sh.Top() == x
    ensures TimelyBehaviour(c, t, b') && StagedSince(c, Last(b), Last(b'), e, 4) && x + 1 !in Last(b').sh.dir.files
  {
    var b1 := StagesThree(c, t, b, e, x);
    var b2 := StagesFourth(c, t, b1, Last(b), e);
    b' := PrunesFirst(c, t, b2, Last(b), e, x + 1);
  }

  /** Process 0 has computed a commit over generation `x` that publishes an empty state. */
  ghost predicate Stale(c: Config, q: Process, x: nat, base: CacheState) {
    var pub := Publication(x + 1, EmptyState(c.ns), Commit(base));
    q.op.Reconcile? && q.pc == Link(pub) && q.temp == Some(Document(pub.state))
  }

  /** A launch has read what a stage committed, and is about to discard it. */
  lemma StaleStart(c: Config, t: Allowance) returns (b: seq<State>, x: nat, base: CacheState)
    requires c.floor >= -1
    ensures TimelyBehaviour(c, t, b) && Last(b).procs.Keys == {0, 1} && Last(b).procs[1].pc.Idle?
    ensures Alive(c, Last(b).sh) && Last(b).sh.Top() == x && Stale(c, Last(b).procs[0], x, base)
    ensures forall d :: d in Last(b).sh.blobs ==> Last(b).sh.blobs[d] == Last(b).sh.now
  {
    var first, q := CacheEntry("1", "", 0, None, ""), Process(Op.Observe, Idle, None, 0, 0, false, 0, 0);
    b := QuietStart(c, t);
    b := Stages(c, t, b, first);
    x, base := Last(b).sh.Top(), Last(b).sh.dir.files[Last(b).sh.Top()].state;
    assert base == Staged(EmptyState(c.ns), first) && base.(pending := None) == EmptyState(c.ns);
    b, q := PreparesDiscard(c, t, b, first, "2");
  }

  /** Its link wins at a pruned name, which no reader sees, and its snapshot keeps nothing. */
  lemma StaleWins(c: Config, t: Allowance, b: seq<State>, x: nat, base: CacheState, e: CacheEntry) returns (b': seq<State>)
    requires TimelyBehaviour(c, t, b) && 0 in Last(b).procs && Stale(c, Last(b).procs[0], x, base)
    requires t.lag >= 4 && Last(b).sh.Top() == x + 4 && x + 1 !in Last(b).sh.dir.files && Staging(c, Last(b).sh, e)
    ensures TimelyBehaviour(c, t, b') && Staging(c, Last(b').sh, e)
    ensures Last(b').sh.blobs == Last(b).sh.blobs && Last(b').sh.now == Last(b).sh.now
    ensures 0 in Last(b').procs && Last(b').procs[0].pc == Collect({}, true) && Last(b').procs[0].since == Last(b).sh.now
  {
    var sh, pub := Last(b).sh, Last(b).procs[0].pc.pub;
    assert EmptyState(c.ns).Named() == {};
    b' := Links(c, t, b, 0, pub);
    TopAfterLink(sh, Last(b').sh, pub.generation, Document(pub.state));
  }

  /**
   * A writer four generations behind can win a name that has been pruned. No
   * reader sees what it published, but it then collects by it, and removes blobs
   * that only newer states name. No gap need have any length.
   */
  lemma StaleWinnerLosesBlob(c: Config, t: Allowance, e: CacheEntry) returns (b: seq<State>)
    requires c.floor >= -1 && t.lag >= 4
    ensures TimelyBehaviour(c, t, b) && e.compressedBlake3 in Named(Last(b).sh) && e.compressedBlake3 !in Last(b).sh.blobs
  {
    var x, base;
    b, x, base := StaleStart(c, t);
    b := StagesFour(c, t, b, e, x);
    b := Wait(c, t, b, c.grace);
    b := StaleWins(c, t, b, x, base, e);
    NamesStaged(c, Last(b).sh, e);
    b := Removes(c, t, b, e.compressedBlake3);
  }

  // ---- exactly ------------------------------------------------------------------------------------

  /** Every blob the newest state names is on disk, in every state of every run that keeps to the allowance. */
  ghost predicate AlwaysAvailable(c: Config, t: Allowance) {
    forall b: seq<State>, i :: TimelyBehaviour(c, t, b) && 0 <= i < |b| ==> Named(b[i].sh) <= b[i].sh.blobs.Keys
  }

  /** No part of the allowance can be given up, and no more is needed. */
  lemma AvailableExactly(c: Config, t: Allowance)
    requires c.floor >= -1
    ensures AlwaysAvailable(c, t) <==> t.commit + t.scan < c.grace && t.lag <= 3 && !(t.foreign && c.floor >= 0)
  {
    if Safe(c, t) {
      forall b: seq<State>, i | TimelyBehaviour(c, t, b) && 0 <= i < |b| ensures Named(b[i].sh) <= b[i].sh.blobs.Keys {
        ReachableAge(c, t, b, i);
      }
    } else {
      var b := Losing(c, t, CacheEntry("", "", 0, None, ""));
      assert TimelyBehaviour(c, t, b) && !(Named(b[|b| - 1].sh) <= b[|b| - 1].sh.blobs.Keys);
    }
  }

  lemma Losing(c: Config, t: Allowance, e: CacheEntry) returns (b: seq<State>)
    requires c.floor >= -1 && !Safe(c, t)
    ensures TimelyBehaviour(c, t, b) && e.compressedBlake3 in Named(Last(b).sh) && e.compressedBlake3 !in Last(b).sh.blobs
  {
    if t.commit + t.scan >= c.grace {
      b := BlobCanVanish(c, t, e);
    } else if t.lag >= 4 {
      b := StaleWinnerLosesBlob(c, t, e);
    } else {
      b := ResetLosesBlob(c, t, e);
    }
  }
}
