/**
 * What the cache protocol does not promise, shown by runs of the machine. A
 * staged entry can be lost to a reset, after a read that fails or after one that
 * comes too late; `CacheResets` says when it cannot. A blob that was already old
 * when it was staged can be collected although the newest state names it.
 */
module CacheLosses {
  import opened Prelude
  import opened CacheTypes
  import opened StateDirectory
  import opened CacheMachine
  import opened CacheInvariant
  import opened CacheRuns
  import opened CacheResets
  import opened StateStores
  import R = CacheRefinement
  import opened CacheBlobAge

  // ---- a failed read ------------------------------------------------------------

  /** Process `p` starts an operation on the state and lists the newest generation. */
  lemma Listed(c: Config, b: seq<State>, p: nat) returns (b': seq<State>)
    requires Behaviour(c, b) && p in Last(b).procs && Last(b).procs[p].pc.Idle? && Last(b).sh.Top() >= 0
    ensures |b'| > |b| && Continues(c, b, b') && Last(b').sh == Last(b).sh
    ensures p in Last(b').procs && Last(b').procs == Last(b).procs[p := Last(b').procs[p]]
    ensures Last(b').procs[p].pc == Read(Last(b).sh.Top())
  {
    var sh, q := Last(b).sh, Last(b).procs[p];
    var q1 := Process(Op.Observe, Load, None, 0, 0, false, q.since, q.wrote);
    var b1 := Extend(c, b, p, sh, q1);
    b' := Extend(c, b1, p, sh, q1.(since := sh.now, pc := Read(sh.Top())));
    ContinuesOn(c, b, b1, b');
  }

  /**
   * A staged entry can be lost to one failed read. In any run whose newest
   * generation stages something, a process whose read of that generation fails
   * publishes an empty state above it: neither promoted nor discarded, the
   * entry is gone. `CacheResets.StagedIsKept` is what holds otherwise.
   */
  lemma StagedEntryCanBeLost(c: Config, b: seq<State>, p: nat, e: CacheEntry) returns (b': seq<State>)
    requires Behaviour(c, b) && p in Last(b).procs && Last(b).procs[p].pc.Idle? && Staging(c, Last(b).sh, e)
    ensures Behaviour(c, b') && |b'| > |b| && b <= b' && ResetsAt(c, b', |b'| - 2)
    ensures R.Observe(c, Last(b').sh) == R.Observation(Last(b).sh.Top() + 1, Some(R.Slots(None, None)))
    ensures Last(b').sh.staged == Last(b).sh.staged && Last(b').sh.promoted == Last(b).sh.promoted
  {
    var b1 := Listed(c, b, p);
    var b2 := Extend(c, b1, p, Last(b1).sh, Last(b1).procs[p].(pc := Relist));
    b' := ArmedResets(c, b2, p);
  }

  // ---- a generation pruned before it is read ----------------------------------------

  /** Process `r` stages `e`, up to the pruning that follows its commit. */
  lemma StageOnce(c: Config, b: seq<State>, r: nat, e: CacheEntry) returns (b': seq<State>)
    requires Behaviour(c, b) && r in Last(b).procs && Last(b).procs[r].pc.Idle? && Alive(c, Last(b).sh)
    ensures |b'| > |b| && Continues(c, b, b') && Staging(c, Last(b').sh, e)
    ensures Last(b').sh.Top() == Last(b).sh.Top() + 1
    ensures r in Last(b').procs && Last(b').procs == Last(b).procs[r := Last(b').procs[r]] && Last(b').procs[r].pc.ListPrune?
  {
    var b1, pub := StageReady(c, b, r, e);
    b' := StageDone(c, b1, r, e, pub);
    ContinuesOn(c, b, b1, b');
  }

  lemma StageDone(c: Config, b: seq<State>, r: nat, e: CacheEntry, pub: Publication) returns (b': seq<State>)
    requires Behaviour(c, b) && r in Last(b).procs && Last(b).procs[r].pc == Write(pub) && Last(b).procs[r].op == Op.Stage(e)
    requires pub.generation == Last(b).sh.Top() + 1 && pub.purpose.Commit?
    ensures |b'| > |b| && Continues(c, b, b') && Last(b').sh == Linked(Op.Stage(e), pub, Last(b).sh)
    ensures Last(b').sh.Top() == pub.generation
    ensures r in Last(b').procs && Last(b').procs == Last(b).procs[r := Last(b').procs[r]] && Last(b').procs[r].pc.ListPrune?
  {
    var b1 := Publish(c, b, r, pub);
    b' := Extend(c, b1, r, Last(b1).sh, Won(c, Last(b1).procs[r].(temp := None), pub));
    ContinuesOn(c, b, b1, b');
  }

  /** It has put its blob and read the newest state. */
  lemma StageReady(c: Config, b: seq<State>, r: nat, e: CacheEntry) returns (b': seq<State>, pub: Publication)
    requires Behaviour(c, b) && r in Last(b).procs && Last(b).procs[r].pc.Idle? && Alive(c, Last(b).sh)
    ensures |b'| > |b| && Continues(c, b, b') && Last(b').sh.dir == Last(b).sh.dir
    ensures e.compressedBlake3 in Last(b).sh.blobs ==> Last(b').sh == Last(b).sh
    ensures r in Last(b').procs && Last(b').procs == Last(b).procs[r := Last(b').procs[r]]
    ensures Last(b').procs[r].pc == Write(pub) && Last(b').procs[r].op == Op.Stage(e)
    ensures var sh := Last(b).sh; var state := sh.dir.files[sh.Top()].state;
            pub == Publication(sh.Top() + 1, Staged(state, e), Commit(state))
  {
    var b1 := BlobPut(c, b, r, e);
    b', pub := StateRead(c, b1, r, e);
    ContinuesOn(c, b, b1, b');
  }

  lemma StateRead(c: Config, b: seq<State>, r: nat, e: CacheEntry) returns (b': seq<State>, pub: Publication)
    requires Behaviour(c, b) && r in Last(b).procs && Alive(c, Last(b).sh)
    requires Last(b).procs[r].pc.Load? && Last(b).procs[r].op == Op.Stage(e) && !Last(b).procs[r].second
    ensures |b'| > |b| && Continues(c, b, b') && Last(b').sh == Last(b).sh
    ensures r in Last(b').procs && Last(b').procs == Last(b).procs[r := Last(b').procs[r]]
    ensures Last(b').procs[r].pc == Write(pub) && Last(b').procs[r].op == Op.Stage(e)
    ensures var sh := Last(b).sh; var state := sh.dir.files[sh.Top()].state;
            pub == Publication(sh.Top() + 1, Staged(state, e), Commit(state))
  {
    var sh, q := Last(b).sh, Last(b).procs[r];
    var top, state := sh.Top(), sh.dir.files[sh.Top()].state;
    var q1 := q.(since := sh.now, pc := Read(top));
    var b1 := Extend(c, b, r, sh, q1);
    pub := Publication(top + 1, Staged(state, e), Commit(state));
    assert Have(c, q1, top, state) == q1.(pc := Write(pub));
    b' := Extend(c, b1, r, sh, q1.(pc := Write(pub)));
    ContinuesOn(c, b, b1, b');
  }

  lemma BlobPut(c: Config, b: seq<State>, r: nat, e: CacheEntry) returns (b': seq<State>)
    requires Behaviour(c, b) && r in Last(b).procs && Last(b).procs[r].pc.Idle?
    ensures |b'| > |b| && Continues(c, b, b') && Last(b').sh.dir == Last(b).sh.dir && Last(b').sh.now == Last(b).sh.now
    ensures e.compressedBlake3 in Last(b).sh.blobs ==> Last(b').sh == Last(b).sh
    ensures r in Last(b').procs && Last(b').procs == Last(b).procs[r := Last(b').procs[r]]
    ensures Last(b').procs[r].pc.Load? && Last(b').procs[r].op == Op.Stage(e) && !Last(b').procs[r].second
  {
    var sh, was := Last(b).sh, Last(b).procs[r];
    var q := Process(Op.Stage(e), PutWrite, None, 0, 0, false, was.since, was.wrote);
    var b1 := Extend(c, b, r, sh, q);
    q := q.(pc := PutLink, wrote := sh.now);
    var b2 := Extend(c, b1, r, sh, q);
    ContinuesOn(c, b, b1, b2);
    var address := e.compressedBlake3;
    var found := address in sh.blobs;
    var sh' := if found then sh else sh.(blobs := sh.blobs[address := q.wrote]);
    b' := Extend(c, b2, r, sh', q.(pc := Load, wrote := if found then sh.blobs[address] else q.wrote));
    ContinuesOn(c, b, b2, b');
  }

  /** Its pruning removes everything it set out to remove. */
  lemma {:induction false} PruneThrough(c: Config, b: seq<State>, r: nat) returns (b': seq<State>)
    requires Behaviour(c, b) && r in Last(b).procs && Last(b).procs[r].pc.Prune?
    ensures |b'| > |b| && Continues(c, b, b') && R.Observe(c, Last(b').sh) == R.Observe(c, Last(b).sh)
    ensures forall g :: g in Last(b').sh.dir.files <==> g in Last(b).sh.dir.files && g !in Last(b).procs[r].pc.todo
    ensures r in Last(b').procs && Last(b').procs == Last(b).procs[r := Last(b').procs[r]] && Last(b').procs[r].pc.Idle?
    decreases |Last(b).procs[r].pc.todo|
  {
    var sh, q := Last(b).sh, Last(b).procs[r];
    var todo := q.pc.todo;
    if todo == [] {
      b' := Extend(c, b, r, sh, q.(pc := Idle));
    } else {
      var b1 := PruneOne(c, b, r, todo);
      b' := PruneThrough(c, b1, r);
      ContinuesOn(c, b, b1, b');
      assert todo == [todo[0]] + todo[1..];
    }
  }

  lemma PruneOne(c: Config, b: seq<State>, r: nat, todo: seq<nat>) returns (b': seq<State>)
    requires Behaviour(c, b) && r in Last(b).procs && todo != [] && Last(b).procs[r].pc == Prune(todo)
    ensures |b'| > |b| && Continues(c, b, b') && R.Observe(c, Last(b').sh) == R.Observe(c, Last(b).sh)
    ensures Last(b').sh.dir.files == Last(b).sh.dir.files - {todo[0]}
    ensures Last(b').procs == Last(b).procs[r := Last(b).procs[r].(pc := Prune(todo[1..]))]
  {
    var sh, q := Last(b).sh, Last(b).procs[r];
    var sh' := sh.(dir := sh.dir.(files := sh.dir.files - {todo[0]}));
    var q' := q.(pc := Prune(todo[1..]));
    PrunedUnseen(c, b, r, sh, q, sh', q');
    b' := Extend(c, b, r, sh', q');
  }

  lemma PrunedUnseen(c: Config, b: seq<State>, r: nat, sh: Shared, q: Process, sh': Shared, q': Process)
    requires Behaviour(c, b) && r in Last(b).procs && sh == Last(b).sh && q == Last(b).procs[r]
    requires PruneStep(sh, q, sh', q')
    ensures R.Observe(c, sh) == R.Observe(c, sh')
  {
    ReachableInv(c, b, |b| - 1);
    assert ProcInv(c, sh, q);
    R.PruneUnseen(c, sh, q, sh', q');
  }

  lemma {:induction false} SequenceOf(m: multiset<nat>) returns (s: seq<nat>)
    ensures multiset(s) == m
    decreases |m|
  {
    if m == multiset{} {
      s := [];
    } else {
      var x :| x in m;
      s := SequenceOf(m - multiset{x});
      s := s + [x];
    }
  }

  lemma ListingExists(d: Directory) returns (found: seq<nat>)
    ensures IsListing(d, found)
  {
    var names := SequenceOf(multiset(d.files.Keys) + d.strays);
    SortUnstableSorts(names);
    found := SortUnstable(names);
  }

  /** A generation with three later ones listed is superseded. */
  lemma ThreeLater(d: Directory, found: seq<nat>, g: nat)
    requires IsListing(d, found) && {g, g + 1, g + 2, g + 3} <= d.files.Keys
    ensures g in Superseded(found, PRUNE_KEEP)
  {
    ListingMembers(d, found);
    assert g in found && g + 1 in found && g + 2 in found && g + 3 in found;
    var i, i1 :| 0 <= i < |found| && found[i] == g && 0 <= i1 < |found| && found[i1] == g + 1;
    var i2, i3 :| 0 <= i2 < |found| && found[i2] == g + 2 && 0 <= i3 < |found| && found[i3] == g + 3;
    assert i < i1 < i2 < i3;
    assert Superseded(found, PRUNE_KEEP)[i] == g;
  }

  /** Process `r` stages `e` and prunes, and is idle again. */
  lemma StageAndPrune(c: Config, b: seq<State>, r: nat, e: CacheEntry) returns (b': seq<State>)
    requires Behaviour(c, b) && r in Last(b).procs && Last(b).procs[r].pc.Idle? && Alive(c, Last(b).sh)
    ensures |b'| > |b| && Continues(c, b, b') && Staging(c, Last(b').sh, e)
    ensures Last(b').sh.Top() == Last(b).sh.Top() + 1
    ensures r in Last(b').procs && Last(b').procs == Last(b).procs[r := Last(b').procs[r]] && Last(b').procs[r].pc.Idle?
    ensures Last(b').sh.Top() - 3 >= c.floor ==> Last(b').sh.Top() - 3 !in Last(b').sh.dir.files
  {
    var b1 := StageOnce(c, b, r, e);
    b' := PruneAfter(c, b1, r);
    ContinuesOn(c, b, b1, b');
  }

  lemma PruneAfter(c: Config, b: seq<State>, r: nat) returns (b': seq<State>)
    requires Behaviour(c, b) && r in Last(b).procs && Last(b).procs[r].pc.ListPrune?
    ensures |b'| > |b| && Continues(c, b, b') && R.Observe(c, Last(b').sh) == R.Observe(c, Last(b).sh)
    ensures r in Last(b').procs && Last(b').procs == Last(b).procs[r := Last(b').procs[r]] && Last(b').procs[r].pc.Idle?
    ensures Last(b).sh.Top() - 3 >= c.floor ==> Last(b).sh.Top() - 3 !in Last(b').sh.dir.files
  {
    var b1, todo := PruneListed(c, b, r);
    b' := PruneThrough(c, b1, r);
    ContinuesOn(c, b, b1, b');
  }

  lemma PruneListed(c: Config, b: seq<State>, r: nat) returns (b': seq<State>, todo: seq<nat>)
    requires Behaviour(c, b) && r in Last(b).procs && Last(b).procs[r].pc.ListPrune?
    ensures |b'| > |b| && Continues(c, b, b') && Last(b').sh == Last(b).sh
    ensures Last(b').procs == Last(b).procs[r := Last(b).procs[r].(pc := Prune(todo))]
    ensures var g := Last(b).sh.Top() - 3; g >= c.floor && g in Last(b).sh.dir.files ==> g in todo
  {
    var sh, q := Last(b).sh, Last(b).procs[r];
    var found := ListingExists(sh.dir);
    FourthGoes(c, b, sh, found);
    todo := Superseded(found, PRUNE_KEEP);
    assert ListPruneStep(sh, q, sh, q.(pc := Prune(todo)));
    b' := Extend(c, b, r, sh, q.(pc := Prune(todo)));
  }

  lemma FourthGoes(c: Config, b: seq<State>, sh: Shared, found: seq<nat>)
    requires Behaviour(c, b) && sh == Last(b).sh && IsListing(sh.dir, found)
    ensures var g := sh.Top() - 3;
            g >= c.floor && g in sh.dir.files ==> g in Superseded(found, PRUNE_KEEP)
  {
    ReachableInv(c, b, |b| - 1);
    var g := sh.Top() - 3;
    if g >= c.floor && g in sh.dir.files {
      ThreeLater(sh.dir, found, g);
    }
  }

  /** Every read that fails from state `k` on finds its generation gone. */
  ghost predicate OnlyMissing(b: seq<State>, k: nat) {
    forall i :: k <= i < |b| - 1 && ReadFails(b[i], b[i + 1]) ==> Misses(b[i], b[i + 1])
  }

  ghost predicate Misses(s: State, s': State) {
    exists p :: p in s.procs && p in s'.procs && s.procs[p].pc.Read? && s'.procs[p].pc.Relist?
                && s.procs[p].pc.generation !in s.sh.dir.files
  }

  lemma MissingAfter(c: Config, b: seq<State>, b1: seq<State>, b2: seq<State>, b3: seq<State>)
    requires Continues(c, b, b1) && b1 <= b2 && |b2| == |b1| + 1 && Misses(Last(b1), Last(b2)) && Continues(c, b2, b3)
    ensures OnlyMissing(b3, |b| - 1)
  {
    forall i | |b| - 1 <= i < |b3| - 1 ensures ReadFails(b3[i], b3[i + 1]) ==> Misses(b3[i], b3[i + 1]) {
      if i < |b1| - 1 {
        assert b3[i] == b1[i] && b3[i + 1] == b1[i + 1];
      } else if i == |b1| - 1 {
        assert b3[i] == Last(b1) && b3[i + 1] == Last(b2);
      }
    }
  }

  /**
   * No call need fail. In any run with a live newest generation, a process that
   * listed it and was then slow while another staged three times finds it
   * pruned, lists again, and publishes an empty state above what is staged.
   * By `CacheResets.MissingMeansOvertaken` fewer than three would not do.
   */
  lemma PrunedReadLosesEntry(c: Config, b: seq<State>, p: nat, r: nat, e: CacheEntry) returns (b': seq<State>)
    requires Behaviour(c, b) && Alive(c, Last(b).sh) && p != r && p in Last(b).procs && r in Last(b).procs
    requires Last(b).procs[p].pc.Idle? && Last(b).procs[r].pc.Idle?
    ensures Behaviour(c, b') && b <= b' && OnlyMissing(b', |b| - 1)
    ensures |b'| > 1 && Staging(c, b'[|b'| - 2].sh, e) && ResetsAt(c, b', |b'| - 2)
    ensures R.Observe(c, Last(b').sh) == R.Observation(Last(b).sh.Top() + 4, Some(R.Slots(None, None)))
  {
    var b1 := Listed(c, b, p);
    var b2 := StagedThrice(c, b1, r, e);
    ContinuesOn(c, b, b1, b2);
    b' := MissAndReset(c, b, b2, p);
  }

  lemma MissAndReset(c: Config, b: seq<State>, b1: seq<State>, p: nat) returns (b': seq<State>)
    requires Continues(c, b, b1) && p in Last(b1).procs && Last(b1).procs[p].pc.Read?
    requires Last(b1).procs[p].pc.generation !in Last(b1).sh.dir.files
    ensures Behaviour(c, b') && |b'| > 1 && b1 <= b' && OnlyMissing(b', |b| - 1)
    ensures ResetsAt(c, b', |b'| - 2) && b'[|b'| - 2].sh == Last(b1).sh
    ensures R.Observe(c, Last(b').sh) == R.Observation(Last(b1).sh.Top() + 1, Some(R.Slots(None, None)))
  {
    var b2 := Extend(c, b1, p, Last(b1).sh, Last(b1).procs[p].(pc := Relist));
    assert Misses(Last(b1), Last(b2));
    b' := ArmedResets(c, b2, p);
    MissingAfter(c, b, b1, b2, b');
  }

  lemma StagedThrice(c: Config, b: seq<State>, r: nat, e: CacheEntry) returns (b': seq<State>)
    requires Behaviour(c, b) && r in Last(b).procs && Last(b).procs[r].pc.Idle? && Alive(c, Last(b).sh)
    ensures |b'| > |b| && Continues(c, b, b') && Staging(c, Last(b').sh, e)
    ensures r in Last(b').procs && Last(b').procs == Last(b).procs[r := Last(b').procs[r]]
    ensures Last(b').sh.Top() == Last(b).sh.Top() + 3 && Last(b).sh.Top() !in Last(b').sh.dir.files
  {
    var b1 := StageAndPrune(c, b, r, e);
    var b2 := StageAndPrune(c, b1, r, e);
    ContinuesOn(c, b, b1, b2);
    b' := StageAndPrune(c, b2, r, e);
    ContinuesOn(c, b, b2, b');
    ReachableInv(c, b, |b| - 1);
  }

  // ---- a blob that was already there ----------------------------------------------------

  /** An opened directory: one empty live generation, one blob `d` at least as old as the grace period, two idle processes. */
  ghost function OldBlob(c: Config, d: string): State {
    var idle := Process(Op.Observe, Idle, None, 0, 0, false, 0, 0);
    State(Shared(Directory(map[0 := Document(EmptyState(c.ns))], multiset{}), map[d := 0], c.grace, {}, {}),
          map[0 := idle, 1 := idle])
  }

  lemma OldBlobStarts(c: Config, d: string)
    requires c.floor == 0
    ensures Behaviour(c, [OldBlob(c, d)]) && OldBlob(c, d).sh.Top() == 0
  {
    NewestIs(OldBlob(c, d).sh.dir.Listed(), 0);
  }

  /** Process 0 starts a reconcile and takes its snapshot of the state: nothing named, nothing to keep. */
  lemma SnapshotTaken(c: Config, d: string) returns (b: seq<State>)
    requires c.floor == 0
    ensures Behaviour(c, b) && Last(b).sh == OldBlob(c, d).sh && b[0] == OldBlob(c, d)
    ensures Last(b).procs.Keys == {0, 1} && Last(b).procs[1] == OldBlob(c, d).procs[1]
    ensures Last(b).procs[0].pc == Collect({}, false)
  {
    OldBlobStarts(c, d);
    b := [OldBlob(c, d)];
    var sh := OldBlob(c, d).sh;
    var q := Process(Reconcile("running"), Load, None, 0, 0, false, 0, 0);
    b := Extend(c, b, 0, sh, q);
    q := q.(since := sh.now, pc := Read(0));
    b := Extend(c, b, 0, sh, q);
    q := q.(pc := Collect({}, false));
    assert EmptyState(c.ns).Named() == {};
    assert Have(c, q.(pc := Read(0)), 0, EmptyState(c.ns)) == q;
    b := Extend(c, b, 0, sh, q);
  }

  /** Process 1 stages `e`, whose blob is already on disk, and commits it. */
  lemma OldBlobStaged(c: Config, e: CacheEntry) returns (b: seq<State>)
    requires c.floor == 0
    ensures Behaviour(c, b) && Last(b).procs.Keys == {0, 1} && Last(b).procs[0].pc == Collect({}, false)
    ensures b[0] == OldBlob(c, e.compressedBlake3)
    ensures Last(b).sh.blobs == map[e.compressedBlake3 := 0] && Last(b).sh.now == c.grace
    ensures e.compressedBlake3 in Named(Last(b).sh)
  {
    var d := e.compressedBlake3;
    b := SnapshotTaken(c, d);
    OldBlobStarts(c, d);
    var pub;
    b, pub := StageReady(c, b, 1, e);
    b := Publish(c, b, 1, pub);
  }

  /**
   * Staging an artifact whose blob is already there does not make it young
   * again. Whatever the grace period, and with no time passing at all between
   * write and commit or snapshot and scan, a collector whose snapshot came first
   * removes a blob the newest state names. So base availability has to measure a
   * commit from when the blob was written, not from when it was staged.
   */
  lemma OldBlobCanVanish(c: Config, e: CacheEntry) returns (b: seq<State>)
    requires c.floor == 0
    ensures Behaviour(c, b) && Last(b).sh.now == b[0].sh.now
    ensures e.compressedBlake3 in Named(Last(b).sh) && e.compressedBlake3 !in Last(b).sh.blobs
  {
    b := OldBlobStaged(c, e);
    var sh, q := Last(b).sh, Last(b).procs[0];
    var q1 := q.(pc := Sweep({}, false, sh.now));
    b := Extend(c, b, 0, sh, q1);
    var sh' := sh.(blobs := sh.blobs - {e.compressedBlake3});
    assert Expendable(c, sh, {}, sh.now, e.compressedBlake3);
    b := Extend(c, b, 0, sh', q1);
    assert sh'.dir == sh.dir;
  }
}
