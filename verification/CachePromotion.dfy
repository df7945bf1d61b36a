/** Which entries a run can ever make ACTIVE. */
module CachePromotion {
  import opened Prelude
  import opened CacheTypes
  import opened StateDirectory
  import opened CacheMachine
  import opened CacheInvariant

  /** Process `p` wins the link of a commit between `s` and `s'`. */
  ghost predicate Commits(c: Config, s: State, s': State, p: nat) {
    && Step(c, s, s', p)
    && LinkStep(s.sh, s.procs[p], s'.sh, s'.procs[p])
    && s.procs[p].pc.pub.purpose.Commit?
    && s.procs[p].pc.pub.generation !in s.sh.dir.files
  }

  /** A `stage_pending` of `e` commits. */
  ghost predicate StageCommits(c: Config, s: State, s': State, e: CacheEntry) {
    exists p :: Commits(c, s, s', p) && s.procs[p].op == Stage(e)
  }

  /** A `reconcile` that was told `e.version` is running commits over a state whose PENDING is `e`. */
  ghost predicate ReconcileCommits(c: Config, s: State, s': State, e: CacheEntry) {
    exists p :: Commits(c, s, s', p) && s.procs[p].op == Reconcile(e.version)
             && s.procs[p].pc.pub.purpose.base.pending == Some(e)
  }

  ghost predicate StagedBefore(c: Config, b: seq<State>, e: CacheEntry, k: nat) {
    exists i :: 0 <= i < k && i + 1 < |b| && StageCommits(c, b[i], b[i + 1], e)
  }

  lemma {:induction false} HistoryGrows(c: Config, s: State, s': State, e: CacheEntry)
    requires Next(c, s, s')
    ensures e in s'.sh.staged ==> e in s.sh.staged || StageCommits(c, s, s', e)
    ensures e in s'.sh.promoted ==> e in s.sh.promoted || ReconcileCommits(c, s, s', e)
  {
    if !Tick(s, s') {
      var p :| Step(c, s, s', p);
      if s'.sh.staged != s.sh.staged || s'.sh.promoted != s.sh.promoted {
        assert LinkStep(s.sh, s.procs[p], s'.sh, s'.procs[p]);
        assert Commits(c, s, s', p);
      }
    }
  }

  lemma {:induction false} StagedIsRecorded(c: Config, b: seq<State>, e: CacheEntry, k: nat)
    requires Behaviour(c, b) && k < |b| && e in b[k].sh.staged
    ensures e in b[0].sh.staged || StagedBefore(c, b, e, k)
  {
    if k > 0 {
      assert Next(c, b[k - 1], b[k - 1 + 1]);
      HistoryGrows(c, b[k - 1], b[k], e);
      if e in b[k - 1].sh.staged {
        StagedIsRecorded(c, b, e, k - 1);
        if StagedBefore(c, b, e, k - 1) {
          var i :| 0 <= i < k - 1 && i + 1 < |b| && StageCommits(c, b[i], b[i + 1], e);
          assert StagedBefore(c, b, e, k);
        }
      } else {
        assert StageCommits(c, b[k - 1], b[k - 1 + 1], e);
      }
    }
  }

  lemma {:induction false} PromotedIsRecorded(c: Config, b: seq<State>, e: CacheEntry, k: nat) returns (j: nat)
    requires Behaviour(c, b) && k < |b| && e in b[k].sh.promoted && e !in b[0].sh.promoted
    ensures j < k && j + 1 < |b| && ReconcileCommits(c, b[j], b[j + 1], e)
  {
    if k == 0 {
      assert false;
    } else {
      assert Next(c, b[k - 1], b[k - 1 + 1]);
      HistoryGrows(c, b[k - 1], b[k], e);
      if e in b[k - 1].sh.promoted {
        j := PromotedIsRecorded(c, b, e, k - 1);
      } else {
        j := k - 1;
      }
    }
  }

  /**
   * In every generation file of every reachable state, ACTIVE is an entry found
   * live at the start, or one that some `stage_pending` committed and that some
   * `reconcile` running that very version later committed as ACTIVE.
   */
  lemma {:induction false} PromotionSafety(c: Config, b: seq<State>, k: nat, g: nat)
    requires Behaviour(c, b) && k < |b| && g in b[k].sh.dir.files
    requires var body := b[k].sh.dir.files[g];
             body.Readable() && body.state.ns == c.ns && body.state.active.Some?
    ensures var e := b[k].sh.dir.files[g].state.active.value;
            || e in b[0].sh.promoted
            || exists j :: 0 <= j < k && j + 1 < |b| && ReconcileCommits(c, b[j], b[j + 1], e)
                        && (e in b[0].sh.staged || StagedBefore(c, b, e, j))
  {
    ReachableInv(c, b, k);
    var e := b[k].sh.dir.files[g].state.active.value;
    assert KnownBody(c, b[k].sh, b[k].sh.dir.files[g]);
    if e !in b[0].sh.promoted {
      var j := PromotedIsRecorded(c, b, e, k);
      PromotedWasStaged(c, b, e, j);
    }
  }

  /** What a reconcile commits as ACTIVE had been staged. */
  lemma PromotedWasStaged(c: Config, b: seq<State>, e: CacheEntry, j: nat)
    requires Behaviour(c, b) && j + 1 < |b| && ReconcileCommits(c, b[j], b[j + 1], e)
    ensures e in b[0].sh.staged || StagedBefore(c, b, e, j)
  {
    ReachableInv(c, b, j);
    CommittedIsKnown(c, b[j], b[j + 1], e);
    StagedIsRecorded(c, b, e, j);
  }

  lemma CommittedIsKnown(c: Config, s: State, s': State, e: CacheEntry)
    requires Inv(c, s) && ReconcileCommits(c, s, s', e)
    ensures e in s.sh.staged
  {
    var p :| Commits(c, s, s', p) && s.procs[p].op == Reconcile(e.version) && s.procs[p].pc.pub.purpose.base.pending == Some(e);
    assert ProcInv(c, s.sh, s.procs[p]);
  }

  /**
   * `current` only returns states of the live namespace. Its first read checks
   * the namespace; the read after a lost reset does not, and needs no check.
   */
  lemma {:induction false} CurrentReturnsLive(c: Config, b: seq<State>, i: nat, p: nat)
    requires Behaviour(c, b) && i < |b| && p in b[i].procs
    requires b[i].procs[p].pc.Read?
    requires var g := b[i].procs[p].pc.generation;
             g in b[i].sh.dir.files && b[i].sh.dir.files[g].Readable()
    ensures var g := b[i].procs[p].pc.generation;
            var state := b[i].sh.dir.files[g].state;
            b[i].procs[p].second ==> state.ns == c.ns && g > c.floor
  {
    ReachableInv(c, b, i);
    assert ProcInv(c, b[i].sh, b[i].procs[p]);
  }

  /** Every generation name published by a live process refers to a complete document. */
  lemma {:induction false} NeverPartial(c: Config, b: seq<State>, i: nat, g: nat)
    requires Behaviour(c, b) && i < |b| && g in b[i].sh.dir.files && g > b[0].sh.Top()
    ensures b[i].sh.dir.files[g].Readable() && b[i].sh.dir.files[g].state.ns == c.ns
  {
    ReachableInv(c, b, i);
  }
}
