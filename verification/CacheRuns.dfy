/** Building runs of the machine one step of one process at a time. */
module CacheRuns {
  import opened Prelude
  import opened CacheTypes
  import opened StateDirectory
  import opened CacheMachine
  import opened CacheInvariant

  ghost function Last(b: seq<State>): State
    requires |b| > 0
  {
    b[|b| - 1]
  }

  /** Some process finds nothing usable under the generation it listed. */
  ghost predicate ReadFails(s: State, s': State) {
    exists p :: p in s.procs && p in s'.procs && s.procs[p].pc.Read? && s'.procs[p].pc.Relist?
  }

  /** No read fails from state `k` of the run on. */
  ghost predicate ReadsSucceed(b: seq<State>, k: nat) {
    forall i :: k <= i < |b| - 1 ==> !ReadFails(b[i], b[i + 1])
  }

  /** `b'` is a run that goes on from `b` without a failing read. */
  ghost predicate Continues(c: Config, b: seq<State>, b': seq<State>) {
    0 < |b| && b <= b' && Behaviour(c, b') && ReadsSucceed(b', |b| - 1)
  }

  lemma ContinuesOn(c: Config, b: seq<State>, b': seq<State>, b'': seq<State>)
    requires Continues(c, b, b') && Continues(c, b', b'')
    ensures Continues(c, b, b'')
  {
    forall i | |b| - 1 <= i < |b''| - 1 ensures !ReadFails(b''[i], b''[i + 1]) {
      if i < |b'| - 1 {
        assert b''[i] == b'[i] && b''[i + 1] == b'[i + 1];
      }
    }
  }

  /** One more step of process `p`. */
  lemma Extend(c: Config, b: seq<State>, p: nat, sh': Shared, q': Process) returns (b': seq<State>)
    requires Behaviour(c, b) && p in Last(b).procs
    requires ProcessStep(c, Last(b).sh, Last(b).procs[p], sh', q')
    ensures Behaviour(c, b') && b' == b + [State(sh', Last(b).procs[p := q'])] && Step(c, Last(b), Last(b'), p)
    ensures !(Last(b).procs[p].pc.Read? && q'.pc.Relist?) ==> Continues(c, b, b')
  {
    var s' := State(sh', Last(b).procs[p := q']);
    b' := b + [s'];
    assert Step(c, Last(b), s', p);
    forall i | 0 <= i < |b'| - 1 ensures Next(c, b'[i], b'[i + 1]) {
      if i < |b| - 1 {
        assert b'[i] == b[i] && b'[i + 1] == b[i + 1];
      }
    }
  }

  /** Process `p` has `pub` under way: its temporary file is still to be created, to be completed, or to be linked. */
  predicate Publishing(q: Process, pub: Publication) {
    q.pc == Write(pub) || q.pc == Sync(pub) || (q.pc == Link(pub) && q.temp == Some(Document(pub.state)))
  }

  /** The temporary file is completed. */
  lemma Prepare(c: Config, b: seq<State>, p: nat, pub: Publication) returns (b': seq<State>)
    requires Behaviour(c, b) && p in Last(b).procs && Publishing(Last(b).procs[p], pub)
    ensures |b'| >= |b| && Continues(c, b, b')
    ensures Last(b').sh == Last(b).sh
    ensures Last(b').procs == Last(b).procs[p := Last(b).procs[p].(pc := Link(pub), temp := Some(Document(pub.state)))]
    decreases if Last(b).procs[p].pc.Write? then 1 else 0
  {
    var q, sh := Last(b).procs[p], Last(b).sh;
    match q.pc
    case Write(_) =>
      var b1 := Extend(c, b, p, sh, q.(pc := Sync(pub), temp := Some(Garbage)));
      b' := Prepare(c, b1, p, pub);
      ContinuesOn(c, b, b1, b');
    case Sync(_) =>
      b' := Extend(c, b, p, sh, q.(pc := Link(pub), temp := Some(Document(pub.state))));
    case _ =>
      b' := b;
  }

  /** And linked: the last step of a publication at the next generation. */
  lemma Publish(c: Config, b: seq<State>, p: nat, pub: Publication) returns (b': seq<State>)
    requires Behaviour(c, b) && p in Last(b).procs && Publishing(Last(b).procs[p], pub)
    requires pub.generation == Last(b).sh.Top() + 1
    ensures |b'| > |b| && Continues(c, b, b')
    ensures var was, now, s := Last(b), Last(b'), b'[|b'| - 2];
            && now.sh == Linked(was.procs[p].op, pub, was.sh) && now.sh.Top() == pub.generation
            && now.procs == was.procs[p := was.procs[p].(pc := Unlink(pub, true), since := was.sh.now, temp := Some(Document(pub.state)))]
            && s.sh == was.sh && p in s.procs && s.procs[p].pc == Link(pub)
            && Step(c, s, now, p) && LinkStep(s.sh, s.procs[p], now.sh, now.procs[p])
  {
    var b1 := Prepare(c, b, p, pub);
    var q, sh := Last(b1).procs[p], Last(b1).sh;
    AboveNewest(sh.dir);
    var sh' := Linked(q.op, pub, sh);
    var q' := q.(pc := Unlink(pub, true), since := sh.now);
    assert LinkStep(sh, q, sh', q');
    b' := Extend(c, b1, p, sh', q');
    ContinuesOn(c, b, b1, b');
    TopAfterLink(sh, sh', pub.generation, Document(pub.state));
  }

  /** The shared state once `pub` is linked. */
  ghost function Linked(op: Op, pub: Publication, sh: Shared): Shared {
    Recorded(op, pub, sh.(dir := sh.dir.(files := sh.dir.files[pub.generation := Document(pub.state)])))
  }
}
