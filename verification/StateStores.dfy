/**
 * The store of states as numbered files (crates/delta-core/src/cache/state.rs).
 *
 * Every filesystem call is preceded by whatever other processes did since the
 * last one: `others` is an arbitrary function, so a contract proved here holds
 * against any interference. `faults` decides which calls fail.
 */
module StateStores {
  import opened Prelude
  import opened Numerals
  import opened Text
  import opened CacheTypes
  import opened StateDirectory

  datatype CasError = Conflict | Failed(error: CacheError)

  datatype Versioned = Versioned(generation: nat, state: CacheState)

  // ---- names -----------------------------------------------------------------

  function PathFor(generation: nat): string {
    "state." + Print(generation, 10) + ".json"
  }

  /** The generation a directory entry's name parses to, if any. */
  function GenerationOf(name: string): Option<nat> {
    match StripPrefix(name, "state.")
    case None => None
    case Some(rest) =>
      match StripSuffix(rest, ".json")
      case None => None
      case Some(number) => ParseU64(number, 10)
  }

  /** The canonical name of a generation parses back to that generation. */
  lemma PathParses(g: nat)
    requires g < U64_MODULUS
    ensures GenerationOf(PathFor(g)) == Some(g)
  {
    var name := PathFor(g);
    var number := Print(g, 10);
    assert name[|"state."|..] == number + ".json";
    var rest := number + ".json";
    assert rest[|rest| - |".json"|..] == ".json";
    assert rest[..|rest| - |".json"|] == number;
    ParsePrint(g, 10);
  }

  /** The generation numbers a list of names parses to. */
  function NumbersIn(names: seq<string>): multiset<nat> {
    if names == [] then multiset{} else
      var n := |names| - 1;
      match GenerationOf(names[n])
      case None => NumbersIn(names[..n])
      case Some(g) => NumbersIn(names[..n]) + multiset{g}
  }

  lemma {:induction false} NumbersInConcat(a: seq<string>, b: seq<string>)
    ensures NumbersIn(a + b) == NumbersIn(a) + NumbersIn(b)
    decreases |b|
  {
    if b == [] {
      assert a + b == a;
    } else {
      var n := |b| - 1;
      assert (a + b)[..|a + b| - 1] == a + b[..n];
      NumbersInConcat(a, b[..n]);
    }
  }

  lemma NumbersInSnoc(names: seq<string>, name: string)
    ensures NumbersIn(names + [name]) ==
            NumbersIn(names) + (match GenerationOf(name) case None => multiset{} case Some(g) => multiset{g})
  {
    assert (names + [name])[..|names|] == names;
  }

  lemma NumbersWithin(names: seq<string>)
    ensures forall g :: g in NumbersIn(names) ==> g < U64_MODULUS
  {
  }

  // ---- sorting ---------------------------------------------------------------

  function Insert(s: seq<nat>, x: nat): seq<nat> {
    if s == [] || s[|s| - 1] <= x then s + [x]
    else Insert(s[..|s| - 1], x) + [s[|s| - 1]]
  }

  lemma SortedSnoc(s: seq<nat>, x: nat)
    requires Sorted(s) && forall y :: y in s ==> y <= x
    ensures Sorted(s + [x])
  {
    forall i, j | 0 <= i < j < |s + [x]| ensures (s + [x])[i] <= (s + [x])[j] {
      if j == |s| {
        assert s[i] in s;
      }
    }
  }

  lemma SortedBelowLast(s: seq<nat>)
    requires Sorted(s) && s != []
    ensures Sorted(s[..|s| - 1]) && forall y :: y in s ==> y <= s[|s| - 1]
  {
  }

  lemma {:induction false} InsertMembers(s: seq<nat>, x: nat)
    ensures multiset(Insert(s, x)) == multiset(s) + multiset{x}
    decreases |s|
  {
    if s != [] && s[|s| - 1] > x {
      InsertMembers(s[..|s| - 1], x);
      assert s == s[..|s| - 1] + [s[|s| - 1]];
    }
  }

  lemma {:induction false} InsertSorts(s: seq<nat>, x: nat)
    requires Sorted(s)
    ensures Sorted(Insert(s, x))
    decreases |s|
  {
    if s != [] {
      SortedBelowLast(s);
      var k := |s| - 1;
      if s[k] <= x {
        SortedSnoc(s, x);
      } else {
        var front := s[..k];
        InsertSorts(front, x);
        InsertMembers(front, x);
        forall y | y in Insert(front, x) ensures y <= s[k] {
          assert y in multiset(Insert(front, x));
        }
        SortedSnoc(Insert(front, x), s[k]);
      }
    }
  }

  function SortUnstable(s: seq<nat>): seq<nat> {
    if s == [] then [] else Insert(SortUnstable(s[..|s| - 1]), s[|s| - 1])
  }

  lemma {:induction false} SortUnstableSorts(s: seq<nat>)
    ensures Sorted(SortUnstable(s)) && multiset(SortUnstable(s)) == multiset(s)
    decreases |s|
  {
    if s != [] {
      var k := |s| - 1;
      SortUnstableSorts(s[..k]);
      InsertSorts(SortUnstable(s[..k]), s[k]);
      InsertMembers(SortUnstable(s[..k]), s[k]);
      assert s == s[..k] + [s[k]];
    }
  }

  // ---- what one process alone computes -----------------------------------------

  /** `load` on a directory nobody else touches. */
  ghost function Loaded(d: Directory): Option<Versioned> {
    var top := Newest(d.Listed());
    if top in d.files && d.files[top].Readable() then Some(Versioned(top, d.files[top].state)) else None
  }

  function Succ(g: nat): nat {
    (g + 1) % U64_MODULUS
  }

  /** The generation `initialise` publishes above `top`; `u64` addition wraps. */
  function FreeAbove(top: int): nat
    requires top >= -1
  {
    if top + 1 >= U64_MODULUS then 0 else top + 1
  }

  /** `initialise` on a directory nobody else touches: nothing when the name it wraps round to is taken. */
  ghost function Initialised(d: Directory, ns: Namespace): Option<Versioned> {
    var free := FreeAbove(Newest(d.Listed()));
    match Loaded(d)
    case Some(v) => Some(v)
    case None => if free in d.files then None else Some(Versioned(free, EmptyState(ns)))
  }

  /** And what it leaves there. */
  ghost function InitialisedFiles(d: Directory, ns: Namespace): map<nat, FileBody> {
    var free := FreeAbove(Newest(d.Listed()));
    if Loaded(d).None? && free !in d.files then d.files[free := Document(EmptyState(ns))] else d.files
  }

  /**
   * Alone, initialising fails only with nothing readable, the last generation
   * of all listed, and generation 0 present: the addition wraps onto it.
   */
  lemma InitialisesExactly(d: Directory, ns: Namespace)
    requires forall g :: g in d.Listed() ==> g < U64_MODULUS
    ensures Initialised(d, ns).None? <==>
      Loaded(d).None? && Newest(d.Listed()) == U64_MODULUS - 1 && 0 in d.files
  {
    AboveNewest(d);
  }

  ghost predicate Within(files: map<nat, FileBody>) {
    forall g :: g in files ==> g < U64_MODULUS
  }

  lemma TakenOut(all: set<nat>, todo: set<nat>, g: nat)
    requires todo <= all && g in todo
    ensures multiset(all - (todo - {g})) == multiset(all - todo) + multiset{g}
  {
    assert all - (todo - {g}) == (all - todo) + {g};
  }

  /** The loop of `generations` over the directory entries. */
  method ParseNames(names: seq<string>) returns (found: seq<nat>)
    ensures multiset(found) == NumbersIn(names)
  {
    found := [];
    for i := 0 to |names|
      invariant multiset(found) == NumbersIn(names[..i])
    {
      assert names[..i + 1] == names[..i] + [names[i]];
      NumbersInSnoc(names[..i], names[i]);
      match GenerationOf(names[i]) {
        case Some(generation) => found := found + [generation];
        case None =>
      }
    }
    assert names[..|names|] == names;
  }

  /** A commit over the newest generation, alone: it becomes the newest exactly when there is a number above, and otherwise nothing readers see moves. */
  ghost predicate CommitsAtTop(was: Directory, now: Directory, expected: nat, r: Result<nat, CasError>) {
    && (expected + 1 < U64_MODULUS <==> r.Ok? && Newest(now.Listed()) == r.value)
    && (expected + 1 == U64_MODULUS ==>
          && r == (if 0 in was.files then Err(Conflict) else Ok(0))
          && Newest(now.Listed()) == expected && Loaded(now) == Loaded(was))
  }

  lemma CommitAtTop(d: Directory, expected: nat, state: CacheState)
    requires Newest(d.Listed()) == expected < U64_MODULUS
    ensures var next := Succ(expected);
            var r := if next in d.files then Err(Conflict) else Ok(next);
            CommitsAtTop(d, if next in d.files then d else d.(files := d.files[next := Document(state)]), expected, r)
  {
    AboveNewest(d);
    NewestAfterLink(d, Succ(expected), Document(state));
  }

  class StateStore {
    var files: map<nat, FileBody>
    const strays: seq<string>
    const others: (nat, map<nat, FileBody>) -> map<nat, FileBody>
    const faults: nat -> bool
    var clock: nat

    /** The canonical files just before our last call took effect. */
    ghost var seen: map<nat, FileBody>
    /** A lower bound on publications by other processes. */
    ghost var rivals: nat

    constructor (files: map<nat, FileBody>, strays: seq<string>,
                 others: (nat, map<nat, FileBody>) -> map<nat, FileBody>, faults: nat -> bool)
      requires Within(files) && (forall t, f :: Within(f) ==> Within(others(t, f)))
      requires forall g: nat :: g < U64_MODULUS ==> PathFor(g) !in strays
      ensures Valid() && this.files == files && this.strays == strays && rivals == 0
      ensures this.others == others && this.faults == faults
    {
      this.files := files;
      this.strays := strays;
      this.others := others;
      this.faults := faults;
      clock, seen, rivals := 0, files, 0;
    }

    ghost predicate Valid()
      reads this
    {
      && Within(files)
      && (forall t, f :: Within(f) ==> Within(others(t, f)))
      && (forall g: nat :: g < U64_MODULUS ==> PathFor(g) !in strays)
    }

    /** No other process runs and no call fails. */
    ghost predicate Alone() {
      forall t, f :: others(t, f) == f && !faults(t)
    }

    ghost function Dir(): Directory
      reads this
    {
      Directory(files, NumbersIn(strays))
    }

    ghost function Top(): int
      reads this
    {
      Newest(Dir().Listed())
    }

    /** None of the last `room` generations is listed, and no other process ever publishes one. */
    ghost predicate Roomy(room: nat)
      reads this
    {
      && Top() + room < U64_MODULUS
      && forall t, f, g :: g in others(t, f) && g !in f ==> g + room < U64_MODULUS
    }

    ghost predicate Ahead(g: int)
      reads this
    {
      exists h :: h in files && h > g
    }

    /** Other processes run, then one call of ours either fails or sees `files`. */
    method Interfere() returns (ok: bool)
      requires Valid()
      modifies this`files, this`clock, this`seen, this`rivals
      ensures Valid() && seen == files
      ensures rivals >= old(rivals)
      ensures (exists g :: g in files && g !in old(files)) ==> rivals > old(rivals)
      ensures forall room: nat :: old(Roomy(room)) ==> Roomy(room)
      ensures Alone() ==> ok && files == old(files) && rivals == old(rivals)
    {
      ghost var was := files;
      files := others(clock, files);
      ok := !faults(clock);
      clock := clock + 1;
      seen := files;
      if exists g :: g in files && g !in was {
        rivals := rivals + 1;
      }
    }

    /** The names `read_dir` yields, in whatever order. */
    method Entries() returns (names: seq<string>)
      requires Valid()
      ensures NumbersIn(names) == multiset(files.Keys) + NumbersIn(strays)
    {
      names := [];
      var todo := files.Keys;
      while todo != {}
        invariant todo <= files.Keys
        invariant NumbersIn(names) == multiset(files.Keys - todo)
        decreases todo
      {
        var g :| g in todo;
        PathParses(g);
        NumbersInSnoc(names, PathFor(g));
        TakenOut(files.Keys, todo, g);
        names := names + [PathFor(g)];
        todo := todo - {g};
      }
      NumbersInConcat(names, strays);
      names := names + strays;
    }

    /** Every generation present, in order, whatever order the directory is read in. */
    method Generations() returns (r: Result<seq<nat>, CacheError>)
      requires Valid()
      modifies this`files, this`clock, this`seen, this`rivals
      ensures Valid() && seen == files && rivals >= old(rivals)
      ensures r.Ok? ==> IsListing(Dir(), r.value)
      ensures r.Err? ==> r.error == Io
      ensures forall room: nat :: old(Roomy(room)) ==> Roomy(room)
      ensures Alone() ==> r.Ok? && files == old(files) && rivals == old(rivals)
    {
      var ok := Interfere();
      if !ok {
        return Err(Io);
      }
      var names := Entries();
      var found := ParseNames(names);
      SortUnstableSorts(found);
      return Ok(SortUnstable(found));
    }

    /** Only the newest generation is a candidate. */
    method Load() returns (r: Result<Option<Versioned>, CacheError>)
      requires Valid()
      modifies this`files, this`clock, this`seen, this`rivals
      ensures Valid() && rivals >= old(rivals)
      ensures r.Ok? && r.value.Some? ==>
        var v := r.value.value;
        && v.generation in files && files[v.generation] == Document(v.state)
        && v.state.formatVersion == 2
        && (Ahead(v.generation) ==> rivals > old(rivals))
      ensures r.Err? ==> r.error == Io
      ensures forall room: nat :: old(Roomy(room)) ==> Roomy(room)
      ensures Alone() ==> r == Ok(Loaded(Dir())) && files == old(files) && rivals == old(rivals)
    {
      var listing := Generations();
      if listing.Err? {
        return Err(listing.error);
      }
      var generations := listing.value;
      ListingNewest(Dir(), generations);
      ListingMembers(Dir(), generations);
      if generations == [] {
        return Ok(None);
      }
      var generation := generations[|generations| - 1];
      NothingAhead();
      var ok := Interfere();
      if !ok || generation !in files {
        return Ok(None);
      }
      match files[generation] {
        case Document(state) =>
          if state.formatVersion == CACHE_FORMAT_VERSION {
            return Ok(Some(Versioned(generation, state)));
          }
        case Garbage =>
      }
      return Ok(None);
    }

    /**
     * Write a private file to the end, then link it under the generation's name.
     * Before the link nobody else can see any of it.
     */
    method Publish(generation: nat, state: CacheState) returns (r: Result<(), CasError>)
      requires Valid() && generation < U64_MODULUS
      modifies this`files, this`clock, this`seen, this`rivals
      ensures Valid() && rivals >= old(rivals)
      ensures r.Ok? ==> generation !in seen && files == seen[generation := Document(state)]
      ensures r.Err? ==> files == seen && (r.error.Conflict? || r.error == Failed(Io))
      ensures r == Err(Conflict) ==> generation in files && (generation !in old(files) ==> rivals > old(rivals))
      ensures r.Ok? ==> forall g: int :: g >= generation && Ahead(g) && !old(Ahead(g)) ==> rivals > old(rivals)
      ensures forall room: nat :: old(Roomy(room)) && (r.Ok? ==> generation + room < U64_MODULUS) ==> Roomy(room)
      ensures Alone() ==>
        && rivals == old(rivals)
        && r == (if generation in old(files) then Err(Conflict) else Ok(()))
        && files == if generation in old(files) then old(files) else old(files)[generation := Document(state)]
    {
      var temp := Garbage;
      var written := Interfere();
      if !written {
        return Err(Failed(Io));
      }
      temp := Document(state);
      var linked := Interfere();
      if !linked {
        return Err(Failed(Io));
      }
      if generation in files {
        return Err(Conflict);
      }
      NewestAfterLink(Dir(), generation, temp);
      files := files[generation := temp];
      return Ok(());
    }

    /**
     * Publish over the generation that was read. The successor of the last
     * generation is 0: published there, a state is never the newest, and a
     * generation 0 already there is reported as a conflict although nobody else
     * published anything.
     */
    method CompareAndSet(expected: nat, state: CacheState) returns (r: Result<nat, CasError>)
      requires Valid() && expected < U64_MODULUS
      modifies this`files, this`clock, this`seen, this`rivals
      ensures Valid() && rivals >= old(rivals)
      ensures r.Ok? ==> r.value == Succ(expected) && r.value !in seen && files == seen[r.value := Document(state)]
      ensures r.Err? ==> files == seen && (r.error.Conflict? || r.error == Failed(Io))
      ensures r == Err(Conflict) ==>
        && Succ(expected) in files
        && (expected + 1 < U64_MODULUS && !old(Ahead(expected)) ==> rivals > old(rivals))
      ensures r.Ok? && Ahead(r.value) && !old(Ahead(r.value)) ==> rivals > old(rivals)
      ensures forall room: nat :: old(Roomy(room)) ==>
        && (r.Err? ==> Roomy(room))
        && (room > 0 && expected + room < U64_MODULUS ==> Roomy(room - 1))
      ensures Alone() ==>
        && rivals == old(rivals)
        && r == (if Succ(expected) in old(files) then Err(Conflict) else Ok(Succ(expected)))
        && files == (if Succ(expected) in old(files) then old(files) else old(files)[Succ(expected) := Document(state)])
        && (old(Top()) == expected ==> CommitsAtTop(old(Dir()), Dir(), expected, r))
    {
      var next := Succ(expected);
      if Alone() && Top() == expected {
        CommitAtTop(Dir(), expected, state);
      }
      var p := Publish(next, state);
      match p {
        case Ok(_) => return Ok(next);
        case Err(e) => return Err(e);
      }
    }

    /** The first generation above everything a listing shows. */
    method FirstFree() returns (r: Result<nat, CacheError>)
      requires Valid()
      modifies this`files, this`clock, this`seen, this`rivals
      ensures Valid() && seen == files && rivals >= old(rivals)
      ensures -1 <= Top() < U64_MODULUS
      ensures r.Ok? ==> r.value == FreeAbove(Top())
      ensures r.Err? ==> r.error == Io
      ensures forall room: nat :: old(Roomy(room)) ==> Roomy(room)
      ensures Alone() ==> r.Ok? && files == old(files) && rivals == old(rivals)
    {
      var listing := Generations();
      TopWithin();
      if listing.Err? {
        return Err(listing.error);
      }
      var generations := listing.value;
      ListingNewest(Dir(), generations);
      var last := if generations == [] then -1 else generations[|generations| - 1];
      return Ok(FreeAbove(last));
    }

    lemma TopWithin()
      requires Valid()
      ensures -1 <= Top() < U64_MODULUS
    {
      var top := Top();
      if top != -1 {
        assert top in Dir().Listed();
        if top !in files {
          NumbersWithin(strays);
        }
      }
    }

    lemma NothingAhead()
      ensures !Ahead(Top())
    {
      forall h | h in files ensures h <= Top() {
        assert h in Dir().Listed();
      }
    }

    /**
     * The newest state if it can be read, or else a new empty one above all that
     * is listed. With room above, giving up means at least eight publications by
     * others.
     */
    method Initialise(ns: Namespace) returns (r: Result<Versioned, CacheError>)
      requires Valid()
      modifies this`files, this`clock, this`seen, this`rivals
      ensures Valid() && rivals >= old(rivals)
      ensures r.Ok? ==> r.value.generation < U64_MODULUS && r.value.state.formatVersion == CACHE_FORMAT_VERSION
      ensures r.Err? ==> r.error == Io || r.error == Uninitialised
      ensures old(Roomy(1)) && r.Ok? && Ahead(r.value.generation) ==> rivals > old(rivals)
      ensures old(Roomy(1)) && r == Err(Uninitialised) ==> rivals >= old(rivals) + 8
      ensures forall room: nat :: room > 0 && old(Roomy(room)) ==>
        Roomy(room - 1) && (r.Ok? ==> r.value.generation + room - 1 < U64_MODULUS)
      ensures Alone() ==>
        && rivals == old(rivals)
        && r == (match Initialised(old(Dir()), ns) case Some(v) => Ok(v) case None => Err(Uninitialised))
        && files == InitialisedFiles(old(Dir()), ns)
    {
      for attempt := 0 to INITIALISE_ATTEMPTS
        invariant Valid() && rivals >= old(rivals)
        invariant forall room: nat :: old(Roomy(room)) ==> Roomy(room)
        invariant old(Roomy(1)) ==> rivals >= old(rivals) + attempt
        invariant Alone() ==> rivals == old(rivals) && files == old(files)
        invariant Alone() && attempt > 0 ==> Initialised(Dir(), ns).None?
      {
        var loaded := Load();
        match loaded {
          case Err(e) => return Err(e);
          case Ok(Some(current)) =>
            assert current.generation in files;
            return Ok(current);
          case Ok(None) =>
        }
        var free := FirstFree();
        if free.Err? {
          return Err(free.error);
        }
        var next := free.value;
        NothingAhead();
        assert Roomy(1) ==> !Ahead(next) && next !in files;
        var published := Publish(next, EmptyState(ns));
        match published {
          case Ok(_) => return Ok(Versioned(next, EmptyState(ns)));
          case Err(Conflict) =>
          case Err(Failed(e)) => return Err(e);
        }
      }
      return Err(Uninitialised);
    }

    /** Remove every listed generation but the last `keep`; a removal that fails is skipped. */
    method Prune(keep: nat) returns (r: Result<nat, CacheError>)
      requires Valid()
      modifies this`files, this`clock, this`seen, this`rivals
      ensures Valid() && rivals >= old(rivals)
      ensures r.Err? ==> r.error == Io
      ensures Alone() ==>
        && rivals == old(rivals)
        && exists found :: IsListing(old(Dir()), found) && files == old(files) - Members(Superseded(found, keep))
      ensures Alone() ==> r.Ok? && |files| + r.value == |old(files)|
    {
      var listing := Generations();
      if listing.Err? {
        return Err(listing.error);
      }
      ghost var was := files;
      assert IsListing(Dir(), listing.value);
      var todo := Superseded(listing.value, keep);
      var removed := 0;
      for i := 0 to |todo|
        invariant Valid() && rivals >= old(rivals)
        invariant Alone() ==> rivals == old(rivals) && files == was - Members(todo[..i])
        invariant Alone() ==> |files| + removed == |was|
      {
        var ok := Interfere();
        MembersSnoc(was, todo, i);
        OneFewer(files, todo[i]);
        if ok && todo[i] in files {
          files := files - {todo[i]};
          removed := removed + 1;
        }
      }
      assert todo[..|todo|] == todo;
      return Ok(removed);
    }
  }

  function Members(s: seq<nat>): set<nat> {
    set t | t in s
  }

  lemma OneFewer(files: map<nat, FileBody>, g: nat)
    ensures g in files ==> |files - {g}| + 1 == |files|
    ensures g !in files ==> files - {g} == files
  {
    if g in files {
      assert files == (files - {g})[g := files[g]];
    }
  }

  lemma MembersSnoc(files: map<nat, FileBody>, todo: seq<nat>, i: nat)
    requires i < |todo|
    ensures files - Members(todo[..i + 1]) == (files - Members(todo[..i])) - {todo[i]}
  {
    assert todo[..i + 1] == todo[..i] + [todo[i]];
  }
}
