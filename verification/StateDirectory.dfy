/**
 * The generation directory as every cache operation sees it.
 *
 * `files` holds the canonical names `state.<generation>.json`.  A directory may
 * also hold other spellings that parse to a generation number
 * (`state.007.json`, `state.+7.json`); those numbers are `strays`.  They appear
 * in a listing but cannot be opened, linked or removed through the canonical name.
 */
module StateDirectory {
  import opened Prelude
  import opened CacheTypes

  datatype Directory = Directory(files: map<nat, FileBody>, strays: multiset<nat>)
  {
    function Listed(): set<nat> {
      files.Keys + (set g | g in strays)
    }
  }

  /** The largest generation in `listed`, or -1 when there is none. */
  ghost function Newest(listed: set<nat>): (n: int)
    ensures forall g :: g in listed ==> g <= n
    ensures listed == {} ==> n == -1
    ensures listed != {} ==> n in listed
  {
    if listed == {} then -1 else
      var g :| g in listed;
      var rest := Newest(listed - {g});
      assert forall h :: h in listed ==> h == g || h in listed - {g};
      Max(g, rest)
  }

  lemma NewestIs(listed: set<nat>, n: int)
    requires forall g :: g in listed ==> g <= n
    requires n in listed || (n == -1 && listed == {})
    ensures Newest(listed) == n
  {
  }

  lemma AboveNewest(d: Directory)
    ensures forall g :: g in d.files || g in d.strays ==> g <= Newest(d.Listed())
  {
    forall g | g in d.files || g in d.strays ensures g <= Newest(d.Listed()) {
      assert g in d.Listed();
    }
  }

  lemma NewestAfterLink(d: Directory, g: nat, body: FileBody)
    ensures Newest(d.(files := d.files[g := body]).Listed()) == Max(Newest(d.Listed()), g)
  {
    var listed' := d.(files := d.files[g := body]).Listed();
    assert listed' == d.Listed() + {g};
    NewestIs(listed', Max(Newest(d.Listed()), g));
  }

  lemma NewestAfterRemove(d: Directory, gone: set<nat>)
    requires forall g :: g in gone ==> g < Newest(d.Listed())
    ensures Newest(d.(files := d.files - gone).Listed()) == Newest(d.Listed())
  {
    var listed' := d.(files := d.files - gone).Listed();
    assert listed' <= d.Listed();
    if d.Listed() != {} {
      assert Newest(d.Listed()) in listed';
    }
    NewestIs(listed', Newest(d.Listed()));
  }

  ghost predicate Sorted(s: seq<nat>) {
    forall i, j :: 0 <= i < j < |s| ==> s[i] <= s[j]
  }

  /** `found` is what `generations` returns for `d`: every number, in order. */
  ghost predicate IsListing(d: Directory, found: seq<nat>) {
    && Sorted(found)
    && multiset(found) == multiset(d.files.Keys) + d.strays
  }

  lemma ListingMembers(d: Directory, found: seq<nat>)
    requires IsListing(d, found)
    ensures forall g :: g in found <==> g in d.Listed()
  {
    forall g: nat ensures g in found <==> g in d.Listed() {
      assert g in found <==> g in multiset(found);
      assert g in multiset(d.files.Keys) <==> g in d.files.Keys;
    }
  }

  lemma ListingNewest(d: Directory, found: seq<nat>)
    requires IsListing(d, found)
    ensures found == [] <==> Newest(d.Listed()) == -1
    ensures found != [] ==> found[|found| - 1] == Newest(d.Listed())
  {
    ListingMembers(d, found);
    var listed := d.Listed();
    if found != [] {
      var last := found[|found| - 1];
      assert last in listed;
      forall g | g in listed ensures g <= last {
        var i :| 0 <= i < |found| && found[i] == g;
      }
      NewestIs(listed, last);
    }
  }

  lemma TwiceInMultiset(s: seq<nat>, i: nat, j: nat)
    requires i < j < |s| && s[i] == s[j]
    ensures multiset(s)[s[i]] >= 2
  {
    assert s == s[..j] + s[j..];
    assert s[i] in s[..j] by { assert s[..j][i] == s[i]; }
    assert s[j] in s[j..] by { assert s[j..][0] == s[j]; }
    assert multiset(s) == multiset(s[..j]) + multiset(s[j..]);
  }

  /** Above every stray, a listing has no repeats, so it climbs by at least one. */
  lemma ListingClimbs(d: Directory, found: seq<nat>, floor: int, i: nat, j: nat)
    requires IsListing(d, found)
    requires forall g :: g in d.strays ==> g <= floor
    requires i <= j < |found| && found[i] > floor
    ensures found[j] >= found[i] + (j - i)
  {
    if i < j {
      ListingClimbs(d, found, floor, i, j - 1);
      assert found[j - 1] > floor;
      if found[j - 1] == found[j] {
        TwiceInMultiset(found, j - 1, j);
        assert false;
      }
    }
  }

  /** The generations `prune(keep)` sets out to remove. */
  function Superseded(found: seq<nat>, keep: nat): seq<nat> {
    if |found| <= keep then [] else found[..|found| - keep]
  }

  /**
   * Once a generation above every stray exists, `prune(3)` spares the newest
   * three generations above `floor`, and never the newest of all.
   */
  lemma PruneSparesNewest(d: Directory, found: seq<nat>, floor: int)
    requires IsListing(d, found)
    requires forall g :: g in d.strays ==> g <= floor
    requires Newest(d.Listed()) > floor >= -1
    ensures forall t :: t in Superseded(found, 3) ==>
      t < Newest(d.Listed()) && (t > floor ==> t < Newest(d.Listed()) - 2)
  {
    ListingNewest(d, found);
    var n := |found|;
    if n > 3 {
      forall t | t in Superseded(found, 3)
        ensures t < Newest(d.Listed()) && (t > floor ==> t < Newest(d.Listed()) - 2)
      {
        var i :| 0 <= i < n - 3 && found[i] == t;
        if t > floor {
          ListingClimbs(d, found, floor, i, n - 1);
        }
      }
    }
  }
}
