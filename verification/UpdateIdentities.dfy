/**
 * Which release an update is about: the version policy
 * (crates/delta-core/src/identity.rs) and the recovery of the platform entry
 * Tauri selected (`resolve_identity` in crates/delta-core/src/client.rs).
 */
module UpdateIdentities {
  import opened Prelude
  import opened Manifests
  import SemVer

  /** What Tauri's check returned; `rawJson` is the document it fetched. */
  datatype UpdateIdentity = UpdateIdentity(
    currentVersion: string, version: string, downloadUrl: string, signature: string, rawJson: string)

  datatype Side = Installed | Target

  datatype MismatchField = VersionField | PlatformField | SignatureField

  datatype Refusal =
    | IdentityMismatch(field: MismatchField)
    | Downgrade(current: string, target: string)
    | AmbiguousPlatform(matches: nat)
    | ReleaseIdentityRefused
    | UncomparableVersion(which: Side, value: string)

  datatype VersionVerdict = Upgrade | UpToDate | Refused(reason: Refusal)

  // ---- version policy ------------------------------------------------------------

  function TrimV(value: string): string {
    if value != [] && value[0] == 'v' then TrimV(value[1..]) else value
  }

  function ParseVersion(value: string): Option<SemVer.Version> {
    SemVer.Parse(TrimV(value))
  }

  /** Every leading `v` goes, and nothing else. */
  lemma {:induction false} TrimsExactly(value: string, rest: string)
    ensures TrimV(value) == rest <==>
            && |rest| <= |value| && value[|value| - |rest|..] == rest && (rest != [] ==> rest[0] != 'v')
            && forall i :: 0 <= i < |value| - |rest| ==> value[i] == 'v'
    decreases |value|
  {
    if value != [] && value[0] == 'v' {
      TrimsExactly(value[1..], rest);
      if |rest| < |value| {
        assert value[1..][|value[1..]| - |rest|..] == value[|value| - |rest|..];
      }
    } else {
      assert value[0..] == value;
    }
  }

  /** `precedence` is the SemVer order, as a position on a line. */
  function EvaluateVersion(precedence: SemVer.Version -> real, installed: string, target: string): VersionVerdict {
    match (ParseVersion(installed), ParseVersion(target))
    case (None, _) => Refused(UncomparableVersion(Installed, installed))
    case (_, None) => Refused(UncomparableVersion(Target, target))
    case (Some(i), Some(t)) =>
      if precedence(t) > precedence(i) then Upgrade
      else if precedence(t) == precedence(i) then UpToDate
      else Refused(Downgrade(installed, target))
  }

  /** Both versions are orderable and the target is strictly above what is installed. */
  ghost predicate Newer(precedence: SemVer.Version -> real, installed: string, target: string) {
    && ParseVersion(installed).Some? && ParseVersion(target).Some?
    && precedence(ParseVersion(target).value) > precedence(ParseVersion(installed).value)
  }

  // ---- the first key of a sorted map ----------------------------------------------

  predicate LexLe(a: string, b: string) {
    a == [] || (b != [] && (a[0] < b[0] || (a[0] == b[0] && LexLe(a[1..], b[1..]))))
  }

  lemma {:induction false} LexTotal(a: string, b: string)
    ensures LexLe(a, b) || LexLe(b, a)
    decreases |a|
  {
    if a != [] && b != [] && a[0] == b[0] {
      LexTotal(a[1..], b[1..]);
    }
  }

  lemma {:induction false} LexTransitive(a: string, b: string, c: string)
    requires LexLe(a, b) && LexLe(b, c)
    ensures LexLe(a, c)
    decreases |a|
  {
    if a != [] && a[0] == b[0] && b[0] == c[0] {
      LexTransitive(a[1..], b[1..], c[1..]);
    }
  }

  lemma {:induction false} LexAntisymmetric(a: string, b: string)
    requires LexLe(a, b) && LexLe(b, a)
    ensures a == b
    decreases |a|
  {
    if a != [] && b != [] {
      LexAntisymmetric(a[1..], b[1..]);
      assert a == [a[0]] + a[1..] && b == [b[0]] + b[1..];
    }
  }

  predicate IsLeast(keys: set<string>, k: string) {
    k in keys && forall j :: j in keys ==> LexLe(k, j)
  }

  lemma {:induction false} LeastExists(keys: set<string>)
    requires keys != {}
    ensures exists k :: IsLeast(keys, k)
    decreases keys
  {
    var some :| some in keys;
    var rest := keys - {some};
    LexTotal(some, some);
    if rest == {} {
      assert keys == {some};
      assert IsLeast(keys, some);
    } else {
      LeastExists(rest);
      var k :| IsLeast(rest, k);
      LexTotal(k, some);
      if LexLe(k, some) {
        assert IsLeast(keys, k);
      } else {
        forall j | j in keys ensures LexLe(some, j) {
          if j != some {
            LexTransitive(some, k, j);
          }
        }
        assert IsLeast(keys, some);
      }
    }
  }

  lemma LeastIsUnique(keys: set<string>)
    ensures forall j, k :: IsLeast(keys, j) && IsLeast(keys, k) ==> j == k
  {
    forall j, k | IsLeast(keys, j) && IsLeast(keys, k) ensures j == k {
      LexAntisymmetric(j, k);
    }
  }

  /** The first key a sorted map's iterator yields. */
  function Least(keys: set<string>): (k: string)
    requires keys != {}
    ensures IsLeast(keys, k)
  {
    LeastExists(keys);
    LeastIsUnique(keys);
    var k :| IsLeast(keys, k);
    k
  }

  // ---- resolving the platform ------------------------------------------------------

  /** The platforms whose download is the selected one, by URL and signature. */
  function Selected(m: Manifest, id: UpdateIdentity): set<string> {
    set k | k in m.platforms && m.platforms[k].url == id.downloadUrl && m.platforms[k].signature == id.signature
  }

  predicate SameTarget(a: DeltaPlatform, b: DeltaPlatform) {
    && a.targetInstallerBlake3 == b.targetInstallerBlake3
    && a.targetInstallerSize == b.targetInstallerSize
    && a.signature == b.signature
  }

  function ResolveIdentity(m: Manifest, id: UpdateIdentity): Result<Option<DeltaPlatform>, Refusal> {
    if m.version != id.version then Err(IdentityMismatch(VersionField))
    else if Selected(m, id) == {} then Err(IdentityMismatch(PlatformField))
    else
      match m.delta
      case None => Ok(None)
      case Some(delta) =>
        var keys := Selected(m, id) * delta.platforms.Keys;
        if keys == {} then Ok(None)
        else
          var first := delta.platforms[Least(keys)];
          if exists k :: k in keys && !SameTarget(delta.platforms[k], first) then Err(AmbiguousPlatform(|keys|))
          else if first.signature != id.signature then Err(IdentityMismatch(SignatureField))
          else Ok(Some(first))
  }

  /**
   * For a validated manifest the final signature cross-check cannot fire, and
   * an ambiguity is always about the digest or the size.
   */
  lemma SignatureCheckCannotFire(m: Manifest, id: UpdateIdentity)
    requires Valid(m)
    ensures ResolveIdentity(m, id) != Err(IdentityMismatch(SignatureField))
    ensures ResolveIdentity(m, id).Err? && ResolveIdentity(m, id).error.AmbiguousPlatform? ==>
      exists j, k ::
        && j in Selected(m, id) && k in Selected(m, id) && j in m.delta.value.platforms && k in m.delta.value.platforms
        && var a, b := m.delta.value.platforms[j], m.delta.value.platforms[k];
        && a.signature == b.signature
        && (a.targetInstallerBlake3 != b.targetInstallerBlake3 || a.targetInstallerSize != b.targetInstallerSize)
  {
    if m.delta.Some? {
      var platforms := m.delta.value.platforms;
      var keys := Selected(m, id) * platforms.Keys;
      if keys != {} {
        var first := Least(keys);
        assert ValidEntry(m, first, platforms[first]);
        if exists k :: k in keys && !SameTarget(platforms[k], platforms[first]) {
          var k :| k in keys && !SameTarget(platforms[k], platforms[first]);
          assert ValidEntry(m, k, platforms[k]);
        }
      }
    }
  }

  /** A resolved entry belongs to a platform with the selected download, and to this version. */
  lemma ResolvedEntry(m: Manifest, id: UpdateIdentity)
    requires Valid(m) && ResolveIdentity(m, id).Ok? && ResolveIdentity(m, id).value.Some?
    ensures var entry := ResolveIdentity(m, id).value.value;
            && m.version == id.version && entry.signature == id.signature && entry.targetVersion == id.version
            && exists k :: k in Selected(m, id) && k in m.delta.value.platforms && m.delta.value.platforms[k] == entry
                           && ValidEntry(m, k, entry)
  {
    var platforms := m.delta.value.platforms;
    var first := Least(Selected(m, id) * platforms.Keys);
    assert ValidEntry(m, first, platforms[first]);
  }

  /**
   * Resolution finds an entry exactly when the document names the version Tauri
   * did, describes the selected artifact, and all its entries for that artifact
   * agree on digest and size. Which of them the map yields first is then of no
   * account: they describe the same target.
   */
  lemma ResolvesWhenUnambiguous(m: Manifest, id: UpdateIdentity)
    requires Valid(m) && m.delta.Some?
    ensures var entries := set k | k in Selected(m, id) && k in m.delta.value.platforms :: m.delta.value.platforms[k];
            var agree := forall a, b :: a in entries && b in entries ==>
              a.targetInstallerBlake3 == b.targetInstallerBlake3 && a.targetInstallerSize == b.targetInstallerSize;
            && (ResolveIdentity(m, id).Ok? && ResolveIdentity(m, id).value.Some?
                <==> m.version == id.version && entries != {} && agree)
            && (ResolveIdentity(m, id).Ok? && ResolveIdentity(m, id).value.Some? ==>
                  forall a :: a in entries ==> SameTarget(a, ResolveIdentity(m, id).value.value))
  {
    var platforms := m.delta.value.platforms;
    var keys := Selected(m, id) * platforms.Keys;
    var entries := set k | k in Selected(m, id) && k in platforms :: platforms[k];
    if keys == {} {
      assert forall k :: k in Selected(m, id) && k in platforms ==> k in keys;
    } else {
      var first := Least(keys);
      assert platforms[first] in entries;
      forall k | k in keys
        ensures platforms[k] in entries && platforms[k].signature == id.signature
      {
        assert ValidEntry(m, k, platforms[k]);
      }
    }
  }

  /** With one platform for the selected artifact, resolution finds exactly its entry. */
  lemma ResolvesSole(m: Manifest, id: UpdateIdentity, platform: string)
    requires Valid(m) && m.version == id.version && m.delta.Some? && platform in m.delta.value.platforms
    requires Selected(m, id) == {platform}
    ensures ResolveIdentity(m, id) == Ok(Some(m.delta.value.platforms[platform]))
  {
    var platforms := m.delta.value.platforms;
    assert Selected(m, id) * platforms.Keys == {platform};
    assert ValidEntry(m, platform, platforms[platform]);
  }

  /** The document has a platform with the URL and the signature Tauri selected. */
  ghost predicate Offers(m: Manifest, id: UpdateIdentity) {
    exists k :: k in m.platforms && m.platforms[k].url == id.downloadUrl && m.platforms[k].signature == id.signature
  }

  /** Some such platform has an entry in the delta layer. */
  ghost predicate Describes(m: Manifest, id: UpdateIdentity) {
    m.delta.Some? && exists k :: k in m.delta.value.platforms
                                 && k in m.platforms && m.platforms[k].url == id.downloadUrl && m.platforms[k].signature == id.signature
  }

  lemma SelectedMeans(m: Manifest, id: UpdateIdentity)
    ensures Selected(m, id) != {} <==> Offers(m, id)
    ensures m.delta.Some? ==> (Selected(m, id) * m.delta.value.platforms.Keys != {} <==> Describes(m, id))
  {
    if Offers(m, id) {
      var k :| k in m.platforms && m.platforms[k].url == id.downloadUrl && m.platforms[k].signature == id.signature;
      assert k in Selected(m, id);
    }
    if Describes(m, id) {
      var k :| k in m.delta.value.platforms
               && k in m.platforms && m.platforms[k].url == id.downloadUrl && m.platforms[k].signature == id.signature;
      assert k in Selected(m, id) * m.delta.value.platforms.Keys;
    }
    if m.delta.Some? && Selected(m, id) * m.delta.value.platforms.Keys != {} {
      var k :| k in Selected(m, id) * m.delta.value.platforms.Keys;
    }
  }

  /** Every other answer of the resolution, each exactly when. */
  lemma ResolvesOtherwise(m: Manifest, id: UpdateIdentity)
    requires Valid(m)
    ensures ResolveIdentity(m, id) == Err(IdentityMismatch(VersionField)) <==> m.version != id.version
    ensures ResolveIdentity(m, id) == Err(IdentityMismatch(PlatformField)) <==> m.version == id.version && !Offers(m, id)
    ensures ResolveIdentity(m, id) == Ok(None) <==> m.version == id.version && Offers(m, id) && !Describes(m, id)
    ensures ResolveIdentity(m, id).Err? ==>
      || ResolveIdentity(m, id).error == IdentityMismatch(VersionField)
      || ResolveIdentity(m, id).error == IdentityMismatch(PlatformField)
      || (m.delta.Some? && ResolveIdentity(m, id).error == AmbiguousPlatform(|Selected(m, id) * m.delta.value.platforms.Keys|))
  {
    SignatureCheckCannotFire(m, id);
    SelectedMeans(m, id);
  }
}
