/** The release manifest (crates/delta-core/src/manifest.rs), as a value already read from its JSON. */
module Manifests {
  import opened Prelude
  import opened Hash
  import opened CacheTypes

  const SCHEMA_VERSION: nat := 1
  const HASH_ALGO := "blake3"
  const ZSTD_ID := "zstd"

  datatype Manifest = Manifest(
    version: string, notes: Option<string>, pubDate: Option<string>,
    platforms: map<string, TauriPlatform>, delta: Option<DeltaLayer>)

  datatype TauriPlatform = TauriPlatform(url: string, signature: string)

  datatype DeltaLayer = DeltaLayer(schema: nat, hashAlgo: string, platforms: map<string, DeltaPlatform>)

  datatype DeltaPlatform = DeltaPlatform(
    targetVersion: string, targetInstallerBlake3: string, targetInstallerSize: nat, signature: string,
    patches: map<string, Patch>, tarLayer: Option<TarLayer>, compressedFull: Option<CompressedFull>)
  {
    /** The tar patch from `version`, `None` inside if there is none, and an error if this build cannot use the layer. */
    function TarPatchFor(version: string): Result<Option<(TarLayer, TarPatch)>, TarSupport> {
      match tarLayer
      case None => Ok(None)
      case Some(layer) =>
        if layer.Support().Supported? then
          Ok(if version in layer.patches then Some((layer, layer.patches[version])) else None)
        else Err(layer.Support())
    }

    /** The compressed full copy, when this build can decode it. */
    function UsableCompressedFull(): Option<CompressedFull> {
      match compressedFull
      case Some(full) => if full.backendId == ZSTD_ID then Some(full) else None
      case None => None
    }
  }

  datatype CompressedFull = CompressedFull(backendId: string, url: string, blake3: string, size: nat)

  datatype Patch = Patch(
    backendId: string, patchUrl: string, patchBlake3: string, patchSize: nat,
    baseInstallerBlake3: Option<string>, baseInstallerSize: Option<nat>)
  {
    /** Both halves of the declared base, or neither. */
    function DeclaredBase(): Option<(string, nat)> {
      match (baseInstallerBlake3, baseInstallerSize)
      case (Some(blake3), Some(size)) => Some((blake3, size))
      case _ => None
    }
  }

  datatype TarLayer = TarLayer(
    representation: string, recompression: string, targetTarBlake3: string, targetTarSize: nat,
    patches: map<string, TarPatch>)
  {
    /** Only the identifiers this model implements; any other is named in the answer. */
    function Support(): TarSupport {
      if representation != REPRESENTATION_APP_TAR_GZ_V1 then UnknownRepresentation(representation)
      else if recompression != RECOMPRESSION_TAURI_APP_TAR_GZ_V1 then UnknownRecompression(recompression)
      else Supported
    }
  }

  datatype TarPatch = TarPatch(
    backendId: string, patchUrl: string, patchBlake3: string, patchSize: nat,
    baseInstallerBlake3: string, baseInstallerSize: nat, baseTarBlake3: string, baseTarSize: nat)

  datatype TarSupport = Supported | UnknownRepresentation(id: string) | UnknownRecompression(id: string)

  // ---- validation ----------------------------------------------------------------

  predicate IsHex(value: string) { FromHex(value).Some? }

  predicate ValidPatch(entry: DeltaPlatform, from: string, patch: Patch) {
    && IsHex(patch.patchBlake3)
    && from != entry.targetVersion
    && match (patch.baseInstallerBlake3, patch.baseInstallerSize)
       case (Some(blake3), Some(size)) => IsHex(blake3) && size != 0 && blake3 != entry.targetInstallerBlake3
       case (None, None) => true
       case _ => false
  }

  predicate ValidTarPatch(layer: TarLayer, targetVersion: string, from: string, patch: TarPatch) {
    && from != targetVersion
    && IsHex(patch.patchBlake3) && IsHex(patch.baseInstallerBlake3) && IsHex(patch.baseTarBlake3)
    && patch.baseTarSize != 0 && patch.baseInstallerSize != 0
    && patch.baseTarBlake3 != layer.targetTarBlake3
  }

  /** Structure only: an unknown representation or recipe is valid. */
  predicate ValidTarLayer(targetVersion: string, layer: TarLayer) {
    && layer.representation != [] && layer.recompression != []
    && IsHex(layer.targetTarBlake3) && layer.targetTarSize != 0
    && forall from :: from in layer.patches ==> ValidTarPatch(layer, targetVersion, from, layer.patches[from])
  }

  predicate ValidCompressedFull(full: CompressedFull) {
    IsHex(full.blake3) && full.size != 0 && full.url != []
  }

  predicate ValidEntry(m: Manifest, platform: string, entry: DeltaPlatform) {
    && entry.targetVersion == m.version
    && platform in m.platforms && m.platforms[platform].signature == entry.signature
    && IsHex(entry.targetInstallerBlake3)
    && (forall from :: from in entry.patches ==> ValidPatch(entry, from, entry.patches[from]))
    && (entry.tarLayer.Some? ==> ValidTarLayer(entry.targetVersion, entry.tarLayer.value))
    && (entry.compressedFull.Some? ==> ValidCompressedFull(entry.compressedFull.value))
  }

  predicate Valid(m: Manifest) {
    match m.delta
    case None => true
    case Some(delta) =>
      && delta.schema == SCHEMA_VERSION && delta.hashAlgo == HASH_ALGO
      && forall platform :: platform in delta.platforms ==> ValidEntry(m, platform, delta.platforms[platform])
  }

  // ---- the same, spelled out ---------------------------------------------------------

  /** 64 hexadecimal digits of either case. */
  ghost predicate Digest(value: string) {
    && |value| == 64
    && forall i :: 0 <= i < 64 ==> '0' <= value[i] <= '9' || 'a' <= value[i] <= 'f' || 'A' <= value[i] <= 'F'
  }

  /** A patch from another version; of its base it says nothing, or what it is, and that it is not the target. */
  ghost predicate PatchOf(m: Manifest, e: DeltaPlatform, from: string) {
    from in e.patches ==>
      var patch := e.patches[from];
      && from != m.version && Digest(patch.patchBlake3) && (patch.baseInstallerBlake3.Some? <==> patch.baseInstallerSize.Some?)
      && (patch.baseInstallerBlake3.Some? ==>
            && Digest(patch.baseInstallerBlake3.value) && patch.baseInstallerSize.value > 0
            && patch.baseInstallerBlake3.value != e.targetInstallerBlake3)
  }

  /** Likewise a tar patch, which always says what its base is. */
  ghost predicate TarPatchOf(m: Manifest, layer: TarLayer, from: string) {
    from in layer.patches ==>
      var patch := layer.patches[from];
      && from != m.version && Digest(patch.patchBlake3)
      && Digest(patch.baseInstallerBlake3) && patch.baseInstallerSize > 0
      && Digest(patch.baseTarBlake3) && patch.baseTarSize > 0 && patch.baseTarBlake3 != layer.targetTarBlake3
  }

  /** A described platform is one Tauri knows, with the same signature and version; every digest is one, and no size is 0. */
  ghost predicate Described(m: Manifest, p: string, e: DeltaPlatform) {
    && p in m.platforms && e.signature == m.platforms[p].signature && e.targetVersion == m.version
    && Digest(e.targetInstallerBlake3) && (forall from :: PatchOf(m, e, from))
    && (e.tarLayer.Some? ==>
          && var layer := e.tarLayer.value;
          && |layer.representation| > 0 && |layer.recompression| > 0
          && Digest(layer.targetTarBlake3) && layer.targetTarSize > 0 && forall from :: TarPatchOf(m, layer, from))
    && (e.compressedFull.Some? ==>
          var full := e.compressedFull.value; Digest(full.blake3) && full.size > 0 && |full.url| > 0)
  }

  /** Exactly what a client can rely on of a document it read. */
  lemma ValidExactly(m: Manifest)
    ensures Valid(m) <==>
            m.delta.Some? ==>
              && m.delta.value.schema == 1 && m.delta.value.hashAlgo == "blake3"
              && forall p :: p in m.delta.value.platforms ==> Described(m, p, m.delta.value.platforms[p])
  {
    if m.delta.Some? {
      forall p | p in m.delta.value.platforms
        ensures ValidEntry(m, p, m.delta.value.platforms[p]) <==> Described(m, p, m.delta.value.platforms[p])
      {
        EntryExactly(m, p, m.delta.value.platforms[p]);
      }
    }
  }

  lemma EntryExactly(m: Manifest, p: string, e: DeltaPlatform)
    ensures ValidEntry(m, p, e) <==> Described(m, p, e)
  {
    DigestIsHex(e.targetInstallerBlake3);
    if e.targetVersion == m.version {
      PatchesExactly(m, e);
      if e.tarLayer.Some? {
        TarPatchesExactly(m, e.tarLayer.value);
        DigestIsHex(e.tarLayer.value.targetTarBlake3);
      }
    }
    if e.compressedFull.Some? {
      DigestIsHex(e.compressedFull.value.blake3);
    }
  }

  lemma PatchesExactly(m: Manifest, e: DeltaPlatform)
    requires e.targetVersion == m.version
    ensures (forall from :: from in e.patches ==> ValidPatch(e, from, e.patches[from])) <==> forall from :: PatchOf(m, e, from)
  {
    forall from | from in e.patches ensures ValidPatch(e, from, e.patches[from]) <==> PatchOf(m, e, from) {
      var patch := e.patches[from];
      DigestIsHex(patch.patchBlake3);
      if patch.baseInstallerBlake3.Some? {
        DigestIsHex(patch.baseInstallerBlake3.value);
      }
    }
  }

  lemma TarPatchesExactly(m: Manifest, layer: TarLayer)
    ensures (forall from :: from in layer.patches ==> ValidTarPatch(layer, m.version, from, layer.patches[from]))
            <==> forall from :: TarPatchOf(m, layer, from)
  {
    forall from | from in layer.patches
      ensures ValidTarPatch(layer, m.version, from, layer.patches[from]) <==> TarPatchOf(m, layer, from)
    {
      DigestIsHex(layer.patches[from].patchBlake3);
      DigestIsHex(layer.patches[from].baseInstallerBlake3);
      DigestIsHex(layer.patches[from].baseTarBlake3);
    }
  }

  lemma DigestIsHex(value: string)
    ensures IsHex(value) <==> Digest(value)
  {
  }
}
