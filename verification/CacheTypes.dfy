/** Values stored by the artifact cache (crates/delta-core/src/cache/state.rs). */
module CacheTypes {
  import opened Prelude

  const CACHE_FORMAT_VERSION: nat := 2

  const MAX_CAS_ATTEMPTS: nat := 64
  const INITIALISE_ATTEMPTS: nat := 8
  const PRUNE_KEEP: nat := 3

  const REPRESENTATION_APP_TAR_GZ_V1 := "app-tar-gz-v1"
  const REPRESENTATION_OPAQUE_V1 := "opaque-v1"
  const RECOMPRESSION_TAURI_APP_TAR_GZ_V1 := "tauri-app-tar-gz-v1"
  const RECOMPRESSION_NONE := "none"

  /** The two kinds of artifact: one with a tar inside that can be patched, and one that is only bytes. */
  datatype Representation = AppTarGz | Opaque

  datatype Namespace = Namespace(
    bundleId: string, platform: string, arch: string,
    pubkeyFingerprint: string, representation: string, recompression: string)
  {
    function RepresentationKind(): Option<Representation> {
      if representation == REPRESENTATION_APP_TAR_GZ_V1 && recompression == RECOMPRESSION_TAURI_APP_TAR_GZ_V1 then
        Some(AppTarGz)
      else if representation == REPRESENTATION_OPAQUE_V1 && recompression == RECOMPRESSION_NONE then
        Some(Opaque)
      else
        None
    }
  }

  datatype TarFacts = TarFacts(blake3: string, size: nat)

  datatype CacheEntry = CacheEntry(
    version: string, compressedBlake3: string, compressedSize: nat,
    tar: Option<TarFacts>, signature: string)

  datatype CacheState = CacheState(
    formatVersion: nat, ns: Namespace,
    active: Option<CacheEntry>, pending: Option<CacheEntry>)
  {
    /** Content addresses a collection pass must keep for this state. */
    function Named(): set<string> {
      (if active.Some? then {active.value.compressedBlake3} else {}) +
      (if pending.Some? then {pending.value.compressedBlake3} else {})
    }
  }

  function EmptyState(ns: Namespace): CacheState {
    CacheState(CACHE_FORMAT_VERSION, ns, None, None)
  }

  /** The bytes of a state file: a document serde accepts, or anything else. */
  datatype FileBody = Garbage | Document(state: CacheState)
  {
    /** What `load` makes of the file: only the current format is readable. */
    predicate Readable() {
      Document? && state.formatVersion == CACHE_FORMAT_VERSION
    }
  }

  datatype CacheError =
    | Io
    | Uninitialised
    | Contended
    | TooLarge(declared: nat, limit: nat)
    | OutputTooLarge(limit: nat)
    | UnexpectedSize(expected: nat, actual: nat)
    | NotRegular
    | InvalidHash
    | ChecksumMismatch
    | Decompression
    | BadSignature
    | BadIdentity

  /** The state `stage_pending` publishes over `current`. */
  function Staged(current: CacheState, entry: CacheEntry): CacheState {
    current.(pending := Some(entry))
  }

  /** The state `reconcile` publishes over `current`, whose PENDING is set. */
  function Reconciled(current: CacheState, running: string): CacheState
    requires current.pending.Some?
  {
    if current.pending.value.version == running then
      current.(active := current.pending, pending := None)
    else
      current.(pending := None)
  }
}
