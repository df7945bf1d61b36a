# A verified model of the delta updater

This project models the delta updater for Tauri applications and proves what its
design promises. It covers the concurrent artifact cache, the byte-exact
recompression of `.app.tar.gz` archives, the zstd patch backend, the planner and
install flow of the client, the release generator with its independent checker,
and the wire form of the authenticated release identity.

Check everything with `dafny verify dfyconfig.toml` (Dafny 4.11).

## How the model is laid out

| Files | What they model |
|---|---|
| `Prelude`, `Text`, `Numerals`, `Hash`, `SemVer` | shared vocabulary: results, bytes, splitting, canonical numerals, hex digests, strict semantic versions |
| `ReleaseIdentities`, `Signatures` | the identity a signature carries, its parser and printer, and what verification yields |
| `CacheTypes`, `StateDirectory`, `StateStores`, `BlobStores`, `ArtifactCaches` | the cache as classes over a directory that others change between any two filesystem calls |
| `CacheMachine`, `CacheInvariant`, `CacheRefinement`, `CachePromotion`, `CacheBlobAge`, `CacheRuns`, `CacheResets`, `CacheLosses`, `CacheBlobLosses` | any number of processes as interleaved filesystem steps, what holds of every run, and what does not |
| `TarHeaders`, `TarLayout`, `Streams`, `Recompress` | tar headers, the archive as a list of writes, and the loops that replay, decompress and rebuild it |
| `Zstd` | window arithmetic and the streaming apply loop |
| `Manifests`, `UpdateIdentities`, `Planning`, `Hosts`, `Reconstruction`, `Client`, `Flow` | the manifest, the release an update is bound to, the planner, and the run to the installer |
| `Releases`, `ReleaseChecks` | the release generator and the independent checker |
| `EndToEnd` | from what the generator leaves behind to what a client installs |

## What is assumed

- The cryptography and the codecs are parameters. BLAKE3 is a function; where two
  artifacts are concluded to be the same, the lemma says that this one digest has
  no second preimage (`Hash.Unrivalled`). A signature verifies or not, and carries
  one trusted comment. gzip is a function of the list of writes it is handed. zstd
  is a partial function whose frames ask for no more than the window the encoder
  was given.
- The archive writer is the one the source describes: a header, the payload in
  pieces of 8192 bytes, for a long-name entry one more piece with the chained NUL,
  one padding piece when needed, and 1024 zero bytes at the end. The long-name case
  is inferred in the source as well.
- A directory listing is one step, and errors of single entries in it are not
  modelled. Temporary names are private to a process. All processes of the
  interleaving model share one namespace; the directory may start with anything.
  Its blob scans may examine entries in any order and any number of times, which
  is more than the code does.
- Every filesystem operation may fail, the server may answer each request
  differently, and files outside an update's own workspace may change between any
  two reads. An update's workspace is its own.
- Paths name files one to one, and the outputs of a release request are none of
  its inputs. The generator does not check the latter.
- `usize` has 64 bits.

## Where code and documentation differ

- `evaluate_version` says build metadata is ignored for precedence; the crate it
  calls orders by it, as one of its own tests notes. The model takes any total
  order on versions, so both readings are covered.
- `FileHash::from_hex` is described as parsing a lowercase digest; it accepts either
  case, and so does the model.
- The documentation of the grace period says staging writes the blob and then
  commits. `put` also reports success for a blob that is already there, without
  refreshing its age. Base availability therefore measures a commit from when the
  blob was written; `CacheLosses.OldBlobCanVanish` shows that measuring it from the
  stage would not do. `CacheBlobLosses.AvailableExactly` is the whole condition: the
  age of a blob at its commit and the snapshot-to-scan gap stay together below the
  grace period, no writer wins from four or more generations behind, and the
  directory holds nothing for a namespace reset to find. Each part is needed
  whatever the others allow.
- The bytes of a staged artifact are said to outlive a crash before the install. Over
  a state of another installation they do not outlive the staging: the blob is put
  first, and the reset that follows drops every blob. The entry is committed all the
  same, and its version, once running, is promoted without its bytes;
  `ArtifactCaches.ArtifactCache.StagedBlob` says exactly when. A reconcile on launch,
  as documented, resets first.
- The documentation names one way a staged entry is lost, a launch that discards
  it. There is another: a reader that finds nothing usable under the generation it listed publishes an
  empty state above a live one. `CacheResets.ResetExactly` says when that can
  follow, `CacheResets.StagedIsKept` what holds otherwise, and
  `CacheLosses.PrunedReadLosesEntry` shows that no call need fail for it.
- `expected + 1` on a generation wraps in release builds. `StateStores` models the
  wrap, and says what a single process meets there: a commit over generation
  2^64 - 1 never becomes the newest state, and is reported as a conflict, with no
  other process about, when generation 0 is taken
  (`StateStores.StateStore.CompareAndSet`). The bounds on contention are stated for
  a directory with room above its newest generation, shared with processes that
  leave that room. The interleaving model uses unbounded numbers and shows when
  they agree (`CacheRefinement.NoOverflow`).
- The planner's early identity check is described as comparing the digest and the
  size with the manifest's. It passes the identity's own digest and size, so it
  compares only application, version and platform; `Planning.Advised` does the
  same, and `Planning.EarlyRefusalIsSound` says what is left for later.
- The reconcile documentation speaks of the version observed running. The version
  is given when the call starts, so what is later than the stage's commit is the
  reconcile's own read and commit.
- Data after a patch frame is noticed only when it lies beyond the read chunk the
  frame ends in; `Zstd.Applies` says so exactly.
- A release with an inherited manifest of the same version keeps that manifest's
  other patches and its compressed copy unproven.
  `ReleaseChecks.GeneratorImpliesChecker` says exactly what the checker then asks
  of them.

## Model

| member | source | states |
|---|---|---|
| CacheRefinement.TraceRefinement | crates/delta-core/src/cache/state.rs:339-452 | for any number of processes and every interleaving, the newest-generation states of a run are a run of the two-slot machine of Stage, Promote, Discard and Reset, one generation at a time |
| CacheRefinement.NextRefines | crates/delta-core/src/cache/mod.rs:229-387 | each step leaves what readers see alone or advances it by exactly one generation and one move, computed from the state it immediately replaces unless it is a Reset |
| CacheRefinement.LinkRefines | crates/delta-core/src/cache/state.rs:412-437 | only a link can advance the newest state, and the move is the one its operation makes |
| CacheRefinement.StaleCommit | crates/delta-core/src/cache/state.rs:360-367 | a commit at most three generations behind becomes the newest state or conflicts; one further behind may link a pruned name but never changes the newest state |
| CacheRefinement.NewestSurvives | crates/delta-core/src/cache/state.rs:440-452 | no step of any process removes or rewrites the newest generation |
| CacheRefinement.GenerationsBounded | crates/delta-core/src/cache/state.rs:360-367 | the newest generation never falls and rises by at most the number of steps |
| CacheRefinement.NoOverflow | crates/delta-core/src/cache/state.rs:365-366 | no computed generation leaves 64 bits in a run that is not that long |
| CacheInvariant.ReachableInv | crates/delta-core/src/cache/state.rs:377-437 | in every reachable state all generations above the starting one are complete live documents, the newest three of them are present, and each process holds what its next step needs |
| CacheInvariant.NextInv | crates/delta-core/src/cache/state.rs:377-452 | every step of every process keeps that invariant and its guarantee to the others |
| CacheInvariant.GivesUpExactly | crates/delta-core/src/cache/mod.rs:262-303 | an operation gives up only on the eighth lost name of an initialisation or the 64th lost commit |
| CachePromotion.PromotionSafety | crates/delta-core/src/cache/mod.rs:262-307 | in every generation file of every reachable state ACTIVE is empty, was found live at the start, or was committed by some stage and later committed as ACTIVE by a reconcile told that version is running |
| CachePromotion.CurrentReturnsLive | crates/delta-core/src/cache/mod.rs:229-254 | the read after a lost reset, which skips the namespace check, only ever sees the live namespace |
| CachePromotion.NeverPartial | crates/delta-core/src/cache/state.rs:405-437 | a generation name published by a live process always refers to a complete document |
| CachePromotion.StagedIsRecorded | crates/delta-core/src/cache/mod.rs:331-387 | an entry in the staging history was there at the start or some stage committed it |
| CacheBlobAge.BaseAvailability | crates/delta-core/src/cache/mod.rs:86-104 | when the age of a blob at the commit that names it and the snapshot-to-scan gap of a collection stay together below the grace period, no writer wins from four or more behind and no readable state of another namespace is there at the start, every blob the newest state names is on disk in every reachable state |
| CacheBlobAge.ReachableAge | crates/delta-core/src/cache/blob.rs:253-302 | the age invariant behind base availability holds of every timely run |
| CacheResets.NoResetWhileReadsSucceed | crates/delta-core/src/cache/state.rs:339-403 | from a live newest generation that no process is about to reset, no step of any run is a reset while no read of a listed generation fails |
| CacheResets.LiveStartNoReset | crates/delta-core/src/cache/state.rs:339-403 | a run that starts on a live newest generation has no reset at all unless such a read fails |
| CacheResets.StagedIsKept | crates/delta-core/src/cache/mod.rs:262-387 | while no read fails, a staged entry leaves PENDING only by being replaced by a stage, promoted by a reconcile told its version is running, or discarded by one told another is |
| CacheResets.ResetExactly | crates/delta-core/src/cache/state.rs:377-403 | over a live newest generation a reset can follow, with no further failing read, exactly when some process is about to list again or has an empty state for the next generation under way |
| CacheResets.ArmedResets | crates/delta-core/src/cache/state.rs:384-403 | such a process needs only go on: the newest state is then empty, with nothing promoted or staged |
| CacheResets.MissingMeansOvertaken | crates/delta-core/src/cache/state.rs:344-346 | a listed generation is gone when it comes to be read only if three later ones were published meanwhile |
| CacheLosses.StagedEntryCanBeLost | crates/delta-core/src/cache/state.rs:344-346 | in any run whose newest state stages something, one failed read by an idle process leads to an empty state above it, with the entry neither promoted nor discarded |
| CacheLosses.PrunedReadLosesEntry | crates/delta-core/src/cache/state.rs:344-386 | in any run with a live newest state, a process that listed it and reads it after another staged three times finds it pruned and publishes an empty state above what is staged; no call fails |
| CacheLosses.OldBlobCanVanish | crates/delta-core/src/cache/blob.rs:107-148 | for any grace period, with no time passing, a run exists in which a blob that was already there when it was staged is collected although the newest state names it |
| CacheBlobLosses.AvailableExactly | crates/delta-core/src/cache/mod.rs:86-104 | every blob the newest state names is on disk in every state of every run allowed a commit age, a scan gap, a writer's lag and a foreign start, exactly when the first two together are below the grace period, the lag is at most three and there is no foreign state to reset |
| CacheBlobLosses.BlobCanVanish | crates/delta-core/src/cache/mod.rs:331-387 | as soon as the two gaps together reach the grace period, some run loses a blob the newest state names, with no writer behind and no reset |
| CacheBlobLosses.StaleWinnerLosesBlob | crates/delta-core/src/cache/mod.rs:296-297 | with no gap of any length, a reconcile four generations behind wins a pruned name, no reader sees what it published, and its collection removes a blob the newest state names |
| CacheBlobLosses.ResetLosesBlob | crates/delta-core/src/cache/mod.rs:234-252 | with no gap of any length and nobody behind, the blobs dropped after a namespace reset include one staged over the state it published |
| StateDirectory.PruneSparesNewest | crates/delta-core/src/cache/state.rs:440-452 | what prune removes lies below the newest generation, and above the starting one below the newest three |
| StateDirectory.NewestAfterLink | crates/delta-core/src/cache/state.rs:412-437 | linking a name makes the newest generation the larger of the two |
| StateStores.PathParses | crates/delta-core/src/cache/state.rs:290-311 | the name written for a generation is listed back as exactly that generation |
| StateStores.ParseNames | crates/delta-core/src/cache/state.rs:295-311 | the loop finds every generation among the names of a directory, each as often as it is spelled |
| StateStores.StateStore.Generations | crates/delta-core/src/cache/state.rs:295-311 | the listing is sorted and is what the directory holds at the moment it is read |
| StateStores.StateStore.Load | crates/delta-core/src/cache/state.rs:339-353 | only the newest generation is ever returned, only in the current format, and alone exactly when it is readable |
| StateStores.StateStore.Publish | crates/delta-core/src/cache/state.rs:412-437 | the generation is created with the whole document if its name was free and nothing changes otherwise |
| StateStores.StateStore.CompareAndSet | crates/delta-core/src/cache/state.rs:360-367 | success publishes exactly the successor; below the last generation a conflict means another process published after the read; alone, a commit over the newest generation becomes the newest exactly when there is a number above it |
| StateStores.CommitAtTop | crates/delta-core/src/cache/state.rs:360-367 | at generation 2^64 - 1 a commit goes to 0: a conflict if 0 is taken, and otherwise a success that readers never see |
| StateStores.StateStore.FirstFree | crates/delta-core/src/cache/state.rs:384-386 | the generation to initialise at is above everything listed, readable or not |
| StateStores.StateStore.Initialise | crates/delta-core/src/cache/state.rs:377-403 | alone it returns the newest state if readable and otherwise publishes an empty one under the next free number, unless that number is taken; with room above, it gives up only after as many publications by others as attempts |
| StateStores.InitialisesExactly | crates/delta-core/src/cache/state.rs:377-403 | alone, initialising fails exactly when nothing is readable, the newest number is 2^64 - 1 and generation 0 is there |
| StateStores.StateStore.Prune | crates/delta-core/src/cache/state.rs:440-452 | alone it removes exactly the superseded names of the listing and nothing else, and returns how many went |
| BlobStores.BlobStore.Put | crates/delta-core/src/cache/blob.rs:89-148 | a blob is created under its own digest or an existing regular file of the same length is accepted; nothing else changes |
| BlobStores.BlobStore.Get | crates/delta-core/src/cache/blob.rs:175-250 | whatever the directory holds, what is returned has the digest, the length and a signature under the key given now; undisturbed it returns the stored bytes exactly when those hold, and otherwise names the first thing wrong with them |
| BlobStores.BlobStore.Retain | crates/delta-core/src/cache/blob.rs:270-302 | undisturbed, a blob goes exactly when it is a digest name, not kept, old enough and removable, and the number that went is returned |
| ArtifactCaches.ArtifactCache.Current | crates/delta-core/src/cache/mod.rs:229-254 | alone, on any directory contents, it returns what `Opened` says: the live state, a reset of a foreign one, or, where no number is free for the reset, the foreign one as it is; it reports a reset exactly when the directory described another installation |
| ArtifactCaches.ArtifactCache.Reconcile | crates/delta-core/src/cache/mod.rs:262-307 | alone, on any directory contents, it makes exactly the promotion or the discard the running version calls for if the number to publish under is free, leaves the newest three numbers, and drops the blobs that the state it leaves does not name once they are as old as the grace period (all of them, whatever their age, when it reset another installation's state); otherwise it reports contention and changes nothing; with room above, contention is reported only after 64 publications by others |
| ArtifactCaches.ArtifactCache.StagePending | crates/delta-core/src/cache/mod.rs:331-387 | the entry recorded is computed from the verified bytes; alone it succeeds exactly when the ceilings, the name of the blob and a free number allow, and then leaves that entry as PENDING over what was found, the newest three numbers, and the blob among the others; with room above, contention only after 64 publications by others |
| ArtifactCaches.ArtifactCache.StagedBlob | crates/delta-core/src/cache/mod.rs:234-387 | the blob of what was staged is there exactly when no state of another namespace was: over one, staging drops the blob it has just put and commits the entry all the same |
| ArtifactCaches.ArtifactCache.OfferedFromStart | crates/delta-core/src/cache/mod.rs:229-387 | short of a reset and of the last number, having read the cache before changes nothing about what can be staged or what staging leaves |
| ArtifactCaches.OpenedOnce | crates/delta-core/src/cache/mod.rs:229-254 | on any directory, what `current` leaves is what it leaves again: a second read publishes and drops nothing |
| ArtifactCaches.ArtifactCache.CommitPending | crates/delta-core/src/cache/mod.rs:372-387 | the retry loop of staging: alone, on any directory contents, it commits exactly when the number to commit under is free, as the newest state exactly when there is a number above; otherwise it says why and changes nothing more |
| ArtifactCaches.LandableExactly | crates/delta-core/src/cache/state.rs:360-386 | that number is free unless the state committed over has the last number of all and 0 is taken, or would have one past it and 0 or 1 is taken |
| ArtifactCaches.CommitLands | crates/delta-core/src/cache/state.rs:360-367 | a commit over what `current` returned is the newest state exactly when there is a number above it; otherwise the newest is what it would have been without it |
| ArtifactCaches.PruneSpares | crates/delta-core/src/cache/state.rs:440-452 | pruning leaves the newest number and its contents alone, unless other spellings of that number push its canonical name out |
| ArtifactCaches.PruneTrims | crates/delta-core/src/cache/state.rs:440-452 | the pruning after a commit removes exactly what is listed before the last three numbers |
| ArtifactCaches.ArtifactCache.Active | crates/delta-core/src/cache/mod.rs:399-411 | what is returned has the recorded digest and size, and the key configured now signed exactly those bytes; with nobody else at the directory the state is left alone exactly when the newest generation is a readable state of this namespace or no number above it is free |
| ArtifactCaches.ArtifactCache.ExpandToTar | crates/delta-core/src/cache/mod.rs:435-470 | succeeds exactly when the tar inside the bytes has the declared size and digest within the local ceiling |
| ArtifactCaches.ArtifactCache.Collect | crates/delta-core/src/cache/mod.rs:477-486 | alone, every blob that ACTIVE or PENDING of the state names, or that is younger than the grace period, is there as it was, and every other removable blob called after a digest is gone |
| ArtifactCaches.StagedBytesReturn | crates/delta-core/src/cache/mod.rs:331-411 | what `active` returns for an entry is byte for byte what the stage that recorded it was given, and verifies under the key in use |
| ArtifactCaches.StageReconcileRead | crates/delta-core/src/cache/mod.rs:262-411 | whatever others do, if the entry read back is the one this stage recorded, its bytes are the staged bytes; with nobody else at the state directory and two numbers left, it is that entry or an error when its version was then observed running, and otherwise ACTIVE is still what it was before the stage |
| ReleaseIdentities.PrintThenParse | crates/delta-core/src/release_identity.rs:302-367 | every identity with valid fields whose printed form fits parses back to itself |
| ReleaseIdentities.ParseThenPrint | crates/delta-core/src/release_identity.rs:211-222 | every comment accepted as an identity reprints to itself byte for byte and has valid fields |
| ReleaseIdentities.RoundTripsExactly | crates/delta-release/src/signing.rs:126-137 | an identity survives its own parser exactly when its fields are valid and its printed form is at most 512 bytes |
| ReleaseIdentities.AcceptedExactly | crates/delta-core/src/release_identity.rs:302-478 | the accepted comments are exactly the printed forms of valid identities that fit |
| ReleaseIdentities.WireExactly | crates/delta-core/src/release_identity.rs:211-478 | a comment is accepted as an identity exactly when it is, character by character, the wire form of that identity and each field is within its stated alphabet and length |
| ReleaseIdentities.OutsideExactly | crates/delta-core/src/release_identity.rs:302-345 | a comment is legacy exactly when it does not open with `delta-v`, and another protocol is reported exactly for a short printable comment that opens with another tag of the family |
| ReleaseIdentities.TokensArePlain | crates/delta-core/src/release_identity.rs:369-478 | no valid field can contain the separator, a control character or anything outside ASCII |
| ReleaseIdentities.CanonicalTestIsRedundant | crates/delta-core/src/release_identity.rs:387-398 | the re-serialisation test on versions never rejects what strict parsing accepted |
| SemVer.ParseIsCanonical | crates/delta-core/src/release_identity.rs:387-398 | a strictly parsed version prints back to the text it came from |
| SemVer.ParsesExactly | crates/delta-core/src/release_identity.rs:387-398 | a text parses to exactly the version the grammar of SemVer 2.0.0 reads in it, pre-release and build metadata included |
| Numerals.CanonicalIsPrinted | crates/delta-core/src/release_identity.rs:455-478 | a canonical decimal is the printed form of its value |
| Numerals.ParsePrint | crates/delta-core/src/release_identity.rs:455-478 | every 64-bit number printed parses back to itself |
| Numerals.ParsesExactly | crates/delta-core/src/cache/state.rs:299-311 | the texts read as a number are its digits with any leading zeros and perhaps a plus sign, within 64 bits, and no others |
| Hash.HexRoundTrip | crates/delta-core/src/hash.rs:72-91 | a digest printed in hex parses back to itself |
| Hash.FromHexExactly | crates/delta-core/src/hash.rs:72-91 | a text is read as a digest exactly when it spells its 64 nibbles in order, in either case |
| Signatures.VerifiesExactly | crates/delta-core/src/signature.rs:130-160 | verification succeeds exactly when key and signature decode, the key signed these bytes, and the comment is outside the family or the wire form of an identity, which is then the binding; anything not signed is reported as such whatever its comment |
| Signatures.StatedExactly | crates/delta-core/src/release_identity.rs:229-270 | verifying and checking an identity accept exactly the bytes that are signed and that the comment states as this application, version, platform, digest and size |
| Signatures.VerifiedIsAdvised | crates/delta-core/src/signature.rs:130-195 | verification never changes the bytes, and the binding it yields is the advisory one |
| TarHeaders.SizeRoundTrip | crates/delta-core/src/recompress.rs:403-414 | parsing the octal size field inverts printing it |
| TarHeaders.OctalBetweenBlanks | crates/delta-core/src/recompress.rs:403-414 | a run of octal digits parses to its value whatever NULs and spaces surround it |
| TarHeaders.OctalExactly | crates/delta-core/src/recompress.rs:403-414 | of a size field only the NULs and spaces at its ends are disregarded; an empty rest is zero and anything but a numeral is refused |
| TarHeaders.DeclaredSizeFits | crates/delta-core/src/recompress.rs:359-366 | no header can declare so much that adding the chained NUL overflows |
| TarLayout.ChunksShape | crates/delta-core/src/recompress.rs:376-386 | payload pieces lose nothing, are never empty, and are 8192 bytes except the last |
| TarLayout.EntryWritesShape | crates/delta-core/src/recompress.rs:93-99 | each entry is written as its header, its payload pieces and no empty write |
| TarLayout.WritesFlatten | crates/delta-core/src/recompress.rs:93-99 | the archive on disk is the entries, block aligned, and the 1024-byte trailer |
| TarLayout.ReplayInvertsFlattening | crates/delta-core/src/recompress.rs:318-401 | over the archive of any well-formed entries, replay emits the writer's own list of writes, piece for piece |
| TarLayout.ReplaySound | crates/delta-core/src/recompress.rs:318-401 | whatever the bytes, a success wrote exactly the blocks before the first zero block and 1024 zeros, with no empty write |
| TarLayout.ParseSound | crates/delta-core/src/recompress.rs:318-401 | the entries replay finds are well formed and their bytes are what was consumed |
| TarLayout.ByteIdentity | crates/delta-core/src/recompress.rs:88-109 | recompressing the tar inside an artifact gives the artifact back whenever its encoder was fed by the writer the recipe names, and for an encoder that tells write lists apart only then |
| TarLayout.MembersExactly | crates/delta-core/src/recompress.rs:346-400 | a member is a 512-byte header that is not all zeros, the payload its size field declares, one more byte for types 76 and 75 (`L` and `K`) and for no other, and the rest of the last block |
| TarLayout.MemberReplays | crates/delta-core/src/recompress.rs:318-401 | over the bytes of one member, 1024 zeros and anything after them, replay writes the header, the payload in pieces of 8192, the NUL of a long name on its own, the padding if any, and 1024 zeros |
| Recompress.ReadFull | crates/delta-core/src/recompress.rs:416-426 | however the source splits its reads, the buffer is filled with the next bytes unless the source ends |
| Recompress.CopyPayload | crates/delta-core/src/recompress.rs:374-386 | the payload reaches the encoder in the writer's pieces, or the source was too short |
| Recompress.Replay | crates/delta-core/src/recompress.rs:318-401 | the loop ends on every input, writes exactly what the layout says, and reports an archive malformed only when the layout has no reading of it; what the layout says byte for byte is `TarLayout.MemberReplays` |
| Recompress.RecompressWithLimit | crates/delta-core/src/recompress.rs:112-137 | with reliable I/O it succeeds exactly when the tar fits and replays, and the file is then the encoder's output for those writes |
| Recompress.DecompressReaderBounded | crates/delta-core/src/recompress.rs:173-207 | the file never holds more than the ceiling, is complete on success and is removed on every failure |
| Recompress.BoundedWriter.Write | crates/delta-core/src/recompress.rs:288-299 | a write that would pass the limit is refused whole and leaves the file as it was |
| Recompress.BoundedWriter.WriteAll | crates/delta-core/src/recompress.rs:288-304 | a piece written in several goes is refused exactly when the whole of it would not fit |
| Recompress.RebuildTar | crates/delta-core/src/recompress.rs:230-279 | the rebuilt tar is all the builder's writes or the file is removed, and it is never larger than the bound |
| Zstd.WindowLogIsLeast | crates/delta-core/src/backend/zstd.rs:254-260 | the window log is the least accepted exponent whose window spans the size |
| Zstd.WindowOfMax | crates/delta-core/src/backend/zstd.rs:135-174 | the decoder's bound, taken from the two sizes separately, is the encoder's choice |
| Zstd.ProofCarriesOver | crates/delta-core/src/backend/zstd.rs:129-176 | what rebuilt under the unbounded window of the release-time proof rebuilds under the client's bounded one |
| Zstd.PatchRebuilds | crates/delta-core/src/backend/zstd.rs:129-251 | a generated patch rebuilds the new artifact when its size is declared, and without it exactly up to the default ceiling |
| Zstd.RebuiltExactly | crates/delta-core/src/backend/zstd.rs:160-251 | a patch file gives exactly the content of its frame, when the window it asks for may be opened, all of it is there, nothing follows the 128 KiB chunk it ends in, and its size is the expected one or at most 4 GiB |
| Zstd.DiffSpansBoth | crates/delta-core/src/backend/zstd.rs:129-146 | a patch is encoded with the least window that spans both artifacts, up to the largest there is |
| Zstd.Drain | crates/delta-core/src/backend/zstd.rs:197-232 | one chunk is decoded to its end or to the end of the frame, never past the ceiling |
| Zstd.Apply | crates/delta-core/src/backend/zstd.rs:160-251 | for any decoder the loop ends, never writes past the ceiling, and succeeds only on a complete frame of exactly the expected length; on a regular file it succeeds exactly when the frame applies |
| UpdateIdentities.SignatureCheckCannotFire | crates/delta-core/src/client.rs:921-937 | for a validated manifest the final signature cross-check is never what refuses, and an ambiguity is about the digest or the size |
| UpdateIdentities.ResolvedEntry | crates/delta-core/src/client.rs:868-940 | a resolved entry is one published for the artifact Tauri selected, with its signature and for its version |
| UpdateIdentities.ResolvesWhenUnambiguous | crates/delta-core/src/client.rs:868-940 | an entry is resolved exactly when the versions agree and all entries for the selected artifact describe one target, so the order of the map does not matter |
| UpdateIdentities.ResolvesSole | crates/delta-core/src/client.rs:880-914 | with one platform describing the selected artifact, its entry is what is resolved |
| UpdateIdentities.ResolvesOtherwise | crates/delta-core/src/client.rs:868-940 | every other answer exactly: another version, no platform with the selected URL and signature, no entry for any of them, or an ambiguity |
| UpdateIdentities.TrimsExactly | crates/delta-core/src/identity.rs:282-284 | every leading `v` of a version is dropped and nothing else |
| Manifests.ValidExactly | crates/delta-core/src/manifest.rs:464-632 | a document is accepted exactly when every platform it describes is one Tauri knows with the same signature and version, nothing is patched from itself, every digest is one and no size it relies on is 0 |
| Planning.EarlyRefusalIsSound | crates/delta-core/src/client.rs:399-431 | whenever the unverified identity refuses, no bytes would have passed verification and the authoritative check; when it does not, exactly verification and, for an authenticated release, digest and size remain |
| Planning.EligibleMeans | crates/delta-core/src/client.rs:368-493 | before any delta fetch the version is strictly newer, the signature carries this application, version and platform, and the declared target fits the local ceiling |
| Planning.PathIndependence | crates/plugin/src/flow.rs:442-479 | two acceptable artifacts of one authenticated release are the same bytes |
| Planning.AcceptableExactly | crates/plugin/src/flow.rs:442-479 | the artifacts a run accepts are exactly those the key signed, whose comment is outside the family or states these bytes as this release |
| Planning.AdvisedExactly | crates/delta-core/src/client.rs:399-431 | what is read before anything is verified: legacy exactly for a comment outside the family, an identity exactly for its wire form naming this application, version and platform, and otherwise a refusal |
| Planning.ScreenedExactly | crates/delta-core/src/client.rs:368-493 | when the document refuses nothing, equal precedence is up to date, lower is a downgrade of exactly these versions, an unreadable version is refused by side and value, and above that a full download and an eligible delta each exactly when; a document that does not parse leaves only the full download |
| Hosts.Workspace.Rename | crates/delta-core/src/reconstruct.rs:140-142 | a file appears at its destination complete or not at all |
| Reconstruction.ApplyPatch | crates/delta-core/src/reconstruct.rs:126-133 | the rebuilt file has exactly the declared size, and a failure leaves no more than that beside the destination |
| Reconstruction.ReconstructInner | crates/delta-core/src/reconstruct.rs:114-143 | the destination is only ever given bytes with the declared digest and size, and is untouched on failure |
| Reconstruction.TryReconstruct | crates/delta-core/src/reconstruct.rs:97-112 | at no moment does the destination hold anything but what the manifest promised, and a patch that rebuilds it is accepted |
| Client.FetchPatch | crates/delta-core/src/client.rs:1222-1238 | exactly one request, and success only for a file with the declared digest |
| Client.AttemptDelta | crates/delta-core/src/client.rs:1213-1257 | one fetch, and on success the artifact has the declared digest and size |
| Client.CachedDirectBase | crates/delta-core/src/client.rs:771-832 | the cache supplies a direct base only for an opaque artifact and only if it is the base the patch declares |
| Client.SeededDirectBase | crates/delta-core/src/client.rs:691-745 | the kept installer is used only after it was seen with the declared size and with the declared digest |
| Client.TarBaseFromCache | crates/delta-core/src/client.rs:1079-1134 | a cached base tar has the digest and size the patch declares, and a cache that holds that base, undisturbed, supplies it |
| Client.TarBaseFromInstalledApp | crates/delta-core/src/client.rs:1169-1211 | a rebuilt base tar, and the installer recompressed from it, are exactly what the patch declares; a bundle that rebuilds to it supplies it |
| Client.TarBase | crates/delta-core/src/client.rs:985-1008 | the cache is asked first and the installed bundle otherwise, and a base either of them holds is found |
| Client.RecompressTarget | crates/delta-core/src/client.rs:1032-1076 | the artifact appears only with the declared digest and size, and does when recompression reproduces it |
| Client.AttemptTarDelta | crates/delta-core/src/client.rs:962-1076 | at most one fetch, only after both tar sizes fit the ceilings and the declared base tar is in hand; success meets the installer gate |
| Client.DirectBase | crates/delta-core/src/client.rs:550-596 | the base chosen is the one in hand: a workspace file with the declared digest and size, or, without a host base, the kept installer as read from disk with the declared digest and seen with the declared size |
| Client.PlanDirect | crates/delta-core/src/client.rs:550-605 | the direct patch is fetched at most once and, without a host base, only over a base in hand that the patch declares; otherwise the plan is the full download |
| Client.PlanUpdate | crates/delta-core/src/client.rs:368-605 | a refusing document and then the two versions decide first, each to exactly one answer; settled plans fetch nothing and leave the cache untouched; otherwise the tar patch and then the direct patch at most once each, each only when entitled; a delta has the declared digest and size; when the published files serve a base the client holds, a delta is the answer, the direct one also after a tar attempt that came to nothing |
| Client.OfferedExactly | crates/delta-core/src/client.rs:490-503 | the tar path is open exactly to a client with a cache or a bundle, when a patch from its version is published in a layer with the two identifiers this build implements |
| Flow.FetchCompressedFull | crates/delta-core/src/client.rs:637-679 | the copy is fetched exactly when it is smaller than an installer within the ceiling, and what it rebuilds meets the declared target |
| Flow.ObtainFull | crates/plugin/src/flow.rs:319-362 | the compressed copy at most once, then the URL Tauri selected only if that did not do |
| Flow.CopyExactly | crates/delta-core/src/client.rs:613-636 | the compressed copy taken is the one published for the selected artifact, in the encoding this build decodes, and its target the declared installer |
| Flow.Stage | crates/plugin/src/flow.rs:492-503 | what is recorded is computed from the installed bytes; on a cache nobody else touches it is staged whenever the ceilings, the blob's name and a free number allow, with PENDING, the directory and the blobs then as said, and the caller is told exactly when it could not be |
| Flow.VerifyAndInstall | crates/plugin/src/flow.rs:361-378 | bytes reach the installer exactly when they verify and are the release their signature states, after being offered to the cache; others leave the cache untouched and are reported as unsigned or as another release, whichever it is |
| Flow.RunUpdate | crates/plugin/src/flow.rs:221-395 | whatever is handed over is signed by the configured key and, unless the signature carries no identity, stated by it as this release; only a version of strictly higher precedence is installed, an equal one is nothing to do, a lower or unreadable one is refused as such, with nothing fetched; what was installed is staged in a cache nobody else touches whenever it can be, and a cache write error is reported exactly when it cannot; the trace is fetches and then at most one stage and one hand-over, and the report gives the sizes of the patch used and of the installer; when a delta is ready and acceptable it is what is installed; when the plan proceeds and the compressed copy is served, the release is installed, by a delta or from that copy |
| Flow.RunIsSound | crates/plugin/src/flow.rs:248-395 | acting on a plan keeps everything a run promises, whichever way the artifact was obtained |
| Flow.RunsInstallTheSame | crates/plugin/src/flow.rs:221-479 | any two runs of one authenticated release that reach the installer, on any hosts, install the same verified bytes of a strictly newer version |
| Flow.LegacyReachesOnlyFull | crates/delta-core/src/client.rs:481-493 | a release whose signature carries no identity only ever reaches the two full paths |
| Releases.CheckRequest | crates/delta-release/src/lib.rs:221-264 | accepts exactly the requests whose URLs are publishable and whose versions, URLs and outputs are all distinct |
| Releases.GenerateDirect | crates/delta-release/src/lib.rs:473-501 | a described patch is the file left on disk, generated from this predecessor, and rebuilds the installer; it is described exactly when the proof holds |
| Releases.ProvePatch | crates/delta-release/src/lib.rs:508-529 | the patch on disk is described exactly when applying it gives the expected digest |
| Releases.DirectPatches | crates/delta-release/src/lib.rs:312-319 | every predecessor has its own patch, and writing one disturbs none already proven |
| Releases.BuildTarLayer | crates/delta-release/src/tar_layer.rs:101-244 | a published tar patch is proven by the client's whole path, and the layer names the tar inside the new installer and keeps only patches for that tar; with reliable files it is made exactly when such a patch can be made and proven |
| Releases.RoundTrippedExactly | crates/delta-release/src/tar_layer.rs:201-244 | the proof of a tar patch holds exactly when applying it gives a tar with the expected digest, of at most 8 GiB, that replays into bytes with the installer's digest |
| Releases.RepresentationExactly | crates/delta-release/src/tar_layer.rs:258-272 | an installer is stated to be an `.app.tar.gz` exactly by the end of its name, in either case, and its first two bytes, and otherwise opaque |
| Releases.TarPatches | crates/delta-release/src/lib.rs:382-418 | once anyone asked for a tar layer it is absent or names exactly the tar inside the new installer, whatever was inherited, and every produced patch stays proven; a layer inherited for that tar is kept whole when the first predecessor that asked got its patch, and is otherwise cleared; with reliable files a patch is produced for exactly the predecessors that asked and can have one |
| Releases.InsertPatches | crates/delta-release/src/lib.rs:377-381 | each predecessor's proven patch stands under its own version, every other patch was inherited, and none inherited is missing |
| Releases.BuildEntry | crates/delta-release/src/lib.rs:312-418 | the entry describes the new installer and holds what the run proved |
| Releases.BuildRelease | crates/delta-release/src/lib.rs:216-434 | success means a valid document in which every predecessor has exactly one proven patch, the signature states these bytes and this release, the tar layer is sound, and nothing else inherited changed; an ill-posed request changes nothing; with reliable files and nothing inherited, it succeeds exactly when the request, the installers and every required patch allow it |
| Releases.MergesExactly | crates/delta-release/src/lib.rs:324-434 | over a manifest of the same version, every other platform stands as it was in both layers, and of the platform's own entry the compressed copy and every patch from a version this run did not patch |
| Releases.StartsOver | crates/delta-release/src/lib.rs:324-338 | a manifest of any other version leaves no trace |
| Releases.FreshIsValid | crates/delta-release/src/lib.rs:425 | with nothing inherited, the closing validation accepts whatever a run that had everything it needed has built |
| Releases.ReleasedWasReleasable | crates/delta-release/src/lib.rs:216-434 | the conditions for a release are necessary: each direct patch is provable, each required tar patch can be made, and no base is empty or equal to its target |
| Releases.SignedVerifies | crates/delta-release/src/signing.rs:108-140 | a release signature verifies over the installer and yields exactly the identity that was bound |
| Releases.AddCompressedFull | crates/delta-release/src/lib.rs:541-600 | a copy is attached only when it is proven and strictly smaller than the installer the manifest describes; with reliable files it fails exactly when the URL, the entry, the installer or the proof is wrong |
| Releases.SoundWhenBuilt | crates/delta-release/src/lib.rs:387-391 | adding a proven tar patch keeps the layer sound |
| Releases.EarlierTarsSurvive | crates/delta-release/src/lib.rs:387-405 | generating the next tar patch leaves those already published proven |
| ReleaseChecks.CollectVersions | crates/delta-release/src/verify.rs:196-231 | every URL is checked and the versions are reported once each, in order |
| ReleaseChecks.VerifyRelease | crates/delta-release/src/verify.rs:98-245 | accepts exactly the publishable releases, whose artifact the key signed and the comment states as this release, and lists which versions each kind of patch covers |
| ReleaseChecks.TagNames | crates/delta-release/src/version_contract.rs:93-97 | a tag names what follows `app-v`, or else what follows `v`, or else itself |
| ReleaseChecks.InheritanceDecides | crates/delta-release/src/verify.rs:178-231 | the checker's verdict on a built entry depends only on what was inherited |
| ReleaseChecks.GeneratorImpliesChecker | crates/delta-release/src/verify.rs:98-245 | the checker accepts what the generator emitted exactly when the inherited parts are publishable, and always when no manifest of the same version was inherited |
| EndToEnd.FollowerIsEligible | crates/delta-core/src/client.rs:380-493 | a client pointed at the published document finds its entry and identity and would accept the published installer |
| EndToEnd.DirectCompletes | crates/delta-core/src/client.rs:550-605 | with the published patch served over the cached predecessor, the direct path has everything it needs to give the new installer |
| EndToEnd.TarCompletes | crates/delta-core/src/client.rs:500-548 | with the published tar patch served over the cached predecessor, the tar path has everything it needs to give the new installer |
| EndToEnd.PublishedCopyDecodes | crates/delta-release/src/lib.rs:541-600 | a published compressed copy decodes, within the declared size, to exactly the installer |
| EndToEnd.CopyCompletes | crates/delta-core/src/client.rs:613-679 | with that copy attached to the document and served, the compressed path has everything it needs for any client of an older version, and the plan is not refused |
| EndToEnd.DirectDeltaArrives | crates/delta-core/src/client.rs:368-605 | a client on a listed predecessor of an opaque release installs the new installer byte for byte by direct delta |
| EndToEnd.TarDeltaArrives | crates/delta-core/src/client.rs:368-605 | a client on a predecessor with a published tar patch installs the new installer byte for byte by tar delta |
| EndToEnd.HostBaseDeltaArrives | crates/delta-core/src/client.rs:500-605 | a client whose host supplies the predecessor's installer gets a delta to the new installer byte for byte, whatever its cache holds and whether or not a tar layer was tried first |
| EndToEnd.SeededDeltaArrives | crates/delta-core/src/client.rs:691-745 | a client of an opaque release with the installer kept since installation gets the direct delta to the new installer byte for byte, with no cache or with an opaque one that holds anything |
| EndToEnd.BundleDeltaArrives | crates/delta-core/src/client.rs:1169-1211 | a client whose installed bundle archives to the base tar, and recompresses to the predecessor's installer, gets the tar delta to the new installer byte for byte, whatever its cache holds |
| EndToEnd.CopyArrives | crates/plugin/src/flow.rs:221-395 | a client of any older version, whatever its cache and bases, installs the new installer byte for byte without the full download when the compressed copy is served |

## Left out

- HTTP transport, progress callbacks, the Tauri glue and the example application: a fetch either delivers a body or fails.
- The text of the JSON documents: a manifest or a cache state is the value it parses to, or unreadable.
- Why a full download was chosen: the reasons carried for logging are dropped, the attempted flags are kept.
- The internals of BLAKE3, minisign, DEFLATE and zstd, and the choice of match tables when diffing.
- The URL policy: one predicate shared by the generator and the checker.
- Reading keys, command-line parsing, and the check of a tag against the application's own version files.
- The age sweep of abandoned workspaces and the reuse of process ids in temporary names.
- The order in which `read_dir` yields an installed bundle's files: the archive builder's writes are whatever they are at that moment.
- Releases.BuildRelease: assumes that no output is one of the inputs, because the generator does not check it and would overwrite an installer otherwise; its exact condition for success is stated for a release that inherits nothing, because what an inherited manifest says can fail the closing validation in ways the request does not decide.
- Zstd.Apply: the decoder with an arbitrary behaviour does not look at its input, because nothing is promised about it.
- ArtifactCaches.ArtifactCache.Active: the exact condition for leaving the state alone is stated for a directory nobody else touches, because others may publish meanwhile.
- ArtifactCaches.ArtifactCache.Reconcile: the bound on contention supposes that the directory lists none of the last 129 generation numbers and that no other process publishes one, because past the end of the numbers a taken name is not a rival; what happens there is stated for a process on its own.
- The cache is modelled both as steps of processes and as methods against arbitrary interference, and no theorem ties the two: the first is about whole runs, the second about what each call returns.
- Client.SeededDirectBase: size and digest are seen at two reads and the base is read a third time, because the file is outside the workspace; the target digest gate does not depend on it.
