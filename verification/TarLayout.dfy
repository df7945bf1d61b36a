/**
 * The tar archive as a list of writes (crates/delta-core/src/recompress.rs).
 *
 * The archive writer hands its encoder one header, the payload in pieces of
 * 8192 bytes, an optional NUL for a long-name entry, and one padding piece;
 * at the end, 1024 zero bytes. DEFLATE output depends on those boundaries, so
 * the list of writes, not only their concatenation, is what must be recovered.
 * Header fields are those of the ustar interchange format in the `pax` utility
 * of IEEE Std 1003.1-2017; `L` and `K` are GNU extensions.
 */
module TarLayout {
  import opened Prelude
  import opened TarHeaders

  const COPY_CHUNK: nat := 8192
  const TRAILER: nat := 1024

  function Zeros(n: nat): (z: Bytes)
    ensures |z| == n && forall i :: 0 <= i < n ==> z[i] == 0
  {
    seq(n, _ => 0)
  }

  predicate AllZero(s: Bytes) {
    forall i :: 0 <= i < |s| ==> s[i] == 0
  }

  function Flatten(pieces: seq<Bytes>): Bytes {
    if pieces == [] then [] else pieces[0] + Flatten(pieces[1..])
  }

  lemma {:induction false} FlattenConcat(a: seq<Bytes>, b: seq<Bytes>)
    ensures Flatten(a + b) == Flatten(a) + Flatten(b)
  {
    if a == [] {
      assert a + b == b;
    } else {
      assert (a + b)[1..] == a[1..] + b;
      FlattenConcat(a[1..], b);
    }
  }

  lemma FlattenOne(piece: Bytes)
    ensures Flatten([piece]) == piece
  {
  }

  /** `std::io::copy`: pieces of `COPY_CHUNK`, the last one short. */
  function Chunks(s: Bytes): seq<Bytes>
    decreases |s|
  {
    if s == [] then []
    else if |s| <= COPY_CHUNK then [s]
    else [s[..COPY_CHUNK]] + Chunks(s[COPY_CHUNK..])
  }

  /** Chunking loses nothing, makes no empty piece, and only the last piece is short. */
  lemma {:induction false} ChunksShape(s: Bytes)
    ensures Flatten(Chunks(s)) == s
    ensures forall i :: 0 <= i < |Chunks(s)| ==> 0 < |Chunks(s)[i]| <= COPY_CHUNK
    ensures forall i :: 0 <= i < |Chunks(s)| - 1 ==> |Chunks(s)[i]| == COPY_CHUNK
    decreases |s|
  {
    if |s| > COPY_CHUNK {
      var rest := s[COPY_CHUNK..];
      ChunksShape(rest);
      assert Chunks(s)[1..] == Chunks(rest);
      assert s == s[..COPY_CHUNK] + rest;
    } else if s != [] {
      FlattenOne(s);
    }
  }

  // ---- entries and the writes they make --------------------------------------------

  /** Chunking resumes at any chunk boundary. */
  lemma {:induction false} ChunksAppend(a: Bytes, b: Bytes)
    requires |a| % COPY_CHUNK == 0 && 0 < |b| <= COPY_CHUNK
    ensures Chunks(a + b) == Chunks(a) + [b]
    decreases |a|
  {
    if a == [] {
      assert a + b == b;
    } else {
      ChunksAppend(a[COPY_CHUNK..], b);
      assert (a + b)[..COPY_CHUNK] == a[..COPY_CHUNK];
      assert (a + b)[COPY_CHUNK..] == a[COPY_CHUNK..] + b;
      assert |a| == COPY_CHUNK ==> a[COPY_CHUNK..] == [] && a == a[..COPY_CHUNK];
    }
  }

  function PadLength(written: nat): nat {
    if written % BLOCK == 0 then 0 else BLOCK - written % BLOCK
  }

  /** One archive member: the long-name NUL is `nul`, the bytes up to the next block are `pad`. */
  datatype Entry = Entry(header: Bytes, body: Bytes, nul: Option<byte>, pad: Bytes)
  {
    function Written(): nat { |body| + if nul.Some? then 1 else 0 }
  }

  ghost predicate WellFormed(d: Dialect, e: Entry) {
    && |e.header| == BLOCK && !AllZero(e.header)
    && d.size(e.header) == Some(|e.body|)
    && (e.nul.Some? <==> d.long(e.header))
    && |e.pad| == PadLength(e.Written())
  }

  function EntryWrites(e: Entry): seq<Bytes> {
    [e.header] + Chunks(e.body)
    + (if e.nul.Some? then [[e.nul.value]] else [])
    + (if e.pad != [] then [e.pad] else [])
  }

  function EntryBytes(e: Entry): Bytes {
    e.header + e.body + (if e.nul.Some? then [e.nul.value] else []) + e.pad
  }

  function Writes(entries: seq<Entry>): seq<Bytes> {
    if entries == [] then [Zeros(TRAILER)] else EntryWrites(entries[0]) + Writes(entries[1..])
  }

  function EntriesBytes(entries: seq<Entry>): Bytes {
    if entries == [] then [] else EntryBytes(entries[0]) + EntriesBytes(entries[1..])
  }

  lemma EntryFlattens(e: Entry)
    ensures Flatten(EntryWrites(e)) == EntryBytes(e)
  {
    var nul: seq<Bytes> := if e.nul.Some? then [[e.nul.value]] else [];
    var pad: seq<Bytes> := if e.pad != [] then [e.pad] else [];
    ChunksShape(e.body);
    FlattenConcat([e.header] + Chunks(e.body) + nul, pad);
    FlattenConcat([e.header] + Chunks(e.body), nul);
    FlattenConcat([e.header], Chunks(e.body));
    FlattenOne(e.header);
    if e.nul.Some? { FlattenOne([e.nul.value]); }
    FlattenOne(e.pad);
  }

  /** The archive on disk is the entries, block aligned, then the trailer. */
  lemma {:induction false} WritesFlatten(entries: seq<Entry>)
    ensures Flatten(Writes(entries)) == EntriesBytes(entries) + Zeros(TRAILER)
  {
    if entries == [] {
      FlattenOne(Zeros(TRAILER));
      assert [] + Zeros(TRAILER) == Zeros(TRAILER);
    } else {
      WritesFlatten(entries[1..]);
      EntryFlattens(entries[0]);
      FlattenConcat(EntryWrites(entries[0]), Writes(entries[1..]));
    }
  }

  lemma EntryBytesLength(d: Dialect, e: Entry)
    requires WellFormed(d, e)
    ensures |EntryBytes(e)| == BLOCK + e.Written() + PadLength(e.Written())
    ensures |EntryBytes(e)| % BLOCK == 0
  {
  }

  /** Every piece of every entry is non-empty; payload pieces are 8192 bytes but the last. */
  lemma EntryWritesShape(d: Dialect, e: Entry)
    requires WellFormed(d, e)
    ensures forall i :: 0 <= i < |EntryWrites(e)| ==> EntryWrites(e)[i] != []
    ensures var n := |Chunks(e.body)|;
            && EntryWrites(e)[0] == e.header && EntryWrites(e)[1..n + 1] == Chunks(e.body)
            && (forall i :: 1 <= i < n ==> |EntryWrites(e)[i]| == COPY_CHUNK)
            && (n > 0 ==> |EntryWrites(e)[n]| <= COPY_CHUNK)
  {
    ChunksShape(e.body);
  }

  // ---- what replay makes of arbitrary bytes -----------------------------------------

  /** The entry at the front of `data`, if there is a whole one within `left` bytes of the header. */
  function FirstEntry(d: Dialect, data: Bytes, left: int): Option<Entry>
    requires |data| >= BLOCK
  {
    var header := data[..BLOCK];
    match d.size(header)
    case None => None
    case Some(declared) =>
      var long := d.long(header);
      var written := if long then declared + 1 else declared;
      var pad := PadLength(written);
      if written > Max(left, 0) || |data| < BLOCK + written + pad then None
      else Some(Entry(header, data[BLOCK..BLOCK + declared],
                      if long then Some(data[BLOCK + declared]) else None,
                      data[BLOCK + written..BLOCK + written + pad]))
  }

  /** The entries of `data` up to its first zero block; `left` is what `total` still allows from here. */
  function Parsed(d: Dialect, data: Bytes, left: int): Option<seq<Entry>>
    decreases |data|
  {
    if |data| < BLOCK then None
    else if AllZero(data[..BLOCK]) then Some([])
    else
      match FirstEntry(d, data, left - BLOCK)
      case None => None
      case Some(e) =>
        var size := |EntryBytes(e)|;
        match Parsed(d, data[size..], left - size)
        case None => None
        case Some(rest) => Some([e] + rest)
  }

  /** The writes `replay` makes of an archive of `total` bytes when it succeeds. */
  function Replayed(d: Dialect, data: Bytes, total: nat): Option<seq<Bytes>> {
    match Parsed(d, data, total)
    case None => None
    case Some(entries) => Some(Writes(entries))
  }

  /** What lies where in `data` when it starts with an entry. */
  lemma EntryFront(d: Dialect, e: Entry, tail: Bytes, data: Bytes)
    requires WellFormed(d, e) && data == EntryBytes(e) + tail
    ensures |EntryBytes(e)| == BLOCK + e.Written() + |e.pad| <= |data|
    ensures data[..BLOCK] == e.header && data[BLOCK..BLOCK + |e.body|] == e.body
    ensures e.nul.Some? ==> data[BLOCK + |e.body|] == e.nul.value
    ensures data[BLOCK + e.Written()..BLOCK + e.Written() + |e.pad|] == e.pad
    ensures data[|EntryBytes(e)|..] == tail
  {
    EntryBytesLength(d, e);
  }

  lemma FirstEntryFound(d: Dialect, e: Entry, tail: Bytes, data: Bytes, left: int)
    requires WellFormed(d, e) && data == EntryBytes(e) + tail && left >= e.Written()
    ensures |data| >= BLOCK && FirstEntry(d, data, left) == Some(e)
  {
    EntryFront(d, e, tail, data);
  }

  lemma AppendAssociates(a: Bytes, b: Bytes, c: Bytes)
    ensures a + (b + c) == (a + b) + c
    ensures |a| % BLOCK == 0 && |b| % BLOCK == 0 ==> |a + b| % BLOCK == 0
  {
  }

  /** Parsing takes the first entry off, and goes on with the rest. */
  lemma ParsedEntry(d: Dialect, data: Bytes, left: int, e: Entry, size: nat, tail: Bytes)
    requires |data| >= BLOCK && !AllZero(data[..BLOCK]) && FirstEntry(d, data, left - BLOCK) == Some(e)
    requires size == |EntryBytes(e)| <= |data| && tail == data[size..]
    ensures Parsed(d, data, left) == match Parsed(d, tail, left - size)
                                     case None => None
                                     case Some(more) => Some([e] + more)
  {
  }

  lemma FrontFound(d: Dialect, e: Entry, tail: Bytes, data: Bytes, left: int, size: nat)
    requires WellFormed(d, e) && data == EntryBytes(e) + tail && left >= size == |EntryBytes(e)|
    ensures BLOCK <= size <= |data| && !AllZero(data[..BLOCK]) && data[size..] == tail
    ensures FirstEntry(d, data, left - BLOCK) == Some(e)
  {
    EntryFront(d, e, tail, data);
    FirstEntryFound(d, e, tail, data, left - BLOCK);
  }

  /** Putting one well-formed entry in front adds that entry. */
  lemma ParseCons(d: Dialect, e: Entry, tail: Bytes, data: Bytes, left: int, size: nat, more: seq<Entry>)
    requires WellFormed(d, e) && data == EntryBytes(e) + tail && left >= size == |EntryBytes(e)|
    requires Parsed(d, tail, left - size) == Some(more)
    ensures Parsed(d, data, left) == Some([e] + more)
  {
    FrontFound(d, e, tail, data, left, size);
    ParsedEntry(d, data, left, e, size, tail);
  }

  lemma EntriesStart(entries: seq<Entry>, rest: Bytes)
    requires entries != []
    ensures entries == [entries[0]] + entries[1..]
    ensures EntriesBytes(entries) + rest == EntryBytes(entries[0]) + (EntriesBytes(entries[1..]) + rest)
    ensures |EntriesBytes(entries)| == |EntryBytes(entries[0])| + |EntriesBytes(entries[1..])|
  {
    AppendAssociates(EntryBytes(entries[0]), EntriesBytes(entries[1..]), rest);
  }

  lemma {:induction false} ParseEntries(d: Dialect, entries: seq<Entry>, rest: Bytes, left: int)
    requires forall i :: 0 <= i < |entries| ==> WellFormed(d, entries[i])
    requires |rest| >= BLOCK && AllZero(rest[..BLOCK]) && left >= |EntriesBytes(entries)|
    ensures Parsed(d, EntriesBytes(entries) + rest, left) == Some(entries)
    decreases |entries|
  {
    if entries == [] {
      assert [] + rest == rest;
    } else {
      EntriesStart(entries, rest);
      var tail := EntriesBytes(entries[1..]) + rest;
      ParseEntries(d, entries[1..], rest, left - |EntryBytes(entries[0])|);
      ParseCons(d, entries[0], tail, EntriesBytes(entries) + rest, left, |EntryBytes(entries[0])|, entries[1..]);
    }
  }

  /**
   * Replay inverts flattening. Over the archive the writer makes of any
   * well-formed entries, and over anything that continues it, replay emits the
   * writer's own list of writes, piece for piece.
   */
  lemma ReplayInvertsFlattening(d: Dialect, entries: seq<Entry>, junk: Bytes)
    requires forall i :: 0 <= i < |entries| ==> WellFormed(d, entries[i])
    ensures var data := Flatten(Writes(entries)) + junk;
            Replayed(d, data, |data|) == Some(Writes(entries))
  {
    var data := Flatten(Writes(entries)) + junk;
    WritesFlatten(entries);
    AppendAssociates(EntriesBytes(entries), Zeros(TRAILER), junk);
    ParseEntries(d, entries, Zeros(TRAILER) + junk, |data|);
  }

  lemma FirstEntryIsWellFormed(d: Dialect, data: Bytes, left: int)
    requires |data| >= BLOCK && !AllZero(data[..BLOCK]) && FirstEntry(d, data, left).Some?
    ensures var e := FirstEntry(d, data, left).value;
            && WellFormed(d, e) && |EntryBytes(e)| <= |data| && data[..|EntryBytes(e)|] == EntryBytes(e)
            && |EntryBytes(e)| == BLOCK + e.Written() + |e.pad|
  {
    var e := FirstEntry(d, data, left).value;
    EntryBytesLength(d, e);
    var n := |EntryBytes(e)|;
    forall i | 0 <= i < n ensures data[i] == EntryBytes(e)[i] {
    }
  }

  /** The front of data that starts with an entry, and what is left of it. */
  lemma FrontTaken(d: Dialect, data: Bytes, left: int, e: Entry) returns (size: nat, tail: Bytes)
    requires |data| >= BLOCK && !AllZero(data[..BLOCK]) && FirstEntry(d, data, left) == Some(e)
    ensures 0 < size == |EntryBytes(e)| <= |data| && size % BLOCK == 0
    ensures WellFormed(d, e) && data == EntryBytes(e) + tail && tail == data[size..]
  {
    FirstEntryIsWellFormed(d, data, left);
    EntryBytesLength(d, e);
    size := |EntryBytes(e)|;
    tail := data[size..];
    assert data == data[..size] + data[size..];
  }

  lemma FirstExists(d: Dialect, data: Bytes, left: int) returns (e: Entry)
    requires Parsed(d, data, left).Some? && !AllZero(data[..BLOCK])
    ensures |data| >= BLOCK && FirstEntry(d, data, left - BLOCK) == Some(e)
  {
    e := FirstEntry(d, data, left - BLOCK).value;
  }

  /** A successful parse of anything not starting with a zero block is of an entry and then of the rest. */
  lemma ParseUncons(d: Dialect, data: Bytes, left: int) returns (e: Entry, size: nat, tail: Bytes)
    requires Parsed(d, data, left).Some? && !ZeroFirst(data)
    ensures |data| >= BLOCK && FirstEntry(d, data, left - BLOCK) == Some(e)
    ensures 0 < size == |EntryBytes(e)| <= |data| && tail == data[size..] && |tail| < |data| && Parsed(d, tail, left - size).Some?
  {
    e := FirstExists(d, data, left);
    size, tail := FrontTaken(d, data, left - BLOCK, e);
    ParsedEntry(d, data, left, e, size, tail);
  }

  /** `entries` are well formed, block aligned, and all of `data` before `rest`, which starts with a zero block. */
  ghost predicate Consumed(d: Dialect, data: Bytes, entries: seq<Entry>, rest: Bytes) {
    && (forall i :: 0 <= i < |entries| ==> WellFormed(d, entries[i]))
    && data == EntriesBytes(entries) + rest && |EntriesBytes(entries)| % BLOCK == 0
    && |rest| >= BLOCK && AllZero(rest[..BLOCK])
  }

  lemma ConsumedCons(d: Dialect, data: Bytes, e: Entry, more: seq<Entry>, tail: Bytes, rest: Bytes)
    requires WellFormed(d, e) && Consumed(d, tail, more, rest) && data == EntryBytes(e) + tail
    ensures Consumed(d, data, [e] + more, rest)
  {
    EntryBytesLength(d, e);
    EntriesStart([e] + more, rest);
    assert ([e] + more)[1..] == more;
    AppendAssociates(EntryBytes(e), EntriesBytes(more), rest);
  }

  /** What was found after the first entry, with that entry in front. */
  lemma SoundStep(d: Dialect, data: Bytes, left: int, e: Entry, size: nat, tail: Bytes, found: seq<Entry>, rest: Bytes)
    requires |data| >= BLOCK && !ZeroFirst(data) && FirstEntry(d, data, left - BLOCK) == Some(e)
    requires size == |EntryBytes(e)| <= |data| && tail == data[size..]
    requires Parsed(d, tail, left - size) == Some(found) && Consumed(d, tail, found, rest)
    ensures Parsed(d, data, left) == Some([e] + found) && Consumed(d, data, [e] + found, rest)
  {
    var size', tail' := FrontTaken(d, data, left - BLOCK, e);
    ParsedEntry(d, data, left, e, size, tail);
    ConsumedCons(d, data, e, found, tail, rest);
  }

  predicate ZeroFirst(data: Bytes) { |data| >= BLOCK && AllZero(data[..BLOCK]) }

  lemma ParseStops(d: Dialect, data: Bytes, left: int)
    requires ZeroFirst(data)
    ensures Parsed(d, data, left) == Some([]) && Consumed(d, data, [], data)
  {
    assert [] + data == data;
  }

  /**
   * Replay on arbitrary bytes. When it succeeds, what it found is well-formed
   * entries whose bytes are exactly the blocks before the first zero block.
   */
  lemma {:induction false} ParseSound(d: Dialect, data: Bytes, left: int) returns (entries: seq<Entry>, rest: Bytes)
    requires Parsed(d, data, left).Some?
    ensures Parsed(d, data, left) == Some(entries) && Consumed(d, data, entries, rest)
    decreases |data|
  {
    if ZeroFirst(data) {
      entries, rest := [], data;
      ParseStops(d, data, left);
    } else {
      var e, size, tail := ParseUncons(d, data, left);
      var found;
      found, rest := ParseSound(d, tail, left - size);
      entries := [e] + found;
      SoundStep(d, data, left, e, size, tail, found, rest);
    }
  }

  /** No write is ever empty. */
  lemma {:induction false} NoEmptyWrite(d: Dialect, entries: seq<Entry>)
    requires forall i :: 0 <= i < |entries| ==> WellFormed(d, entries[i])
    ensures forall i :: 0 <= i < |Writes(entries)| ==> Writes(entries)[i] != []
    decreases |entries|
  {
    if entries != [] {
      EntryWritesShape(d, entries[0]);
      NoEmptyWrite(d, entries[1..]);
    }
  }

  /**
   * Replay on arbitrary bytes: a success wrote, in order and without an empty
   * write, exactly the `n` bytes before a zero block, then 1024 zeros.
   */
  lemma ReplaySound(d: Dialect, data: Bytes, total: nat) returns (n: nat)
    requires Replayed(d, data, total).Some?
    ensures n % BLOCK == 0 && n + BLOCK <= |data| && AllZero(data[n..n + BLOCK])
    ensures var writes := Replayed(d, data, total).value;
            && Flatten(writes) == data[..n] + Zeros(TRAILER)
            && forall i :: 0 <= i < |writes| ==> writes[i] != []
  {
    var entries, rest := ParseSound(d, data, total);
    n := |EntriesBytes(entries)|;
    assert data[..n] == EntriesBytes(entries) && data[n..n + BLOCK] == rest[..BLOCK];
    WritesFlatten(entries);
    NoEmptyWrite(d, entries);
  }

  /** What recompression makes of a tar, for an encoder that depends on its writes alone. */
  function Recompressed(gzip: seq<Bytes> -> Bytes, tar: Bytes, limit: nat): Option<Bytes> {
    if |tar| > limit then None
    else
      match Replayed(USTAR, tar, |tar|)
      case None => None
      case Some(writes) => Some(gzip(writes))
  }

  /** A list of writes some archive writer made. */
  ghost predicate WriterMade(writes: seq<Bytes>) {
    exists entries :: (forall i :: 0 <= i < |entries| ==> WellFormed(USTAR, entries[i])) && Writes(entries) == writes
  }

  /**
   * Byte identity. Decompressing an artifact to its tar and recompressing that
   * gives the artifact back whenever its encoder was fed by the writer the
   * recipe names, and, for an encoder that tells all write lists apart, only then.
   */
  lemma ByteIdentity(gzip: seq<Bytes> -> Bytes, writes: seq<Bytes>, limit: nat)
    requires |Flatten(writes)| <= limit
    ensures WriterMade(writes) ==> Recompressed(gzip, Flatten(writes), limit) == Some(gzip(writes))
    ensures (forall v, w :: gzip(v) == gzip(w) ==> v == w) && Recompressed(gzip, Flatten(writes), limit) == Some(gzip(writes))
            ==> WriterMade(writes)
  {
    var tar := Flatten(writes);
    if WriterMade(writes) {
      var entries :| (forall i :: 0 <= i < |entries| ==> WellFormed(USTAR, entries[i])) && Writes(entries) == writes;
      ReplayInvertsFlattening(USTAR, entries, []);
      assert tar + [] == tar;
    }
    if (forall v, w :: gzip(v) == gzip(w) ==> v == w) && Recompressed(gzip, tar, limit) == Some(gzip(writes)) {
      var entries, _ := ParseSound(USTAR, tar, |tar|);
      assert Writes(entries) == writes;
    }
  }

  // ---- byte for byte -------------------------------------------------------------------

  /** Consecutive pieces of 8192 bytes, the last of them what is left. */
  ghost predicate InPieces(pieces: seq<Bytes>, s: Bytes) {
    && |pieces| == (|s| + 8191) / 8192
    && forall k :: 0 <= k < |pieces| ==> pieces[k] == s[8192 * k..Min(8192 * k + 8192, |s|)]
  }

  lemma {:induction false} ChunksArePieces(s: Bytes)
    ensures InPieces(Chunks(s), s)
    decreases |s|
  {
    if |s| > 8192 {
      var rest, pieces := s[8192..], Chunks(s);
      ChunksArePieces(rest);
      assert pieces[0] == s[..8192] && pieces[1..] == Chunks(rest);
      forall k | 0 <= k < |pieces| ensures pieces[k] == s[8192 * k..Min(8192 * k + 8192, |s|)] {
        if k > 0 {
          assert pieces[k] == Chunks(rest)[k - 1];
        }
      }
    }
  }

  /**
   * Exactly the members of a ustar archive: a block that is not all zeros, with
   * the size at byte 124, as much payload, one more byte for types `L` and `K`
   * and for no other, and what is missing to the next multiple of 512.
   */
  lemma MembersExactly(e: Entry)
    ensures WellFormed(USTAR, e) <==>
            && |e.header| == 512 && (exists i :: 0 <= i < 512 && e.header[i] != 0)
            && ParseOctal(AsText(e.header[124..136])) == Some(|e.body|)
            && (e.nul.Some? <==> e.header[156] == 76 || e.header[156] == 75)
            && |e.pad| < 512 && (|e.body| + (if e.nul.Some? then 1 else 0) + |e.pad|) % 512 == 0
  {
  }

  /**
   * One member, the trailer, and whatever follows it. A long name's NUL comes
   * out as a write of its own between the name and the padding; for no other
   * type is there such a write.
   */
  lemma MemberReplays(header: Bytes, body: Bytes, nul: Bytes, pad: Bytes, junk: Bytes)
    requires |header| == 512 && (exists i :: 0 <= i < 512 && header[i] != 0)
    requires |body| < Pow8(11) && AsText(header[124..136]) == SizeField(|body|)
    requires |nul| == if header[156] == 76 || header[156] == 75 then 1 else 0
    requires |pad| < 512 && (|body| + |nul| + |pad|) % 512 == 0
    ensures InPieces(Chunks(body), body)
    ensures var data := header + body + nul + pad + Zeros(1024) + junk;
            Replayed(USTAR, data, |data|) ==
            Some([header] + Chunks(body) + (if nul == [] then [] else [nul]) + (if pad == [] then [] else [pad]) + [Zeros(1024)])
  {
    var e := Entry(header, body, if nul == [] then None else Some(nul[0]), pad);
    ChunksArePieces(body);
    SizeRoundTrip(header, |body|);
    MembersExactly(e);
    SoleEntry(e, nul);
    ReplayInvertsFlattening(USTAR, [e], junk);
  }

  lemma SoleEntry(e: Entry, nul: Bytes)
    requires nul == if e.nul.Some? then [e.nul.value] else []
    ensures Flatten(Writes([e])) == e.header + e.body + nul + e.pad + Zeros(1024)
    ensures Writes([e]) ==
            [e.header] + Chunks(e.body) + (if nul == [] then [] else [nul]) + (if e.pad == [] then [] else [e.pad]) + [Zeros(1024)]
  {
    WritesFlatten([e]);
    assert [e][1..] == [];
    assert EntriesBytes([e]) == EntryBytes(e) + [];
  }
}
