/**
 * Entry-aware recompression (crates/delta-core/src/recompress.rs): walking a
 * flat tar and handing the encoder the pieces its writer once handed it.
 */
module Recompress {
  import opened Prelude
  import opened Streams
  import opened TarHeaders
  import opened TarLayout

  datatype ReplayError = Io | Malformed

  datatype RecompressError = Replay(error: ReplayError) | DeclaredSizeTooLarge(declared: nat, limit: nat)

  datatype DecompressError = Failed | OutputTooLarge(limit: nat)

  /** The gzip encoder, as the list of writes it has been handed. */
  class Encoder {
    var writes: seq<Bytes>
    const reliable: bool

    constructor (reliable: bool)
      ensures writes == [] && this.reliable == reliable
    {
      this.writes := [];
      this.reliable := reliable;
    }

    method WriteAll(piece: Bytes) returns (ok: bool)
      modifies this
      ensures reliable ==> ok
      ensures ok ==> writes == old(writes) + [piece]
    {
      var failed: bool := *;
      if failed && !reliable {
        return false;
      }
      writes := writes + [piece];
      return true;
    }
  }

  /** Fill `buffer[..to]`, tolerating short reads. */
  method ReadFull(source: Source, buffer: array<byte>, to: nat) returns (r: Result<nat, ()>)
    requires to <= buffer.Length
    modifies source`rest, buffer
    ensures source.reliable ==> r.Ok?
    ensures r.Ok? ==>
      && r.value == Min(to, |old(source.rest)|)
      && source.rest == old(source.rest)[r.value..]
      && buffer[..r.value] == old(source.rest)[..r.value]
  {
    var filled := 0;
    assert source.rest[0..] == source.rest && buffer[..0] == source.rest[..0];
    while filled < to
      invariant filled <= to && filled <= |old(source.rest)|
      invariant source.rest == old(source.rest)[filled..]
      invariant buffer[..filled] == old(source.rest)[..filled]
    {
      ghost var before := buffer[..filled];
      var got := source.Read(buffer, filled, to);
      if got.Err? {
        return Err(());
      }
      if got.value == 0 {
        break;
      }
      assert buffer[..filled + got.value] == before + buffer[filled..filled + got.value];
      filled := filled + got.value;
    }
    return Ok(filled);
  }

  /** Exactly `count` bytes of the source, as one write. */
  method CopyPiece(source: Source, buffer: array<byte>, count: nat, out: Encoder) returns (r: Result<(), ReplayError>)
    requires count <= buffer.Length
    modifies source`rest, buffer, out
    ensures source.reliable && out.reliable ==> r != Err(Io)
    ensures r == Err(Malformed) ==> |old(source.rest)| < count
    ensures r.Ok? ==>
      && count <= |old(source.rest)| && source.rest == old(source.rest)[count..]
      && out.writes == old(out.writes) + [old(source.rest)[..count]]
  {
    var got := ReadFull(source, buffer, count);
    if got.Err? {
      return Err(Io);
    }
    if got.value != count {
      return Err(Malformed);
    }
    var ok := out.WriteAll(buffer[..count]);
    return if ok then Ok(()) else Err(Io);
  }

  /** The payload, copied through the buffer: each filling of it is one write. */
  method CopyPayload(source: Source, buffer: array<byte>, body: nat, out: Encoder) returns (r: Result<(), ReplayError>)
    requires buffer.Length == COPY_CHUNK
    modifies source`rest, buffer, out
    ensures source.reliable && out.reliable ==> r != Err(Io)
    ensures r == Err(Malformed) ==> |old(source.rest)| < body
    ensures r.Ok? ==>
      && body <= |old(source.rest)| && source.rest == old(source.rest)[body..]
      && out.writes == old(out.writes) + Chunks(old(source.rest)[..body])
  {
    ghost var data, sent, made := source.rest, out.writes, [];
    var left := body;
    while left > 0
      invariant 0 <= left <= body && body - left <= |data|
      invariant source.rest == data[body - left..]
      invariant left > 0 ==> (body - left) % COPY_CHUNK == 0
      invariant made == Chunks(data[..body - left]) && out.writes == sent + made
    {
      ghost var taken := body - left;
      var want := Min(COPY_CHUNK, left);
      r := CopyPiece(source, buffer, want, out);
      if r.Err? {
        return;
      }
      NextPiece(data, taken, want);
      Regroup(sent, made, [data[taken..][..want]]);
      made := made + [data[taken..][..want]];
      left := left - want;
    }
    return Ok(());
  }

  lemma Regroup(a: seq<Bytes>, b: seq<Bytes>, c: seq<Bytes>)
    ensures (a + b) + c == a + (b + c)
  {
  }

  lemma NextPiece(data: Bytes, taken: nat, want: nat)
    requires taken % COPY_CHUNK == 0 && 0 < want <= COPY_CHUNK && taken + want <= |data|
    ensures data[taken..][want..] == data[taken + want..]
    ensures Chunks(data[..taken + want]) == Chunks(data[..taken]) + [data[taken..][..want]]
  {
    ChunksAppend(data[..taken], data[taken..][..want]);
    assert data[..taken + want] == data[..taken] + data[taken..][..want];
  }

  /** What replay will have written in all once it has made the writes `done` and `rest` is still unread. */
  ghost function Ahead(d: Dialect, done: seq<Bytes>, rest: Bytes, left: int): Option<seq<Bytes>> {
    match Parsed(d, rest, left)
    case None => None
    case Some(entries) => Some(done + Writes(entries))
  }

  lemma AheadOfEntry(d: Dialect, done: seq<Bytes>, rest: Bytes, left: int, e: Entry, size: nat, tail: Bytes)
    requires |rest| >= BLOCK && !AllZero(rest[..BLOCK]) && FirstEntry(d, rest, left - BLOCK) == Some(e)
    requires size == |EntryBytes(e)| <= |rest| && tail == rest[size..]
    ensures Ahead(d, done, rest, left) == Ahead(d, done + EntryWrites(e), tail, left - size)
  {
    ParsedEntry(d, rest, left, e, size, tail);
    var more := Parsed(d, tail, left - size);
    if more.Some? {
      WritesCons(e, more.value);
      Regroup(done, EntryWrites(e), Writes(more.value));
    }
  }

  lemma WritesCons(e: Entry, more: seq<Entry>)
    ensures Writes([e] + more) == EntryWrites(e) + Writes(more)
  {
    assert ([e] + more)[1..] == more;
  }

  /** The entry a header introduces, once the header has been read and `written` found to fit. */
  function Following(d: Dialect, header: Bytes, declared: nat, rest: Bytes): Option<Entry> {
    var long := d.long(header);
    var written := if long then declared + 1 else declared;
    var pad := PadLength(written);
    if |rest| < written + pad then None
    else Some(Entry(header, rest[..declared], if long then Some(rest[declared]) else None,
                    rest[written..written + pad]))
  }

  lemma FollowingIsFirst(d: Dialect, header: Bytes, declared: nat, rest: Bytes, left: int)
    requires |header| == BLOCK && d.size(header) == Some(declared)
    requires Max(left, 0) >= if d.long(header) then declared + 1 else declared
    ensures FirstEntry(d, header + rest, left) == Following(d, header, declared, rest)
  {
    var data := header + rest;
    assert data[..BLOCK] == header;
    var written := if d.long(header) then declared + 1 else declared;
    var pad := PadLength(written);
    if |rest| >= written + pad {
      assert data[BLOCK..BLOCK + declared] == rest[..declared];
      assert data[BLOCK + written..BLOCK + written + pad] == rest[written..written + pad];
    }
  }

  /** The header, the payload and the chained NUL, each as the writer made it. */
  method CopyBody(source: Source, header: Bytes, declared: nat, long: bool, payload: array<byte>, out: Encoder)
    returns (r: Result<(), ReplayError>)
    requires payload.Length == COPY_CHUNK
    modifies source`rest, payload, out
    ensures source.reliable && out.reliable ==> r != Err(Io)
    ensures r == Err(Malformed) ==> |old(source.rest)| < if long then declared + 1 else declared
    ensures r.Ok? ==>
      var rest, written := old(source.rest), if long then declared + 1 else declared;
      && written <= |rest| && source.rest == rest[written..]
      && out.writes == old(out.writes) + ([header] + Chunks(rest[..declared]) + if long then [[rest[declared]]] else [])
  {
    ghost var rest, sent := source.rest, out.writes;
    var ok := out.WriteAll(header);
    if !ok {
      return Err(Io);
    }
    r := CopyPayload(source, payload, declared, out);
    Regroup(sent, [header], Chunks(rest[..Min(declared, |rest|)]));
    if r.Ok? && long {
      assert |rest| > declared ==> rest[declared..][..1] == [rest[declared]];
      ghost var made := [header] + Chunks(rest[..declared]);
      r := CopyPiece(source, payload, 1, out);
      if r.Ok? {
        Regroup(sent, made, [[rest[declared]]]);
      }
    }
  }

  /** One entry after its header: payload, chained NUL, padding. */
  method CopyEntry(d: Dialect, source: Source, header: Bytes, declared: nat, payload: array<byte>, out: Encoder)
    returns (r: Result<nat, ReplayError>)
    requires payload.Length == COPY_CHUNK
    modifies source`rest, payload, out
    ensures source.reliable && out.reliable ==> r != Err(Io)
    ensures r == Err(Malformed) ==> Following(d, header, declared, old(source.rest)).None?
    ensures r.Ok? ==> Copied(d, header, declared, old(source.rest), old(out.writes), r.value, source.rest, out.writes)
  {
    ghost var rest, sent := source.rest, out.writes;
    var long := d.long(header);
    var written := if long then declared + 1 else declared;
    var copied := CopyBody(source, header, declared, long, payload, out);
    if copied.Err? {
      return Err(copied.error);
    }
    var padding := PadLength(written);
    if padding != 0 {
      ghost var body := [header] + Chunks(rest[..declared]) + if long then [[rest[declared]]] else [];
      copied := CopyPiece(source, payload, padding, out);
      if copied.Err? {
        return Err(copied.error);
      }
      Regroup(sent, body, [rest[written..][..padding]]);
      SlicesMeet(rest, written, padding);
    }
    return Ok(written + padding);
  }

  lemma SlicesMeet(rest: Bytes, n: nat, m: nat)
    requires n + m <= |rest|
    ensures rest[n..][..m] == rest[n..n + m] && rest[n..][m..] == rest[n + m..]
  {
  }

  lemma AheadEnds(d: Dialect, done: seq<Bytes>, rest: Bytes, left: int)
    requires |rest| >= BLOCK && AllZero(rest[..BLOCK])
    ensures Ahead(d, done, rest, left) == Some(done + [Zeros(TRAILER)])
  {
  }

  lemma AheadFails(d: Dialect, done: seq<Bytes>, rest: Bytes, left: int)
    requires |rest| < BLOCK || (!AllZero(rest[..BLOCK]) && FirstEntry(d, rest, left - BLOCK).None?)
    ensures Ahead(d, done, rest, left).None?
  {
  }

  lemma DropAcross(header: Bytes, rest: Bytes, n: nat)
    requires n <= |rest|
    ensures (header + rest)[..|header|] == header && (header + rest)[|header| + n..] == rest[n..]
  {
  }

  lemma FollowingSize(d: Dialect, header: Bytes, declared: nat, rest: Bytes)
    requires |header| == BLOCK && Following(d, header, declared, rest).Some?
    ensures var e := Following(d, header, declared, rest).value;
            |EntryBytes(e)| == BLOCK + e.Written() + |e.pad| <= BLOCK + |rest|
  {
  }

  /** The entry a header introduces is the first of what starts with that header. */
  lemma FollowingFront(d: Dialect, header: Bytes, declared: nat, rest: Bytes, at: Bytes, left: int, e: Entry, n: nat)
    requires |header| == BLOCK && d.size(header) == Some(declared) && at == header + rest
    requires Max(left - BLOCK, 0) >= if d.long(header) then declared + 1 else declared
    requires Following(d, header, declared, rest) == Some(e) && n == e.Written() + |e.pad|
    ensures n <= |rest| && |at| >= BLOCK && at[..BLOCK] == header && at[BLOCK + n..] == rest[n..]
    ensures FirstEntry(d, at, left - BLOCK) == Some(e) && |EntryBytes(e)| == BLOCK + n
  {
    FollowingSize(d, header, declared, rest);
    DropAcross(header, rest, n);
    FollowingIsFirst(d, header, declared, rest, left - BLOCK);
  }

  /** What copying the entry a header introduces does: the bytes it takes, and the writes it makes after `sent`. */
  ghost predicate Copied(d: Dialect, header: Bytes, declared: nat, rest: Bytes, sent: seq<Bytes>,
                         n: nat, tail: Bytes, writes: seq<Bytes>)
  {
    match Following(d, header, declared, rest)
    case None => false
    case Some(e) => n == e.Written() + |e.pad| <= |rest| && tail == rest[n..] && writes == sent + EntryWrites(e)
  }

  /** An entry that is all there: replay goes on after it. */
  lemma AheadOfWhole(d: Dialect, sent: seq<Bytes>, header: Bytes, declared: nat, rest: Bytes, at: Bytes, left: int,
                     n: nat, tail: Bytes, writes: seq<Bytes>)
    requires |header| == BLOCK && !AllZero(header) && d.size(header) == Some(declared) && at == header + rest
    requires Max(left - BLOCK, 0) >= if d.long(header) then declared + 1 else declared
    requires Copied(d, header, declared, rest, sent, n, tail, writes)
    ensures |tail| <= |rest| && Ahead(d, sent, at, left) == Ahead(d, writes, tail, left - (BLOCK + n))
  {
    var e := Following(d, header, declared, rest).value;
    FollowingFront(d, header, declared, rest, at, left, e, n);
    AheadOfEntry(d, sent, at, left, e, BLOCK + n, tail);
  }

  /** An entry cut short: replay has no reading of it. */
  lemma AheadOfPart(d: Dialect, done: seq<Bytes>, header: Bytes, declared: nat, rest: Bytes, left: int)
    requires |header| == BLOCK && !AllZero(header) && d.size(header) == Some(declared)
    requires Max(left - BLOCK, 0) >= if d.long(header) then declared + 1 else declared
    requires Following(d, header, declared, rest).None?
    ensures Ahead(d, done, header + rest, left).None?
  {
    DropAcross(header, rest, 0);
    FollowingIsFirst(d, header, declared, rest, left - BLOCK);
    AheadFails(d, done, header + rest, left);
  }

  lemma AheadOfMisfit(d: Dialect, done: seq<Bytes>, header: Bytes, rest: Bytes, left: int)
    requires |header| == BLOCK && !AllZero(header)
    requires match d.size(header)
             case None => true
             case Some(declared) => Max(left - BLOCK, 0) < if d.long(header) then declared + 1 else declared
    ensures Ahead(d, done, header + rest, left).None?
  {
    assert (header + rest)[..BLOCK] == header;
  }

  /** A header that is not zero, and the entry it introduces: how many bytes they took. */
  method ReplayEntry(d: Dialect, source: Source, header: Bytes, left: int, payload: array<byte>, out: Encoder)
    returns (r: Result<nat, ReplayError>)
    requires payload.Length == COPY_CHUNK && |header| == BLOCK && !AllZero(header)
    modifies source`rest, payload, out
    ensures source.reliable && out.reliable ==> r != Err(Io)
    ensures r == Err(Malformed) ==> Ahead(d, old(out.writes), header + old(source.rest), left).None?
    ensures r.Ok? ==>
      && r.value > 0 && |source.rest| <= |old(source.rest)|
      && Ahead(d, old(out.writes), header + old(source.rest), left) == Ahead(d, out.writes, source.rest, left - r.value)
  {
    ghost var rest, sent := source.rest, out.writes;
    var size := d.size(header);
    if size.None? {
      AheadOfMisfit(d, sent, header, rest, left);
      return Err(Malformed);
    }
    var declared := size.value;
    var written := if d.long(header) then declared + 1 else declared;
    if written > Max(left - BLOCK, 0) {
      AheadOfMisfit(d, sent, header, rest, left);
      return Err(Malformed);
    }
    var copied := CopyEntry(d, source, header, declared, payload, out);
    if copied.Err? {
      if copied.error.Malformed? {
        AheadOfPart(d, sent, header, declared, rest, left);
      }
      return Err(copied.error);
    }
    AheadOfWhole(d, sent, header, declared, rest, header + rest, left, copied.value, source.rest, out.writes);
    return Ok(BLOCK + copied.value);
  }

  /** One turn of the walk: the bytes it took, or zero once the trailer is written. */
  method ReplayBlock(d: Dialect, source: Source, left: int, header: array<byte>, payload: array<byte>, out: Encoder)
    returns (r: Result<nat, ReplayError>)
    requires header.Length == BLOCK && payload.Length == COPY_CHUNK
    modifies source`rest, header, payload, out
    ensures source.reliable && out.reliable ==> r != Err(Io)
    ensures r == Err(Malformed) ==> Ahead(d, old(out.writes), old(source.rest), left).None?
    ensures r == Ok(0) ==> Ahead(d, old(out.writes), old(source.rest), left) == Some(out.writes)
    ensures r.Ok? && r.value > 0 ==>
      && |source.rest| < |old(source.rest)|
      && Ahead(d, old(out.writes), old(source.rest), left) == Ahead(d, out.writes, source.rest, left - r.value)
  {
    ghost var at, sent := source.rest, out.writes;
    var got := ReadFull(source, header, BLOCK);
    if got.Err? {
      return Err(Io);
    }
    if got.value != BLOCK {
      AheadFails(d, sent, at, left);
      return Err(Malformed);
    }
    var block := header[..];
    assert at == block + source.rest;
    if AllZero(block) {
      assert at[..BLOCK] == block;
      var ok := out.WriteAll(Zeros(TRAILER));
      AheadEnds(d, sent, at, left);
      return if ok then Ok(0) else Err(Io);
    }
    r := ReplayEntry(d, source, block, left, payload, out);
  }

  /**
   * Replay block by block until the first zero block. Whatever bytes the source
   * holds and however it splits its reads, this ends, and it writes exactly what the layout says or reports the archive malformed.
   */
  method Replay(d: Dialect, source: Source, total: nat, out: Encoder) returns (r: Result<(), ReplayError>)
    modifies source`rest, out
    ensures source.reliable && out.reliable ==> r != Err(Io)
    ensures r.Ok? ==>
      && Replayed(d, old(source.rest), total).Some?
      && out.writes == old(out.writes) + Replayed(d, old(source.rest), total).value
    ensures r == Err(Malformed) ==> Replayed(d, old(source.rest), total).None?
  {
    var header := new byte[BLOCK];
    var payload := new byte[COPY_CHUNK];
    var consumed := 0;
    ghost var whole := Ahead(d, out.writes, source.rest, total);
    while true
      invariant whole == Ahead(d, out.writes, source.rest, total - consumed)
      decreases |source.rest|
    {
      var taken := ReplayBlock(d, source, total - consumed, header, payload, out);
      if taken.Err? {
        return Err(taken.error);
      }
      if taken.value == 0 {
        return Ok(());
      }
      consumed := consumed + taken.value;
    }
  }

  /** The stat, the ceiling, the walk, and the finished encoder flushed to the new file. */
  method RecompressWithLimit(tar: Source, out: Sink, gzip: seq<Bytes> -> Bytes, maxTarBytes: nat)
    returns (r: Result<(), RecompressError>)
    requires out.contents == []
    modifies tar`rest, out`contents, out`peak
    ensures tar.reliable && out.reliable ==>
      (r.Ok? <==> Recompressed(gzip, old(tar.rest), maxTarBytes).Some?)
    ensures r.Ok? ==> Recompressed(gzip, old(tar.rest), maxTarBytes) == Some(out.contents)
    ensures |old(tar.rest)| > maxTarBytes ==> r.Err? && out.contents == []
  {
    var size := |tar.rest|;
    if size > maxTarBytes {
      return Err(DeclaredSizeTooLarge(size, maxTarBytes));
    }
    var encoder := new Encoder(out.reliable);
    var walked := Replay(USTAR, tar, size, encoder);
    if walked.Err? {
      match walked.error {
        case Malformed => return Err(RecompressError.Replay(Malformed));
        case Io => return Err(RecompressError.Replay(Io));
      }
    }
    assert encoder.writes == Replayed(USTAR, old(tar.rest), size).value;
    var published := gzip(encoder.writes);
    assert [] + published == published;
    var ok := out.WriteAll(published);
    return if ok then Ok(()) else Err(RecompressError.Replay(Io));
  }

  // ---- bounded decompression ---------------------------------------------------

  /** A gzip stream being decoded: what is left of its output, and whether it ends cleanly. */
  class Decoder {
    var rest: Bytes
    const intact: bool

    constructor (plain: Bytes, intact: bool)
      ensures rest == plain && this.intact == intact
    {
      this.rest := plain;
      this.intact := intact;
    }

    method Read(buffer: array<byte>) returns (r: Result<nat, ()>)
      requires buffer.Length > 0
      modifies this`rest, buffer
      ensures r.Err? ==> !intact && old(rest) == []
      ensures r.Ok? ==>
        && r.value <= buffer.Length && r.value <= |old(rest)|
        && (r.value == 0 <==> old(rest) == []) && (r.value == 0 ==> intact)
        && rest == old(rest)[r.value..] && buffer[..r.value] == old(rest)[..r.value]
    {
      if rest == [] && !intact {
        return Err(());
      }
      var n := Min(buffer.Length, |rest|);
      if n > 1 {
        n :| 0 < n <= Min(buffer.Length, |rest|);
      }
      for i := 0 to n
        invariant forall j :: 0 <= j < i ==> buffer[j] == rest[j]
        modifies buffer
      {
        buffer[i] := rest[i];
      }
      rest := rest[n..];
      return Ok(n);
    }
  }

  /**
   * Decompress to a new file, refusing to write past the ceiling. The file
   * never holds more than the ceiling, and is removed rather than truncated.
   */
  method DecompressReaderBounded(decoder: Decoder, out: Sink, maxBytes: nat) returns (r: Result<nat, DecompressError>)
    requires out.contents == [] && !out.removed && out.peak == 0
    modifies decoder`rest, out
    ensures out.peak <= maxBytes
    ensures out.reliable ==> (r.Ok? <==> decoder.intact && |old(decoder.rest)| <= maxBytes)
    ensures r.Ok? ==> !out.removed && out.contents == old(decoder.rest) && r.value == |out.contents| <= maxBytes
    ensures r.Err? ==> out.removed
    ensures r.Err? && r.error.OutputTooLarge? ==> |old(decoder.rest)| > maxBytes
  {
    var buffer := new byte[COPY_CHUNK];
    var written: nat := 0;
    ghost var plain := decoder.rest;
    while true
      invariant written <= |plain| && written <= maxBytes
      invariant decoder.rest == plain[written..]
      invariant out.contents == plain[..written] && !out.removed && out.peak <= maxBytes
      decreases |decoder.rest|
    {
      var read := decoder.Read(buffer);
      if read.Err? {
        out.Remove();
        return Err(Failed);
      }
      if read.value == 0 {
        break;
      }
      if written + read.value > maxBytes {
        out.Remove();
        return Err(OutputTooLarge(maxBytes));
      }
      assert plain[..written] + plain[written..][..read.value] == plain[..written + read.value];
      var ok := out.WriteAll(buffer[..read.value]);
      if !ok {
        out.Remove();
        return Err(Failed);
      }
      written := written + read.value;
    }
    return Ok(written);
  }

  // ---- rebuilding a tar under a bound --------------------------------------------

  datatype WriteError = FileTooLarge | WriteFailed

  /** A sink with a ceiling: a write that would pass it is an error, and nothing of it is kept. */
  class BoundedWriter {
    const inner: Sink
    var written: nat
    const limit: nat

    ghost predicate Valid()
      reads this, inner
    {
      written == |inner.contents| <= limit
    }

    constructor (inner: Sink, limit: nat)
      requires inner.contents == []
      ensures Valid() && this.inner == inner && this.limit == limit && written == 0
    {
      this.inner := inner;
      this.limit := limit;
      this.written := 0;
    }

    method Write(piece: Bytes) returns (r: Result<nat, WriteError>)
      requires Valid()
      modifies this`written, inner`contents, inner`peak
      ensures Valid() && written >= old(written)
      ensures r == Err(FileTooLarge) <==> |old(inner.contents)| + |piece| > limit
      ensures inner.reliable && |old(inner.contents)| + |piece| <= limit ==> r.Ok?
      ensures r.Ok? ==>
        && r.value <= |piece| && (r.value == 0 <==> piece == [])
        && inner.contents == old(inner.contents) + piece[..r.value]
      ensures r.Err? ==> inner.contents == old(inner.contents)
    {
      if written + |piece| > limit {
        return Err(FileTooLarge);
      }
      var sent := inner.Write(piece);
      if sent.Err? {
        return Err(WriteFailed);
      }
      written := written + sent.value;
      return Ok(sent.value);
    }

    /**
     * `write_all` through the bound. A piece written in several goes is refused
     * exactly when the whole of it would not fit.
     */
    method WriteAll(piece: Bytes) returns (r: Result<(), WriteError>)
      requires Valid()
      modifies this`written, inner`contents, inner`peak
      ensures Valid()
      ensures r == Err(FileTooLarge) <==> |old(inner.contents)| + |piece| > limit && piece != []
      ensures inner.reliable ==> r != Err(WriteFailed)
      ensures r.Ok? ==> inner.contents == old(inner.contents) + piece
      ensures r.Err? ==> old(inner.contents) <= inner.contents
    {
      var sent := 0;
      while sent < |piece|
        invariant Valid() && sent <= |piece|
        invariant inner.contents == old(inner.contents) + piece[..sent]
        invariant sent > 0 ==> |old(inner.contents)| + |piece| <= limit
      {
        var got := Write(piece[sent..]);
        if got.Err? {
          return Err(got.error);
        }
        assert piece[..sent] + piece[sent..][..got.value] == piece[..sent + got.value];
        sent := sent + got.value;
      }
      return Ok(());
    }
  }

  /** The writes of the archive builder, into a bounded file: all of them, or none of the file survives. */
  method RebuildTar(pieces: seq<Bytes>, out: Sink, maxBytes: nat) returns (r: Result<nat, DecompressError>)
    requires out.contents == [] && !out.removed
    modifies out
    ensures |out.contents| <= maxBytes
    ensures out.reliable ==> (r.Ok? <==> |Flatten(pieces)| <= maxBytes)
    ensures r.Ok? ==> !out.removed && out.contents == Flatten(pieces) && r.value == |out.contents|
    ensures r.Err? ==> out.removed
    ensures r.Err? && r.error.OutputTooLarge? ==> |Flatten(pieces)| > maxBytes
  {
    var bounded := new BoundedWriter(out, maxBytes);
    for i := 0 to |pieces|
      invariant bounded.Valid() && !out.removed
      invariant out.contents == Flatten(pieces[..i])
    {
      var sent := bounded.WriteAll(pieces[i]);
      FlattenPrefix(pieces, i);
      if sent.Err? {
        out.Remove();
        return Err(if sent.error.FileTooLarge? then OutputTooLarge(maxBytes) else Failed);
      }
    }
    assert pieces[..|pieces|] == pieces;
    return Ok(bounded.written);
  }

  lemma FlattenPrefix(pieces: seq<Bytes>, i: nat)
    requires i < |pieces|
    ensures Flatten(pieces[..i + 1]) == Flatten(pieces[..i]) + pieces[i]
    ensures |Flatten(pieces)| >= |Flatten(pieces[..i + 1])|
  {
    FlattenConcat(pieces[..i], [pieces[i]]);
    FlattenOne(pieces[i]);
    assert pieces[..i + 1] == pieces[..i] + [pieces[i]];
    FlattenConcat(pieces[..i + 1], pieces[i + 1..]);
    assert pieces == pieces[..i + 1] + pieces[i + 1..];
  }
}
