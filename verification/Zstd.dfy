/**
 * The zstd patch backend (crates/delta-core/src/backend/zstd.rs): the window
 * it asks for, and the loop that applies a patch. A frame's window descriptor
 * is that of section 3.1.1.1.2 of RFC 8878.
 */
module Zstd {
  import opened Prelude
  import opened Streams

  const WINDOW_LOG_MIN: nat := 10
  const WINDOW_LOG_MAX: nat := 31
  const READ_CHUNK: nat := 128 * 1024
  const WRITE_CHUNK: nat := 256 * 1024
  const DEFAULT_MAX_OUTPUT_BYTES: nat := 4 * 1024 * 1024 * 1024

  // ---- window arithmetic ---------------------------------------------------------

  function Pow2(k: nat): (p: nat)
    ensures p > 0
  {
    if k == 0 then 1 else 2 * Pow2(k - 1)
  }

  /** How many bits `n` takes: the word width less its leading zeros. */
  function BitLength(n: nat): nat {
    if n == 0 then 0 else 1 + BitLength(n / 2)
  }

  function WindowLogFor(size: nat): nat {
    var bits := BitLength(Max(size, 1) - 1);
    Min(Max(bits, WINDOW_LOG_MIN), WINDOW_LOG_MAX)
  }

  lemma {:induction false} Pow2Monotone(j: nat, k: nat)
    requires j <= k
    ensures Pow2(j) <= Pow2(k)
    decreases k
  {
    if j < k {
      Pow2Monotone(j, k - 1);
    }
  }

  /** `BitLength(n)` is the least exponent whose power exceeds `n`. */
  lemma {:induction false} BitLengthIsLeast(n: nat, k: nat)
    ensures BitLength(n) <= k <==> n < Pow2(k)
    decreases n
  {
    if n > 0 {
      if k > 0 {
        BitLengthIsLeast(n / 2, k - 1);
      }
    }
  }

  /** `WindowLogFor` is the least exponent zstd accepts whose window spans `size`, or the largest it accepts. */
  lemma WindowLogIsLeast(size: nat, k: nat)
    ensures WINDOW_LOG_MIN <= WindowLogFor(size) <= WINDOW_LOG_MAX
    ensures WINDOW_LOG_MIN <= k < WINDOW_LOG_MAX ==> (WindowLogFor(size) <= k <==> size <= Pow2(k))
  {
    BitLengthIsLeast(Max(size, 1) - 1, k);
  }

  /** The decoder's bound, taken from the two sizes separately, is the encoder's choice. */
  lemma WindowOfMax(a: nat, b: nat)
    ensures WindowLogFor(Max(a, b)) == Max(WindowLogFor(a), WindowLogFor(b))
  {
    WindowLogMonotone(a, b);
    WindowLogMonotone(b, a);
  }

  lemma WindowLogMonotone(a: nat, b: nat)
    ensures a <= b ==> WindowLogFor(a) <= WindowLogFor(b)
  {
    if a <= b {
      BitLengthIsLeast(Max(a, 1) - 1, BitLength(Max(b, 1) - 1));
      BitLengthIsLeast(Max(b, 1) - 1, BitLength(Max(b, 1) - 1));
    }
  }

  // ---- the codec -----------------------------------------------------------------

  /** A frame at the front of a patch: how many bytes it takes and what it decodes to. */
  datatype Frame = Frame(length: nat, plain: Bytes)

  datatype Codec = Codec(
    encode: (Bytes, Bytes, nat) -> Bytes,
    decode: (Bytes, Bytes) -> Option<Frame>,
    windowLog: Bytes -> nat)

  /** What is taken of the encoder: the frame asks for no more than the window it was given. */
  ghost predicate WindowObeyed(codec: Codec) {
    forall old_, new_, log :: codec.windowLog(codec.encode(old_, new_, log)) <= log
  }

  /** What is taken of the pair: a frame decodes to what was encoded. */
  ghost predicate RoundTrips(codec: Codec) {
    forall old_, new_, log ::
      var patch := codec.encode(old_, new_, log);
      codec.decode(old_, patch) == Some(Frame(|patch|, new_))
  }

  function Diff(codec: Codec, old_: Bytes, new_: Bytes): Bytes {
    codec.encode(old_, new_, WindowLogFor(Max(|old_|, |new_|)))
  }

  /** The window the decoder is told to allow. */
  function WindowBound(old_: Bytes, expected: Option<nat>): nat {
    match expected
    case Some(n) => Max(WindowLogFor(|old_|), WindowLogFor(n))
    case None => WINDOW_LOG_MAX
  }

  function Admitted(codec: Codec, old_: Bytes, patch: Bytes, expected: Option<nat>): Option<Frame> {
    if codec.windowLog(patch) > WindowBound(old_, expected) then None else codec.decode(old_, patch)
  }

  /** The end of the read chunk that holds byte `n - 1`. */
  function ChunkEnd(n: nat): nat {
    (n + READ_CHUNK - 1) / READ_CHUNK * READ_CHUNK
  }

  /** A frame of `patchSize` bytes of patch applies: it is all there, nothing follows its last chunk, and its size is right. */
  predicate Applies(frame: Frame, patchSize: nat, expected: Option<nat>, maxOutput: nat) {
    && frame.length <= patchSize <= ChunkEnd(frame.length)
    && |frame.plain| <= maxOutput
    && (expected.Some? ==> |frame.plain| == expected.value)
  }

  /** What applying a patch file rebuilds, if anything. */
  function Rebuilt(codec: Codec, old_: Bytes, patch: Bytes, expected: Option<nat>): Option<Bytes> {
    var maxOutput := if expected.Some? then expected.value else DEFAULT_MAX_OUTPUT_BYTES;
    match Admitted(codec, old_, patch, expected)
    case None => None
    case Some(frame) => if Applies(frame, |patch|, expected, maxOutput) then Some(frame.plain) else None
  }

  /** Matches can reach back across the whole of either artifact: the window spans both, and is the least that does. */
  lemma DiffSpansBoth(codec: Codec, old_: Bytes, new_: Bytes) returns (log: nat)
    ensures Diff(codec, old_, new_) == codec.encode(old_, new_, log) && 10 <= log <= 31
    ensures log < 31 ==> |old_| <= Pow2(log) && |new_| <= Pow2(log)
    ensures forall k :: 10 <= k < log ==> |old_| > Pow2(k) || |new_| > Pow2(k)
  {
    var size := Max(|old_|, |new_|);
    log := WindowLogFor(size);
    WindowLogIsLeast(size, log);
    forall k | 10 <= k < log ensures |old_| > Pow2(k) || |new_| > Pow2(k) {
      WindowLogIsLeast(size, k);
    }
  }

  /**
   * Exactly what applying a patch file gives: the content of the frame at its
   * front, if the decoder may open the window it asks for, all of it is there,
   * nothing follows the 128 KiB chunk it ends in, and its size is the one
   * expected or, when none is, at most 4 GiB.
   */
  lemma RebuiltExactly(codec: Codec, old_: Bytes, patch: Bytes, expected: Option<nat>, bytes: Bytes)
    ensures Rebuilt(codec, old_, patch, expected) == Some(bytes) <==>
            && codec.decode(old_, patch).Some? && codec.decode(old_, patch).value.plain == bytes
            && var n := codec.decode(old_, patch).value.length;
            && n <= |patch| && (n == 0 ==> patch == []) && (|patch| - 1) / 131072 <= (n - 1) / 131072
            && match expected
               case None => codec.windowLog(patch) <= 31 && |bytes| <= 4294967296
               case Some(size) =>
                 && |bytes| == size
                 && (codec.windowLog(patch) <= WindowLogFor(|old_|) || codec.windowLog(patch) <= WindowLogFor(size))
  {
    if codec.decode(old_, patch).Some? && codec.decode(old_, patch).value.length <= |patch| {
      InLastChunk(codec.decode(old_, patch).value.length, |patch|);
    }
  }

  lemma InLastChunk(n: nat, m: nat)
    requires n <= m
    ensures m <= ChunkEnd(n) <==> (n == 0 ==> m == 0) && (m - 1) / 131072 <= (n - 1) / 131072
  {
  }

  /**
   * The bounded decoder admits whatever the encoder emitted: a patch proven at
   * release time under the unbounded window rebuilds the same artifact for a
   * client that bounds the window by the sizes alone.
   */
  lemma ProofCarriesOver(codec: Codec, old_: Bytes, new_: Bytes)
    requires WindowObeyed(codec)
    requires Rebuilt(codec, old_, Diff(codec, old_, new_), None) == Some(new_)
    ensures Rebuilt(codec, old_, Diff(codec, old_, new_), Some(|new_|)) == Some(new_)
  {
    WindowOfMax(|old_|, |new_|);
    var log := WindowLogFor(Max(|old_|, |new_|));
    assert codec.windowLog(codec.encode(old_, new_, log)) <= log;
  }

  /**
   * With a codec that round-trips, a generated patch always rebuilds the new
   * artifact when its size is declared, and under the unbounded window exactly
   * when it fits the default ceiling.
   */
  lemma PatchRebuilds(codec: Codec, old_: Bytes, new_: Bytes)
    requires WindowObeyed(codec) && RoundTrips(codec)
    ensures Rebuilt(codec, old_, Diff(codec, old_, new_), Some(|new_|)) == Some(new_)
    ensures Rebuilt(codec, old_, Diff(codec, old_, new_), None) ==
            if |new_| <= DEFAULT_MAX_OUTPUT_BYTES then Some(new_) else None
  {
    WindowOfMax(|old_|, |new_|);
    var log := WindowLogFor(Max(|old_|, |new_|));
    WindowLogIsLeast(Max(|old_|, |new_|), 0);
    var patch := codec.encode(old_, new_, log);
    assert codec.windowLog(patch) <= log && codec.decode(old_, patch) == Some(Frame(|patch|, new_));
  }

  // ---- the streaming loop ----------------------------------------------------------

  datatype ApplyError =
    | Io
    | OutputTooLarge(limit: nat)
    | Backend
    | TruncatedPatch
    | UnexpectedOutputSize(expected: nat, actual: nat)

  datatype Progress = Progress(consumed: nat, produced: Bytes, done: bool)

  /**
   * The streaming decoder. With no `frame` it may do anything a decoder's
   * interface allows. With one it decodes that frame: it never stalls, keeps
   * the last byte back until all output is flushed, and then reports the end.
   */
  class Decompressor {
    const frame: Option<Frame>
    var consumed: nat
    var made: Bytes

    ghost predicate Valid()
      reads this
    {
      frame.Some? ==> consumed <= frame.value.length && made <= frame.value.plain
    }

    constructor (frame: Option<Frame>)
      ensures Valid() && this.frame == frame && consumed == 0 && made == []
    {
      this.frame := frame;
      this.consumed := 0;
      this.made := [];
    }

    method Step(available: nat, room: nat) returns (r: Result<Progress, ()>)
      requires Valid() && room > 0 && available > 0
      requires frame.Some? ==> consumed < frame.value.length
      modifies this
      ensures Valid()
      ensures r.Ok? ==>
        && r.value.consumed <= available && |r.value.produced| <= room
        && consumed == old(consumed) + r.value.consumed && made == old(made) + r.value.produced
      ensures frame.Some? ==>
        && r.Ok?
        && (r.value.done <==> consumed == frame.value.length)
        && (r.value.done ==> made == frame.value.plain)
        && (r.value.done || r.value.consumed > 0 || r.value.produced != [])
    {
      if frame.Some? {
        var due := |frame.value.plain| - |made|;
        var owed := frame.value.length - consumed;
        var c: nat, n: nat :|
          c <= available && n <= room && n <= due && c <= owed && (c == owed ==> n == due) && (c > 0 || n > 0) by {
          var flush := due <= room && owed <= available;
          assert (if flush then owed else if due <= room then available else 0) >= 0;
          assert (if flush then due else if due <= room then 0 else room) >= 0;
        }
        var produced := frame.value.plain[|made|..|made| + n];
        consumed, made := consumed + c, made + produced;
        return Ok(Progress(c, produced, c == owed));
      }
      var failed: bool := *;
      if failed {
        return Err(());
      }
      var c: nat :| c <= available;
      var produced: Bytes :| |produced| <= room;
      var done: bool := *;
      consumed, made := consumed + c, made + produced;
      return Ok(Progress(c, produced, done));
    }
  }

  datatype Drained = Drained(pos: nat, complete: bool)

  /** The inner loop: decode one chunk of `read` bytes. */
  method Drain(dec: Decompressor, read: nat, out: Sink, maxOutput: nat) returns (r: Result<Drained, ApplyError>)
    requires dec.Valid() && out.contents == dec.made && |out.contents| <= maxOutput && out.peak <= maxOutput
    requires dec.frame.Some? ==> dec.consumed < dec.frame.value.length
    modifies dec, out`contents, out`peak
    ensures dec.Valid() && out.peak <= maxOutput
    ensures r.Ok? ==>
      && r.value.pos <= read && (r.value.complete || r.value.pos == read)
      && dec.consumed == old(dec.consumed) + r.value.pos
      && out.contents == dec.made && |out.contents| <= maxOutput
    ensures dec.frame.Some? && r.Ok? ==>
      && (r.value.complete <==> dec.consumed == dec.frame.value.length)
      && (r.value.complete ==> dec.made == dec.frame.value.plain)
    ensures dec.frame.Some? && r.Err? && out.reliable ==>
      r.error == OutputTooLarge(maxOutput) && |dec.frame.value.plain| > maxOutput
  {
    var pos: nat := 0;
    var complete := false;
    while pos < read && !complete
      invariant dec.Valid() && pos <= read && dec.consumed == old(dec.consumed) + pos
      invariant out.contents == dec.made && |out.contents| <= maxOutput && out.peak <= maxOutput
      invariant dec.frame.Some? ==> (complete <==> dec.consumed == dec.frame.value.length)
      invariant dec.frame.Some? && complete ==> dec.made == dec.frame.value.plain
      decreases read - pos + (maxOutput - |out.contents|), !complete
    {
      var step := dec.Step(read - pos, WRITE_CHUNK);
      if step.Err? {
        return Err(Backend);
      }
      var produced := step.value.produced;
      if |out.contents| + |produced| > maxOutput {
        return Err(OutputTooLarge(maxOutput));
      }
      var ok := out.WriteAll(produced);
      if !ok {
        return Err(Io);
      }
      pos := pos + step.value.consumed;
      if step.value.done {
        complete := true;
      } else if produced == [] && step.value.consumed == 0 {
        return Err(Backend);
      }
    }
    return Ok(Drained(pos, complete));
  }

  /**
   * Apply a patch. Whatever the decoder does, this ends, never writes past the
   * ceiling, and succeeds only on a complete frame of exactly the expected
   * length. With a decoder that decodes a frame, success says which: the file
   * holds that frame's content, and reading a regular file it succeeds exactly
   * when the frame applies.
   */
  method Apply(patch: Source, dec: Decompressor, out: Sink, maxOutput: nat, expected: Option<nat>)
    returns (r: Result<(), ApplyError>)
    requires dec.Valid() && dec.consumed == 0 && dec.made == [] && out.contents == [] && out.peak == 0
    requires dec.frame.Some? ==> dec.frame.value.length > 0
    modifies patch`rest, dec, out`contents, out`peak
    ensures out.peak <= maxOutput
    ensures r.Ok? ==>
      && out.contents == dec.made && |out.contents| <= maxOutput
      && (expected.Some? ==> |out.contents| == expected.value)
      && patch.rest == []
    ensures r.Ok? && dec.frame.Some? ==>
      out.contents == dec.frame.value.plain && dec.frame.value.length <= |old(patch.rest)|
    ensures dec.frame.Some? && dec.frame.value.length == |old(patch.rest)| && patch.reliable && out.reliable ==>
      (r.Ok? <==> Applies(dec.frame.value, |old(patch.rest)|, expected, maxOutput))
    ensures dec.frame.Some? && patch.whole && patch.reliable && out.reliable ==>
      (r.Ok? <==> Applies(dec.frame.value, |old(patch.rest)|, expected, maxOutput))
  {
    var buffer := new byte[READ_CHUNK];
    var complete := false;
    ghost var size := |patch.rest|;
    while true
      invariant dec.Valid() && |patch.rest| <= size
      invariant out.contents == dec.made && |out.contents| <= maxOutput && out.peak <= maxOutput
      invariant !complete ==> dec.consumed == size - |patch.rest|
      invariant dec.frame.Some? ==>
        && (complete <==> dec.consumed == dec.frame.value.length) && dec.consumed <= size - |patch.rest|
        && (complete ==> dec.made == dec.frame.value.plain)
      invariant patch.whole && !complete && patch.rest != [] ==> (size - |patch.rest|) % READ_CHUNK == 0
      invariant patch.whole && complete && dec.frame.Some? ==>
        (patch.rest == [] <==> size <= ChunkEnd(dec.frame.value.length))
      decreases |patch.rest|
    {
      ghost var start := size - |patch.rest|;
      var got := patch.Read(buffer, 0, READ_CHUNK);
      if got.Err? {
        return Err(Io);
      }
      var read := got.value;
      if read == 0 {
        break;
      }
      if complete {
        return Err(Backend);
      }
      var drained := Drain(dec, read, out, maxOutput);
      if drained.Err? {
        return Err(drained.error);
      }
      complete := drained.value.complete;
      if patch.whole && complete && dec.frame.Some? {
        EndsInChunk(start, dec.frame.value.length);
      }
    }
    if !complete {
      return Err(TruncatedPatch);
    }
    if expected.Some? && |out.contents| != expected.value {
      return Err(UnexpectedOutputSize(expected.value, |out.contents|));
    }
    return Ok(());
  }

  lemma EndsInChunk(start: nat, length: nat)
    requires start % READ_CHUNK == 0 && start < length <= start + READ_CHUNK
    ensures ChunkEnd(length) == start + READ_CHUNK
  {
  }
}
