/**
 * Byte sources and sinks as the operating system provides them: a read or a
 * write may move fewer bytes than asked, and, unless the stream is reliable,
 * may fail. A `whole` source, as a regular file is, fills the buffer while it can.
 */
module Streams {
  import opened Prelude

  class Source {
    var rest: Bytes
    const reliable: bool
    const whole: bool

    constructor (contents: Bytes, reliable: bool, whole: bool)
      ensures rest == contents && this.reliable == reliable && this.whole == whole
    {
      this.rest := contents;
      this.reliable := reliable;
      this.whole := whole;
    }

    /** `Read::read` into `buffer[from..to]`; zero bytes only at the end or when nothing was asked for. */
    method Read(buffer: array<byte>, from: nat, to: nat) returns (r: Result<nat, ()>)
      requires from <= to <= buffer.Length
      modifies this`rest, buffer
      ensures reliable ==> r.Ok?
      ensures r.Ok? ==>
        && r.value <= to - from && r.value <= |old(rest)|
        && (r.value == 0 <==> from == to || old(rest) == [])
        && (whole ==> r.value == Min(to - from, |old(rest)|))
        && rest == old(rest)[r.value..]
        && buffer[from..from + r.value] == old(rest)[..r.value]
      ensures buffer[..from] == old(buffer[..from])
    {
      var failed: bool := *;
      if failed && !reliable {
        return Err(());
      }
      var n := Amount(to - from);
      for i := 0 to n
        invariant forall j :: 0 <= j < i ==> buffer[from + j] == rest[j]
        invariant buffer[..from] == old(buffer[..from])
        modifies buffer
      {
        buffer[from + i] := rest[i];
      }
      rest := rest[n..];
      return Ok(n);
    }

    /** How much a read of up to `room` bytes brings: all it can when `whole`, and otherwise at least something if there is any. */
    method Amount(room: nat) returns (n: nat)
      ensures n <= room && n <= |rest| && (n == 0 <==> room == 0 || rest == [])
      ensures whole ==> n == Min(room, |rest|)
    {
      n := Min(room, |rest|);
      if !whole && n > 1 {
        n :| 0 < n <= Min(room, |rest|);
      }
    }
  }

  /** A file being written: `peak` is the most it ever held. */
  class Sink {
    var contents: Bytes
    var removed: bool
    ghost var peak: nat
    const reliable: bool

    constructor (reliable: bool)
      ensures contents == [] && !removed && peak == 0 && this.reliable == reliable
    {
      this.contents := [];
      this.removed := false;
      this.peak := 0;
      this.reliable := reliable;
    }

    /** `Write::write`: some non-empty part of a non-empty piece, in order. */
    method Write(piece: Bytes) returns (r: Result<nat, ()>)
      modifies this`contents, this`peak
      ensures reliable ==> r.Ok?
      ensures r.Ok? ==> r.value <= |piece| && (r.value == 0 <==> piece == []) && contents == old(contents) + piece[..r.value]
      ensures r.Err? ==> contents == old(contents)
      ensures peak == Max(old(peak), |contents|)
    {
      var failed: bool := *;
      if failed && !reliable {
        peak := Max(peak, |contents|);
        return Err(());
      }
      var n: nat :| n <= |piece| && (n == 0 <==> piece == []) by {
        assert Min(1, |piece|) >= 0;
      }
      contents := contents + piece[..n];
      peak := Max(peak, |contents|);
      return Ok(n);
    }

    /** `Write::write_all`: the whole piece, or a failure after some prefix of it. */
    method WriteAll(piece: Bytes) returns (ok: bool)
      modifies this`contents, this`peak
      ensures reliable ==> ok
      ensures ok ==> contents == old(contents) + piece
      ensures old(contents) <= contents <= old(contents) + piece
      ensures peak <= Max(old(peak), |contents|)
    {
      var sent := 0;
      while sent < |piece|
        invariant sent <= |piece|
        invariant contents == old(contents) + piece[..sent]
        invariant peak <= Max(old(peak), |contents|)
      {
        var r := Write(piece[sent..]);
        if r.Err? {
          return false;
        }
        assert piece[..sent] + piece[sent..][..r.value] == piece[..sent + r.value];
        sent := sent + r.value;
      }
      return true;
    }

    method Remove()
      modifies this`removed
      ensures removed
    {
      removed := true;
    }
  }
}
