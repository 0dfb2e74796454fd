/** The PCM source: a raw headerless file of 16-bit samples read with fread
    and closed with fclose, and the two in-place buffer operations (memset to
    silence, memcpy of a prefix) that the fill callbacks perform. */
module Pcm {
  import opened Common

  /** A FILE* opened "rb" on a raw PCM file. The file's content is a fixed
      sequence of samples; the stream position is `cursor`. `ioError` makes
      every read fail (ferror), `closeCount` counts fclose calls so that a
      double close can be stated. */
  class PcmFile {
    const samples: seq<int16>
    const ioError: bool
    var cursor: nat
    var open: bool
    var closeCount: nat

    ghost predicate Valid()
      reads this
    {
      cursor <= |samples|
    }

    /** fopen(path, "rb") on a file holding `samples`. */
    constructor (samples: seq<int16>, ioError: bool)
      ensures Valid()
      ensures this.samples == samples && this.ioError == ioError
      ensures cursor == 0 && open && closeCount == 0
    {
      this.samples := samples;
      this.ioError := ioError;
      cursor := 0;
      open := true;
      closeCount := 0;
    }

    /** Samples not yet read. */
    function Remaining(): nat
      reads this
      requires Valid()
    {
      |samples| - cursor
    }

    /** What fread(buf, 2, count, file) returns: every requested sample that
        is left, none after a read error. fread on a stream that has already
        been closed is undefined in C; the model reads nothing from it. */
    function Available(count: nat): (n: nat)
      reads this
      requires Valid()
      ensures n <= count && n <= Remaining()
      ensures open && !ioError ==> n == Min(count, Remaining())
      ensures !open || ioError ==> n == 0
    {
      if !open || ioError then 0 else Min(count, Remaining())
    }

    /** fread(buf, sizeof(int16_t), count, file): copies what is available
        into the front of `buf`, advances the position by as much, and
        returns the number of samples read. `count <= buf.Length` is the
        caller's obligation: fread writes past a shorter buffer. */
    method Read(buf: array<int16>, count: nat) returns (n: nat)
      requires Valid() && count <= buf.Length
      modifies this`cursor, buf
      ensures Valid()
      ensures n == old(Available(count))
      ensures cursor == old(cursor) + n
      ensures buf[..n] == samples[old(cursor)..old(cursor) + n]
      ensures buf[n..] == old(buf[n..])
    {
      n := Available(count);
      var k := 0;
      while k < n
        invariant 0 <= k <= n
        invariant cursor == old(cursor) && cursor + n <= |samples|
        invariant buf[..k] == samples[cursor..cursor + k]
        invariant buf[k..] == old(buf[k..])
      {
        buf[k] := samples[cursor + k];
        k := k + 1;
      }
      cursor := cursor + n;
    }

    /** fclose(file). Counted every time, also on a stream already closed. */
    method Close()
      modifies this`open, this`closeCount
      ensures !open && closeCount == old(closeCount) + 1
    {
      open := false;
      closeCount := closeCount + 1;
    }
  }

  /** memset(a, 0, 2 * n): silence the first `n` samples of `a`. */
  method ZeroFill(a: array<int16>, n: nat)
    requires n <= a.Length
    modifies a
    ensures forall k :: 0 <= k < n ==> a[k] == 0
    ensures a[n..] == old(a[n..])
  {
    var k := 0;
    while k < n
      invariant 0 <= k <= n
      invariant forall j :: 0 <= j < k ==> a[j] == 0
      invariant a[k..] == old(a[k..])
    {
      a[k] := 0;
      k := k + 1;
    }
  }

  /** memcpy(dst, src, 2 * n): copy the first `n` samples of `src`. */
  method CopyPrefix(dst: array<int16>, src: array<int16>, n: nat)
    requires n <= dst.Length && n <= src.Length && dst != src
    modifies dst
    ensures dst[..n] == src[..n]
    ensures dst[n..] == old(dst[n..])
  {
    var k := 0;
    while k < n
      invariant 0 <= k <= n
      invariant dst[..k] == src[..k]
      invariant dst[k..] == old(dst[k..])
    {
      dst[k] := src[k];
      k := k + 1;
    }
  }
}
