/**
 * `chanWriter`: an `io.ReadWriter` over a buffered channel of bytes. What
 * is written is read back in order; reading past what was written reports
 * EOF once the writer is closed.
 */
module ReadWriter {
  type byte = bv8

  class ChanWriter {
    /** The bytes in the channel, oldest first. */
    var buffer: seq<byte>
    /** Whether the channel has been closed. */
    var closed: bool
    /** Every byte ever written, and every byte ever read. */
    ghost var written: seq<byte>
    ghost var consumed: seq<byte>

    /** Nothing is lost or repeated: what was read, then what waits, is what was written. */
    ghost predicate Valid()
      reads this
    {
      written == consumed + buffer
    }

    /** `NewChanWriter`. */
    constructor ()
      ensures Valid() && buffer == [] && !closed && written == [] && consumed == []
    {
      buffer := [];
      closed := false;
      written := [];
      consumed := [];
    }

    /** `Write`: every byte of `p` joins the channel in order; the whole length and no error are returned. */
    method Write(p: array<byte>) returns (n: int, err: bool)
      requires Valid() && !closed
      modifies this`buffer, this`written
      ensures Valid() && n == p.Length && !err
      ensures buffer == old(buffer) + p[..] && written == old(written) + p[..]
    {
      n := 0;
      while n < p.Length
        invariant 0 <= n <= p.Length && Valid()
        invariant buffer == old(buffer) + p[..n] && written == old(written) + p[..n]
      {
        buffer := buffer + [p[n]];
        written := written + [p[n]];
        assert p[..n + 1] == p[..n] + [p[n]];
        n := n + 1;
      }
      assert p[..n] == p[..];
      err := false;
    }

    /** `Close`: the channel is closed; writing after it is not allowed. */
    method Close() returns (err: bool)
      requires !closed
      modifies this`closed
      ensures closed && !err
    {
      closed := true;
      err := false;
    }

    /**
     * `Read`: `p` is filled with the oldest bytes of the channel, and a
     * full `p` comes with no error. A closed, drained channel ends the
     * read early with EOF. Receiving from an open, empty channel waits for
     * a writer, so the model reads only what is there or a closed channel.
     */
    method Read(p: array<byte>) returns (n: int, eof: bool)
      requires Valid() && (closed || |buffer| >= p.Length)
      modifies p, this`buffer, this`consumed
      ensures Valid() && 0 <= n <= p.Length
      ensures n == (if |old(buffer)| < p.Length then |old(buffer)| else p.Length)
      ensures p[..n] == old(buffer)[..n] && buffer == old(buffer)[n..]
      ensures consumed == old(consumed) + p[..n]
      ensures eof <==> n < p.Length
      ensures eof ==> closed && buffer == []
    {
      n := 0;
      while n < p.Length
        invariant 0 <= n <= p.Length && Valid()
        invariant n <= |old(buffer)| && buffer == old(buffer)[n..]
        invariant p[..n] == old(buffer)[..n] && consumed == old(consumed) + p[..n]
      {
        if |buffer| == 0 {
          return n, true;
        }
        p[n] := buffer[0];
        consumed := consumed + [buffer[0]];
        buffer := buffer[1..];
        assert old(buffer)[..n + 1] == old(buffer)[..n] + [old(buffer)[n]];
        assert p[..n + 1] == p[..n] + [p[n]];
        n := n + 1;
      }
      eof := false;
    }
  }

  /** Reads see a prefix of the writes. */
  lemma ReadsArePrefix(w: ChanWriter)
    requires w.Valid()
    ensures |w.consumed| <= |w.written| && w.written[..|w.consumed|] == w.consumed
  {
  }
}
