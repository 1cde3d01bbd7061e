/**
 * A list-mode data file opened for binary reading: its bytes and the stream's
 * read position.  The operations are the handful of stdio calls the decoder
 * makes, with POSIX semantics on a regular file.
 */
module ListFiles {
  import opened Bits

  class ListFile {
    const data: seq<bv8>
    var pos: nat

    constructor (data: seq<bv8>)
      ensures this.data == data && pos == 0
    {
      this.data := data;
      pos := 0;
    }

    /**
     * `fread` of `n` 32-bit words.  A full read advances the position past
     * them; a short read consumes whatever bytes remain, so the position
     * ends at the end of the file (or stays put when already beyond it).
     */
    method ReadWords(n: nat) returns (ok: bool, ws: seq<bv32>)
      modifies this
      ensures ok <==> old(pos) + 4 * n <= |data|
      ensures ok ==> ws == WordsAt(data, old(pos), n) && pos == old(pos) + 4 * n
      ensures !ok ==> pos == if old(pos) < |data| then |data| else old(pos)
    {
      if pos + 4 * n <= |data| {
        ok, ws := true, WordsAt(data, pos, n);
        pos := pos + 4 * n;
      } else {
        ok, ws := false, [];
        if pos < |data| {
          pos := |data|;
        }
      }
    }

    /** `fread` of `n` 16-bit samples, with the same short-read behaviour. */
    method ReadHalves(n: nat) returns (ok: bool, hs: seq<bv16>)
      modifies this
      ensures ok <==> old(pos) + 2 * n <= |data|
      ensures ok ==> hs == HalvesAt(data, old(pos), n) && pos == old(pos) + 2 * n
      ensures !ok ==> pos == if old(pos) < |data| then |data| else old(pos)
    {
      if pos + 2 * n <= |data| {
        ok, hs := true, HalvesAt(data, pos, n);
        pos := pos + 2 * n;
      } else {
        ok, hs := false, [];
        if pos < |data| {
          pos := |data|;
        }
      }
    }

    /**
     * `fseek` relative to the current position.  It only fails for a negative
     * target, which the callers rule out; a target past the end is allowed.
     */
    method Skip(offset: int)
      modifies this
      requires pos + offset >= 0
      ensures pos == old(pos) + offset
    {
      pos := pos + offset;
    }

    /**
     * `fseek` to an absolute offset: a negative offset fails and leaves the
     * position where it was.
     */
    method SeekTo(offset: int)
      modifies this
      ensures pos == if offset >= 0 then offset else old(pos)
    {
      if offset >= 0 {
        pos := offset;
      }
    }

    /** `fsetpos` back to a position saved with `fgetpos`. */
    method SetPos(saved: nat)
      modifies this
      ensures pos == saved
    {
      pos := saved;
    }
  }
}
