/**
 * PLT_RingBufferStream: a byte stream over a circular buffer, read and
 * written in at most two contiguous chunks per call, with running totals.
 */
module RingBufferStream {
  import opened Arith

  // ------------------------------------------------------ the ring buffer

  /**
   * A circular buffer of `capacity` bytes: `data` are the queued bytes in
   * the order they will be read, the first of them at position `out`.
   */
  datatype Ring = Ring(capacity: nat, out: nat, data: seq<bv8>, closed: bool)

  predicate Wf(r: Ring)
  {
    r.capacity > 0 && r.out < r.capacity && |r.data| <= r.capacity
  }

  /** Bytes free for writing. */
  function Space(r: Ring): nat
    requires Wf(r)
  {
    r.capacity - |r.data|
  }

  /** A position `p` short of two laps, wrapped into the storage. */
  function WrapPos(p: nat, capacity: nat): (w: nat)
    requires 0 < capacity && p < 2 * capacity
    ensures w < capacity && (w == p || w == p - capacity)
  {
    if p < capacity then p else p - capacity
  }

  /** Position after the last queued byte, where the next write goes. */
  function InPos(r: Ring): (p: nat)
    requires Wf(r)
    ensures p < r.capacity
  {
    WrapPos(r.out + |r.data|, r.capacity)
  }

  /** Queued bytes readable without wrapping past the end of the storage. */
  function ContiguousAvailable(r: Ring): (n: nat)
    requires Wf(r)
    ensures n <= |r.data|
    ensures n == 0 <==> |r.data| == 0
  {
    Min(|r.data|, r.capacity - r.out)
  }

  /** Free bytes writable without wrapping past the end of the storage. */
  function ContiguousSpace(r: Ring): (n: nat)
    requires Wf(r)
    ensures n <= Space(r)
    ensures n == 0 <==> Space(r) == 0
  {
    Min(Space(r), r.capacity - InPos(r))
  }

  /** The ring after `n` queued bytes have been read. */
  function Drained(r: Ring, n: nat): (d: Ring)
    requires Wf(r) && n <= |r.data|
    ensures Wf(d) && d.capacity == r.capacity && d.closed == r.closed
    ensures r.data[..n] + d.data == r.data
  {
    Ring(r.capacity, WrapPos(r.out + n, r.capacity), r.data[n..], r.closed)
  }

  /** The ring after `bytes` have been queued behind its data. */
  function Filled(r: Ring, bytes: seq<bv8>): (f: Ring)
    requires Wf(r) && |bytes| <= Space(r)
    ensures Wf(f) && f.capacity == r.capacity && f.closed == r.closed
    ensures |f.data| == |r.data| + |bytes|
    ensures f.data[..|r.data|] == r.data && f.data[|r.data|..] == bytes
  {
    Ring(r.capacity, r.out, r.data + bytes, r.closed)
  }

  /** NPT_RingBuffer::Flush: empty, both positions back at the start. */
  function Flushed(r: Ring): (f: Ring)
    requires Wf(r)
    ensures Wf(f) && f.capacity == r.capacity && f.data == [] && Space(f) == r.capacity
  {
    Ring(r.capacity, 0, [], r.closed)
  }

  /** Reading in two steps leaves the ring as one read of both counts would. */
  lemma DrainedTwice(r: Ring, a: nat, b: nat)
    requires Wf(r) && a + b <= |r.data|
    ensures b <= |Drained(r, a).data|
    ensures Drained(Drained(r, a), b) == Drained(r, a + b)
  {
    assert r.data[a..][b..] == r.data[a + b..];
  }

  /** Writing in two steps queues the concatenation of both chunks. */
  lemma FilledTwice(r: Ring, x: seq<bv8>, y: seq<bv8>)
    requires Wf(r) && |x| + |y| <= Space(r)
    ensures |y| <= Space(Filled(r, x))
    ensures Filled(Filled(r, x), y) == Filled(r, x + y)
  {
    assert r.data + x + y == r.data + (x + y);
  }

  /** A read that reaches the end of the storage leaves the read position at its start. */
  lemma DrainToEndWraps(r: Ring, n: nat)
    requires Wf(r) && n <= |r.data| && n == r.capacity - r.out
    ensures Drained(r, n).out == 0
  {
  }

  /**
   * A write that reaches the end of the storage leaves the write position at
   * its start. (When the queued data already wraps, the free bytes are all
   * contiguous and never reach the end.)
   */
  lemma FillToEndWraps(r: Ring, bytes: seq<bv8>)
    requires Wf(r) && |bytes| <= Space(r) && |bytes| == r.capacity - InPos(r)
    ensures InPos(Filled(r, bytes)) == 0
  {
  }

  /**
   * One chunk of a write, as many bytes as both the offer and the contiguous
   * free run allow: it takes the whole offer, fills the ring, or ends the run
   * so that the write position wraps to the start; from the start, the run
   * is all the free space.
   */
  lemma WriteChunkOutcome(r: Ring, chunk: seq<bv8>)
    requires Wf(r) && |chunk| <= ContiguousSpace(r)
    ensures |chunk| == ContiguousSpace(r) ==> |chunk| == Space(r) || InPos(Filled(r, chunk)) == 0
    ensures InPos(r) == 0 ==> ContiguousSpace(r) == Space(r)
  {
    if |chunk| == ContiguousSpace(r) && |chunk| != Space(r) {
      FillToEndWraps(r, chunk);
    }
  }

  /** Bytes queued into an empty ring are read back unchanged and in order. */
  lemma FillThenDrain(r: Ring, bytes: seq<bv8>)
    requires Wf(r) && r.data == [] && |bytes| <= Space(r)
    ensures Drained(Filled(r, bytes), |bytes|).data == []
    ensures Filled(r, bytes).data[..|bytes|] == bytes
  {
  }

  /**
   * One chunk of a read, as many bytes as both `room` and the contiguous run
   * allow: it fills the room, empties the queue, or ends the run so that the
   * read position wraps to the start; from the start, the run is the queue.
   */
  lemma ReadChunkOutcome(r: Ring, room: nat)
    requires Wf(r)
    ensures var n := Min(room, ContiguousAvailable(r));
            n == room || n == |r.data| || Drained(r, n).out == 0
    ensures r.out == 0 ==> Min(room, ContiguousAvailable(r)) == Min(room, |r.data|)
  {
    var n := Min(room, ContiguousAvailable(r));
    if n != room && n != |r.data| {
      DrainToEndWraps(r, n);
    }
  }

  /** Bytes read after `done` continue the queue's head. */
  lemma ReadStep(r: Ring, done: nat, n: nat)
    requires Wf(r) && done + n <= |r.data|
    ensures r.data[..done + n] == r.data[..done] + Drained(r, done).data[..n]
    ensures Drained(Drained(r, done), n) == Drained(r, done + n)
  {
    DrainedTwice(r, done, n);
    assert r.data[..done + n] == r.data[..done] + r.data[done..][..n];
  }

  // ------------------------------------------------------ the stream

  /** NPT_Result of Read and Write; Sleeps is the blocking wait, which this model does not enter. */
  datatype Outcome = Success | ErrorEos | ErrorWouldBlock | Sleeps

  /** What the wait loop decides from the first look at the buffer. */
  function WaitOutcome(contiguous: nat, eos: bool, closed: bool, blocking: bool): (o: Outcome)
    ensures o == Success <==> contiguous > 0
    ensures o == ErrorEos <==> contiguous == 0 && (eos || closed)
    ensures o == ErrorWouldBlock <==> contiguous == 0 && !eos && !closed && !blocking
  {
    if contiguous > 0 then Success
    else if eos || closed then ErrorEos
    else if !blocking then ErrorWouldBlock
    else Sleeps
  }

  class Stream {
    var ring: Ring
    var totalBytesRead: nat
    var totalBytesWritten: nat
    var eos: bool
    const blocking: bool

    /** PLT_RingBufferStream(buffer_size, blocking): a new empty ring, zero totals. */
    constructor (bufferSize: nat, blocking: bool)
      requires bufferSize > 0
      ensures Wf(ring) && ring.capacity == bufferSize && ring.data == [] && !ring.closed
      ensures totalBytesRead == 0 && totalBytesWritten == 0 && !eos && this.blocking == blocking
    {
      ring := Ring(bufferSize, 0, [], false);
      totalBytesRead := 0;
      totalBytesWritten := 0;
      eos := false;
      this.blocking := blocking;
    }

    /**
     * Read(buffer, max_bytes_to_read, bytes_read). The count is reset first;
     * once data is there, the two chunks move as many bytes as both requested
     * and queued, the head of the queue, and the total grows by that count.
     */
    method Read(maxBytes: nat) returns (result: Outcome, bytesRead: nat, bytes: seq<bv8>)
      requires Wf(ring)
      modifies this
      ensures result == WaitOutcome(ContiguousAvailable(old(ring)), eos, ring.closed, blocking)
      ensures eos == old(eos) && totalBytesWritten == old(totalBytesWritten)
      ensures bytesRead == (if result == Success then Min(maxBytes, |old(ring).data|) else 0)
      ensures |bytes| == bytesRead && bytes == old(ring).data[..bytesRead]
      ensures ring == Drained(old(ring), bytesRead)
      ensures totalBytesRead == old(totalBytesRead) + bytesRead
    {
      bytesRead := 0;
      bytes := [];
      result := WaitOutcome(ContiguousAvailable(ring), eos, ring.closed, blocking);
      if result != Success {
        assert ring == Drained(ring, 0);
        return;
      }
      bytesRead, bytes := ReadChunks(maxBytes);
    }

    /** The locked part of Read: "try twice in case we looped". */
    method ReadChunks(maxBytes: nat) returns (lastRead: nat, bytes: seq<bv8>)
      requires Wf(ring)
      modifies this
      ensures lastRead == Min(maxBytes, |old(ring).data|)
      ensures bytes == old(ring).data[..lastRead] && ring == Drained(old(ring), lastRead)
      ensures totalBytesRead == old(totalBytesRead) + lastRead
      ensures eos == old(eos) && totalBytesWritten == old(totalBytesWritten)
    {
      ghost var start := ring;
      lastRead := 0;
      bytes := [];
      for i := 0 to 2
        invariant lastRead <= maxBytes && lastRead <= |start.data|
        invariant ring == Drained(start, lastRead) && bytes == start.data[..lastRead]
        invariant totalBytesRead == old(totalBytesRead) + lastRead
        invariant eos == old(eos) && totalBytesWritten == old(totalBytesWritten)
        invariant i == 1 ==> lastRead == maxBytes || ring.data == [] || ring.out == 0
        invariant i == 2 ==> lastRead == maxBytes || ring.data == []
      {
        var toRead := Min(maxBytes - lastRead, ContiguousAvailable(ring));
        if toRead == 0 {
          break;
        }
        ReadChunkOutcome(ring, maxBytes - lastRead);
        ReadStep(start, lastRead, toRead);
        var chunk := ReadChunk(toRead);
        bytes := bytes + chunk;
        lastRead := lastRead + toRead;
      }
    }

    /** One NPT_RingBuffer::Read of a contiguous run, counted in the read total. */
    method ReadChunk(n: nat) returns (chunk: seq<bv8>)
      requires Wf(ring) && n <= ContiguousAvailable(ring)
      modifies this
      ensures chunk == old(ring).data[..n] && ring == Drained(old(ring), n)
      ensures totalBytesRead == old(totalBytesRead) + n
      ensures eos == old(eos) && totalBytesWritten == old(totalBytesWritten)
    {
      chunk := ring.data[..n];
      ring := Drained(ring, n);
      totalBytesRead := totalBytesRead + n;
    }

    /**
     * Write(buffer, bytes_to_write, bytes_written). The count is reset
     * first; once there is room, the two chunks queue as many leading bytes
     * as both offered and free, and the total grows by that count.
     */
    method Write(bytes: seq<bv8>) returns (result: Outcome, bytesWritten: nat)
      requires Wf(ring)
      modifies this
      ensures result == WaitOutcome(ContiguousSpace(old(ring)), eos, ring.closed, blocking)
      ensures eos == old(eos) && totalBytesRead == old(totalBytesRead)
      ensures bytesWritten == (if result == Success then Min(|bytes|, Space(old(ring))) else 0)
      ensures ring == Filled(old(ring), bytes[..bytesWritten])
      ensures totalBytesWritten == old(totalBytesWritten) + bytesWritten
    {
      bytesWritten := 0;
      result := WaitOutcome(ContiguousSpace(ring), eos, ring.closed, blocking);
      if result != Success {
        assert ring.data + [] == ring.data;
        return;
      }
      bytesWritten := WriteChunks(bytes);
    }

    /** The locked part of Write: "try twice in case we looped". */
    method WriteChunks(bytes: seq<bv8>) returns (lastWritten: nat)
      requires Wf(ring)
      modifies this
      ensures lastWritten == Min(|bytes|, Space(old(ring)))
      ensures ring == Filled(old(ring), bytes[..lastWritten])
      ensures totalBytesWritten == old(totalBytesWritten) + lastWritten
      ensures eos == old(eos) && totalBytesRead == old(totalBytesRead)
    {
      ghost var start := ring;
      lastWritten := 0;
      assert start.data + [] == start.data;
      for i := 0 to 2
        invariant lastWritten <= |bytes| && lastWritten <= Space(start)
        invariant ring == Filled(start, bytes[..lastWritten])
        invariant totalBytesWritten == old(totalBytesWritten) + lastWritten
        invariant eos == old(eos) && totalBytesRead == old(totalBytesRead)
        invariant i == 1 ==> lastWritten == |bytes| || Space(ring) == 0 || InPos(ring) == 0
        invariant i == 2 ==> lastWritten == |bytes| || Space(ring) == 0
      {
        var toWrite := Min(|bytes| - lastWritten, ContiguousSpace(ring));
        if toWrite == 0 {
          break;
        }
        var chunk := bytes[lastWritten..lastWritten + toWrite];
        WriteChunkOutcome(ring, chunk);
        FilledTwice(start, bytes[..lastWritten], chunk);
        assert bytes[..lastWritten] + chunk == bytes[..lastWritten + toWrite];
        WriteChunk(chunk);
        lastWritten := lastWritten + toWrite;
      }
    }

    /** One NPT_RingBuffer::Write into a contiguous run, counted in the write total. */
    method WriteChunk(chunk: seq<bv8>)
      requires Wf(ring) && |chunk| <= ContiguousSpace(ring)
      modifies this
      ensures ring == Filled(old(ring), chunk)
      ensures totalBytesWritten == old(totalBytesWritten) + |chunk|
      ensures eos == old(eos) && totalBytesRead == old(totalBytesRead)
    {
      ring := Filled(ring, chunk);
      totalBytesWritten := totalBytesWritten + |chunk|;
    }

    /** Flush: the ring is flushed and both totals restart from zero. */
    method Flush() returns (result: Outcome)
      requires Wf(ring)
      modifies this
      ensures result == Success
      ensures ring == Flushed(old(ring)) && totalBytesRead == 0 && totalBytesWritten == 0
      ensures eos == old(eos)
    {
      ring := Flushed(ring);
      totalBytesRead := 0;
      totalBytesWritten := 0;
      result := Success;
    }
  }
}
