/**
 * The chunk queue and the playback cursor of the speaker, and the drain that
 * the stream callback runs over them, as functions on values.
 */
module Playback {
  import opened Wrappers

  /** One caller-supplied byte buffer, queued whole by `Write`. */
  type Chunk = seq<bv8>

  /** The bytes of a queue of chunks, in queue (that is, playback) order. */
  function Flatten(queue: seq<Chunk>): seq<bv8>
  {
    if queue == [] then [] else queue[0] + Flatten(queue[1..])
  }

  /** Enqueueing a chunk appends exactly its bytes to the bytes of the queue. */
  lemma {:induction false} FlattenAppend(queue: seq<Chunk>, chunk: Chunk)
    ensures Flatten(queue + [chunk]) == Flatten(queue) + chunk
  {
    if queue == [] {
      assert queue + [chunk] == [chunk];
      assert [chunk][1..] == [];
    } else {
      assert (queue + [chunk])[0] == queue[0];
      assert (queue + [chunk])[1..] == queue[1..] + [chunk];
      FlattenAppend(queue[1..], chunk);
    }
  }

  function Min(a: nat, b: nat): nat
  {
    if a <= b then a else b
  }

  /**
   * The playback cursor: the chunk being played (`None` when there is none)
   * and how many of its bytes have already been copied out.
   */
  datatype Cursor = Cursor(buffer: Option<Chunk>, offset: nat) {

    /** The offset stays within the chunk it points into. */
    predicate Valid()
    {
      buffer.Some? ==> offset <= |buffer.value|
    }

    /** The callback must take the next chunk from the queue before copying. */
    predicate NeedsChunk()
    {
      buffer.None? || offset >= |buffer.value|
    }

    /** Part of the current chunk has not been played yet. */
    predicate HasPartial()
    {
      buffer.Some? && offset < |buffer.value|
    }

    /** The bytes of the current chunk that have not been played yet. */
    function Remaining(): seq<bv8>
    {
      if buffer.Some? && offset <= |buffer.value| then buffer.value[offset..] else []
    }
  }

  /** `n` zero bytes: the silence written when the queue runs dry. */
  function Silence(n: nat): (s: seq<bv8>)
    ensures |s| == n && forall i :: 0 <= i < n ==> s[i] == 0
  {
    seq(n, _ => 0)
  }

  /** Every byte still to be played: the rest of the current chunk, then the queue. */
  function Pending(cursor: Cursor, queue: seq<Chunk>): seq<bv8>
  {
    cursor.Remaining() + Flatten(queue)
  }

  /** What one drain leaves behind: the bytes it copied, the cursor and the queue. */
  datatype DrainResult = DrainResult(copied: seq<bv8>, cursor: Cursor, queue: seq<Chunk>)

  /**
   * The drain loop of the stream callback: while `room` output bytes are
   * still wanted, a used-up cursor takes the next chunk from the queue at
   * offset zero (an empty queue ends the drain and, as a failed dequeue does,
   * clears the current chunk but not the offset); otherwise as many bytes as
   * both the chunk and the output still have room for are copied.
   * The cursor stays within its chunk and no more than `room` bytes are copied.
   */
  function Drain(cursor: Cursor, queue: seq<Chunk>, room: nat): (d: DrainResult)
    ensures cursor.Valid() ==> d.cursor.Valid()
    ensures |d.copied| <= room
    decreases room, |queue|
  {
    if room == 0 then
      DrainResult([], cursor, queue)
    else if cursor.NeedsChunk() then
      if queue == [] then DrainResult([], Cursor(None, cursor.offset), [])
      else Drain(Cursor(Some(queue[0]), 0), queue[1..], room)
    else
      var chunk := cursor.buffer.value;
      var count := Min(|chunk| - cursor.offset, room);
      var d := Drain(Cursor(Some(chunk), cursor.offset + count), queue, room - count);
      DrainResult(chunk[cursor.offset..cursor.offset + count] + d.copied, d.cursor, d.queue)
  }

  /** One copying step of the drain, unfolded. */
  lemma DrainCopyUnfold(cursor: Cursor, queue: seq<Chunk>, room: nat)
    requires cursor.Valid() && !cursor.NeedsChunk() && room > 0
    ensures var chunk := cursor.buffer.value;
            var count := Min(|chunk| - cursor.offset, room);
            var d := Drain(Cursor(Some(chunk), cursor.offset + count), queue, room - count);
            Drain(cursor, queue, room) == DrainResult(chunk[cursor.offset..cursor.offset + count] + d.copied, d.cursor, d.queue)
  {
  }

  /**
   * A drain seen from the middle of the loop that runs it: `done` has been
   * copied already and the drain goes on from `cursor` and `queue` with
   * `room` output bytes still wanted.
   */
  function Resume(done: seq<bv8>, cursor: Cursor, queue: seq<Chunk>, room: nat): DrainResult
  {
    var rest := Drain(cursor, queue, room);
    DrainResult(done + rest.copied, rest.cursor, rest.queue)
  }

  /** Before the loop has copied anything, it has the whole drain ahead of it. */
  lemma ResumeStart(cursor: Cursor, queue: seq<Chunk>, room: nat)
    ensures Resume([], cursor, queue, room) == Drain(cursor, queue, room)
  {
    assert [] + Drain(cursor, queue, room).copied == Drain(cursor, queue, room).copied;
  }

  /** Once the output is full, the loop has the whole drain behind it. */
  lemma ResumeFull(done: seq<bv8>, cursor: Cursor, queue: seq<Chunk>)
    ensures Resume(done, cursor, queue, 0) == DrainResult(done, cursor, queue)
  {
    assert done + [] == done;
  }

  /** A used-up cursor and an empty queue end the drain and clear the current chunk. */
  lemma ResumeRunDry(done: seq<bv8>, cursor: Cursor, room: nat)
    requires cursor.NeedsChunk() && room > 0
    ensures Resume(done, cursor, [], room) == DrainResult(done, Cursor(None, cursor.offset), [])
  {
    assert done + [] == done;
  }

  /** Taking the next chunk from the queue is a step of the drain. */
  lemma ResumeLoad(done: seq<bv8>, cursor: Cursor, queue: seq<Chunk>, room: nat)
    requires cursor.NeedsChunk() && queue != [] && room > 0
    ensures Resume(done, cursor, queue, room) == Resume(done, Cursor(Some(queue[0]), 0), queue[1..], room)
  {
  }

  /**
   * Copying the next `count` bytes of `chunk` from `offset`, as many as both
   * the chunk and the output have room for, is a step of the drain. A chunk
   * with nothing left (an empty chunk just taken from the queue) copies
   * nothing.
   */
  lemma ResumeCopy(done: seq<bv8>, chunk: Chunk, offset: nat, queue: seq<Chunk>, room: nat, count: nat)
    requires offset <= |chunk| && room > 0 && count == Min(|chunk| - offset, room)
    ensures Resume(done, Cursor(Some(chunk), offset), queue, room)
         == Resume(done + chunk[offset..offset + count], Cursor(Some(chunk), offset + count), queue, room - count)
  {
    var moved := chunk[offset..offset + count];
    var next := Drain(Cursor(Some(chunk), offset + count), queue, room - count);
    if offset < |chunk| {
      DrainCopyUnfold(Cursor(Some(chunk), offset), queue, room);
      assert done + (moved + next.copied) == (done + moved) + next.copied;
    } else {
      assert moved == [] && done + moved == done;
    }
  }

  /** Taking the head of the queue as the new chunk moves no byte. */
  lemma LoadKeepsPending(cursor: Cursor, queue: seq<Chunk>)
    requires cursor.Valid() && cursor.NeedsChunk() && queue != []
    ensures Pending(Cursor(Some(queue[0]), 0), queue[1..]) == Pending(cursor, queue)
  {
    assert Flatten(queue) == queue[0] + Flatten(queue[1..]);
    assert queue[0][0..] == queue[0];
  }

  /** Copying `count` bytes from the cursor takes them off the front of the pending bytes. */
  lemma CopyStep(cursor: Cursor, queue: seq<Chunk>, count: nat)
    requires cursor.Valid() && cursor.buffer.Some?
    requires cursor.offset + count <= |cursor.buffer.value|
    ensures var chunk := cursor.buffer.value;
            var next := Cursor(Some(chunk), cursor.offset + count);
            chunk[cursor.offset..cursor.offset + count] + Pending(next, queue) == Pending(cursor, queue)
  {
    var chunk := cursor.buffer.value;
    assert chunk[cursor.offset..cursor.offset + count] + chunk[cursor.offset + count..] == chunk[cursor.offset..];
  }

  /**
   * Taking `moved` (no more than `room` bytes) off the front of `whole` and
   * then the first `room - |moved|` bytes, or all of them, off the rest takes
   * the first `room` bytes, or all of them, off `whole`.
   */
  lemma ChainSplit(moved: seq<bv8>, done: seq<bv8>, left: seq<bv8>, rest: seq<bv8>, whole: seq<bv8>, room: nat, count: nat)
    requires done + left == rest && moved + rest == whole
    requires |moved| == count <= room && |done| == Min(room - count, |rest|)
    ensures (moved + done) + left == whole
    ensures |moved + done| == Min(room, |whole|)
  {
    assert (moved + done) + left == moved + (done + left);
  }

  /**
   * A drain only moves bytes: what it copies followed by what it leaves
   * pending is what was pending before, and it copies as many bytes as the
   * output has room for, or all of them when fewer are pending.
   */
  lemma {:induction false} DrainConservesBytes(cursor: Cursor, queue: seq<Chunk>, room: nat)
    requires cursor.Valid()
    ensures var d := Drain(cursor, queue, room);
            d.copied + Pending(d.cursor, d.queue) == Pending(cursor, queue) &&
            |d.copied| == Min(room, |Pending(cursor, queue)|)
    decreases room, |queue|, 1
  {
    if room == 0 {
    } else if !cursor.NeedsChunk() {
      CopyConservesBytes(cursor, queue, room);
    } else if queue == [] {
      assert Pending(cursor, queue) == [];
    } else {
      var loaded := Cursor(Some(queue[0]), 0);
      LoadKeepsPending(cursor, queue);
      DrainConservesBytes(loaded, queue[1..], room);
    }
  }

  /** The copying case of `DrainConservesBytes`. */
  lemma {:induction false} CopyConservesBytes(cursor: Cursor, queue: seq<Chunk>, room: nat)
    requires cursor.Valid() && !cursor.NeedsChunk() && room > 0
    ensures var d := Drain(cursor, queue, room);
            d.copied + Pending(d.cursor, d.queue) == Pending(cursor, queue) &&
            |d.copied| == Min(room, |Pending(cursor, queue)|)
    decreases room, |queue|, 0
  {
    var chunk := cursor.buffer.value;
    var count := Min(|chunk| - cursor.offset, room);
    var next := Cursor(Some(chunk), cursor.offset + count);
    var moved := chunk[cursor.offset..cursor.offset + count];
    assert |moved| == count;
    var d := Drain(next, queue, room - count);
    DrainCopyUnfold(cursor, queue, room);
    assert Drain(cursor, queue, room) == DrainResult(moved + d.copied, d.cursor, d.queue);
    DrainConservesBytes(next, queue, room - count);
    CopyStep(cursor, queue, count);
    ChainSplit(moved, d.copied, Pending(d.cursor, d.queue), Pending(next, queue), Pending(cursor, queue), room, count);
  }

  /**
   * A drain copies the first `min(room, |pending|)` pending bytes, in order,
   * and leaves exactly the bytes after them pending: no byte is skipped,
   * repeated or reordered, whatever the chunk boundaries.
   */
  lemma DrainDeliversPending(cursor: Cursor, queue: seq<Chunk>, room: nat)
    requires cursor.Valid()
    ensures var d := Drain(cursor, queue, room);
            var p := Pending(cursor, queue);
            var n := Min(room, |p|);
            d.copied == p[..n] && Pending(d.cursor, d.queue) == p[n..]
  {
    DrainConservesBytes(cursor, queue, room);
    var d := Drain(cursor, queue, room);
    var p := Pending(cursor, queue);
    assert p[..|d.copied|] == d.copied;
  }

  /**
   * A drain that copies fewer bytes than wanted has run the queue dry: the
   * queue is empty and there is no current chunk.
   */
  lemma {:induction false} DrainUnderrun(cursor: Cursor, queue: seq<Chunk>, room: nat)
    requires cursor.Valid()
    ensures var d := Drain(cursor, queue, room);
            |d.copied| < room ==> d.queue == [] && d.cursor.buffer.None?
    decreases room, |queue|
  {
    if room == 0 {
    } else if cursor.NeedsChunk() {
      if queue != [] {
        DrainUnderrun(Cursor(Some(queue[0]), 0), queue[1..], room);
      }
    } else {
      var chunk := cursor.buffer.value;
      var count := Min(|chunk| - cursor.offset, room);
      DrainUnderrun(Cursor(Some(chunk), cursor.offset + count), queue, room - count);
    }
  }
}
