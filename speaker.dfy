/**
 * The speaker: a one-time-use player that queues byte chunks written by the
 * caller and feeds them to the audio backend through a pull callback.
 * Each method is proved to take the object's state exactly as the matching
 * function of `Engine` takes the abstract state.
 */
module Microphone {
  import opened Wrappers
  import opened SampleFormats
  import opened Playback
  import Engine

  /**
   * Copies `count` bytes of `source`, from `sourceOffset` on, into
   * `destination` at `destinationOffset`, leaving every other byte as it was.
   */
  method Copy(source: seq<bv8>, sourceOffset: nat, destination: array<bv8>, destinationOffset: nat, count: nat)
    requires sourceOffset + count <= |source| && destinationOffset + count <= destination.Length
    modifies destination
    ensures destination[..destinationOffset + count]
         == old(destination[..destinationOffset]) + source[sourceOffset..sourceOffset + count]
    ensures destination[destinationOffset + count..] == old(destination[destinationOffset + count..])
  {
    forall i | 0 <= i < count {
      destination[destinationOffset + i] := source[sourceOffset + i];
    }
  }

  class Speaker {
    /** The chunks written and not yet taken by the callback, oldest first. */
    var audioQueue: seq<Chunk>
    /** The chunk being played, if any, and how much of it has been copied out. */
    var lastBuffer: Option<Chunk>
    var lastOffset: nat
    /** The completion task has been resolved. */
    var completed: bool
    /** Cancellation has been requested. */
    var cancelled: bool
    /** The native output stream's run state. */
    var stream: Engine.StreamState
    /** The output parameters of the native stream. */
    const outputParameters: Option<Engine.StreamParameters>
    /** Every chunk ever written, and every byte ever played (padding excluded). */
    ghost var written: seq<Chunk>
    ghost var delivered: seq<bv8>

    /** The abstract state of this speaker. */
    ghost function Model(): Engine.State
      reads this
    {
      Engine.State(audioQueue, Cursor(lastBuffer, lastOffset), completed, cancelled, stream, written, delivered)
    }

    ghost predicate Valid()
      reads this
    {
      Engine.Inv(Model())
    }

    /**
     * Opens the output stream on device `deviceIndex` with `channels`
     * channels in sample format `format`; the sample rate and the frames per
     * buffer only configure the native stream.
     */
    constructor(rate: int, framesPerBuffer: nat, channels: nat, deviceIndex: int, format: SampleFormat)
      ensures Valid()
      ensures Model() == Engine.Initial()
      ensures outputParameters == Some(Engine.StreamParameters(deviceIndex, channels, format))
    {
      audioQueue := [];
      lastBuffer := None;
      lastOffset := 0;
      completed := false;
      cancelled := false;
      stream := Engine.Open;
      outputParameters := Some(Engine.StreamParameters(deviceIndex, channels, format));
      written := [];
      delivered := [];
      new;
      Engine.InitialInv();
    }

    /** Starts playing the queued audio; throws once the speaker has been used. */
    method Start() returns (outcome: Outcome<Engine.Error>)
      requires Valid()
      modifies this
      ensures Valid()
      ensures (Model(), outcome) == Engine.Start(old(Model()))
    {
      if cancelled {
        return Fail(Engine.InvalidOperation(Engine.AlreadyUsedMessage));
      }
      stream := Engine.Running;
      outcome := Pass;
      Engine.StartInv(old(Model()));
    }

    /** Stops playback and clears the queue, once; later calls do nothing. */
    method Stop()
      requires Valid()
      modifies this
      ensures Valid()
      ensures Model() == Engine.Stop(old(Model()))
    {
      Engine.StopInv(Model());
      if !completed {
        completed := true;
        cancelled := true;
        audioQueue := [];
        stream := Engine.Closed;
      }
    }

    /** Adds one chunk of audio data to the end of the queue. */
    method Write(data: Chunk)
      requires Valid()
      modifies this
      ensures Valid()
      ensures Model() == Engine.Write(old(Model()), data)
    {
      Engine.WriteInv(Model(), data);
      audioQueue := audioQueue + [data];
      written := written + [data];
    }

    /** Whether the task that waiters block on has resolved. */
    method WaitForCompleteAsync() returns (resolved: bool)
      ensures resolved == Engine.IsResolved(Model())
    {
      resolved := completed;
    }

    /** Disposing a speaker stops it. */
    method Dispose()
      requires Valid()
      modifies this
      ensures Valid()
      ensures Model() == Engine.Stop(old(Model()))
    {
      Stop();
    }

    /**
     * The drain loop of `StreamCallback`: fills `output` from the current
     * chunk and then from the queue, taking chunks in order, until it is full
     * or the queue runs dry; returns how many bytes it copied.
     */
    method DrainInto(output: array<bv8>, outputLength: nat) returns (offset: nat)
      requires Cursor(lastBuffer, lastOffset).Valid() && output.Length == outputLength
      modifies this`audioQueue, this`lastBuffer, this`lastOffset, output
      ensures var d := Drain(old(Cursor(lastBuffer, lastOffset)), old(audioQueue), outputLength);
              && offset == |d.copied|
              && output[..offset] == d.copied
              && Cursor(lastBuffer, lastOffset) == d.cursor
              && audioQueue == d.queue
      ensures output[offset..] == old(output[offset..])
    {
      offset := 0;
      ghost var drain := Drain(Cursor(lastBuffer, lastOffset), audioQueue, outputLength);
      ResumeStart(Cursor(lastBuffer, lastOffset), audioQueue, outputLength);
      assert output[..0] == [];
      while offset < outputLength
        invariant offset <= outputLength
        invariant Cursor(lastBuffer, lastOffset).Valid()
        invariant drain == Resume(output[..offset], Cursor(lastBuffer, lastOffset), audioQueue, outputLength - offset)
        invariant output[offset..] == old(output[offset..])
        decreases outputLength - offset, |audioQueue|
      {
        // Load the next chunk once the current one is used up.
        if lastBuffer.None? || lastOffset >= |lastBuffer.value| {
          if audioQueue == [] {
            // A failed dequeue clears the current chunk.
            ResumeRunDry(output[..offset], Cursor(lastBuffer, lastOffset), outputLength - offset);
            lastBuffer := None;
            break;
          }
          ResumeLoad(output[..offset], Cursor(lastBuffer, lastOffset), audioQueue, outputLength - offset);
          lastBuffer := Some(audioQueue[0]);
          audioQueue := audioQueue[1..];
          lastOffset := 0;
        }
        var copyLength := CopyFromChunk(output, offset, outputLength, drain);
        offset := offset + copyLength;
      }
      if offset == outputLength {
        ResumeFull(output[..offset], Cursor(lastBuffer, lastOffset), audioQueue);
      }
    }

    /**
     * One pass of the drain loop once a chunk is at hand: copies as many
     * bytes of the current chunk as both the chunk and the output have room
     * for to `output` at `offset`, and advances the cursor past them.
     */
    method CopyFromChunk(output: array<bv8>, offset: nat, outputLength: nat, ghost drain: DrainResult) returns (copyLength: nat)
      requires lastBuffer.Some? && lastOffset <= |lastBuffer.value| && offset < outputLength == output.Length
      requires drain == Resume(output[..offset], Cursor(lastBuffer, lastOffset), audioQueue, outputLength - offset)
      modifies this`lastOffset, output
      ensures copyLength == Min(|lastBuffer.value| - old(lastOffset), outputLength - offset)
      ensures lastOffset == old(lastOffset) + copyLength
      ensures output[..offset + copyLength] == old(output[..offset]) + lastBuffer.value[old(lastOffset)..lastOffset]
      ensures drain == Resume(output[..offset + copyLength], Cursor(lastBuffer, lastOffset), audioQueue, outputLength - offset - copyLength)
      ensures output[offset + copyLength..] == old(output[offset + copyLength..])
    {
      var buffer := lastBuffer.value;
      var remainingBufferLength := |buffer| - lastOffset;
      var remainingOutputLength := outputLength - offset;
      copyLength := Min(remainingBufferLength, remainingOutputLength);
      ResumeCopy(output[..offset], buffer, lastOffset, audioQueue, remainingOutputLength, copyLength);
      Copy(buffer, lastOffset, output, offset, copyLength);
      lastOffset := lastOffset + copyLength;
    }

    /**
     * The callback the audio backend invokes for each buffer of `frameCount`
     * frames, with `output` the device buffer of the required length.
     */
    method StreamCallback(frameCount: nat, output: array<bv8>) returns (result: Result<Engine.StreamCallbackResult, Engine.Error>)
      requires Valid()
      requires Engine.RequiredBytes(outputParameters, frameCount).Some? ==>
                 output.Length == Engine.RequiredBytes(outputParameters, frameCount).value
      modifies this, output
      ensures Valid()
      ensures var step := Engine.StreamCallback(old(Model()), outputParameters, frameCount);
              && Model() == step.state
              && result == step.result
              && output[..] == if step.output.Some? then step.output.value else old(output[..])
    {
      if cancelled || outputParameters.None? {
        Stop();
        return Success(Engine.Abort);
      }
      var params := outputParameters.value;
      var dataSize := BytesPerSample(params.sampleFormat);
      if dataSize.None? {
        return Failure(Engine.NotSupported(params.sampleFormat));
      }
      var outputLength := frameCount * dataSize.value * params.channelCount;
      result := Play(output, outputLength);
    }

    /**
     * The body of `StreamCallback` once the output length is known: drains
     * the queue into `output`, zero-fills the rest, and stops the speaker when
     * nothing is left to play.
     */
    method Play(output: array<bv8>, outputLength: nat) returns (result: Result<Engine.StreamCallbackResult, Engine.Error>)
      requires Valid() && !cancelled && output.Length == outputLength
      modifies this, output
      ensures Valid()
      ensures var step := Engine.Play(old(Model()), outputLength);
              && Model() == step.state
              && result == step.result
              && step.output == Some(output[..])
    {
      var offset := DrainInto(output, outputLength);
      ghost var drain := Drain(old(Cursor(lastBuffer, lastOffset)), old(audioQueue), outputLength);
      // Zero-fill the part the queue could not supply.
      if offset < outputLength {
        Copy(Silence(outputLength - offset), 0, output, offset, outputLength - offset);
      }
      assert output[..] == drain.copied + Silence(outputLength - offset);
      delivered := delivered + drain.copied;
      Engine.DrainedInv(old(Model()), outputLength);
      if audioQueue != [] || (lastBuffer.Some? && lastOffset < |lastBuffer.value|) {
        return Success(Engine.Continue);
      }
      Stop();
      return Success(Engine.Complete);
    }
  }
}
