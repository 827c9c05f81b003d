/**
 * The speaker as a state machine on values: the queue, the cursor, the
 * completion and cancellation flags and the native stream's run state, with
 * one function per public operation and per callback invocation. The class
 * in `Microphone` is proved to follow these functions step by step.
 */
module Engine {
  import opened Wrappers
  import opened SampleFormats
  import opened Playback

  /** What the callback tells the audio backend. */
  datatype StreamCallbackResult = Continue | Complete | Abort

  /** The exceptions the speaker throws. */
  datatype Error = InvalidOperation(message: string) | NotSupported(format: SampleFormat)

  const AlreadyUsedMessage := "Speaker has already been used, please create a new instance!"

  /** The output parameters the native stream was opened with. */
  datatype StreamParameters = StreamParameters(device: int, channelCount: nat, sampleFormat: SampleFormat)

  /** The native stream: opened, started, or stopped and released. */
  datatype StreamState = Open | Running | Closed

  /**
   * The speaker's state. `completed` is the completion task being resolved,
   * `cancelled` the cancellation being requested. `written` (every chunk ever
   * passed to `Write`, in call order) and `delivered` (every byte ever copied
   * to the device, padding excluded) are history kept for the proofs.
   */
  datatype State = State(
    queue: seq<Chunk>,
    cursor: Cursor,
    completed: bool,
    cancelled: bool,
    stream: StreamState,
    written: seq<Chunk>,
    delivered: seq<bv8>)

  /** A freshly constructed speaker. */
  function Initial(): State
  {
    State([], Cursor(None, 0), false, false, Open, [], [])
  }

  /**
   * The speaker's invariant. The cursor stays within its chunk; cancellation
   * is requested exactly when the completion task is resolved, and then the
   * stream is released. Until then, the bytes delivered followed by the
   * bytes still pending are exactly the bytes written, in write order;
   * afterwards the bytes delivered remain a prefix of the bytes written.
   */
  ghost predicate Inv(s: State)
  {
    && s.cursor.Valid()
    && s.cancelled == s.completed
    && (s.stream == Closed <==> s.completed)
    && if s.completed then s.delivered <= Flatten(s.written)
       else s.delivered + Pending(s.cursor, s.queue) == Flatten(s.written)
  }

  /** `Start`: refused once the speaker has been used, else starts the native stream. */
  function Start(s: State): (r: (State, Outcome<Error>))
    ensures r.1.Fail? <==> s.cancelled
    ensures r.0 == s.(stream := r.0.stream)
    ensures r.1.Pass? ==> r.0.stream == Running
  {
    if s.cancelled then (s, Fail(InvalidOperation(AlreadyUsedMessage)))
    else (s.(stream := Running), Pass)
  }

  /**
   * `Stop`: unless the completion task is already resolved, resolve it,
   * request cancellation, clear the queue and stop and release the stream.
   */
  function Stop(s: State): (r: State)
    ensures r.completed
    ensures s.completed ==> r == s
    ensures !s.completed ==> r.cancelled && r.queue == [] && r.stream == Closed
    ensures r.cursor == s.cursor && r.written == s.written && r.delivered == s.delivered
  {
    if s.completed then s
    else s.(completed := true, cancelled := true, queue := [], stream := Closed)
  }

  /** `Write`: enqueue one chunk. */
  function Write(s: State, data: Chunk): (r: State)
    ensures Flatten(r.queue) == Flatten(s.queue) + data
    ensures Flatten(r.written) == Flatten(s.written) + data
    ensures r.cursor == s.cursor && r.delivered == s.delivered && r.completed == s.completed
  {
    FlattenAppend(s.queue, data);
    FlattenAppend(s.written, data);
    s.(queue := s.queue + [data], written := s.written + [data])
  }

  /** `WaitForCompleteAsync`: whether the task it returns has resolved. */
  function IsResolved(s: State): bool
  {
    s.completed
  }

  /**
   * The number of bytes the callback must supply for `frameCount` frames, or
   * `None` when the output parameters are missing or their format is not supported.
   */
  function RequiredBytes(params: Option<StreamParameters>, frameCount: nat): (r: Option<nat>)
    ensures r.Some? <==> params.Some? && !params.value.sampleFormat.Other?
    ensures r.Some? ==> frameCount * params.value.channelCount <= r.value <= 4 * (frameCount * params.value.channelCount)
  {
    if params.None? then None
    else match BytesPerSample(params.value.sampleFormat)
      case None => None
      case Some(width) => Some(frameCount * width * params.value.channelCount)
  }

  /** One callback invocation: the new state, the value returned or thrown, and the output buffer written (if any). */
  datatype CallbackStep = CallbackStep(state: State, result: Result<StreamCallbackResult, Error>, output: Option<seq<bv8>>)

  /**
   * The stream callback. A cancelled speaker, or one whose stream has no
   * output parameters, stops and aborts without writing. An unsupported
   * format throws. Otherwise the callback plays one buffer of the required
   * length.
   */
  function StreamCallback(s: State, params: Option<StreamParameters>, frameCount: nat): (r: CallbackStep)
    ensures r.result == Success(Abort) <==> s.cancelled || params.None?
    ensures r.result.Failure? <==> !s.cancelled && params.Some? && params.value.sampleFormat.Other?
    ensures r.output.Some? <==> !s.cancelled && RequiredBytes(params, frameCount).Some?
    ensures r.output.Some? ==> |r.output.value| == RequiredBytes(params, frameCount).value
  {
    if s.cancelled || params.None? then
      CallbackStep(Stop(s), Success(Abort), None)
    else match RequiredBytes(params, frameCount)
      case None => CallbackStep(s, Failure(NotSupported(params.value.sampleFormat)), None)
      case Some(room) => Play(s, room)
  }

  /**
   * Playing one output buffer of `room` bytes: the drain fills it from the
   * cursor and the queue, the shortfall is zero-filled, and the callback
   * continues when the queue is not empty or part of the current chunk is
   * left, and otherwise stops and completes.
   */
  function Play(s: State, room: nat): (r: CallbackStep)
    ensures r.output.Some? && |r.output.value| == room
    ensures r.result == Success(Continue) || r.result == Success(Complete)
    ensures r.result == Success(Complete) ==> r.state.completed
    ensures r.state.written == s.written
  {
    var d := Drain(s.cursor, s.queue, room);
    var output := d.copied + Silence(room - |d.copied|);
    var drained := s.(cursor := d.cursor, queue := d.queue, delivered := s.delivered + d.copied);
    if d.queue != [] || d.cursor.HasPartial() then
      CallbackStep(drained, Success(Continue), Some(output))
    else
      CallbackStep(Stop(drained), Success(Complete), Some(output))
  }

  /** A new speaker satisfies the invariant. */
  lemma InitialInv()
    ensures Inv(Initial())
  {
    assert Pending(Cursor(None, 0), []) == [];
  }

  /** `Stop` keeps the invariant: teardown discards the queue but never un-delivers a byte. */
  lemma StopInv(s: State)
    requires Inv(s)
    ensures Inv(Stop(s))
  {
    if !s.completed {
      var p := Pending(s.cursor, s.queue);
      assert Flatten(s.written)[..|s.delivered|] == s.delivered;
    }
  }

  /** `Stop` is idempotent: a second `Stop` (or `Dispose`) changes nothing. */
  lemma StopIdempotent(s: State)
    requires Inv(s)
    ensures Stop(Stop(s)) == Stop(s)
    ensures Stop(s).completed && Stop(s).cancelled && Stop(s).stream == Closed
  {
  }

  /** After `Stop`, `Start` throws and leaves the state, and so the native stream, untouched. */
  lemma StartAfterStopFails(s: State)
    requires Inv(s)
    ensures Start(Stop(s)) == (Stop(s), Fail(InvalidOperation(AlreadyUsedMessage)))
  {
  }

  /** `Start` keeps the invariant. */
  lemma StartInv(s: State)
    requires Inv(s)
    ensures Inv(Start(s).0)
  {
  }

  /**
   * `Write` keeps the invariant: the chunk's bytes join the end of the
   * pending bytes, so they will be played after every byte written before.
   */
  lemma {:induction false} WriteInv(s: State, data: Chunk)
    requires Inv(s)
    ensures Inv(Write(s, data))
    ensures !s.completed ==> Pending(s.cursor, s.queue + [data]) == Pending(s.cursor, s.queue) + data
  {
    FlattenAppend(s.written, data);
    FlattenAppend(s.queue, data);
    var t := Write(s, data);
    if s.completed {
      assert Flatten(t.written)[..|s.delivered|] == Flatten(s.written)[..|s.delivered|];
    } else {
      calc {
        t.delivered + Pending(t.cursor, t.queue);
        s.delivered + (s.cursor.Remaining() + (Flatten(s.queue) + data));
        (s.delivered + (s.cursor.Remaining() + Flatten(s.queue))) + data;
        Flatten(t.written);
      }
    }
  }

  /**
   * A callback that does not abort or throw writes exactly the required
   * number of bytes: first the next `n` pending bytes in order, where `n` is
   * the required length or, when fewer bytes are pending, all of them, and
   * zeros after them. Exactly those `n` bytes are recorded as delivered.
   */
  lemma CallbackOutput(s: State, params: Option<StreamParameters>, frameCount: nat)
    requires s.cursor.Valid() && !s.cancelled && RequiredBytes(params, frameCount).Some?
    ensures var step := StreamCallback(s, params, frameCount);
            var room := RequiredBytes(params, frameCount).value;
            var p := Pending(s.cursor, s.queue);
            var n := Min(room, |p|);
            && step.output.Some?
            && |step.output.value| == room
            && step.output.value[..n] == p[..n]
            && (forall i :: n <= i < room ==> step.output.value[i] == 0)
            && step.state.delivered == s.delivered + p[..n]
  {
    var room := RequiredBytes(params, frameCount).value;
    DrainDeliversPending(s.cursor, s.queue, room);
  }

  /**
   * The completion test is exact: a callback that does not abort or throw
   * returns `Continue` exactly when the queue is not empty or part of the
   * current chunk is left, and `Complete` otherwise; only `Complete` stops
   * the speaker, and it does so with every written byte delivered.
   */
  lemma CallbackCompletion(s: State, params: Option<StreamParameters>, frameCount: nat)
    requires Inv(s) && !s.cancelled && RequiredBytes(params, frameCount).Some?
    ensures var t := StreamCallback(s, params, frameCount);
            && (t.result == Success(Continue) <==> (t.state.queue != [] || t.state.cursor.HasPartial()))
            && (t.result == Success(Continue) || t.result == Success(Complete))
            && (t.result == Success(Complete) <==> t.state.completed)
            && (t.result == Success(Complete) ==> t.state.delivered == Flatten(t.state.written))
  {
    var room := RequiredBytes(params, frameCount).value;
    DrainConservesBytes(s.cursor, s.queue, room);
    var d := Drain(s.cursor, s.queue, room);
    if d.queue == [] && !d.cursor.HasPartial() {
      assert Pending(d.cursor, d.queue) == [];
    }
  }

  /**
   * An underrun ends the stream: when fewer bytes are pending than the
   * callback must supply, the drain empties the queue and the cursor, so
   * the zero-filled callback returns `Complete`.
   */
  lemma UnderrunCompletes(s: State, params: Option<StreamParameters>, frameCount: nat)
    requires s.cursor.Valid() && !s.cancelled && RequiredBytes(params, frameCount).Some?
    requires |Pending(s.cursor, s.queue)| < RequiredBytes(params, frameCount).value
    ensures StreamCallback(s, params, frameCount).result == Success(Complete)
  {
    var room := RequiredBytes(params, frameCount).value;
    DrainConservesBytes(s.cursor, s.queue, room);
    DrainUnderrun(s.cursor, s.queue, room);
  }

  /**
   * A cancelled speaker, or a stream without output parameters, aborts
   * before copying: the output buffer, the cursor and the bytes delivered
   * are untouched, and the speaker ends up stopped.
   */
  lemma AbortTouchesNothing(s: State, params: Option<StreamParameters>, frameCount: nat)
    requires Inv(s) && (s.cancelled || params.None?)
    ensures var t := StreamCallback(s, params, frameCount);
            && t.result == Success(Abort) && t.output.None?
            && t.state.cursor == s.cursor && t.state.delivered == s.delivered
            && t.state.completed && t.state.cancelled
  {
  }

  /** Draining a running speaker keeps the invariant: it only moves pending bytes to the delivered ones. */
  lemma DrainedInv(s: State, room: nat)
    requires Inv(s) && !s.completed
    ensures var d := Drain(s.cursor, s.queue, room);
            Inv(s.(cursor := d.cursor, queue := d.queue, delivered := s.delivered + d.copied))
  {
    DrainConservesBytes(s.cursor, s.queue, room);
    var d := Drain(s.cursor, s.queue, room);
    assert (s.delivered + d.copied) + Pending(d.cursor, d.queue)
        == s.delivered + (d.copied + Pending(d.cursor, d.queue));
  }

  /** The callback keeps the invariant: it only moves pending bytes to the delivered ones. */
  lemma CallbackInv(s: State, params: Option<StreamParameters>, frameCount: nat)
    requires Inv(s)
    ensures Inv(StreamCallback(s, params, frameCount).state)
  {
    if s.cancelled || params.None? {
      StopInv(s);
    } else if RequiredBytes(params, frameCount).Some? {
      var room := RequiredBytes(params, frameCount).value;
      var d := Drain(s.cursor, s.queue, room);
      DrainedInv(s, room);
      StopInv(s.(cursor := d.cursor, queue := d.queue, delivered := s.delivered + d.copied));
    }
  }

  /** A call on the speaker, as a caller or the audio backend makes it. */
  datatype Call =
    | WriteCall(data: Chunk)
    | StartCall
    | StopCall
    | DisposeCall
    | WaitCall
    | CallbackCall(params: Option<StreamParameters>, frameCount: nat)

  /** The state after one call. */
  function Apply(s: State, call: Call): State
  {
    match call
    case WriteCall(data) => Write(s, data)
    case StartCall => Start(s).0
    case StopCall => Stop(s)
    case DisposeCall => Stop(s)
    case WaitCall => s
    case CallbackCall(params, frameCount) => StreamCallback(s, params, frameCount).state
  }

  /** The state after a sequence of calls, made one after another. */
  function Run(s: State, calls: seq<Call>): State
    decreases |calls|
  {
    if calls == [] then s else Run(Apply(s, calls[0]), calls[1..])
  }

  /** Every call keeps the invariant. */
  lemma ApplyInv(s: State, call: Call)
    requires Inv(s)
    ensures Inv(Apply(s, call))
  {
    match call
    case WriteCall(data) => WriteInv(s, data);
    case StartCall => StartInv(s);
    case StopCall => StopInv(s);
    case DisposeCall => StopInv(s);
    case WaitCall =>
    case CallbackCall(params, frameCount) => CallbackInv(s, params, frameCount);
  }

  /** Any sequence of calls keeps the invariant. */
  lemma {:induction false} RunInv(s: State, calls: seq<Call>)
    requires Inv(s)
    ensures Inv(Run(s, calls))
    decreases |calls|
  {
    if calls != [] {
      ApplyInv(s, calls[0]);
      RunInv(Apply(s, calls[0]), calls[1..]);
    }
  }

  /**
   * Playback is first-in first-out and byte-exact: whatever calls are made
   * on a new speaker, in whatever order, the bytes played so far are a
   * prefix of the concatenation of all chunks written, in write order; and
   * while the speaker has not stopped, what remains queued is exactly the rest.
   */
  lemma PlaybackIsFifo(calls: seq<Call>)
    ensures var s := Run(Initial(), calls);
            && s.delivered <= Flatten(s.written)
            && (!s.completed ==> s.delivered + Pending(s.cursor, s.queue) == Flatten(s.written))
  {
    InitialInv();
    RunInv(Initial(), calls);
  }

  /**
   * Stopping is final: once the speaker has stopped, no call plays another
   * byte or resolves the completion task a second time, and every further
   * callback aborts.
   */
  lemma {:induction false} StoppedStaysStopped(s: State, calls: seq<Call>)
    requires Inv(s) && s.completed
    ensures Run(s, calls).completed && Run(s, calls).delivered == s.delivered
    ensures forall params, frameCount :: StreamCallback(Run(s, calls), params, frameCount).result == Success(Abort)
    decreases |calls|
  {
    if calls != [] {
      ApplyInv(s, calls[0]);
      StoppedStaysStopped(Apply(s, calls[0]), calls[1..]);
    } else {
      forall params, frameCount ensures StreamCallback(s, params, frameCount).result == Success(Abort) {
      }
    }
  }

  /**
   * An example: two bytes per frame, four frames, chunks
   * `01 02 03 04` and `05 06` written: the callback outputs
   * `01 02 03 04 05 06 00 00`, finds queue and cursor exhausted, and completes.
   */
  lemma WorkedExample()
    ensures var params := Some(StreamParameters(0, 1, Int16));
            var s := Write(Write(Initial(), [1, 2, 3, 4]), [5, 6]);
            var step := StreamCallback(s, params, 4);
            && step.output == Some([1, 2, 3, 4, 5, 6, 0, 0])
            && step.result == Success(Complete)
            && step.state.completed
  {
    var params := Some(StreamParameters(0, 1, Int16));
    assert RequiredBytes(params, 4) == Some(8);
    var s := Write(Write(Initial(), [1, 2, 3, 4]), [5, 6]);
    var first: Chunk, second: Chunk := [1, 2, 3, 4], [5, 6];
    assert s.queue == [first, second] && s.cursor == Cursor(None, 0) && !s.cancelled;
    var d := Drain(Cursor(None, 0), [first, second], 8);
    assert d == DrainResult([1, 2, 3, 4, 5, 6], Cursor(None, 2), []) by {
      var c4 := Cursor(Some(second), 2);
      var c3 := Cursor(Some(second), 0);
      var c2 := Cursor(Some(first), 4);
      var c1 := Cursor(Some(first), 0);
      assert Drain(c4, [], 2) == DrainResult([], Cursor(None, 2), []);
      assert Drain(c3, [], 4) == DrainResult([5, 6], Cursor(None, 2), []);
      assert [second][1..] == [];
      assert Drain(c2, [second], 4) == Drain(c3, [], 4);
      assert Drain(c1, [second], 8) == DrainResult([1, 2, 3, 4, 5, 6], Cursor(None, 2), []);
      assert [first, second][1..] == [second];
    }
    assert Silence(2) == [0, 0];
    var output: seq<bv8> := [1, 2, 3, 4, 5, 6] + [0, 0];
    assert output == [1, 2, 3, 4, 5, 6, 0, 0];
    assert StreamCallback(s, params, 4).output == Some(output);
  }
}
