# Speaker playback engine

A Dafny model of `Speaker` from `Deepgram.Microphone/Speaker.cs`. A speaker is a one-time-use audio player:

- callers `Write` byte chunks into a queue;
- the audio backend pulls them through `StreamCallback`, one output buffer of `frameCount` frames at a time;
- a cursor (`_lastBuffer`, `_lastOffset`) remembers a partly played chunk from one callback to the next;
- a shortfall is zero-filled;
- the callback answers `Continue`, `Complete` or `Abort`.

Around this sits a small lifecycle:

- `Start` refuses after cancellation;
- `Stop` tears down once, guarded by the completion flag;
- `Dispose` is `Stop`;
- `WaitForCompleteAsync` is the completion flag.

Layout:

- `wrappers.dfy`: `Option`, `Result` and `Outcome`.
- `sample_format.dfy` (module `SampleFormats`): the sample formats and the byte width of one sample. This is the `switch` expression of the callback.
- `playback.dfy` (module `Playback`), the chunk queue and the cursor as values:
  - `Drain` is the drain loop of the callback as a recursive function;
  - the lemmas prove that the drain moves pending bytes in order and without loss.
- `engine.dfy` (module `Engine`), the speaker as a state machine on values:
  - one function per public operation and per callback invocation;
  - the speaker's invariant;
  - call traces (`Run`) and the lemmas about whole traces of calls.
- `speaker.dfy` (module `Microphone`), the class `Speaker`:
  - the source's fields, with methods that update them in place;
  - the callback's `while` loop over an `array<bv8>` output buffer;
  - every public method and `Play` is proved to move the object's state (`Model()`) exactly as the matching `Engine` function moves the abstract state, and to keep the invariant (`Valid()`);
  - the loop helpers `DrainInto` and `CopyFromChunk` are proved against `Playback.Drain`.

Two ghost fields record history for the proofs:

- `written`: every chunk ever written, in call order;
- `delivered`: every byte ever copied to the device, padding excluded.

Main results:

- **Output.** A callback that does not abort or throw writes exactly the required number of bytes: the next pending bytes in FIFO order, then zeros.
- **Whole traces.** Over any sequence of calls, the bytes delivered are a prefix of the concatenation of the written chunks. Until the speaker stops, the delivered bytes followed by the still-pending bytes are exactly that concatenation.
- **Completion.** The completion test is exact. An underrun always completes the stream.
- **Stopping.** `Stop` is idempotent, and a stopped speaker stays stopped.

## Model

| member | source | states |
|---|---|---|
| SampleFormats.BytesPerSample | Deepgram.Microphone/Speaker.cs:101-110 | the byte width is defined exactly for Int8, UInt8, Int16, Int24, Int32 and Float32, is between 1 and 4, and is the format's bit depth over eight (1, 1, 2, 3, 4, 4); every other format is the not-supported error |
| Engine.Start | Deepgram.Microphone/Speaker.cs:56-64 | `Start` throws exactly when cancellation has been requested; it changes nothing but the stream state, and on success the stream is running |
| Engine.Stop | Deepgram.Microphone/Speaker.cs:69-80 | after `Stop` the task is completed; a completed speaker is left as it was; otherwise cancellation is requested, the queue is cleared and the stream closed; the cursor, the written chunks and the delivered bytes never change |
| Engine.Write | Deepgram.Microphone/Speaker.cs:86 | the bytes of the queue, and of everything written, grow by exactly the chunk at the end; cursor, delivered bytes and completion are unchanged |
| Engine.RequiredBytes | Deepgram.Microphone/Speaker.cs:101-113 | a required length exists exactly when there are output parameters with a supported format, and it lies between 1 and 4 bytes per sample (frames × channels) |
| Engine.StreamCallback | Deepgram.Microphone/Speaker.cs:93-153 | the callback aborts exactly when cancelled or without output parameters, throws exactly for an unsupported format otherwise, and writes output exactly when it does neither, of exactly the required length |
| Engine.Play | Deepgram.Microphone/Speaker.cs:112-152 | playing a buffer always writes exactly `room` bytes and returns Continue or Complete; Complete leaves the speaker completed; the written history is untouched |
| Playback.FlattenAppend | Deepgram.Microphone/Speaker.cs:86 | enqueueing a chunk appends exactly its bytes to the bytes of the queue |
| Playback.Drain | Deepgram.Microphone/Speaker.cs:114-137 | the drain loop keeps the cursor within its chunk and never copies more bytes than the output has room for |
| Playback.ResumeLoad | Deepgram.Microphone/Speaker.cs:117-126 | taking the next chunk at offset zero once the current one is used up is a step of the drain |
| Playback.ResumeRunDry | Deepgram.Microphone/Speaker.cs:119-123 | a failed dequeue ends the drain and clears the current chunk; the stale offset stays |
| Playback.ResumeCopy | Deepgram.Microphone/Speaker.cs:128-136 | copying min(remaining in chunk, remaining output) bytes and advancing the cursor and the output offset by that amount is a step of the drain; an empty chunk copies nothing |
| Playback.DrainConservesBytes | Deepgram.Microphone/Speaker.cs:114-137 | the drain only moves bytes: the bytes copied, followed by the bytes left pending, are the bytes pending before; it copies min(room, pending) bytes |
| Playback.DrainDeliversPending | Deepgram.Microphone/Speaker.cs:116-136 | the drain copies exactly the first min(room, pending) pending bytes in order (the partly played chunk's tail first, then whole chunks FIFO) and leaves exactly the rest pending |
| Playback.DrainUnderrun | Deepgram.Microphone/Speaker.cs:119-123 | a drain that copies fewer bytes than wanted has emptied the queue and has no current chunk |
| Engine.InitialInv | Deepgram.Microphone/Speaker.cs:11-18 | a new speaker, with an empty queue and no current chunk, satisfies the invariant |
| Engine.StartInv | Deepgram.Microphone/Speaker.cs:56-64 | `Start` keeps the invariant |
| Engine.StartAfterStopFails | Deepgram.Microphone/Speaker.cs:56-64 | after `Stop`, `Start` throws InvalidOperationException with the source's message and leaves the state and the stream untouched |
| Engine.StopInv | Deepgram.Microphone/Speaker.cs:69-80 | `Stop` keeps the invariant: discarding the queue never takes back a delivered byte |
| Engine.StopIdempotent | Deepgram.Microphone/Speaker.cs:69-80 | a second `Stop` (or `Dispose`) changes nothing; after `Stop` the speaker is completed, cancelled and its stream closed |
| Engine.WriteInv | Deepgram.Microphone/Speaker.cs:86 | `Write` keeps the invariant and, on a running speaker, appends the chunk's bytes to the end of the pending bytes |
| Engine.CallbackOutput | Deepgram.Microphone/Speaker.cs:112-143 | a callback that does not abort or throw writes exactly frameCount × width × channels bytes: the next n pending bytes in order, with n = min(required, pending), then zeros; exactly those n bytes become delivered |
| Engine.CallbackCompletion | Deepgram.Microphone/Speaker.cs:145-152 | the callback returns Continue exactly when the queue is not empty or a partly played chunk remains, and otherwise stops and returns Complete; Complete holds exactly when the speaker has completed, and then every written byte has been delivered |
| Engine.UnderrunCompletes | Deepgram.Microphone/Speaker.cs:114-152 | when fewer bytes are pending than the callback must supply, the callback returns Complete |
| Engine.AbortTouchesNothing | Deepgram.Microphone/Speaker.cs:95-99 | a cancelled speaker, or a stream without output parameters, returns Abort without writing output, leaves the cursor and the delivered bytes as they were, and ends stopped |
| Engine.DrainedInv | Deepgram.Microphone/Speaker.cs:114-137 | draining a running speaker keeps the invariant |
| Engine.CallbackInv | Deepgram.Microphone/Speaker.cs:93-153 | every callback outcome keeps the invariant |
| Engine.ApplyInv | Deepgram.Microphone/Speaker.cs:56-159 | every public call and every callback keeps the invariant |
| Engine.RunInv | Deepgram.Microphone/Speaker.cs:56-159 | any sequence of calls keeps the invariant |
| Engine.PlaybackIsFifo | Deepgram.Microphone/Speaker.cs:86-137 | whatever calls are made on a new speaker, the bytes played are a prefix of all written chunks concatenated in write order; until it stops, the delivered bytes followed by the pending ones are exactly that concatenation |
| Engine.StoppedStaysStopped | Deepgram.Microphone/Speaker.cs:69-99 | once stopped, no call plays another byte or un-completes the speaker, and every later callback returns Abort |
| Engine.WorkedExample | Deepgram.Microphone/Speaker.cs:93-153 | with 2 bytes per frame, 4 frames and chunks 01 02 03 04 and 05 06 queued, the callback outputs 01 02 03 04 05 06 00 00, returns Complete and stops the speaker |
| Microphone.Copy | Deepgram.Microphone/Speaker.cs:133 | `Marshal.Copy`: the count bytes from the source offset land at the destination offset, and every other destination byte is unchanged |
| Microphone.Speaker.constructor | Deepgram.Microphone/Speaker.cs:28-51 | a new speaker has an empty queue, no current chunk, neither flag set and an open stream, with output parameters taken from the device index, channel count and format |
| Microphone.Speaker.Start | Deepgram.Microphone/Speaker.cs:56-64 | throws InvalidOperationException once cancellation has been requested, and otherwise starts the stream; keeps the invariant |
| Microphone.Speaker.Stop | Deepgram.Microphone/Speaker.cs:69-80 | when not yet completed: completes, cancels, clears the queue and closes the stream; otherwise changes nothing; keeps the invariant |
| Microphone.Speaker.Write | Deepgram.Microphone/Speaker.cs:86 | appends the chunk to the queue; keeps the invariant |
| Microphone.Speaker.WaitForCompleteAsync | Deepgram.Microphone/Speaker.cs:91 | the returned task is resolved exactly when the speaker has completed |
| Microphone.Speaker.Dispose | Deepgram.Microphone/Speaker.cs:155-159 | has exactly the effect of `Stop` |
| Microphone.Speaker.DrainInto | Deepgram.Microphone/Speaker.cs:112-137 | the in-place drain loop over the fields and the output array copies exactly the drain's bytes to the front of the output, leaves the rest of the output as it was, and leaves the cursor and the queue where the drain leaves them |
| Microphone.Speaker.CopyFromChunk | Deepgram.Microphone/Speaker.cs:128-136 | copies min(remaining in chunk, remaining output) bytes of the current chunk to the output at the offset, leaves the output past them as it was, and advances the cursor by that many bytes |
| Microphone.Speaker.Play | Deepgram.Microphone/Speaker.cs:112-152 | drains, zero-fills the shortfall, and continues or stops and completes, exactly as `Engine.Play`; keeps the invariant |
| Microphone.Speaker.StreamCallback | Deepgram.Microphone/Speaker.cs:93-153 | aborts (after `Stop`) when cancelled or without output parameters, throws NotSupportedException for an unknown format, and otherwise plays one buffer; state, result and output buffer are exactly those of `Engine.StreamCallback`; keeps the invariant |

## Left out

- PortAudio interop is reduced to a three-state `StreamState` (open, running, closed). This covers:
  - creating the native stream;
  - the device info lookup and the suggested latency;
  - the sample rate and frames-per-buffer arguments;
  - the native `Start`/`Stop`/`Dispose` calls.

  Starting a stream that is already running is the native library's business. The model just marks it running.
- The callback's `input`, `timeInfo`, `statusFlags` and `userData` arguments are unused by the source and are not modelled. The output pointer is an `array<bv8>` of the required length.
- Thread safety of `ConcurrentQueue`, and races between `Stop` and a callback that is already running, are not modelled. The queue is a plain sequence, and calls happen one after another.
- The mechanics of `TaskCompletionSource` and `CancellationTokenSource` are reduced to the `completed` and `cancelled` flags. This leaves out asynchronous waiting on the task and disposal of the token source.
- `GC.SuppressFinalize` in `Dispose` only affects the runtime and is not modelled.
- Float32 samples: only their byte width matters, and no floating-point value is computed.
- Microphone.Speaker.StreamCallback: the required length is computed on unbounded integers. The source's `(int)frameCount` cast and its 32-bit multiplication by width and channel count, which can wrap for huge buffers, are not modelled.
- Engine.RequiredBytes: the channel count is a `nat`. The source's `int` could be negative, but then the native stream would refuse to open.
- Microphone.Speaker.Write: a chunk is always a byte sequence. A `null` array passed to `Write` is not modelled.
- Microphone.Speaker.Write: the source's queue holds the caller's array by reference and reads it only when the chunk is played. A caller that changes the array after `Write` would hear the changed bytes. The model copies the bytes at `Write`, so it assumes the caller does not change the array afterwards. `Engine.PlaybackIsFifo` promises the bytes as they were when written.
- Microphone.Speaker.constructor: the source's default arguments (`Defaults.RATE`, `Defaults.CHUNK_SIZE`, `Defaults.CHANNELS`, `Defaults.DEVICE_INDEX`, `Defaults.SAMPLE_FORMAT`) are not modelled, because their values are defined outside `Speaker.cs`. Every argument is explicit in the model.
- The exceptions the callback throws are modelled as a `Failure` result. What the native library does with a managed exception is not modelled.
- Everything in the repository outside `Speaker.cs` is not part of this model: the REST and WebSocket clients, the JSON models, the tests and the example programs.
