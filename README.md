# WhisperGuard browser capture: a verified model

WhisperGuard's browser client (`whisperguard/static/app_react.js`) records microphone
audio and uploads it as WAV files for analysis. It has two modes. In one-shot mode,
`startRecording` and `stopRecording` record blocks, concatenate them and send the
result as `recording.wav`. In continuous mode, `startContinuous` arms a one-second timer.
Each tick of that timer cuts exactly one second of samples off a queue of captured
blocks and sends it as `chunk.wav`, until `stopContinuous` clears the timer. This
project models the following parts of the client in Dafny and proves properties of them:

- the WAV encoder `encodeWAV` and its nested `writeString`;
- the concatenation of recorded blocks in `stopRecording`;
- the extraction loop of the continuous tick;
- the lifecycle of refs and status across the four start and stop handlers.

Files:

- `wrappers.dfy`: `Option`.
- `bytes.dfy`: bytes as a little-endian `DataView` stores and reads them.
- `samples.dfy`: sample blocks, their flattening, `TypedArray.prototype.set` and the
  concatenation loop.
- `wav.dfy`: quantisation, then the byte image `WavFile` that the encoder must produce.
  Next, a reader `Decode` for canonical 16-bit mono PCM files, used as the encoder's
  partner. Last, the encoder `EncodeWav`, which stores into a zero-filled `array<Byte>`.
- `capture.dfy`: the component as a class `App`. Its fields are:
  - `status`;
  - the refs `mediaRecorderRef`, `audioCtxRef`, `sourceRef` and `processorRef`;
  - the fields of `continuousState`.

  Its methods are one per handler, one per platform callback, and one for a timer tick.
- `scenarios.dfy`: whole sessions driven call by call from a fresh component.

How the outside world is modelled:

- **Browser audio objects.** These are opaque handles. Timer ids are positive, as
  browsers return them, so the truthiness test on `intervalId` at line 226 holds
  exactly when a timer is set. A `Platform` value holds the
  objects that `getUserMedia`, `new AudioContext`, `createMediaStreamSource`,
  `createScriptProcessor` and `setInterval` hand back, and says which of those calls
  throws first.
- **Teardown failures.** A `Faults` value says which teardown calls throw.
- **Teardown order.** Every teardown call the code attempts is appended to
  `App.effects`. Each container handed to `analyzeFile` is appended to `App.dispatched`.
  This is how the order of the steps is stated.
- **Uploads.** `analyzeFile` is split at its await. `BeginUpload` is the part before
  it. `FinishUpload(ok)` settles the upload, and the outcome is a parameter.
- **Callbacks and the timer.** The `onaudioprocess` callbacks and the timer are
  method calls.

In several places the code does something other than a reader might expect, and the
model follows the code:

- **Quantisation truncates.** `setInt16` applies ToInt16, which drops the fraction
  toward zero. It does not round to the nearest integer (`Wav.QuantizeTruncates`).
- **The `finally` of `stopRecording` can leave refs set.** The track stop at lines
  156-158 is not wrapped in a `try`. When it throws, the four refs are never nulled, so
  a second `stopRecording` encodes and sends the same recording again
  (`Scenarios.RecordingSession`). Otherwise the refs are nulled whatever the encode or
  the upload did.
- **`stopContinuous` leaves some refs set.** It never nulls `sourceRef` or
  `processorRef`. It nulls `audioCtxRef` only when `close()` does not throw.
- **A tick with no context loses its window.** When `audioCtxRef` is null at a tick,
  the window size falls back to 44100 and the samples are already taken off the queue
  when reading the null context's rate throws. The window is lost (`Capture.App.Tick`).
- **A context rate of 0.** The window size also falls back to 44100 when the context
  reports a rate of 0. The encode then still uses the rate 0.

## Model

| member | source | states |
|---|---|---|
| Bytes.ReadU16OfLe16 | whisperguard/static/app_react.js:34-35 | reading back a little-endian 16-bit store gives its argument modulo 2^16 |
| Bytes.ReadU32OfLe32 | whisperguard/static/app_react.js:28-42 | reading back a little-endian 32-bit store gives its argument modulo 2^32 |
| Bytes.ReadI16OfLe16 | whisperguard/static/app_react.js:48 | reading back a 16-bit store as signed gives any argument in the int16 range |
| Wav.Scale | whisperguard/static/app_react.js:48 | the scale keeps the sign of the clamped sample, maps [-1, 1] into [-32768, 32767], and sends 1 to 32767 and -1 to -32768 |
| Wav.Clamp | whisperguard/static/app_react.js:47 | the clamped sample lies in [-1, 1], equals the sample inside that range and saturates to the nearer bound outside it |
| Wav.Trunc | whisperguard/static/app_react.js:48 | the integer part rounds toward zero: it is within 1 of the value and on the same side of 0 |
| Wav.ToInt16 | whisperguard/static/app_react.js:48 | the result is in [-2^15, 2^15), congruent to the input modulo 2^16, and equal to any input already in range |
| Wav.Quantize | whisperguard/static/app_react.js:47-48 | every stored sample lies in [-32768, 32767] |
| Wav.QuantizeTruncates | whisperguard/static/app_react.js:47-48 | the wrap of ToInt16 never applies; the stored value is the clamped sample times 32767 (non-negative) or 32768 (negative), truncated toward zero |
| Wav.QuantizeBoundaries | whisperguard/static/app_react.js:47-48 | 1.0 stores 32767, -1.0 stores -32768, 0.0 stores 0, and out-of-range samples saturate |
| Wav.QuantizeMonotone | whisperguard/static/app_react.js:47-48 | quantisation preserves the order of samples |
| Wav.Payload | whisperguard/static/app_react.js:45-49 | the payload holds two bytes per sample |
| Wav.PayloadAt | whisperguard/static/app_react.js:45-49 | bytes 2i and 2i+1 of the payload are the little-endian int16 of sample i |
| Wav.PayloadSnoc | whisperguard/static/app_react.js:46-48 | each loop iteration extends the payload by the two bytes of the next quantised sample |
| Wav.WavFileLength | whisperguard/static/app_react.js:16 | the header is 44 bytes and the file is 44 + 2n bytes for n samples |
| Wav.FieldsOf | whisperguard/static/app_react.js:25-42 | in any bytes that start with the header: the four tags at 0, 8, 12 and 36 and every numeric field read back, the 32-bit ones modulo 2^32 |
| Wav.HeaderFields | whisperguard/static/app_react.js:25-42 | an encoded file has length 44 + 2n; its RIFF size is 36 + 2n, fmt length 16, format 1, 1 channel, rate, byte rate 2 * rate, block align 2, 16 bits and data size 2n |
| Wav.SampleAt | whisperguard/static/app_react.js:45-49 | the int16 at offset 44 + 2i of an encoded file is the quantised sample i |
| Wav.CanonicalOf | whisperguard/static/app_react.js:25-42 | a file whose header fields hold for n samples, with sizes that do not wrap, is canonical and reads back the rate |
| Wav.DecodeEncoded | whisperguard/static/app_react.js:15-52 | decoding an encoded file returns the rate, 1 channel, 16 bits and the quantised samples, as long as no size field wraps |
| Wav.SetUint8 | whisperguard/static/app_react.js:21 | `setUint8` stores the value modulo 256 at the offset and leaves every other byte alone |
| Wav.Store | whisperguard/static/app_react.js:28-48 | the store common to every multi-byte setter writes its bytes at the offset and leaves every other byte alone |
| Wav.SetUint16 | whisperguard/static/app_react.js:34-35 | `setUint16(off, v, true)` stores the two little-endian bytes of v at off and leaves every other byte alone |
| Wav.SetUint32 | whisperguard/static/app_react.js:28 | `setUint32(off, v, true)` stores the four little-endian bytes of v at off and leaves every other byte alone |
| Wav.SetInt16 | whisperguard/static/app_react.js:48 | `setInt16(off, v, true)` stores the bytes of ToInt16 of v, truncated, at off and leaves every other byte alone |
| Wav.WriteString | whisperguard/static/app_react.js:19-23 | the character codes of the string are stored from the offset on, one byte each, and no other byte changes |
| Wav.WriteRiff | whisperguard/static/app_react.js:26-30 | the first 12 bytes become the RIFF tag, the size 36 + 2n and the WAVE tag, and every later byte is left alone |
| Wav.WriteFmtHead | whisperguard/static/app_react.js:32-35 | bytes 12-23 become the fmt tag, length 16, format 1 and one channel, after the bytes already written, and every later byte is left alone |
| Wav.WriteFmtRates | whisperguard/static/app_react.js:36-39 | bytes 24-35 become the rate, the byte rate 2 * rate, block align 2 and 16 bits, after the bytes already written, and every later byte is left alone |
| Wav.WriteData | whisperguard/static/app_react.js:41-42 | bytes 36-43 become the data tag and the size 2n, after the bytes already written, and the payload bytes are left alone |
| Wav.WriteHeader | whisperguard/static/app_react.js:25-42 | the stores leave the first 44 bytes of the buffer equal to the header, field by field, and leave the payload bytes alone |
| Wav.WriteSamples | whisperguard/static/app_react.js:45-49 | after the header, the buffer holds exactly the payload: one little-endian int16 per sample, in order |
| Wav.EncodeWav | whisperguard/static/app_react.js:15-52 | the encoder's output is exactly the byte image: the header followed by one little-endian int16 per sample |
| Samples.TotalLength | whisperguard/static/app_react.js:142 | the `reduce` total is the number of samples in the flattened queue |
| Samples.FlattenAppend | whisperguard/static/app_react.js:142-145 | flattening distributes over concatenation of block queues |
| Samples.FlattenSnoc | whisperguard/static/app_react.js:145 | appending a block appends its samples |
| Samples.FedPrefix | whisperguard/static/app_react.js:145 | the blocks up to i flatten to those before i followed by block i, and the whole queue flattens to that prefix followed by the rest |
| Samples.SetRange | whisperguard/static/app_react.js:145 | `out.set(src, offset)` writes src at offset and leaves the samples before and after it alone |
| Samples.Concat | whisperguard/static/app_react.js:142-145 | the concatenation is the in-order flattening of the blocks, of length `totalLen` |
| Capture.Needed | whisperguard/static/app_react.js:192-193 | the window is positive: the context's rate when it is nonzero, and 44100 when there is no context or its rate is 0 |
| Capture.Releases | whisperguard/static/app_react.js:153-155 | one disconnect per set node and one close per set context, in the order processor, source, context, and nothing else |
| Capture.StopSequence | whisperguard/static/app_react.js:225-234 | a stop attempts one call per set ref: the timer clear first (the only clear), then the releases in source order, then the track stop last |
| Capture.StopSequenceReleases | whisperguard/static/app_react.js:229-231 | between the timer clear and the track stop, a stop attempts exactly the releases: one disconnect per set node and one close per set context |
| Capture.ClearsAppend | whisperguard/static/app_react.js:226-228 | the clears of two sequences of calls add up |
| Capture.ClearsOfStop | whisperguard/static/app_react.js:226-228 | a stop clears a timer once when one is armed and never otherwise |
| Capture.DropFlatten | whisperguard/static/app_react.js:196-206 | the queue left after taking n samples holds exactly the samples after the first n |
| Capture.DropTrimmed | whisperguard/static/app_react.js:202-204 | the queue left is a tail of the old one whose head may have lost its first samples, so the residual stays at the head |
| Capture.ExtractStep | whisperguard/static/app_react.js:198-205 | one loop step extends the window by the first samples of the head block, moves the boundary in the flattened queue, and leaves the final queue unchanged |
| Capture.App.constructor | whisperguard/static/app_react.js:109-111 | the first render: every ref null (these three, and `mediaRecorderRef` at line 11), status idle (line 4), and `continuousState` stopped with an empty queue (line 167) |
| Capture.App.BeginUpload | whisperguard/static/app_react.js:55 | `analyzeFile` sets status uploading and sends the file before it awaits |
| Capture.App.FinishUpload | whisperguard/static/app_react.js:78-82 | a settled upload sets status done on success and error on failure |
| Capture.App.StartRecording | whisperguard/static/app_react.js:113-134 | status recording; each ref is set once its call has returned; a throwing call leaves the later refs alone and sets status error; only a complete start sets the recorder, with no samples |
| Capture.App.OnRecordedBlock | whisperguard/static/app_react.js:122-125 | a copy of each block is appended to the recorder's samples |
| Capture.App.SendRecording | whisperguard/static/app_react.js:139-151 | the recording is encoded at the context's rate and sent, and status follows the upload; with no context nothing is sent and status is error |
| Capture.App.ReleaseRecording | whisperguard/static/app_react.js:152-163 | every disconnect and the close are attempted and their failures swallowed, then the tracks are stopped; the refs are nulled exactly when that does not throw |
| Capture.App.StopRecording | whisperguard/static/app_react.js:136-164 | with no recorder nothing changes; otherwise the whole recording is sent, every release and the track stop are attempted whatever the upload did, and the refs are nulled unless the track stop throws |
| Capture.App.StartContinuous | whisperguard/static/app_react.js:169-222 | an existing context is reused; refs are set step by step as in `startRecording`; a complete start arms the timer with an empty queue and orphans any running session; a failed one sets error and leaves the session state alone |
| Capture.App.Arm | whisperguard/static/app_react.js:190-217 | the timer is armed and `continuousState` replaced, and a running session it held is orphaned |
| Capture.App.StartContinuousOnce | whisperguard/static/app_react.js:169-222 | a start while a session runs changes nothing; from a stopped component it has the outcomes of `startContinuous`; nothing is ever orphaned |
| Capture.App.OnContinuousBlock | whisperguard/static/app_react.js:180-184 | while a session runs, a copy of each block is pushed on its queue |
| Capture.App.ShiftHead | whisperguard/static/app_react.js:199-204 | the head block is shifted, as much of it as the window still needs is copied after the window, the rest of the output is left alone, and the block's unused rest goes back to the head |
| Capture.App.Extract | whisperguard/static/app_react.js:196-206 | the window is the first `needed` samples of the flattened queue; the queue left holds exactly the rest, with the residual block at its head |
| Capture.App.Tick | whisperguard/static/app_react.js:191-214 | with less than a window queued nothing changes; otherwise exactly one window is taken off the queue, then encoded at the context's rate and sent, or lost when the context is null |
| Capture.App.ReleaseContinuous | whisperguard/static/app_react.js:225-235 | the timer clear, every disconnect, the close and the track stop are attempted in that order; the context ref is nulled exactly when its close does not throw |
| Capture.App.StopContinuous | whisperguard/static/app_react.js:224-238 | whatever throws, the timer is cleared before any teardown, every release is attempted, and the component ends idle with the reset session state |
| Scenarios.Feed | whisperguard/static/app_react.js:180-184 | a block delivered to a streaming session extends what it has been fed and keeps the streaming invariant |
| Scenarios.Step | whisperguard/static/app_react.js:190-215 | a tick with a full second queued sends the next chunk of the stream; any other tick sends nothing |
| Scenarios.Drain | whisperguard/static/app_react.js:190-215 | once the whole stream is fed, two more ticks send every chunk still queued |
| Scenarios.Begin | whisperguard/static/app_react.js:169-222 | a successful continuous start on a fresh component streams from an empty queue |
| Scenarios.ContinuousSession | whisperguard/static/app_react.js:169-238 | two seconds of blocks, ticked after every block, go out as exactly two chunks: the first and second second of the stream, with no overlap and no gap; failed uploads do not stop the session |
| Scenarios.ShortTick | whisperguard/static/app_react.js:194-195 | a tick with less than a window queued sends nothing and leaves the queued blocks as they were, in order |
| Scenarios.StopContinuousTwice | whisperguard/static/app_react.js:224-238 | after any start outcome and any teardown failures, two stops leave the component idle with no timer and an empty queue, and clear a timer exactly once when the start armed one |
| Scenarios.Record | whisperguard/static/app_react.js:113-134 | after a successful start, the recorder holds every delivered block in order |
| Scenarios.RecordingSession | whisperguard/static/app_react.js:136-164 | the first stop sends the whole recording at the context's rate; a second stop sends it again exactly when the first stop's track stop threw |
| Scenarios.RestartOrphansSession | whisperguard/static/app_react.js:217 | as written: a second successful start orphans the first session's timer and stream, and the stop clears only the second timer |
| Scenarios.RestartKeepsSession | whisperguard/static/app_react.js:169-222 | with the guarded start: a second start is ignored, nothing is orphaned, and the stop clears the timer of the session that ran |

Quantities that define the byte image and the session have no contract of their own.
They are the reference definitions the rows above are stated against:

- `Bytes.Ascii` is the byte `setUint8` stores for each `charCodeAt` in `writeString`
  (ToUint8 keeps the low 8 bits; lines 19-23).
- `Bytes.Le16` and `Bytes.Le32` are the little-endian bytes `setUint16`/`setInt16` and
  `setUint32` store, after ToUint16 or ToUint32 (lines 28-48).
- `Bytes.ReadU16`, `Bytes.ReadU32` and `Bytes.ReadI16` are the matching
  `getUint16`/`getUint32`/`getInt16` reads. They are the independent reader side that
  the round-trip lemmas use.
- `Wav.Header` (with its parts `Wav.RiffPart`, `Wav.FmtHead`, `Wav.FmtRates` and
  `Wav.DataPart`), `Wav.Payload` and `Wav.WavFile` are the byte image.
- `Wav.Quantized` is the samples as a reader sees them.
- `Wav.Decode` and `Wav.Canonical` are the reader.
- `Samples.Flatten` is the flattened queue.
- `Capture.Drop` is the queue an extraction leaves.
- `Capture.Clears` counts timer clears.
- `Scenarios.Chunks` are the two chunks of a two-second stream.

## Left out

- The React rendering, the hooks other than the refs, and the UI and file-upload
  handlers. Here and below these are presentation code. The state `lastBlob` and
  `result` is left out for the same reason.
- `fetchEvidence` and its 10-second polling.
- `drawWaveform` and its canvas drawing.
- The parts of `analyzeFile` beyond its status changes: the form fields
  (`sensitivity`, `force_save`), the axios request and the `uploading N%` progress
  status updates. These are network I/O; the outcome of an upload is a parameter.
- `Blob` and `File` wrapping. The model passes the container's bytes and the file name.
- The browser audio APIs. They are parameters: handles, a first failing call and
  teardown faults.
- The swallowed `processor.connect(destination)` failure. It has no effect on the
  state, so it is not modelled.
- The `processorFails` and `sourceFails` fields of `Faults` are read by nothing. A
  swallowed disconnect failure changes no state; the model records the attempt either way.
- Event-loop concurrency. A tick, a callback and the settling of an upload are calls,
  made one at a time. Overlapping uploads and handlers that interleave at an `await`
  are not modelled.
- After a session is orphaned, its timer keeps firing and its processor keeps filling
  its own queue. The model records the orphan but does not run that activity.
- IEEE-754 rounding: samples are exact reals. `Float32Array` storage, `s * 0x8000` in
  double precision and NaN are not modelled.
- A context's sample rate is a natural number. A fractional or negative rate is not modelled.
- `whisperguard/model/cnn.py` is not part of this model. It returns fixed scores and
  holds no logic of the client.
- Wav.DecodeEncoded: the round trip is stated only for rates and lengths whose size and
  byte-rate fields do not wrap modulo 2^32. For larger ones, `Wav.HeaderFields` states
  the wrapped values the encoder stores.

## Findings

| source | as written | input that shows it | evidently intended | confidence | as-written member | corrected member |
|---|---|---|---|---|---|---|
| whisperguard/static/app_react.js:217 | `startContinuous` overwrites `continuousState` even when a session is running, and nothing disables the Start Continuous button | press Start Continuous twice, then Stop Continuous: only the second timer is cleared, and the first timer keeps firing with its stream open | a start while a session runs leaves that session in place, so a stop clears every armed timer | not executed | Scenarios.RestartOrphansSession | Scenarios.RestartKeepsSession |
