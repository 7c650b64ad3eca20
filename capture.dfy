/**
 * The capture lifecycle of the `App` component: the refs it keeps between calls
 * (`mediaRecorderRef`, `audioCtxRef`, `sourceRef`, `processorRef`, `continuousState`)
 * and its `status`, the one-shot recorder (`startRecording` / `stopRecording`) and the
 * continuous monitor (`startContinuous`, the one-second tick, `stopContinuous`).
 *
 * The browser is a parameter: a `Platform` says which objects the audio calls hand
 * back and which call throws first, a `Faults` says which teardown calls throw, and
 * the outcome of an upload is a boolean. Every teardown call the code attempts is
 * appended to `effects`, and every container handed to the upload is appended to
 * `dispatched`, so that the order of the steps can be stated.
 */
module Capture {
  import opened Wrappers
  import opened Bytes
  import opened Samples
  import opened Wav

  /** An opaque platform object: a media stream or an audio node. */
  type Handle = nat

  /**
   * The id `setInterval` hands back. Browsers return positive ids, so the truthiness
   * test on `intervalId` before `clearInterval` holds exactly when a timer is set.
   */
  type TimerId = t: nat | t > 0 witness 1

  /** The values the component shows in its status line. */
  datatype Status = Idle | Recording | Stopping | Continuous | Uploading | Done | Error

  /** An open `AudioContext` and its native sample rate. */
  datatype Context = Context(handle: Handle, sampleRate: nat)

  /** `mediaRecorderRef.current`: the stream and the blocks recorded so far. */
  datatype Recorder = Recorder(stream: Handle, samples: seq<Block>)

  /**
   * The first call of a start sequence that throws: `getUserMedia`, the `AudioContext`
   * constructor, `createMediaStreamSource`, `createScriptProcessor`, or
   * `source.connect(processor)`; or none of them.
   */
  datatype StartFailure = MicDenied | ContextFails | SourceFails | ProcessorFails | ConnectFails | NoFailure

  /** What the browser hands back to a start sequence. */
  datatype Platform = Platform(
    stream: Handle, context: Context, sourceNode: Handle, processorNode: Handle,
    timer: TimerId, failure: StartFailure)

  /** Which teardown calls throw. */
  datatype Faults = Faults(processorFails: bool, sourceFails: bool, contextFails: bool, tracksFail: bool)

  /** A teardown call, as attempted (whether or not it threw). */
  datatype Effect = ClearInterval(timer: TimerId) | Disconnect(node: Handle)
                  | CloseContext(context: Handle) | StopTracks(stream: Handle)

  /**
   * A continuous session whose `continuousState` was overwritten by a later start: its
   * timer stays armed and its stream open, and no ref reaches either any more.
   */
  datatype Orphan = Orphan(timer: TimerId, stream: Handle)

  /** A file passed to `analyzeFile`. */
  datatype Dispatch = Dispatch(fileName: string, container: seq<Byte>)

  /** How far a start sequence gets before its failing call. */
  function Stage(f: StartFailure): nat
  {
    match f
    case MicDenied => 0
    case ContextFails => 1
    case SourceFails => 2
    case ProcessorFails => 3
    case ConnectFails => 4
    case NoFailure => 5
  }

  /**
   * `(audioCtxRef.current && audioCtxRef.current.sampleRate) || 44100`: one second of
   * audio at the live context's rate, or 44100 samples when there is no context or its
   * rate is 0.
   */
  function Needed(ctx: Option<Context>): (n: nat)
    ensures n > 0
    ensures ctx.Some? && ctx.value.sampleRate > 0 ==> n == ctx.value.sampleRate
    ensures ctx.None? ==> n == 44100
    ensures ctx.Some? && ctx.value.sampleRate == 0 ==> n == 44100
  {
    if ctx.Some? && ctx.value.sampleRate != 0 then ctx.value.sampleRate else 44100
  }

  /** The disconnect and close calls a stop attempts, for the refs that are set. */
  function Releases(processor: Option<Handle>, source: Option<Handle>, ctx: Option<Context>): (r: seq<Effect>)
    ensures |r| == (if processor.Some? then 1 else 0) + (if source.Some? then 1 else 0)
                   + (if ctx.Some? then 1 else 0)
    ensures forall e | e in r :: e.Disconnect? || e.CloseContext?
    ensures processor.Some? ==> r[0] == Disconnect(processor.value)
    ensures source.Some? ==> r[if processor.Some? then 1 else 0] == Disconnect(source.value)
    ensures ctx.Some? ==> r[|r| - 1] == CloseContext(ctx.value.handle)
  {
    (if processor.Some? then [Disconnect(processor.value)] else [])
    + (if source.Some? then [Disconnect(source.value)] else [])
    + (if ctx.Some? then [CloseContext(ctx.value.handle)] else [])
  }

  /**
   * The calls `stopContinuous` attempts, in order: clear the timer, release the nodes
   * and the context, stop the tracks. The timer is cleared before anything else and
   * only once, so no tick can fire into a half-released session.
   */
  function StopSequence(timer: Option<TimerId>, processor: Option<Handle>, source: Option<Handle>,
                        ctx: Option<Context>, stream: Option<Handle>): (r: seq<Effect>)
    ensures |r| == (if timer.Some? then 1 else 0) + |Releases(processor, source, ctx)|
                   + (if stream.Some? then 1 else 0)
    ensures timer.Some? ==> r[0] == ClearInterval(timer.value)
    ensures forall k | 0 <= k < |r| && r[k].ClearInterval? :: k == 0 && timer.Some?
    ensures stream.Some? ==> r[|r| - 1] == StopTracks(stream.value)
  {
    (if timer.Some? then [ClearInterval(timer.value)] else [])
    + Releases(processor, source, ctx)
    + (if stream.Some? then [StopTracks(stream.value)] else [])
  }

  /** Between the timer clear and the track stop, a stop attempts exactly the releases. */
  lemma StopSequenceReleases(timer: Option<TimerId>, processor: Option<Handle>, source: Option<Handle>,
                             ctx: Option<Context>, stream: Option<Handle>)
    ensures var r := StopSequence(timer, processor, source, ctx, stream);
      r[(if timer.Some? then 1 else 0)..|r| - (if stream.Some? then 1 else 0)]
      == Releases(processor, source, ctx)
  {
    var head := if timer.Some? then [ClearInterval(timer.value)] else [];
    var tail := if stream.Some? then [StopTracks(stream.value)] else [];
    var mid := Releases(processor, source, ctx);
    assert StopSequence(timer, processor, source, ctx, stream) == head + mid + tail;
    assert (head + mid + tail)[|head|..|head| + |mid|] == mid;
  }

  /** How many times a sequence of teardown calls clears a timer. */
  function Clears(es: seq<Effect>): nat
  {
    if es == [] then 0 else (if es[0].ClearInterval? then 1 else 0) + Clears(es[1..])
  }

  lemma {:induction false} ClearsAppend(a: seq<Effect>, b: seq<Effect>)
    ensures Clears(a + b) == Clears(a) + Clears(b)
  {
    if a == [] {
      assert a + b == b;
    } else {
      assert (a + b)[1..] == a[1..] + b;
      ClearsAppend(a[1..], b);
    }
  }

  lemma {:induction false} ClearsNone(es: seq<Effect>)
    requires forall k | 0 <= k < |es| :: !es[k].ClearInterval?
    ensures Clears(es) == 0
  {
    if es != [] {
      assert forall k | 0 <= k < |es[1..]| :: !es[1..][k].ClearInterval? by {
        forall k | 0 <= k < |es[1..]| ensures !es[1..][k].ClearInterval? {
          assert es[1..][k] == es[k + 1];
        }
      }
      ClearsNone(es[1..]);
    }
  }

  /** A stop clears the timer exactly when one is armed, and then exactly once. */
  lemma ClearsOfStop(timer: Option<TimerId>, processor: Option<Handle>, source: Option<Handle>,
                     ctx: Option<Context>, stream: Option<Handle>)
    ensures Clears(StopSequence(timer, processor, source, ctx, stream)) == if timer.Some? then 1 else 0
  {
    var r := StopSequence(timer, processor, source, ctx, stream);
    if r != [] {
      assert forall k | 0 <= k < |r[1..]| :: !r[1..][k].ClearInterval? by {
        forall k | 0 <= k < |r[1..]| ensures !r[1..][k].ClearInterval? {
          assert r[1..][k] == r[k + 1];
        }
      }
      ClearsNone(r[1..]);
    }
  }

  function MinInt(a: int, b: int): int { if a <= b then a else b }

  /** `a` ends `b`: what is left of a block after its first samples were taken. */
  ghost predicate IsSuffix(a: Block, b: Block)
  {
    |a| <= |b| && a == b[|b| - |a|..]
  }

  /**
   * `rest` is what an extraction leaves of queue `q`: a tail of `q` whose head block may
   * have lost some of its first samples (the residual pushed back by `unshift`).
   */
  ghost predicate TrimmedTail(rest: seq<Block>, q: seq<Block>)
  {
    |rest| <= |q| && (rest != [] ==>
      rest[1..] == q[|q| - |rest| + 1..] && IsSuffix(rest[0], q[|q| - |rest|]))
  }

  /**
   * The queue the extraction loop leaves after taking `n` samples off `q`: whole blocks
   * are shifted off while they fit, and the block that straddles the boundary is
   * replaced by its unused rest. An empty block is shifted off like any other.
   */
  ghost function Drop(q: seq<Block>, n: nat): seq<Block>
  {
    if n == 0 || q == [] then q
    else if n < |q[0]| then [q[0][n..]] + q[1..]
    else Drop(q[1..], n - |q[0]|)
  }

  /** The queue left by `Drop` holds exactly the samples after the first `n`. */
  lemma {:induction false} DropFlatten(q: seq<Block>, n: nat)
    requires n <= |Flatten(q)|
    ensures Flatten(Drop(q, n)) == Flatten(q)[n..]
  {
    if n == 0 || q == [] {
    } else if n < |q[0]| {
      assert Flatten(Drop(q, n)) == q[0][n..] + Flatten(q[1..]);
    } else {
      DropFlatten(q[1..], n - |q[0]|);
      assert Flatten(q)[n..] == Flatten(q[1..])[n - |q[0]|..];
    }
  }

  /** The queue left by `Drop` keeps the block structure of the original queue. */
  lemma {:induction false} DropTrimmed(q: seq<Block>, n: nat)
    ensures TrimmedTail(Drop(q, n), q)
  {
    if n == 0 || q == [] {
      TrimmedSelf(q);
    } else if n < |q[0]| {
      var r := Drop(q, n);
      assert r[1..] == q[1..];
      assert r[0] == q[0][n..];
    } else {
      DropTrimmed(q[1..], n - |q[0]|);
      TrimmedOfTail(q, Drop(q, n));
    }
  }

  lemma TrimmedSelf(q: seq<Block>)
    ensures TrimmedTail(q, q)
  {
    if q != [] {
      assert q[1..] == q[|q| - |q| + 1..];
      assert q[0] == q[0][|q[0]| - |q[0]|..];
    }
  }

  /** What an extraction leaves of the tail of a queue it leaves of the queue too. */
  lemma TrimmedOfTail(q: seq<Block>, r: seq<Block>)
    requires q != [] && TrimmedTail(r, q[1..])
    ensures TrimmedTail(r, q)
  {
    if r != [] {
      assert q[1..][|q[1..]| - |r| + 1..] == q[|q| - |r| + 1..];
      assert q[1..][|q[1..]| - |r|] == q[|q| - |r|];
    }
  }

  /** How taking `take` samples of the head block splits the flattened queue. */
  lemma TakeFrom(all: seq<real>, off: nat, chunk: Block, tail: seq<real>, take: nat)
    requires off <= |all| && all[off..] == chunk + tail && take <= |chunk|
    ensures all[off + take..] == chunk[take..] + tail
    ensures all[..off + take] == all[..off] + chunk[..take]
    ensures take == |chunk| ==> all[off + take..] == tail
  {
    assert all[off + take..] == all[off..][take..];
    assert all[off..off + take] == chunk[..take];
    assert all[..off + take] == all[..off] + all[off..off + take];
  }

  /**
   * One step of the extraction loop: taking `take` samples off the head block moves
   * the window boundary in the flattened queue and leaves the final queue unchanged.
   */
  lemma ExtractStep(all: seq<real>, off: nat, m: nat, before: seq<Block>, take: nat, after: seq<Block>)
    requires before != [] && 0 < m && take == MinInt(|before[0]|, m)
    requires off <= |all| && all[off..] == Flatten(before)
    requires after == if take < |before[0]| then [before[0][take..]] + before[1..] else before[1..]
    ensures all[..off + take] == all[..off] + before[0][..take]
    ensures Flatten(after) == all[off + take..]
    ensures Drop(after, m - take) == Drop(before, m)
  {
    var tail := Flatten(before[1..]);
    TakeFrom(all, off, before[0], tail, take);
    if take < |before[0]| {
      assert after[1..] == before[1..];
    }
  }

  class App {
    var status: Status
    var mediaRecorder: Option<Recorder>
    var audioCtx: Option<Context>
    var source: Option<Handle>
    var processor: Option<Handle>
    // continuousState.current
    var running: bool
    var intervalId: Option<TimerId>
    var stream: Option<Handle>
    var accum: seq<Block>
    // what the model observes of the outside world
    var pending: nat
    var dispatched: seq<Dispatch>
    var effects: seq<Effect>
    var orphans: seq<Orphan>

    /** `continuousState` is either a running session with its timer and stream, or the reset value. */
    ghost predicate Valid()
      reads this
    {
      && (running <==> intervalId.Some?)
      && (running ==> stream.Some?)
      && (!running ==> stream.None? && accum == [])
    }

    /** The initial render: status 'idle', every ref null, continuous mode stopped. */
    constructor ()
      ensures Valid()
      ensures status == Idle && mediaRecorder.None? && audioCtx.None?
      ensures source.None? && processor.None? && !running && accum == []
      ensures pending == 0 && dispatched == [] && effects == [] && orphans == []
    {
      status := Idle;
      mediaRecorder, audioCtx, source, processor := None, None, None, None;
      running, intervalId, stream, accum := false, None, None, [];
      pending, dispatched, effects, orphans := 0, [], [], [];
    }

    // -------------------------------------------------------------------------
    // `analyzeFile`, split at its await
    // -------------------------------------------------------------------------

    /** The part of `analyzeFile` before the await: status 'uploading', the file goes out. */
    method BeginUpload(fileName: string, container: seq<Byte>)
      modifies this`status, this`pending, this`dispatched
      ensures status == Uploading && pending == old(pending) + 1
      ensures dispatched == old(dispatched) + [Dispatch(fileName, container)]
    {
      status := Uploading;
      pending := pending + 1;
      dispatched := dispatched + [Dispatch(fileName, container)];
    }

    /** One upload in flight settles: status 'done' on success, 'error' on failure. */
    method FinishUpload(ok: bool)
      requires pending > 0
      modifies this`status, this`pending
      ensures status == (if ok then Done else Error)
      ensures pending == old(pending) - 1
    {
      status := if ok then Done else Error;
      pending := pending - 1;
    }

    // -------------------------------------------------------------------------
    // One-shot recording
    // -------------------------------------------------------------------------

    /**
     * `startRecording`: status 'recording', then the platform calls in order; each ref
     * is set once its call has returned, so a failing call leaves the refs set before
     * it in place, and status becomes 'error'. Only a complete sequence sets the recorder.
     */
    method StartRecording(p: Platform)
      requires Valid()
      modifies this`status, this`audioCtx, this`source, this`processor, this`mediaRecorder
      ensures Valid()
      ensures status == (if p.failure == NoFailure then Recording else Error)
      ensures audioCtx == (if Stage(p.failure) >= 2 then Some(p.context) else old(audioCtx))
      ensures source == (if Stage(p.failure) >= 3 then Some(p.sourceNode) else old(source))
      ensures processor == (if Stage(p.failure) >= 4 then Some(p.processorNode) else old(processor))
      ensures mediaRecorder ==
        (if p.failure == NoFailure then Some(Recorder(p.stream, [])) else old(mediaRecorder))
    {
      status := Recording;
      if p.failure == MicDenied { status := Error; return; }
      if p.failure == ContextFails { status := Error; return; }
      audioCtx := Some(p.context);
      if p.failure == SourceFails { status := Error; return; }
      source := Some(p.sourceNode);
      if p.failure == ProcessorFails { status := Error; return; }
      processor := Some(p.processorNode);
      if p.failure == ConnectFails { status := Error; return; }
      mediaRecorder := Some(Recorder(p.stream, []));
    }

    /** The recorder's `onaudioprocess`: a copy of the block goes to the recorder's samples. */
    method OnRecordedBlock(block: Block)
      modifies this`mediaRecorder
      ensures mediaRecorder == if old(mediaRecorder).Some?
        then Some(old(mediaRecorder).value.(samples := old(mediaRecorder).value.samples + [block]))
        else old(mediaRecorder)
    {
      if mediaRecorder.Some? {
        mediaRecorder := Some(mediaRecorder.value.(samples := mediaRecorder.value.samples + [block]));
      }
    }

    /**
     * The `try` block of `stopRecording`: concatenate, encode at the context's rate and
     * await the upload. Reading the rate of a null context throws; the `catch` sets
     * status 'error' and nothing is sent.
     */
    method SendRecording(samples: seq<Block>, uploadOk: bool)
      modifies this`status, this`pending, this`dispatched
      ensures dispatched == old(dispatched) + (if audioCtx.Some?
        then [Dispatch("recording.wav", WavFile(Flatten(samples), audioCtx.value.sampleRate))]
        else [])
      ensures status == (if audioCtx.Some? && uploadOk then Done else Error)
      ensures pending == old(pending)
    {
      var out := Concat(samples);
      if audioCtx.None? {
        status := Error;
        return;
      }
      var wav := EncodeWav(out, audioCtx.value.sampleRate);
      BeginUpload("recording.wav", wav);
      FinishUpload(uploadOk);
    }

    /**
     * The `finally` of `stopRecording`: every disconnect and the close are attempted
     * (their failures are swallowed), then the tracks are stopped; only when that
     * does not throw are the four refs nulled.
     */
    method ReleaseRecording(stream: Handle, tracksFail: bool)
      modifies this`effects, this`mediaRecorder, this`audioCtx, this`source, this`processor
      ensures effects == old(effects) + Releases(old(processor), old(source), old(audioCtx)) + [StopTracks(stream)]
      ensures if tracksFail
        then mediaRecorder == old(mediaRecorder) && audioCtx == old(audioCtx)
             && source == old(source) && processor == old(processor)
        else mediaRecorder.None? && audioCtx.None? && source.None? && processor.None?
    {
      effects := effects + Releases(processor, source, audioCtx) + [StopTracks(stream)];
      if tracksFail { return; }
      mediaRecorder, audioCtx, source, processor := None, None, None, None;
    }

    /**
     * `stopRecording`. With no recorder it returns at once. Otherwise it concatenates
     * the recorded blocks, encodes them at the context's rate and awaits the upload
     * (reading the rate of a null context throws, and status becomes 'error'); then,
     * whatever happened, the `finally` attempts every disconnect and close, stops the
     * tracks and nulls the four refs. Disconnect and close failures are swallowed; a
     * throwing track stop escapes the `finally` before the refs are nulled.
     */
    method StopRecording(faults: Faults, uploadOk: bool)
      requires Valid()
      modifies this`status, this`pending, this`dispatched, this`effects
      modifies this`mediaRecorder, this`audioCtx, this`source, this`processor
      ensures Valid()
      ensures old(mediaRecorder).None? ==> unchanged(this)
      ensures old(mediaRecorder).Some? ==>
        var rec := old(mediaRecorder).value;
        && dispatched == old(dispatched) + (if old(audioCtx).Some?
             then [Dispatch("recording.wav", WavFile(Flatten(rec.samples), old(audioCtx).value.sampleRate))]
             else [])
        && status == (if old(audioCtx).Some? && uploadOk then Done else Error)
        && pending == old(pending)
        && effects == old(effects) + Releases(old(processor), old(source), old(audioCtx)) + [StopTracks(rec.stream)]
        && (if faults.tracksFail
            then mediaRecorder == old(mediaRecorder) && audioCtx == old(audioCtx)
                 && source == old(source) && processor == old(processor)
            else mediaRecorder.None? && audioCtx.None? && source.None? && processor.None?)
    {
      if mediaRecorder.None? { return; }
      status := Stopping;
      var rec := mediaRecorder.value;
      SendRecording(rec.samples, uploadOk);
      ReleaseRecording(rec.stream, faults.tracksFail);
    }

    // -------------------------------------------------------------------------
    // Continuous monitoring
    // -------------------------------------------------------------------------

    /**
     * `startContinuous`: like `startRecording`, except that an existing context is
     * reused (so its constructor cannot fail), and a complete sequence arms the timer
     * and stores a running `continuousState` with an empty queue. Nothing stops a
     * second start while a session runs: its `continuousState` is then overwritten and
     * the running session's timer and stream become an orphan.
     */
    method StartContinuous(p: Platform)
      requires Valid()
      modifies this`status, this`audioCtx, this`source, this`processor
      modifies this`running, this`intervalId, this`stream, this`accum, this`orphans
      ensures Valid()
      ensures var reached := if old(audioCtx).Some? && p.failure == ContextFails then 5 else Stage(p.failure);
        && status == (if reached == 5 then Continuous else Error)
        && audioCtx == (if old(audioCtx).Some? then old(audioCtx) else if reached >= 2 then Some(p.context) else None)
        && source == (if reached >= 3 then Some(p.sourceNode) else old(source))
        && processor == (if reached >= 4 then Some(p.processorNode) else old(processor))
        && (if reached == 5
            then running && intervalId == Some(p.timer) && stream == Some(p.stream) && accum == []
                 && orphans == old(orphans)
                    + (if old(running) then [Orphan(old(intervalId).value, old(stream).value)] else [])
            else running == old(running) && intervalId == old(intervalId) && stream == old(stream)
                 && accum == old(accum) && orphans == old(orphans))
    {
      status := Continuous;
      if p.failure == MicDenied { status := Error; return; }
      if audioCtx.None? {
        if p.failure == ContextFails { status := Error; return; }
        audioCtx := Some(p.context);
      }
      if p.failure == SourceFails { status := Error; return; }
      source := Some(p.sourceNode);
      if p.failure == ProcessorFails { status := Error; return; }
      processor := Some(p.processorNode);
      if p.failure == ConnectFails { status := Error; return; }
      Arm(p.timer, p.stream);
    }

    /**
     * The last step of a complete `startContinuous`: the timer is armed and
     * `continuousState` is replaced, orphaning the session it held if one was running.
     */
    method Arm(timer: TimerId, s: Handle)
      requires Valid()
      modifies this`running, this`intervalId, this`stream, this`accum, this`orphans
      ensures Valid()
      ensures running && intervalId == Some(timer) && stream == Some(s) && accum == []
      ensures orphans == old(orphans)
        + (if old(running) then [Orphan(old(intervalId).value, old(stream).value)] else [])
    {
      if running {
        orphans := orphans + [Orphan(intervalId.value, stream.value)];
      }
      running, intervalId, stream, accum := true, Some(timer), Some(s), [];
    }

    /**
     * `startContinuous` as evidently intended: a start while a session runs leaves the
     * running session alone, so no timer or stream is ever orphaned; from a stopped
     * component it is `startContinuous`.
     */
    method StartContinuousOnce(p: Platform)
      requires Valid()
      modifies this`status, this`audioCtx, this`source, this`processor
      modifies this`running, this`intervalId, this`stream, this`accum, this`orphans
      ensures Valid() && orphans == old(orphans)
      ensures old(running) ==> unchanged(this)
      ensures !old(running) ==>
        var reached := if old(audioCtx).Some? && p.failure == ContextFails then 5 else Stage(p.failure);
        && status == (if reached == 5 then Continuous else Error)
        && audioCtx == (if old(audioCtx).Some? then old(audioCtx) else if reached >= 2 then Some(p.context) else None)
        && source == (if reached >= 3 then Some(p.sourceNode) else old(source))
        && processor == (if reached >= 4 then Some(p.processorNode) else old(processor))
        && (if reached == 5
            then running && intervalId == Some(p.timer) && stream == Some(p.stream) && accum == []
            else !running && intervalId == old(intervalId) && stream == old(stream) && accum == old(accum))
    {
      if running { return; }
      StartContinuous(p);
    }

    /**
     * The continuous `onaudioprocess`: a copy of the block is pushed on the queue. Once
     * the session is stopped the callback feeds an array nothing reads any more.
     */
    method OnContinuousBlock(block: Block)
      requires Valid()
      modifies this`accum
      ensures Valid()
      ensures accum == if running then old(accum) + [block] else old(accum)
    {
      if running {
        accum := accum + [block];
      }
    }

    /**
     * Lines 199-204 of the tick: shift the head block, copy as much of it as the window
     * still needs, and push the unused rest back to the front of the queue.
     */
    method ShiftHead(out: array<real>, off: nat) returns (take: nat)
      requires off < out.Length && accum != []
      modifies this`accum, out
      ensures take == MinInt(|old(accum)[0]|, out.Length - off)
      ensures out[..off + take] == old(out[..off]) + old(accum)[0][..take]
      ensures out[off + take..] == old(out[off + take..])
      ensures accum == if take < |old(accum)[0]|
                       then [old(accum)[0][take..]] + old(accum)[1..]
                       else old(accum)[1..]
    {
      var chunk := accum[0];
      accum := accum[1..];
      take := MinInt(|chunk|, out.Length - off);
      SetRange(out, off, chunk[..take]);
      assert out[..off + take] == out[..off] + out[off..off + take];
      if take < |chunk| {
        accum := [chunk[take..]] + accum;
      }
    }

    /**
     * Lines 196-206 of the tick: take exactly `needed` samples off the head of the
     * queue, shifting whole blocks and pushing the unused rest of the last one back.
     */
    method Extract(needed: nat) returns (window: seq<real>)
      requires needed <= TotalLength(accum)
      modifies this`accum
      ensures window == Flatten(old(accum))[..needed]
      ensures accum == Drop(old(accum), needed)
      ensures Flatten(accum) == Flatten(old(accum))[needed..]
      ensures TrimmedTail(accum, old(accum))
    {
      ghost var q := accum;
      ghost var all := Flatten(q);
      var out := new real[needed];
      var off := 0;
      while off < needed && |accum| > 0
        invariant off <= needed == out.Length
        invariant out[..off] == all[..off]
        invariant Flatten(accum) == all[off..]
        invariant Drop(accum, needed - off) == Drop(q, needed)
        decreases needed - off, |accum|
      {
        ghost var before := accum;
        var take := ShiftHead(out, off);
        ExtractStep(all, off, needed - off, before, take, accum);
        off := off + take;
      }
      assert out[..] == out[..off];
      DropFlatten(q, needed);
      DropTrimmed(q, needed);
      window := out[..];
    }

    /**
     * One firing of the one-second timer. With fewer than `needed` samples queued it
     * does nothing. Otherwise it extracts the window; when the context is gone, reading
     * its rate throws and the window is lost; else the window is encoded at the
     * context's rate and sent without waiting.
     */
    method Tick()
      requires Valid() && running
      modifies this`accum, this`status, this`pending, this`dispatched
      ensures Valid()
      ensures var needed := Needed(audioCtx);
        var all := Flatten(old(accum));
        if |all| < needed then unchanged(this)
        else
          && accum == Drop(old(accum), needed)
          && Flatten(accum) == all[needed..]
          && TrimmedTail(accum, old(accum))
          && if audioCtx.Some?
             then dispatched == old(dispatched) + [Dispatch("chunk.wav", WavFile(all[..needed], audioCtx.value.sampleRate))]
                  && status == Uploading && pending == old(pending) + 1
             else dispatched == old(dispatched) && status == old(status) && pending == old(pending)
    {
      var sampleRate := Needed(audioCtx);
      var needed := sampleRate;
      var total := TotalLength(accum);
      if total < needed { return; }
      var out := Extract(needed);
      if audioCtx.None? { return; }
      var wav := EncodeWav(out, audioCtx.value.sampleRate);
      BeginUpload("chunk.wav", wav);
    }

    /**
     * The `try` of `stopContinuous`: clear the timer, attempt the disconnects and the
     * close (the context ref is nulled only when its close does not throw), and stop
     * the tracks. A throwing track stop ends the `try`, but it is the last call anyway.
     */
    method ReleaseContinuous(contextFails: bool)
      modifies this`effects, this`audioCtx
      ensures effects == old(effects) + StopSequence(intervalId, processor, source, old(audioCtx), stream)
      ensures audioCtx == (if contextFails then old(audioCtx) else None)
    {
      var attempted: seq<Effect> := [];
      if intervalId.Some? {
        attempted := [ClearInterval(intervalId.value)];
      }
      attempted := attempted + Releases(processor, source, audioCtx);
      if audioCtx.Some? && !contextFails {
        audioCtx := None;
      }
      if stream.Some? {
        attempted := attempted + [StopTracks(stream.value)];
      }
      effects := effects + attempted;
    }

    /**
     * `stopContinuous`: clear the timer first, then attempt every disconnect and the
     * close (a context whose close throws stays in its ref; the nodes stay in theirs),
     * stop the tracks, and reset `continuousState` and status whatever failed.
     */
    method StopContinuous(faults: Faults)
      requires Valid()
      modifies this`status, this`effects, this`audioCtx
      modifies this`running, this`intervalId, this`stream, this`accum
      ensures Valid()
      ensures status == Idle && !running && intervalId.None? && stream.None? && accum == []
      ensures audioCtx == (if faults.contextFails then old(audioCtx) else None)
      ensures effects == old(effects)
        + StopSequence(old(intervalId), old(processor), old(source), old(audioCtx), old(stream))
    {
      ReleaseContinuous(faults.contextFails);
      running, intervalId, stream, accum := false, None, None, [];
      status := Idle;
    }
  }
}
