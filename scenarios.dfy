/**
 * Whole sessions of the `App` component, driven call by call from a fresh instance:
 * the platform callbacks, the one-second timer and the settling of uploads are
 * explicit calls, in an order the event loop can produce.
 */
module Scenarios {
  import opened Wrappers
  import opened Samples
  import opened Wav
  import opened Capture

  /** The two one-second chunks a continuous session cuts from `s` (of length `2 * rate`). */
  ghost function Chunks(s: seq<real>, rate: nat): seq<Dispatch>
    requires |s| == 2 * rate
  {
    [Dispatch("chunk.wav", WavFile(s[..rate], rate)), Dispatch("chunk.wav", WavFile(s[rate..], rate))]
  }

  /** Where the next chunk starts once `c` of them were sent. */
  function Boundary(c: nat, rate: nat): nat
  {
    if c == 0 then 0 else if c == 1 then rate else 2 * rate
  }

  /** Appending to a sequence appends to each of its suffixes. */
  lemma SuffixAppend(s: seq<real>, t: seq<real>, b: nat)
    requires b <= |s|
    ensures (s + t)[b..] == s[b..] + t
  {
  }

  /**
   * The window a tick cuts at boundary `b` from what has been fed so far is the same
   * window of the whole stream, and what it leaves is the rest of what was fed.
   */
  lemma WindowOfPrefix(all: seq<real>, fed: seq<real>, b: nat, rate: nat)
    requires |fed| <= |all| && fed == all[..|fed|] && b + rate <= |fed|
    ensures fed[b..][..rate] == all[b..b + rate]
    ensures fed[b..][rate..] == fed[b + rate..]
  {
    assert fed[b..][..rate] == fed[b..b + rate];
  }

  /**
   * Cutting one second at the boundary of `c` sent chunks from what has been fed so
   * far yields the samples of chunk `c` of the whole stream and moves the boundary by
   * one second.
   */
  lemma NextWindow(all: seq<real>, fed: seq<real>, c: nat, rate: nat)
    requires rate > 0 && |all| == 2 * rate && |fed| <= |all| && fed == all[..|fed|]
    requires c <= 2 && Boundary(c, rate) + rate <= |fed|
    ensures c < 2 && Boundary(c + 1, rate) == Boundary(c, rate) + rate
    ensures fed[Boundary(c, rate)..][..rate] == if c == 0 then all[..rate] else all[rate..]
    ensures fed[Boundary(c, rate)..][rate..] == fed[Boundary(c + 1, rate)..]
  {
    var b := Boundary(c, rate);
    WindowOfPrefix(all, fed, b, rate);
    if c == 0 { assert all[..rate] == all[0..rate]; } else { assert all[rate..] == all[rate..2 * rate]; }
  }

  /**
   * A running session at rate `rate` that has been fed `fed`, a prefix of the whole
   * stream `all`, has sent the first `c` chunks of `all` and queues the rest of `fed`;
   * no upload is in flight and every settled upload ended with `uploadOk`.
   */
  ghost predicate Streaming(app: App, uploadOk: bool, rate: nat, all: seq<real>, fed: seq<real>, c: nat)
    reads app
  {
    && app.Valid() && app.running && app.pending == 0
    && rate > 0 && app.audioCtx.Some? && app.audioCtx.value.sampleRate == rate
    && |all| == 2 * rate && |fed| <= |all| && fed == all[..|fed|]
    && c <= 2 && Boundary(c, rate) <= |fed|
    && Flatten(app.accum) == fed[Boundary(c, rate)..]
    && app.dispatched == Chunks(all, rate)[..c]
    && (c > 0 ==> app.status == (if uploadOk then Done else Error))
  }

  /** The processor callback delivers the next block of the stream. */
  method Feed(app: App, block: Block, ghost uploadOk: bool, ghost rate: nat,
              ghost all: seq<real>, ghost fed: seq<real>, ghost c: nat)
    requires Streaming(app, uploadOk, rate, all, fed, c)
    requires |fed + block| <= |all| && fed + block == all[..|fed + block|]
    modifies app
    ensures Streaming(app, uploadOk, rate, all, fed + block, c)
  {
    ghost var before := app.accum;
    app.OnContinuousBlock(block);
    FlattenSnoc(before, block);
    SuffixAppend(fed, block, Boundary(c, rate));
  }

  /**
   * The timer fires once and the upload it starts, if any, settles with `uploadOk`:
   * a tick with a full second queued sends the next chunk of the stream, and any other
   * tick sends nothing.
   */
  method Step(app: App, uploadOk: bool, rate: nat, ghost all: seq<real>, ghost fed: seq<real>, c: nat)
    returns (next: nat)
    requires Streaming(app, uploadOk, rate, all, fed, c)
    modifies app
    ensures Streaming(app, uploadOk, rate, all, fed, next)
    ensures c <= next && (Boundary(c, rate) + rate <= |fed| ==> next == c + 1)
  {
    var b := Boundary(c, rate);
    var queued := TotalLength(app.accum);
    app.Tick();
    if queued < rate {
      return c;
    }
    NextWindow(all, fed, c, rate);
    assert Chunks(all, rate)[..c + 1] == Chunks(all, rate)[..c] + [Chunks(all, rate)[c]];
    app.FinishUpload(uploadOk);
    next := c + 1;
  }

  /**
   * Once the whole stream has been fed, two more firings of the timer send whatever
   * chunks are still queued.
   */
  method Drain(app: App, uploadOk: bool, rate: nat, ghost all: seq<real>, c: nat)
    requires Streaming(app, uploadOk, rate, all, all, c)
    modifies app
    ensures app.running && app.status == (if uploadOk then Done else Error)
    ensures app.dispatched == Chunks(all, rate)
  {
    var d := Step(app, uploadOk, rate, all, all, c);
    d := Step(app, uploadOk, rate, all, all, d);
    assert Chunks(all, rate)[..2] == Chunks(all, rate);
  }

  /** A fresh component whose continuous start succeeds at the context's rate. */
  method Begin(p: Platform, ghost uploadOk: bool, ghost all: seq<real>) returns (app: App)
    requires p.failure == NoFailure && p.context.sampleRate > 0
    requires |all| == 2 * p.context.sampleRate
    ensures fresh(app)
    ensures Streaming(app, uploadOk, p.context.sampleRate, all, [], 0)
  {
    app := new App();
    app.StartContinuousOnce(p);
  }

  /**
   * Continuous mode end to end: start, feed blocks totalling exactly two seconds with a
   * tick after every block, then let the timer fire twice more, every upload settling
   * with `uploadOk`. Exactly two chunks go out, the first and the second second of the
   * stream with no overlap and no gap, and failed uploads do not stop the session.
   */
  method ContinuousSession(p: Platform, blocks: seq<Block>, uploadOk: bool)
    returns (sent: seq<Dispatch>, stillRunning: bool, status: Status)
    requires p.failure == NoFailure && p.context.sampleRate > 0
    requires TotalLength(blocks) == 2 * p.context.sampleRate
    ensures sent == Chunks(Flatten(blocks), p.context.sampleRate)
    ensures stillRunning
    ensures status == (if uploadOk then Done else Error)
  {
    var rate := p.context.sampleRate;
    ghost var all := Flatten(blocks);
    var app := Begin(p, uploadOk, all);
    assert blocks[..0] == [];
    var c := 0;
    for i := 0 to |blocks|
      invariant Streaming(app, uploadOk, rate, all, Flatten(blocks[..i]), c)
    {
      FedPrefix(blocks, i);
      ghost var fed := Flatten(blocks[..i + 1]);
      assert fed == all[..|fed|];
      Feed(app, blocks[i], uploadOk, rate, all, Flatten(blocks[..i]), c);
      c := Step(app, uploadOk, rate, all, fed, c);
    }
    assert blocks[..|blocks|] == blocks;
    Drain(app, uploadOk, rate, all, c);
    sent, stillRunning, status := app.dispatched, app.running, app.status;
  }

  /**
   * A tick with less than a second queued: the blocks fed after a successful start
   * are all still queued, unmerged and in order, and nothing is sent.
   */
  method ShortTick(p: Platform, blocks: seq<Block>) returns (sent: seq<Dispatch>, queue: seq<Block>)
    requires p.failure == NoFailure
    requires TotalLength(blocks) < Needed(Some(p.context))
    ensures sent == [] && queue == blocks
  {
    var app := new App();
    app.StartContinuousOnce(p);
    for i := 0 to |blocks|
      invariant app.Valid() && app.running && app.audioCtx == Some(p.context)
      invariant app.accum == blocks[..i] && app.dispatched == []
    {
      assert blocks[..i + 1] == blocks[..i] + [blocks[i]];
      app.OnContinuousBlock(blocks[i]);
    }
    assert blocks[..|blocks|] == blocks;
    app.Tick();
    sent, queue := app.dispatched, app.accum;
  }

  /**
   * `stopContinuous` twice after a start attempt that may have failed at any step, with
   * any teardown failures: both calls leave the component idle with no timer and an
   * empty queue, and a timer is cleared once in all, exactly when the start armed one.
   */
  method StopContinuousTwice(p: Platform, first: Faults, second: Faults)
    returns (status: Status, running: bool, queue: seq<Block>, clears: nat)
    ensures status == Idle && !running && queue == []
    ensures clears == (if p.failure == NoFailure then 1 else 0)
  {
    var app := new App();
    app.StartContinuousOnce(p);
    ghost var armed := app.intervalId;
    assert armed.Some? <==> p.failure == NoFailure;
    ghost var s1 := StopSequence(armed, app.processor, app.source, app.audioCtx, app.stream);
    ClearsOfStop(armed, app.processor, app.source, app.audioCtx, app.stream);
    app.StopContinuous(first);
    assert app.effects == [] + s1 == s1;
    ghost var s2 := StopSequence(None, app.processor, app.source, app.audioCtx, None);
    ClearsOfStop(None, app.processor, app.source, app.audioCtx, None);
    app.StopContinuous(second);
    assert app.effects == s1 + s2;
    ClearsAppend(s1, s2);
    status, running, queue, clears := app.status, app.running, app.accum, Clears(app.effects);
  }

  /** A fresh component records `blocks` after a successful `startRecording`. */
  method Record(p: Platform, blocks: seq<Block>) returns (app: App)
    requires p.failure == NoFailure
    ensures fresh(app) && app.Valid() && app.dispatched == [] && app.pending == 0
    ensures app.audioCtx == Some(p.context)
    ensures app.mediaRecorder == Some(Recorder(p.stream, blocks))
  {
    app := new App();
    app.StartRecording(p);
    for i := 0 to |blocks|
      invariant app.Valid() && app.dispatched == [] && app.pending == 0 && app.audioCtx == Some(p.context)
      invariant app.mediaRecorder == Some(Recorder(p.stream, blocks[..i]))
    {
      assert blocks[..i + 1] == blocks[..i] + [blocks[i]];
      app.OnRecordedBlock(blocks[i]);
    }
    assert blocks[..|blocks|] == blocks;
  }

  /**
   * One-shot mode end to end: a successful start, blocks delivered to the recorder, and
   * `stopRecording` twice. The first stop sends the whole recording, encoded at the
   * context's rate. When stopping the tracks throws, the refs survive and the second
   * stop sends the same recording again; otherwise the second stop does nothing.
   */
  method RecordingSession(p: Platform, blocks: seq<Block>, uploadOk: bool, first: Faults, second: Faults)
    returns (sent: seq<Dispatch>, status: Status)
    requires p.failure == NoFailure
    ensures var rec := Dispatch("recording.wav", WavFile(Flatten(blocks), p.context.sampleRate));
      sent == (if first.tracksFail then [rec, rec] else [rec])
    ensures status == (if uploadOk then Done else Error)
  {
    var app := Record(p, blocks);
    app.StopRecording(first, uploadOk);
    app.StopRecording(second, uploadOk);
    sent, status := app.dispatched, app.status;
  }

  /**
   * `startContinuous` twice, then `stopContinuous`, as the code is written: the
   * second start overwrites the running session, whose timer and stream become an
   * orphan, and the stop clears only the second timer. The first timer stays armed.
   */
  method RestartOrphansSession(p1: Platform, p2: Platform, faults: Faults)
    returns (orphans: seq<Orphan>, stopped: seq<Effect>)
    requires p1.failure == NoFailure && p2.failure == NoFailure
    ensures orphans == [Orphan(p1.timer, p1.stream)]
    ensures Clears(stopped) == 1 && stopped[0] == ClearInterval(p2.timer)
    ensures p1.timer != p2.timer ==> ClearInterval(p1.timer) !in stopped
  {
    var app := new App();
    app.StartContinuous(p1);
    app.StartContinuous(p2);
    ghost var s := StopSequence(app.intervalId, app.processor, app.source, app.audioCtx, app.stream);
    ClearsOfStop(app.intervalId, app.processor, app.source, app.audioCtx, app.stream);
    app.StopContinuous(faults);
    assert app.effects == [] + s == s;
    orphans, stopped := app.orphans, app.effects;
  }

  /**
   * The same calls with the guarded start: the second start is ignored, nothing is
   * orphaned, and the stop clears the timer of the one session that ran.
   */
  method RestartKeepsSession(p1: Platform, p2: Platform, faults: Faults)
    returns (orphans: seq<Orphan>, stopped: seq<Effect>)
    requires p1.failure == NoFailure
    ensures orphans == []
    ensures Clears(stopped) == 1 && stopped[0] == ClearInterval(p1.timer)
  {
    var app := new App();
    app.StartContinuousOnce(p1);
    app.StartContinuousOnce(p2);
    ghost var s := StopSequence(app.intervalId, app.processor, app.source, app.audioCtx, app.stream);
    ClearsOfStop(app.intervalId, app.processor, app.source, app.audioCtx, app.stream);
    app.StopContinuous(faults);
    assert app.effects == [] + s == s;
    orphans, stopped := app.orphans, app.effects;
  }
}
