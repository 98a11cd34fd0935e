/**
  A worked example: a six-second limit, audio arriving before video, one
  pause of two seconds, and a cutoff.
*/
module Scenario {
  import opened Wrappers
  import W = VideoWriter
  import opened Video

  const Stereo: W.AudioFormat := W.AudioFormat(2, 44100.0)
  const Both: W.Readiness := W.Readiness(true, true)

  /** Milliseconds as ticks of the nanosecond capture clock. */
  function Ms(n: int): int {
    n * 1_000_000
  }

  function AudioAt(ms: int): Event {
    Captured(W.Sample(Ms(ms), false, true), Some(Stereo), Both)
  }

  function VideoAt(ms: int): Event {
    Captured(W.Sample(Ms(ms), true, true), None, Both)
  }

  /** What one written sample produces when its track is ready. */
  function Written(t: W.Track, stamp: int): seq<W.Effect> {
    [W.Append(t, stamp), W.TimeChanged(stamp)]
  }

  /** The example's engine once its session has started. */
  function Recorder(status: W.Status, offsetMs: int, lastMs: int): W.Engine {
    W.Engine(status, Ms(offsetMs), Some(Ms(lastMs)), 6, W.Writing, Stereo)
  }

  /** The example's engine once it has ended. */
  function Ended(): W.Engine {
    W.Engine(W.End, Ms(2500), Some(Ms(8600)), 6, W.Completed, Stereo)
  }

  /** Audio at 0.40 s builds the engine; recording starts; video at 0.50 s
      anchors the timeline; audio at 0.55 s and video at 1.00 s follow; a
      pause swallows a video frame at 2.00 s; after resuming, audio at 3.00 s
      absorbs the two-second pause; video at 8.60 s is past the limit;
      audio at 8.70 s arrives after the end. */
  function ExampleEvents(): seq<Event> {
    UntilCutoff() + [AudioAt(8700)]
  }

  function UntilAnchor(): seq<Event> {
    [AudioAt(400), StartCalled, VideoAt(500)]
  }

  function UntilPause(): seq<Event> {
    UntilAnchor() + [AudioAt(550), VideoAt(1000)]
  }

  function UntilResume(): seq<Event> {
    UntilPause() + [PauseCalled, VideoAt(2000), StartCalled]
  }

  function UntilCutoff(): seq<Event> {
    UntilResume() + [AudioAt(3000), VideoAt(8600)]
  }

  /** The stamps of the example: the sample at 3.00 s lands at 0.50 s. */
  function ExampleEffects(): seq<W.Effect> {
    Written(W.VideoTrack, 0) + (Written(W.AudioTrack, Ms(50)) + (Written(W.VideoTrack, Ms(500))
    + (Written(W.AudioTrack, Ms(500)) + [W.Finalize])))
  }

  /** The example's outcome: the paused span disappears (the sample at
      3.00 s lands at 0.50 s, with an offset of 2.50 s), the recording
      finalizes once, later samples leave no trace, and the owner hears every
      elapsed value and one finish. */
  lemma ExampleRecording()
    ensures var o := RouterRun(Setup(6), ExampleEvents());
      && o.Routed?
      && o.router.writer == Some(Ended())
      && o.effects == ExampleEffects()
      && Notify(o.effects) ==
           [ RecordingTimeChanged(0), RecordingTimeChanged(Ms(50)), RecordingTimeChanged(Ms(500)),
             RecordingTimeChanged(Ms(500)), RecordingFinished ]
  {
    RunUntilCutoff();
    StepsAfterResume();
    Extends(Setup(6), UntilCutoff(), AudioAt(8700), Router(Some(Ended()), 6), ExampleEffects(),
            Router(Some(Ended()), 6), []);
    assert ExampleEffects() + [] == ExampleEffects();
    NotifyExample();
  }

  lemma RunUntilAnchor()
    ensures RouterRun(Setup(6), UntilAnchor())
         == Routed(Router(Some(Recorder(W.Write, 500, 500)), 6), Written(W.VideoTrack, 0))
  {
    var r0 := Setup(6);
    var e0 := W.Init(Stereo, 6);
    var e1 := e0.(status := W.Write);
    StepsUntilPause();
    Extends(r0, [], AudioAt(400), r0, [], Router(Some(e0), 6), []);
    Extends(r0, [] + [AudioAt(400)], StartCalled, Router(Some(e0), 6), [] + [], Router(Some(e1), 6), []);
    Extends(r0, [] + [AudioAt(400)] + [StartCalled], VideoAt(500), Router(Some(e1), 6), [] + [] + [],
            Router(Some(Recorder(W.Write, 500, 500)), 6), Written(W.VideoTrack, 0));
    assert [] + [AudioAt(400)] + [StartCalled] + [VideoAt(500)] == UntilAnchor();
  }

  lemma RunUntilPause()
    ensures RouterRun(Setup(6), UntilPause())
         == Routed(Router(Some(Recorder(W.Write, 500, 1000)), 6),
                   Written(W.VideoTrack, 0) + Written(W.AudioTrack, Ms(50)) + Written(W.VideoTrack, Ms(500)))
  {
    var r0 := Setup(6);
    RunUntilAnchor();
    StepsUntilPause();
    Extends(r0, UntilAnchor(), AudioAt(550), Router(Some(Recorder(W.Write, 500, 500)), 6), Written(W.VideoTrack, 0),
            Router(Some(Recorder(W.Write, 500, 550)), 6), Written(W.AudioTrack, Ms(50)));
    Extends(r0, UntilAnchor() + [AudioAt(550)], VideoAt(1000), Router(Some(Recorder(W.Write, 500, 550)), 6),
            Written(W.VideoTrack, 0) + Written(W.AudioTrack, Ms(50)),
            Router(Some(Recorder(W.Write, 500, 1000)), 6), Written(W.VideoTrack, Ms(500)));
    assert UntilAnchor() + [AudioAt(550)] + [VideoAt(1000)] == UntilPause();
  }

  lemma RunUntilResume()
    ensures RouterRun(Setup(6), UntilResume())
         == Routed(Router(Some(Recorder(W.Restart, 500, 1000)), 6),
                   Written(W.VideoTrack, 0) + Written(W.AudioTrack, Ms(50)) + Written(W.VideoTrack, Ms(500)))
  {
    var r0 := Setup(6);
    var fx := Written(W.VideoTrack, 0) + Written(W.AudioTrack, Ms(50)) + Written(W.VideoTrack, Ms(500));
    RunUntilPause();
    StepsWhilePaused();
    assert fx + [] == fx;
    var paused := Router(Some(Recorder(W.Pause, 500, 1000)), 6);
    Extends(r0, UntilPause(), PauseCalled, Router(Some(Recorder(W.Write, 500, 1000)), 6), fx, paused, []);
    Extends(r0, UntilPause() + [PauseCalled], VideoAt(2000), paused, fx, paused, []);
    Extends(r0, UntilPause() + [PauseCalled] + [VideoAt(2000)], StartCalled, paused, fx,
            Router(Some(Recorder(W.Restart, 500, 1000)), 6), []);
    assert UntilPause() + [PauseCalled] + [VideoAt(2000)] + [StartCalled] == UntilResume();
  }

  lemma RunUntilCutoff()
    ensures RouterRun(Setup(6), UntilCutoff()) == Routed(Router(Some(Ended()), 6), ExampleEffects())
  {
    var r0 := Setup(6);
    var fx := Written(W.VideoTrack, 0) + Written(W.AudioTrack, Ms(50)) + Written(W.VideoTrack, Ms(500));
    var resumed := Router(Some(Recorder(W.Write, 2500, 3000)), 6);
    RunUntilResume();
    StepsAfterResume();
    Extends(r0, UntilResume(), AudioAt(3000), Router(Some(Recorder(W.Restart, 500, 1000)), 6), fx,
            resumed, Written(W.AudioTrack, Ms(500)));
    Extends(r0, UntilResume() + [AudioAt(3000)], VideoAt(8600), resumed, fx + Written(W.AudioTrack, Ms(500)),
            Router(Some(Ended()), 6), [W.Finalize]);
    CutoffPieces();
  }

  /** How the cutoff stage's events and effects extend the earlier stages'. */
  lemma CutoffPieces()
    ensures UntilResume() + [AudioAt(3000)] + [VideoAt(8600)] == UntilCutoff()
    ensures Written(W.VideoTrack, 0) + Written(W.AudioTrack, Ms(50)) + Written(W.VideoTrack, Ms(500))
            + Written(W.AudioTrack, Ms(500)) + [W.Finalize] == ExampleEffects()
  {
  }

  /** The example's events up to the pause, one at a time. */
  lemma StepsUntilPause()
    ensures var r0 := Setup(6);
      var e0 := W.Init(Stereo, 6);
      var e1 := e0.(status := W.Write);
      && Handle(r0, AudioAt(400)) == Routed(Router(Some(e0), 6), [])
      && Handle(Router(Some(e0), 6), StartCalled) == Routed(Router(Some(e1), 6), [])
      && Handle(Router(Some(e1), 6), VideoAt(500))
         == Routed(Router(Some(Recorder(W.Write, 500, 500)), 6), Written(W.VideoTrack, 0))
      && Handle(Router(Some(Recorder(W.Write, 500, 500)), 6), AudioAt(550))
         == Routed(Router(Some(Recorder(W.Write, 500, 550)), 6), Written(W.AudioTrack, Ms(50)))
      && Handle(Router(Some(Recorder(W.Write, 500, 550)), 6), VideoAt(1000))
         == Routed(Router(Some(Recorder(W.Write, 500, 1000)), 6), Written(W.VideoTrack, Ms(500)))
  {
  }

  /** The example's pause, one event at a time. */
  lemma StepsWhilePaused()
    ensures
      && Handle(Router(Some(Recorder(W.Write, 500, 1000)), 6), PauseCalled)
         == Routed(Router(Some(Recorder(W.Pause, 500, 1000)), 6), [])
      && Handle(Router(Some(Recorder(W.Pause, 500, 1000)), 6), VideoAt(2000))
         == Routed(Router(Some(Recorder(W.Pause, 500, 1000)), 6), [])
      && Handle(Router(Some(Recorder(W.Pause, 500, 1000)), 6), StartCalled)
         == Routed(Router(Some(Recorder(W.Restart, 500, 1000)), 6), [])
  {
  }

  /** The example's events after resuming, one at a time. */
  lemma StepsAfterResume()
    ensures
      && Handle(Router(Some(Recorder(W.Restart, 500, 1000)), 6), AudioAt(3000))
         == Routed(Router(Some(Recorder(W.Write, 2500, 3000)), 6), Written(W.AudioTrack, Ms(500)))
      && Handle(Router(Some(Recorder(W.Write, 2500, 3000)), 6), VideoAt(8600))
         == Routed(Router(Some(Ended()), 6), [W.Finalize])
      && Handle(Router(Some(Ended()), 6), AudioAt(8700)) == Routed(Router(Some(Ended()), 6), [])
  {
  }

  lemma NotifyExample()
    ensures Notify(ExampleEffects()) ==
           [ RecordingTimeChanged(0), RecordingTimeChanged(Ms(50)), RecordingTimeChanged(Ms(500)),
             RecordingTimeChanged(Ms(500)), RecordingFinished ]
  {
    var tail := [W.Finalize];
    assert Notify(tail) == [RecordingFinished];
    NotifyWrittenThen(W.AudioTrack, Ms(500), tail);
    NotifyWrittenThen(W.VideoTrack, Ms(500), Written(W.AudioTrack, Ms(500)) + tail);
    NotifyWrittenThen(W.AudioTrack, Ms(50), Written(W.VideoTrack, Ms(500)) + (Written(W.AudioTrack, Ms(500)) + tail));
    NotifyWrittenThen(W.VideoTrack, 0, Written(W.AudioTrack, Ms(50)) + (Written(W.VideoTrack, Ms(500))
      + (Written(W.AudioTrack, Ms(500)) + tail)));
  }

  lemma NotifyWrittenThen(t: W.Track, stamp: int, rest: seq<W.Effect>)
    ensures Notify(Written(t, stamp) + rest) == [RecordingTimeChanged(stamp)] + Notify(rest)
  {
    var fx := Written(t, stamp) + rest;
    assert fx[1..][1..] == rest;
  }

  /** One more event extends a run by that event's own outcome. */
  lemma Extends(r0: Router, pre: seq<Event>, ev: Event, r1: Router, fx1: seq<W.Effect>, r2: Router, fx2: seq<W.Effect>)
    requires RouterRun(r0, pre) == Routed(r1, fx1)
    requires Handle(r1, ev) == Routed(r2, fx2)
    ensures RouterRun(r0, pre + [ev]) == Routed(r2, fx1 + fx2)
  {
    RouterRunSnoc(r0, pre, ev);
  }
}
