/**
  Sequences of calls on one recording engine: samples interleaved with
  `pause()` and `start()`, and what holds of every such run.
*/
module WriterRuns {
  import opened Wrappers
  import opened VideoWriter

  /** One call made on the engine by its owner or by the capture source. */
  datatype Input =
    | Sampled(sample: Sample, ready: Readiness)
    | PauseCalled
    | StartCalled

  function Apply(e: Engine, i: Input): StepResult {
    match i
    case Sampled(s, ready) => WriteSample(e, s, ready)
    case PauseCalled => Stepped(RequestPause(e), [])
    case StartCalled => Stepped(RequestStart(e), [])
  }

  /** The calls in order; a trap ends the run. */
  function Run(e: Engine, inputs: seq<Input>): (r: StepResult)
    ensures r.Stepped? ==> r.next.recordingTime == e.recordingTime && r.next.audioFormat == e.audioFormat
    ensures r.Stepped? && Coherent(e) ==> Coherent(r.next)
    decreases |inputs|
  {
    if |inputs| == 0 then Stepped(e, [])
    else
      match Apply(e, inputs[0])
      case Trapped(f) => Trapped(f)
      case Stepped(e1, fx1) =>
        match Run(e1, inputs[1..])
        case Trapped(f) => Trapped(f)
        case Stepped(e2, fx2) => Stepped(e2, fx1 + fx2)
  }

  /** A run that does not trap is its first call followed by the rest. */
  lemma RunSplit(e: Engine, inputs: seq<Input>)
    requires |inputs| > 0 && Run(e, inputs).Stepped?
    ensures var r1 := Apply(e, inputs[0]);
      && r1.Stepped?
      && var r2 := Run(r1.next, inputs[1..]);
      && r2.Stepped?
      && Run(e, inputs) == Stepped(r2.next, r1.effects + r2.effects)
  {
  }

  /** 1 while a finalization is still to come, 0 once the recorder has ended. */
  function EngineBudget(e: Engine): nat {
    if e.status == End then 0 else 1
  }

  lemma {:induction false} FinalizeCountAppend(a: seq<Effect>, b: seq<Effect>)
    ensures FinalizeCount(a + b) == FinalizeCount(a) + FinalizeCount(b)
  {
    if |a| == 0 {
      assert a + b == b;
    } else {
      assert (a + b)[1..] == a[1..] + b;
      FinalizeCountAppend(a[1..], b);
    }
  }

  /** End is absorbing: once ended, nothing any later call does is visible. */
  lemma {:induction false} EndAbsorbs(e: Engine, inputs: seq<Input>)
    requires e.status == End
    ensures Run(e, inputs) == Stepped(e, [])
    decreases |inputs|
  {
    if |inputs| > 0 {
      EndAbsorbs(e, inputs[1..]);
    }
  }

  /** A run finalizes exactly once if it ends a recorder that had not ended,
      and never otherwise; so at most once per engine. */
  lemma {:induction false} FinalizeExactlyOnce(e: Engine, inputs: seq<Input>)
    ensures var r := Run(e, inputs);
      r.Stepped? ==> FinalizeCount(r.effects) + EngineBudget(r.next) == EngineBudget(e)
    decreases |inputs|
  {
    if |inputs| > 0 {
      var r1 := Apply(e, inputs[0]);
      if r1.Stepped? {
        FinalizeExactlyOnce(r1.next, inputs[1..]);
        var r2 := Run(r1.next, inputs[1..]);
        if r2.Stepped? {
          FinalizeCountAppend(r1.effects, r2.effects);
        }
      }
    }
  }

  /** Nothing follows a finalization: it is the last effect of any run. */
  lemma {:induction false} FinalizeIsLast(e: Engine, inputs: seq<Input>)
    ensures var r := Run(e, inputs);
      r.Stepped? && Finalize in r.effects ==> r.effects[|r.effects| - 1] == Finalize
    decreases |inputs|
  {
    if |inputs| > 0 {
      var r1 := Apply(e, inputs[0]);
      if r1.Stepped? {
        FinalizeIsLast(r1.next, inputs[1..]);
        var r2 := Run(r1.next, inputs[1..]);
        if r2.Stepped? && Finalize in r1.effects {
          FinalizeAlone(e, inputs[0]);
          EndAbsorbs(r1.next, inputs[1..]);
        }
      }
    }
  }

  /** A call that finalizes does nothing else and ends the recorder. */
  lemma FinalizeAlone(e: Engine, i: Input)
    requires Apply(e, i).Stepped? && Finalize in Apply(e, i).effects
    ensures Apply(e, i).effects == [Finalize] && Apply(e, i).next.status == End
  {
  }

  predicate IsControl(i: Input) {
    i.PauseCalled? || i.StartCalled?
  }

  /** Any number of `pause()`/`start()` calls leave the timeline bookkeeping
      alone: no offset correction, no effect, and they neither end a
      recording nor revive an ended one. */
  lemma {:induction false} ControlsKeepTimeline(e: Engine, inputs: seq<Input>)
    requires forall k :: 0 <= k < |inputs| ==> IsControl(inputs[k])
    ensures var r := Run(e, inputs);
      && r.Stepped?
      && r.effects == []
      && r.next.offsetTime == e.offsetTime
      && r.next.lastTime == e.lastTime
      && r.next.writerStatus == e.writerStatus
      && (r.next.status == End <==> e.status == End)
    decreases |inputs|
  {
    if |inputs| > 0 {
      assert IsControl(inputs[0]);
      ControlsKeepTimeline(Apply(e, inputs[0]).next, inputs[1..]);
    }
  }

  /** Resuming before any sample was written dereferences the nil `lastTime`:
      start, let only audio arrive (no session yet), pause, start again, and
      the next sample of any kind traps. */
  lemma ResumeBeforeAnchorTraps(format: AudioFormat, recordingTime: int, audio: Sample, ready: Readiness, s: Sample, ready': Readiness)
    requires !audio.isVideo
    ensures Run(Init(format, recordingTime),
                [StartCalled, Sampled(audio, ready), PauseCalled, StartCalled, Sampled(s, ready')])
         == Trapped(NilLastTime)
  {
    var e1 := RequestStart(Init(format, recordingTime));
    var e2 := RequestPause(e1);
    var e3 := RequestStart(e2);
    var t4 := [Sampled(s, ready')];
    assert Run(e3, t4) == Trapped(NilLastTime);
    var t3 := [StartCalled] + t4;
    assert t3[1..] == t4;
    var t2 := [PauseCalled] + t3;
    assert t2[1..] == t3;
    var t1 := [Sampled(audio, ready)] + t2;
    assert t1[1..] == t2;
    assert Apply(e1, Sampled(audio, ready)) == Stepped(e1, []);
    var t0 := [StartCalled] + t1;
    assert t0[1..] == t1;
    assert Run(e2, t3) == Trapped(NilLastTime);
    assert Run(e1, t2) == Trapped(NilLastTime);
    assert Run(e1, t1) == Trapped(NilLastTime);
    assert t0 == [StartCalled, Sampled(audio, ready), PauseCalled, StartCalled, Sampled(s, ready')];
  }

  // ---------------------------------------------------------------------
  // The output timeline

  /** The output timestamps carried by some effects, in order: the stamps of
      appended samples and the reported elapsed times. */
  function Timeline(fx: seq<Effect>): seq<int> {
    if |fx| == 0 then []
    else
      (match fx[0]
       case Append(_, p) => [p]
       case TimeChanged(t) => [t]
       case Finalize => [])
      + Timeline(fx[1..])
  }

  lemma {:induction false} TimelineAppend(a: seq<Effect>, b: seq<Effect>)
    ensures Timeline(a + b) == Timeline(a) + Timeline(b)
  {
    if |a| == 0 {
      assert a + b == b;
    } else {
      assert (a + b)[1..] == a[1..] + b;
      TimelineAppend(a[1..], b);
    }
  }

  predicate NonDecreasing(xs: seq<int>) {
    forall i, j :: 0 <= i < j < |xs| ==> xs[i] <= xs[j]
  }

  /** The elapsed output time an engine has reached; zero before its session starts. */
  function Floor(e: Engine): int {
    if e.lastTime.Some? then Elapsed(e) else 0
  }

  /** A steady capture feed from raw time `lo` on: every sample's data is
      ready and raw timestamps never go backwards, taken over both tracks
      merged in arrival order (see `CrossTrackRewinds` for a feed ordered
      only within each track). */
  predicate SteadyFeed(inputs: seq<Input>, lo: int)
    decreases |inputs|
  {
    |inputs| == 0 ||
    match inputs[0]
    case Sampled(s, _) => s.dataReady && lo <= s.pts && SteadyFeed(inputs[1..], s.pts)
    case _ => SteadyFeed(inputs[1..], lo)
  }

  function NextLo(i: Input, lo: int): int {
    if i.Sampled? then i.sample.pts else lo
  }

  /** One call on a steady feed: the elapsed time never decreases, and every
      output stamp the call produces is the elapsed time it reaches. */
  lemma StepKeepsTimeline(e: Engine, i: Input, lo: int)
    requires Coherent(e)
    requires e.lastTime.Some? ==> e.lastTime.value <= lo
    requires i.Sampled? ==> i.sample.dataReady && lo <= i.sample.pts
    ensures var r := Apply(e, i);
      r.Stepped? ==>
        && Floor(e) <= Floor(r.next)
        && (r.next.lastTime.Some? ==> r.next.lastTime.value <= NextLo(i, lo))
        && forall v :: v in Timeline(r.effects) ==> v == Floor(r.next)
  {
    var r := Apply(e, i);
    if r.Stepped? && i.Sampled? {
      var s := i.sample;
      var ready := i.ready;
      var fx := r.effects;
      if fx != [] && fx != [Finalize] {
        var d := Deliver(s, ready, Floor(r.next));
        assert fx == d + [TimeChanged(Floor(r.next))];
        TimelineAppend(d, [TimeChanged(Floor(r.next))]);
        assert Timeline(d) == [] || Timeline(d) == [Floor(r.next)];
      }
    }
  }

  /** Two non-decreasing runs of stamps, the first below a bound the second
      starts from, make one non-decreasing run. */
  lemma NonDecreasingConcat(t1: seq<int>, t2: seq<int>, m: int)
    requires NonDecreasing(t1) && NonDecreasing(t2)
    requires forall v :: v in t1 ==> v <= m
    requires forall v :: v in t2 ==> m <= v
    ensures NonDecreasing(t1 + t2)
  {
    forall i, j | 0 <= i < j < |t1 + t2|
      ensures (t1 + t2)[i] <= (t1 + t2)[j]
    {
      if j < |t1| {
      } else if i < |t1| {
        assert t1[i] in t1 && t2[j - |t1|] in t2;
      } else {
      }
    }
  }

  /** A call's stamps, all equal to the elapsed time it reaches, followed by
      a non-decreasing timeline that starts there. */
  lemma CombineTimelines(before: int, reached: int, fx1: seq<Effect>, fx2: seq<Effect>)
    requires before <= reached
    requires forall v :: v in Timeline(fx1) ==> v == reached
    requires NonDecreasing(Timeline(fx2)) && forall v :: v in Timeline(fx2) ==> reached <= v
    ensures NonDecreasing(Timeline(fx1 + fx2))
    ensures forall v :: v in Timeline(fx1 + fx2) ==> before <= v
  {
    TimelineAppend(fx1, fx2);
    var t1, t2 := Timeline(fx1), Timeline(fx2);
    assert NonDecreasing(t1) by {
      forall i, j | 0 <= i < j < |t1| ensures t1[i] <= t1[j] {
        assert t1[i] in t1 && t1[j] in t1;
      }
    }
    NonDecreasingConcat(t1, t2, reached);
  }

  /** On a steady feed the output timeline never runs backwards and never
      drops below the elapsed time already reached; from a fresh engine
      (elapsed zero) every output stamp is therefore non-negative. */
  lemma {:induction false} TimelineNonDecreasing(e: Engine, inputs: seq<Input>, lo: int)
    requires Coherent(e)
    requires e.lastTime.Some? ==> e.lastTime.value <= lo
    requires SteadyFeed(inputs, lo)
    ensures var r := Run(e, inputs);
      r.Stepped? ==>
        && NonDecreasing(Timeline(r.effects))
        && forall v :: v in Timeline(r.effects) ==> Floor(e) <= v
    decreases |inputs|
  {
    if |inputs| > 0 && Run(e, inputs).Stepped? {
      RunSplit(e, inputs);
      var r1 := Apply(e, inputs[0]);
      var r2 := Run(r1.next, inputs[1..]);
      StepKeepsTimeline(e, inputs[0], lo);
      TimelineNonDecreasing(r1.next, inputs[1..], NextLo(inputs[0], lo));
      CombineTimelines(Floor(e), Floor(r1.next), r1.effects, r2.effects);
    }
  }

  /** Without the steady-feed hypothesis the timeline can rewind: a sample
      whose data is not ready consumes the Restart, absorbing the paused span
      while `lastTime` keeps the pre-pause timestamp; after a second pause the
      next correction counts the first pause again, and the output jumps back
      from one second to zero. */
  lemma SecondResumeRewinds(format: AudioFormat)
    ensures var r := Run(Init(format, 6), RewindingFeed());
      && r.Stepped?
      && Timeline(r.effects) == [0, 0, Timescale, Timescale, 0, 0]
      && !NonDecreasing(Timeline(r.effects))
  {
    RewindingRun(format);
    RewindingTimeline();
  }

  lemma RewindingTimeline()
    ensures var t := Timeline([Append(VideoTrack, 0), TimeChanged(0)]
                              + [Append(VideoTrack, Timescale), TimeChanged(Timescale)]
                              + [Append(VideoTrack, 0), TimeChanged(0)]);
      t == [0, 0, Timescale, Timescale, 0, 0] && !NonDecreasing(t)
  {
    var a := [Append(VideoTrack, 0), TimeChanged(0)];
    var b := [Append(VideoTrack, Timescale), TimeChanged(Timescale)];
    TimelineAppend(a + b, a);
    TimelineAppend(a, b);
    assert a[1..] == [TimeChanged(0)] && a[1..][1..] == [];
    assert b[1..] == [TimeChanged(Timescale)] && b[1..][1..] == [];
    assert Timeline(a) == [0, 0];
    assert Timeline(b) == [Timescale, Timescale];
    var t := Timeline(a + b + a);
    assert t == [0, 0, Timescale, Timescale, 0, 0];
    assert t[3] > t[4];
  }

  /** The rewinding feed, call by call. */
  lemma RewindingRun(format: AudioFormat)
    ensures Run(Init(format, 6), RewindingFeed())
         == Stepped(Started(format, Write, 3 * Timescale, 3 * Timescale),
                    [Append(VideoTrack, 0), TimeChanged(0)]
                    + [Append(VideoTrack, Timescale), TimeChanged(Timescale)]
                    + [Append(VideoTrack, 0), TimeChanged(0)])
  {
    var T := Timescale;
    var both := Readiness(true, true);
    var a := [Append(VideoTrack, 0), TimeChanged(0)];
    var b := [Append(VideoTrack, T), TimeChanged(T)];
    var e9 := Started(format, Write, 3 * T, 3 * T);
    RewindingSteps(format);
    var t9: seq<Input> := [];
    var t8 := [Sampled(Sample(3 * T, true, true), both)] + t9;
    RunPrepend(Started(format, Restart, T, T), t8[0], t9, e9, a, e9, []);
    var t7 := [StartCalled] + t8;
    RunPrepend(Started(format, Pause, T, T), StartCalled, t8, Started(format, Restart, T, T), [], e9, a + []);
    var t6 := [PauseCalled] + t7;
    RunPrepend(Started(format, Write, T, T), PauseCalled, t7, Started(format, Pause, T, T), [], e9, [] + (a + []));
    assert [] + ([] + (a + [])) == a;
    var t5 := [Sampled(Sample(2 * T, false, false), both)] + t6;
    RunPrepend(Started(format, Restart, 0, T), t5[0], t6, Started(format, Write, T, T), [], e9, a);
    var t4 := [StartCalled] + t5;
    RunPrepend(Started(format, Pause, 0, T), StartCalled, t5, Started(format, Restart, 0, T), [], e9, [] + a);
    var t3 := [PauseCalled] + t4;
    RunPrepend(Started(format, Write, 0, T), PauseCalled, t4, Started(format, Pause, 0, T), [], e9, [] + ([] + a));
    assert [] + ([] + ([] + a)) == a;
    var t2 := [Sampled(Sample(T, true, true), both)] + t3;
    RunPrepend(Started(format, Write, 0, 0), t2[0], t3, Started(format, Write, 0, T), b, e9, a);
    var t1 := [Sampled(Sample(0, true, true), both)] + t2;
    RunPrepend(Init(format, 6).(status := Write), t1[0], t2, Started(format, Write, 0, 0), a, e9, b + a);
    var t0 := [StartCalled] + t1;
    RunPrepend(Init(format, 6), StartCalled, t1, Init(format, 6).(status := Write), [], e9, a + (b + a));
    assert t0 == RewindingFeed();
    assert [] + (a + (b + a)) == a + b + a;
  }

  /** An engine that has started its session, with the given offset and last written timestamp. */
  function Started(format: AudioFormat, status: Status, offset: int, last: int): Engine {
    Engine(status, offset, Some(last), 6, Writing, format)
  }

  /** The calls of the rewinding feed one at a time. */
  lemma RewindingSteps(format: AudioFormat)
    ensures var T := Timescale;
      var both := Readiness(true, true);
      && Apply(Init(format, 6), StartCalled) == Stepped(Init(format, 6).(status := Write), [])
      && Apply(Init(format, 6).(status := Write), Sampled(Sample(0, true, true), both))
         == Stepped(Started(format, Write, 0, 0), [Append(VideoTrack, 0), TimeChanged(0)])
      && Apply(Started(format, Write, 0, 0), Sampled(Sample(T, true, true), both))
         == Stepped(Started(format, Write, 0, T), [Append(VideoTrack, T), TimeChanged(T)])
      && Apply(Started(format, Write, 0, T), PauseCalled) == Stepped(Started(format, Pause, 0, T), [])
      && Apply(Started(format, Pause, 0, T), StartCalled) == Stepped(Started(format, Restart, 0, T), [])
      && Apply(Started(format, Restart, 0, T), Sampled(Sample(2 * T, false, false), both))
         == Stepped(Started(format, Write, T, T), [])
      && Apply(Started(format, Write, T, T), PauseCalled) == Stepped(Started(format, Pause, T, T), [])
      && Apply(Started(format, Pause, T, T), StartCalled) == Stepped(Started(format, Restart, T, T), [])
      && Apply(Started(format, Restart, T, T), Sampled(Sample(3 * T, true, true), both))
         == Stepped(Started(format, Write, 3 * T, 3 * T), [Append(VideoTrack, 0), TimeChanged(0)])
  {
  }

  /** A run is its first call followed by the rest. */
  lemma RunPrepend(e: Engine, i: Input, rest: seq<Input>, e1: Engine, fx1: seq<Effect>, e2: Engine, fx2: seq<Effect>)
    requires Apply(e, i) == Stepped(e1, fx1)
    requires Run(e1, rest) == Stepped(e2, fx2)
    ensures Run(e, [i] + rest) == Stepped(e2, fx1 + fx2)
  {
    assert ([i] + rest)[1..] == rest;
  }

  /** Two pause/resume cycles, the first resumed by a sample whose data is not ready. */
  function RewindingFeed(): seq<Input> {
    var both := Readiness(true, true);
    [ StartCalled,
      Sampled(Sample(0, true, true), both),
      Sampled(Sample(Timescale, true, true), both),
      PauseCalled, StartCalled,
      Sampled(Sample(2 * Timescale, false, false), both),
      PauseCalled, StartCalled,
      Sampled(Sample(3 * Timescale, true, true), both) ]
  }

  /** With raw timestamps ordered only within each track, the video track can
      rewind: an audio sample that arrives first after resuming takes the
      paused span up to its own, later, timestamp, and the next video frame,
      captured earlier than that audio, is stamped 0.99 s after a frame
      stamped 1 s. */
  lemma CrossTrackRewinds(format: AudioFormat)
    ensures var r := Run(Init(format, 6), CrossTrackFeed());
      && r.Stepped?
      && r.effects[2] == Append(VideoTrack, Timescale)
      && r.effects[6] == Append(VideoTrack, 990_000_000)
      && Timeline(r.effects) == [0, 0, Timescale, Timescale, Timescale, Timescale, 990_000_000, 990_000_000]
      && !NonDecreasing(Timeline(r.effects))
  {
    CrossTrackRun(format);
    CrossTrackTimeline();
  }

  lemma CrossTrackTimeline()
    ensures var t := Timeline([Append(VideoTrack, 0), TimeChanged(0)]
                              + [Append(VideoTrack, Timescale), TimeChanged(Timescale)]
                              + [Append(AudioTrack, Timescale), TimeChanged(Timescale)]
                              + [Append(VideoTrack, 990_000_000), TimeChanged(990_000_000)]);
      t == [0, 0, Timescale, Timescale, Timescale, Timescale, 990_000_000, 990_000_000] && !NonDecreasing(t)
  {
    var a := [Append(VideoTrack, 0), TimeChanged(0)];
    var b := [Append(VideoTrack, Timescale), TimeChanged(Timescale)];
    var c := [Append(AudioTrack, Timescale), TimeChanged(Timescale)];
    var d := [Append(VideoTrack, 990_000_000), TimeChanged(990_000_000)];
    TimelineAppend(a + b + c, d);
    TimelineAppend(a + b, c);
    TimelineAppend(a, b);
    assert a[1..] == [TimeChanged(0)] && a[1..][1..] == [];
    assert b[1..] == [TimeChanged(Timescale)] && b[1..][1..] == [];
    assert c[1..] == [TimeChanged(Timescale)] && c[1..][1..] == [];
    assert d[1..] == [TimeChanged(990_000_000)] && d[1..][1..] == [];
    assert Timeline(a) == [0, 0];
    assert Timeline(b) == [Timescale, Timescale];
    assert Timeline(c) == [Timescale, Timescale];
    assert Timeline(d) == [990_000_000, 990_000_000];
    var t := Timeline(a + b + c + d);
    assert t == [0, 0, Timescale, Timescale, Timescale, Timescale, 990_000_000, 990_000_000];
    assert t[5] > t[6];
  }

  /** The cross-track feed, call by call. */
  lemma CrossTrackRun(format: AudioFormat)
    ensures Run(Init(format, 6), CrossTrackFeed())
         == Stepped(Started(format, Write, 2 * Timescale, 2_990_000_000),
                    [Append(VideoTrack, 0), TimeChanged(0)]
                    + [Append(VideoTrack, Timescale), TimeChanged(Timescale)]
                    + [Append(AudioTrack, Timescale), TimeChanged(Timescale)]
                    + [Append(VideoTrack, 990_000_000), TimeChanged(990_000_000)])
  {
    var T := Timescale;
    var a := [Append(VideoTrack, 0), TimeChanged(0)];
    var b := [Append(VideoTrack, T), TimeChanged(T)];
    var c := [Append(AudioTrack, T), TimeChanged(T)];
    var d := [Append(VideoTrack, 990_000_000), TimeChanged(990_000_000)];
    var e7 := Started(format, Write, 2 * T, 2_990_000_000);
    CrossTrackSteps(format);
    var feed := CrossTrackFeed();
    var t7: seq<Input> := [];
    var t6 := [feed[6]] + t7;
    RunPrepend(Started(format, Write, 2 * T, 3 * T), feed[6], t7, e7, d, e7, []);
    var t5 := [feed[5]] + t6;
    RunPrepend(Started(format, Restart, 0, T), feed[5], t6, Started(format, Write, 2 * T, 3 * T), c, e7, d + []);
    var t4 := [StartCalled] + t5;
    RunPrepend(Started(format, Pause, 0, T), StartCalled, t5, Started(format, Restart, 0, T), [], e7, c + (d + []));
    var t3 := [PauseCalled] + t4;
    RunPrepend(Started(format, Write, 0, T), PauseCalled, t4, Started(format, Pause, 0, T), [], e7, [] + (c + (d + [])));
    assert [] + ([] + (c + (d + []))) == c + d;
    var t2 := [feed[2]] + t3;
    RunPrepend(Started(format, Write, 0, 0), feed[2], t3, Started(format, Write, 0, T), b, e7, c + d);
    var t1 := [feed[1]] + t2;
    RunPrepend(Init(format, 6).(status := Write), feed[1], t2, Started(format, Write, 0, 0), a, e7, b + (c + d));
    var t0 := [StartCalled] + t1;
    RunPrepend(Init(format, 6), StartCalled, t1, Init(format, 6).(status := Write), [], e7, a + (b + (c + d)));
    assert t0 == feed;
    assert [] + (a + (b + (c + d))) == a + b + c + d;
  }

  /** The calls of the cross-track feed one at a time. */
  lemma CrossTrackSteps(format: AudioFormat)
    ensures var T := Timescale;
      var both := Readiness(true, true);
      && Apply(Init(format, 6), StartCalled) == Stepped(Init(format, 6).(status := Write), [])
      && Apply(Init(format, 6).(status := Write), Sampled(Sample(0, true, true), both))
         == Stepped(Started(format, Write, 0, 0), [Append(VideoTrack, 0), TimeChanged(0)])
      && Apply(Started(format, Write, 0, 0), Sampled(Sample(T, true, true), both))
         == Stepped(Started(format, Write, 0, T), [Append(VideoTrack, T), TimeChanged(T)])
      && Apply(Started(format, Write, 0, T), PauseCalled) == Stepped(Started(format, Pause, 0, T), [])
      && Apply(Started(format, Pause, 0, T), StartCalled) == Stepped(Started(format, Restart, 0, T), [])
      && Apply(Started(format, Restart, 0, T), Sampled(Sample(3 * T, false, true), both))
         == Stepped(Started(format, Write, 2 * T, 3 * T), [Append(AudioTrack, T), TimeChanged(T)])
      && Apply(Started(format, Write, 2 * T, 3 * T), Sampled(Sample(2_990_000_000, true, true), both))
         == Stepped(Started(format, Write, 2 * T, 2_990_000_000),
                    [Append(VideoTrack, 990_000_000), TimeChanged(990_000_000)])
  {
  }

  /** One pause, resumed by an audio sample at 3 s, then a video frame
      captured at 2.99 s: each track is in order, the merged feed is not. */
  function CrossTrackFeed(): seq<Input> {
    var both := Readiness(true, true);
    [ StartCalled,
      Sampled(Sample(0, true, true), both),
      Sampled(Sample(Timescale, true, true), both),
      PauseCalled, StartCalled,
      Sampled(Sample(3 * Timescale, false, true), both),
      Sampled(Sample(2_990_000_000, true, true), both) ]
  }
}
