/**
  The sample router: owns at most one recording engine, builds it lazily
  from the first audio sample whose stream format can be read, forwards every
  sample to it once it exists, relays `start()`/`pause()`, relays the
  engine's notifications to its own owner, and drops the engine when the
  owner's completion handler runs.
*/
module Video {
  import opened Wrappers
  import W = VideoWriter
  import WriterRuns

  datatype Router = Router(writer: Option<W.Engine>, recordingTime: int)

  datatype Outcome =
    | Routed(router: Router, effects: seq<W.Effect>)
    | Crashed(fault: W.Fault)

  /** What the owner hears: `changeRecordingTime(s:)` and `finishRecording`. */
  datatype Notice = RecordingTimeChanged(s: int) | RecordingFinished

  /** The part of `setup` the core depends on: remembering the limit. */
  function Setup(recordingTime: int): (r: Router)
    ensures r.writer.None? && r.recordingTime == recordingTime
  {
    Router(None, recordingTime)
  }

  /** `start()`: false, with nothing changed, while there is no engine. */
  function Start(r: Router): (res: (Router, bool))
    ensures res.1 <==> r.writer.Some?
    ensures !res.1 ==> res.0 == r
    ensures res.1 ==> res.0 == r.(writer := Some(W.RequestStart(r.writer.value)))
  {
    match r.writer
    case Some(e) => (r.(writer := Some(W.RequestStart(e))), true)
    case None => (r, false)
  }

  /** `pause()`: a no-op while there is no engine. */
  function Pause(r: Router): (r': Router)
    ensures r.writer.None? ==> r' == r
    ensures r.writer.Some? ==> r' == r.(writer := Some(W.RequestPause(r.writer.value)))
  {
    match r.writer
    case Some(e) => r.(writer := Some(W.RequestPause(e)))
    case None => r
  }

  /** `captureOutput(_:didOutputSampleBuffer:from:)`. `format` is the audio
      stream description of the buffer, None when it cannot be read. */
  function CaptureOutput(r: Router, s: W.Sample, format: Option<W.AudioFormat>, ready: W.Readiness): (o: Outcome)
    ensures o.Routed? ==> o.router.recordingTime == r.recordingTime
    // no engine yet: only an audio sample with a readable format builds one,
    // from that format and the remembered limit, and the new engine ignores it
    ensures r.writer.None? ==>
      && o.Routed?
      && o.effects == []
      && (o.router.writer.Some? <==> !s.isVideo && format.Some?)
      && (o.router.writer.Some? ==> o.router.writer.value == W.Init(format.value, r.recordingTime))
    // an engine exists: the sample goes to it with its kind, and no other engine is built
    ensures r.writer.Some? ==>
      var step := W.WriteSample(r.writer.value, s, ready);
      && (o.Crashed? <==> step.Trapped?)
      && (o.Routed? ==> o.router.writer == Some(step.next) && o.effects == step.effects)
  {
    var r1 :=
      if r.writer.None? && !s.isVideo && format.Some? then
        r.(writer := Some(W.Init(format.value, r.recordingTime)))
      else r;
    match r1.writer
    case None => Routed(r1, [])
    case Some(e) =>
      match W.WriteSample(e, s, ready)
      case Trapped(f) => Crashed(f)
      case Stepped(e', fx) => Routed(r1.(writer := Some(e')), fx)
  }

  /** The elapsed values an engine reports, in order. */
  function ElapsedValues(fx: seq<W.Effect>): seq<int> {
    if |fx| == 0 then []
    else (if fx[0].TimeChanged? then [fx[0].elapsed] else []) + ElapsedValues(fx[1..])
  }

  /** The elapsed values the owner hears, in order. */
  function Heard(ns: seq<Notice>): seq<int> {
    if |ns| == 0 then []
    else (if ns[0].RecordingTimeChanged? then [ns[0].s] else []) + Heard(ns[1..])
  }

  function Finishes(ns: seq<Notice>): nat {
    if |ns| == 0 then 0
    else (if ns[0] == RecordingFinished then 1 else 0) + Finishes(ns[1..])
  }

  /** `changeRecordingTime(s:)` and `finishRecording(fileUrl:)` relayed to the
      owner: the owner hears exactly the engine's elapsed values, unchanged
      and in order, and one finish per finalization; appends stay inside the
      container. */
  function Notify(fx: seq<W.Effect>): (ns: seq<Notice>)
    ensures Heard(ns) == ElapsedValues(fx)
    ensures Finishes(ns) == W.FinalizeCount(fx)
    // a finish that ends the engine's effects is the last thing the owner hears
    ensures |fx| > 0 && fx[|fx| - 1] == W.Finalize ==> |ns| > 0 && ns[|ns| - 1] == RecordingFinished
  {
    if |fx| == 0 then []
    else
      var tail := Notify(fx[1..]);
      assert |fx| > 1 ==> fx[1..][|fx| - 2] == fx[|fx| - 1];
      match fx[0]
      case TimeChanged(t) =>
        assert ([RecordingTimeChanged(t)] + tail)[1..] == tail;
        [RecordingTimeChanged(t)] + tail
      case Finalize =>
        assert ([RecordingFinished] + tail)[1..] == tail;
        [RecordingFinished] + tail
      case Append(_, _) => tail
  }

  /** Relaying keeps the order of notifications across consecutive batches. */
  lemma {:induction false} NotifyAppend(a: seq<W.Effect>, b: seq<W.Effect>)
    ensures Notify(a + b) == Notify(a) + Notify(b)
  {
    if |a| == 0 {
      assert a + b == b;
    } else {
      assert (a + b)[1..] == a[1..] + b;
      NotifyAppend(a[1..], b);
    }
  }

  /** The completion handler given to the owner with `finishRecording`. */
  function CompletionHandler(r: Router): (r': Router)
    ensures r'.writer.None? && r'.recordingTime == r.recordingTime
  {
    r.(writer := None)
  }

  /** After the completion handler, the next audio sample with a readable
      format builds a fresh engine, in its initial state. */
  lemma FreshAfterCompletion(r: Router, s: W.Sample, format: W.AudioFormat, ready: W.Readiness)
    requires !s.isVideo
    ensures CaptureOutput(CompletionHandler(r), s, Some(format), ready)
         == Routed(Router(Some(W.Init(format, r.recordingTime)), r.recordingTime), [])
  {
  }

  // ---------------------------------------------------------------------
  // Runs of the router

  datatype Event =
    | Captured(sample: W.Sample, format: Option<W.AudioFormat>, ready: W.Readiness)
    | StartCalled
    | PauseCalled
    | CompletionRan

  function Handle(r: Router, ev: Event): Outcome {
    match ev
    case Captured(s, format, ready) => CaptureOutput(r, s, format, ready)
    case StartCalled => Routed(Start(r).0, [])
    case PauseCalled => Routed(Pause(r), [])
    case CompletionRan => Routed(CompletionHandler(r), [])
  }

  function RouterRun(r: Router, events: seq<Event>): (o: Outcome)
    ensures o.Routed? ==> o.router.recordingTime == r.recordingTime
    decreases |events|
  {
    if |events| == 0 then Routed(r, [])
    else
      match Handle(r, events[0])
      case Crashed(f) => Crashed(f)
      case Routed(r1, fx1) =>
        match RouterRun(r1, events[1..])
        case Crashed(f) => Crashed(f)
        case Routed(r2, fx2) => Routed(r2, fx1 + fx2)
  }

  /** The engine call an event amounts to once the engine exists. */
  function ToInput(ev: Event): WriterRuns.Input
    requires !ev.CompletionRan?
  {
    match ev
    case Captured(s, _, ready) => WriterRuns.Sampled(s, ready)
    case StartCalled => WriterRuns.StartCalled
    case PauseCalled => WriterRuns.PauseCalled
  }

  predicate NoCompletion(events: seq<Event>) {
    forall k :: 0 <= k < |events| ==> !events[k].CompletionRan?
  }

  function Project(events: seq<Event>): (inputs: seq<WriterRuns.Input>)
    requires NoCompletion(events)
    ensures |inputs| == |events|
    ensures forall k :: 0 <= k < |events| ==> inputs[k] == ToInput(events[k])
  {
    seq(|events|, k requires 0 <= k < |events| => ToInput(events[k]))
  }

  /** Once an engine exists, and until the completion handler drops it, the
      router is exactly that engine: every sample reaches it with its kind
      tag, no second engine is built, and the engine's effects are the
      router's. */
  lemma {:induction false} RouterForwardsToEngine(r: Router, events: seq<Event>)
    requires r.writer.Some? && NoCompletion(events)
    ensures var o := RouterRun(r, events);
      var w := WriterRuns.Run(r.writer.value, Project(events));
      && (o.Crashed? <==> w.Trapped?)
      && (o.Routed? ==> o.router == r.(writer := Some(w.next)) && o.effects == w.effects)
    decreases |events|
  {
    if |events| > 0 {
      var inputs := Project(events);
      assert Project(events[1..]) == inputs[1..];
      var h := Handle(r, events[0]);
      assert h.Crashed? <==> WriterRuns.Apply(r.writer.value, inputs[0]).Trapped?;
      if h.Routed? {
        assert h.router == r.(writer := Some(WriterRuns.Apply(r.writer.value, inputs[0]).next));
        RouterForwardsToEngine(h.router, events[1..]);
      }
    }
  }

  /** 1 while the current engine may still finalize, 0 once it has ended. */
  function RouterBudget(r: Router): nat {
    if r.writer.Some? && r.writer.value.status == W.End then 0 else 1
  }

  function Completions(events: seq<Event>): nat
    decreases |events|
  {
    if |events| == 0 then 0
    else (if events[0].CompletionRan? then 1 else 0) + Completions(events[1..])
  }

  /** Finalization happens at most once per engine: a run finalizes at most
      once more than the number of engines the completion handler released,
      and with no release it finalizes exactly when it ends the current
      recording. */
  lemma {:induction false} FinalizeOncePerEngine(r: Router, events: seq<Event>)
    ensures var o := RouterRun(r, events);
      o.Routed? ==>
        && W.FinalizeCount(o.effects) + RouterBudget(o.router) <= RouterBudget(r) + Completions(events)
        && (Completions(events) == 0 ==> W.FinalizeCount(o.effects) + RouterBudget(o.router) == RouterBudget(r))
    decreases |events|
  {
    if |events| > 0 {
      var h := Handle(r, events[0]);
      if h.Routed? {
        assert W.FinalizeCount(h.effects) + RouterBudget(h.router) <= RouterBudget(r) + (if events[0].CompletionRan? then 1 else 0);
        assert !events[0].CompletionRan? ==> W.FinalizeCount(h.effects) + RouterBudget(h.router) == RouterBudget(r);
        FinalizeOncePerEngine(h.router, events[1..]);
        var o2 := RouterRun(h.router, events[1..]);
        if o2.Routed? {
          WriterRuns.FinalizeCountAppend(h.effects, o2.effects);
        }
      }
    }
  }

  /** An event that cannot build an engine: anything but audio with a readable format or a completion. */
  predicate CannotBuild(ev: Event) {
    match ev
    case Captured(s, format, _) => s.isVideo || format.None?
    case CompletionRan => false
    case _ => true
  }

  /** While waiting for the first audio format, video samples are dropped,
      unreadable audio is dropped, `start()`/`pause()` do nothing, and no
      engine is built. */
  lemma {:induction false} NoEngineBeforeAudioFormat(r: Router, events: seq<Event>)
    requires r.writer.None?
    requires forall k :: 0 <= k < |events| ==> CannotBuild(events[k])
    ensures RouterRun(r, events) == Routed(r, [])
    decreases |events|
  {
    if |events| > 0 {
      NoEngineBeforeAudioFormat(r, events[1..]);
    }
  }

  /** Running two batches of events one after the other is running them together. */
  lemma {:induction false} RouterRunSnoc(r: Router, events: seq<Event>, ev: Event)
    ensures RouterRun(r, events + [ev]) ==
      match RouterRun(r, events)
      case Crashed(f) => Crashed(f)
      case Routed(r1, fx1) =>
        match Handle(r1, ev)
        case Crashed(f) => Crashed(f)
        case Routed(r2, fx2) => Routed(r2, fx1 + fx2)
    decreases |events|
  {
    if |events| == 0 {
      assert events + [ev] == [ev];
      assert RouterRun(r, [ev][1..]) == Routed(r, []) by { assert [ev][1..] == []; }
      match Handle(r, ev)
      case Crashed(f) =>
      case Routed(r2, fx2) => assert [] + fx2 == fx2; assert fx2 + [] == fx2;
    } else {
      assert (events + [ev])[1..] == events[1..] + [ev];
      match Handle(r, events[0])
      case Crashed(f) =>
      case Routed(r1, fx1) =>
        RouterRunSnoc(r1, events[1..], ev);
        match RouterRun(r1, events[1..])
        case Crashed(f) =>
        case Routed(r2, fx2) =>
          match Handle(r2, ev)
          case Crashed(f) =>
          case Routed(r3, fx3) => assert fx1 + (fx2 + fx3) == (fx1 + fx2) + fx3;
    }
  }
}
