/**
  The recording engine: a five-state machine that receives tagged audio/video
  sample buffers, decides when the output session may begin, rewrites every
  presentation timestamp so that paused intervals disappear from the output
  timeline, and finalizes the output exactly once when the recording limit is
  exceeded.

  The engine is an immutable record; every entry point is a pure function that
  returns the next record together with the list of effects it would have had
  on the container writer (appends, finalization) and on its delegate
  (elapsed-time notifications).
*/
module VideoWriter {
  import opened Wrappers

  /** Ticks per second of every presentation timestamp (the capture clock). */
  const Timescale: int := 1_000_000_000

  /** The recorder's own lifecycle. */
  datatype Status = Start | Write | Pause | Restart | End

  /** The container writer's lifecycle, as far as the engine inspects it. */
  datatype WriterStatus = Unknown | Writing | Completed

  /** Audio track settings taken from the first audio sample; carried opaquely. */
  datatype AudioFormat = AudioFormat(channels: nat, sampleRate: real)

  datatype Engine = Engine(
    status: Status,
    offsetTime: int,          // subtracted from every raw timestamp
    lastTime: Option<int>,    // raw timestamp of the last ready sample processed while writing
    recordingTime: int,       // the limit, in whole seconds
    writerStatus: WriterStatus,
    audioFormat: AudioFormat
  )

  /** One captured sample buffer, reduced to what the engine looks at. */
  datatype Sample = Sample(pts: int, isVideo: bool, dataReady: bool)

  /** Whether each track input currently accepts more media data. */
  datatype Readiness = Readiness(videoReady: bool, audioReady: bool)

  datatype Track = AudioTrack | VideoTrack

  datatype Effect =
    | Append(track: Track, pts: int)   // a retimed copy handed to a track input
    | Finalize                         // finishWriting and the finish notification
    | TimeChanged(elapsed: int)        // elapsed ticks reported to the delegate

  /** The only run-time failure of the engine: reading `lastTime` while it is nil. */
  datatype Fault = NilLastTime

  datatype StepResult =
    | Stepped(next: Engine, effects: seq<Effect>)
    | Trapped(fault: Fault)

  /** The cutoff `recordingTime` seconds, in ticks. */
  function Limit(e: Engine): int {
    e.recordingTime * Timescale
  }

  /** `RecodingTime()`: elapsed output time, i.e. raw last timestamp minus the offset. */
  function Elapsed(e: Engine): int
    requires e.lastTime.Some?
  {
    e.lastTime.value - e.offsetTime
  }

  function TrackOf(s: Sample): Track {
    if s.isVideo then VideoTrack else AudioTrack
  }

  predicate IsReady(ready: Readiness, t: Track) {
    match t
    case VideoTrack => ready.videoReady
    case AudioTrack => ready.audioReady
  }

  /** Number of finalizations among some effects. */
  function FinalizeCount(fx: seq<Effect>): nat {
    if |fx| == 0 then 0
    else (if fx[0] == Finalize then 1 else 0) + FinalizeCount(fx[1..])
  }

  lemma {:induction false} FinalizeFree(fx: seq<Effect>)
    requires Finalize !in fx
    ensures FinalizeCount(fx) == 0
  {
    if |fx| > 0 {
      FinalizeFree(fx[1..]);
    }
  }

  /** Structural facts every reachable engine satisfies: the writer session
      has started exactly when a sample has been written, and it is completed
      exactly when the recorder has ended. */
  predicate Coherent(e: Engine) {
    && (e.writerStatus == Unknown <==> e.lastTime.None?)
    && (e.writerStatus == Completed <==> e.status == End)
  }

  /** A freshly constructed engine. */
  function Init(format: AudioFormat, recordingTime: int): (e: Engine)
    ensures Coherent(e)
    ensures e.status == Start && e.writerStatus == Unknown
    ensures e.lastTime.None? && e.offsetTime == 0
    ensures e.recordingTime == recordingTime && e.audioFormat == format
  {
    Engine(Start, 0, None, recordingTime, Unknown, format)
  }

  /** `pause()`: only a writing recorder pauses. */
  function RequestPause(e: Engine): (r: Engine)
    ensures r.status == Pause <==> e.status == Write || e.status == Pause
    ensures r != e <==> e.status == Write
    ensures r == e.(status := r.status)
  {
    if e.status == Write then e.(status := Pause) else e
  }

  /** `start()`: begins a new recording or arms the offset correction after a pause. */
  function RequestStart(e: Engine): (r: Engine)
    ensures e.status == Start ==> r.status == Write
    ensures e.status == Pause ==> r.status == Restart
    ensures r != e <==> e.status == Start || e.status == Pause
    ensures r == e.(status := r.status)
  {
    if e.status == Start then e.(status := Write)
    else if e.status == Pause then e.(status := Restart)
    else e
  }

  /** The append of a retimed sample to the track its kind selects, dropped
      when that track input is not ready for more data. */
  function Deliver(s: Sample, ready: Readiness, pts: int): (fx: seq<Effect>)
    ensures |fx| == (if IsReady(ready, TrackOf(s)) then 1 else 0)
    ensures forall f :: f in fx ==> f == Append(TrackOf(s), pts)
  {
    if s.isVideo then
      (if ready.videoReady then [Append(VideoTrack, pts)] else [])
    else
      (if ready.audioReady then [Append(AudioTrack, pts)] else [])
  }

  /** `write(sampleBuffer:isVideo:)`. */
  function WriteSample(e: Engine, s: Sample, ready: Readiness): (r: StepResult)
    // discarded, with nothing changed, while not recording, and skipped
    // while recording when the sample's data is not ready
    ensures e.status in {Start, Pause, End} || (e.status == Write && !s.dataReady) ==> r == Stepped(e, [])
    // the only failure: resuming before any sample was ever written
    ensures r.Trapped? <==> e.status == Restart && e.lastTime.None?
    // the configuration is never touched
    ensures r.Stepped? ==> r.next.recordingTime == e.recordingTime && r.next.audioFormat == e.audioFormat
    // the transient Restart never survives a sample, and End is absorbing
    ensures r.Stepped? ==> r.next.status != Restart
    ensures r.Stepped? ==> (r.next.status == Pause <==> e.status == Pause)
    ensures r.Stepped? && e.status == End ==> r.next.status == End
    // one finalization exactly when the recorder ends here
    ensures r.Stepped? ==> FinalizeCount(r.effects) == (if e.status != End && r.next.status == End then 1 else 0)
    ensures r.Stepped? && Coherent(e) ==> Coherent(r.next)
  {
    if e.status == Start || e.status == End || e.status == Pause then
      Stepped(e, [])
    else if e.status == Restart && e.lastTime.None? then
      Trapped(NilLastTime)
    else
      // absorb the paused span into the offset
      var e1 :=
        if e.status == Restart then
          e.(offsetTime := e.offsetTime + (s.pts - e.lastTime.value), status := Write)
        else e;
      if !s.dataReady then
        Stepped(e1, [])
      else
        // the first video sample starts the session and becomes output time zero
        var e2 :=
          if s.isVideo && e1.writerStatus == Unknown then
            e1.(offsetTime := s.pts, writerStatus := Writing)
          else e1;
        if e2.writerStatus != Writing then
          Stepped(e2, [])
        else
          var adjusted := s.pts - e2.offsetTime;
          var e3 := e2.(lastTime := Some(s.pts));
          if Elapsed(e3) > Limit(e3) then
            Stepped(e3.(status := End, writerStatus := Completed), [Finalize])
          else
            var fx := Deliver(s, ready, adjusted) + [TimeChanged(Elapsed(e3))];
            FinalizeFree(fx);
            Stepped(e3, fx)
  }

  // ---------------------------------------------------------------------
  // Properties of single calls

  /** `RecodingTime()` is read only after `lastTime` has been set by the same
      call, and every elapsed value a call reports is `RecodingTime()` of the
      engine it leaves behind. */
  lemma ReportsElapsed(e: Engine, s: Sample, ready: Readiness)
    ensures var r := WriteSample(e, s, ready);
      r.Stepped? ==>
        forall t :: TimeChanged(t) in r.effects ==> r.next.lastTime.Some? && t == Elapsed(r.next)
  {
  }

  /** Repeated `pause()` calls change nothing after the first. */
  lemma PauseIdempotent(e: Engine)
    ensures RequestPause(RequestPause(e)) == RequestPause(e)
  {
  }

  /** Repeated `start()` calls change nothing after the first, so a second
      call cannot arm a second offset correction. */
  lemma StartIdempotent(e: Engine)
    ensures RequestStart(RequestStart(e)) == RequestStart(e)
  {
  }

  /** The first sample after resuming absorbs the paused span, measured from
      the last written sample, into the offset, whether or not its data is ready. */
  lemma ResumeAbsorbsPausedSpan(e: Engine, s: Sample, ready: Readiness)
    requires e.status == Restart && e.lastTime.Some?
    ensures var r := WriteSample(e, s, ready);
      && r.Stepped?
      && r.next.status in {Write, End}
      && (!s.dataReady ==>
            r == Stepped(e.(offsetTime := e.offsetTime + (s.pts - e.lastTime.value), status := Write), []))
      && (!(s.isVideo && e.writerStatus == Unknown) ==>
            r.next.offsetTime == e.offsetTime + (s.pts - e.lastTime.value))
  {
  }

  /** Pause invisibility: the first ready sample after resuming is stamped
      with the elapsed time reached before the pause, and the elapsed time
      does not move. */
  lemma PauseInvisible(e: Engine, s: Sample, ready: Readiness)
    requires Coherent(e) && e.status == Restart && e.writerStatus == Writing && s.dataReady
    ensures var r := WriteSample(e, s, ready);
      && r.Stepped?
      && (Elapsed(e) <= Limit(e) ==>
            && r.next.status == Write
            && r.effects == Deliver(s, ready, Elapsed(e)) + [TimeChanged(Elapsed(e))]
            && Elapsed(r.next) == Elapsed(e))
      && (Elapsed(e) > Limit(e) ==> r.effects == [Finalize])
  {
  }

  /** Until the first ready video sample starts the session, nothing reaches
      either track and no elapsed time is reported. */
  lemma NothingBeforeVideoAnchor(e: Engine, s: Sample, ready: Readiness)
    requires e.writerStatus == Unknown && e.status != Restart
    requires !(s.isVideo && s.dataReady)
    ensures WriteSample(e, s, ready) == Stepped(e, [])
  {
  }

  /** The first ready video sample re-bases the offset to its own timestamp,
      discarding any offset accumulated before, so it is stamped zero. */
  lemma VideoAnchorsTimeline(e: Engine, s: Sample, ready: Readiness)
    requires e.status == Write && e.writerStatus == Unknown && s.isVideo && s.dataReady
    ensures var r := WriteSample(e, s, ready);
      && r.Stepped?
      && r.next.offsetTime == s.pts
      && r.next.lastTime == Some(s.pts)
      && r.next.writerStatus != Unknown
      && (e.recordingTime >= 0 ==> r.effects == Deliver(s, ready, 0) + [TimeChanged(0)])
  {
  }

  /** While writing, a ready sample is stamped with its raw timestamp minus
      the offset, and the raw timestamp becomes `lastTime`. */
  lemma WritingRetimes(e: Engine, s: Sample, ready: Readiness)
    requires e.status == Write && e.writerStatus == Writing && s.dataReady
    ensures var r := WriteSample(e, s, ready);
      && r.Stepped?
      && r.next.lastTime == Some(s.pts)
      && r.next.offsetTime == e.offsetTime
      && Elapsed(r.next) == s.pts - e.offsetTime
      && forall f :: f in r.effects ==>
           f == Finalize || f == Append(TrackOf(s), s.pts - e.offsetTime) || f == TimeChanged(s.pts - e.offsetTime)
  {
  }

  /** Past the limit the sample ends the recording: one finalization, no
      append, no elapsed-time report. */
  lemma CutoffFinalizes(e: Engine, s: Sample, ready: Readiness)
    requires e.status == Write && e.writerStatus == Writing && s.dataReady
    requires s.pts - e.offsetTime > Limit(e)
    ensures WriteSample(e, s, ready)
         == Stepped(e.(lastTime := Some(s.pts), status := End, writerStatus := Completed), [Finalize])
  {
  }

  /** Within the limit the sample goes to its own track if that input is
      ready, and the elapsed time is reported either way. */
  lemma BelowLimitDelivers(e: Engine, s: Sample, ready: Readiness)
    requires e.status == Write && e.writerStatus == Writing && s.dataReady
    requires s.pts - e.offsetTime <= Limit(e)
    ensures var r := WriteSample(e, s, ready);
      var d := s.pts - e.offsetTime;
      && r.Stepped?
      && r.next.status == Write
      && r.effects == (if IsReady(ready, TrackOf(s)) then [Append(TrackOf(s), d)] else []) + [TimeChanged(d)]
  {
  }
}
