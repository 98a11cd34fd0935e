# Recording engine and sample router of AVCaptureVideoDataOutputSample_Concatenation

This project models, in Dafny, the core of an iOS recorder that joins
camera and microphone sample buffers into one movie. The recording can be
paused and resumed, and it stops on its own after a fixed number of seconds.
Two classes make up the core:

- **`VideoWriter`**, the recording engine. It has five statuses: `Start`,
  `Write`, `Pause`, `Restart` and `End`. It keeps three values:
  - `offsetTime`, the running offset subtracted from every presentation
    timestamp;
  - `lastTime`, the raw timestamp of the last ready sample processed while
    the session is writing. The sample that crosses the limit and a sample
    dropped by a busy input both move it, though neither is written;
  - `recordingTime`, the limit in seconds.

  `write(sampleBuffer:isVideo:)` does the following:
  - drops samples while not recording;
  - on resuming, absorbs the paused span into the offset;
  - waits for the first video sample, which starts the session and becomes
    output time zero;
  - stamps each later sample with its raw timestamp minus the offset;
  - past the limit, finalizes the file once and ends;
  - otherwise appends the sample to its track if that input is ready, and
    reports the elapsed time.

  `pause()` and `start()` are guarded status changes.
- **`Video`**, the router. It owns at most one engine. It builds the engine
  lazily from the stream format of the first audio sample and forwards every
  later sample to it. It relays `start()` and `pause()` and passes the
  engine's notifications to its owner. It drops the engine when the owner's
  completion handler runs.

The model is functional:

- An engine is an immutable record (`VideoWriter.Engine`). Every call is a
  pure function that returns the next record together with the effects the
  call causes on the outside world:
  - `Append(track, stamp)`, a buffer appended to an asset-writer input;
  - `Finalize`, `finishWriting` with the owner's `finishRecording`;
  - `TimeChanged(elapsed)`, `changeRecordingTime`.
- `AVAssetWriter.status` becomes the abstract `writerStatus`, one of
  `Unknown`, `Writing` or `Completed`.
- The readiness of the two writer inputs is a parameter of each call.
- Timestamps are integers on one capture clock of `Timescale` =
  1 000 000 000 ticks per second. The limit `CMTimeMake(recordingTime, 1)`
  becomes `recordingTime * Timescale`.
- The implicitly unwrapped `lastTime` is an `Option`. The nil dereference at
  `VideoWriter.swift` line 93 becomes the `Trapped(NilLastTime)` outcome:
  resuming before any sample was written. Timestamps are not given a
  default value.

The modules are:

- `Wrappers` holds `Option`.
- `VideoWriter` holds the engine, its three calls, and the facts about a
  single call.
- `WriterRuns` holds sequences of calls on one engine:
  - finalization happens exactly once, and nothing follows it;
  - `End` absorbs every later call;
  - control calls leave the timeline alone;
  - on a steady feed the output timeline never runs backwards. A steady
    feed has every sample's data ready and raw timestamps ordered across
    both tracks merged.
- `Video` holds the router, its runs, and the simulation between a router
  run and an engine run.
- `Scenario` holds a worked example, computed end to end: a
  six-second limit, a two-second pause and a cutoff.

Three behaviours of the source are modelled as written:

- `start()` on the router keeps returning `true` after the engine has ended,
  until the owner's completion handler runs. The engine is still present
  during that time.
- A sample whose data is not ready still consumes the `Restart`: it absorbs
  the paused span, but it does not move `lastTime`. If the recording is
  paused again before the next written sample, the next resume measures
  from the old `lastTime`, so the first pause is counted twice and the
  output timeline jumps back. `WriterRuns.SecondResumeRewinds` shows this on
  a concrete feed, where the stamps go 0, 0, 1 s, 1 s, 0, 0.
- Audio and video come from two separate capture outputs (Video.swift
  lines 56-72), each ordered only within its own track. After a resume, the
  first sample of either track absorbs the paused span up to its own
  timestamp. When an audio sample takes the resume, a video frame captured
  slightly before that audio is stamped earlier than the last video frame.
  `WriterRuns.CrossTrackRewinds` shows this: the video track is stamped 0,
  1 s, 0.99 s.

`WriterRuns.TimelineNonDecreasing` proves that the timeline never runs
backwards when every sample's data is ready and the raw timestamps are
ordered across both tracks merged.

## Model

| member | source | states |
|---|---|---|
| `VideoWriter.Init` | AVCaptureVideoDataOutputSample_Concatenation/VideoWriter.swift:28-45 | A new engine is in `Start` with a zero offset, no `lastTime` and no session. It keeps the limit and audio format it was built with, and its status bookkeeping is coherent. |
| `VideoWriter.RequestPause` | AVCaptureVideoDataOutputSample_Concatenation/VideoWriter.swift:142-146 | `pause()` changes the engine exactly when it is writing. Afterwards it is paused exactly when it was writing or paused. Only the status changes. |
| `VideoWriter.RequestStart` | AVCaptureVideoDataOutputSample_Concatenation/VideoWriter.swift:148-154 | `start()` moves `Start` to `Write` and `Pause` to `Restart`. It changes nothing in any other status, and only the status changes. |
| `VideoWriter.Deliver` | AVCaptureVideoDataOutputSample_Concatenation/VideoWriter.swift:128-136 | A retimed sample is appended exactly when the input of its own track is ready. It goes only to that track and carries the given stamp. |
| `VideoWriter.WriteSample` | AVCaptureVideoDataOutputSample_Concatenation/VideoWriter.swift:84-140 | In `Start`, `Pause` or `End` a sample changes nothing and has no effect. So does a sample whose data is not ready while the recorder is in `Write`. The only failure is a resume before any write (the nil `lastTime`). The limit and format never change, `Restart` never survives a sample, `End` is absorbing, and `Finalize` is emitted exactly when this sample ends the recording. The status bookkeeping stays coherent. |
| `VideoWriter.ReportsElapsed` | AVCaptureVideoDataOutputSample_Concatenation/VideoWriter.swift:80-82 | `RecodingTime()`, modelled by `VideoWriter.Elapsed`, is `lastTime − offsetTime`. It is defined only once `lastTime` is set, because the implicitly unwrapped `lastTime` would trap otherwise. Every elapsed value a call reports is read after that call has set `lastTime`, and it is `RecodingTime()` of the engine the call leaves behind. `WritingRetimes`, `PauseInvisible` and `StepKeepsTimeline` pin its values. |
| `VideoWriter.PauseIdempotent` | AVCaptureVideoDataOutputSample_Concatenation/VideoWriter.swift:142-146 | A second `pause()` changes nothing. |
| `VideoWriter.StartIdempotent` | AVCaptureVideoDataOutputSample_Concatenation/VideoWriter.swift:148-154 | A second `start()` changes nothing, so it cannot arm a second offset correction. |
| `VideoWriter.ResumeAbsorbsPausedSpan` | AVCaptureVideoDataOutputSample_Concatenation/VideoWriter.swift:91-98 | The first sample after resuming adds `pts − lastTime` to the offset and returns the engine to `Write` (or `End`). A sample whose data is not ready does this too, with no other change or effect. |
| `VideoWriter.PauseInvisible` | AVCaptureVideoDataOutputSample_Concatenation/VideoWriter.swift:91-117 | The first ready sample after resuming is stamped with the elapsed time reached before the pause, and the elapsed time stays where it was. If that time was already past the limit, the sample only finalizes. |
| `VideoWriter.NothingBeforeVideoAnchor` | AVCaptureVideoDataOutputSample_Concatenation/VideoWriter.swift:98-107 | Until the first ready video sample, no sample changes the engine or reaches any track, and no elapsed time is reported. |
| `VideoWriter.VideoAnchorsTimeline` | AVCaptureVideoDataOutputSample_Concatenation/VideoWriter.swift:101-118 | The first ready video sample starts the session and overwrites the offset with its own timestamp, so it is stamped 0 and reports elapsed 0. |
| `VideoWriter.WritingRetimes` | AVCaptureVideoDataOutputSample_Concatenation/VideoWriter.swift:107-117 | While writing, a ready sample keeps the offset and records its raw timestamp as `lastTime`. Every stamp or elapsed value it produces is `pts − offsetTime`. |
| `VideoWriter.CutoffFinalizes` | AVCaptureVideoDataOutputSample_Concatenation/VideoWriter.swift:117-126 | A sample past the limit records its timestamp, ends the recording and emits only `Finalize`. It is neither appended nor reported. |
| `VideoWriter.BelowLimitDelivers` | AVCaptureVideoDataOutputSample_Concatenation/VideoWriter.swift:127-137 | A sample within the limit keeps the engine writing. It is appended to its own track if that input is ready, and the elapsed time is reported either way. |
| `WriterRuns.Run` | AVCaptureVideoDataOutputSample_Concatenation/VideoWriter.swift:84-154 | Over any sequence of calls the limit and audio format are never changed, and the status bookkeeping stays coherent. |
| `WriterRuns.EndAbsorbs` | AVCaptureVideoDataOutputSample_Concatenation/VideoWriter.swift:86-88 | Once ended, no sequence of calls changes the engine or has any effect. |
| `WriterRuns.FinalizeExactlyOnce` | AVCaptureVideoDataOutputSample_Concatenation/VideoWriter.swift:117-126 | A run emits one `Finalize` if it ends an engine that had not ended, and none otherwise. |
| `WriterRuns.FinalizeIsLast` | AVCaptureVideoDataOutputSample_Concatenation/VideoWriter.swift:117-126 | In any run that finalizes, `Finalize` is the last effect. |
| `WriterRuns.ControlsKeepTimeline` | AVCaptureVideoDataOutputSample_Concatenation/VideoWriter.swift:142-154 | Any number of `pause()`/`start()` calls leave the offset, `lastTime` and session state unchanged and have no effect. They neither end nor revive a recording. |
| `WriterRuns.ResumeBeforeAnchorTraps` | AVCaptureVideoDataOutputSample_Concatenation/VideoWriter.swift:91-94 | start, audio only, pause, start, then any sample reaches the nil `lastTime` dereference. |
| `WriterRuns.StepKeepsTimeline` | AVCaptureVideoDataOutputSample_Concatenation/VideoWriter.swift:107-137 | On a ready sample with a non-decreasing raw timestamp, or a control call, the elapsed time does not decrease. Every stamp the call produces equals the elapsed time reached. |
| `WriterRuns.TimelineNonDecreasing` | AVCaptureVideoDataOutputSample_Concatenation/VideoWriter.swift:107-137 | When every sample is ready and raw timestamps never go backwards across both tracks merged, the output stamps of a run never decrease and never fall below the elapsed time already reached. |
| `WriterRuns.CrossTrackRewinds` | AVCaptureVideoDataOutputSample_Concatenation/VideoWriter.swift:91-117 | With each track ordered on its own, the resume can be taken by audio at 3 s, after video at 0 and 1 s and a pause. A video frame captured at 2.99 s is then stamped 0.99 s, after a frame stamped 1 s, and the reported elapsed time drops. |
| `WriterRuns.SecondResumeRewinds` | AVCaptureVideoDataOutputSample_Concatenation/VideoWriter.swift:91-98 | A resume consumed by a sample whose data is not ready, followed by a second pause, counts the first pause twice. The output stamps go 0, 0, 1 s, 1 s, 0, 0. |
| `Video.Setup` | AVCaptureVideoDataOutputSample_Concatenation/Video.swift:37-39 | Setup keeps the limit and has no engine yet. |
| `Video.Start` | AVCaptureVideoDataOutputSample_Concatenation/Video.swift:90-96 | `start()` returns true exactly when an engine exists. Without one it changes nothing; with one it forwards `start()` to it. |
| `Video.Pause` | AVCaptureVideoDataOutputSample_Concatenation/Video.swift:98-100 | `pause()` is a no-op without an engine and forwards to the engine otherwise. |
| `Video.CaptureOutput` | AVCaptureVideoDataOutputSample_Concatenation/Video.swift:102-121 | Without an engine, an engine is built exactly for an audio sample with a readable format. It is built from that format and the remembered limit, and it ignores that first sample. With an engine, the sample goes to it with its kind tag and no new engine is built. The router crashes exactly when the engine traps. |
| `Video.Notify` | AVCaptureVideoDataOutputSample_Concatenation/Video.swift:123-133 | The owner hears exactly the engine's elapsed values, unchanged and in order. It hears one finish per finalization, and the finish comes last when the engine's last effect is `Finalize`. |
| `Video.CompletionHandler` | AVCaptureVideoDataOutputSample_Concatenation/Video.swift:128-133 | The completion handler drops the engine and keeps the limit. |
| `Video.FreshAfterCompletion` | AVCaptureVideoDataOutputSample_Concatenation/Video.swift:105-119 | After the completion handler, the next audio sample with a readable format builds a fresh engine in its initial state, and that engine ignores the sample. |
| `Video.RouterForwardsToEngine` | AVCaptureVideoDataOutputSample_Concatenation/Video.swift:118-120 | Once an engine exists and until a completion, a router run is exactly the engine's run on the same calls. It has the same next engine, the same effects and the same traps. |
| `Video.FinalizeOncePerEngine` | AVCaptureVideoDataOutputSample_Concatenation/Video.swift:129-133 | A router run finalizes at most once more than the number of completions. With no completion, it finalizes exactly when it ends the current recording. |
| `Video.NoEngineBeforeAudioFormat` | AVCaptureVideoDataOutputSample_Concatenation/Video.swift:104-116 | Until an audio sample with a readable format arrives, video is dropped, `start()`/`pause()` do nothing, and no engine is built. |
| `Scenario.ExampleRecording` | AVCaptureVideoDataOutputSample_Concatenation/VideoWriter.swift:84-154 | A worked example with a 6 s limit. Audio arrives before the video anchor at 0.5 s, and a 2 s pause follows. The sample at 3.0 s lands at 0.5 s, video at 8.6 s finalizes once, and later audio leaves no trace. The owner hears 0, 0.05 s, 0.5 s and 0.5 s, then one finish. |

## Left out

- `Video.setup` beyond storing the limit (Video.swift:41-87): capture devices, session, outputs, preview layer and dispatch queues. These are foreign AVFoundation calls.
- `VideoWriter.init` beyond storing the limit and audio format (VideoWriter.swift:47-77): file path, file removal, asset-writer and input construction, codec settings, height and width. These are file I/O and library configuration.
- The asynchronous `finishWriting` completion and its main-queue dispatch (VideoWriter.swift:119-123) collapse into the single `Finalize` effect. Concurrency is not modelled.
- `CMSampleBuffer` timing copies (VideoWriter.swift:110-115) are reduced to the rewritten stamp. A failed copy (`copyBuffer!` on nil) is not modelled.
- A nil `writer` from `try?` (VideoWriter.swift:56) is not modelled. Neither is the `.failed` writer status, which the model never enters.
- Timestamps are unbounded integers on one clock. `CMTime`'s 64-bit overflow, its mixed-timescale arithmetic and its invalid or indefinite times are not modelled.
- The elapsed value reported to the owner (`RecodingTime().value`) is counted in ticks of that clock.
- The `Float64` sample rate is carried as a `real` and only passed through. The channel count is a `nat`.
- The owner's delegate is assumed to be present. Without it, `finishRecording` never reaches the owner, so the completion handler that releases the engine (Video.swift:130-132) never runs. The ended engine would then stay in place, and no later audio sample would build a new one.
- The commented-out frame-counter alternative (VideoWriter.swift:157-168) is not modelled.
- `ViewController.swift` is UI and Photos-library code and is not part of this model.
- `WriterRuns.TimelineNonDecreasing`: only covers feeds in which every sample's data is ready and the raw timestamps are ordered across both tracks merged in arrival order. Both restrictions are needed. A not-ready sample that consumes a resume leaves `lastTime` behind (see `WriterRuns.SecondResumeRewinds`). The two capture outputs are each ordered only within their own track, and a resume taken by one track can rewind the other (see `WriterRuns.CrossTrackRewinds`).
- `VideoWriter.VideoAnchorsTimeline`: states the zero stamp only for a non-negative limit. With a negative limit, the anchoring sample is already past it and only finalizes.
