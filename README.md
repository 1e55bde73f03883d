# KWSExample in Dafny

KWSExample is an Android app for voice wake-up. The sherpa-onnx keyword spotter listens to
the microphone and reports a keyword such as "x iǎo ān x iǎo ān" when it hears it. A screen
shows each detection, with a history of the last 20. An audio utility moves 60 ms PCM
frames through the Opus codec, both for capture and for playback.

This project models the sequential, stateful core of the app and proves properties of it:

- `pcm.dfy` (module `Pcm`): Kotlin `Byte`/`Short` as `int8`/`int16`, little-endian sample
  reading and writing, the 960-sample frame the encoder is always given, and the rule that
  decides which encoded frames are never decoded.
- `audio.dfy` (module `Audio`): the `AudioUtil` object.
  - Opus encoding and decoding, over arrays and loops as in the source.
  - The capture loop that frames microphone reads for the encoder.
  - Codec and device initialisation, the recording and playback flags, the codec self-test
    and disposal.
- `effects.dfy` (module `Effects`): the `AudioProcessor` that attaches echo cancellation
  (AEC) and noise suppression (NS) to a capture session, and its status text.
- `wakeup.dfy` (module `Wakeup`): the `KeywordWakeupService`.
  - Engine initialisation, the listening lifecycle, keywords, threshold and release.
  - The processing loop that feeds audio to the engine, and the loop that drains the
    engine's results and calls back.
- `viewmodel.dfy` (module `ViewModel`):
  - `KwsUiState` and one pure transition per view-model action.
  - The reachable-state invariant on the detection history.
  - A thin `KwsViewModel` class whose methods overwrite its state.
- `completer.dfy` (module `Async`): the single-assignment `Completer`.
- `wrappers.dfy`: `Option`, which stands for Kotlin's nullable values, and `Outcome`, for a
  call that may throw.

The foreign components are oracles. Each is an object that answers its calls from a script
fixed when it is built, and keeps a log of what it was given:

- `Opus.OpusEncoder` and `Opus.OpusDecoder` stand for Concentus. They write the scripted
  reply into the caller's buffer, and throw when the reply does not fit.
- `Devices.AudioRecord` and `Devices.AudioTrack` stand for the Android audio devices.
- `Effects.AudioEffect` stands for `AcousticEchoCanceler` and `NoiseSuppressor`.
- `Spotter.KeywordSpotter` and `Spotter.OnlineStream` stand for sherpa-onnx. A stream
  buffers the results the engine is ready to decode, and `release()` zeroes its native
  pointer.

A platform constructor that may throw becomes a nullable parameter, where null means it
threw. A permission check, a model lookup or an effect's `create` becomes a parameter that
gives its outcome. The wake-up callback is recorded in the service's `trace`.

## Model

| member | source | states |
|---|---|---|
| Pcm.ShortOfBytes | app/src/main/java/com/dream/kwsexample/service/AudioUtil.kt:518-521 | reading back the two little-endian bytes `putShort` writes for a sample gives that sample |
| Pcm.BytesOfShort | app/src/main/java/com/dream/kwsexample/service/AudioUtil.kt:359-363 | splitting a sample read from two little-endian bytes gives those two bytes back |
| Pcm.LeSamplesAt | app/src/main/java/com/dream/kwsexample/service/AudioUtil.kt:359-363 | an n-byte input is read as n/2 samples, and sample i is the little-endian short of bytes 2i and 2i+1 |
| Pcm.TrailingByteIgnored | app/src/main/java/com/dream/kwsexample/service/AudioUtil.kt:359-363 | an odd trailing byte does not change the samples read |
| Pcm.SamplesOfBytes | app/src/main/java/com/dream/kwsexample/service/AudioUtil.kt:518-521 | reading samples from their little-endian serialisation gives the samples back |
| Pcm.BytesOfSamples | app/src/main/java/com/dream/kwsexample/service/AudioUtil.kt:359-363 | serialising the samples read from a byte array gives the array back, minus an odd trailing byte |
| Pcm.EncoderFrameShape | app/src/main/java/com/dream/kwsexample/service/AudioUtil.kt:366-388 | the encoder always gets exactly 960 samples: the first min(n/2, 960) input samples, then zeros; short input is padded and long input cut, never rejected |
| Pcm.CapturedFrameIsNotCut | app/src/main/java/com/dream/kwsexample/service/AudioUtil.kt:375-381 | a frame of at most 1920 bytes is padded, never cut: all of its samples reach the encoder |
| Pcm.ScreenedFrameRule | app/src/main/java/com/dream/kwsexample/service/AudioUtil.kt:482-505 | a 120-byte frame is skipped exactly when it is all zeros or has no non-zero byte among its first four |
| Pcm.SkippedLengthAlwaysSkips | app/src/main/java/com/dream/kwsexample/service/AudioUtil.kt:475-479 | every 960-byte frame is skipped, whatever its content |
| Pcm.OtherLengthsPass | app/src/main/java/com/dream/kwsexample/service/AudioUtil.kt:462-506 | frames whose length is not 0, 960 or 120 are never screened out |
| Audio.EncodedFrameBounds | app/src/main/java/com/dream/kwsexample/service/AudioUtil.kt:390-400 | the encoder's result is returned exactly when it has 1 to 4000 bytes, and it then fits the 4000-byte buffer |
| Audio.DecodedPcmShape | app/src/main/java/com/dream/kwsexample/service/AudioUtil.kt:508-526 | a decode result exists exactly when the decoder produced 1 to 1920 samples; it is then 2 x decodedSamples bytes and reads back, little-endian, as those samples |
| Audio.SilentInputFrame | app/src/main/java/com/dream/kwsexample/service/AudioUtil.kt:654-658 | an all-zero PCM input of at least one frame, such as the self-test's second of silence, reaches the encoder as 960 zero samples |
| Audio.CapturedFramesFit | app/src/main/java/com/dream/kwsexample/service/AudioUtil.kt:298-310 | every frame the capture loop hands on is non-empty and at most 1920 bytes (960 samples), so the cutting branch never fires from capture |
| Audio.AudioUtil.constructor | app/src/main/java/com/dream/kwsexample/service/AudioUtil.kt:69-82 | no devices or codecs, not recording, not playing, nothing emitted |
| Audio.AudioUtil.InitOpusCodecs | app/src/main/java/com/dream/kwsexample/service/AudioUtil.kt:87-106 | a built encoder replaces the field and a built decoder then replaces its field; a throwing encoder leaves both fields; the exception is swallowed |
| Audio.AudioUtil.InitRecorder | app/src/main/java/com/dream/kwsexample/service/AudioUtil.kt:111-143 | fails, changing nothing, without the permission or when the device cannot be built; otherwise keeps the device and initialises the codecs |
| Audio.AudioUtil.InitAudioTrack | app/src/main/java/com/dream/kwsexample/service/AudioUtil.kt:194-240 | the field takes the built track, and a failing build rethrows with the field kept |
| Audio.AudioUtil.InitPlayer | app/src/main/java/com/dream/kwsexample/service/AudioUtil.kt:245-282 | the old track is released; a failed build rethrows with the released track and the codecs kept; otherwise the new track and the codecs are installed |
| Audio.AudioUtil.PreInitializeAudio | app/src/main/java/com/dream/kwsexample/service/AudioUtil.kt:148-168 | the codecs are built only when there is no decoder, and a track only when there is none; when there is no decoder and the encoder constructor throws, the old encoder is kept and there is still no decoder |
| Audio.AudioUtil.WarmUpAudioTrack | app/src/main/java/com/dream/kwsexample/service/AudioUtil.kt:173-189 | a stopped track gets 1024 zero bytes and is started; a playing one is untouched; the playing flag never changes |
| Audio.AudioUtil.WarmUpAudioTrackCorrected | app/src/main/java/com/dream/kwsexample/service/AudioUtil.kt:173-189 | the same warm-up, and it sets the playing flag when it starts the track, so a playing track is always flagged |
| Audio.AudioUtil.StartRecording | app/src/main/java/com/dream/kwsexample/service/AudioUtil.kt:288-325 | a no-op while recording; an uninitialised device rethrows with the flag clear; otherwise the device records and the flag is set |
| Audio.AudioUtil.StopRecording | app/src/main/java/com/dream/kwsexample/service/AudioUtil.kt:330-340 | a no-op when not recording; otherwise the flag clears and the device stops |
| Audio.AudioUtil.EncodeToOpus | app/src/main/java/com/dream/kwsexample/service/AudioUtil.kt:346-401 | null without an encoder or for empty input; otherwise the encoder receives exactly the 960-sample frame of the input, and the result is the first encodedBytes bytes of the 4000-byte buffer, or null for a zero count or an exception |
| Audio.AudioUtil.DecodeFromOpus | app/src/main/java/com/dream/kwsexample/service/AudioUtil.kt:462-538 | null without a decoder and for every screened frame (decoder untouched); otherwise the decoder receives the frame, and the result is its samples as little-endian bytes, or null for zero samples or an exception |
| Audio.AudioUtil.WriteSamples | app/src/main/java/com/dream/kwsexample/service/AudioUtil.kt:518-522 | the little-endian buffer filled with the first `count` decoded samples is their little-endian serialisation `LeBytes`, which `Pcm.SamplesOfBytes` reads back as those samples |
| Audio.AudioUtil.CaptureOnce | app/src/main/java/com/dream/kwsexample/service/AudioUtil.kt:304-312 | one read; for a non-empty one, a copy of exactly the bytes read is encoded, the encoder takes exactly one reply, and exactly the frame that reply yields (none when it is empty, too long or an error) is published; an empty read publishes nothing and leaves the encoder's replies alone |
| Audio.AudioUtil.CaptureLoop | app/src/main/java/com/dream/kwsexample/service/AudioUtil.kt:298-318 | while recording, the frames handed on are exactly one per non-empty read, each a copy of the bytes read; the encoder receives exactly their 960-sample frames and takes one reply per frame; what is published is exactly the frames those replies yield, in order (nothing without an encoder); every published frame has 1 to 4000 bytes |
| Audio.PublishedFramesFit | app/src/main/java/com/dream/kwsexample/service/AudioUtil.kt:304-312 | every frame the capture loop publishes for a run of encoder replies has 1 to 4000 bytes |
| Audio.AudioUtil.PlayPcmData | app/src/main/java/com/dream/kwsexample/service/AudioUtil.kt:545-590 | opens a track when there is none (giving up if that fails), starts it and sets the playing flag when it is not playing, then writes the whole chunk; a playing track stays flagged |
| Audio.AudioUtil.PlayOpusData | app/src/main/java/com/dream/kwsexample/service/AudioUtil.kt:407-456 | builds the codecs when there is no decoder and gives up without one; empty and screened data play nothing; otherwise the decoder receives the data and the track is given exactly the decoded PCM, if any |
| Audio.AudioUtil.StopPlaying | app/src/main/java/com/dream/kwsexample/service/AudioUtil.kt:595-607 | a no-op when not playing; otherwise the flag clears and the track stops |
| Audio.AudioUtil.TestOpusCodec | app/src/main/java/com/dream/kwsexample/service/AudioUtil.kt:648-684 | false when a codec is missing afterwards; for the codecs actually in use (the new ones, or the old ones a throwing constructor leaves in place) the encoder receives 960 zero samples, and the result is true exactly when encoding returns data that is not screened and decodes to something |
| Audio.AudioUtil.Dispose | app/src/main/java/com/dream/kwsexample/service/AudioUtil.kt:722-741 | both flags clear, both devices are released, and every handle is dropped |
| Audio.WarmUpThenStop | app/src/main/java/com/dream/kwsexample/service/AudioUtil.kt:173-189 | as written, a warmed-up track is still playing after stopPlaying |
| Audio.WarmUpThenStopCorrected | app/src/main/java/com/dream/kwsexample/service/AudioUtil.kt:595-607 | with the corrected warm-up, stopPlaying stops the track |
| Effects.EffectStatusMeaning | app/src/main/java/com/dream/kwsexample/service/AudioProcessor.kt:114-124 | an effect's status word is "not supported" when unavailable, whatever the flag, and otherwise follows the flag; two words agree exactly when availability agrees and, if available, the flag agrees |
| Effects.StatusInfoMeaning | app/src/main/java/com/dream/kwsexample/service/AudioProcessor.kt:110-127 | two status texts are equal exactly when both effects agree on availability and, where available, on the enabled flag |
| Effects.AudioProcessor.constructor | app/src/main/java/com/dream/kwsexample/service/AudioProcessor.kt:11-21 | both enabled flags start false and no effect instance exists |
| Effects.AudioProcessor.Initialize | app/src/main/java/com/dream/kwsexample/service/AudioProcessor.kt:26-59 | an effect's flag becomes true exactly when it is available and `create` returns an instance, which is enabled; a null result leaves the flag; a throwing AEC `create` ends initialisation before NS |
| Effects.AudioProcessor.SetAecEnabled | app/src/main/java/com/dream/kwsexample/service/AudioProcessor.kt:64-72 | the AEC flag becomes b even without an instance, an instance follows it, and NS is untouched |
| Effects.AudioProcessor.SetNsEnabled | app/src/main/java/com/dream/kwsexample/service/AudioProcessor.kt:77-85 | the NS flag becomes b even without an instance, an instance follows it, and AEC is untouched |
| Effects.AudioProcessor.GetStatusInfo | app/src/main/java/com/dream/kwsexample/service/AudioProcessor.kt:110-127 | the text built append by append is the status text of both effects; an unavailable AEC reads "not supported" |
| Effects.AudioProcessor.Release | app/src/main/java/com/dream/kwsexample/service/AudioProcessor.kt:132-142 | both instances are released and dropped, and both flags are kept |
| Wakeup.DrainStepReports | app/src/main/java/com/dream/kwsexample/service/KeywordWakeupService.kt:348-359 | one decoded keyword is reported once when it is not blank and a callback exists, and never otherwise |
| Wakeup.DrainReports | app/src/main/java/com/dream/kwsexample/service/KeywordWakeupService.kt:345-360 | the callback receives exactly the non-blank results, each once and in order, and nothing without a callback |
| Wakeup.DrainResetsBeforeReports | app/src/main/java/com/dream/kwsexample/service/KeywordWakeupService.kt:345-360 | in the drain loop, every report comes straight after a reset of the stream, which comes straight after the decode of that non-blank keyword |
| Wakeup.ListenResetsBeforeReports | app/src/main/java/com/dream/kwsexample/service/KeywordWakeupService.kt:314-369 | over a whole listening session, every report is preceded by its decode and a reset of the stream |
| Wakeup.KeywordWakeupService.constructor | app/src/main/java/com/dream/kwsexample/service/KeywordWakeupService.kt:28-60 | no engine, stream, recorder or processor; not listening; default keywords and threshold 0.25; both switches on |
| Wakeup.KeywordWakeupService.Initialize | app/src/main/java/com/dream/kwsexample/service/KeywordWakeupService.kt:65-110 | succeeds exactly when a model configuration is found, the engine builds and it creates a stream with a non-zero pointer; after any failure both `stream` and `kws` are null, and a failure before the engine is built releases the old engine; `isInitialized()` holds exactly on success |
| Wakeup.KeywordWakeupService.DropEngine | app/src/main/java/com/dream/kwsexample/service/KeywordWakeupService.kt:102-108 | the handler of `initialize` leaves no stream and no engine, and releases the engine the field held |
| Wakeup.KeywordWakeupService.InitializeMicrophone | app/src/main/java/com/dream/kwsexample/service/KeywordWakeupService.kt:259-303 | succeeds exactly with permission and a built, initialised recorder; a fresh effects processor then follows the service's AEC and NS switches |
| Wakeup.KeywordWakeupService.StartListening | app/src/main/java/com/dream/kwsexample/service/KeywordWakeupService.kt:115-142 | changes nothing while listening; otherwise it stores the callback, and listening starts exactly when the microphone opens, so a failed microphone leaves it off |
| Wakeup.KeywordWakeupService.StartListeningCorrected | app/src/main/java/com/dream/kwsexample/service/KeywordWakeupService.kt:115-142 | the same, and a stream released by stopListening is first replaced by a fresh one for the current keywords |
| Wakeup.KeywordWakeupService.StopListening | app/src/main/java/com/dream/kwsexample/service/KeywordWakeupService.kt:147-169 | a no-op when not listening; otherwise listening ends, the recorder is stopped, released and dropped, and the stream is released (pointer 0) but kept |
| Wakeup.KeywordWakeupService.SetKeywords | app/src/main/java/com/dream/kwsexample/service/KeywordWakeupService.kt:174-189 | always records the keywords and releases the old stream; the engine's new stream replaces it even with pointer 0; a throwing createStream leaves the released stream; no engine leaves no stream |
| Wakeup.KeywordWakeupService.SetThreshold | app/src/main/java/com/dream/kwsexample/service/KeywordWakeupService.kt:195-231 | always stores the threshold and releases the old stream and engine before reinitialising; on success the engine uses the new threshold and listening is on exactly when it was on before and the microphone opens; on failure it rethrows with listening off |
| Wakeup.KeywordWakeupService.Release | app/src/main/java/com/dream/kwsexample/service/KeywordWakeupService.kt:236-254 | listening stops, the processor and the engine are released and dropped, and the stream is dropped |
| Wakeup.KeywordWakeupService.SetAecEnabled | app/src/main/java/com/dream/kwsexample/service/KeywordWakeupService.kt:385-388 | the switch is stored, and `isAecEnabled()` then returns it whether or not a processor exists; NS reporting is unchanged |
| Wakeup.KeywordWakeupService.SetNsEnabled | app/src/main/java/com/dream/kwsexample/service/KeywordWakeupService.kt:393-396 | the switch is stored, and `isNsEnabled()` then returns it whether or not a processor exists; AEC reporting is unchanged |
| Wakeup.KeywordWakeupService.GetAudioProcessorStatus | app/src/main/java/com/dream/kwsexample/service/KeywordWakeupService.kt:421 | the processor's status text while one exists, else "音频处理器未初始化" |
| Wakeup.KeywordWakeupService.DrainResults | app/src/main/java/com/dream/kwsexample/service/KeywordWakeupService.kt:345-360 | drains every ready result, and its trace is exactly the drain trace of those results (decode, then reset and report for a non-blank keyword) |
| Wakeup.KeywordWakeupService.ProcessOnce | app/src/main/java/com/dream/kwsexample/service/KeywordWakeupService.kt:316-362 | one read: no stream or no samples does nothing more; a stream with pointer 0 clears listening; otherwise the frame is accepted (an exception skips it) and the results drained |
| Wakeup.KeywordWakeupService.ProcessAudioSamples | app/src/main/java/com/dream/kwsexample/service/KeywordWakeupService.kt:308-370 | a stream with pointer 0 ends listening exactly when some read has samples, reporting nothing; on a valid stream listening is unchanged and, when it was on, the trace grows by exactly the listening trace of the reads |
| Wakeup.RestartEndsListening | app/src/main/java/com/dream/kwsexample/service/KeywordWakeupService.kt:147-169 | as written, after stop and start the first read with samples ends listening |
| Wakeup.RestartCorrectedKeepsListening | app/src/main/java/com/dream/kwsexample/service/KeywordWakeupService.kt:115-142 | with the corrected start the second session keeps listening and reports the spotted keyword after a reset |
| ViewModel.Inc32 | app/src/main/java/com/dream/kwsexample/viewmodel/KwsViewModel.kt:137 | `detectionCount + 1` on a Kotlin `Int`: one more below the maximum, and the minimum after it |
| ViewModel.Initialized | app/src/main/java/com/dream/kwsexample/viewmodel/KwsViewModel.kt:37-65 | initialisation ends either way; success marks the state initialised, clears the error and shows the service's switches; failure shows "初始化失败: " and the message; nothing else changes |
| ViewModel.ListeningStarted | app/src/main/java/com/dream/kwsexample/viewmodel/KwsViewModel.kt:70-96 | before initialisation only the error message is set, so listening is unchanged; afterwards listening is shown and the error cleared |
| ViewModel.ListeningStopped | app/src/main/java/com/dream/kwsexample/viewmodel/KwsViewModel.kt:101-114 | only the listening flag changes, to false |
| ViewModel.KeywordDetected | app/src/main/java/com/dream/kwsexample/viewmodel/KwsViewModel.kt:119-141 | the new record is first and the rest is a prefix of the old history, one longer unless that would pass 20; the count goes up by one; the keyword and dialog show; nothing else changes |
| ViewModel.KeywordDetectedKeepsNewest | app/src/main/java/com/dream/kwsexample/viewmodel/KwsViewModel.kt:122-133 | on a reachable state the history after a detection is exactly the newest 20 (or fewer) records, newest first |
| ViewModel.ErrorCleared | app/src/main/java/com/dream/kwsexample/viewmodel/KwsViewModel.kt:146-148 | exactly one field changes: the error message becomes null |
| ViewModel.HistoryCleared | app/src/main/java/com/dream/kwsexample/viewmodel/KwsViewModel.kt:153-159 | empties the history, zeroes the count and clears the last keyword, leaving every other field unchanged |
| ViewModel.KeywordsSet | app/src/main/java/com/dream/kwsexample/viewmodel/KwsViewModel.kt:164-178 | shows the keywords and clears the error; nothing else changes |
| ViewModel.ThresholdSet | app/src/main/java/com/dream/kwsexample/viewmodel/KwsViewModel.kt:183-206 | on success the threshold updates; on failure it is unchanged and the error shows; reinitialisation ends either way; nothing else changes |
| ViewModel.WakeupDialogDismissed | app/src/main/java/com/dream/kwsexample/viewmodel/KwsViewModel.kt:211-215 | exactly one field changes: the dialog is hidden |
| ViewModel.AecSet | app/src/main/java/com/dream/kwsexample/viewmodel/KwsViewModel.kt:220-226 | only the AEC switch changes |
| ViewModel.NsSet | app/src/main/java/com/dream/kwsexample/viewmodel/KwsViewModel.kt:231-237 | only the NS switch changes |
| ViewModel.ApplyKeepsInvariant | app/src/main/java/com/dream/kwsexample/viewmodel/KwsViewModel.kt:130-133 | every action keeps history ≤ 20 and ≤ `detectionCount`, and raises the count by at most one, while the count is below the maximum |
| ViewModel.RunKeepsInvariant | app/src/main/java/com/dream/kwsexample/viewmodel/KwsViewModel.kt:153-159 | any run of actions keeps the history invariant and adds at most one to the count per action, while the count cannot wrap |
| ViewModel.ReachableStatesKeepInvariant | app/src/main/java/com/dream/kwsexample/viewmodel/KwsViewModel.kt:258-271 | from the defaults, every state reached after at most 2^31 - 1 actions has history ≤ 20 and ≤ `detectionCount` |
| ViewModel.KwsViewModel.constructor | app/src/main/java/com/dream/kwsexample/viewmodel/KwsViewModel.kt:27 | the state starts at the defaults |
| ViewModel.KwsViewModel.InitializeService | app/src/main/java/com/dream/kwsexample/viewmodel/KwsViewModel.kt:37-65 | the two writes leave the state `Initialized` describes |
| ViewModel.KwsViewModel.StartListening | app/src/main/java/com/dream/kwsexample/viewmodel/KwsViewModel.kt:70-96 | the new state is `ListeningStarted` of the old |
| ViewModel.KwsViewModel.StopListening | app/src/main/java/com/dream/kwsexample/viewmodel/KwsViewModel.kt:101-114 | the new state is `ListeningStopped` of the old |
| ViewModel.KwsViewModel.OnKeywordDetected | app/src/main/java/com/dream/kwsexample/viewmodel/KwsViewModel.kt:119-141 | the list edit (insert at 0, drop the last past 20) leaves the state `KeywordDetected` describes |
| ViewModel.KwsViewModel.ClearError | app/src/main/java/com/dream/kwsexample/viewmodel/KwsViewModel.kt:146-148 | the new state is `ErrorCleared` of the old |
| ViewModel.KwsViewModel.ClearHistory | app/src/main/java/com/dream/kwsexample/viewmodel/KwsViewModel.kt:153-159 | the new state is `HistoryCleared` of the old |
| ViewModel.KwsViewModel.SetKeywords | app/src/main/java/com/dream/kwsexample/viewmodel/KwsViewModel.kt:164-178 | the new state is `KeywordsSet` of the old |
| ViewModel.KwsViewModel.SetThreshold | app/src/main/java/com/dream/kwsexample/viewmodel/KwsViewModel.kt:183-206 | the two writes leave the state `ThresholdSet` describes |
| ViewModel.KwsViewModel.DismissWakeupDialog | app/src/main/java/com/dream/kwsexample/viewmodel/KwsViewModel.kt:211-215 | the new state is `WakeupDialogDismissed` of the old |
| ViewModel.KwsViewModel.SetAecEnabled | app/src/main/java/com/dream/kwsexample/viewmodel/KwsViewModel.kt:220-226 | the new state is `AecSet` of the old |
| ViewModel.KwsViewModel.SetNsEnabled | app/src/main/java/com/dream/kwsexample/viewmodel/KwsViewModel.kt:231-237 | the new state is `NsSet` of the old |
| Async.Settle | app/src/main/java/com/dream/kwsexample/service/Completer.kt:20-33 | an attempt settles an unsettled completer with itself and leaves a settled one as it was |
| Async.SettledStaysSettled | app/src/main/java/com/dream/kwsexample/service/Completer.kt:21-30 | once settled, no run of further `complete`/`completeError` calls changes anything |
| Async.FirstAttemptWins | app/src/main/java/com/dream/kwsexample/service/Completer.kt:20-33 | a fresh completer run through any attempts is settled by the first of them |
| Async.Completer.constructor | app/src/main/java/com/dream/kwsexample/service/Completer.kt:10-15 | a new completer is not completed |
| Async.Completer.Complete | app/src/main/java/com/dream/kwsexample/service/Completer.kt:20-24 | on an uncompleted completer, marks it completed and stores the result; on a completed one, changes nothing |
| Async.Completer.CompleteError | app/src/main/java/com/dream/kwsexample/service/Completer.kt:29-33 | on an uncompleted completer, marks it completed and stores the exception; on a completed one, changes nothing |
| Async.Completer.AwaitNow | app/src/main/java/com/dream/kwsexample/service/Completer.kt:38-45 | on a completed completer, raises the stored exception if one was set, else returns the stored result (a null result raises the NPE of `!!`); pending exactly when not completed |

## Left out

- Concurrency is not modelled. This covers:
  - `synchronized(audioLock/decoderLock)`;
  - coroutines and `withContext`;
  - `scope.launch { initPlayer() }`;
  - the recording thread and its `interrupt`;
  - `@Volatile`;
  - the `AudioUtil` singleton `getInstance`/`destroyInstance`.

  Each operation runs to completion. A background loop (`CaptureLoop`, `ProcessAudioSamples`) is a method that the model calls itself.
- Completer: the polling thread of `await` is left out. `AwaitNow` returns `Pending` where that thread would start.
- ProcessAudioSamples: the loop runs only until the recorder's script is exhausted. That end stands for the thread being interrupted, or for `isListening` being cleared from another thread.
- CaptureLoop: the loop also ends when the recorder's script is exhausted, and the recorder then leaves the recording state.
- ProcessAudioSamples: the `/ 32768.0f` float conversion is not modelled. Only the sample count reaches `acceptWaveform`, and what the engine buffers comes from its script.
- ProcessAudioSamples: the `samples.isEmpty()` branch is not written, because a positive read count makes it unreachable.
- ProcessAudioSamples: only `acceptWaveform` is modelled as throwing. Exceptions from `read`, `isReady`, `decode`, `getResult`, `reset` or the callback are left out. So is the outer per-pass handler (KeywordWakeupService.kt:315, 364-368), which abandons the rest of that frame's drain while listening continues.
- Floating point is not modelled. The threshold is an opaque `real` that is only stored, and `setVolume`/`getVolume` are left out.
- `checkAndStopIfFinished` is left out. It is a timing heuristic that polls the device position with `delay`.
- Logging, the session-ID reflection in `initPlayer`, buffer-size computation and the audio attributes are left out.
- The audio device and effect internals are left out.
- The codec configuration is left out: VOIP mode, mono, and `getKwsModelConfig` and `getKeywordsFile` beyond "found or not".
- PlayPcmData: exceptions from `play`/`write` are not modelled, nor the `initPlayer` relaunch their handler starts. The oracle track never throws.
- PlayOpusData: the outer exception handler (`stopPlaying` plus `initOpusCodecs`) is left out. No exception reaches it, because `decodeFromOpus` and `playPcmData` catch their own.
- KeywordWakeupService.StartListening: the handler that calls `stopListening` is left out. `startRecording` on an initialised recorder does not throw.
- Wakeup.IsWhitespace: the character set is that of the JVM's `Character.isWhitespace` and `Character.isSpaceChar` under current Unicode tables. Characters whose category differed in older Unicode versions (such as U+180E) are not modelled.
- The view-model does not call a service object. Each service call is represented by its outcome, passed as a parameter, and `onCleared` and the availability getters are left out.
- The Compose screens, dialogs and navigation are left out.
- DetectionRecord: the locale-dependent `formattedTime` is left out. A record is a keyword and a timestamp, with the clock as a parameter.
- Devices.AudioRecord.ReadShorts: the sample values are not kept, only their count.
- Wakeup.KeywordWakeupService.SetThreshold: `initialize` throws here only as itself. This call goes to the as-written `StartListening`: on this path the stream is fresh, so it and the corrected start do the same.

## Findings

| source | as written | input that shows it | evidently intended | confidence | as-written member | corrected member |
|---|---|---|---|---|---|---|
| app/src/main/java/com/dream/kwsexample/service/AudioUtil.kt:173-189 | `warmUpAudioTrack` starts the track but does not set `isPlaying`, so `stopPlaying` (595-607) returns early while the track plays | a built, stopped track; `warmUpAudioTrack` then `stopPlaying` | the flag is set whenever the track is started, as `playPcmData` does at 562-565 | not executed | Audio.WarmUpThenStop | Audio.AudioUtil.WarmUpAudioTrackCorrected |
| app/src/main/java/com/dream/kwsexample/service/KeywordWakeupService.kt:162 | `stopListening` releases the stream but keeps it; `startListening` reuses it, so the loop meets pointer 0 at its first audio and listening ends (325-328) while the screen still shows listening | a successful `initialize`, `startListening`, `stopListening`, `startListening`, then a microphone read with samples | a second listening session spots keywords like the first | not executed; assumes `OnlineStream.release()` zeroes `ptr`, as the sherpa-onnx Kotlin binding does | Wakeup.RestartEndsListening | Wakeup.KeywordWakeupService.StartListeningCorrected |
