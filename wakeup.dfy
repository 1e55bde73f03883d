/**
 * The keyword wake-up service: it owns the spotting engine and its stream, opens the
 * microphone with its effects side-chain, feeds captured audio to the stream and reports
 * every keyword the engine spots to the registered callback.
 */
module Wakeup {
  import opened Wrappers
  import opened Pcm
  import opened Devices
  import opened Effects
  import opened Spotter

  const DefaultKeywords: string := "x iǎo ān x iǎo ān"
  const DefaultThreshold: real := 0.25
  const FeatureDim: int := 80
  const KeywordsScore: real := 1.5
  const BufferIntervalMs: nat := 100
  /** Samples per microphone read: 100 ms at 16 kHz. */
  const BufferSamples: nat := BufferIntervalMs * SampleRate / 1000
  const ProcessorMissingStatus: string := "音频处理器未初始化"

  /** The engine configuration built for a given threshold. */
  function ConfigFor(threshold: real): SpotterConfig
  {
    SpotterConfig(SampleRate, FeatureDim, threshold, KeywordsScore)
  }

  // ---------------------------------------------------------------------------------
  // What the service observes of the engine while draining results.

  /** One step of the drain loop: a decode and its keyword, a stream reset, or a callback. */
  datatype Event = Decoded(keyword: string) | StreamReset | Reported(keyword: string)

  /**
   * Kotlin's `Char.isWhitespace` on the JVM: `Character.isWhitespace` (tab to carriage
   * return and the four separators U+001C to U+001F) or `Character.isSpaceChar` (the
   * space, line and paragraph separators of Unicode's Zs, Zl and Zp categories).
   */
  predicate IsWhitespace(c: char)
  {
    || ('\t' <= c <= '\r')
    || ('\U{001C}' <= c <= '\U{001F}')
    || c == ' ' || c == '\U{00A0}' || c == '\U{1680}'
    || ('\U{2000}' <= c <= '\U{200A}')
    || c == '\U{2028}' || c == '\U{2029}' || c == '\U{202F}' || c == '\U{205F}' || c == '\U{3000}'
  }

  /** The keyword is empty or only whitespace. */
  predicate IsBlank(s: string)
  {
    forall i :: 0 <= i < |s| ==> IsWhitespace(s[i])
  }

  /** What the drain loop does with one decoded keyword: reset the stream and report it, unless it is blank. */
  function DrainStep(keyword: string, hasCallback: bool): seq<Event>
  {
    [Decoded(keyword)] + if IsBlank(keyword) then [] else [StreamReset] + if hasCallback then [Reported(keyword)] else []
  }

  /** The trace of draining the results `rs`, oldest first. */
  function DrainTrace(rs: seq<string>, hasCallback: bool): seq<Event>
  {
    if rs == [] then [] else DrainTrace(rs[..|rs| - 1], hasCallback) + DrainStep(rs[|rs| - 1], hasCallback)
  }

  /** The keywords handed to the callback in a trace, in order. */
  function Reports(t: seq<Event>): seq<string>
  {
    if t == [] then [] else Reports(t[..|t| - 1]) + if t[|t| - 1].Reported? then [t[|t| - 1].keyword] else []
  }

  /** The results that are not blank, in order. */
  function NonBlank(rs: seq<string>): seq<string>
  {
    if rs == [] then [] else NonBlank(rs[..|rs| - 1]) + if IsBlank(rs[|rs| - 1]) then [] else [rs[|rs| - 1]]
  }

  /** Every report comes straight after a reset, which comes straight after the decode of a non-blank keyword. */
  ghost predicate ResetBeforeReport(t: seq<Event>)
  {
    forall i :: 0 <= i < |t| && t[i].Reported? ==>
      2 <= i && t[i - 1] == StreamReset && t[i - 2] == Decoded(t[i].keyword) && !IsBlank(t[i].keyword)
  }

  lemma {:induction false} ReportsAppend(a: seq<Event>, b: seq<Event>)
    ensures Reports(a + b) == Reports(a) + Reports(b)
    decreases |b|
  {
    if b != [] {
      var b' := b[..|b| - 1];
      assert (a + b)[..|a + b| - 1] == a + b';
      ReportsAppend(a, b');
    } else {
      assert a + b == a;
    }
  }

  lemma ReportsOfOne(e: Event)
    ensures Reports([e]) == if e.Reported? then [e.keyword] else []
  {
    assert [e][..0] == [];
  }

  lemma DrainStepReports(keyword: string, hasCallback: bool)
    ensures Reports(DrainStep(keyword, hasCallback)) == if hasCallback && !IsBlank(keyword) then [keyword] else []
  {
    ReportsOfOne(Decoded(keyword));
    ReportsOfOne(StreamReset);
    ReportsOfOne(Reported(keyword));
    if !IsBlank(keyword) {
      ReportsAppend([Decoded(keyword)], [StreamReset]);
      if hasCallback {
        ReportsAppend([Decoded(keyword), StreamReset], [Reported(keyword)]);
        assert DrainStep(keyword, hasCallback) == [Decoded(keyword), StreamReset] + [Reported(keyword)];
      } else {
        assert DrainStep(keyword, hasCallback) == [Decoded(keyword)] + [StreamReset];
      }
    } else {
      assert DrainStep(keyword, hasCallback) == [Decoded(keyword)];
    }
  }

  /** The callback receives exactly the non-blank results, each once and in order; none without a callback. */
  lemma {:induction false} DrainReports(rs: seq<string>, hasCallback: bool)
    ensures Reports(DrainTrace(rs, hasCallback)) == if hasCallback then NonBlank(rs) else []
  {
    if rs != [] {
      var k := rs[|rs| - 1];
      DrainReports(rs[..|rs| - 1], hasCallback);
      ReportsAppend(DrainTrace(rs[..|rs| - 1], hasCallback), DrainStep(k, hasCallback));
      DrainStepReports(k, hasCallback);
    }
  }

  lemma ResetBeforeReportAppend(a: seq<Event>, b: seq<Event>)
    requires ResetBeforeReport(a) && ResetBeforeReport(b)
    ensures ResetBeforeReport(a + b)
  {
    forall i | 0 <= i < |a + b| && (a + b)[i].Reported?
      ensures 2 <= i && (a + b)[i - 1] == StreamReset && (a + b)[i - 2] == Decoded((a + b)[i].keyword)
      ensures !IsBlank((a + b)[i].keyword)
    {
      if i >= |a| {
        assert (a + b)[i] == b[i - |a|];
      }
    }
  }

  /** In the drain loop every report is preceded by a reset of the stream after its decode. */
  lemma {:induction false} DrainResetsBeforeReports(rs: seq<string>, hasCallback: bool)
    ensures ResetBeforeReport(DrainTrace(rs, hasCallback))
  {
    if rs != [] {
      DrainResetsBeforeReports(rs[..|rs| - 1], hasCallback);
      ResetBeforeReportAppend(DrainTrace(rs[..|rs| - 1], hasCallback), DrainStep(rs[|rs| - 1], hasCallback));
    }
  }

  // ---------------------------------------------------------------------------------
  // What the listening loop does with a sequence of microphone reads.

  /** The value a 16-bit read into the 1600-sample buffer returns for one reply. */
  function SampleCount(r: ReadReply): int
  {
    match r
    case ReadError => ErrorInvalidOperation
    case Chunk(d) => if |d| / 2 <= BufferSamples then |d| / 2 else BufferSamples
  }

  /** Some reply in `replies` delivers samples. */
  ghost predicate AnySamples(replies: seq<ReadReply>)
  {
    exists i :: 0 <= i < |replies| && SampleCount(replies[i]) > 0
  }

  function NextAccept(accepts: seq<AcceptReply>): AcceptReply
  {
    if accepts == [] then Accepted([]) else accepts[0]
  }

  function RestAccepts(accepts: seq<AcceptReply>): seq<AcceptReply>
  {
    if accepts == [] then [] else accepts[1..]
  }

  /**
   * The trace of listening on a valid stream through `replies`: a read without samples is
   * skipped, a frame whose acceptWaveform throws is skipped, and after every accepted
   * frame all ready results are drained.
   */
  function ListenTrace(replies: seq<ReadReply>, accepts: seq<AcceptReply>, ready: seq<string>, hasCallback: bool): seq<Event>
    decreases |replies|
  {
    if replies == [] then []
    else if SampleCount(replies[0]) <= 0 then ListenTrace(replies[1..], accepts, ready, hasCallback)
    else match NextAccept(accepts)
      case AcceptThrows => ListenTrace(replies[1..], RestAccepts(accepts), ready, hasCallback)
      case Accepted(rs) => DrainTrace(ready + rs, hasCallback) + ListenTrace(replies[1..], RestAccepts(accepts), [], hasCallback)
  }

  /** How the listening trace of a read with samples splits off its first frame. */
  lemma ListenTraceHead(replies: seq<ReadReply>, accepts: seq<AcceptReply>, ready: seq<string>, hasCallback: bool)
    requires replies != [] && SampleCount(replies[0]) > 0
    ensures NextAccept(accepts).AcceptThrows? ==>
      ListenTrace(replies, accepts, ready, hasCallback) == ListenTrace(replies[1..], RestAccepts(accepts), ready, hasCallback)
    ensures NextAccept(accepts).Accepted? ==>
      ListenTrace(replies, accepts, ready, hasCallback)
      == DrainTrace(ready + NextAccept(accepts).results, hasCallback) + ListenTrace(replies[1..], RestAccepts(accepts), [], hasCallback)
  {
  }

  /** Over a whole listening session, too, every report follows a reset of the stream. */
  lemma {:induction false} ListenResetsBeforeReports(replies: seq<ReadReply>, accepts: seq<AcceptReply>, ready: seq<string>, hasCallback: bool)
    ensures ResetBeforeReport(ListenTrace(replies, accepts, ready, hasCallback))
    decreases |replies|
  {
    if replies != [] {
      if SampleCount(replies[0]) <= 0 {
        ListenResetsBeforeReports(replies[1..], accepts, ready, hasCallback);
      } else {
        match NextAccept(accepts)
        case AcceptThrows =>
          ListenResetsBeforeReports(replies[1..], RestAccepts(accepts), ready, hasCallback);
        case Accepted(rs) =>
          ListenResetsBeforeReports(replies[1..], RestAccepts(accepts), [], hasCallback);
          DrainResetsBeforeReports(ready + rs, hasCallback);
          ResetBeforeReportAppend(DrainTrace(ready + rs, hasCallback), ListenTrace(replies[1..], RestAccepts(accepts), [], hasCallback));
      }
    }
  }

  /** Whether initialize succeeds: a model configuration, an engine, and a stream with a non-zero pointer. */
  predicate InitializeSucceeds(modelFound: bool, engineBuilds: bool, script: seq<StreamReply>)
  {
    modelFound && engineBuilds && script != [] && script[0].NewStream? && script[0].ptr != 0
  }

  /** Whether initializeMicrophone succeeds: permission, a constructed recorder, and STATE_INITIALIZED. */
  predicate MicOpens(permissionGranted: bool, record: AudioRecord?)
  {
    permissionGranted && record != null && record.initialized
  }

  class KeywordWakeupService {
    /** AcousticEchoCanceler.isAvailable() and NoiseSuppressor.isAvailable(), read once. */
    const aecAvailable: bool
    const nsAvailable: bool
    var kws: KeywordSpotter?
    var stream: OnlineStream?
    var audioRecord: AudioRecord?
    var audioProcessor: AudioProcessor?
    var isListening: bool
    /** The registered wake-up callback, identified by its owner. */
    var wakeupCallback: Option<nat>
    var currentKeywords: string
    var currentThreshold: real
    var aecEnabled: bool
    var nsEnabled: bool
    /** Everything the drain loop did, callbacks included, in order. */
    var trace: seq<Event>

    constructor (aecAvailable: bool, nsAvailable: bool)
      ensures this.aecAvailable == aecAvailable && this.nsAvailable == nsAvailable
      ensures kws == null && stream == null && audioRecord == null && audioProcessor == null
      ensures !isListening && wakeupCallback == None && trace == []
      ensures currentKeywords == DefaultKeywords && currentThreshold == DefaultThreshold
      ensures aecEnabled && nsEnabled
      ensures Valid()
    {
      this.aecAvailable := aecAvailable;
      this.nsAvailable := nsAvailable;
      kws := null;
      stream := null;
      audioRecord := null;
      audioProcessor := null;
      isListening := false;
      wakeupCallback := None;
      currentKeywords := DefaultKeywords;
      currentThreshold := DefaultThreshold;
      aecEnabled := true;
      nsEnabled := true;
      trace := [];
    }

    /**
     * What every operation keeps: a stream only exists with its engine, and listening means
     * an open microphone and a registered callback.
     */
    ghost predicate Valid()
      reads this
    {
      && (stream != null ==> kws != null)
      && (isListening ==> audioRecord != null && wakeupCallback.Some?)
      && (audioProcessor != null ==> audioProcessor.aecAvailable == aecAvailable && audioProcessor.nsAvailable == nsAvailable)
    }

    /** isInitialized(). */
    predicate IsInitialized()
      reads this
    {
      kws != null && stream != null
    }

    /**
     * initialize: builds the engine for the current threshold and a stream for the current
     * keywords. A missing model configuration, an engine that cannot be built, a stream that
     * cannot be created, a null stream and a stream with pointer 0 all throw; the handler
     * then drops the stream and releases and drops whatever engine the field holds.
     */
    method Initialize(modelFound: bool, engineBuilds: bool, script: seq<StreamReply>) returns (o: Outcome)
      requires Valid()
      modifies this`kws, this`stream, kws
      ensures Valid()
      ensures o.Done? <==> InitializeSucceeds(modelFound, engineBuilds, script)
      ensures IsInitialized() <==> o.Done?
      ensures o.Threw? ==> kws == null && stream == null
      ensures o.Done? ==> fresh(kws) && kws.config == ConfigFor(currentThreshold) && kws.streamReplies == script[1..]
      ensures o.Done? ==> fresh(stream) && stream.ptr == script[0].ptr && stream.keywords == currentKeywords
      ensures o.Done? ==> stream.accepts == script[0].accepts && stream.ready == [] && !stream.released
      ensures old(kws) != null && !(modelFound && engineBuilds) ==> old(kws).released
    {
      if !modelFound || !engineBuilds {
        o := Threw(if !modelFound then "Failed to get model config" else "Failed to create KeywordSpotter");
        DropEngine();
        return;
      }
      var spotter := new KeywordSpotter(ConfigFor(currentThreshold), script);
      kws := spotter;
      var s, threw := spotter.CreateStream(currentKeywords);
      if !threw && s != null && s.ptr != 0 {
        stream := s;
        o := Done;
        return;
      }
      o := Threw(if threw then "Failed to create keyword stream"
                 else if s == null then "Failed to create keyword stream: stream is null"
                 else "Failed to create keyword stream: invalid pointer");
      DropEngine();
    }

    /** The handler of initialize: drops the stream, then releases and drops whatever engine the field holds. */
    method DropEngine()
      requires Valid()
      modifies this`kws, this`stream, kws
      ensures Valid()
      ensures kws == null && stream == null
      ensures old(kws) != null ==> old(kws).released
    {
      stream := null;
      if kws != null {
        kws.Release();
      }
      kws := null;
    }

    /**
     * initializeMicrophone: with permission, keeps the recorder the platform built (null when
     * its constructor threw) and, when it is initialised, attaches a fresh effects processor
     * that follows the service's AEC and NS switches.
     */
    method InitializeMicrophone(permissionGranted: bool, record: AudioRecord?, aecReply: CreateReply, nsReply: CreateReply)
      returns (ok: bool)
      requires Valid()
      modifies this`audioRecord, this`audioProcessor
      ensures Valid()
      ensures ok == MicOpens(permissionGranted, record)
      ensures permissionGranted && record != null ==> audioRecord == record
      ensures !(permissionGranted && record != null) ==> audioRecord == old(audioRecord)
      ensures !ok ==> audioProcessor == old(audioProcessor)
      ensures ok ==> fresh(audioProcessor) && audioProcessor.audioSessionId == record.sessionId
      ensures ok ==> audioProcessor.isAecEnabled == aecEnabled && audioProcessor.isNsEnabled == nsEnabled
    {
      if !permissionGranted || record == null {
        return false;
      }
      audioRecord := record;
      ok := record.initialized;
      if ok {
        var p := new AudioProcessor(record.sessionId, aecAvailable, nsAvailable);
        p.Initialize(aecReply, nsReply);
        p.SetAecEnabled(aecEnabled);
        p.SetNsEnabled(nsEnabled);
        audioProcessor := p;
      }
    }

    /**
     * startListening: does nothing while listening. Otherwise it registers the callback,
     * and listening starts exactly when the microphone opens.
     */
    method StartListening(callback: nat, permissionGranted: bool, record: AudioRecord?, aecReply: CreateReply, nsReply: CreateReply)
      requires Valid()
      modifies this`wakeupCallback, this`audioRecord, this`audioProcessor, this`isListening, record
      ensures Valid()
      ensures old(isListening) ==> unchanged(this) && (record != null ==> unchanged(record))
      ensures !old(isListening) ==> wakeupCallback == Some(callback)
      ensures !old(isListening) ==> (isListening <==> MicOpens(permissionGranted, record))
      ensures !old(isListening) && permissionGranted && record != null ==> audioRecord == record
      ensures record != null ==> record.pending == old(record.pending)
      ensures !old(isListening) && MicOpens(permissionGranted, record) ==> record.recording && fresh(audioProcessor)
      ensures !old(isListening) && MicOpens(permissionGranted, record) ==>
        audioProcessor.isAecEnabled == aecEnabled && audioProcessor.isNsEnabled == nsEnabled
    {
      if isListening {
        return;
      }
      wakeupCallback := Some(callback);
      var ok := InitializeMicrophone(permissionGranted, record, aecReply, nsReply);
      if !ok {
        return;
      }
      // The recorder is initialised, so startRecording cannot throw and the handler that
      // stops listening again is never reached.
      var _ := audioRecord.StartRecording();
      isListening := true;
    }

    /**
     * startListening as a stop/start cycle evidently intends: a stream that stopListening
     * released is replaced, before the microphone opens, by a stream the engine creates for
     * the current keywords (kept as setKeywords keeps it).
     */
    method StartListeningCorrected(callback: nat, permissionGranted: bool, record: AudioRecord?, aecReply: CreateReply, nsReply: CreateReply)
      requires Valid()
      modifies this`wakeupCallback, this`audioRecord, this`audioProcessor, this`isListening, this`stream, record, kws
      ensures Valid()
      ensures old(isListening) ==> unchanged(this) && (record != null ==> unchanged(record)) && (kws != null ==> unchanged(kws))
      ensures !old(isListening) ==> wakeupCallback == Some(callback)
      ensures !old(isListening) ==> (isListening <==> MicOpens(permissionGranted, record))
      ensures !old(isListening) && MicOpens(permissionGranted, record) ==> audioRecord == record && record.recording
      ensures record != null ==> record.pending == old(record.pending)
      ensures !(!old(isListening) && old(stream) != null && old(stream.released)) ==> stream == old(stream)
      ensures !old(isListening) && old(stream) != null && old(stream.released) && old(kws.NextStream()).NewStream? ==>
        fresh(stream) && stream.ptr == old(kws.NextStream()).ptr && stream.keywords == currentKeywords
      ensures !old(isListening) && old(stream) != null && old(stream.released) && old(kws.NextStream()).NewStream? ==>
        stream.accepts == old(kws.NextStream()).accepts && stream.ready == []
    {
      if isListening {
        return;
      }
      if stream != null && stream.released {
        var s, threw := kws.CreateStream(currentKeywords);
        if !threw {
          stream := s;
        }
      }
      StartListening(callback, permissionGranted, record, aecReply, nsReply);
    }

    /**
     * stopListening: does nothing when not listening. Otherwise listening ends, the
     * recorder is stopped, released and dropped, and the stream is released but kept.
     */
    method StopListening()
      requires Valid()
      modifies this`isListening, this`audioRecord, audioRecord, stream
      ensures Valid()
      ensures !isListening
      ensures !old(isListening) ==> unchanged(this) && (audioRecord != null ==> unchanged(audioRecord))
      ensures !old(isListening) ==> stream != null ==> unchanged(stream)
      ensures old(isListening) ==> audioRecord == null && old(audioRecord).released && !old(audioRecord).recording
      ensures old(isListening) && stream != null ==> stream.released && stream.ptr == 0
    {
      if !isListening {
        return;
      }
      isListening := false;
      audioRecord.Stop();
      audioRecord.Release();
      audioRecord := null;
      if stream != null {
        stream.Release();
      }
    }

    /**
     * setKeywords: records the keywords, releases the current stream and asks the engine
     * for a stream for them. A stream with pointer 0 is kept (only logged); when
     * createStream throws, the released stream stays in place.
     */
    method SetKeywords(keywords: string)
      requires Valid()
      modifies this`currentKeywords, this`stream, stream, kws
      ensures Valid()
      ensures currentKeywords == keywords
      ensures old(stream) != null ==> old(stream).released
      ensures kws == null ==> stream == null
      ensures kws != null ==> kws.streamReplies == if old(kws.streamReplies) == [] then [] else old(kws.streamReplies)[1..]
      ensures kws != null && old(kws.NextStream()).StreamThrows? ==> stream == old(stream)
      ensures kws != null && !old(kws.NextStream()).StreamThrows? ==> (stream != null <==> old(kws.NextStream()).NewStream?)
      ensures kws != null && stream != old(stream) && stream != null ==>
        fresh(stream) && stream.keywords == keywords && stream.ptr == old(kws.NextStream()).ptr
    {
      currentKeywords := keywords;
      if stream != null {
        stream.Release();
      }
      if kws == null {
        stream := null;
      } else {
        var s, threw := kws.CreateStream(keywords);
        if !threw {
          stream := s;
        }
      }
    }

    /**
     * setThreshold: stops listening if it was on, stores the threshold, releases and drops
     * the stream and the engine, and initializes again; when that throws the exception
     * propagates with listening off. Otherwise listening resumes exactly when it was on
     * before (a callback is then registered) and the microphone opens again.
     */
    method SetThreshold(threshold: real, modelFound: bool, engineBuilds: bool, script: seq<StreamReply>,
                        permissionGranted: bool, record: AudioRecord?, aecReply: CreateReply, nsReply: CreateReply)
      returns (o: Outcome)
      requires Valid()
      modifies this`isListening, this`audioRecord, this`audioProcessor, this`wakeupCallback
      modifies this`currentThreshold, this`stream, this`kws, audioRecord, stream, kws, record
      ensures Valid()
      ensures currentThreshold == threshold
      ensures old(stream) != null ==> old(stream).released
      ensures old(kws) != null ==> old(kws).released
      ensures o.Done? <==> InitializeSucceeds(modelFound, engineBuilds, script)
      ensures o.Done? ==> IsInitialized() && kws.config == ConfigFor(threshold) && stream.keywords == currentKeywords
      ensures o.Threw? ==> !isListening && !IsInitialized()
      ensures o.Done? ==> (isListening <==> old(isListening) && MicOpens(permissionGranted, record))
    {
      var wasListening := isListening;
      var callback := wakeupCallback;
      if wasListening {
        StopListening();
      }
      currentThreshold := threshold;
      if stream != null {
        stream.Release();
      }
      stream := null;
      if kws != null {
        kws.Release();
      }
      kws := null;
      o := Initialize(modelFound, engineBuilds, script);
      if o.Threw? {
        return;
      }
      if wasListening && callback.Some? {
        StartListening(callback.value, permissionGranted, record, aecReply, nsReply);
      }
    }

    /**
     * release: stops listening, releases and drops the effects processor and the engine,
     * and drops the stream. A second call changes nothing more.
     */
    method Release()
      requires Valid()
      modifies this`isListening, this`audioRecord, this`audioProcessor, this`kws, this`stream, audioRecord, stream, kws
      modifies if audioProcessor != null then {audioProcessor, audioProcessor.aec, audioProcessor.ns} else {}
      ensures Valid()
      ensures !isListening && !IsInitialized() && audioProcessor == null && kws == null && stream == null
      ensures old(kws) != null ==> old(kws).released
      ensures old(audioProcessor) != null ==> old(audioProcessor).aec == null && old(audioProcessor).ns == null
      ensures old(isListening) ==> audioRecord == null && old(audioRecord).released
      ensures !old(isListening) ==> audioRecord == old(audioRecord)
    {
      StopListening();
      if audioProcessor != null {
        audioProcessor.Release();
      }
      audioProcessor := null;
      if kws != null {
        kws.Release();
      }
      kws := null;
      stream := null;
    }

    /** isAecEnabled(): the processor's flag while one exists, else the service's switch. */
    function IsAecEnabled(): bool
      reads this, audioProcessor
    {
      if audioProcessor != null then audioProcessor.isAecEnabled else aecEnabled
    }

    /** isNsEnabled(): the processor's flag while one exists, else the service's switch. */
    function IsNsEnabled(): bool
      reads this, audioProcessor
    {
      if audioProcessor != null then audioProcessor.isNsEnabled else nsEnabled
    }

    /** setAecEnabled: records the switch and passes it to the processor, if any; NS is untouched. */
    method SetAecEnabled(enabled: bool)
      requires Valid()
      modifies this`aecEnabled
      modifies if audioProcessor != null then {audioProcessor, audioProcessor.aec} else {}
      ensures Valid()
      ensures aecEnabled == enabled && IsAecEnabled() == enabled
      ensures IsNsEnabled() == old(IsNsEnabled())
    {
      aecEnabled := enabled;
      if audioProcessor != null {
        audioProcessor.SetAecEnabled(enabled);
      }
    }

    /** setNsEnabled: records the switch and passes it to the processor, if any; AEC is untouched. */
    method SetNsEnabled(enabled: bool)
      requires Valid()
      modifies this`nsEnabled
      modifies if audioProcessor != null then {audioProcessor, audioProcessor.ns} else {}
      ensures Valid()
      ensures nsEnabled == enabled && IsNsEnabled() == enabled
      ensures IsAecEnabled() == old(IsAecEnabled())
    {
      nsEnabled := enabled;
      if audioProcessor != null {
        audioProcessor.SetNsEnabled(enabled);
      }
    }

    /** getAudioProcessorStatus(). */
    method GetAudioProcessorStatus() returns (status: string)
      requires Valid()
      ensures audioProcessor == null ==> status == ProcessorMissingStatus
      ensures audioProcessor != null ==> status == StatusInfo(aecAvailable, audioProcessor.isAecEnabled, nsAvailable, audioProcessor.isNsEnabled)
    {
      if audioProcessor == null {
        status := ProcessorMissingStatus;
      } else {
        status := audioProcessor.GetStatusInfo();
      }
    }

    /**
     * The inner loop of processAudioSamples: while the engine is ready, decode and fetch
     * the result; a non-blank keyword resets the stream and is handed to the callback.
     */
    method DrainResults(s: OnlineStream)
      requires kws != null
      modifies s`ready, s`current, s`resets, this`trace
      ensures s.ready == []
      ensures trace == old(trace) + DrainTrace(old(s.ready), wakeupCallback.Some?)
    {
      ghost var results := s.ready;
      ghost var i := 0;
      while kws.IsReady(s)
        invariant 0 <= i <= |results| && s.ready == results[i..]
        invariant trace == old(trace) + DrainTrace(results[..i], wakeupCallback.Some?)
        decreases |s.ready|
      {
        DrainOne(s);
        assert results[..i + 1][..i] == results[..i];
        i := i + 1;
      }
      assert results[..i] == results;
    }

    /** One pass of the drain loop: decode the oldest ready result and act on its keyword. */
    method DrainOne(s: OnlineStream)
      requires kws != null && s.ready != []
      modifies s`ready, s`current, s`resets, this`trace
      ensures s.ready == old(s.ready)[1..]
      ensures trace == old(trace) + DrainStep(old(s.ready)[0], wakeupCallback.Some?)
    {
      kws.Decode(s);
      var keyword := kws.GetResult(s);
      trace := trace + [Decoded(keyword)];
      if !IsBlank(keyword) {
        kws.Reset(s);
        trace := trace + [StreamReset];
        if wakeupCallback.Some? {
          trace := trace + [Reported(keyword)];
        }
      }
    }

    /**
     * The inner part of one pass: the samples are accepted and, unless acceptWaveform
     * throws, the ready results drained. Either way exactly one accept reply is used.
     */
    method AcceptAndDrain(s: OnlineStream, n: nat)
      requires kws != null
      modifies s`accepts, s`ready, s`current, s`resets, this`trace
      ensures s.accepts == RestAccepts(old(s.accepts))
      ensures old(NextAccept(s.accepts)).AcceptThrows? ==> s.ready == old(s.ready) && trace == old(trace)
      ensures old(NextAccept(s.accepts)).Accepted? ==>
        s.ready == [] && trace == old(trace) + DrainTrace(old(s.ready) + old(NextAccept(s.accepts)).results, wakeupCallback.Some?)
    {
      var threw := s.AcceptWaveform(n);
      if !threw {
        DrainResults(s);
      }
    }

    /**
     * One pass of the processing loop: one read of up to 1600 samples. Without a stream or
     * without samples nothing more happens; a stream with pointer 0 ends listening;
     * otherwise the samples are accepted (an acceptWaveform exception skips the frame) and
     * the ready results drained.
     */
    method ProcessOnce()
      requires Valid() && audioRecord != null && audioRecord.pending != []
      modifies this`isListening, this`trace, audioRecord, stream
      ensures Valid()
      ensures audioRecord.pending == old(audioRecord.pending)[1..]
      ensures stream != null ==> stream.ptr == old(stream.ptr)
      ensures stream == null || stream.ptr == 0 ==> trace == old(trace)
      ensures stream == null || stream.ptr != 0 ==> isListening == old(isListening)
      ensures stream != null && stream.ptr == 0 ==>
        isListening == (old(isListening) && SampleCount(old(audioRecord.pending)[0]) <= 0)
      ensures stream != null && stream.ptr != 0 ==>
        old(trace) + ListenTrace(old(audioRecord.pending), old(stream.accepts), old(stream.ready), wakeupCallback.Some?)
        == trace + ListenTrace(audioRecord.pending, stream.accepts, stream.ready, wakeupCallback.Some?)
    {
      ghost var replies := audioRecord.pending;
      var ret := audioRecord.ReadShorts(BufferSamples);
      assert ret == SampleCount(replies[0]);
      if ret > 0 && stream != null {
        if stream.ptr == 0 {
          isListening := false;
          return;
        }
        ghost var cb := wakeupCallback.Some?;
        ListenTraceHead(replies, stream.accepts, stream.ready, cb);
        AcceptAndDrain(stream, ret);
      }
    }

    /**
     * processAudioSamples, the body of the recording thread: reads 100 ms of audio at a
     * time while listening. Without a stream a read is dropped; a stream with pointer 0
     * ends listening at the first read with samples; otherwise each read with samples is
     * accepted (a frame whose acceptWaveform throws is skipped) and the results drained.
     * The end of the recorder's script stands for the thread being interrupted.
     */
    method ProcessAudioSamples()
      requires Valid() && audioRecord != null
      modifies this`isListening, this`trace, audioRecord, stream
      ensures Valid()
      ensures stream != null ==> stream.ptr == old(stream.ptr)
      ensures stream == null || stream.ptr == 0 ==> trace == old(trace)
      ensures stream == null || stream.ptr != 0 ==> isListening == old(isListening)
      ensures stream != null && stream.ptr == 0 ==> isListening == (old(isListening) && !AnySamples(old(audioRecord.pending)))
      ensures stream != null && stream.ptr != 0 && old(isListening) ==>
        trace == old(trace) + ListenTrace(old(audioRecord.pending), old(stream.accepts), old(stream.ready), wakeupCallback.Some?)
    {
      ghost var replies := audioRecord.pending;
      ghost var k := 0;
      while isListening && audioRecord.pending != []
        invariant Valid()
        invariant 0 <= k <= |replies| && audioRecord.pending == replies[k..]
        invariant stream != null ==> stream.ptr == old(stream.ptr)
        invariant stream == null || stream.ptr == 0 ==> trace == old(trace)
        invariant stream == null || stream.ptr != 0 ==> isListening == old(isListening)
        invariant isListening ==> old(isListening)
        invariant stream != null && stream.ptr == 0 && isListening ==> forall j :: 0 <= j < k ==> SampleCount(replies[j]) <= 0
        invariant stream != null && stream.ptr == 0 && !isListening && old(isListening) ==> AnySamples(replies)
        invariant stream != null && stream.ptr != 0 && old(isListening) ==>
          old(trace) + ListenTrace(replies, old(stream.accepts), old(stream.ready), wakeupCallback.Some?)
          == trace + ListenTrace(audioRecord.pending, stream.accepts, stream.ready, wakeupCallback.Some?)
        decreases |audioRecord.pending|
      {
        ProcessOnce();
        k := k + 1;
      }
      assert !isListening || k == |replies|;
    }
  }

  /**
   * Stopping and starting again as written: stopListening released the stream it keeps,
   * so the first read with samples meets pointer 0 and listening ends on its own.
   */
  method RestartEndsListening() returns (listening: bool)
    ensures !listening
  {
    var service := new KeywordWakeupService(true, true);
    var _ := service.Initialize(true, true, [NewStream(1, [])]);
    var first := new AudioRecord(true, 1, []);
    service.StartListening(0, true, first, Creates, Creates);
    service.StopListening();
    var second := new AudioRecord(true, 2, [Chunk(seq(320, _ => 0 as int8))]);
    service.StartListening(0, true, second, Creates, Creates);
    assert SampleCount(second.pending[0]) > 0;
    service.ProcessAudioSamples();
    listening := service.isListening;
  }

  /** With the corrected start the same cycle keeps listening and reports the keyword spotted in the new stream. */
  method RestartCorrectedKeepsListening() returns (listening: bool, trace: seq<Event>)
    ensures listening
    ensures trace == [Decoded(DefaultKeywords), StreamReset, Reported(DefaultKeywords)]
  {
    var service, second := RestartCorrected();
    DrainOfOneKeyword();
    ListenOfOneFrame(second.pending, service.stream.accepts);
    service.ProcessAudioSamples();
    listening := service.isListening;
    trace := service.trace;
  }

  /**
   * The start, stop and corrected start of the restart cycle, with an engine whose second
   * stream spots the default keywords in the first frame of the second microphone.
   */
  method RestartCorrected() returns (service: KeywordWakeupService, second: AudioRecord)
    ensures fresh(service) && service.Valid() && service.isListening && service.audioRecord == second
    ensures service.wakeupCallback == Some(0) && service.trace == [] && service.kws != null
    ensures second.pending == [Chunk(seq(320, _ => 0 as int8))]
    ensures fresh(second) && service.stream != null && fresh(service.stream) && service.stream.ptr == 2
    ensures service.stream.accepts == [Accepted([DefaultKeywords])] && service.stream.ready == []
  {
    service := new KeywordWakeupService(true, true);
    var accepts := [Accepted([DefaultKeywords])];
    var _ := service.Initialize(true, true, [NewStream(1, []), NewStream(2, accepts)]);
    var first := new AudioRecord(true, 1, []);
    service.StartListening(0, true, first, Creates, Creates);
    service.StopListening();
    second := new AudioRecord(true, 2, [Chunk(seq(320, _ => 0 as int8))]);
    service.StartListeningCorrected(0, true, second, Creates, Creates);
  }

  lemma DrainOfOneKeyword()
    ensures DrainTrace([DefaultKeywords], true) == [Decoded(DefaultKeywords), StreamReset, Reported(DefaultKeywords)]
  {
    assert !IsBlank(DefaultKeywords) by {
      assert !IsWhitespace(DefaultKeywords[0]);
    }
    assert [DefaultKeywords][..0] == [];
  }

  lemma ListenOfOneFrame(mic: seq<ReadReply>, accepts: seq<AcceptReply>)
    requires mic == [Chunk(seq(320, _ => 0 as int8))] && accepts == [Accepted([DefaultKeywords])]
    ensures ListenTrace(mic, accepts, [], true) == DrainTrace([DefaultKeywords], true)
  {
    assert SampleCount(mic[0]) == 160;
    assert mic[1..] == [];
    assert [] + [DefaultKeywords] == [DefaultKeywords];
  }
}
