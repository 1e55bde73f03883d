/**
 * The audio utility object: codec transcoding with frame normalisation and the decode
 * guard, the capture loop that frames microphone bytes for the encoder, and the
 * recording and playback flags.
 */
module Audio {
  import opened Wrappers
  import opened Pcm
  import opened Opus
  import opened Devices

  /** Size of the silent chunk written to warm a track up. */
  const WarmUpBytes: nat := 1024
  /** Bytes of silence the codec self-test encodes: one second at 16 kHz. */
  const TestPcmBytes: nat := SampleRate * 2

  /** What `encodeToOpus` returns for the encoder's next reply: its bytes when there are some, else null. */
  function EncodedFrame(replies: seq<EncodeReply>): Option<seq<int8>>
  {
    if replies == [] then None
    else match replies[0]
      case EncodeFails => None
      case Encoded(bytes) => if 0 < |bytes| <= MaxEncodedBytes then Some(bytes) else None
  }

  /** What `decodeFromOpus` returns for the decoder's next reply: the samples serialised, else null. */
  function DecodedPcm(replies: seq<DecodeReply>): Option<seq<int8>>
  {
    if replies == [] then None
    else match replies[0]
      case DecodeFails => None
      case Decoded(samples) =>
        if 0 < |samples| <= MaxDecodedSamples then Some(LeBytes(samples)) else None
  }

  /** An encoded frame is never empty and never longer than the 4000-byte buffer. */
  lemma EncodedFrameBounds(replies: seq<EncodeReply>)
    ensures EncodedFrame(replies).Some? ==> 0 < |EncodedFrame(replies).value| <= MaxEncodedBytes
    ensures EncodedFrame(replies).Some? <==>
      replies != [] && replies[0].Encoded? && 0 < |replies[0].bytes| <= MaxEncodedBytes
  {
  }

  /**
   * A decoded frame is 2 x decodedSamples bytes with 0 < decodedSamples <= 1920, and reads
   * back, little-endian, as exactly the samples the decoder produced.
   */
  lemma {:induction false} DecodedPcmShape(replies: seq<DecodeReply>)
    ensures DecodedPcm(replies).Some? <==>
      replies != [] && replies[0].Decoded? && 0 < |replies[0].samples| <= MaxDecodedSamples
    ensures DecodedPcm(replies).Some? ==>
      var out := DecodedPcm(replies).value;
      && |out| == 2 * |replies[0].samples|
      && |out| <= 2 * MaxDecodedSamples
      && LeSamples(out) == replies[0].samples
  {
    if DecodedPcm(replies).Some? {
      SamplesOfBytes(replies[0].samples);
    }
  }

  /** An all-zero PCM input of at least one frame reaches the encoder as 960 zero samples. */
  lemma {:induction false} SilentInputFrame(bytes: seq<int8>)
    requires |bytes| >= FrameBytes
    requires forall k :: 0 <= k < |bytes| ==> bytes[k] == 0
    ensures EncoderFrame(LeSamples(bytes)) == Silence(SamplesPerFrame)
  {
    var s := LeSamples(bytes);
    assert |s| == |bytes| / 2 >= SamplesPerFrame;
    assert EncoderFrame(s) == s[..SamplesPerFrame];
    forall i | 0 <= i < SamplesPerFrame
      ensures s[i] == 0
    {
      LeSamplesAt(bytes, i);
      assert bytes[2 * i] == 0 && bytes[2 * i + 1] == 0;
      assert ShortOf(0, 0) == 0;
    }
  }

  /** The bytes a read leaves in the 1920-byte capture buffer. */
  function Clip(data: seq<int8>): seq<int8>
  {
    if |data| <= FrameBytes then data else data[..FrameBytes]
  }

  /** The encoded frames from index `from` on are neither empty nor longer than the encoder's buffer. */
  ghost predicate FramesFit(frames: seq<seq<int8>>, from: nat)
  {
    forall k :: from <= k < |frames| ==> 0 < |frames[k]| <= MaxEncodedBytes
  }

  /** What the capture loop publishes for one encoder reply: the encoded frame when there is one. */
  function Published(replies: seq<EncodeReply>): seq<seq<int8>>
  {
    match EncodedFrame(replies)
    case Some(b) => [b]
    case None => []
  }

  /** The encoder's replies once `n` encode calls have consumed theirs. */
  function Drop(replies: seq<EncodeReply>, n: nat): seq<EncodeReply>
  {
    if n <= |replies| then replies[n..] else []
  }

  /** The frames published for the first `n` encode calls on a script of encoder replies, in order. */
  function PublishedFrames(replies: seq<EncodeReply>, n: nat): seq<seq<int8>>
  {
    if n == 0 then [] else PublishedFrames(replies, n - 1) + Published(Drop(replies, n - 1))
  }

  /** One more encode call consumes one more reply. */
  lemma DropOne(replies: seq<EncodeReply>, n: nat)
    ensures Drop(Drop(replies, n), 1) == Drop(replies, n + 1)
  {
  }

  /** Publishing the frame of the next encode call extends the frames published so far. */
  lemma PublishedFramesSnoc(base: seq<seq<int8>>, before: seq<seq<int8>>, after: seq<seq<int8>>, replies: seq<EncodeReply>, n: nat)
    requires before == base + PublishedFrames(replies, n)
    requires after == before + Published(Drop(replies, n))
    ensures after == base + PublishedFrames(replies, n + 1)
  {
  }

  /** Every published frame is one the encoder returned, so each has 1 to 4000 bytes. */
  lemma {:induction false} PublishedFramesFit(replies: seq<EncodeReply>, n: nat)
    ensures forall k :: 0 <= k < |PublishedFrames(replies, n)| ==> 0 < |PublishedFrames(replies, n)[k]| <= MaxEncodedBytes
  {
    if n > 0 {
      PublishedFramesFit(replies, n - 1);
      EncodedFrameBounds(Drop(replies, n - 1));
    }
  }

  /** The frame one read hands on: a copy of the bytes read when there are some, nothing otherwise. */
  function FramesOf(reply: ReadReply): seq<seq<int8>>
  {
    match reply
    case Chunk(d) => if |d| > 0 then [Clip(d)] else []
    case ReadError => []
  }

  /** The frames the capture loop hands to the encoder for a run of reads. */
  function CapturedFrames(script: seq<ReadReply>): seq<seq<int8>>
  {
    if script == [] then [] else FramesOf(script[0]) + CapturedFrames(script[1..])
  }

  /** The frames of a run of reads grow by one read's frames at a time. */
  lemma {:induction false} CapturedFramesSnoc(script: seq<ReadReply>, i: nat)
    requires i < |script|
    ensures CapturedFrames(script[..i + 1]) == CapturedFrames(script[..i]) + FramesOf(script[i])
    decreases i
  {
    if i > 0 {
      assert script[..i + 1][1..] == script[1..][..i];
      assert script[..i][1..] == script[1..][..i - 1];
      CapturedFramesSnoc(script[1..], i - 1);
    }
  }

  lemma EncoderInputsAppend(a: seq<seq<int8>>, b: seq<seq<int8>>)
    ensures EncoderInputs(a + b) == EncoderInputs(a) + EncoderInputs(b)
  {
  }

  /** The sample frames the encoder is given for a run of PCM inputs. */
  function EncoderInputs(frames: seq<seq<int8>>): seq<seq<int16>>
  {
    seq(|frames|, i requires 0 <= i < |frames| => EncoderFrame(LeSamples(frames[i])))
  }

  /** Each captured frame is non-empty and at most one frame long, so the encoder never cuts it. */
  lemma {:induction false} CapturedFramesFit(script: seq<ReadReply>, k: nat)
    requires k < |CapturedFrames(script)|
    ensures 0 < |CapturedFrames(script)[k]| <= FrameBytes
    ensures |LeSamples(CapturedFrames(script)[k])| <= SamplesPerFrame
    decreases |script|
  {
    var here := FramesOf(script[0]);
    if k >= |here| {
      CapturedFramesFit(script[1..], k - |here|);
    }
  }

  class AudioUtil {
    var audioRecord: AudioRecord?
    var audioTrack: AudioTrack?
    var isRecording: bool
    var isPlaying: bool
    var opusEncoder: OpusEncoder?
    var opusDecoder: OpusDecoder?
    /** The encoded frames published on the audio stream, in order. */
    var emitted: seq<seq<int8>>
    /** Every captured frame the capture loop handed to the encoder, in order. */
    ghost var captured: seq<seq<int8>>

    constructor ()
      ensures audioRecord == null && audioTrack == null
      ensures opusEncoder == null && opusDecoder == null
      ensures !isRecording && !isPlaying && emitted == [] && captured == []
    {
      audioRecord := null;
      audioTrack := null;
      isRecording := false;
      isPlaying := false;
      opusEncoder := null;
      opusDecoder := null;
      emitted := [];
      captured := [];
    }

    /**
     * initOpusCodecs. `encoder` and `decoder` are what the two constructors produce, null
     * when one throws; the exception is caught, and a throwing encoder means the decoder
     * is not built.
     */
    method InitOpusCodecs(encoder: OpusEncoder?, decoder: OpusDecoder?)
      modifies this`opusEncoder, this`opusDecoder
      ensures encoder == null ==> opusEncoder == old(opusEncoder) && opusDecoder == old(opusDecoder)
      ensures encoder != null ==> opusEncoder == encoder
      ensures encoder != null ==> opusDecoder == if decoder == null then old(opusDecoder) else decoder
    {
      if encoder == null {
        return;
      }
      opusEncoder := encoder;
      if decoder != null {
        opusDecoder := decoder;
      }
    }

    /**
     * initRecorder: fails without the record permission or when the device cannot be
     * built (`record` null), otherwise keeps the device and initialises the codecs.
     */
    method InitRecorder(permissionGranted: bool, record: AudioRecord?, encoder: OpusEncoder?, decoder: OpusDecoder?)
      returns (o: Outcome)
      modifies this`audioRecord, this`opusEncoder, this`opusDecoder
      ensures !permissionGranted ==> o == Threw("RECORD_AUDIO permission not granted")
      ensures permissionGranted && record == null ==> o.Threw?
      ensures o.Threw? ==> audioRecord == old(audioRecord)
      ensures o.Threw? ==> opusEncoder == old(opusEncoder) && opusDecoder == old(opusDecoder)
      ensures o.Done? <==> permissionGranted && record != null
      ensures o.Done? ==> audioRecord == record && opusEncoder == (if encoder == null then old(opusEncoder) else encoder)
      ensures o.Done? && encoder != null ==> opusDecoder == if decoder == null then old(opusDecoder) else decoder
    {
      if !permissionGranted {
        return Threw("RECORD_AUDIO permission not granted");
      }
      if record == null {
        return Threw("Failed to initialize AudioRecord");
      }
      audioRecord := record;
      InitOpusCodecs(encoder, decoder);
      o := Done;
    }

    /** initAudioTrack: `track` is what the builder produces, null when it throws. */
    method InitAudioTrack(track: AudioTrack?) returns (threw: bool)
      modifies this`audioTrack
      ensures threw == (track == null)
      ensures audioTrack == if track == null then old(audioTrack) else track
    {
      threw := track == null;
      if track != null {
        audioTrack := track;
      }
    }

    /**
     * initPlayer: releases the current track, builds a new one (rethrowing when that
     * fails, the released track still referenced) and initialises the codecs.
     */
    method InitPlayer(track: AudioTrack?, encoder: OpusEncoder?, decoder: OpusDecoder?) returns (o: Outcome)
      modifies this`audioTrack, this`opusEncoder, this`opusDecoder, audioTrack
      ensures old(audioTrack) != null ==> old(audioTrack).released
      ensures o.Threw? <==> track == null
      ensures o.Threw? ==> audioTrack == old(audioTrack)
      ensures o.Threw? ==> opusEncoder == old(opusEncoder) && opusDecoder == old(opusDecoder)
      ensures o.Done? ==> audioTrack == track
      ensures o.Done? ==> opusEncoder == (if encoder == null then old(opusEncoder) else encoder)
      ensures o.Done? && encoder != null ==> opusDecoder == if decoder == null then old(opusDecoder) else decoder
    {
      if audioTrack != null {
        audioTrack.Release();
      }
      var threw := InitAudioTrack(track);
      if threw {
        return Threw("Failed to initialize AudioTrack");
      }
      InitOpusCodecs(encoder, decoder);
      o := Done;
    }

    /** preInitializeAudio: builds the codecs when there is no decoder, and a track when there is none. */
    method PreInitializeAudio(track: AudioTrack?, encoder: OpusEncoder?, decoder: OpusDecoder?)
      modifies this`audioTrack, this`opusEncoder, this`opusDecoder
      ensures old(opusDecoder) != null ==> opusEncoder == old(opusEncoder) && opusDecoder == old(opusDecoder)
      ensures old(opusDecoder) == null && encoder != null ==> opusEncoder == encoder && opusDecoder == decoder
      ensures old(opusDecoder) == null && encoder == null ==> opusEncoder == old(opusEncoder) && opusDecoder == null
      ensures audioTrack == if old(audioTrack) == null then track else old(audioTrack)
    {
      if opusDecoder == null {
        InitOpusCodecs(encoder, decoder);
      }
      if audioTrack == null {
        var _ := InitAudioTrack(track);
      }
    }

    /**
     * warmUpAudioTrack: a track that exists and is not playing gets 1024 bytes of silence
     * and is started. The playing flag is left as it was.
     */
    method WarmUpAudioTrack()
      modifies audioTrack
      ensures audioTrack != null && old(audioTrack.playState) != Playing ==>
        audioTrack.playState == Playing &&
        audioTrack.written == old(audioTrack.written) + [seq(WarmUpBytes, _ => 0 as int8)]
      ensures audioTrack != null && old(audioTrack.playState) == Playing ==>
        audioTrack.playState == Playing && audioTrack.written == old(audioTrack.written)
      ensures isPlaying == old(isPlaying)
    {
      if audioTrack != null && audioTrack.playState != Playing {
        var _ := audioTrack.Write(seq(WarmUpBytes, _ => 0 as int8));
        audioTrack.Play();
      }
    }

    /**
     * warmUpAudioTrack as the playing flag evidently intends: the flag is set when the track
     * is started, so a later stopPlaying reaches the track.
     */
    method WarmUpAudioTrackCorrected()
      modifies this`isPlaying, audioTrack
      ensures audioTrack != null && old(audioTrack.playState) != Playing ==>
        audioTrack.playState == Playing && isPlaying &&
        audioTrack.written == old(audioTrack.written) + [seq(WarmUpBytes, _ => 0 as int8)]
      ensures audioTrack != null && old(audioTrack.playState) == Playing ==>
        audioTrack.playState == Playing && audioTrack.written == old(audioTrack.written) && isPlaying == old(isPlaying)
      ensures audioTrack == null ==> isPlaying == old(isPlaying)
      ensures old(PlaybackConsistent()) ==> PlaybackConsistent()
    {
      if audioTrack != null && audioTrack.playState != Playing {
        var _ := audioTrack.Write(seq(WarmUpBytes, _ => 0 as int8));
        audioTrack.Play();
        isPlaying := true;
      }
    }

    /**
     * startRecording: a no-op while recording; otherwise starts the device (rethrowing its
     * failure, the flag still clear) and sets the flag. The capture loop it launches is
     * `CaptureLoop`.
     */
    method StartRecording() returns (o: Outcome)
      modifies this`isRecording, audioRecord
      ensures old(isRecording) ==> o == Done && isRecording && (audioRecord != null ==> unchanged(audioRecord))
      ensures !old(isRecording) && audioRecord != null && !audioRecord.initialized ==> o.Threw? && !isRecording
      ensures !old(isRecording) && (audioRecord == null || audioRecord.initialized) ==> o == Done && isRecording
      ensures audioRecord != null && o == Done && !old(isRecording) ==> audioRecord.recording
    {
      if isRecording {
        return Done;
      }
      if audioRecord != null {
        var threw := audioRecord.StartRecording();
        if threw {
          return Threw("startRecording() called on an uninitialized AudioRecord.");
        }
      }
      isRecording := true;
      o := Done;
    }

    /** stopRecording: a no-op when not recording; otherwise clears the flag and stops the device. */
    method StopRecording()
      modifies this`isRecording, audioRecord
      ensures !isRecording
      ensures !old(isRecording) && audioRecord != null ==> unchanged(audioRecord)
      ensures old(isRecording) && audioRecord != null ==> !audioRecord.recording
    {
      if !isRecording {
        return;
      }
      isRecording := false;
      if audioRecord != null {
        audioRecord.Stop();
      }
    }

    /**
     * encodeToOpus: reads the bytes as little-endian samples, hands the encoder exactly
     * 960 of them (padded with zeros or cut) and returns the first `encodedBytes` bytes of
     * the 4000-byte output buffer; null without an encoder, for empty input, for a zero
     * count or when the encoder throws.
     */
    method EncodeToOpus(pcmData: seq<int8>) returns (r: Option<seq<int8>>)
      modifies opusEncoder
      ensures opusEncoder == null || |pcmData| == 0 ==> r == None
      ensures |pcmData| == 0 && opusEncoder != null ==> unchanged(opusEncoder)
      ensures opusEncoder != null && |pcmData| > 0 ==>
        && opusEncoder.received == old(opusEncoder.received) + [EncoderFrame(LeSamples(pcmData))]
        && opusEncoder.replies == (if old(opusEncoder.replies) == [] then [] else old(opusEncoder.replies)[1..])
        && r == EncodedFrame(old(opusEncoder.replies))
      ensures r.Some? ==> 0 < |r.value| <= MaxEncodedBytes
    {
      if opusEncoder == null {
        return None;
      }
      if |pcmData| == 0 {
        return None;
      }
      var pcm := ReadSamples(pcmData);
      var input := FrameInput(pcm);
      var encoded := new int8[MaxEncodedBytes](_ => 0);
      var count: nat, threw: bool;
      count, threw := opusEncoder.Encode(input, SamplesPerFrame, encoded);
      if threw || count == 0 {
        return None;
      }
      r := Some(encoded[..count]);
    }

    /** The 16-bit little-endian samples of a PCM byte buffer, in a new array. */
    static method ReadSamples(pcmData: seq<int8>) returns (pcm: array<int16>)
      ensures fresh(pcm) && pcm[..] == LeSamples(pcmData)
    {
      pcm := new int16[|pcmData| / 2](_ => 0);
      for i := 0 to pcm.Length
        modifies pcm
        invariant forall k :: 0 <= k < i ==> pcm[k] == LeSamples(pcmData)[k]
      {
        pcm[i] := ShortOf(pcmData[2 * i], pcmData[2 * i + 1]);
      }
      assert pcm[..] == LeSamples(pcmData);
    }

    /**
     * The array whose first 960 samples the encoder reads: the samples themselves when
     * there are at least 960, else a copy padded with silence.
     */
    static method FrameInput(pcm: array<int16>) returns (input: array<int16>)
      ensures input == pcm || fresh(input)
      ensures SamplesPerFrame <= input.Length && input[..SamplesPerFrame] == EncoderFrame(pcm[..])
    {
      if pcm.Length >= SamplesPerFrame {
        assert pcm[..SamplesPerFrame] == EncoderFrame(pcm[..]);
        return pcm;
      }
      input := new int16[SamplesPerFrame](_ => 0);
      forall i | 0 <= i < pcm.Length {
        input[i] := pcm[i];
      }
      ghost var frame := EncoderFrame(pcm[..]);
      assert input[..] == frame by {
        assert frame == pcm[..] + Silence(SamplesPerFrame - pcm.Length);
        assert forall i :: 0 <= i < SamplesPerFrame ==> input[i] == frame[i];
      }
      assert input[..SamplesPerFrame] == input[..];
    }

    /**
     * decodeFromOpus: skips empty frames, every 960-byte frame and a 120-byte frame whose
     * first four bytes are zero; otherwise decodes into a 1920-sample buffer and returns
     * the samples as little-endian bytes, or null for zero samples or a decoder exception.
     */
    method DecodeFromOpus(opusData: seq<int8>) returns (r: Option<seq<int8>>)
      modifies opusDecoder
      ensures opusDecoder == null || DecodeSkips(opusData) ==> r == None
      ensures DecodeSkips(opusData) && opusDecoder != null ==> unchanged(opusDecoder)
      ensures opusDecoder != null && !DecodeSkips(opusData) ==>
        && opusDecoder.received == old(opusDecoder.received) + [opusData]
        && opusDecoder.replies == (if old(opusDecoder.replies) == [] then [] else old(opusDecoder.replies)[1..])
        && r == DecodedPcm(old(opusDecoder.replies))
    {
      if opusDecoder == null {
        return None;
      }
      if |opusData| == 0 {
        return None;
      }
      if |opusData| == SkippedFrameLength {
        return None;
      }
      if |opusData| == ScreenedFrameLength {
        var allZeros := true;
        var hasValidData := false;
        for i := 0 to |opusData|
          invariant allZeros <==> forall k :: 0 <= k < i ==> opusData[k] == 0
          invariant hasValidData <==> exists k :: 0 <= k < i && k < 4 && opusData[k] != 0
        {
          if opusData[i] != 0 {
            allZeros := false;
          }
          if i < 4 && opusData[i] != 0 {
            hasValidData := true;
          }
        }
        if allZeros {
          return None;
        }
        if !hasValidData {
          assert HeaderIsZero(opusData) by {
            assert forall k :: 0 <= k < 4 ==> opusData[k] == 0;
          }
          return None;
        }
        assert !HeaderIsZero(opusData);
      }
      var pcm := new int16[MaxDecodedSamples](_ => 0);
      var decodedSamples, threw := opusDecoder.Decode(opusData, pcm, MaxDecodedSamples);
      if threw || decodedSamples == 0 {
        return None;
      }
      var bytes := WriteSamples(pcm, decodedSamples);
      r := Some(bytes);
    }

    /** The little-endian ByteBuffer the decoder path fills with the first `count` samples. */
    static method WriteSamples(pcm: array<int16>, count: nat) returns (bytes: seq<int8>)
      requires count <= pcm.Length
      ensures bytes == LeBytes(pcm[..count])
    {
      var out := new int8[count * 2](_ => 0);
      ghost var samples := pcm[..count];
      for i := 0 to count
        modifies out
        invariant forall j :: 0 <= j < 2 * i ==> out[j] == LeBytes(samples)[j]
      {
        assert (2 * i) / 2 == i && (2 * i) % 2 == 0;
        assert (2 * i + 1) / 2 == i && (2 * i + 1) % 2 == 1;
        assert LeBytes(samples)[2 * i] == LowByte(samples[i]);
        assert LeBytes(samples)[2 * i + 1] == HighByte(samples[i]);
        out[2 * i] := LowByte(pcm[i]);
        out[2 * i + 1] := HighByte(pcm[i]);
      }
      assert out[..] == LeBytes(samples);
      bytes := out[..];
    }

    /** The flags agree with the device: a track that is playing is flagged as playing. */
    ghost predicate PlaybackConsistent()
      reads this, audioTrack
    {
      audioTrack != null && audioTrack.playState == Playing ==> isPlaying
    }

    /** One pass of the capture loop: one read, and for a non-empty one a copy of exactly the bytes read encoded and published. */
    method CaptureOnce(buffer: array<int8>)
      requires audioRecord != null && buffer.Length == FrameBytes
      modifies this`emitted, this`captured, audioRecord, buffer, opusEncoder
      ensures audioRecord.pending == if old(audioRecord.pending) == [] then [] else old(audioRecord.pending)[1..]
      ensures audioRecord.recording == (old(audioRecord.recording) && old(audioRecord.pending) != [])
      ensures captured == old(captured) + FramesOf(old(audioRecord.NextRead()))
      ensures opusEncoder != null ==>
        opusEncoder.received == old(opusEncoder.received) + EncoderInputs(FramesOf(old(audioRecord.NextRead())))
      ensures opusEncoder != null ==>
        opusEncoder.replies == if FramesOf(old(audioRecord.NextRead())) == [] then old(opusEncoder.replies)
                               else Drop(old(opusEncoder.replies), 1)
      ensures emitted == old(emitted) +
        if opusEncoder != null && FramesOf(old(audioRecord.NextRead())) != [] then Published(old(opusEncoder.replies)) else []
    {
      ghost var reply := audioRecord.NextRead();
      ghost var d := if reply.Chunk? then reply.data else [];
      assert |d| <= FrameBytes ==> d[..|d|] == d;
      var bytesRead := audioRecord.ReadBytes(buffer);
      assert bytesRead > 0 ==> FramesOf(reply) == [buffer[..bytesRead]];
      if bytesRead > 0 {
        var audioData := buffer[..bytesRead];
        captured := captured + [audioData];
        var opus := EncodeToOpus(audioData);
        if opus.Some? {
          emitted := emitted + [opus.value];
        }
      }
    }

    /**
     * The capture loop launched by startRecording: while recording, read up to 1920 bytes,
     * hand a copy of exactly the bytes read to the encoder, and publish what it returns.
     */
    method CaptureLoop()
      modifies this`emitted, this`captured, audioRecord, opusEncoder
      ensures audioRecord != null && isRecording ==> !audioRecord.recording
      ensures old(isRecording && audioRecord != null && audioRecord.recording) ==>
        captured == old(captured) + CapturedFrames(old(audioRecord.pending))
      ensures !old(isRecording && audioRecord != null && audioRecord.recording) ==>
        captured == old(captured) && emitted == old(emitted)
      ensures opusEncoder != null ==>
        opusEncoder.received == old(opusEncoder.received) + EncoderInputs(captured[|old(captured)|..])
      ensures old(captured) <= captured
      ensures opusEncoder == null ==> emitted == old(emitted)
      ensures opusEncoder != null ==>
        && opusEncoder.replies == Drop(old(opusEncoder.replies), |captured| - |old(captured)|)
        && emitted == old(emitted) + PublishedFrames(old(opusEncoder.replies), |captured| - |old(captured)|)
      ensures FramesFit(emitted, |old(emitted)|)
    {
      if audioRecord == null || !(isRecording && audioRecord.recording) {
        return;
      }
      var buffer := new int8[FrameBytes](_ => 0);
      ghost var script := audioRecord.pending;
      ghost var replies := if opusEncoder != null then opusEncoder.replies else [];
      ghost var received := if opusEncoder != null then opusEncoder.received else [];
      ghost var i: nat, n: nat := 0, 0;
      while isRecording && audioRecord.recording
        invariant CaptureProgress(script, replies, old(captured), old(emitted), received, i, n)
        invariant opusEncoder != null ==> received == old(opusEncoder.received) && replies == old(opusEncoder.replies)
        decreases |audioRecord.pending| + (if audioRecord.recording then 1 else 0)
      {
        i, n := CaptureStep(buffer, script, replies, old(captured), old(emitted), received, i, n);
      }
      assert script[..|script|] == script;
      assert captured[|old(captured)|..] == CapturedFrames(script[..i]);
      PublishedFramesFit(replies, n);
    }

    /**
     * Where the capture loop stands after `i` reads of `script`, `n` of which had bytes:
     * the frames handed on, what the encoder received and consumed, and what was published.
     */
    ghost predicate CaptureProgress(script: seq<ReadReply>, replies: seq<EncodeReply>, captured0: seq<seq<int8>>,
                                    emitted0: seq<seq<int8>>, received0: seq<seq<int16>>, i: nat, n: nat)
      reads this, audioRecord, opusEncoder
    {
      && audioRecord != null
      && i <= |script|
      && (audioRecord.recording ==> audioRecord.pending == script[i..])
      && (!audioRecord.recording ==> i == |script|)
      && captured == captured0 + CapturedFrames(script[..i])
      && |captured| == |captured0| + n
      && (opusEncoder != null ==> opusEncoder.received == received0 + EncoderInputs(CapturedFrames(script[..i])))
      && (opusEncoder == null ==> emitted == emitted0)
      && (opusEncoder != null ==> opusEncoder.replies == Drop(replies, n))
      && (opusEncoder != null ==> emitted == emitted0 + PublishedFrames(replies, n))
    }

    /** One pass of the capture loop, and where that leaves the loop. */
    method CaptureStep(buffer: array<int8>, ghost script: seq<ReadReply>, ghost replies: seq<EncodeReply>,
                       ghost captured0: seq<seq<int8>>, ghost emitted0: seq<seq<int8>>, ghost received0: seq<seq<int16>>,
                       ghost i: nat, ghost n: nat)
      returns (ghost i': nat, ghost n': nat)
      requires CaptureProgress(script, replies, captured0, emitted0, received0, i, n)
      requires audioRecord.recording && buffer.Length == FrameBytes
      modifies this`emitted, this`captured, audioRecord, buffer, opusEncoder
      ensures CaptureProgress(script, replies, captured0, emitted0, received0, i', n')
      ensures |audioRecord.pending| + (if audioRecord.recording then 1 else 0)
        < old(|audioRecord.pending| + (if audioRecord.recording then 1 else 0))
    {
      ghost var step := FramesOf(audioRecord.NextRead());
      ghost var before := emitted;
      ghost var capturedBefore := captured;
      CaptureOnce(buffer);
      assert |step| == if step == [] then 0 else 1;
      n' := n;
      if step != [] {
        if opusEncoder != null {
          PublishedFramesSnoc(emitted0, before, emitted, replies, n);
        }
        DropOne(replies, n);
        n' := n + 1;
      }
      i' := i;
      if i < |script| {
        CapturedFramesSnoc(script, i);
        i' := i + 1;
      }
      assert CapturedFrames(script[..i']) == CapturedFrames(script[..i]) + step;
      assert captured == capturedBefore + step == captured0 + (CapturedFrames(script[..i]) + step);
      EncoderInputsAppend(CapturedFrames(script[..i]), step);
    }

    /**
     * playPcmData: opens a track when there is none (giving up when that fails), starts it
     * and sets the playing flag when it is not playing, then writes the whole chunk.
     */
    method PlayPcmData(data: seq<int8>, track: AudioTrack?)
      requires track != null ==> track.playState == Stopped
      modifies this`audioTrack, this`isPlaying, audioTrack, track
      ensures old(audioTrack) == null && track == null ==>
        audioTrack == null && isPlaying == old(isPlaying)
      ensures var t := if old(audioTrack) != null then old(audioTrack) else track;
        t != null ==>
          && audioTrack == t
          && t.playState == Playing
          && t.written == old(t.written) + [data]
          && isPlaying == (old(isPlaying) || old(t.playState) != Playing)
      ensures old(PlaybackConsistent()) ==> PlaybackConsistent()
    {
      if audioTrack == null {
        var threw := InitAudioTrack(track);
        if threw {
          return;
        }
      }
      if audioTrack.playState != Playing {
        audioTrack.Play();
        isPlaying := true;
      }
      var _ := audioTrack.Write(data);
    }

    /**
     * playOpusData: builds the codecs when there is no decoder (giving up when that does
     * not produce one), ignores empty data, decodes, and plays what the decoder returns.
     */
    method PlayOpusData(data: seq<int8>, encoder: OpusEncoder?, decoder: OpusDecoder?, track: AudioTrack?)
      requires track != null ==> track.playState == Stopped
      modifies this`opusEncoder, this`opusDecoder, this`audioTrack, this`isPlaying
      modifies opusDecoder, decoder, audioTrack, track
      ensures old(opusDecoder) != null ==> opusDecoder == old(opusDecoder) && opusEncoder == old(opusEncoder)
      ensures old(opusDecoder) == null ==> opusDecoder == (if encoder != null then decoder else null)
      ensures opusDecoder == null || DecodeSkips(data) ==>
        audioTrack == old(audioTrack) && isPlaying == old(isPlaying) &&
        (audioTrack != null ==> audioTrack.written == old(audioTrack.written))
      ensures var d := opusDecoder;
        d != null && !DecodeSkips(data) ==> d.received == old(d.received) + [data]
      ensures var d, t := opusDecoder, if old(audioTrack) != null then old(audioTrack) else track;
        d != null && !DecodeSkips(data) && t != null ==>
          t.written == old(t.written) + (match DecodedPcm(old(d.replies))
            case Some(pcm) => [pcm]
            case None => [])
      ensures old(PlaybackConsistent()) ==> PlaybackConsistent()
    {
      if opusDecoder == null {
        InitOpusCodecs(encoder, decoder);
        if opusDecoder == null {
          return;
        }
      }
      if |data| == 0 {
        return;
      }
      var pcmData := DecodeFromOpus(data);
      if pcmData.Some? {
        PlayPcmData(pcmData.value, track);
      }
    }

    /** stopPlaying: a no-op when not playing; otherwise clears the flag and stops the track. */
    method StopPlaying()
      modifies this`isPlaying, audioTrack
      ensures !isPlaying
      ensures !old(isPlaying) && audioTrack != null ==> unchanged(audioTrack)
      ensures old(isPlaying) && audioTrack != null ==>
        audioTrack.playState == Stopped && audioTrack.written == old(audioTrack.written)
      ensures old(isPlaying) ==> PlaybackConsistent()
    {
      if !isPlaying {
        return;
      }
      isPlaying := false;
      if audioTrack != null {
        audioTrack.Stop();
      }
    }

    /**
     * testOpusCodec: builds the codecs, encodes one second of silence and decodes the
     * result; true exactly when both steps return data.
     */
    method TestOpusCodec(encoder: OpusEncoder?, decoder: OpusDecoder?) returns (ok: bool)
      modifies this`opusEncoder, this`opusDecoder, encoder, decoder, opusEncoder, opusDecoder
      ensures encoder != null ==> opusEncoder == encoder
      ensures var e, d := (if encoder != null then encoder else old(opusEncoder)),
                          (if encoder != null && decoder != null then decoder else old(opusDecoder));
        e != null && d != null ==>
          var encoded := EncodedFrame(old(e.replies));
          && e.received == old(e.received) + [Silence(SamplesPerFrame)]
          && (ok <==> encoded.Some? && !DecodeSkips(encoded.value) && DecodedPcm(old(d.replies)).Some?)
      ensures opusEncoder == null || opusDecoder == null ==> !ok
    {
      InitOpusCodecs(encoder, decoder);
      if opusEncoder == null || opusDecoder == null {
        return false;
      }
      var testPcmData := seq(TestPcmBytes, _ => 0 as int8);
      SilentInputFrame(testPcmData);
      var encodedData := EncodeToOpus(testPcmData);
      if encodedData.None? {
        return false;
      }
      var decodedData := DecodeFromOpus(encodedData.value);
      if decodedData.None? {
        return false;
      }
      ok := true;
    }

    /** dispose: stops both directions, releases both devices and drops every handle. */
    method Dispose()
      modifies this`isRecording, this`isPlaying, this`audioRecord, this`audioTrack
      modifies this`opusEncoder, this`opusDecoder, audioRecord, audioTrack
      ensures !isRecording && !isPlaying
      ensures audioRecord == null && audioTrack == null && opusEncoder == null && opusDecoder == null
      ensures old(audioRecord) != null ==> old(audioRecord).released && !old(audioRecord).recording
      ensures old(audioTrack) != null ==> old(audioTrack).released && old(audioTrack).playState == Stopped
    {
      StopRecording();
      StopPlaying();
      if audioRecord != null {
        audioRecord.Release();
      }
      if audioTrack != null {
        audioTrack.Release();
      }
      opusEncoder := null;
      opusDecoder := null;
      audioRecord := null;
      audioTrack := null;
    }
  }

  /**
   * A track warmed up as written and then stopped keeps playing: warm-up starts the
   * track without setting the playing flag, so stopPlaying returns early.
   */
  method WarmUpThenStop() returns (stillPlaying: bool)
    ensures stillPlaying
  {
    var util := new AudioUtil();
    var track := new AudioTrack();
    var _ := util.InitAudioTrack(track);
    util.WarmUpAudioTrack();
    util.StopPlaying();
    stillPlaying := track.playState == Playing;
  }

  /** With the corrected warm-up the same sequence stops the track. */
  method WarmUpThenStopCorrected() returns (stillPlaying: bool)
    ensures !stillPlaying
  {
    var util := new AudioUtil();
    var track := new AudioTrack();
    var _ := util.InitAudioTrack(track);
    util.WarmUpAudioTrackCorrected();
    util.StopPlaying();
    stillPlaying := track.playState == Playing;
  }
}
