/**
 * PCM conventions shared by the audio pipeline: signed 8-bit bytes, signed 16-bit
 * little-endian samples, the fixed 60 ms frame at 16 kHz, and the two frame-shaping
 * rules of the codec path (what the encoder is given, and which frames the decoder skips).
 */
module Pcm {

  /** A Kotlin `Byte`. */
  newtype int8 = x: int | -128 <= x < 128

  /** A Kotlin `Short`. */
  newtype int16 = x: int | -32768 <= x < 32768

  const SampleRate: nat := 16000
  const FrameDurationMs: nat := 60
  /** Samples in one frame: 16000 * 60 / 1000 = 960. */
  const SamplesPerFrame: nat := SampleRate * FrameDurationMs / 1000
  /** Bytes in one captured frame: 960 samples of 2 bytes. */
  const FrameBytes: nat := SamplesPerFrame * 2
  /** Capacity of the buffer the encoder writes into. */
  const MaxEncodedBytes: nat := 4000
  /** Capacity of the sample buffer the decoder writes into. */
  const MaxDecodedSamples: nat := 1920
  /** Length of an encoded frame the decoder always skips. */
  const SkippedFrameLength: nat := 960
  /** Length of an encoded frame whose header is screened before decoding. */
  const ScreenedFrameLength: nat := 120

  /** The byte read as an unsigned value 0..255. */
  function Unsigned(b: int8): int
  {
    if b < 0 then b as int + 256 else b as int
  }

  /** The sample whose little-endian encoding is `lo, hi` (ByteBuffer.getShort in LITTLE_ENDIAN order). */
  function ShortOf(lo: int8, hi: int8): int16
  {
    (hi as int * 256 + Unsigned(lo)) as int16
  }

  /** The first byte ByteBuffer.putShort writes in LITTLE_ENDIAN order. */
  function LowByte(s: int16): int8
  {
    var u := s as int % 256;
    (if u >= 128 then u - 256 else u) as int8
  }

  /** The second byte ByteBuffer.putShort writes in LITTLE_ENDIAN order. */
  function HighByte(s: int16): int8
  {
    (s as int / 256) as int8
  }

  /** Reading the two bytes of a sample back gives the sample. */
  lemma ShortOfBytes(s: int16)
    ensures ShortOf(LowByte(s), HighByte(s)) == s
  {
    assert Unsigned(LowByte(s)) == s as int % 256;
  }

  /** Splitting a sample read from two bytes gives those bytes back. */
  lemma BytesOfShort(lo: int8, hi: int8)
    ensures LowByte(ShortOf(lo, hi)) == lo && HighByte(ShortOf(lo, hi)) == hi
  {
    var v := hi as int * 256 + Unsigned(lo);
    assert v % 256 == Unsigned(lo);
    assert v / 256 == hi as int;
  }

  /** The samples of a PCM byte array read two bytes at a time, little-endian; a trailing odd byte is not read. */
  function LeSamples(bytes: seq<int8>): seq<int16>
  {
    seq(|bytes| / 2, i requires 0 <= i < |bytes| / 2 => ShortOf(bytes[2 * i], bytes[2 * i + 1]))
  }

  /** The little-endian byte serialisation of a sample sequence. */
  function LeBytes(samples: seq<int16>): seq<int8>
  {
    seq(2 * |samples|, j requires 0 <= j < 2 * |samples| =>
      if j % 2 == 0 then LowByte(samples[j / 2]) else HighByte(samples[j / 2]))
  }

  function Silence(n: nat): seq<int16>
  {
    seq(n, _ => 0)
  }

  /**
   * The 960 samples the encoder is given for a PCM input: the input itself when it has
   * exactly 960 samples, zero-padded when shorter, cut to its first 960 when longer.
   */
  function EncoderFrame(samples: seq<int16>): seq<int16>
  {
    if |samples| == SamplesPerFrame then samples
    else if |samples| < SamplesPerFrame then samples + Silence(SamplesPerFrame - |samples|)
    else samples[..SamplesPerFrame]
  }

  predicate HeaderIsZero(frame: seq<int8>)
    requires |frame| >= 4
  {
    frame[0] == 0 && frame[1] == 0 && frame[2] == 0 && frame[3] == 0
  }

  /** The length-based screening that precedes a decode: which encoded frames are never decoded. */
  predicate DecodeSkips(frame: seq<int8>)
  {
    |frame| == 0
    || |frame| == SkippedFrameLength
    || (|frame| == ScreenedFrameLength && HeaderIsZero(frame))
  }

  /** Index facts about halving that the serialisation proofs use. */
  lemma HalfIndex(j: nat)
    ensures j % 2 == 0 ==> j == 2 * (j / 2)
    ensures j % 2 == 1 ==> j == 2 * (j / 2) + 1
  {
  }

  /** Sample i of a PCM array comes from bytes 2i and 2i+1, and there are n/2 samples. */
  lemma LeSamplesAt(bytes: seq<int8>, i: nat)
    requires i < |bytes| / 2
    ensures |LeSamples(bytes)| == |bytes| / 2
    ensures 2 * i + 1 < |bytes|
    ensures LeSamples(bytes)[i] == ShortOf(bytes[2 * i], bytes[2 * i + 1])
  {
  }

  /** Deserialising a serialisation gives the samples back. */
  lemma {:induction false} SamplesOfBytes(samples: seq<int16>)
    ensures LeSamples(LeBytes(samples)) == samples
  {
    var b := LeBytes(samples);
    assert |b| / 2 == |samples|;
    forall i | 0 <= i < |samples|
      ensures LeSamples(b)[i] == samples[i]
    {
      assert (2 * i) % 2 == 0 && (2 * i) / 2 == i;
      assert (2 * i + 1) % 2 == 1 && (2 * i + 1) / 2 == i;
      ShortOfBytes(samples[i]);
    }
  }

  /** Serialising the samples read from a PCM array gives that array back, without its odd trailing byte. */
  lemma {:induction false} BytesOfSamples(bytes: seq<int8>)
    ensures LeBytes(LeSamples(bytes)) == bytes[..2 * (|bytes| / 2)]
  {
    var s := LeSamples(bytes);
    var n := 2 * (|bytes| / 2);
    forall j | 0 <= j < n
      ensures LeBytes(s)[j] == bytes[j]
    {
      HalfIndex(j);
      BytesOfShort(bytes[2 * (j / 2)], bytes[2 * (j / 2) + 1]);
    }
  }

  /** An odd trailing byte does not change the samples read. */
  lemma TrailingByteIgnored(bytes: seq<int8>, extra: int8)
    requires |bytes| % 2 == 0
    ensures LeSamples(bytes + [extra]) == LeSamples(bytes)
  {
    var b := bytes + [extra];
    assert |b| / 2 == |bytes| / 2;
    forall i | 0 <= i < |bytes| / 2
      ensures LeSamples(b)[i] == LeSamples(bytes)[i]
    {
      assert 2 * i + 1 < |bytes|;
    }
  }

  /**
   * The encoder always gets exactly 960 samples: the first min(n/2, 960) samples of an
   * n-byte input, then zeros. Short input is padded and long input cut, never rejected.
   */
  lemma EncoderFrameShape(bytes: seq<int8>, i: nat)
    requires i < SamplesPerFrame
    ensures |EncoderFrame(LeSamples(bytes))| == SamplesPerFrame
    ensures EncoderFrame(LeSamples(bytes))[i] ==
      if i < |bytes| / 2 then ShortOf(bytes[2 * i], bytes[2 * i + 1]) else 0
  {
    var s := LeSamples(bytes);
    if i < |bytes| / 2 {
      LeSamplesAt(bytes, i);
    }
  }

  /** A frame of at most 1920 bytes is padded, never cut: all of its samples reach the encoder. */
  lemma CapturedFrameIsNotCut(bytes: seq<int8>)
    requires |bytes| <= FrameBytes
    ensures |LeSamples(bytes)| <= SamplesPerFrame
    ensures EncoderFrame(LeSamples(bytes))[..|bytes| / 2] == LeSamples(bytes)
  {
  }

  /**
   * The 120-byte screening, in the words of the two flags the decoder path computes:
   * such a frame is skipped exactly when it is all zeros or none of its first four bytes is
   * non-zero, and that is exactly when its first four bytes are zero.
   */
  lemma ScreenedFrameRule(frame: seq<int8>)
    requires |frame| == ScreenedFrameLength
    ensures DecodeSkips(frame) <==>
      (forall k :: 0 <= k < |frame| ==> frame[k] == 0) || !(exists k :: 0 <= k < 4 && frame[k] != 0)
  {
    if HeaderIsZero(frame) {
      assert forall k :: 0 <= k < 4 ==> frame[k] == 0;
    }
  }

  /** Every 960-byte frame is skipped, whatever its bytes. */
  lemma SkippedLengthAlwaysSkips(frame: seq<int8>)
    requires |frame| == SkippedFrameLength
    ensures DecodeSkips(frame)
  {
  }

  /** Lengths other than 0, 960 and 120 are never screened. */
  lemma OtherLengthsPass(frame: seq<int8>)
    requires |frame| != 0 && |frame| != SkippedFrameLength && |frame| != ScreenedFrameLength
    ensures !DecodeSkips(frame)
  {
  }
}
