/**
 * The Opus encoder and decoder as oracles. The codec itself is foreign; each object
 * answers its calls from a script of replies fixed when it is created, writes the
 * reply into the caller's buffer as the codec does, and keeps a log of what it was given.
 * Decoder state carried from one frame to the next lives inside the script.
 */
module Opus {
  import opened Pcm

  datatype EncodeReply = Encoded(bytes: seq<int8>) | EncodeFails
  datatype DecodeReply = Decoded(samples: seq<int16>) | DecodeFails

  class OpusEncoder {
    /** The answers still to come, in call order; an exhausted script fails. */
    var replies: seq<EncodeReply>
    /** Every frame of samples the encoder was handed, in call order. */
    ghost var received: seq<seq<int16>>

    constructor (replies: seq<EncodeReply>)
      ensures this.replies == replies && received == []
    {
      this.replies := replies;
      received := [];
    }

    /** Whether the next call throws: a failure reply, or more bytes than the output buffer holds. */
    predicate NextThrows(capacity: nat)
      reads this
    {
      replies == [] || replies[0].EncodeFails? || |replies[0].bytes| > capacity
    }

    /**
     * encode(pcm, 0, frameSize, out, 0, out.Length): consumes `pcm[..frameSize]`, writes the
     * encoded bytes at the start of `out` and returns their count, or throws.
     */
    method Encode(pcm: array<int16>, frameSize: nat, out: array<int8>) returns (count: nat, threw: bool)
      requires frameSize <= pcm.Length
      modifies this, out
      ensures received == old(received) + [pcm[..frameSize]]
      ensures replies == if old(replies) == [] then [] else old(replies)[1..]
      ensures threw == old(NextThrows(out.Length))
      ensures threw ==> out[..] == old(out[..])
      ensures !threw ==> count == |old(replies)[0].bytes| <= out.Length
      ensures !threw ==> out[..count] == old(replies)[0].bytes && out[count..] == old(out[count..])
    {
      ghost var frame := pcm[..frameSize];
      received := received + [frame];
      threw := NextThrows(out.Length);
      count := 0;
      if !threw {
        var bytes := replies[0].bytes;
        count := |bytes|;
        forall i | 0 <= i < count {
          out[i] := bytes[i];
        }
      }
      if replies != [] {
        replies := replies[1..];
      }
      assert pcm[..frameSize] == frame;
    }
  }

  class OpusDecoder {
    /** The answers still to come, in call order; an exhausted script fails. */
    var replies: seq<DecodeReply>
    /** Every encoded frame the decoder was handed, in call order. */
    ghost var received: seq<seq<int8>>

    constructor (replies: seq<DecodeReply>)
      ensures this.replies == replies && received == []
    {
      this.replies := replies;
      received := [];
    }

    /** Whether the next call throws: a failure reply, or more samples than fit (an index out of bounds). */
    predicate NextThrows(capacity: nat)
      reads this
    {
      replies == [] || replies[0].DecodeFails? || |replies[0].samples| > capacity
    }

    /**
     * decode(data, 0, data.size, out, 0, frameSize, false): writes the decoded samples at the
     * start of `out` and returns their count, or throws.
     */
    method Decode(data: seq<int8>, out: array<int16>, frameSize: nat) returns (count: nat, threw: bool)
      requires frameSize <= out.Length
      modifies this, out
      ensures received == old(received) + [data]
      ensures replies == if old(replies) == [] then [] else old(replies)[1..]
      ensures threw == old(NextThrows(frameSize))
      ensures threw ==> out[..] == old(out[..])
      ensures !threw ==> count == |old(replies)[0].samples| <= frameSize
      ensures !threw ==> out[..count] == old(replies)[0].samples && out[count..] == old(out[count..])
    {
      received := received + [data];
      threw := NextThrows(frameSize);
      count := 0;
      if !threw {
        var samples := replies[0].samples;
        count := |samples|;
        forall i | 0 <= i < count {
          out[i] := samples[i];
        }
      }
      if replies != [] {
        replies := replies[1..];
      }
    }
  }
}
