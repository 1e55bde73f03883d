/**
 * The keyword-spotting engine as an oracle: a `KeywordSpotter` built from a configuration
 * hands out `OnlineStream`s from a script, and each stream answers `acceptWaveform` from
 * a script of its own, buffering the keyword results the engine is ready to decode.
 */
module Spotter {

  /** The engine configuration the service builds: feature extraction, threshold and score. */
  datatype SpotterConfig = SpotterConfig(sampleRate: int, featureDim: int, keywordsThreshold: real, keywordsScore: real)

  /** What one acceptWaveform call does: buffers the results it makes ready, or throws. */
  datatype AcceptReply = Accepted(results: seq<string>) | AcceptThrows

  /** What one createStream call produces: a stream with a native pointer, nothing, or an exception. */
  datatype StreamReply = NewStream(ptr: int, accepts: seq<AcceptReply>) | NullStream | StreamThrows

  class OnlineStream {
    /** The native handle; 0 means the engine failed to build the stream, or it was released. */
    var ptr: int
    const keywords: string
    var released: bool
    /** Replies to the acceptWaveform calls still to come; once exhausted a call buffers nothing. */
    var accepts: seq<AcceptReply>
    /** Results the engine is ready to decode, oldest first. */
    var ready: seq<string>
    /** The result of the last decode. */
    var current: string
    /** How many times the stream was reset. */
    var resets: nat

    constructor (ptr: int, keywords: string, accepts: seq<AcceptReply>)
      ensures this.ptr == ptr && this.keywords == keywords && this.accepts == accepts
      ensures !released && ready == [] && current == "" && resets == 0
    {
      this.ptr := ptr;
      this.keywords := keywords;
      this.accepts := accepts;
      released := false;
      ready := [];
      current := "";
      resets := 0;
    }

    function NextAccept(): AcceptReply
      reads this
    {
      if accepts == [] then Accepted([]) else accepts[0]
    }

    /** acceptWaveform(samples, sampleRate) for `n` samples. */
    method AcceptWaveform(n: nat) returns (threw: bool)
      modifies this`accepts, this`ready
      ensures accepts == if old(accepts) == [] then [] else old(accepts)[1..]
      ensures threw == old(NextAccept()).AcceptThrows?
      ensures ready == if threw then old(ready) else old(ready) + old(NextAccept()).results
    {
      var reply := NextAccept();
      if accepts != [] {
        accepts := accepts[1..];
      }
      match reply
      case AcceptThrows =>
        threw := true;
      case Accepted(rs) =>
        threw := false;
        ready := ready + rs;
    }

    /** release(): frees the native stream and zeroes the handle, once. */
    method Release()
      modifies this`released, this`ptr
      ensures released && ptr == 0
    {
      released := true;
      ptr := 0;
    }
  }

  class KeywordSpotter {
    const config: SpotterConfig
    var released: bool
    /** Replies to the createStream calls still to come; once exhausted a call returns null. */
    var streamReplies: seq<StreamReply>

    constructor (config: SpotterConfig, script: seq<StreamReply>)
      ensures this.config == config && streamReplies == script && !released
    {
      this.config := config;
      streamReplies := script;
      released := false;
    }

    function NextStream(): StreamReply
      reads this
    {
      if streamReplies == [] then NullStream else streamReplies[0]
    }

    /** createStream(keywords): a fresh stream for `keywords`, null, or an exception (`threw`). */
    method CreateStream(keywords: string) returns (s: OnlineStream?, threw: bool)
      modifies this`streamReplies
      ensures streamReplies == if old(streamReplies) == [] then [] else old(streamReplies)[1..]
      ensures threw == old(NextStream()).StreamThrows?
      ensures old(NextStream()).NewStream? <==> s != null
      ensures s != null ==> fresh(s) && s.ptr == old(NextStream()).ptr && s.keywords == keywords
      ensures s != null ==> s.accepts == old(NextStream()).accepts && s.ready == [] && !s.released
    {
      var reply := NextStream();
      if streamReplies != [] {
        streamReplies := streamReplies[1..];
      }
      threw := reply.StreamThrows?;
      s := null;
      if reply.NewStream? {
        s := new OnlineStream(reply.ptr, keywords, reply.accepts);
      }
    }

    /** isReady(stream): the engine has a result to decode. */
    predicate IsReady(s: OnlineStream)
      reads s
    {
      s.ready != []
    }

    /** decode(stream): decodes the oldest ready result. */
    method Decode(s: OnlineStream)
      modifies s`ready, s`current
      ensures old(s.ready) != [] ==> s.current == old(s.ready)[0] && s.ready == old(s.ready)[1..]
      ensures old(s.ready) == [] ==> s.current == old(s.current) && s.ready == []
    {
      if s.ready != [] {
        s.current := s.ready[0];
        s.ready := s.ready[1..];
      }
    }

    /** getResult(stream).keyword: the keyword of the last decode, blank when none was spotted. */
    function GetResult(s: OnlineStream): string
      reads s
    {
      s.current
    }

    /** reset(stream). */
    method Reset(s: OnlineStream)
      modifies s`resets
      ensures s.resets == old(s.resets) + 1
    {
      s.resets := s.resets + 1;
    }

    method Release()
      modifies this`released
      ensures released
    {
      released := true;
    }
  }
}
