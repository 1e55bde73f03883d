/**
 * The platform's capture and playback devices as oracles: an `AudioRecord` answers its
 * reads from a script fixed when it is created, an `AudioTrack` records what it is given.
 */
module Devices {
  import opened Pcm

  /** AudioRecord.ERROR_INVALID_OPERATION, what a read answers once the device has nothing more. */
  const ErrorInvalidOperation: int := -3

  /** What one blocking read delivers: some bytes, or an error code. */
  datatype ReadReply = Chunk(data: seq<int8>) | ReadError

  class AudioRecord {
    /** Whether the device reached STATE_INITIALIZED when it was built. */
    const initialized: bool
    /** The platform session identifier that audio effects bind to. */
    const sessionId: int
    /** Whether the device is in RECORDSTATE_RECORDING. */
    var recording: bool
    var released: bool
    /** The reads still to come; when they run out the device stops delivering. */
    var pending: seq<ReadReply>

    constructor (initialized: bool, sessionId: int, script: seq<ReadReply>)
      ensures this.initialized == initialized && this.sessionId == sessionId && this.pending == script
      ensures !recording && !released
    {
      this.initialized := initialized;
      this.sessionId := sessionId;
      this.pending := script;
      recording := false;
      released := false;
    }

    /** startRecording() throws IllegalStateException on a device that is not initialised. */
    method StartRecording() returns (threw: bool)
      modifies this`recording
      ensures threw == !initialized
      ensures recording == (initialized || old(recording))
    {
      threw := !initialized;
      if initialized {
        recording := true;
      }
    }

    method Stop()
      modifies this`recording
      ensures !recording
    {
      recording := false;
    }

    method Release()
      modifies this`recording, this`released
      ensures released && !recording
    {
      recording := false;
      released := true;
    }

    /** The next reply, and what is left after it; an exhausted script stops the device. */
    function NextRead(): ReadReply
      reads this
    {
      if pending == [] then ReadError else pending[0]
    }

    /**
     * read(buffer, 0, buffer.size): writes at most `buffer.Length` bytes at the start of
     * `buffer` and returns their count, or returns a negative error code.
     */
    method ReadBytes(buffer: array<int8>) returns (n: int)
      modifies this`pending, this`recording, buffer
      ensures pending == if old(pending) == [] then [] else old(pending)[1..]
      ensures recording == (old(recording) && old(pending) != [])
      ensures old(NextRead()).ReadError? ==> n == ErrorInvalidOperation && buffer[..] == old(buffer[..])
      ensures old(NextRead()).Chunk? ==>
        var d := old(NextRead()).data;
        && n == (if |d| <= buffer.Length then |d| else buffer.Length)
        && buffer[..n] == d[..n]
        && buffer[n..] == old(buffer[n..])
    {
      var reply := NextRead();
      recording := recording && pending != [];
      if pending != [] {
        pending := pending[1..];
      }
      match reply
      case ReadError =>
        n := ErrorInvalidOperation;
      case Chunk(d) =>
        n := if |d| <= buffer.Length then |d| else buffer.Length;
        forall i | 0 <= i < n {
          buffer[i] := d[i];
        }
    }

    /**
     * read(shortBuffer, 0, shortBuffer.size): as `ReadBytes`, counting 16-bit samples; only
     * the count is modelled, the sample values are not kept.
     */
    method ReadShorts(capacity: nat) returns (n: int)
      modifies this`pending, this`recording
      ensures pending == if old(pending) == [] then [] else old(pending)[1..]
      ensures recording == (old(recording) && old(pending) != [])
      ensures old(NextRead()).ReadError? ==> n == ErrorInvalidOperation
      ensures old(NextRead()).Chunk? ==>
        var k := |old(NextRead()).data| / 2;
        n == if k <= capacity then k else capacity
    {
      var reply := NextRead();
      recording := recording && pending != [];
      if pending != [] {
        pending := pending[1..];
      }
      match reply
      case ReadError =>
        n := ErrorInvalidOperation;
      case Chunk(d) =>
        n := if |d| / 2 <= capacity then |d| / 2 else capacity;
    }
  }

  datatype PlayState = Stopped | Paused | Playing

  class AudioTrack {
    var playState: PlayState
    var released: bool
    /** Every chunk written to the device, in order. */
    var written: seq<seq<int8>>

    constructor ()
      ensures playState == Stopped && !released && written == []
    {
      playState := Stopped;
      released := false;
      written := [];
    }

    method Play()
      modifies this`playState
      ensures playState == Playing
    {
      playState := Playing;
    }

    method Stop()
      modifies this`playState
      ensures playState == Stopped
    {
      playState := Stopped;
    }

    method Release()
      modifies this`playState, this`released
      ensures released && playState == Stopped
    {
      playState := Stopped;
      released := true;
    }

    /** A blocking write of the whole chunk; returns the number of bytes written. */
    method Write(data: seq<int8>) returns (n: nat)
      modifies this`written
      ensures written == old(written) + [data] && n == |data|
    {
      written := written + [data];
      n := |data|;
    }
  }
}
