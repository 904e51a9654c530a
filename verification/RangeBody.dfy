/**
 * readRange's stream source, whose pull advances a captured offset
 * (control-plane/src/media/video-route.ts:190-223).
 */
module RangeBody {
  import opened Prelude
  import P = ByteRange

  class RangeBody {
    const end: nat
    var offset: nat
    /** What the controller has been given, and whether it was closed or failed. */
    var chunks: seq<seq<byte>>
    var phase: P.Phase

    function State(): P.Stream
      reads this
    {
      P.Stream(offset, chunks, phase)
    }

    constructor (start: nat, last: nat)
      ensures State() == P.PullAll([], start, last, []) && end == last
    {
      end, offset, chunks, phase := last, start, [], P.Open;
    }

    /** pull: the stream calls it only while open. `outcome` is what the read of the file does. */
    method Pull(file: seq<byte>, outcome: P.Outcome)
      requires phase.Open?
      modifies this
      ensures State() == P.Pull(file, end, old(State()), outcome)
    {
      if offset > end {
        phase := P.Closed;
        return;
      }
      var length := if P.CHUNK_BYTES < end - offset + 1 then P.CHUNK_BYTES else end - offset + 1;
      if outcome.Throws? {
        phase := P.Errored;
        return;
      }
      var bytes := P.Taken(P.ReadFileRange(file, offset, length).value, outcome.count);
      if |bytes| == 0 {
        phase := P.Closed;
        return;
      }
      offset := offset + |bytes|;
      chunks := chunks + [bytes];
      if offset > end {
        phase := P.Closed;
      }
    }
  }
}
