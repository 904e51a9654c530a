/**
 * The buffer classes and the shell process's consuming cursors
 * (control-plane/src/sandbox/subprocess.ts:397-421; control-plane/src/sandbox/shell.ts:183-244, 265-268, 384-393).
 */
module OutputBuffers {
  import P = OutputTail

  class CollectedBuffer {
    const maxBytes: nat
    var tail: string
    var totalBytes: nat
    /** Everything appended so far; the code does not keep it. */
    ghost var stream: string

    ghost predicate Valid()
      reads this
    {
      P.Retains(P.Tail(tail, totalBytes), stream, maxBytes)
    }

    constructor (max: nat)
      ensures Valid() && stream == "" && maxBytes == max
    {
      maxBytes, tail, totalBytes, stream := max, "", 0, "";
    }

    method Append(chunk: string)
      requires Valid()
      modifies this
      ensures Valid() && stream == old(stream) + chunk
    {
      P.AppendRetains(P.Tail(tail, totalBytes), stream, chunk, maxBytes);
      var joined := tail + chunk;
      totalBytes := totalBytes + |chunk|;
      tail := joined[(if |joined| > maxBytes then |joined| - maxBytes else 0)..];
      stream := stream + chunk;
    }

    /** What the stream holds from an offset on, less what was dropped; lossy exactly when some was. */
    method ReadFrom(fromByte: int) returns (read: P.Read<char>)
      requires Valid()
      ensures read == P.ReadFrom(P.Tail(tail, totalBytes), fromByte)
      ensures read.next == |stream|
      ensures read.lossy <==> fromByte < |stream| - |P.Last(stream, maxBytes)|
      ensures 0 <= fromByte <= |stream| && !read.lossy ==> read.text == stream[fromByte..]
      ensures read.lossy ==> read.text == P.Last(stream, maxBytes)
    {
      var tailStart := totalBytes - |tail|;
      var lossy := fromByte < tailStart;
      var offset := if lossy || fromByte - tailStart < 0 then 0 else fromByte - tailStart;
      read := P.Read(if offset > |tail| then "" else tail[offset..], totalBytes, lossy);
    }
  }

  class TailBuffer {
    const maxBytes: nat
    var text: string
    var bytes: nat
    var dropped: bool
    var written: nat
    ghost var stream: string

    ghost predicate Valid()
      reads this
    {
      && P.Retains(P.Tail(text, written), stream, maxBytes)
      && bytes == |text|
      && (dropped <==> |stream| > maxBytes)
    }

    constructor (max: nat)
      ensures Valid() && stream == "" && maxBytes == max
    {
      maxBytes, text, bytes, dropped, written, stream := max, "", 0, false, 0, "";
    }

    method Append(chunk: string)
      requires Valid()
      modifies this
      ensures Valid() && stream == old(stream) + chunk
    {
      P.AppendRetains(P.Tail(text, written), stream, chunk, maxBytes);
      text := text + chunk;
      written := written + |chunk|;
      bytes := bytes + |chunk|;
      if bytes > maxBytes {
        dropped := true;
        text := text[|text| - maxBytes..];
        bytes := |text|;
      }
      stream := stream + chunk;
    }

    method ReadFrom(fromChar: int) returns (read: P.Read<char>)
      requires Valid()
      ensures read == P.ReadFrom(P.Tail(text, written), fromChar)
    {
      var base := written - |text|;
      if fromChar < base {
        return P.Read(text, written, true);
      }
      var start := fromChar - base;
      read := P.Read(if start > |text| then "" else text[start..], written, false);
    }

    /**
     * The text is readFrom's; the flag is not: it says the stream ever outgrew the buffer, so it is
     * also set for a read that missed nothing.
     */
    method ReadSince(fromChar: nat) returns (read: P.Read<char>)
      requires Valid() && fromChar <= |stream|
      ensures read == P.ReadSince(P.Tail(text, written), dropped, fromChar)
      ensures read.text == P.ReadFrom(P.Tail(text, written), fromChar).text
      ensures read.next == |stream|
      ensures read.lossy <==> |stream| > maxBytes
      ensures P.ReadFrom(P.Tail(text, written), fromChar).lossy <==> read.lossy && fromChar < |stream| - maxBytes
    {
      var view := ReadFrom(fromChar);
      read := P.Read(view.text, view.next, view.lossy || dropped);
    }
  }

  class RemoteShellProcess {
    const stdout: TailBuffer
    const stderr: TailBuffer
    var stdoutCursor: nat
    var stderrCursor: nat

    ghost predicate Valid()
      reads this, stdout, stderr
    {
      && stdout.Valid() && stderr.Valid() && stdout != stderr
      && stdoutCursor <= |stdout.stream| && stderrCursor <= |stderr.stream|
    }

    constructor (stdoutMaxBytes: nat, stderrMaxBytes: nat)
      ensures Valid() && stdoutCursor == 0 && stderrCursor == 0
      ensures stdout.stream == "" && stderr.stream == ""
    {
      stdout := new TailBuffer(stdoutMaxBytes);
      stderr := new TailBuffer(stderrMaxBytes);
      stdoutCursor, stderrCursor := 0, 0;
    }

    /** What one stream adds to a drain: everything since the cursor that is still retained. */
    ghost function Unread(buffer: TailBuffer, cursor: nat): string
      requires buffer.Valid()
      reads buffer
    {
      P.ReadFrom(P.Tail(buffer.text, buffer.written), cursor).text
    }

    /** One drain moves both cursors to the streams' ends and leaves the captures as they are. */
    method ReadOutput() returns (delta: string, lossy: bool)
      requires Valid()
      modifies this`stdoutCursor, this`stderrCursor
      ensures Valid() && stdoutCursor == |stdout.stream| && stderrCursor == |stderr.stream|
      ensures delta == old(Unread(stdout, stdoutCursor))
                       + if old(Unread(stderr, stderrCursor)) == "" then ""
                         else "\n[stderr]\n" + old(Unread(stderr, stderrCursor))
      ensures lossy <==> |stdout.stream| > stdout.maxBytes || |stderr.stream| > stderr.maxBytes
    {
      var out := stdout.ReadSince(stdoutCursor);
      stdoutCursor := out.next;
      var err := stderr.ReadSince(stderrCursor);
      stderrCursor := err.next;
      delta := out.text + if |err.text| == 0 then "" else "\n[stderr]\n" + err.text;
      lossy := out.lossy || err.lossy;
    }
  }
}
