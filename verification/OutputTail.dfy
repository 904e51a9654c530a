/**
 * Bounded output tails and the cursors that read them (control-plane/src/sandbox/subprocess.ts:397-421;
 * control-plane/src/sandbox/shell.ts:183-244). One byte is one character, so decoding is the identity.
 */
module OutputTail {
  /** What a buffer retains, and how much the whole stream has been. */
  datatype Tail<+T> = Tail(text: seq<T>, written: nat)

  datatype Read<+T> = Read(text: seq<T>, next: nat, lossy: bool)

  /** The last `max` elements of a stream. */
  function Last<T>(stream: seq<T>, max: nat): seq<T>
  {
    if |stream| <= max then stream else stream[|stream| - max..]
  }

  function Append<T>(tail: Tail<T>, chunk: seq<T>, max: nat): Tail<T>
  {
    Tail(Last(tail.text + chunk, max), tail.written + |chunk|)
  }

  /** readFrom: from an offset into the whole stream, which may lie before or past what is retained. */
  function ReadFrom<T>(tail: Tail<T>, from: int): Read<T>
    requires |tail.text| <= tail.written
  {
    var start := tail.written - |tail.text|;
    if from < start then Read(tail.text, tail.written, true)
    else if from - start > |tail.text| then Read([], tail.written, false)
    else Read(tail.text[from - start..], tail.written, false)
  }

  /** The buffer retains exactly the last `max` elements of the stream. */
  predicate Retains<T(==)>(tail: Tail<T>, stream: seq<T>, max: nat)
  {
    tail == Tail(Last(stream, max), |stream|)
  }

  lemma AppendRetains<T>(tail: Tail<T>, stream: seq<T>, chunk: seq<T>, max: nat)
    requires Retains(tail, stream, max)
    ensures Retains(Append(tail, chunk, max), stream + chunk, max)
  {
    if |stream| > max {
      assert stream + chunk == stream[..|stream| - max] + (tail.text + chunk);
    }
  }

  /** readSince: the same read, but flagged lossy for good once anything was ever dropped. */
  function ReadSince<T>(tail: Tail<T>, dropped: bool, from: int): Read<T>
    requires |tail.text| <= tail.written
  {
    var view := ReadFrom(tail, from);
    view.(lossy := view.lossy || dropped)
  }

  /** The flag of a consuming read is right except on a stream that outgrew the buffer, for a cursor still inside it. */
  lemma FlagIsRightExactly<T>(tail: Tail<T>, stream: seq<T>, max: nat, from: nat)
    requires Retains(tail, stream, max) && from <= |stream|
    ensures ReadSince(tail, |stream| > max, from).lossy == ReadFrom(tail, from).lossy
       <==> !(|stream| > max && from >= |stream| - max)
  {
  }

  /** After "ab" in a one-byte buffer, a reader that has read everything is told of a loss and lost nothing. */
  lemma UpToDateReaderIsToldOfALoss()
    ensures var tail := Append(Tail("", 0), "ab", 1);
            && Retains(tail, "ab", 1)
            && ReadFrom(tail, 2) == Read("", 2, false)
            && ReadSince(tail, |"ab"| > 1, 2) == Read("", 2, true)
  {
    assert "" + "ab" == "ab";
    assert "ab"[1..] == "b";
  }

  // ---- Independent readers -------------------------------------------------------------------

  datatype Event<+T> = Write(chunk: seq<T>) | ReadBy(reader: nat)

  /** The buffer and every reader's reads so far; a reader's cursor is where its last read ended. */
  datatype State<+T> = State(tail: Tail<T>, taken: map<nat, seq<Read<T>>>)

  function ReadsOf<T>(st: State<T>, reader: nat): seq<Read<T>>
  {
    if reader in st.taken then st.taken[reader] else []
  }

  function Cursor<T>(taken: seq<Read<T>>): nat
  {
    if taken == [] then 0 else taken[|taken| - 1].next
  }

  function Run<T>(events: seq<Event<T>>, max: nat): (st: State<T>)
    ensures |st.tail.text| <= st.tail.written
  {
    if events == [] then State(Tail([], 0), map[]) else
    var st := Run(events[..|events| - 1], max);
    match events[|events| - 1]
    case Write(chunk) => st.(tail := Append(st.tail, chunk, max))
    case ReadBy(reader) =>
      var taken := ReadsOf(st, reader);
      st.(taken := st.taken[reader := taken + [ReadFrom(st.tail, Cursor(taken))]])
  }

  /** The whole stream. */
  function Written<T>(events: seq<Event<T>>): seq<T>
  {
    if events == [] then [] else
    Written(events[..|events| - 1]) + match events[|events| - 1] case Write(chunk) => chunk case ReadBy(_) => []
  }

  /**
   * One read against the stream: when not lossy it is exactly what was written since the cursor;
   * when lossy it is the last `max` elements written by then, and what it skipped is exactly the
   * rest of what was written since the cursor.
   */
  predicate ReadCovers<T(==)>(from: nat, read: Read<T>, stream: seq<T>, max: nat)
  {
    && from <= read.next <= |stream|
    && if read.lossy
       then |read.text| == max && from < read.next - max && read.text == stream[read.next - max..read.next]
       else read.text == stream[from..read.next]
  }

  /** One reader's reads, each starting where the one before it ended. */
  predicate Covers<T(==)>(taken: seq<Read<T>>, stream: seq<T>, max: nat)
  {
    taken == [] ||
    var init, last := taken[..|taken| - 1], taken[|taken| - 1];
    Covers(init, stream, max) && ReadCovers(Cursor(init), last, stream, max)
  }

  function Texts<T>(taken: seq<Read<T>>): seq<T>
  {
    if taken == [] then [] else Texts(taken[..|taken| - 1]) + taken[|taken| - 1].text
  }

  /** What the reader never saw: the dropped prefixes its lossy reads skipped. */
  function Skipped<T>(taken: seq<Read<T>>): int
  {
    if taken == [] then 0 else
    var init, last := taken[..|taken| - 1], taken[|taken| - 1];
    Skipped(init) + if last.lossy then last.next - |last.text| - Cursor(init) else 0
  }

  lemma {:induction false} CoversLonger<T>(taken: seq<Read<T>>, stream: seq<T>, chunk: seq<T>, max: nat)
    requires Covers(taken, stream, max)
    ensures Covers(taken, stream + chunk, max)
  {
    if taken != [] {
      var init, last := taken[..|taken| - 1], taken[|taken| - 1];
      CoversLonger(init, stream, chunk, max);
      var longer := stream + chunk;
      assert longer[Cursor(init)..last.next] == stream[Cursor(init)..last.next];
      assert last.lossy ==> longer[last.next - max..last.next] == stream[last.next - max..last.next];
    }
  }

  lemma ReadFromCovers<T>(tail: Tail<T>, from: nat, stream: seq<T>, max: nat)
    requires Retains(tail, stream, max) && from <= |stream|
    ensures ReadCovers(from, ReadFrom(tail, from), stream, max)
  {
  }

  /** In every run the buffer is the stream's tail and every reader's reads cover it up to its cursor. */
  lemma {:induction false} EveryReaderCovers<T>(events: seq<Event<T>>, max: nat, reader: nat)
    ensures Retains(Run(events, max).tail, Written(events), max)
    ensures Cursor(ReadsOf(Run(events, max), reader)) <= |Written(events)|
    ensures Covers(ReadsOf(Run(events, max), reader), Written(events), max)
  {
    if events != [] {
      var init, last := events[..|events| - 1], events[|events| - 1];
      EveryReaderCovers(init, max, reader);
      var st, stream := Run(init, max), Written(init);
      var taken := ReadsOf(st, reader);
      match last
      case Write(chunk) =>
        AppendRetains(st.tail, stream, chunk, max);
        CoversLonger(taken, stream, chunk, max);
      case ReadBy(other) =>
        assert Written(events) == stream;
        if other == reader {
          ReadFromCovers(st.tail, Cursor(taken), stream, max);
          assert (taken + [ReadFrom(st.tail, Cursor(taken))])[..|taken|] == taken;
        }
    }
  }

  /**
   * A reader that never had a lossy read has read exactly the stream up to its cursor; in general
   * what it read and what its lossy reads skipped add up to its cursor.
   */
  lemma {:induction false} ReadsAddUp<T>(taken: seq<Read<T>>, stream: seq<T>, max: nat)
    requires Covers(taken, stream, max)
    ensures Cursor(taken) <= |stream|
    ensures |Texts(taken)| + Skipped(taken) == Cursor(taken)
    ensures (forall i | 0 <= i < |taken| :: !taken[i].lossy) ==> Texts(taken) == stream[..Cursor(taken)]
  {
    if taken != [] {
      var init, last := taken[..|taken| - 1], taken[|taken| - 1];
      ReadsAddUp(init, stream, max);
      if !last.lossy {
        assert stream[..last.next] == stream[..Cursor(init)] + stream[Cursor(init)..last.next];
      }
    }
  }

  /** Any number of readers of one buffer: each one's lossless reads join to the stream it passed. */
  lemma EveryLosslessReaderRebuildsTheStream<T>(events: seq<Event<T>>, max: nat, reader: nat)
    ensures var taken := ReadsOf(Run(events, max), reader);
            && Cursor(taken) <= |Written(events)|
            && |Texts(taken)| + Skipped(taken) == Cursor(taken)
            && ((forall i | 0 <= i < |taken| :: !taken[i].lossy) ==> Texts(taken) == Written(events)[..Cursor(taken)])
  {
    EveryReaderCovers(events, max, reader);
    ReadsAddUp(ReadsOf(Run(events, max), reader), Written(events), max);
  }
}
