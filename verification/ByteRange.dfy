/**
 * Range requests for video files: the header parser, the response's headers and the pull loop
 * (control-plane/src/media/video-media.ts:64-98; control-plane/src/media/video-route.ts:128-223;
 * runner/service/service.go:378-396). The meaning of a range is section 14.1.2 of RFC 9110.
 */
module ByteRange {
  import opened Decimal
  import opened Prelude
  import opened Text

  const MAX_SAFE_INTEGER: nat := 9007199254740991

  /** A file size JavaScript represents exactly. */
  type Size = n: nat | n <= MAX_SAFE_INTEGER witness 0

  // ---- The header parser ---------------------------------------------------------------------

  datatype Parsed = Whole | Invalid | Range(start: nat, end: nat)

  /** /^bytes=(\d*)-(\d*)$/: the two digit texts. */
  function Match(text: string): Option<(string, string)>
  {
    if !StartsWith(text, "bytes=") then None else
    var dash := IndexOf(text, '-', 6);
    if dash.None? || !AllDigits(text[6..dash.value]) || !AllDigits(text[dash.value + 1..]) then None
    else Some((text[6..dash.value], text[dash.value + 1..]))
  }

  /** The part of parseByteRange after the match. A text above the safe integers never rounds down to one. */
  function Resolve(startText: string, endText: string, size: Size): Parsed
    requires AllDigits(startText) && AllDigits(endText)
  {
    if startText == "" && endText == "" then Invalid
    else if startText == "" then
      var suffix := Value(endText);
      if suffix > MAX_SAFE_INTEGER || suffix == 0 || size == 0 then Invalid
      else Range(if size > suffix then size - suffix else 0, size - 1)
    else
      var start := Value(startText);
      if start > MAX_SAFE_INTEGER || start >= size then Invalid else
      var end := if endText == "" || Value(endText) > size - 1 then size - 1 else Value(endText);
      if end < start then Invalid else Range(start, end)
  }

  function ParseByteRange(header: Option<string>, size: Size): Parsed
  {
    if header.None? then Whole else
    var texts := Match(Trim(header.value));
    if texts.None? then Invalid else Resolve(texts.value.0, texts.value.1, size)
  }

  // ---- The standard's meaning ----------------------------------------------------------------

  /** int-range and suffix-range of section 14.1.1. */
  datatype RangeSpec = IntRange(first: nat, last: Option<nat>) | SuffixRange(length: nat)

  /** "bytes=" and one range-spec; leading zeros are allowed. */
  ghost predicate Spells(text: string, spec: RangeSpec)
  {
    exists a: string, b: string ::
        AllDigits(a) && AllDigits(b) && text == "bytes=" + a + "-" + b && SpelledBy(a, b, spec)
  }

  ghost predicate SpelledBy(a: string, b: string, spec: RangeSpec)
    requires AllDigits(a) && AllDigits(b)
  {
    match spec
    case IntRange(first, last) =>
      a != "" && Value(a) == first && (if b == "" then last.None? else last == Some(Value(b)))
    case SuffixRange(length) => a == "" && b != "" && Value(b) == length
  }

  /** An int-range is invalid when its last-pos is below its first-pos. */
  predicate ValidSpec(spec: RangeSpec)
  {
    spec.IntRange? && spec.last.Some? ==> spec.first <= spec.last.value
  }

  /** first-pos below the current length, or a non-zero suffix-length. */
  predicate Satisfiable(spec: RangeSpec, size: nat)
  {
    match spec
    case IntRange(first, _) => first < size
    case SuffixRange(length) => length > 0
  }

  /** The positions a range selects: last-pos is inclusive and cut at the end; a suffix counts from the end. */
  predicate Selects(spec: RangeSpec, size: nat, position: nat)
  {
    position < size &&
    match spec
    case IntRange(first, last) => first <= position && (last.Some? ==> position <= last.value)
    case SuffixRange(length) => position + length >= size
  }

  lemma MatchSplits(text: string)
    ensures match Match(text)
            case Some((a, b)) => AllDigits(a) && AllDigits(b) && text == "bytes=" + a + "-" + b
            case None => forall a: string, b: string | AllDigits(a) && AllDigits(b) :: text != "bytes=" + a + "-" + b
  {
    if Match(text).Some? {
      var dash := IndexOf(text, '-', 6).value;
      assert text[..6] == "bytes=";
      assert text == text[..6] + text[6..dash] + [text[dash]] + text[dash + 1..];
    } else {
      forall a: string, b: string | AllDigits(a) && AllDigits(b) ensures text != "bytes=" + a + "-" + b {
        if text == "bytes=" + a + "-" + b {
          MatchReads(a, b);
        }
      }
    }
  }

  lemma MatchReads(a: string, b: string)
    requires AllDigits(a) && AllDigits(b)
    ensures Match("bytes=" + a + "-" + b) == Some((a, b))
  {
    var text := "bytes=" + a + "-" + b;
    assert text[0..6] == "bytes=";
    assert text[6 + |a|] == '-';
    assert forall i | 6 <= i < 6 + |a| :: text[i] == a[i - 6];
    assert text[6..6 + |a|] == a && text[6 + |a| + 1..] == b;
  }

  /**
   * Every accepted header is a valid, satisfiable range-spec, and the result is exactly the
   * positions it selects: 0 <= start <= end < size.
   */
  lemma AcceptedMeansSelected(header: string, size: Size) returns (spec: RangeSpec)
    requires ParseByteRange(Some(header), size).Range?
    ensures Spells(Trim(header), spec) && ValidSpec(spec) && Satisfiable(spec, size)
    ensures var r := ParseByteRange(Some(header), size);
            && r.start <= r.end < size
            && forall position: nat :: r.start <= position <= r.end <==> Selects(spec, size, position)
  {
    var text := Trim(header);
    MatchSplits(text);
    var (a, b) := Match(text).value;
    spec := if a == "" then SuffixRange(Value(b)) else IntRange(Value(a), if b == "" then None else Some(Value(b)));
    assert SpelledBy(a, b, spec);
  }

  /**
   * What is accepted: a valid and satisfiable range-spec on a file that has a byte, except that a
   * suffix-length above the safe integers is refused.
   */
  lemma AcceptedExactly(header: string, spec: RangeSpec, size: Size)
    requires Spells(Trim(header), spec)
    ensures ParseByteRange(Some(header), size).Range? <==> Served(spec, size)
  {
    var a: string, b: string :| AllDigits(a) && AllDigits(b) && Trim(header) == "bytes=" + a + "-" + b
        && SpelledBy(a, b, spec);
    MatchReads(a, b);
  }

  /** Anything that spells no range-spec is answered with 416. */
  lemma OtherTextsAreInvalid(header: string, size: Size)
    requires forall spec :: !Spells(Trim(header), spec)
    ensures ParseByteRange(Some(header), size) == Invalid
  {
    var text := Trim(header);
    MatchSplits(text);
    if Match(text).Some? {
      var (a, b) := Match(text).value;
      var spec :=
        if a == "" then SuffixRange(Value(b))
        else IntRange(Value(a), if b == "" then None else Some(Value(b)));
      assert (a == "" && b == "") || SpelledBy(a, b, spec);
      assert !Spells(text, spec);
    }
  }

  // ---- The response --------------------------------------------------------------------------

  /** Status, Content-Length where the code sets one, Content-Range, and the window a body streams. */
  datatype Response = Response(
    status: nat, contentLength: Option<nat>, contentRange: Option<string>, body: Option<(nat, nat)>)

  /** serve, from the parsed range to the response. */
  function Serve(header: Option<string>, size: Size, head: bool): Response
  {
    var range := ParseByteRange(header, size);
    if range.Invalid? then Response(416, None, Some("bytes */" + Print(size)), None) else
    var start := if range.Range? then range.start else 0;
    var end := if range.Range? then range.end else if size > 0 then size - 1 else 0;
    Response(
      if range.Range? then 206 else 200,
      Some(if range.Whole? then size else end - start + 1),
      if range.Range? then Some("bytes " + Print(start) + "-" + Print(end) + "/" + Print(size)) else None,
      if head || size == 0 then None else Some((start, end)))
  }

  /**
   * The status says how the header was read: 200 without one, 206 for a range the file has, 416
   * for the rest, which has no body and no length; HEAD answers with the headers GET has.
   */
  lemma StatusSaysHowTheHeaderWasRead(header: Option<string>, size: Size)
    ensures var r := Serve(header, size, false);
            && (r.status == 200 <==> header.None?)
            && (r.status == 206
                <==> header.Some? && exists spec :: Spells(Trim(header.value), spec) && Served(spec, size))
            && (r.status == 416 <==> r.contentLength.None?)
            && (r.status == 416 ==> r.body.None?)
            && (r.status != 416 && size > 0 ==> r.body.Some?)
            && r.status in {200, 206, 416}
            && Serve(header, size, true) == r.(body := None)
  {
    if header.Some? {
      if ParseByteRange(header, size).Range? {
        var spec := AcceptedMeansSelected(header.value, size);
        AcceptedExactly(header.value, spec, size);
      }
      forall spec | Spells(Trim(header.value), spec) && Served(spec, size)
        ensures ParseByteRange(header, size).Range?
      {
        AcceptedExactly(header.value, spec, size);
      }
    }
  }

  /**
   * A served range-spec is answered with its own positions, in the body and in Content-Range; without a
   * header the body is the whole file; and a 416 says the file's size.
   */
  lemma ServesWhatWasAsked(header: string, spec: RangeSpec, size: Size)
    requires Spells(Trim(header), spec) && Served(spec, size)
    ensures var r := Serve(Some(header), size, false);
            && r.body.Some?
            && var (start, end) := r.body.value;
               && (forall position: nat :: start <= position <= end <==> Selects(spec, size, position))
               && r.contentRange == Some("bytes " + Print(start) + "-" + Print(end) + "/" + Print(size))
  {
    AcceptedExactly(header, spec, size);
    var a: string, b: string :| AllDigits(a) && AllDigits(b) && Trim(header) == "bytes=" + a + "-" + b
        && SpelledBy(a, b, spec);
    MatchReads(a, b);
  }

  lemma ServesTheWhole(header: Option<string>, size: Size)
    ensures var r := Serve(None, size, false);
            && r.contentRange.None? && r.contentLength == Some(size)
            && (if size == 0 then r.body.None? else r.body == Some((0, size - 1)))
    ensures Serve(header, size, false).status == 416 ==>
              Serve(header, size, false).contentRange == Some("bytes */" + Print(size))
  {
  }

  /** A range-spec the route serves on a file of this size. */
  predicate Served(spec: RangeSpec, size: Size)
  {
    && ValidSpec(spec) && Satisfiable(spec, size) && size > 0
    && (spec.SuffixRange? ==> spec.length <= MAX_SAFE_INTEGER)
  }

  // ---- The runner's read and the pull loop -----------------------------------------------------

  const CHUNK_BYTES: nat := 1048576

  /** ReadFileRange on a file of these bytes: None is the invalid-argument error. */
  function ReadFileRange(file: seq<byte>, offset: int, length: int): Option<seq<byte>>
  {
    if offset < 0 || length < 0 then None
    else if offset >= |file| then Some([])
    else if offset + length >= |file| then Some(file[offset..])
    else Some(file[offset..offset + length])
  }

  /** What one read does: it yields the first `count` bytes of its window, at least one, or it throws. */
  datatype Outcome = Yields(count: nat) | Throws

  datatype Phase = Open | Closed | Errored

  datatype Stream = Stream(offset: nat, chunks: seq<seq<byte>>, phase: Phase)

  /** The bytes a read of the window gives under an outcome: short reads are never empty by choice. */
  function Taken(window: seq<byte>, count: nat): (r: seq<byte>)
    ensures r <= window && (window != [] ==> r != [])
  {
    if |window| <= 1 || count >= |window| then window else if count == 0 then window[..1] else window[..count]
  }

  function PullLength(offset: nat, end: nat): nat
    requires offset <= end
  {
    if end - offset + 1 < CHUNK_BYTES then end - offset + 1 else CHUNK_BYTES
  }

  /** One call of pull that got these bytes. */
  function Enqueue(st: Stream, end: nat, bytes: seq<byte>): Stream
  {
    if bytes == [] then st.(phase := Closed) else
    var offset := st.offset + |bytes|;
    Stream(offset, st.chunks + [bytes], if offset > end then Closed else Open)
  }

  /** One pull; a stream that closed or failed is not pulled again. */
  function Pull(file: seq<byte>, end: nat, st: Stream, outcome: Outcome): Stream
  {
    if !st.phase.Open? then st
    else if st.offset > end then st.(phase := Closed)
    else
      match outcome
      case Throws => st.(phase := Errored)
      case Yields(count) =>
        Enqueue(st, end, Taken(ReadFileRange(file, st.offset, PullLength(st.offset, end)).value, count))
  }

  function PullAll(file: seq<byte>, start: nat, end: nat, outcomes: seq<Outcome>): Stream
  {
    if outcomes == [] then Stream(start, [], Open)
    else Pull(file, end, PullAll(file, start, end, outcomes[..|outcomes| - 1]), outcomes[|outcomes| - 1])
  }

  /** Every chunk is non-empty and at most 1 MiB, and together they are the bytes from start up to the offset. */
  predicate Streamed(file: seq<byte>, start: nat, end: nat, st: Stream)
  {
    && start <= st.offset <= end + 1 <= |file|
    && Flatten(st.chunks) == file[start..st.offset]
    && (forall i | 0 <= i < |st.chunks| :: 1 <= |st.chunks[i]| <= CHUNK_BYTES)
    && (st.phase.Open? ==> st.offset <= end)
    && (st.phase.Closed? ==> st.offset == end + 1)
  }

  /** A read inside the window gives its next bytes, at least one and no more than a chunk. */
  lemma ReadTakes(file: seq<byte>, end: nat, offset: nat, count: nat)
    requires offset <= end < |file|
    ensures var window := ReadFileRange(file, offset, PullLength(offset, end));
            && window.Some?
            && var bytes := Taken(window.value, count);
               && 1 <= |bytes| <= CHUNK_BYTES && offset + |bytes| <= end + 1
               && bytes == file[offset..offset + |bytes|]
  {
    var length := PullLength(offset, end);
    assert ReadFileRange(file, offset, length).value == file[offset..offset + length];
  }

  lemma EnqueueKeepsStreamed(file: seq<byte>, start: nat, end: nat, st: Stream, bytes: seq<byte>)
    requires start <= end < |file| && Streamed(file, start, end, st)
    requires 1 <= |bytes| <= CHUNK_BYTES && st.offset + |bytes| <= end + 1
    requires bytes == file[st.offset..st.offset + |bytes|]
    ensures Streamed(file, start, end, Enqueue(st, end, bytes))
  {
    FlattenPush(st.chunks, bytes);
    assert file[start..st.offset] + bytes == file[start..st.offset + |bytes|];
  }

  lemma PullKeepsStreamed(file: seq<byte>, start: nat, end: nat, st: Stream, outcome: Outcome)
    requires start <= end < |file| && Streamed(file, start, end, st)
    ensures Streamed(file, start, end, Pull(file, end, st, outcome))
    ensures st.phase.Open? && outcome.Yields? ==> Pull(file, end, st, outcome).offset > st.offset
  {
    if st.phase.Open? && outcome.Yields? {
      ReadTakes(file, end, st.offset, outcome.count);
      var bytes := Taken(ReadFileRange(file, st.offset, PullLength(st.offset, end)).value, outcome.count);
      EnqueueKeepsStreamed(file, start, end, st, bytes);
    }
  }

  /** A file cut short while it streams: a pull past its end closes the stream and sends nothing. */
  lemma PullPastTheFileCloses(file: seq<byte>, end: nat, st: Stream, count: nat)
    requires st.phase.Open? && (st.offset >= |file| || st.offset > end)
    ensures Pull(file, end, st, Yields(count)) == Stream(st.offset, st.chunks, Closed)
  {
  }

  predicate NoneThrows(outcomes: seq<Outcome>)
  {
    forall i | 0 <= i < |outcomes| :: outcomes[i].Yields?
  }

  /** In every run of pulls, whatever short reads and failures occur, what was sent is a prefix of the window. */
  lemma {:induction false} EveryRunStreams(file: seq<byte>, start: nat, end: nat, outcomes: seq<Outcome>)
    requires start <= end < |file|
    ensures var st := PullAll(file, start, end, outcomes);
            && Streamed(file, start, end, st)
            && (st.phase.Errored? ==> !NoneThrows(outcomes))
            && (st.phase.Open? ==> st.offset >= start + |outcomes|)
  {
    if outcomes != [] {
      var init, last := outcomes[..|outcomes| - 1], outcomes[|outcomes| - 1];
      EveryRunStreams(file, start, end, init);
      PullKeepsStreamed(file, start, end, PullAll(file, start, end, init), last);
    }
  }

  /** A body's window lies in the file and is as long as the Content-Length. */
  lemma BodyWindow(header: Option<string>, size: Size)
    requires Serve(header, size, false).body.Some?
    ensures var (start, end) := Serve(header, size, false).body.value;
            start <= end < size && Serve(header, size, false).contentLength == Some(end - start + 1)
  {
    if header.Some? && ParseByteRange(header, size).Range? {
      var spec := AcceptedMeansSelected(header.value, size);
    }
  }

  /** The window was streamed in full, in chunks of at most 1 MiB. */
  predicate Delivered(file: seq<byte>, start: nat, end: nat, st: Stream)
  {
    && start <= end < |file|
    && st.phase.Closed?
    && Flatten(st.chunks) == file[start..end + 1]
    && (forall i | 0 <= i < |st.chunks| :: 1 <= |st.chunks[i]| <= CHUNK_BYTES)
  }

  /** Without failures the loop closes within as many pulls as the window has bytes. */
  lemma DrainsWindow(file: seq<byte>, start: nat, end: nat, outcomes: seq<Outcome>)
    requires start <= end < |file| && |outcomes| > end - start && NoneThrows(outcomes)
    ensures Delivered(file, start, end, PullAll(file, start, end, outcomes))
    ensures |Flatten(PullAll(file, start, end, outcomes).chunks)| == end - start + 1
  {
    EveryRunStreams(file, start, end, outcomes);
    assert |file[start..end + 1]| == end - start + 1;
  }

  /**
   * On an unchanged file every response with a body streams exactly the bytes it announced: the
   * loop closes within as many pulls as there are bytes, having sent start..end in chunks of at
   * most 1 MiB, and their total is the Content-Length.
   */
  lemma BodyIsTheAnnouncedBytes(file: seq<byte>, header: Option<string>, outcomes: seq<Outcome>, start: nat, end: nat)
    requires |file| <= MAX_SAFE_INTEGER
    requires Serve(header, |file|, false).body == Some((start, end))
    requires |outcomes| >= |file| && NoneThrows(outcomes)
    ensures Delivered(file, start, end, PullAll(file, start, end, outcomes))
    ensures Serve(header, |file|, false).contentLength == Some(|Flatten(PullAll(file, start, end, outcomes).chunks)|)
  {
    BodyWindow(header, |file|);
    DrainsWindow(file, start, end, outcomes);
  }
}
