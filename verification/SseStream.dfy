// Incremental framing of a server-sent event stream: a buffered loop over decoded chunks, compared
// with splitting the whole text at once.

module SseStream {
  import opened Wrappers

  // ---------------------------------------------------------------------------
  // Newlines
  // ---------------------------------------------------------------------------

  /** Every CR LF pair becomes one LF. */
  function ReplaceCrLf(s: string): string {
    if s == "" then ""
    else if s[0] == '\r' && |s| > 1 && s[1] == '\n' then "\n" + ReplaceCrLf(s[2..])
    else [s[0]] + ReplaceCrLf(s[1..])
  }

  /** Every remaining CR becomes an LF. */
  function ReplaceCr(s: string): string {
    if s == "" then "" else [if s[0] == '\r' then '\n' else s[0]] + ReplaceCr(s[1..])
  }

  function Normalize(s: string): string {
    ReplaceCr(ReplaceCrLf(s))
  }

  /** The cut between `a` and `b` falls between a CR and its LF. */
  predicate TearsCrLf(a: string, b: string) {
    a != "" && b != "" && a[|a| - 1] == '\r' && b[0] == '\n'
  }

  lemma {:induction false} ReplaceCrConcat(a: string, b: string)
    ensures ReplaceCr(a + b) == ReplaceCr(a) + ReplaceCr(b)
    decreases |a|
  {
    if a == "" {
      assert a + b == b;
    } else {
      assert (a + b)[1..] == a[1..] + b;
      ReplaceCrConcat(a[1..], b);
    }
  }

  lemma {:induction false} ReplaceCrLength(s: string)
    ensures |ReplaceCr(s)| == |s| && '\r' !in ReplaceCr(s)
    decreases |s|
  {
    if s != "" {
      ReplaceCrLength(s[1..]);
    }
  }

  lemma {:induction false} ReplaceCrLfConcat(a: string, b: string)
    requires !TearsCrLf(a, b)
    ensures ReplaceCrLf(a + b) == ReplaceCrLf(a) + ReplaceCrLf(b)
    decreases |a|
  {
    var ab, rb := a + b, ReplaceCrLf(b);
    if a == "" {
      assert ab == b;
    } else if a[0] == '\r' && |a| > 1 && a[1] == '\n' {
      assert ab[2..] == a[2..] + b;
      ReplaceCrLfConcat(a[2..], b);
      assert "\n" + (ReplaceCrLf(a[2..]) + rb) == ("\n" + ReplaceCrLf(a[2..])) + rb;
    } else {
      assert ab[1..] == a[1..] + b;
      assert ab[0] == '\r' && |ab| > 1 ==> ab[1] != '\n';
      ReplaceCrLfConcat(a[1..], b);
      assert [a[0]] + (ReplaceCrLf(a[1..]) + rb) == ([a[0]] + ReplaceCrLf(a[1..])) + rb;
    }
  }

  lemma {:induction false} NoCrUnchanged(s: string)
    requires '\r' !in s
    ensures Normalize(s) == s
    decreases |s|
  {
    if s != "" {
      NoCrUnchanged(s[1..]);
      assert ReplaceCrLf(s) == [s[0]] + ReplaceCrLf(s[1..]);
      assert ReplaceCrLf(s)[1..] == ReplaceCrLf(s[1..]);
    }
  }

  lemma NormalizeHasNoCr(s: string)
    ensures '\r' !in Normalize(s)
  {
    ReplaceCrLength(ReplaceCrLf(s));
  }

  /** A cut that tears a CR LF pair costs exactly one extra newline; any other cut is invisible. */
  lemma NormalizeAtCut(a: string, b: string)
    ensures !TearsCrLf(a, b) ==> Normalize(a + b) == Normalize(a) + Normalize(b)
    ensures TearsCrLf(a, b) ==> |Normalize(a + b)| + 1 == |Normalize(a)| + |Normalize(b)|
  {
    ReplaceCrLength(ReplaceCrLf(a));
    ReplaceCrLength(ReplaceCrLf(b));
    ReplaceCrLength(ReplaceCrLf(a + b));
    if TearsCrLf(a, b) {
      var front, back := a[..|a| - 1], b[1..];
      assert a == front + "\r" && a + b == front + ("\r" + b);
      ReplaceCrLfConcat(front, "\r");
      ReplaceCrLfConcat(front, "\r" + b);
      assert ("\r" + b)[2..] == back && b == "\n" + back;
      assert ReplaceCrLf("\r") == "\r" + ReplaceCrLf("");
      assert |ReplaceCrLf("\r")| == 1;
    } else {
      ReplaceCrLfConcat(a, b);
      ReplaceCrConcat(ReplaceCrLf(a), ReplaceCrLf(b));
    }
  }

  // ---------------------------------------------------------------------------
  // Splitting at blank lines
  // ---------------------------------------------------------------------------

  predicate BlankAt(s: string, i: nat) {
    i + 1 < |s| && s[i] == '\n' && s[i + 1] == '\n'
  }

  /** The leftmost blank line from `from` on. */
  function BlankFrom(s: string, from: nat): (r: Option<nat>)
    ensures r.Some? ==> from <= r.value && BlankAt(s, r.value) && forall i :: from <= i < r.value ==> !BlankAt(s, i)
    ensures r.None? ==> forall i :: from <= i ==> !BlankAt(s, i)
    decreases |s| - from
  {
    if from + 1 >= |s| then None
    else if BlankAt(s, from) then Some(from)
    else BlankFrom(s, from + 1)
  }

  function IndexOfBlank(s: string): Option<nat> {
    BlankFrom(s, 0)
  }

  lemma LeftmostBlank(s: string, i: nat)
    requires BlankAt(s, i) && forall k :: 0 <= k < i ==> !BlankAt(s, k)
    ensures IndexOfBlank(s) == Some(i)
  {
  }

  datatype Cutting = Cutting(frames: seq<string>, tail: string)

  /** The text cut at leftmost blank lines; the tail is not terminated. */
  function Cut(s: string): Cutting
    decreases |s|
  {
    match IndexOfBlank(s)
    case None => Cutting([], s)
    case Some(i) =>
      var rest := Cut(s[i + 2..]);
      Cutting([s[..i]] + rest.frames, rest.tail)
  }

  lemma CutAt(s: string, i: nat)
    requires IndexOfBlank(s) == Some(i)
    ensures i + 2 <= |s|
    ensures Cut(s) == Cutting([s[..i]] + Cut(s[i + 2..]).frames, Cut(s[i + 2..]).tail)
  {
  }

  lemma BlankStays(a: string, b: string, i: nat)
    requires IndexOfBlank(a) == Some(i)
    ensures i + 2 <= |a| && IndexOfBlank(a + b) == Some(i)
    ensures (a + b)[i + 2..] == a[i + 2..] + b && (a + b)[..i] == a[..i]
  {
    assert forall k :: 0 <= k < i ==> (BlankAt(a, k) <==> BlankAt(a + b, k));
    LeftmostBlank(a + b, i);
  }

  lemma CutJoins(first: seq<string>, rest: seq<string>, more: seq<string>)
    ensures first + (rest + more) == (first + rest) + more
  {
  }

  /** Cutting may stop anywhere and go on with its tail. */
  lemma {:induction false} CutResumes(a: string, b: string)
    ensures Cut(a + b) == Cutting(Cut(a).frames + Cut(Cut(a).tail + b).frames, Cut(Cut(a).tail + b).tail)
    decreases |a|
  {
    match IndexOfBlank(a)
    case None =>
      assert [] + Cut(a + b).frames == Cut(a + b).frames;
    case Some(i) =>
      BlankStays(a, b, i);
      CutAt(a, i);
      CutAt(a + b, i);
      var rest := a[i + 2..];
      CutResumes(rest, b);
      CutJoins([a[..i]], Cut(rest).frames, Cut(Cut(rest).tail + b).frames);
  }

  // ---------------------------------------------------------------------------
  // Parsing one frame
  // ---------------------------------------------------------------------------

  datatype Frame = Frame(event: string, data: string)

  function IndexOfChar(s: string, c: char, from: nat): (r: Option<nat>)
    ensures r.Some? ==> from <= r.value < |s| && s[r.value] == c && forall i :: from <= i < r.value ==> s[i] != c
    ensures r.None? ==> forall i :: from <= i < |s| ==> s[i] != c
    decreases |s| - from
  {
    if from >= |s| then None
    else if s[from] == c then Some(from)
    else IndexOfChar(s, c, from + 1)
  }

  function Lines(s: string): (r: seq<string>)
    ensures r != []
    decreases |s|
  {
    match IndexOfChar(s, '\n', 0)
    case None => [s]
    case Some(i) => [s[..i]] + Lines(s[i + 1..])
  }

  function Join(lines: seq<string>): string {
    if lines == [] then ""
    else if |lines| == 1 then lines[0]
    else lines[0] + "\n" + Join(lines[1..])
  }

  datatype Fields = Fields(event: string, data: seq<string>)

  function StripSpace(value: string): string {
    if value != "" && value[0] == ' ' then value[1..] else value
  }

  /** One line of a frame: comments, empty lines and lines without a colon are skipped. */
  function ReadLine(f: Fields, line: string): Fields {
    var separator := IndexOfChar(line, ':', 0);
    if line == "" || line[0] == ':' || separator.None? then f
    else
      var field, value := line[..separator.value], StripSpace(line[separator.value + 1..]);
      if field == "event" then f.(event := value)
      else if field == "data" then f.(data := f.data + [value])
      else f
  }

  /** A line of a named field: event and data take what follows the colon, without one leading space; any
      other field is skipped. */
  lemma NamedLineSets(f: Fields, field: string, value: string)
    requires field != "" && ':' !in field
    ensures var text := if value != "" && value[0] == ' ' then value[1..] else value;
      ReadLine(f, field + ":" + value) ==
        if field == "event" then Fields(text, f.data)
        else if field == "data" then Fields(f.event, f.data + [text])
        else f
  {
    var line := field + ":" + value;
    assert line[|field|] == ':' && line[..|field|] == field && line[|field| + 1..] == value;
    assert forall i :: 0 <= i < |field| ==> line[i] == field[i];
    assert IndexOfChar(line, ':', 0) == Some(|field|);
  }

  /** A line without a name, and one without a colon, is skipped. */
  lemma OtherLineIsSkipped(f: Fields, line: string)
    requires ':' !in line || line[0] == ':'
    ensures ReadLine(f, line) == f
  {
  }

  function ReadLines(f: Fields, lines: seq<string>): Fields
    decreases |lines|
  {
    if lines == [] then f else ReadLines(ReadLine(f, lines[0]), lines[1..])
  }

  function Parse(raw: string): Option<Frame> {
    var f := ReadLines(Fields("message", []), Lines(raw));
    if f.data == [] then None else Some(Frame(f.event, Join(f.data)))
  }

  lemma {:induction false} ReadLinesConcat(f: Fields, a: seq<string>, b: seq<string>)
    ensures ReadLines(f, a + b) == ReadLines(ReadLines(f, a), b)
    decreases |a|
  {
    if a == [] {
      assert a + b == b;
    } else {
      assert (a + b)[1..] == a[1..] + b;
      ReadLinesConcat(ReadLine(f, a[0]), a[1..], b);
    }
  }

  /** The parser as it runs: one pass over the lines, updating event and data. */
  method ParseSseFrame(raw: string) returns (frame: Option<Frame>)
    ensures frame == Parse(raw)
  {
    var event, dataLines := "message", [];
    var lines := Lines(raw);
    for i := 0 to |lines|
      invariant Fields(event, dataLines) == ReadLines(Fields("message", []), lines[..i])
    {
      var line := lines[i];
      ghost var before := Fields(event, dataLines);
      assert lines[..i + 1] == lines[..i] + [line];
      ReadLinesConcat(Fields("message", []), lines[..i], [line]);
      assert ReadLines(before, [line]) == ReadLines(ReadLine(before, line), []);
      if line == "" || line[0] == ':' {
        continue;
      }
      var separator := IndexOfChar(line, ':', 0);
      if separator.None? {
        continue;
      }
      var field, value := line[..separator.value], line[separator.value + 1..];
      if value != "" && value[0] == ' ' {
        value := value[1..];
      }
      if field == "event" {
        event := value;
      } else if field == "data" {
        dataLines := dataLines + [value];
      }
    }
    assert lines[..|lines|] == lines;
    frame := if dataLines == [] then None else Some(Frame(event, Join(dataLines)));
  }

  /** The frames of raw frames that carry data, in order. */
  function ParseAll(raws: seq<string>): seq<Frame> {
    if raws == [] then []
    else (if Parse(raws[0]).Some? then [Parse(raws[0]).value] else []) + ParseAll(raws[1..])
  }

  lemma {:induction false} ParseAllConcat(a: seq<string>, b: seq<string>)
    ensures ParseAll(a + b) == ParseAll(a) + ParseAll(b)
    decreases |a|
  {
    if a == [] {
      assert a + b == b;
    } else {
      assert (a + b)[1..] == a[1..] + b;
      ParseAllConcat(a[1..], b);
    }
  }

  // ---------------------------------------------------------------------------
  // The reading loop
  // ---------------------------------------------------------------------------

  function Concat(chunks: seq<string>): string {
    if chunks == [] then "" else chunks[0] + Concat(chunks[1..])
  }

  function NormalizeEach(chunks: seq<string>): string {
    if chunks == [] then "" else Normalize(chunks[0]) + NormalizeEach(chunks[1..])
  }

  lemma {:induction false} NormalizeEachConcat(a: seq<string>, c: string)
    ensures NormalizeEach(a + [c]) == NormalizeEach(a) + Normalize(c)
    decreases |a|
  {
    if a == [] {
      assert a + [c] == [c] && NormalizeEach([c]) == Normalize(c) + NormalizeEach([]);
    } else {
      assert (a + [c])[1..] == a[1..] + [c];
      NormalizeEachConcat(a[1..], c);
    }
  }

  lemma {:induction false} TailHasNoCr(s: string)
    requires '\r' !in s
    ensures '\r' !in Cut(s).tail
    decreases |s|
  {
    match IndexOfBlank(s)
    case None =>
    case Some(i) => TailHasNoCr(s[i + 2..]);
  }

  lemma BufferAbsorbs(buffer: string, chunk: string)
    requires '\r' !in buffer
    ensures Normalize(buffer + chunk) == buffer + Normalize(chunk)
  {
    NormalizeAtCut(buffer, chunk);
    NoCrUnchanged(buffer);
  }

  /** The inner loop: every frame the buffer holds in full is cut off and handed on. */
  method Drain(text: string, sent: seq<Frame>) returns (buffer: string, frames: seq<Frame>)
    ensures buffer == Cut(text).tail && frames == sent + ParseAll(Cut(text).frames)
  {
    buffer, frames := text, sent;
    var frameEnd := IndexOfBlank(buffer);
    while frameEnd.Some?
      invariant frameEnd == IndexOfBlank(buffer)
      invariant Cut(text).tail == Cut(buffer).tail
      invariant sent + ParseAll(Cut(text).frames) == frames + ParseAll(Cut(buffer).frames)
      decreases |buffer|
    {
      var rawFrame := buffer[..frameEnd.value];
      ghost var rest := Cut(buffer[frameEnd.value + 2..]).frames;
      assert ([rawFrame] + rest)[1..] == rest;
      buffer := buffer[frameEnd.value + 2..];
      var frame := ParseSseFrame(rawFrame);
      if frame.Some? {
        frames := frames + [frame.value];
      }
      frameEnd := IndexOfBlank(buffer);
    }
  }

  /** The frames handed on for the decoded chunks, in order; what is left unterminated is dropped. */
  method ReadSseStream(chunks: seq<string>) returns (frames: seq<Frame>)
    ensures frames == ParseAll(Cut(NormalizeEach(chunks)).frames)
  {
    var buffer := "";
    frames := [];
    for n := 0 to |chunks|
      invariant '\r' !in buffer
      invariant buffer == Cut(NormalizeEach(chunks[..n])).tail
      invariant frames == ParseAll(Cut(NormalizeEach(chunks[..n])).frames)
    {
      ghost var seen, added := NormalizeEach(chunks[..n]), Normalize(chunks[n]);
      assert chunks[..n + 1] == chunks[..n] + [chunks[n]];
      NormalizeEachConcat(chunks[..n], chunks[n]);
      CutResumes(seen, added);
      BufferAbsorbs(buffer, chunks[n]);
      NormalizeHasNoCr(chunks[n]);
      TailHasNoCr(buffer + added);
      ParseAllConcat(Cut(seen).frames, Cut(buffer + added).frames);
      buffer := Normalize(buffer + chunks[n]);
      buffer, frames := Drain(buffer, frames);
    }
    assert chunks[..|chunks|] == chunks;
  }

  // ---------------------------------------------------------------------------
  // Chunking
  // ---------------------------------------------------------------------------

  /** No cut of the stream, the text `before` included, tears a CR from its LF. */
  predicate NoTornPair(before: string, chunks: seq<string>)
    decreases |chunks|
  {
    chunks != [] ==> !TearsCrLf(before, chunks[0]) && NoTornPair(before + chunks[0], chunks[1..])
  }

  lemma {:induction false} ChunkingMeasured(before: string, chunks: seq<string>)
    ensures NoTornPair(before, chunks) ==> Normalize(before) + NormalizeEach(chunks) == Normalize(before + Concat(chunks))
    ensures |Normalize(before)| + |NormalizeEach(chunks)| >= |Normalize(before + Concat(chunks))|
    ensures !NoTornPair(before, chunks) ==>
      |Normalize(before)| + |NormalizeEach(chunks)| > |Normalize(before + Concat(chunks))|
    decreases |chunks|
  {
    if chunks == [] {
      assert before + "" == before && Normalize(before) + "" == Normalize(before);
    } else {
      NormalizeAtCut(before, chunks[0]);
      ChunkingMeasured(before + chunks[0], chunks[1..]);
      assert before + (chunks[0] + Concat(chunks[1..])) == (before + chunks[0]) + Concat(chunks[1..]);
      assert Normalize(before) + (Normalize(chunks[0]) + NormalizeEach(chunks[1..]))
          == (Normalize(before) + Normalize(chunks[0])) + NormalizeEach(chunks[1..]);
    }
  }

  /** The chunks are normalized to what the whole text is normalized to exactly when no cut tears a pair. */
  lemma ChunkingIsInvisibleIff(chunks: seq<string>)
    ensures NormalizeEach(chunks) == Normalize(Concat(chunks)) <==> NoTornPair("", chunks)
  {
    ChunkingMeasured("", chunks);
    assert "" + Concat(chunks) == Concat(chunks) && Normalize("") + NormalizeEach(chunks) == NormalizeEach(chunks);
    assert |Normalize("")| == 0;
  }

  /** Then the loop hands on the frames of the whole text cut at once. */
  lemma FramesAreThoseOfTheWhole(chunks: seq<string>)
    requires NoTornPair("", chunks)
    ensures ParseAll(Cut(NormalizeEach(chunks)).frames) == ParseAll(Cut(Normalize(Concat(chunks))).frames)
  {
    ChunkingIsInvisibleIff(chunks);
  }

  /** In the normalized text a torn pair makes one line end a boundary between raw frames. */
  lemma TornPairAddsABoundary()
    ensures Cut(NormalizeEach(["\r", "\n"])) == Cutting([""], "")
    ensures Cut(Normalize(Concat(["\r", "\n"]))) == Cutting([], "\n")
  {
    assert ["\r", "\n"][1..] == ["\n"] && ["\n"][1..] == [];
    assert NormalizeEach(["\n"]) == "\n" && Concat(["\n"]) == "\n";
    assert ReplaceCrLf("\r") == "\r" && Normalize("\r") == "\n";
    assert NormalizeEach(["\r", "\n"]) == "\n\n";
    LeftmostBlank("\n\n", 0);
    assert "\n\n"[2..] == "" && Cut("") == Cutting([], "");
    assert Concat(["\r", "\n"]) == "\r\n";
    assert "\r\n"[2..] == "" && ReplaceCrLf("\r\n") == "\n";
    assert Normalize("\r\n") == "\n";
  }

  // ---------------------------------------------------------------------------
  // Round trip
  // ---------------------------------------------------------------------------

  predicate NoNewline(s: string) {
    '\n' !in s
  }

  /** A frame a sender may send: nothing in it is changed by newline normalization. */
  predicate Sendable(f: Frame) {
    '\n' !in f.event && '\r' !in f.event && '\r' !in f.data
  }

  function DataLines(lines: seq<string>): seq<string> {
    if lines == [] then [] else ["data: " + lines[0]] + DataLines(lines[1..])
  }

  function FrameLines(f: Frame): seq<string> {
    ["event: " + f.event] + DataLines(Lines(f.data))
  }

  function Serialize(f: Frame): string {
    Join(FrameLines(f)) + "\n\n"
  }

  function SerializeAll(frames: seq<Frame>): string {
    if frames == [] then "" else Serialize(frames[0]) + SerializeAll(frames[1..])
  }

  /** Cutting a text into lines and joining them again gives the text, and no line holds a newline. */
  lemma {:induction false} JoinLines(s: string)
    ensures Join(Lines(s)) == s
    ensures forall i :: 0 <= i < |Lines(s)| ==> NoNewline(Lines(s)[i]) && (forall c :: c in Lines(s)[i] ==> c in s)
    decreases |s|
  {
    match IndexOfChar(s, '\n', 0)
    case None =>
    case Some(i) =>
      JoinLines(s[i + 1..]);
      assert s == s[..i] + "\n" + s[i + 1..];
  }

  lemma {:induction false} LinesJoin(lines: seq<string>)
    requires lines != [] && forall i :: 0 <= i < |lines| ==> NoNewline(lines[i])
    ensures Lines(Join(lines)) == lines
    decreases |lines|
  {
    var s, first := Join(lines), lines[0];
    if |lines| == 1 {
      assert IndexOfChar(s, '\n', 0).None?;
    } else {
      var i := IndexOfChar(s, '\n', 0);
      assert s[|first|] == '\n';
      assert forall k :: 0 <= k < |first| ==> s[k] == first[k];
      assert i == Some(|first|);
      assert s[..|first|] == first && s[|first| + 1..] == Join(lines[1..]);
      LinesJoin(lines[1..]);
    }
  }

  /** Joined non-empty lines hold no blank line and neither begin nor end with a newline. */
  lemma {:induction false} JoinedHasNoBlank(lines: seq<string>)
    requires lines != [] && forall i :: 0 <= i < |lines| ==> NoNewline(lines[i]) && lines[i] != ""
    ensures var s := Join(lines);
      && s != "" && s[0] != '\n' && s[|s| - 1] != '\n'
      && forall i :: 0 <= i ==> !BlankAt(s, i)
    decreases |lines|
  {
    if |lines| > 1 {
      var s, first, rest := Join(lines), lines[0], Join(lines[1..]);
      JoinedHasNoBlank(lines[1..]);
      assert forall k :: 0 <= k < |first| ==> s[k] == first[k];
      assert s[|first|] == '\n' && s[|first| + 1..] == rest;
      forall i | 0 <= i ensures !BlankAt(s, i) {
        if |first| + 1 <= i && i + 1 < |s| {
          assert s[i] == rest[i - |first| - 1] && s[i + 1] == rest[i - |first|];
          assert !BlankAt(rest, i - |first| - 1);
        }
      }
    }
  }

  lemma {:induction false} DataLinesShape(lines: seq<string>)
    requires forall i :: 0 <= i < |lines| ==> NoNewline(lines[i]) && '\r' !in lines[i]
    ensures |DataLines(lines)| == |lines|
    ensures forall i :: 0 <= i < |lines| ==> DataLines(lines)[i] == "data: " + lines[i]
    decreases |lines|
  {
    if lines != [] {
      DataLinesShape(lines[1..]);
    }
  }

  lemma ReadEventLine(f: Fields, event: string)
    ensures ReadLine(f, "event: " + event) == f.(event := event)
  {
    var line := "event: " + event;
    assert line[..5] == "event" && line[5] == ':' && line[6..] == " " + event;
    assert forall i :: 0 <= i < 5 ==> line[i] == "event"[i];
    assert IndexOfChar(line, ':', 0) == Some(5);
    assert (" " + event)[1..] == event;
  }

  lemma ReadDataLine(f: Fields, data: string)
    ensures ReadLine(f, "data: " + data) == f.(data := f.data + [data])
  {
    var line := "data: " + data;
    assert line[..4] == "data" && line[4] == ':' && line[5..] == " " + data;
    assert forall i :: 0 <= i < 4 ==> line[i] == "data"[i];
    assert IndexOfChar(line, ':', 0) == Some(4);
    assert (" " + data)[1..] == data;
  }

  lemma DataLinesCons(lines: seq<string>)
    requires lines != []
    ensures DataLines(lines) == ["data: " + lines[0]] + DataLines(lines[1..])
  {
  }

  lemma ReadLinesCons(f: Fields, line: string, rest: seq<string>)
    ensures ReadLines(f, [line] + rest) == ReadLines(ReadLine(f, line), rest)
  {
    assert ([line] + rest)[1..] == rest;
  }

  lemma {:induction false} ReadDataLines(f: Fields, lines: seq<string>)
    ensures ReadLines(f, DataLines(lines)) == f.(data := f.data + lines)
    decreases |lines|
  {
    if lines == [] {
      assert f.data + [] == f.data;
    } else {
      var next := f.(data := f.data + [lines[0]]);
      ReadDataLine(f, lines[0]);
      DataLinesCons(lines);
      ReadLinesCons(f, "data: " + lines[0], DataLines(lines[1..]));
      ReadDataLines(next, lines[1..]);
      assert next.data + lines[1..] == f.data + lines;
    }
  }

  lemma FrameLinesShape(f: Frame)
    requires Sendable(f)
    ensures forall i :: 0 <= i < |FrameLines(f)| ==>
      NoNewline(FrameLines(f)[i]) && FrameLines(f)[i] != "" && '\r' !in FrameLines(f)[i]
  {
    JoinLines(f.data);
    DataLinesShape(Lines(f.data));
  }

  /** A serialized frame parses back to itself. */
  lemma ParseSerialized(f: Frame)
    requires Sendable(f)
    ensures Parse(Join(FrameLines(f))) == Some(f)
  {
    FrameLinesShape(f);
    LinesJoin(FrameLines(f));
    ReadEventLine(Fields("message", []), f.event);
    ReadDataLines(Fields(f.event, []), Lines(f.data));
    assert FrameLines(f)[1..] == DataLines(Lines(f.data));
    assert [] + Lines(f.data) == Lines(f.data);
    JoinLines(f.data);
  }

  lemma {:induction false} JoinedHasNoCr(lines: seq<string>)
    requires forall i :: 0 <= i < |lines| ==> '\r' !in lines[i]
    ensures '\r' !in Join(lines)
    decreases |lines|
  {
    if |lines| > 1 {
      JoinedHasNoCr(lines[1..]);
    }
  }

  lemma {:induction false} CutSerialized(frames: seq<Frame>)
    requires forall i :: 0 <= i < |frames| ==> Sendable(frames[i])
    ensures ParseAll(Cut(SerializeAll(frames)).frames) == frames && '\r' !in SerializeAll(frames)
    decreases |frames|
  {
    if frames != [] {
      var raw, rest := Join(FrameLines(frames[0])), SerializeAll(frames[1..]);
      var s := SerializeAll(frames);
      FrameLinesShape(frames[0]);
      JoinedHasNoBlank(FrameLines(frames[0]));
      JoinedHasNoCr(FrameLines(frames[0]));
      CutSerialized(frames[1..]);
      assert s == raw + "\n\n" + rest;
      assert forall k :: 0 <= k < |raw| ==> s[k] == raw[k];
      forall k | 0 <= k < |raw| ensures !BlankAt(s, k) {
        assert !BlankAt(raw, k);
      }
      assert BlankAt(s, |raw|);
      LeftmostBlank(s, |raw|);
      assert s[..|raw|] == raw && s[|raw| + 2..] == rest;
      ParseSerialized(frames[0]);
      assert Cut(s).frames[1..] == Cut(rest).frames;
    }
  }

  lemma {:induction false} NoCrNoTornPair(before: string, chunks: seq<string>)
    requires '\r' !in before && '\r' !in Concat(chunks)
    ensures NoTornPair(before, chunks)
    decreases |chunks|
  {
    if chunks != [] {
      NoCrNoTornPair(before + chunks[0], chunks[1..]);
    }
  }

  /** Whatever frames are sent and however the text is chunked, exactly those frames are received. */
  lemma SentIsReceived(frames: seq<Frame>, chunks: seq<string>)
    requires forall i :: 0 <= i < |frames| ==> Sendable(frames[i])
    requires Concat(chunks) == SerializeAll(frames)
    ensures ParseAll(Cut(NormalizeEach(chunks)).frames) == frames
  {
    CutSerialized(frames);
    NoCrNoTornPair("", chunks);
    FramesAreThoseOfTheWhole(chunks);
    NoCrUnchanged(Concat(chunks));
  }
}
