// Chunks that tear a CR from its LF: which frames the buffered loop hands on then, line by line, and
// exactly when they are still those of the whole text.

module SseTears {
  import opened Wrappers
  import opened SseStream

  // ---------------------------------------------------------------------------
  // Frames, read line by line
  // ---------------------------------------------------------------------------

  const FRESH := Fields("message", [])

  /** The frame a blank line ends, if it carries data. */
  function Flush(f: Fields): seq<Frame> {
    if f.data == [] then [] else [Frame(f.event, Join(f.data))]
  }

  /** The frames of a list of complete lines, of which the blank ones end a frame. */
  function Dispatch(f: Fields, lines: seq<string>): seq<Frame>
    decreases |lines|
  {
    if lines == [] then []
    else if lines[0] == "" then Flush(f) + Dispatch(FRESH, lines[1..])
    else Dispatch(ReadLine(f, lines[0]), lines[1..])
  }

  /** The lines of a text that are ended by a newline, and what follows the last of them. */
  function Complete(s: string): seq<string> {
    Lines(s)[..|Lines(s)| - 1]
  }

  function Rest(s: string): string {
    Lines(s)[|Lines(s)| - 1]
  }

  lemma {:induction false} LinesConcat(a: string, b: string)
    ensures Lines(a + b) == Complete(a) + Lines(Rest(a) + b)
    decreases |a|
  {
    match IndexOfChar(a, '\n', 0)
    case None =>
      assert Complete(a) + Lines(a + b) == Lines(a + b);
    case Some(i) =>
      FirstNewline(a, b, i);
      LinesConcat(a[i + 1..], b);
      OneLineMore(a[..i], Lines(a[i + 1..]), Lines(a), Lines(Rest(a[i + 1..]) + b));
  }

  lemma OneLineMore(line: string, tail: seq<string>, all: seq<string>, after: seq<string>)
    requires tail != [] && all == [line] + tail
    ensures all[|all| - 1] == tail[|tail| - 1]
    ensures all[..|all| - 1] + after == [line] + (tail[..|tail| - 1] + after)
  {
  }

  lemma FirstNewline(a: string, b: string, i: nat)
    requires IndexOfChar(a, '\n', 0) == Some(i)
    ensures IndexOfChar(a + b, '\n', 0) == Some(i)
    ensures (a + b)[..i] == a[..i] && (a + b)[i + 1..] == a[i + 1..] + b
  {
    assert forall k :: 0 <= k <= i ==> (a + b)[k] == a[k];
  }

  /** What is complete stays so, and reading goes on with the rest. */
  lemma CompleteConcat(a: string, b: string)
    ensures Complete(a + b) == Complete(a) + Complete(Rest(a) + b)
    ensures Rest(a + b) == Rest(Rest(a) + b)
  {
    LinesConcat(a, b);
  }

  lemma NewlineFirst(s: string)
    ensures Lines("\n" + s) == [""] + Lines(s)
    ensures Complete("\n" + s) == [""] + Complete(s) && Rest("\n" + s) == Rest(s)
  {
    var t := "\n" + s;
    assert t[0] == '\n' && t[1..] == s && t[..0] == "";
    assert IndexOfChar(t, '\n', 0) == Some(0);
  }

  lemma LinesAround(a: string, b: string)
    ensures Lines(a + ("\n\n" + b)) == Lines(a) + [""] + Lines(b)
    ensures Complete(a + ("\n\n" + b)) == Lines(a) + [""] + Complete(b)
  {
    LinesConcat(a, "\n\n" + b);
    RestIsOneLine(a);
    AfterRest(Rest(a), b);
    LinesRegroup(Complete(a), Rest(a), Lines(b), Lines(a), Lines(a + ("\n\n" + b)));
  }

  lemma AfterRest(line: string, b: string)
    requires NoNewline(line)
    ensures Lines(line + ("\n\n" + b)) == [line] + ([""] + Lines(b))
  {
    TwoNewlines(b);
    NewlineFirst(b);
    RestThenNewline(line, "\n" + b);
  }

  lemma TwoNewlines(b: string)
    ensures "\n\n" + b == "\n" + ("\n" + b)
  {
  }

  lemma LinesRegroup(front: seq<string>, line: string, back: seq<string>, before: seq<string>, all: seq<string>)
    requires back != [] && before != [] && front == before[..|before| - 1] && line == before[|before| - 1]
    requires all == front + ([line] + ([""] + back))
    ensures all == before + [""] + back
    ensures all[..|all| - 1] == before + [""] + back[..|back| - 1]
  {
    assert before == front + [line];
  }

  lemma {:induction false} RestIsOneLine(a: string)
    ensures NoNewline(Rest(a))
  {
    JoinLines(a);
  }

  lemma RestThenNewline(line: string, b: string)
    requires NoNewline(line)
    ensures Lines(line + ("\n" + b)) == [line] + Lines(b)
  {
    var t := line + ("\n" + b);
    assert t[|line|] == '\n' && t[..|line|] == line && t[|line| + 1..] == b;
    assert forall k :: 0 <= k < |line| ==> t[k] == line[k];
    assert IndexOfChar(t, '\n', 0) == Some(|line|);
  }

  ghost predicate NoBlankInside(s: string) {
    forall i: nat :: !BlankAt(s, i)
  }

  lemma TailHasNoBlank(s: string, i: nat)
    requires NoBlankInside(s) && IndexOfChar(s, '\n', 0) == Some(i)
    ensures NoBlankInside(s[i + 1..]) && (s[i + 1..] != "" ==> s[i + 1] != '\n')
  {
    var tail := s[i + 1..];
    forall k: nat ensures !BlankAt(tail, k) {
      assert !BlankAt(s, k + (i + 1));
    }
    assert !BlankAt(s, i);
  }

  lemma FirstLine(s: string)
    ensures s != "" && s[0] != '\n' ==> Lines(s)[0] != ""
  {
  }

  lemma LinesAfterFirst(s: string, i: nat, tail: string)
    requires IndexOfChar(s, '\n', 0) == Some(i) && tail == s[i + 1..]
    ensures |Lines(s)| == |Lines(tail)| + 1 && forall k :: 1 <= k < |Lines(s)| ==> Lines(s)[k] == Lines(tail)[k - 1]
  {
    assert Lines(s) == [s[..i]] + Lines(tail);
  }

  /** In a text without a blank line, only the first line may be empty, and the last if it is not ended. */
  lemma {:induction false} InnerLines(s: string)
    requires NoBlankInside(s)
    ensures forall k :: 1 <= k < |Lines(s)| - 1 ==> Lines(s)[k] != ""
    ensures s != "" && s[|s| - 1] != '\n' ==> |Lines(s)| > 1 ==> Rest(s) != ""
    decreases |s|
  {
    match IndexOfChar(s, '\n', 0)
    case None =>
    case Some(i) =>
      var tail := s[i + 1..];
      TailHasNoBlank(s, i);
      FirstLine(tail);
      LinesAfterFirst(s, i, tail);
      InnerLines(tail);
  }

  // ---------------------------------------------------------------------------
  // Dispatching is cutting and parsing
  // ---------------------------------------------------------------------------

  ghost predicate NoneEmpty(lines: seq<string>) {
    forall k :: 0 <= k < |lines| ==> lines[k] != ""
  }

  lemma {:induction false} DispatchBlock(f: Fields, lines: seq<string>, more: seq<string>)
    requires NoneEmpty(lines)
    ensures Dispatch(f, lines + [""] + more) == Flush(ReadLines(f, lines)) + Dispatch(FRESH, more)
    decreases |lines|
  {
    var all := lines + [""] + more;
    if lines == [] {
      assert all[1..] == more;
    } else {
      assert all[1..] == lines[1..] + [""] + more;
      DispatchBlock(ReadLine(f, lines[0]), lines[1..], more);
    }
  }

  lemma {:induction false} DispatchQuiet(f: Fields, lines: seq<string>)
    requires NoneEmpty(lines)
    ensures Dispatch(f, lines) == []
    decreases |lines|
  {
    if lines != [] {
      DispatchQuiet(ReadLine(f, lines[0]), lines[1..]);
    }
  }

  /** A first line that is empty changes nothing. */
  lemma EmptyFirst(lines: seq<string>)
    requires lines != [] && lines[0] == ""
    ensures Dispatch(FRESH, lines) == Dispatch(FRESH, lines[1..])
    ensures ReadLines(FRESH, lines) == ReadLines(FRESH, lines[1..])
  {
  }

  lemma DispatchRaw(raw: string, more: seq<string>)
    requires NoBlankInside(raw) && (raw == "" || raw[|raw| - 1] != '\n')
    ensures Dispatch(FRESH, Lines(raw) + [""] + more) == Flush(ReadLines(FRESH, Lines(raw))) + Dispatch(FRESH, more)
  {
    var lines := Lines(raw);
    InnerLines(raw);
    if lines[0] == "" {
      EmptyFirst(lines + [""] + more);
      EmptyFirst(lines);
      assert (lines + [""] + more)[1..] == lines[1..] + [""] + more;
      DispatchBlock(FRESH, lines[1..], more);
    } else {
      DispatchBlock(FRESH, lines, more);
    }
  }

  lemma DispatchOpen(s: string)
    requires NoBlankInside(s)
    ensures Dispatch(FRESH, Complete(s)) == []
  {
    var lines := Complete(s);
    InnerLines(s);
    if lines != [] && lines[0] == "" {
      EmptyFirst(lines);
      DispatchQuiet(FRESH, lines[1..]);
    } else {
      DispatchQuiet(FRESH, lines);
    }
  }

  lemma ParseIsFlush(raw: string, raws: seq<string>)
    ensures ParseAll([raw] + raws) == Flush(ReadLines(FRESH, Lines(raw))) + ParseAll(raws)
  {
    assert ([raw] + raws)[1..] == raws;
  }

  lemma CutText(s: string, i: nat)
    requires IndexOfBlank(s) == Some(i)
    ensures i + 2 <= |s| && NoBlankInside(s[..i]) && (i > 0 ==> s[i - 1] != '\n')
    ensures s == s[..i] + ("\n\n" + s[i + 2..])
  {
    assert forall k: nat :: BlankAt(s[..i], k) ==> BlankAt(s, k);
    assert i > 0 && s[i - 1] == '\n' ==> BlankAt(s, i - 1);
  }

  lemma DispatchFirst(raw: string, rest: string)
    requires NoBlankInside(raw) && (raw == "" || raw[|raw| - 1] != '\n')
    ensures Dispatch(FRESH, Complete(raw + ("\n\n" + rest))) == Flush(ReadLines(FRESH, Lines(raw))) + Dispatch(FRESH, Complete(rest))
  {
    LinesAround(raw, rest);
    DispatchRaw(raw, Complete(rest));
  }

  lemma CutFirst(s: string, i: nat, raw: string, rest: string)
    requires IndexOfBlank(s) == Some(i) && i + 2 <= |s| && raw == s[..i] && rest == s[i + 2..]
    ensures ParseAll(Cut(s).frames) == Flush(ReadLines(FRESH, Lines(raw))) + ParseAll(Cut(rest).frames)
  {
    CutAt(s, i);
    ParseIsFlush(raw, Cut(rest).frames);
  }

  /** Cutting at blank lines and parsing the pieces is reading line by line. */
  lemma {:induction false} FramesAreDispatched(s: string)
    ensures ParseAll(Cut(s).frames) == Dispatch(FRESH, Complete(s))
    decreases |s|
  {
    match IndexOfBlank(s)
    case None => DispatchOpen(s);
    case Some(i) =>
      CutText(s, i);
      FramesAreDispatched(s[i + 2..]);
      CutFirst(s, i, s[..i], s[i + 2..]);
      DispatchFirst(s[..i], s[i + 2..]);
  }

  // ---------------------------------------------------------------------------
  // The lines of a chunked text, with its tears
  // ---------------------------------------------------------------------------

  /** A complete line, or the place where a line end was torn apart. */
  datatype Mark = Line(text: string) | Tear

  /** The lines as the loop sees them: a tear is a blank line. */
  function Shown(marks: seq<Mark>): seq<string> {
    if marks == [] then [] else [if marks[0].Tear? then "" else marks[0].text] + Shown(marks[1..])
  }

  /** The lines that were sent: a tear is nothing. */
  function Meant(marks: seq<Mark>): seq<string> {
    if marks == [] then [] else (if marks[0].Tear? then [] else [marks[0].text]) + Meant(marks[1..])
  }

  function AsMarks(lines: seq<string>): seq<Mark> {
    if lines == [] then [] else [Line(lines[0])] + AsMarks(lines[1..])
  }

  /** What a chunk adds to the normalized text before it. */
  function Added(before: string, chunk: string): string {
    if TearsCrLf(before, chunk) then Normalize(chunk[1..]) else Normalize(chunk)
  }

  /** The lines the chunks complete, after the text `before`, of which `rest` is not complete. */
  function MarkedFrom(before: string, rest: string, chunks: seq<string>): seq<Mark>
    decreases |chunks|
  {
    if chunks == [] then []
    else
      var text := rest + Added(before, chunks[0]);
      (if TearsCrLf(before, chunks[0]) then [Tear] else [])
      + AsMarks(Complete(text)) + MarkedFrom(before + chunks[0], Rest(text), chunks[1..])
  }

  function Marked(chunks: seq<string>): seq<Mark> {
    MarkedFrom("", "", chunks)
  }

  lemma SmallTexts()
    ensures Normalize("") == "" && Normalize("\r") == "\n" && Normalize("\n") == "\n" && Normalize("\r\n") == "\n"
  {
    assert "\r"[1..] == "" && "\n"[1..] == "" && "\r\n"[2..] == "";
    assert ReplaceCrLf("") == "" && ReplaceCr("") == "";
    assert ReplaceCrLf("\r") == "\r" && ReplaceCrLf("\n") == "\n" && ReplaceCrLf("\r\n") == "\n";
  }

  /** A torn pair is one newline in the whole text and two in the parts. */
  lemma AddedIsRight(a: string, b: string)
    ensures Normalize(a + b) == Normalize(a) + Added(a, b)
    ensures TearsCrLf(a, b) ==> Normalize(b) == "\n" + Added(a, b) && Rest(Normalize(a)) == ""
  {
    if TearsCrLf(a, b) {
      var front, back := a[..|a| - 1], b[1..];
      SmallTexts();
      assert a == front + "\r" && b == "\n" + back && a + b == front + ("\r\n" + back);
      NormalizeAtCut(front, "\r");
      NormalizeAtCut("\n", back);
      NormalizeAtCut("\r\n", back);
      NormalizeAtCut(front, "\r\n" + back);
      assert Normalize(front) + ("\n" + Normalize(back)) == (Normalize(front) + "\n") + Normalize(back);
      CompleteConcat(Normalize(front), "\n");
      RestIsOneLine(Normalize(front));
      RestThenNewline(Rest(Normalize(front)), "");
      assert "\n" + "" == "\n";
    } else {
      NormalizeAtCut(a, b);
    }
  }

  lemma {:induction false} ShownConcat(a: seq<Mark>, b: seq<Mark>)
    ensures Shown(a + b) == Shown(a) + Shown(b) && Meant(a + b) == Meant(a) + Meant(b)
    decreases |a|
  {
    if a == [] {
      assert a + b == b;
    } else {
      assert (a + b)[1..] == a[1..] + b;
      ShownConcat(a[1..], b);
    }
  }

  lemma {:induction false} LinesAreShown(lines: seq<string>)
    ensures Shown(AsMarks(lines)) == lines && Meant(AsMarks(lines)) == lines
    decreases |lines|
  {
    if lines != [] {
      LinesAreShown(lines[1..]);
      assert AsMarks(lines)[1..] == AsMarks(lines[1..]);
    }
  }

  lemma TornStep(rest: string, chunk: string, added: string, later: string)
    requires rest == "" && chunk == "\n" + added
    ensures Complete(rest + (chunk + later)) == [""] + Complete((rest + added) + later)
  {
    Associates("\n", added, later);
    assert rest + (chunk + later) == "\n" + (added + later) && rest + added == added;
    NewlineFirst(added + later);
  }

  lemma ShownStep(before: string, rest: string, chunk: string, later: string)
    requires rest == Rest(Normalize(before))
    ensures var text := rest + Added(before, chunk);
      Complete(rest + (Normalize(chunk) + later))
        == (if TearsCrLf(before, chunk) then [""] else []) + (Complete(text) + Complete(Rest(text) + later))
  {
    AddedIsRight(before, chunk);
    CompleteConcat(rest + Added(before, chunk), later);
    if TearsCrLf(before, chunk) {
      TornStep(rest, Normalize(chunk), Added(before, chunk), later);
    } else {
      Associates(rest, Normalize(chunk), later);
    }
  }

  lemma MeantStep(rest: string, added: string, after: string)
    ensures Complete(rest + (added + after)) == Complete(rest + added) + Complete(Rest(rest + added) + after)
  {
    assert rest + (added + after) == (rest + added) + after;
    CompleteConcat(rest + added, after);
  }

  lemma WholeSplits(before: string, chunk: string, more: string, text: string, after: string)
    requires Normalize(before) + text == Normalize(before + (chunk + more))
    requires after == Added(before + chunk, more)
    ensures text == Added(before, chunk) + after
    ensures Normalize(before + chunk) + after == Normalize((before + chunk) + more)
  {
    AddedIsRight(before, chunk);
    AddedIsRight(before + chunk, more);
    Associates(before, chunk, more);
    TextSplits(Normalize(before), Added(before, chunk), after, text);
  }

  lemma Associates(a: string, b: string, c: string)
    ensures a + (b + c) == (a + b) + c
  {
  }

  lemma RestGrows(before: string, chunk: string)
    ensures Rest(Normalize(before + chunk)) == Rest(Rest(Normalize(before)) + Added(before, chunk))
  {
    AddedIsRight(before, chunk);
    CompleteConcat(Normalize(before), Added(before, chunk));
  }

  lemma NothingMore(before: string, rest: string, text: string)
    requires rest == Rest(Normalize(before)) && Normalize(before) + text == Normalize(before + "")
    ensures Complete(rest + "") == [] && Complete(rest + text) == []
  {
    assert before + "" == before && text == "" && rest + "" == rest;
    RestIsOneLine(Normalize(before));
    assert Lines(rest) == [rest];
  }

  /** The marks show the lines of the chunks normalized one by one. */
  lemma {:induction false} MarksShow(before: string, rest: string, chunks: seq<string>)
    requires rest == Rest(Normalize(before))
    ensures Shown(MarkedFrom(before, rest, chunks)) == Complete(rest + NormalizeEach(chunks))
    decreases |chunks|
  {
    if chunks == [] {
      assert before + "" == before;
      NothingMore(before, rest, "");
    } else {
      var chunk, more := chunks[0], chunks[1..];
      RestGrows(before, chunk);
      MarksShow(before + chunk, Rest(rest + Added(before, chunk)), more);
      assert [chunk] + more == chunks;
      MarksStep(before, rest, chunk, more);
      ShownStep(before, rest, chunk, NormalizeEach(more));
    }
  }

  /** And they mean those of the whole text. */
  lemma {:induction false} MarksMean(before: string, rest: string, chunks: seq<string>, text: string)
    requires rest == Rest(Normalize(before)) && Normalize(before) + text == Normalize(before + Concat(chunks))
    ensures Meant(MarkedFrom(before, rest, chunks)) == Complete(rest + text)
    decreases |chunks|
  {
    if chunks == [] {
      NothingMore(before, rest, text);
    } else {
      var chunk, more := chunks[0], chunks[1..];
      var added, after := Added(before, chunk), Added(before + chunk, Concat(more));
      WholeSplits(before, chunk, Concat(more), text, after);
      RestGrows(before, chunk);
      MarksMean(before + chunk, Rest(rest + added), more, after);
      assert [chunk] + more == chunks;
      MarksStep(before, rest, chunk, more);
      MeantStep(rest, added, after);
    }
  }

  lemma TextSplits(before: string, added: string, after: string, text: string)
    requires before + text == (before + added) + after
    ensures text == added + after
  {
    assert (before + text)[|before|..] == text;
    assert ((before + added) + after)[|before|..] == added + after;
  }

  lemma MarksStep(before: string, rest: string, chunk: string, more: seq<string>)
    ensures var text := rest + Added(before, chunk);
      var later := MarkedFrom(before + chunk, Rest(text), more);
      var marks := MarkedFrom(before, rest, [chunk] + more);
      && Shown(marks) == (if TearsCrLf(before, chunk) then [""] else []) + (Complete(text) + Shown(later))
      && Meant(marks) == Complete(text) + Meant(later)
  {
    var text := rest + Added(before, chunk);
    assert ([chunk] + more)[1..] == more;
    LinesAreShown(Complete(text));
    MarkedPieces(TearsCrLf(before, chunk), AsMarks(Complete(text)), MarkedFrom(before + chunk, Rest(text), more));
  }

  lemma MarkedPieces(torn: bool, lines: seq<Mark>, later: seq<Mark>)
    ensures Shown((if torn then [Tear] else []) + lines + later) == (if torn then [""] else []) + (Shown(lines) + Shown(later))
    ensures Meant((if torn then [Tear] else []) + lines + later) == Meant(lines) + Meant(later)
  {
    ShownPieces(if torn then [Tear] else [], lines, later);
    assert [Tear][1..] == [];
    assert [] + (Meant(lines) + Meant(later)) == Meant(lines) + Meant(later);
  }

  lemma ShownPieces(torn: seq<Mark>, lines: seq<Mark>, later: seq<Mark>)
    ensures Shown(torn + lines + later) == Shown(torn) + (Shown(lines) + Shown(later))
    ensures Meant(torn + lines + later) == Meant(torn) + (Meant(lines) + Meant(later))
  {
    ShownConcat(lines, later);
    ShownConcat(torn, lines + later);
    assert torn + lines + later == torn + (lines + later);
  }

  /** What the loop hands on, and what it would hand on for the whole text, read off the marks. */
  lemma FramesByMarks(chunks: seq<string>)
    ensures ParseAll(Cut(NormalizeEach(chunks)).frames) == Dispatch(FRESH, Shown(Marked(chunks)))
    ensures ParseAll(Cut(Normalize(Concat(chunks))).frames) == Dispatch(FRESH, Meant(Marked(chunks)))
  {
    var whole := Normalize(Concat(chunks));
    SmallTexts();
    assert "" + Concat(chunks) == Concat(chunks) && "" + whole == whole;
    assert Lines("") == [""];
    MarksShow("", "", chunks);
    MarksMean("", "", chunks, whole);
    assert "" + NormalizeEach(chunks) == NormalizeEach(chunks);
    FramesAreDispatched(NormalizeEach(chunks));
    FramesAreDispatched(whole);
  }

  // ---------------------------------------------------------------------------
  // When tears are harmless
  // ---------------------------------------------------------------------------

  /** The first blank line that was sent. */
  function FirstBlank(marks: seq<Mark>): (r: Option<nat>)
    ensures r.Some? ==> r.value < |marks| && marks[r.value] == Line("") && NoBlankMark(marks[..r.value])
    ensures r.None? ==> NoBlankMark(marks)
    decreases |marks|
  {
    if marks == [] then None
    else if marks[0] == Line("") then Some(0)
    else
      var rest := FirstBlank(marks[1..]);
      if rest.None? then None
      else
        assert marks[..rest.value + 1] == [marks[0]] + marks[1..][..rest.value];
        Some(rest.value + 1)
  }

  ghost predicate NoBlankMark(marks: seq<Mark>) {
    forall k :: 0 <= k < |marks| ==> marks[k] != Line("")
  }

  /** The lines between the tears. */
  function Parts(marks: seq<Mark>): (r: seq<seq<string>>)
    ensures r != []
  {
    if marks == [] then [[]]
    else
      var rest := Parts(marks[1..]);
      if marks[0].Tear? then [[]] + rest else [[marks[0].text] + rest[0]] + rest[1..]
  }

  function Flat(parts: seq<seq<string>>): seq<string> {
    if parts == [] then [] else parts[0] + Flat(parts[1..])
  }

  predicate HasData(lines: seq<string>) {
    ReadLines(FRESH, lines).data != []
  }

  function EventOf(lines: seq<string>): string {
    ReadLines(FRESH, lines).event
  }

  /** A torn frame comes out whole: one of its parts at most carries data, and that part names the event
      the whole frame names. */
  predicate Intact(parts: seq<seq<string>>) {
    && (forall i, j :: 0 <= i < j < |parts| ==> !HasData(parts[i]) || !HasData(parts[j]))
    && (forall i :: 0 <= i < |parts| && HasData(parts[i]) ==> EventOf(parts[i]) == EventOf(Flat(parts)))
  }

  /** The text after the last blank line ends no frame: no part that a tear ends carries data. */
  predicate Silent(parts: seq<seq<string>>) {
    forall i :: 0 <= i < |parts| - 1 ==> !HasData(parts[i])
  }

  /** Every frame is intact and the unterminated rest is silent. */
  predicate Harmless(marks: seq<Mark>)
    decreases |marks|
  {
    match FirstBlank(marks)
    case None => Silent(Parts(marks))
    case Some(i) => Intact(Parts(marks[..i])) && Harmless(marks[i + 1..])
  }

  /** The frames of the parts, each read on its own. */
  function Emitted(parts: seq<seq<string>>): seq<Frame> {
    if parts == [] then [] else Flush(ReadLines(FRESH, parts[0])) + Emitted(parts[1..])
  }

  function EmittedFrom(f: Fields, parts: seq<seq<string>>): seq<Frame>
    requires parts != []
  {
    Flush(ReadLines(f, parts[0])) + Emitted(parts[1..])
  }

  lemma {:induction false} ShownFrames(f: Fields, marks: seq<Mark>, more: seq<string>)
    requires NoBlankMark(marks)
    ensures Dispatch(f, Shown(marks) + [""] + more) == EmittedFrom(f, Parts(marks)) + Dispatch(FRESH, more)
    decreases |marks|
  {
    var all := Shown(marks) + [""] + more;
    if marks == [] {
      assert all[1..] == more;
    } else {
      var rest := Parts(marks[1..]);
      assert all[1..] == Shown(marks[1..]) + [""] + more;
      if marks[0].Tear? {
        ShownFrames(FRESH, marks[1..], more);
        assert Parts(marks)[1..] == rest;
      } else {
        ShownFrames(ReadLine(f, marks[0].text), marks[1..], more);
        ReadLinesCons(f, marks[0].text, rest[0]);
        assert Parts(marks)[1..] == rest[1..];
      }
    }
  }

  /** The frames of all parts but the last. */
  function EmittedBefore(f: Fields, parts: seq<seq<string>>): seq<Frame>
    decreases |parts|
  {
    if |parts| <= 1 then [] else Flush(ReadLines(f, parts[0])) + EmittedBefore(FRESH, parts[1..])
  }

  lemma {:induction false} ShownRest(f: Fields, marks: seq<Mark>)
    requires NoBlankMark(marks)
    ensures Dispatch(f, Shown(marks)) == EmittedBefore(f, Parts(marks))
    decreases |marks|
  {
    if marks != [] {
      var rest := Parts(marks[1..]);
      assert Shown(marks)[1..] == Shown(marks[1..]);
      if marks[0].Tear? {
        ShownRest(FRESH, marks[1..]);
        assert Parts(marks)[1..] == rest;
      } else {
        ShownRest(ReadLine(f, marks[0].text), marks[1..]);
        ReadLinesCons(f, marks[0].text, rest[0]);
        assert Parts(marks)[1..] == rest[1..];
      }
    }
  }

  lemma {:induction false} MeantIsFlat(marks: seq<Mark>)
    requires NoBlankMark(marks)
    ensures Meant(marks) == Flat(Parts(marks)) && NoneEmpty(Meant(marks))
    decreases |marks|
  {
    if marks != [] {
      var rest := Parts(marks[1..]);
      MeantIsFlat(marks[1..]);
      if marks[0].Tear? {
        assert Parts(marks)[1..] == rest;
      } else {
        assert Parts(marks)[1..] == rest[1..];
        assert [marks[0].text] + (rest[0] + Flat(rest[1..])) == ([marks[0].text] + rest[0]) + Flat(rest[1..]);
      }
    }
  }

  lemma {:induction false} SilentIff(parts: seq<seq<string>>)
    ensures EmittedBefore(FRESH, parts) == [] <==> Silent(parts)
    decreases |parts|
  {
    if |parts| > 1 {
      SilentIff(parts[1..]);
      assert Silent(parts) <==> !HasData(parts[0]) && Silent(parts[1..]) by {
        assert forall i :: 0 <= i < |parts| - 2 ==> parts[1..][i] == parts[i + 1];
        if Silent(parts) {
          assert forall i :: 1 <= i < |parts| - 1 ==> !HasData(parts[i]);
        } else {
          var k :| 0 <= k < |parts| - 1 && HasData(parts[k]);
          assert k > 0 ==> parts[1..][k - 1] == parts[k];
        }
      }
    }
  }

  // ---------------------------------------------------------------------------
  // One frame and its parts
  // ---------------------------------------------------------------------------

  lemma ReadLineAdds(f: Fields, line: string)
    ensures ReadLine(f, line).data == f.data + ReadLine(FRESH, line).data
  {
  }

  lemma {:induction false} DataAdds(f: Fields, lines: seq<string>)
    ensures ReadLines(f, lines).data == f.data + ReadLines(FRESH, lines).data
    decreases |lines|
  {
    if lines != [] {
      var first := ReadLine(FRESH, lines[0]);
      ReadLineAdds(f, lines[0]);
      DataAdds(ReadLine(f, lines[0]), lines[1..]);
      DataAdds(first, lines[1..]);
      assert (f.data + first.data) + ReadLines(FRESH, lines[1..]).data == f.data + (first.data + ReadLines(FRESH, lines[1..]).data);
    }
  }

  lemma FlatData(parts: seq<seq<string>>)
    requires parts != []
    ensures ReadLines(FRESH, Flat(parts)).data == ReadLines(FRESH, parts[0]).data + ReadLines(FRESH, Flat(parts[1..])).data
  {
    ReadLinesConcat(FRESH, parts[0], Flat(parts[1..]));
    DataAdds(ReadLines(FRESH, parts[0]), Flat(parts[1..]));
  }

  lemma {:induction false} NoDataAtAll(parts: seq<seq<string>>)
    requires forall i :: 0 <= i < |parts| ==> !HasData(parts[i])
    ensures Emitted(parts) == [] && !HasData(Flat(parts))
    decreases |parts|
  {
    if parts != [] {
      FlatData(parts);
      NoDataAtAll(parts[1..]);
    }
  }

  lemma {:induction false} DataInOne(parts: seq<seq<string>>, i: nat)
    requires i < |parts| && forall k :: 0 <= k < |parts| && k != i ==> !HasData(parts[k])
    ensures Emitted(parts) == Flush(ReadLines(FRESH, parts[i]))
    ensures ReadLines(FRESH, Flat(parts)).data == ReadLines(FRESH, parts[i]).data
    decreases |parts|
  {
    FlatData(parts);
    if i == 0 {
      assert forall k :: 0 <= k < |parts| - 1 ==> parts[1..][k] == parts[k + 1];
      NoDataAtAll(parts[1..]);
    } else {
      assert parts[1..][i - 1] == parts[i];
      DataInOne(parts[1..], i - 1);
    }
  }

  lemma {:induction false} EmittedFor(parts: seq<seq<string>>, i: nat)
    requires i < |parts| && HasData(parts[i])
    ensures |Emitted(parts)| >= 1 + |Emitted(parts[i + 1..])|
    decreases |parts|
  {
    if i > 0 {
      assert parts[1..][i - 1] == parts[i] && parts[1..][i..] == parts[i + 1..];
      EmittedFor(parts[1..], i - 1);
    }
  }

  lemma DataInTwo(parts: seq<seq<string>>, i: nat, j: nat)
    requires i < j < |parts| && HasData(parts[i]) && HasData(parts[j])
    ensures |Emitted(parts)| >= 2
  {
    EmittedFor(parts, i);
    assert parts[i + 1..][j - i - 1] == parts[j];
    EmittedFor(parts[i + 1..], j - i - 1);
  }

  lemma IntactWithOne(parts: seq<seq<string>>, i: nat)
    requires i < |parts| && HasData(parts[i]) && forall k :: 0 <= k < |parts| && k != i ==> !HasData(parts[k])
    ensures Emitted(parts) == Flush(ReadLines(FRESH, Flat(parts))) <==> Intact(parts)
    ensures |Emitted(parts)| == 1
  {
    DataInOne(parts, i);
    assert Intact(parts) <==> EventOf(parts[i]) == EventOf(Flat(parts));
  }

  lemma BrokenWithTwo(parts: seq<seq<string>>, i: nat, j: nat)
    requires i < j < |parts| && HasData(parts[i]) && HasData(parts[j])
    ensures |Emitted(parts)| >= 2 && !Intact(parts)
  {
    DataInTwo(parts, i, j);
  }

  /** The parts read on their own give the frame exactly when they leave it intact, and never fewer frames. */
  lemma IntactIff(parts: seq<seq<string>>)
    ensures Emitted(parts) == Flush(ReadLines(FRESH, Flat(parts))) <==> Intact(parts)
    ensures |Emitted(parts)| >= |Flush(ReadLines(FRESH, Flat(parts)))|
  {
    if forall i :: 0 <= i < |parts| ==> !HasData(parts[i]) {
      NoDataAtAll(parts);
    } else {
      var i :| 0 <= i < |parts| && HasData(parts[i]);
      if forall k :: 0 <= k < |parts| && k != i ==> !HasData(parts[k]) {
        IntactWithOne(parts, i);
      } else {
        var k :| 0 <= k < |parts| && k != i && HasData(parts[k]);
        BrokenWithTwo(parts, if i < k then i else k, if i < k then k else i);
      }
    }
  }

  // ---------------------------------------------------------------------------
  // The whole stream
  // ---------------------------------------------------------------------------

  lemma SplitEqual(a: seq<Frame>, b: seq<Frame>, c: seq<Frame>, d: seq<Frame>)
    requires |a| >= |c| && |b| >= |d|
    ensures a + b == c + d <==> a == c && b == d
    ensures |a + b| >= |c + d|
  {
    if a + b == c + d {
      assert |a| == |c|;
      assert (a + b)[..|a|] == a && (c + d)[..|a|] == c;
      assert (a + b)[|a|..] == b && (c + d)[|a|..] == d;
    }
  }

  lemma MarksAround(marks: seq<Mark>, i: nat)
    requires i < |marks|
    ensures marks == marks[..i] + [marks[i]] + marks[i + 1..]
  {
  }

  lemma OneBlank()
    ensures Shown([Line("")]) == [""] && Meant([Line("")]) == [""]
  {
    assert [Line("")][1..] == [];
  }

  lemma BlankBetween(a: seq<string>, b: seq<string>)
    ensures a + ([""] + b) == a + [""] + b
  {
  }

  lemma AroundBlank(marks: seq<Mark>, i: nat, front: seq<Mark>, rest: seq<Mark>)
    requires i < |marks| && marks[i] == Line("") && front == marks[..i] && rest == marks[i + 1..]
    ensures Shown(marks) == Shown(front) + [""] + Shown(rest)
    ensures Meant(marks) == Meant(front) + [""] + Meant(rest)
  {
    MarksAround(marks, i);
    ShownPieces(front, [Line("")], rest);
    OneBlank();
    BlankBetween(Shown(front), Shown(rest));
    BlankBetween(Meant(front), Meant(rest));
  }

  lemma FirstFrames(marks: seq<Mark>, i: nat, front: seq<Mark>, rest: seq<Mark>)
    requires FirstBlank(marks) == Some(i) && front == marks[..i] && rest == marks[i + 1..]
    ensures Dispatch(FRESH, Shown(marks)) == Emitted(Parts(front)) + Dispatch(FRESH, Shown(rest))
    ensures Dispatch(FRESH, Meant(marks)) == Flush(ReadLines(FRESH, Flat(Parts(front)))) + Dispatch(FRESH, Meant(rest))
  {
    AroundBlank(marks, i, front, rest);
    ShownFrames(FRESH, front, Shown(rest));
    MeantIsFlat(front);
    DispatchBlock(FRESH, Meant(front), Meant(rest));
  }

  lemma {:induction false} HarmlessIff(marks: seq<Mark>)
    ensures Dispatch(FRESH, Shown(marks)) == Dispatch(FRESH, Meant(marks)) <==> Harmless(marks)
    ensures |Dispatch(FRESH, Shown(marks))| >= |Dispatch(FRESH, Meant(marks))|
    decreases |marks|
  {
    match FirstBlank(marks)
    case None =>
      ShownRest(FRESH, marks);
      SilentIff(Parts(marks));
      MeantIsFlat(marks);
      DispatchQuiet(FRESH, Meant(marks));
    case Some(i) =>
      var parts, rest := Parts(marks[..i]), marks[i + 1..];
      FirstFrames(marks, i, marks[..i], rest);
      IntactIff(parts);
      HarmlessIff(rest);
      SplitEqual(Emitted(parts), Dispatch(FRESH, Shown(rest)),
                 Flush(ReadLines(FRESH, Flat(parts))), Dispatch(FRESH, Meant(rest)));
  }

  /** For every chunking: the loop hands on the frames of the whole text exactly when no torn pair splits
      the data of a frame, parts it from its event, or ends a frame that was never ended. */
  lemma FramesAreThoseOfTheWholeIff(chunks: seq<string>)
    ensures ParseAll(Cut(NormalizeEach(chunks)).frames) == ParseAll(Cut(Normalize(Concat(chunks))).frames)
       <==> Harmless(Marked(chunks))
  {
    FramesByMarks(chunks);
    HarmlessIff(Marked(chunks));
  }

  /** One tear in one frame, between the lines `a` and the lines `b`. */
  lemma OneTearIff(a: seq<string>, b: seq<string>)
    requires NoneEmpty(a) && NoneEmpty(b)
    ensures Harmless(AsMarks(a) + [Tear] + AsMarks(b) + [Line("")])
       <==> && (!HasData(a) || !HasData(b))
            && (HasData(a) ==> EventOf(a) == EventOf(a + b))
            && (HasData(b) ==> EventOf(b) == EventOf(a + b))
  {
    var torn := AsMarks(a) + [Tear] + AsMarks(b);
    TornParts(a, b, torn);
    OneFrame(torn);
    FlatOfTwo(a, b);
    TwoIntact(a, b);
  }

  lemma TornParts(a: seq<string>, b: seq<string>, torn: seq<Mark>)
    requires NoneEmpty(a) && NoneEmpty(b) && torn == AsMarks(a) + [Tear] + AsMarks(b)
    ensures Parts(torn) == [a, b] && NoBlankMark(torn)
  {
    MarksHaveText(a);
    MarksHaveText(b);
    PartsOfLines(b);
    PartsAtTear(a, AsMarks(b));
    TornMarks(AsMarks(a), AsMarks(b));
  }

  lemma TornMarks(a: seq<Mark>, b: seq<Mark>)
    requires NoBlankMark(a) && NoBlankMark(b)
    ensures NoBlankMark(a + [Tear] + b) && a + ([Tear] + b) == a + [Tear] + b
  {
  }

  lemma OneFrame(marks: seq<Mark>)
    requires NoBlankMark(marks)
    ensures Harmless(marks + [Line("")]) <==> Intact(Parts(marks))
  {
    BlankAtTheEnd(marks);
    var all := marks + [Line("")];
    assert all[..|marks|] == marks && all[|marks| + 1..] == [];
  }

  lemma FlatOfTwo(a: seq<string>, b: seq<string>)
    ensures Flat([a, b]) == a + b
  {
    assert [a, b][1..] == [b] && [b][1..] == [];
    assert Flat([b]) == b + Flat([]) == b;
  }

  lemma TwoIntact(a: seq<string>, b: seq<string>)
    requires Flat([a, b]) == a + b
    ensures Intact([a, b]) <==> && (!HasData(a) || !HasData(b))
                                && (HasData(a) ==> EventOf(a) == EventOf(a + b))
                                && (HasData(b) ==> EventOf(b) == EventOf(a + b))
  {
    var parts := [a, b];
    assert parts[0] == a && parts[1] == b;
  }

  lemma {:induction false} MarksHaveText(lines: seq<string>)
    requires NoneEmpty(lines)
    ensures NoBlankMark(AsMarks(lines))
    decreases |lines|
  {
    if lines != [] {
      MarksHaveText(lines[1..]);
    }
  }

  lemma {:induction false} BlankAtTheEnd(marks: seq<Mark>)
    requires NoBlankMark(marks)
    ensures FirstBlank(marks + [Line("")]) == Some(|marks|)
    decreases |marks|
  {
    if marks != [] {
      assert (marks + [Line("")])[1..] == marks[1..] + [Line("")];
      BlankAtTheEnd(marks[1..]);
    }
  }

  lemma {:induction false} PartsOfLines(lines: seq<string>)
    ensures Parts(AsMarks(lines)) == [lines]
    decreases |lines|
  {
    if lines != [] {
      PartsOfLines(lines[1..]);
      assert AsMarks(lines)[1..] == AsMarks(lines[1..]);
      assert [lines[0]] + lines[1..] == lines;
    }
  }

  lemma {:induction false} PartsAtTear(lines: seq<string>, more: seq<Mark>)
    ensures Parts(AsMarks(lines) + ([Tear] + more)) == [lines] + Parts(more)
    decreases |lines|
  {
    var marks := AsMarks(lines) + ([Tear] + more);
    if lines == [] {
      assert marks[1..] == more;
    } else {
      assert marks[1..] == AsMarks(lines[1..]) + ([Tear] + more);
      PartsAtTear(lines[1..], more);
      assert ([lines[1..]] + Parts(more))[1..] == Parts(more);
      assert [lines[0]] + lines[1..] == lines;
    }
  }

  // ---------------------------------------------------------------------------
  // A torn pair that does harm
  // ---------------------------------------------------------------------------

  lemma DataText(x: string, y: string)
    requires NoNewline(x) && NoNewline(y) && '\r' !in x && '\r' !in y
    ensures Normalize("data: " + x + "\r") == "data: " + x + "\n"
    ensures Normalize("\ndata: " + y + "\n\n") == "\ndata: " + y + "\n\n"
    ensures Normalize(("data: " + x + "\r") + ("\ndata: " + y + "\n\n")) == ("data: " + x + "\n") + ("data: " + y + "\n\n")
  {
    var a, b := "data: " + x + "\r", "\ndata: " + y + "\n\n";
    SmallTexts();
    NormalizeAtCut("data: " + x, "\r");
    NoCrUnchanged("data: " + x);
    NoCrUnchanged(b);
    NoCrUnchanged(b[1..]);
    AddedIsRight(a, b);
    assert b[1..] == "data: " + y + "\n\n";
  }

  lemma DataDispatch(x: string, y: string)
    ensures Dispatch(FRESH, ["data: " + x, "", "data: " + y, ""]) == [Frame("message", x), Frame("message", y)]
    ensures Dispatch(FRESH, ["data: " + x, "data: " + y, ""]) == [Frame("message", x + "\n" + y)]
  {
    var dx, dy := "data: " + x, "data: " + y;
    DataFields(x, y);
    DispatchBlock(FRESH, [dx], [dy, ""]);
    DispatchBlock(FRESH, [dy], []);
    DispatchBlock(FRESH, [dx, dy], []);
    assert [dx] + [""] + [dy, ""] == [dx, "", dy, ""] && [dy] + [""] + [] == [dy, ""] && [dx, dy] + [""] + [] == [dx, dy, ""];
    assert [x, y][1..] == [y];
  }

  lemma DataFields(x: string, y: string)
    ensures ReadLines(FRESH, ["data: " + x]) == Fields("message", [x])
    ensures ReadLines(FRESH, ["data: " + y]) == Fields("message", [y])
    ensures ReadLines(FRESH, ["data: " + x, "data: " + y]) == Fields("message", [x, y])
  {
    DataLinesAre(FRESH, x);
    DataLinesAre(FRESH, y);
    DataLinesAre(Fields("message", [x]), y);
    ReadLinesConcat(FRESH, ["data: " + x], ["data: " + y]);
    assert ["data: " + x] + ["data: " + y] == ["data: " + x, "data: " + y];
    assert [] + [x] == [x] && [] + [y] == [y] && [x] + [y] == [x, y];
  }

  lemma DataLinesAre(f: Fields, x: string)
    ensures ReadLines(f, ["data: " + x]) == f.(data := f.data + [x])
  {
    ReadDataLine(f, x);
    assert ["data: " + x][1..] == [];
  }

  lemma LinesOfOne(dy: string)
    requires NoNewline(dy)
    ensures Complete(dy + "\n\n") == [dy, ""]
  {
    LinesAround(dy, "");
    assert dy + ("\n\n" + "") == dy + "\n\n";
    assert Lines(dy) == [dy] && Lines("") == [""];
  }

  lemma CompleteAfterLine(line: string, b: string)
    requires NoNewline(line)
    ensures Complete(line + ("\n" + b)) == [line] + Complete(b)
  {
    RestThenNewline(line, b);
  }

  lemma LineBefore(dx: string, end: string)
    requires NoNewline(dx)
    ensures Complete((dx + "\n") + end) == [dx] + Complete(end)
  {
    CompleteAfterLine(dx, end);
    Associates(dx, "\n", end);
  }

  lemma CompleteAfterNewline(b: string)
    ensures Complete("\n" + b) == [""] + Complete(b)
  {
    NewlineFirst(b);
  }

  lemma DataLinesComplete(x: string, y: string)
    requires NoNewline(x) && NoNewline(y)
    ensures Complete(("data: " + x + "\n") + ("\ndata: " + y + "\n\n")) == ["data: " + x, "", "data: " + y, ""]
    ensures Complete(("data: " + x + "\n") + ("data: " + y + "\n\n")) == ["data: " + x, "data: " + y, ""]
  {
    var dx, end := "data: " + x, "data: " + y + "\n\n";
    LinesOfOne("data: " + y);
    LineBefore(dx, end);
    CompleteAfterNewline(end);
    LineBefore(dx, "\n" + end);
    assert "\ndata: " + y + "\n\n" == "\n" + end;
  }

  /** The chunking does show: a pair torn between two data lines makes two frames of one. */
  lemma TornPairSplitsAFrame(x: string, y: string)
    requires NoNewline(x) && NoNewline(y) && '\r' !in x && '\r' !in y
    ensures var chunks := ["data: " + x + "\r", "\ndata: " + y + "\n\n"];
      && ParseAll(Cut(NormalizeEach(chunks)).frames) == [Frame("message", x), Frame("message", y)]
      && ParseAll(Cut(Normalize(Concat(chunks))).frames) == [Frame("message", x + "\n" + y)]
  {
    var a, b := "data: " + x + "\r", "\ndata: " + y + "\n\n";
    DataText(x, y);
    DataLinesComplete(x, y);
    DataDispatch(x, y);
    TwoChunks(a, b);
    FramesAreDispatched(NormalizeEach([a, b]));
    FramesAreDispatched(Normalize(Concat([a, b])));
  }

  lemma TwoChunks(a: string, b: string)
    ensures NormalizeEach([a, b]) == Normalize(a) + Normalize(b) && Concat([a, b]) == a + b
  {
    assert [a, b][1..] == [b] && [b][1..] == [];
    assert NormalizeEach([b]) == Normalize(b) + NormalizeEach([]) == Normalize(b);
    assert Concat([b]) == b + Concat([]) == b;
  }
}
