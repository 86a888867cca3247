// The rotating diagnostics log: which lines the five files hold after any sequence of writes.

module LogRotation {

  newtype byte = i: int | 0 <= i < 256

  type Line = seq<byte>

  const MAX_LOG_BYTES: nat := 1048576
  const MAX_LOG_FILES: nat := 5

  /** The files by their number, the current one being 0, each with its lines. */
  type Files = map<nat, seq<Line>>

  function Size(lines: seq<Line>): nat {
    if lines == [] then 0 else |lines[0]| + Size(lines[1..])
  }

  function Content(files: Files, i: nat): seq<Line> {
    if i in files then files[i] else []
  }

  /** What the files hold, oldest first. */
  function Kept(files: Files): seq<Line> {
    Content(files, 4) + Content(files, 3) + Content(files, 2) + Content(files, 1) + Content(files, 0)
  }

  predicate NeedsRotation(files: Files, incoming: nat) {
    0 in files && Size(files[0]) + incoming > MAX_LOG_BYTES
  }

  /** Every file moves up one number; the last one is gone and there is no current one. */
  function Rotated(files: Files): Files {
    map i: nat | i < MAX_LOG_FILES && Follows(files, i) :: files[i - 1]
  }

  /** The same as far as the files above `index` have moved. */
  function RotatedAbove(files: Files, index: nat): Files {
    map i: nat | i < MAX_LOG_FILES && (if i <= index then i in files else i > index + 1 && Follows(files, i))
      :: if i <= index then files[i] else files[i - 1]
  }

  predicate Follows(files: Files, i: nat) {
    i > 0 && i - 1 in files
  }

  function Written(files: Files, line: Line): Files {
    var room := if NeedsRotation(files, |line|) then Rotated(files) else files;
    room[0 := Content(room, 0) + [line]]
  }

  function WrittenAll(files: Files, lines: seq<Line>): Files
    decreases |lines|
  {
    if lines == [] then files else WrittenAll(Written(files, lines[0]), lines[1..])
  }

  // ---------------------------------------------------------------------------
  // What the files hold
  // ---------------------------------------------------------------------------

  predicate IsSuffix(a: seq<Line>, b: seq<Line>) {
    |a| <= |b| && b[|b| - |a|..] == a
  }

  /** A file is within the limit, or holds a single line that is not. */
  predicate Bounded(file: seq<Line>) {
    file != [] && (Size(file) <= MAX_LOG_BYTES || |file| == 1)
  }

  /** The files are numbered without gaps and bounded, and none was left before it was full: with the
      first line of the file after it, it would have been too large. */
  ghost predicate WellRotated(files: Files) {
    forall i: nat :: i in files ==> WellAt(files, i)
  }

  ghost predicate WellAt(files: Files, i: nat) {
    && i < MAX_LOG_FILES && Bounded(Content(files, i))
    && (i > 0 ==> Follows(files, i) && files[i - 1] != [] && Size(Content(files, i)) + |files[i - 1][0]| > MAX_LOG_BYTES)
  }

  /** The files hold the newest of what was written, and all of it unless there are five. */
  ghost predicate KeepsNewest(files: Files, lines: seq<Line>) {
    IsSuffix(Kept(files), lines) && (4 !in files ==> Kept(files) == lines)
  }

  lemma {:induction false} SizeConcat(a: seq<Line>, b: seq<Line>)
    ensures Size(a + b) == Size(a) + Size(b)
    decreases |a|
  {
    if a == [] {
      assert a + b == b;
    } else {
      assert (a + b)[1..] == a[1..] + b;
      SizeConcat(a[1..], b);
    }
  }

  lemma SizeOfOne(line: Line)
    ensures Size([line]) == |line|
  {
  }

  lemma RotatedContent(files: Files, i: nat)
    requires i < MAX_LOG_FILES
    ensures Content(Rotated(files), i) == if i == 0 then [] else Content(files, i - 1)
  {
  }

  lemma FiveParts(a: seq<Line>, b: seq<Line>, c: seq<Line>, d: seq<Line>, e: seq<Line>)
    ensures a + b + c + d + e == a + (b + c + d + e + [])
  {
  }

  lemma RotatedKeeps(files: Files)
    ensures Kept(files) == Content(files, 4) + Kept(Rotated(files))
  {
    RotatedContent(files, 0);
    RotatedContent(files, 1);
    RotatedContent(files, 2);
    RotatedContent(files, 3);
    RotatedContent(files, 4);
    FiveParts(Content(files, 4), Content(files, 3), Content(files, 2), Content(files, 1), Content(files, 0));
  }

  lemma AppendKeeps(files: Files, line: Line)
    ensures Kept(files[0 := Content(files, 0) + [line]]) == Kept(files) + [line]
  {
  }

  lemma SuffixOfMore(a: seq<Line>, b: seq<Line>, line: Line)
    requires IsSuffix(a, b)
    ensures IsSuffix(a + [line], b + [line])
  {
    var cut := |b| - |a|;
    assert b == b[..cut] + a;
    assert (b + [line])[cut..] == a + [line];
  }

  lemma SuffixOfSuffix(a: seq<Line>, head: seq<Line>, b: seq<Line>)
    requires IsSuffix(head + a, b)
    ensures IsSuffix(a, b)
  {
    assert b[|b| - |a|..] == b[|b| - |head + a|..][|head|..];
  }

  lemma WriteKeepsNewest(files: Files, lines: seq<Line>, line: Line)
    requires KeepsNewest(files, lines) && WellRotated(files)
    ensures KeepsNewest(Written(files, line), lines + [line])
  {
    var room := if NeedsRotation(files, |line|) then Rotated(files) else files;
    if NeedsRotation(files, |line|) {
      RotatedKeeps(files);
      SuffixOfSuffix(Kept(room), Content(files, 4), lines);
    }
    AppendKeeps(room, line);
    SuffixOfMore(Kept(room), lines, line);
  }

  lemma RotatedIsWell(files: Files, line: Line, i: nat)
    requires WellRotated(files) && NeedsRotation(files, |line|) && i in Written(files, line)
    ensures WellAt(Written(files, line), i)
  {
    var next := Written(files, line);
    RotatedContent(files, 0);
    SizeOfOne(line);
    if i > 0 {
      RotatedContent(files, i);
      assert Follows(files, i) && WellAt(files, i - 1);
      assert Content(next, i) == files[i - 1];
      if i == 1 {
        assert next[0] == [line];
      } else {
        RotatedContent(files, i - 1);
        assert Follows(files, i - 1) && next[i - 1] == files[i - 2];
      }
    }
  }

  lemma AppendedIsWell(files: Files, line: Line, i: nat)
    requires WellRotated(files) && !NeedsRotation(files, |line|) && i in Written(files, line)
    ensures WellAt(Written(files, line), i)
  {
    SizeOfOne(line);
    SizeConcat(Content(files, 0), [line]);
    assert i in files ==> WellAt(files, i);
  }

  lemma WriteKeepsWellRotated(files: Files, line: Line)
    requires WellRotated(files)
    ensures WellRotated(Written(files, line))
  {
    forall i: nat | i in Written(files, line) ensures WellAt(Written(files, line), i) {
      if NeedsRotation(files, |line|) {
        RotatedIsWell(files, line, i);
      } else {
        AppendedIsWell(files, line, i);
      }
    }
  }

  lemma OneThenRest(before: seq<Line>, lines: seq<Line>)
    requires lines != []
    ensures (before + [lines[0]]) + lines[1..] == before + lines
  {
  }

  lemma LogStep(files: Files, before: seq<Line>, line: Line, next: Files)
    requires Sound(files, before) && next == Written(files, line)
    ensures Sound(next, before + [line])
  {
    WriteKeepsWellRotated(files, line);
    WriteKeepsNewest(files, before, line);
  }

  ghost predicate Sound(files: Files, lines: seq<Line>) {
    WellRotated(files) && KeepsNewest(files, lines)
  }

  lemma {:induction false} LogKeepsSound(files: Files, before: seq<Line>, lines: seq<Line>, after: Files, total: seq<Line>)
    requires Sound(files, before) && after == WrittenAll(files, lines) && total == before + lines
    ensures Sound(after, total)
    decreases |lines|
  {
    if lines == [] {
      assert total == before;
    } else {
      var next := Written(files, lines[0]);
      LogStep(files, before, lines[0], next);
      OneThenRest(before, lines);
      LogKeepsSound(next, before + [lines[0]], lines[1..], after, total);
    }
  }

  /** After any sequence of writes into an empty directory the files are well rotated and hold, in
      order, a suffix of everything written; nothing at all is missing while there are fewer than five. */
  lemma LogKeepsNewest(lines: seq<Line>, files: Files)
    requires files == WrittenAll(map[], lines)
    ensures WellRotated(files) && KeepsNewest(files, lines)
  {
    assert [] + lines == lines;
    LogKeepsSound(map[], [], lines, files, lines);
  }

  lemma SizeOfFirst(file: seq<Line>)
    requires file != []
    ensures Size(file) >= |file[0]|
  {
  }

  /** Two neighbouring files hold more than one file's limit together. */
  lemma NeighboursAreFull(files: Files, i: nat)
    requires WellRotated(files) && i > 0 && i in files
    ensures Size(Content(files, i)) + Size(Content(files, i - 1)) > MAX_LOG_BYTES
  {
    assert WellAt(files, i);
    SizeOfFirst(files[i - 1]);
  }

  lemma KeptSize(files: Files)
    ensures Size(Kept(files)) == Size(Content(files, 4)) + Size(Content(files, 3)) + Size(Content(files, 2))
                                + Size(Content(files, 1)) + Size(Content(files, 0))
  {
    var a, b, c, d, e := Content(files, 4), Content(files, 3), Content(files, 2), Content(files, 1), Content(files, 0);
    SizeConcat(a, b);
    SizeConcat(a + b, c);
    SizeConcat(a + b + c, d);
    SizeConcat(a + b + c + d, e);
  }

  /** What is dropped is never recent: either every line written is still there, or the files hold more
      than two full files of the newest lines. */
  lemma DropsOnlyOldLines(lines: seq<Line>)
    ensures var files := WrittenAll(map[], lines);
      Kept(files) == lines || (IsSuffix(Kept(files), lines) && Size(Kept(files)) > 2 * MAX_LOG_BYTES)
  {
    var files := WrittenAll(map[], lines);
    LogKeepsNewest(lines, files);
    if 4 in files {
      assert WellAt(files, 4) && WellAt(files, 3);
      NeighboursAreFull(files, 4);
      NeighboursAreFull(files, 2);
      KeptSize(files);
    }
  }

  const NUMBERS: set<nat> := {0, 1, 2, 3, 4}

  lemma WellRotatedNumbers(files: Files)
    requires WellRotated(files)
    ensures files.Keys <= NUMBERS
  {
    forall i | i in files ensures i in NUMBERS {
      assert WellAt(files, i);
    }
  }

  function Renamed(files: Files, source: nat, target: nat): Files {
    if source in files then files[target := files[source]] - {source} else files
  }

  lemma RotationBegins(files: Files)
    requires files.Keys <= NUMBERS
    ensures files - {4} == RotatedAbove(files, 3)
  {
  }

  lemma RotationMovesOne(files: Files, index: nat)
    requires 1 <= index <= 3
    ensures Renamed(RotatedAbove(files, index), index, index + 1) == RotatedAbove(files, index - 1)
  {
    var before, after := RotatedAbove(files, index), RotatedAbove(files, index - 1);
    assert index in before <==> index in files;
    assert index + 1 in after <==> Follows(files, index + 1);
  }

  lemma RotationEnds(files: Files)
    ensures Renamed(RotatedAbove(files, 0), 0, 1) == Rotated(files)
  {
    assert 1 in Rotated(files) <==> Follows(files, 1);
  }

  // ---------------------------------------------------------------------------
  // The logger
  // ---------------------------------------------------------------------------

  class PeerDiagnosticsLog {
    var files: Files
    ghost var written: seq<Line>

    ghost predicate Valid()
      reads this
    {
      WellRotated(files) && KeepsNewest(files, written)
    }

    constructor ()
      ensures Valid() && files == map[] && written == []
    {
      files := map[];
      written := [];
    }

    method RenameIfExists(source: nat, target: nat)
      modifies this`files
      ensures files == Renamed(old(files), source, target)
    {
      if source in files {
        files := files[target := files[source]] - {source};
      }
    }

    /** Moves every file up one number if the incoming bytes do not fit into the current one. */
    method RotateIfNeeded(incoming: nat)
      requires files.Keys <= NUMBERS
      modifies this`files
      ensures files == if NeedsRotation(old(files), incoming) then Rotated(old(files)) else old(files)
    {
      if 0 !in files || Size(files[0]) + incoming <= MAX_LOG_BYTES {
        return;
      }
      RotationBegins(files);
      files := files - {MAX_LOG_FILES - 1};
      var index := MAX_LOG_FILES - 2;
      while index >= 1
        invariant 0 <= index <= MAX_LOG_FILES - 2
        invariant files == RotatedAbove(old(files), index)
      {
        RotationMovesOne(old(files), index);
        RenameIfExists(index, index + 1);
        index := index - 1;
      }
      RotationEnds(old(files));
      RenameIfExists(0, 1);
    }

    /** Appends a line, after making room for it. */
    method Log(line: Line)
      requires Valid()
      modifies this
      ensures Valid()
      ensures files == Written(old(files), line) && written == old(written) + [line]
    {
      WriteKeepsWellRotated(files, line);
      WriteKeepsNewest(files, written, line);
      WellRotatedNumbers(files);
      RotateIfNeeded(|line|);
      files := files[0 := (if 0 in files then files[0] else []) + [line]];
      written := written + [line];
    }
  }
}
