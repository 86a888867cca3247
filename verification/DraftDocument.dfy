// Reassembling a streamed draft from numbered, offset-carrying chunks and full snapshots, when the
// transport may lose, repeat and reorder both.

module DraftDocument {
  import opened Wrappers

  /** A preview chunk as parsed from its payload. */
  datatype Chunk = Chunk(seqNo: Option<int>, startOffset: Option<int>, endOffset: Option<int>,
                         content: string, sha: string)

  /** A snapshot as parsed from its payload; the content field may be missing altogether. */
  datatype Snapshot = Snapshot(content: Option<string>, sha: string, lastSeq: Option<int>)

  datatype Verdict =
    | Applied | InvalidChunk | DuplicateChunk | AwaitingSnapshot | SequenceGap | OffsetGap
    | OffsetMismatch | HashMismatch | MissingContent

  datatype State = State(text: string, lastSeq: int, waiting: bool)

  const START := State("", 0, false)

  function Max(a: int, b: int): int {
    if a < b then b else a
  }

  /** `hash` stands for the digest of a text. */
  function ChunkVerdict(hash: string -> string, s: State, c: Chunk): Verdict {
    if c.content == "" || c.seqNo.None? || c.startOffset.None? then InvalidChunk
    else if c.seqNo.value <= s.lastSeq then DuplicateChunk
    else if s.waiting then AwaitingSnapshot
    else if c.seqNo.value != s.lastSeq + 1 then SequenceGap
    else if c.startOffset.value != |s.text| then OffsetGap
    else if c.endOffset.Some? && c.endOffset.value != c.startOffset.value + |c.content| then OffsetMismatch
    else if c.sha != "" && c.sha != hash(c.content) then HashMismatch
    else Applied
  }

  function AfterChunk(hash: string -> string, s: State, c: Chunk): State {
    match ChunkVerdict(hash, s, c)
    case Applied => State(s.text + c.content, c.seqNo.value, false)
    case SequenceGap => s.(waiting := true)
    case OffsetGap => s.(waiting := true)
    case OffsetMismatch => s.(waiting := true)
    case HashMismatch => s.(waiting := true)
    case _ => s
  }

  function SnapshotVerdict(hash: string -> string, n: Snapshot): Verdict {
    if n.content.None? then MissingContent
    else if n.sha != "" && n.sha != hash(n.content.value) then HashMismatch
    else Applied
  }

  function AfterSnapshot(hash: string -> string, s: State, n: Snapshot): State {
    if SnapshotVerdict(hash, n) != Applied then s.(waiting := true)
    else State(n.content.value, if n.lastSeq.Some? then Max(s.lastSeq, n.lastSeq.value) else s.lastSeq, false)
  }

  // ---------------------------------------------------------------------------
  // What a message does, genuine or not
  // ---------------------------------------------------------------------------

  /** A chunk is added exactly when it has content, is the next one, starts where the text ends, ends where
      it says, if it does, and has the digest it claims, if any, while no snapshot is awaited. Any other chunk
      leaves text and number alone; a snapshot is awaited from then on if it was new and complete. */
  lemma ChunkSets(hash: string -> string, s: State, c: Chunk)
    ensures var next := AfterChunk(hash, s, c);
      var added := && c.content != "" && c.seqNo == Some(s.lastSeq + 1) && !s.waiting && c.startOffset == Some(|s.text|)
                   && (c.endOffset.Some? ==> c.endOffset.value == |s.text| + |c.content|)
                   && (c.sha != "" ==> c.sha == hash(c.content));
      if added then next == State(s.text + c.content, s.lastSeq + 1, false)
      else
        && next.text == s.text && next.lastSeq == s.lastSeq
        && (next.waiting <==>
              s.waiting || (c.content != "" && c.startOffset.Some? && c.seqNo.Some? && c.seqNo.value > s.lastSeq))
  {
  }

  /** The reason given is the first of them that applies. */
  lemma ChunkReasons(hash: string -> string, s: State, c: Chunk)
    ensures var v := ChunkVerdict(hash, s, c);
      && (v == InvalidChunk <==> c.content == "" || c.seqNo.None? || c.startOffset.None?)
      && (v == DuplicateChunk ==> c.seqNo.value <= s.lastSeq)
      && (v != InvalidChunk && c.seqNo.value <= s.lastSeq ==> v == DuplicateChunk)
      && (v == AwaitingSnapshot <==> c.content != "" && c.startOffset.Some? && c.seqNo.Some? && c.seqNo.value > s.lastSeq && s.waiting)
      && (v == SequenceGap ==> c.seqNo.value > s.lastSeq + 1)
      && (v == OffsetGap ==> c.startOffset.value != |s.text|)
      && (v == OffsetMismatch ==> c.endOffset.value != |s.text| + |c.content|)
      && (v == HashMismatch ==> c.sha != "" && c.sha != hash(c.content))
      && v != MissingContent
  {
  }

  /** A snapshot with content, of the digest it claims, if any, becomes the text, never lowers the number and
      ends the waiting; any other is asked for again, with everything else kept. */
  lemma SnapshotSets(hash: string -> string, s: State, n: Snapshot)
    ensures var next := AfterSnapshot(hash, s, n);
      if n.content.Some? && (n.sha != "" ==> n.sha == hash(n.content.value)) then
        && next.text == n.content.value && !next.waiting
        && (n.lastSeq.None? || n.lastSeq.value <= s.lastSeq ==> next.lastSeq == s.lastSeq)
        && (n.lastSeq.Some? && n.lastSeq.value > s.lastSeq ==> next.lastSeq == n.lastSeq.value)
      else next == State(s.text, s.lastSeq, true)
  {
  }

  // ---------------------------------------------------------------------------
  // The buffer object
  // ---------------------------------------------------------------------------

  class Buffer {
    const hash: string -> string
    var text: string
    var lastChunkSeq: int
    var waitingForSnapshot: bool

    function View(): State
      reads this
    {
      State(text, lastChunkSeq, waitingForSnapshot)
    }

    constructor (hash: string -> string)
      ensures View() == START && this.hash == hash
    {
      this.hash := hash;
      text, lastChunkSeq, waitingForSnapshot := "", 0, false;
    }

    method ApplyPreviewChunk(c: Chunk) returns (changed: bool, accepted: bool, verdict: Verdict)
      modifies this
      ensures View() == AfterChunk(hash, old(View()), c)
      ensures verdict == ChunkVerdict(hash, old(View()), c)
      ensures changed <==> verdict == Applied
      ensures accepted <==> verdict in {Applied, DuplicateChunk}
    {
      if c.content == "" || c.seqNo.None? || c.startOffset.None? {
        return false, false, InvalidChunk;
      }
      if c.seqNo.value <= lastChunkSeq {
        return false, true, DuplicateChunk;
      }
      if waitingForSnapshot {
        return false, false, AwaitingSnapshot;
      }
      if c.seqNo.value != lastChunkSeq + 1 {
        waitingForSnapshot := true;
        return false, false, SequenceGap;
      }
      if c.startOffset.value != |text| {
        waitingForSnapshot := true;
        return false, false, OffsetGap;
      }
      if c.endOffset.Some? && c.endOffset.value != c.startOffset.value + |c.content| {
        waitingForSnapshot := true;
        return false, false, OffsetMismatch;
      }
      if c.sha != "" && c.sha != hash(c.content) {
        waitingForSnapshot := true;
        return false, false, HashMismatch;
      }
      text := text + c.content;
      lastChunkSeq := c.seqNo.value;
      return true, true, Applied;
    }

    method ApplySnapshot(n: Snapshot) returns (changed: bool, accepted: bool, verdict: Verdict)
      modifies this
      ensures View() == AfterSnapshot(hash, old(View()), n)
      ensures verdict == SnapshotVerdict(hash, n)
      ensures changed == accepted == (verdict == Applied)
    {
      if n.content.None? {
        waitingForSnapshot := true;
        return false, false, MissingContent;
      }
      if n.sha != "" && n.sha != hash(n.content.value) {
        waitingForSnapshot := true;
        return false, false, HashMismatch;
      }
      text := n.content.value;
      if n.lastSeq.Some? {
        lastChunkSeq := Max(lastChunkSeq, n.lastSeq.value);
      }
      waitingForSnapshot := false;
      return true, true, Applied;
    }
  }

  // ---------------------------------------------------------------------------
  // The sender
  // ---------------------------------------------------------------------------

  /** The document after its first `k` chunks. */
  function Prefix(chunks: seq<string>, k: nat): string
    requires k <= |chunks|
  {
    if k == 0 then "" else Prefix(chunks, k - 1) + chunks[k - 1]
  }

  predicate IsDocument(chunks: seq<string>) {
    forall i :: 0 <= i < |chunks| ==> chunks[i] != ""
  }

  datatype Message = ChunkSent(chunk: Chunk) | SnapshotSent(snapshot: Snapshot)

  /** Chunk `k` as the sender numbers it; end offset and digest are optional. */
  predicate GenuineChunk(hash: string -> string, chunks: seq<string>, k: nat, c: Chunk) {
    && 1 <= k <= |chunks|
    && c.seqNo == Some(k)
    && c.content == chunks[k - 1]
    && c.startOffset == Some(|Prefix(chunks, k - 1)|)
    && (c.endOffset.Some? ==> c.endOffset.value == |Prefix(chunks, k)|)
    && (c.sha != "" ==> c.sha == hash(c.content))
  }

  /** A snapshot of the first `k` chunks; its digest and the number of its last chunk are optional. */
  predicate GenuineSnapshot(hash: string -> string, chunks: seq<string>, k: nat, n: Snapshot) {
    && k <= |chunks|
    && n.content == Some(Prefix(chunks, k))
    && (n.sha != "" ==> n.sha == hash(Prefix(chunks, k)))
    && (n.lastSeq.Some? ==> n.lastSeq.value == k)
  }

  ghost predicate Genuine(hash: string -> string, chunks: seq<string>, m: Message) {
    match m
    case ChunkSent(c) => c.seqNo.Some? && c.seqNo.value >= 0 && GenuineChunk(hash, chunks, c.seqNo.value, c)
    case SnapshotSent(n) => exists k: nat :: GenuineSnapshot(hash, chunks, k, n)
  }

  ghost predicate AllGenuine(hash: string -> string, chunks: seq<string>, messages: seq<Message>) {
    forall m :: m in messages ==> Genuine(hash, chunks, m)
  }

  function After(hash: string -> string, s: State, m: Message): State {
    match m
    case ChunkSent(c) => AfterChunk(hash, s, c)
    case SnapshotSent(n) => AfterSnapshot(hash, s, n)
  }

  function Receive(hash: string -> string, s: State, messages: seq<Message>): State
    decreases |messages|
  {
    if messages == [] then s else Receive(hash, After(hash, s, messages[0]), messages[1..])
  }

  /** What the receiver may show: some prefix of the document. */
  ghost predicate ShowsPrefix(chunks: seq<string>, s: State) {
    && 0 <= s.lastSeq <= |chunks|
    && exists j: nat :: j <= |chunks| && s.text == Prefix(chunks, j)
  }

  lemma {:induction false} PrefixesGrow(chunks: seq<string>, i: nat, j: nat)
    requires IsDocument(chunks) && i <= j <= |chunks|
    ensures |Prefix(chunks, i)| <= |Prefix(chunks, j)|
    ensures i < j ==> |Prefix(chunks, i)| < |Prefix(chunks, j)|
  {
    if i < j {
      PrefixesGrow(chunks, i, j - 1);
    }
  }

  /** Offsets identify prefixes, because no chunk is empty. */
  lemma OffsetIdentifies(chunks: seq<string>, i: nat, j: nat)
    requires IsDocument(chunks) && i <= |chunks| && j <= |chunks|
    ensures |Prefix(chunks, i)| == |Prefix(chunks, j)| <==> i == j
  {
    if i < j {
      PrefixesGrow(chunks, i, j);
    } else {
      PrefixesGrow(chunks, j, i);
    }
  }

  // ---------------------------------------------------------------------------
  // Safety
  // ---------------------------------------------------------------------------

  lemma StepIsSafe(hash: string -> string, chunks: seq<string>, s: State, m: Message)
    requires IsDocument(chunks) && ShowsPrefix(chunks, s) && Genuine(hash, chunks, m)
    ensures ShowsPrefix(chunks, After(hash, s, m)) && s.lastSeq <= After(hash, s, m).lastSeq
  {
    if m.ChunkSent? && ChunkVerdict(hash, s, m.chunk) == Applied {
      var k := m.chunk.seqNo.value;
      var j: nat :| j <= |chunks| && s.text == Prefix(chunks, j);
      OffsetIdentifies(chunks, j, k - 1);
      assert After(hash, s, m).text == Prefix(chunks, k);
    }
  }

  /** Whatever genuine messages arrive, in whatever order and however often: the text is always a
      prefix of the document and the last chunk number never falls. */
  lemma {:induction false} DraftIsSafe(hash: string -> string, chunks: seq<string>, s: State, messages: seq<Message>)
    requires IsDocument(chunks) && ShowsPrefix(chunks, s) && AllGenuine(hash, chunks, messages)
    ensures ShowsPrefix(chunks, Receive(hash, s, messages)) && s.lastSeq <= Receive(hash, s, messages).lastSeq
    decreases |messages|
  {
    if messages != [] {
      StepIsSafe(hash, chunks, s, messages[0]);
      DraftIsSafe(hash, chunks, After(hash, s, messages[0]), messages[1..]);
    }
  }

  /** So it is for a new buffer, whatever it receives. */
  lemma NewBufferIsSafe(hash: string -> string, chunks: seq<string>, messages: seq<Message>)
    requires IsDocument(chunks) && AllGenuine(hash, chunks, messages)
    ensures ShowsPrefix(chunks, Receive(hash, START, messages)) && 0 <= Receive(hash, START, messages).lastSeq
  {
    assert Prefix(chunks, 0) == "";
    DraftIsSafe(hash, chunks, START, messages);
  }

  /** While a snapshot is awaited no chunk, genuine or not, changes anything. */
  lemma {:induction false} WaitingFreezes(hash: string -> string, s: State, messages: seq<Message>)
    requires s.waiting && forall m :: m in messages ==> m.ChunkSent?
    ensures Receive(hash, s, messages) == s
    decreases |messages|
  {
    if messages != [] {
      assert messages[0].ChunkSent?;
      WaitingFreezes(hash, s, messages[1..]);
    }
  }

  // ---------------------------------------------------------------------------
  // Recovery
  // ---------------------------------------------------------------------------

  /** Chunks k+1 to the last, in order, with any already seen ones in between. */
  ghost predicate Resumes(hash: string -> string, chunks: seq<string>, k: nat, rest: seq<Chunk>)
    decreases |rest|
  {
    if rest == [] then k == |chunks|
    else if exists seen: nat :: seen <= k && GenuineChunk(hash, chunks, seen, rest[0]) then Resumes(hash, chunks, k, rest[1..])
    else GenuineChunk(hash, chunks, k + 1, rest[0]) && Resumes(hash, chunks, k + 1, rest[1..])
  }

  function Sent(rest: seq<Chunk>): seq<Message> {
    if rest == [] then [] else [ChunkSent(rest[0])] + Sent(rest[1..])
  }

  predicate Complete(chunks: seq<string>, s: State) {
    s == State(Prefix(chunks, |chunks|), |chunks|, false)
  }

  lemma {:induction false} InStepCompletes(hash: string -> string, chunks: seq<string>, s: State, k: nat, rest: seq<Chunk>)
    requires IsDocument(chunks) && k <= |chunks| && Resumes(hash, chunks, k, rest)
    requires s == State(Prefix(chunks, k), k, false)
    ensures Complete(chunks, Receive(hash, s, Sent(rest)))
    decreases |rest|
  {
    if rest != [] {
      assert Sent(rest)[0] == ChunkSent(rest[0]) && Sent(rest)[1..] == Sent(rest[1..]);
      if exists seen: nat :: seen <= k && GenuineChunk(hash, chunks, seen, rest[0]) {
        InStepCompletes(hash, chunks, s, k, rest[1..]);
      } else {
        InStepCompletes(hash, chunks, AfterChunk(hash, s, rest[0]), k + 1, rest[1..]);
      }
    }
  }

  /** Out of step with its number, the buffer never completes by chunks alone. */
  lemma {:induction false} OutOfStepNeverCompletes(
    hash: string -> string, chunks: seq<string>, s: State, k: nat, shown: nat, rest: seq<Chunk>)
    requires IsDocument(chunks) && k <= |chunks| && Resumes(hash, chunks, k, rest)
    requires shown <= |chunks| && s.text == Prefix(chunks, shown) && 0 <= s.lastSeq <= |chunks| && s.lastSeq != shown
    ensures !Complete(chunks, Receive(hash, s, Sent(rest)))
    decreases |rest|
  {
    OffsetIdentifies(chunks, shown, |chunks|);
    if rest != [] {
      assert Sent(rest)[0] == ChunkSent(rest[0]) && Sent(rest)[1..] == Sent(rest[1..]);
      var c := rest[0];
      var next := if exists seen: nat :: seen <= k && GenuineChunk(hash, chunks, seen, c) then k else k + 1;
      var n := c.seqNo.value;
      OffsetIdentifies(chunks, shown, n - 1);
      assert AfterChunk(hash, s, c).text == s.text && AfterChunk(hash, s, c).lastSeq == s.lastSeq;
      OutOfStepNeverCompletes(hash, chunks, AfterChunk(hash, s, c), next, shown, rest[1..]);
    }
  }

  /** From any reachable state, a snapshot of the first `k` chunks followed by the remaining chunks
      completes the document exactly when it leaves the buffer in step: it says how far it reaches and
      is not older than what was counted, or it reaches exactly that far. */
  lemma RecoveryIff(hash: string -> string, chunks: seq<string>, s: State, k: nat, n: Snapshot, rest: seq<Chunk>)
    requires IsDocument(chunks) && ShowsPrefix(chunks, s)
    requires GenuineSnapshot(hash, chunks, k, n) && Resumes(hash, chunks, k, rest)
    ensures Complete(chunks, Receive(hash, s, [SnapshotSent(n)] + Sent(rest)))
      <==> ((n.lastSeq.Some? && s.lastSeq <= k) || s.lastSeq == k)
  {
    var messages := [SnapshotSent(n)] + Sent(rest);
    assert messages[1..] == Sent(rest);
    var next := AfterSnapshot(hash, s, n);
    if next.lastSeq == k {
      InStepCompletes(hash, chunks, next, k, rest);
    } else {
      OutOfStepNeverCompletes(hash, chunks, next, k, k, rest);
    }
  }
}
