// The items of one assistant message: how each event changes them, and what that does to the text
// they hold.

module TranscriptItems {
  import opened Wrappers
  import Text = SnapshotPersistence

  datatype StreamKey = AssistantStream | AssistantMessage

  datatype NoticeLevel = InfoLevel | WarningLevel | ErrorLevel

  datatype Item =
    | AssistantText(markdown: string, streamKey: StreamKey, streaming: bool, eventKey: Option<string>)
    | Thinking(raw: string, active: bool, eventKey: Option<string>)
    | Reasoning(summary: string, raw: string, eventKey: Option<string>)
    | Notice(level: NoticeLevel, text: string, eventKey: Option<string>)
    | Other(kind: string, id: string, body: string, awaiting: bool, eventKey: Option<string>)

  /** What an event says about the transcript, without the tool calls. */
  datatype Body =
    | UserMessage(prompt: string)
    | AssistantDelta(content: string)
    | AssistantFinal(content: string)
    | ReasoningDelta(content: string)
    | ReasoningFinal(raw: string, summary: string)
    | NoticeText(level: NoticeLevel, content: string)
    | Structured(kind: string, id: string, body: string, awaiting: bool, shown: bool)
    | UpsertById(kind: string, id: string, body: string)
    | RunClosed(level: NoticeLevel, notice: string, onlyOnce: bool, settles: bool)
    | RunEnded(response: string, rendered: bool)
    | StatusOnly

  /** An event with its key, if it has one, and the id of the session item it renders. */
  datatype Event = Event(body: Body, eventKey: Option<string>, sessionItemId: Option<string>)

  // ---------------------------------------------------------------------------
  // Texts
  // ---------------------------------------------------------------------------

  const ESC: char := '\U{001B}'

  function CodeRun(s: string, i: nat): (n: nat)
    requires i <= |s|
    ensures i <= n <= |s|
    decreases |s| - i
  {
    if i < |s| && ('0' <= s[i] <= '9' || s[i] == ';') then CodeRun(s, i + 1) else i
  }

  /** The length of the colour sequence `s` starts with; 0 if it does not start with one. */
  function AnsiLength(s: string): (n: nat)
    ensures n <= |s|
  {
    if |s| < 3 || s[0] != ESC || s[1] != '[' then 0
    else
      var end := CodeRun(s, 2);
      if end < |s| && s[end] == 'm' then end + 1 else 0
  }

  function StripAnsi(s: string): string
    decreases |s|
  {
    if s == "" then ""
    else if AnsiLength(s) > 0 then StripAnsi(s[AnsiLength(s)..])
    else [s[0]] + StripAnsi(s[1..])
  }

  function Clean(s: string): string {
    Text.Trim(StripAnsi(s))
  }

  // ---------------------------------------------------------------------------
  // Items
  // ---------------------------------------------------------------------------

  function TextOfItem(item: Item): string {
    if item.AssistantText? then item.markdown else ""
  }

  /** The text of a message: that of its assistant items, in order. */
  function Joined(parts: seq<Item>): string {
    if parts == [] then "" else TextOfItem(parts[0]) + Joined(parts[1..])
  }

  predicate IsOpen(item: Item) {
    item.AssistantText? && item.streamKey == AssistantStream
  }

  predicate OpenAtEnd(parts: seq<Item>) {
    parts != [] && IsOpen(parts[|parts| - 1])
  }

  /** An item with the event's key, if the event has one. */
  function Mark(item: Item, key: Option<string>): Item {
    if key.Some? then item.(eventKey := key) else item
  }

  function Closed(item: Item): Item {
    if IsOpen(item) then item.(streaming := false, streamKey := AssistantMessage)
    else if item.Thinking? then item.(active := false)
    else item
  }

  function ReplaceLast(parts: seq<Item>, item: Item): seq<Item>
    requires parts != []
  {
    parts[..|parts| - 1] + [item]
  }

  function CloseTrailing(parts: seq<Item>): seq<Item> {
    if parts == [] then parts else ReplaceLast(parts, Closed(parts[|parts| - 1]))
  }

  function Append(parts: seq<Item>, item: Item): seq<Item> {
    CloseTrailing(parts) + [item]
  }

  function AddDelta(parts: seq<Item>, content: string, key: Option<string>): seq<Item> {
    if OpenAtEnd(parts) then
      var last := parts[|parts| - 1];
      ReplaceLast(parts, Mark(last.(markdown := last.markdown + content, streaming := true), key))
    else
      Append(parts, AssistantText(content, AssistantStream, true, key))
  }

  function AddFinal(parts: seq<Item>, content: string, key: Option<string>): seq<Item> {
    if OpenAtEnd(parts) then
      var last := parts[|parts| - 1];
      ReplaceLast(parts, Mark(last.(markdown := content, streaming := false, streamKey := AssistantMessage), key))
    else
      Append(parts, AssistantText(content, AssistantMessage, false, key))
  }

  function LastThinking(parts: seq<Item>): (i: Option<nat>)
    ensures i.Some? ==> i.value < |parts| && parts[i.value].Thinking?
                        && forall j :: i.value < j < |parts| ==> !parts[j].Thinking?
    ensures i.None? ==> forall j :: 0 <= j < |parts| ==> !parts[j].Thinking?
  {
    if parts == [] then None
    else if parts[|parts| - 1].Thinking? then Some(|parts| - 1)
    else LastThinking(parts[..|parts| - 1])
  }

  function LastReasoning(parts: seq<Item>): (i: Option<nat>)
    ensures i.Some? ==> i.value < |parts| && parts[i.value].Reasoning?
                        && forall j :: i.value < j < |parts| ==> !parts[j].Reasoning?
    ensures i.None? ==> forall j :: 0 <= j < |parts| ==> !parts[j].Reasoning?
  {
    if parts == [] then None
    else if parts[|parts| - 1].Reasoning? then Some(|parts| - 1)
    else LastReasoning(parts[..|parts| - 1])
  }

  function AddReasoningDelta(parts: seq<Item>, content: string, key: Option<string>): seq<Item> {
    var at := LastThinking(parts);
    if at.Some? then
      var item := parts[at.value];
      parts[at.value := Mark(item.(active := true, raw := item.raw + content), key)]
    else
      Append(parts, Thinking(content, true, key))
  }

  function AddReasoning(parts: seq<Item>, raw: string, summary: string, key: Option<string>): seq<Item> {
    var item := Reasoning(summary, if raw != "" then raw else summary, key);
    if LastThinking(parts).Some? then parts[LastThinking(parts).value := item]
    else if LastReasoning(parts).Some? then parts[LastReasoning(parts).value := item]
    else Append(parts, item)
  }

  function FindOther(parts: seq<Item>, kind: string, id: string): (i: Option<nat>)
    ensures i.Some? ==> i.value < |parts| && parts[i.value].Other? && parts[i.value].kind == kind && parts[i.value].id == id
                        && forall j :: 0 <= j < i.value ==> !(parts[j].Other? && parts[j].kind == kind && parts[j].id == id)
    ensures i.None? ==> forall j :: 0 <= j < |parts| ==> !(parts[j].Other? && parts[j].kind == kind && parts[j].id == id)
  {
    if parts == [] then None
    else if parts[0].Other? && parts[0].kind == kind && parts[0].id == id then Some(0)
    else
      var rest := FindOther(parts[1..], kind, id);
      if rest.None? then None else Some(rest.value + 1)
  }

  function Upsert(parts: seq<Item>, kind: string, id: string, body: string, key: Option<string>): seq<Item> {
    var at := FindOther(parts, kind, id);
    if at.Some? then parts[at.value := Other(kind, id, body, false, key)]
    else Append(parts, Other(kind, id, body, false, key))
  }

  function AddNotice(parts: seq<Item>, level: NoticeLevel, content: string, key: Option<string>): seq<Item> {
    if Clean(content) == "" then parts else Append(parts, Notice(level, Clean(content), key))
  }

  predicate HasNotice(parts: seq<Item>, level: NoticeLevel) {
    exists i :: 0 <= i < |parts| && parts[i].Notice? && parts[i].level == level
  }

  /** At the end of a run every stream is closed and no thinking is active. */
  function Finish(parts: seq<Item>): seq<Item> {
    seq(|parts|, i requires 0 <= i < |parts| => Closed(parts[i]))
  }

  /** Whether an event reaches the assistant's items at all. */
  predicate Touches(body: Body) {
    match body
    case UserMessage(_) => false
    case AssistantDelta(content) => StripAnsi(content) != ""
    case AssistantFinal(content) => Clean(content) != ""
    case ReasoningDelta(content) => StripAnsi(content) != ""
    case ReasoningFinal(raw, summary) => StripAnsi(raw) != "" || StripAnsi(summary) != ""
    case NoticeText(_, content) => Clean(content) != ""
    case Structured(_, _, _, _, shown) => shown
    case UpsertById(_, _, _) => true
    case RunClosed(_, _, _, _) => true
    case RunEnded(_, _) => true
    case StatusOnly => false
  }

  /** The items after an event that reaches them. */
  function PartsAfter(parts: seq<Item>, body: Body, key: Option<string>): seq<Item>
    requires Touches(body)
  {
    match body
    case AssistantDelta(content) => AddDelta(parts, StripAnsi(content), key)
    case AssistantFinal(content) => AddFinal(parts, Clean(content), key)
    case ReasoningDelta(content) => AddReasoningDelta(parts, StripAnsi(content), key)
    case ReasoningFinal(raw, summary) => AddReasoning(parts, StripAnsi(raw), StripAnsi(summary), key)
    case NoticeText(level, content) => AddNotice(parts, level, content, key)
    case Structured(kind, id, content, awaiting, _) => Append(parts, Other(kind, id, content, awaiting, key))
    case UpsertById(kind, id, content) => Upsert(parts, kind, id, content, key)
    case RunClosed(level, notice, onlyOnce, _) =>
      Finish(if onlyOnce && HasNotice(parts, level) then parts else AddNotice(parts, level, notice, key))
    case RunEnded(response, rendered) =>
      Finish(if Clean(response) == "" || rendered then parts else AddFinal(parts, Clean(response), key))
  }

  // ---------------------------------------------------------------------------
  // What an event does to the text
  // ---------------------------------------------------------------------------

  /** No stream is open but the last item. */
  ghost predicate OpenOnlyLast(parts: seq<Item>) {
    forall i :: 0 <= i < |parts| - 1 ==> !IsOpen(parts[i])
  }

  /** The text that is still being streamed, and the text before it. */
  function OpenText(parts: seq<Item>): string {
    if OpenAtEnd(parts) then parts[|parts| - 1].markdown else ""
  }

  function SettledText(parts: seq<Item>): string {
    if OpenAtEnd(parts) then Joined(parts[..|parts| - 1]) else Joined(parts)
  }

  lemma {:induction false} JoinedConcat(a: seq<Item>, b: seq<Item>)
    ensures Joined(a + b) == Joined(a) + Joined(b)
    decreases |a|
  {
    if a == [] {
      assert a + b == b;
    } else {
      assert (a + b)[1..] == a[1..] + b;
      JoinedConcat(a[1..], b);
    }
  }

  lemma JoinedLast(parts: seq<Item>)
    requires parts != []
    ensures Joined(parts) == Joined(parts[..|parts| - 1]) + TextOfItem(parts[|parts| - 1])
  {
    assert parts == parts[..|parts| - 1] + [parts[|parts| - 1]];
    JoinedConcat(parts[..|parts| - 1], [parts[|parts| - 1]]);
    assert Joined([parts[|parts| - 1]]) == TextOfItem(parts[|parts| - 1]);
  }

  /** The text is what is settled and what is open. */
  lemma TextIsSettledAndOpen(parts: seq<Item>)
    ensures Joined(parts) == SettledText(parts) + OpenText(parts)
  {
    if OpenAtEnd(parts) {
      JoinedLast(parts);
    }
  }

  lemma {:induction false} SameTexts(a: seq<Item>, b: seq<Item>)
    requires |a| == |b| && forall i :: 0 <= i < |a| ==> TextOfItem(a[i]) == TextOfItem(b[i])
    ensures Joined(a) == Joined(b)
    decreases |a|
  {
    if a != [] {
      SameTexts(a[1..], b[1..]);
    }
  }

  lemma ReplaceLastText(parts: seq<Item>, item: Item)
    requires parts != []
    ensures Joined(ReplaceLast(parts, item)) == Joined(parts[..|parts| - 1]) + TextOfItem(item)
  {
    JoinedLast(ReplaceLast(parts, item));
    assert ReplaceLast(parts, item)[..|parts| - 1] == parts[..|parts| - 1];
  }

  lemma CloseKeepsText(parts: seq<Item>)
    ensures Joined(CloseTrailing(parts)) == Joined(parts)
    ensures |CloseTrailing(parts)| == |parts|
  {
    if parts != [] {
      JoinedLast(parts);
      ReplaceLastText(parts, Closed(parts[|parts| - 1]));
    }
  }

  lemma AppendedParts(parts: seq<Item>, item: Item)
    requires OpenOnlyLast(parts)
    ensures OpenOnlyLast(Append(parts, item)) && OpenAtEnd(Append(parts, item)) == IsOpen(item)
    ensures |Append(parts, item)| == |parts| + 1 && Append(parts, item)[..|parts|] == CloseTrailing(parts)
  {
  }

  lemma AppendText(parts: seq<Item>, item: Item)
    requires OpenOnlyLast(parts)
    ensures Joined(Append(parts, item)) == Joined(parts) + TextOfItem(item)
    ensures OpenOnlyLast(Append(parts, item)) && OpenAtEnd(Append(parts, item)) == IsOpen(item)
    ensures SettledText(Append(parts, item)) == if IsOpen(item) then Joined(parts) else Joined(parts) + TextOfItem(item)
  {
    AppendedParts(parts, item);
    CloseKeepsText(parts);
    JoinedLast(Append(parts, item));
  }

  lemma GrowOpenText(parts: seq<Item>, item: Item)
    requires OpenOnlyLast(parts) && OpenAtEnd(parts) && IsOpen(item)
    ensures OpenOnlyLast(ReplaceLast(parts, item)) && OpenAtEnd(ReplaceLast(parts, item))
    ensures SettledText(ReplaceLast(parts, item)) == SettledText(parts) && OpenText(ReplaceLast(parts, item)) == item.markdown
  {
    assert ReplaceLast(parts, item)[..|parts| - 1] == parts[..|parts| - 1];
  }

  /** A delta grows the open text, or opens one after everything that was there. */
  lemma DeltaText(parts: seq<Item>, content: string, key: Option<string>)
    requires OpenOnlyLast(parts)
    ensures var next := AddDelta(parts, content, key);
      && OpenOnlyLast(next) && OpenAtEnd(next)
      && SettledText(next) == SettledText(parts) && OpenText(next) == OpenText(parts) + content
      && Joined(next) == Joined(parts) + content
  {
    if OpenAtEnd(parts) {
      var last := parts[|parts| - 1];
      GrowOpenText(parts, Mark(last.(markdown := last.markdown + content, streaming := true), key));
    } else {
      AppendText(parts, AssistantText(content, AssistantStream, true, key));
    }
    TextsGrow(parts, AddDelta(parts, content, key), content);
  }

  lemma TextsGrow(parts: seq<Item>, next: seq<Item>, content: string)
    requires SettledText(next) == SettledText(parts) && OpenText(next) == OpenText(parts) + content
    ensures Joined(next) == Joined(parts) + content
  {
    TextIsSettledAndOpen(parts);
    TextIsSettledAndOpen(next);
    Growing(SettledText(parts), OpenText(parts), content, Joined(parts), Joined(next));
  }

  lemma Growing(settled: string, open: string, content: string, before: string, after: string)
    requires before == settled + open && after == settled + (open + content)
    ensures after == before + content
  {
  }

  /** The final message replaces what is open, and nothing else. */
  lemma FinalText(parts: seq<Item>, content: string, key: Option<string>)
    requires OpenOnlyLast(parts)
    ensures var next := AddFinal(parts, content, key);
      OpenOnlyLast(next) && !OpenAtEnd(next) && Joined(next) == SettledText(parts) + content
  {
    if OpenAtEnd(parts) {
      var last := parts[|parts| - 1];
      ReplaceLastText(parts, Mark(last.(markdown := content, streaming := false, streamKey := AssistantMessage), key));
    } else {
      AppendText(parts, AssistantText(content, AssistantMessage, false, key));
    }
  }

  /** Replacing an item that holds no text by one that holds none. */
  lemma PatchText(parts: seq<Item>, i: nat, item: Item)
    requires i < |parts| && OpenOnlyLast(parts) && !parts[i].AssistantText? && !item.AssistantText?
    ensures OpenOnlyLast(parts[i := item]) && Joined(parts[i := item]) == Joined(parts)
  {
    SameTexts(parts[i := item], parts);
  }

  lemma FinishText(parts: seq<Item>)
    ensures Joined(Finish(parts)) == Joined(parts)
    ensures OpenOnlyLast(Finish(parts)) && !OpenAtEnd(Finish(parts))
    ensures |Finish(parts)| == |parts|
    ensures forall i :: 0 <= i < |parts| ==> Finish(parts)[i] == Closed(parts[i])
  {
    SameTexts(Finish(parts), parts);
  }

  predicate Finals(body: Body) {
    || (body.AssistantFinal? && Clean(body.content) != "")
    || (body.RunEnded? && Clean(body.response) != "" && !body.rendered)
  }

  function FinalOf(body: Body): string {
    if body.AssistantFinal? then Clean(body.content) else if body.RunEnded? then Clean(body.response) else ""
  }

  function DeltaOf(body: Body): string {
    if body.AssistantDelta? then StripAnsi(body.content) else ""
  }

  lemma NoticeKeepsText(parts: seq<Item>, level: NoticeLevel, content: string, key: Option<string>)
    requires OpenOnlyLast(parts)
    ensures OpenOnlyLast(AddNotice(parts, level, content, key))
    ensures Joined(AddNotice(parts, level, content, key)) == Joined(parts)
  {
    if Clean(content) != "" {
      AppendText(parts, Notice(level, Clean(content), key));
    }
  }

  /** Reasoning, notices and every other item leave the text as it is. */
  lemma OthersKeepText(parts: seq<Item>, body: Body, key: Option<string>)
    requires OpenOnlyLast(parts) && Touches(body) && !body.AssistantDelta? && !body.AssistantFinal? && !body.RunClosed? && !body.RunEnded?
    ensures OpenOnlyLast(PartsAfter(parts, body, key)) && Joined(PartsAfter(parts, body, key)) == Joined(parts)
  {
    match body
    case ReasoningDelta(content) =>
      var at := LastThinking(parts);
      if at.Some? {
        PatchText(parts, at.value, Mark(parts[at.value].(active := true, raw := parts[at.value].raw + StripAnsi(content)), key));
      } else {
        AppendText(parts, Thinking(StripAnsi(content), true, key));
      }
    case ReasoningFinal(raw, summary) =>
      var item := Reasoning(StripAnsi(summary), if StripAnsi(raw) != "" then StripAnsi(raw) else StripAnsi(summary), key);
      if LastThinking(parts).Some? {
        PatchText(parts, LastThinking(parts).value, item);
      } else if LastReasoning(parts).Some? {
        PatchText(parts, LastReasoning(parts).value, item);
      } else {
        AppendText(parts, item);
      }
    case NoticeText(level, content) => NoticeKeepsText(parts, level, content, key);
    case Structured(kind, id, content, awaiting, _) => AppendText(parts, Other(kind, id, content, awaiting, key));
    case UpsertById(kind, id, content) =>
      var at := FindOther(parts, kind, id);
      if at.Some? {
        PatchText(parts, at.value, Other(kind, id, content, false, key));
      } else {
        AppendText(parts, Other(kind, id, content, false, key));
      }
    case _ =>
  }

  /** The text law: a delta goes to the end, a final message replaces the open text, and any other event
      keeps every character; an open stream stays the last item throughout. */
  lemma EventText(parts: seq<Item>, body: Body, key: Option<string>)
    requires OpenOnlyLast(parts) && Touches(body)
    ensures var next := PartsAfter(parts, body, key);
      && OpenOnlyLast(next)
      && Joined(next) == (if Finals(body) then SettledText(parts) + FinalOf(body) else Joined(parts) + DeltaOf(body))
      && (body.RunClosed? || body.RunEnded? ==> !OpenAtEnd(next))
  {
    match body
    case AssistantDelta(content) => DeltaText(parts, StripAnsi(content), key);
    case AssistantFinal(content) => FinalText(parts, Clean(content), key);
    case RunClosed(level, notice, onlyOnce, _) =>
      var noted := if onlyOnce && HasNotice(parts, level) then parts else AddNotice(parts, level, notice, key);
      NoticeKeepsText(parts, level, notice, key);
      FinishText(noted);
    case RunEnded(response, rendered) =>
      var said := if Clean(response) == "" || rendered then parts else AddFinal(parts, Clean(response), key);
      FinalText(parts, Clean(response), key);
      FinishText(said);
    case _ => OthersKeepText(parts, body, key);
  }

  // ---------------------------------------------------------------------------
  // What an event does to the items
  // ---------------------------------------------------------------------------

  /** Whether `b` may be what has become of `a`: text that is closed never changes again, thinking may
      turn into reasoning, and every other item keeps its kind and identity. */
  predicate Continues(a: Item, b: Item) {
    match a
    case AssistantText(markdown, _, _, _) =>
      b.AssistantText? && (!IsOpen(a) ==> b.markdown == markdown && !IsOpen(b))
    case Thinking(raw, _, _) => (b.Thinking? && raw <= b.raw) || b.Reasoning?
    case Reasoning(_, _, _) => b.Reasoning?
    case Notice(_, _, _) => b == a
    case Other(kind, id, _, _, _) => b.Other? && b.kind == kind && b.id == id
  }

  /** No item is lost or moved. */
  ghost predicate Preserves(a: seq<Item>, b: seq<Item>) {
    |a| <= |b| && forall i :: 0 <= i < |a| ==> Continues(a[i], b[i])
  }

  lemma PreservesTrans(a: seq<Item>, b: seq<Item>, c: seq<Item>)
    requires Preserves(a, b) && Preserves(b, c)
    ensures Preserves(a, c)
  {
    forall i | 0 <= i < |a| ensures Continues(a[i], c[i]) {
      assert Continues(a[i], b[i]) && Continues(b[i], c[i]);
    }
  }

  lemma AppendPreserves(parts: seq<Item>, item: Item)
    ensures Preserves(parts, Append(parts, item))
  {
    forall i | 0 <= i < |parts| ensures Continues(parts[i], Append(parts, item)[i]) {
      assert Append(parts, item)[i] == if i < |parts| - 1 then parts[i] else Closed(parts[i]);
    }
  }

  lemma SamePreserves(parts: seq<Item>)
    ensures Preserves(parts, parts)
  {
  }

  lemma PatchPreserves(parts: seq<Item>, i: nat, item: Item)
    requires i < |parts| && Continues(parts[i], item)
    ensures Preserves(parts, parts[i := item])
  {
  }

  lemma DeltaPreserves(parts: seq<Item>, content: string, key: Option<string>)
    ensures Preserves(parts, AddDelta(parts, content, key))
  {
    if !OpenAtEnd(parts) {
      AppendPreserves(parts, AssistantText(content, AssistantStream, true, key));
    }
  }

  lemma FinalPreserves(parts: seq<Item>, content: string, key: Option<string>)
    ensures Preserves(parts, AddFinal(parts, content, key))
  {
    if !OpenAtEnd(parts) {
      AppendPreserves(parts, AssistantText(content, AssistantMessage, false, key));
    }
  }

  lemma ReasoningPreserves(parts: seq<Item>, body: Body, key: Option<string>)
    requires Touches(body) && (body.ReasoningDelta? || body.ReasoningFinal?)
    ensures Preserves(parts, PartsAfter(parts, body, key))
  {
    if body.ReasoningDelta? {
      var at := LastThinking(parts);
      var content := StripAnsi(body.content);
      if at.Some? {
        PatchPreserves(parts, at.value, Mark(parts[at.value].(active := true, raw := parts[at.value].raw + content), key));
      } else {
        AppendPreserves(parts, Thinking(content, true, key));
      }
    } else {
      var raw, summary := StripAnsi(body.raw), StripAnsi(body.summary);
      var item := Reasoning(summary, if raw != "" then raw else summary, key);
      if LastThinking(parts).Some? {
        PatchPreserves(parts, LastThinking(parts).value, item);
      } else if LastReasoning(parts).Some? {
        PatchPreserves(parts, LastReasoning(parts).value, item);
      } else {
        AppendPreserves(parts, item);
      }
    }
  }

  lemma NoticePreserves(parts: seq<Item>, level: NoticeLevel, content: string, key: Option<string>)
    ensures Preserves(parts, AddNotice(parts, level, content, key))
  {
    if Clean(content) != "" {
      AppendPreserves(parts, Notice(level, Clean(content), key));
    }
  }

  lemma UpsertPreserves(parts: seq<Item>, kind: string, id: string, body: string, key: Option<string>)
    ensures Preserves(parts, Upsert(parts, kind, id, body, key))
  {
    var at := FindOther(parts, kind, id);
    if at.Some? {
      PatchPreserves(parts, at.value, Other(kind, id, body, false, key));
    } else {
      AppendPreserves(parts, Other(kind, id, body, false, key));
    }
  }

  lemma FinishPreserves(parts: seq<Item>, last: seq<Item>)
    requires Preserves(parts, last)
    ensures Preserves(parts, Finish(last))
  {
    forall i | 0 <= i < |last| ensures Continues(last[i], Finish(last)[i]) {
      assert Finish(last)[i] == Closed(last[i]);
    }
    PreservesTrans(parts, last, Finish(last));
  }

  /** Whatever the event, every item stays where it is, and what has been said stays said. */
  lemma EventPreserves(parts: seq<Item>, body: Body, key: Option<string>)
    requires Touches(body)
    ensures Preserves(parts, PartsAfter(parts, body, key))
  {
    match body
    case AssistantDelta(content) => DeltaPreserves(parts, StripAnsi(content), key);
    case AssistantFinal(content) => FinalPreserves(parts, Clean(content), key);
    case ReasoningDelta(_) => ReasoningPreserves(parts, body, key);
    case ReasoningFinal(_, _) => ReasoningPreserves(parts, body, key);
    case NoticeText(level, content) => NoticePreserves(parts, level, content, key);
    case Structured(kind, id, content, awaiting, _) => AppendPreserves(parts, Other(kind, id, content, awaiting, key));
    case UpsertById(kind, id, content) => UpsertPreserves(parts, kind, id, content, key);
    case RunClosed(level, notice, onlyOnce, _) =>
      SamePreserves(parts);
      NoticePreserves(parts, level, notice, key);
      FinishPreserves(parts, if onlyOnce && HasNotice(parts, level) then parts else AddNotice(parts, level, notice, key));
    case RunEnded(response, rendered) =>
      SamePreserves(parts);
      FinalPreserves(parts, Clean(response), key);
      FinishPreserves(parts, if Clean(response) == "" || rendered then parts else AddFinal(parts, Clean(response), key));
  }
}
