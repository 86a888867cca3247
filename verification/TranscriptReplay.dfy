// Replayed deltas: when the transcript recognises a delta it has seen, and when it repeats its text.

module TranscriptReplay {
  import opened Wrappers
  import opened TranscriptItems
  import opened TranscriptStream

  // ---------------------------------------------------------------------------
  // What keeps a key and what takes it away
  // ---------------------------------------------------------------------------

  /** The event writes keyed text into the stream that is open, which then carries its key. */
  predicate MergesKeyedText(e: Event) {
    e.eventKey.Some? && ((e.body.AssistantDelta? && StripAnsi(e.body.content) != "") || Finals(e.body))
  }

  /** Some event writes keyed text into the stream open now, before that stream is closed. */
  predicate Overwritten(turns: seq<Turn>, events: seq<Event>)
    decreases |events|
  {
    && events != [] && OpenAtEnd(CurrentParts(turns))
    && (MergesKeyedText(events[0]) || Overwritten(Step(turns, events[0]), events[1..]))
  }

  /** The item keeps its key and, once closed, stays closed. */
  predicate KeepsKey(a: Item, b: Item) {
    b.AssistantText? && b.eventKey == a.eventKey && (!IsOpen(a) ==> !IsOpen(b))
  }

  lemma AppendKeepsKey(parts: seq<Item>, item: Item, j: nat)
    requires j < |parts| && parts[j].AssistantText?
    ensures j < |Append(parts, item)| && KeepsKey(parts[j], Append(parts, item)[j])
  {
  }

  lemma NoticeKeepsKey(parts: seq<Item>, level: NoticeLevel, content: string, key: Option<string>, j: nat)
    requires j < |parts| && parts[j].AssistantText?
    ensures j < |AddNotice(parts, level, content, key)| && KeepsKey(parts[j], AddNotice(parts, level, content, key)[j])
  {
    if Clean(content) != "" {
      AppendKeepsKey(parts, Notice(level, Clean(content), key), j);
    }
  }

  lemma StreamKeepsKey(parts: seq<Item>, content: string, key: Option<string>, j: nat)
    requires j < |parts| && parts[j].AssistantText? && OpenOnlyLast(parts) && (!IsOpen(parts[j]) || key == None)
    ensures j < |AddDelta(parts, content, key)| && KeepsKey(parts[j], AddDelta(parts, content, key)[j])
    ensures j < |AddFinal(parts, content, key)| && KeepsKey(parts[j], AddFinal(parts, content, key)[j])
  {
    if !OpenAtEnd(parts) {
      AppendKeepsKey(parts, AssistantText(content, AssistantStream, true, key), j);
      AppendKeepsKey(parts, AssistantText(content, AssistantMessage, false, key), j);
    }
  }

  lemma FinishKeepsKey(item: Item, parts: seq<Item>, j: nat)
    requires j < |parts| && KeepsKey(item, parts[j])
    ensures j < |Finish(parts)| && KeepsKey(item, Finish(parts)[j])
  {
    FinishText(parts);
  }

  /** A text item keeps its key unless keyed text is merged into it while it is open; closed, it stays closed. */
  lemma TextItemKeepsKey(parts: seq<Item>, j: nat, e: Event)
    requires Touches(e.body) && OpenOnlyLast(parts) && j < |parts| && parts[j].AssistantText?
    requires !IsOpen(parts[j]) || !MergesKeyedText(e)
    ensures var next := PartsAfter(parts, e.body, e.eventKey);
      j < |next| && KeepsKey(parts[j], next[j])
  {
    var key := e.eventKey;
    match e.body
    case AssistantDelta(content) => StreamKeepsKey(parts, StripAnsi(content), key, j);
    case AssistantFinal(content) => StreamKeepsKey(parts, Clean(content), key, j);
    case ReasoningDelta(content) => AppendKeepsKey(parts, Thinking(StripAnsi(content), true, key), j);
    case ReasoningFinal(raw, summary) =>
      AppendKeepsKey(parts, Reasoning(StripAnsi(summary), if StripAnsi(raw) != "" then StripAnsi(raw) else StripAnsi(summary), key), j);
    case NoticeText(level, content) => NoticeKeepsKey(parts, level, content, key, j);
    case Structured(kind, id, content, awaiting, _) => AppendKeepsKey(parts, Other(kind, id, content, awaiting, key), j);
    case UpsertById(kind, id, content) => AppendKeepsKey(parts, Other(kind, id, content, false, key), j);
    case RunClosed(level, notice, onlyOnce, _) =>
      NoticeKeepsKey(parts, level, notice, key, j);
      FinishKeepsKey(parts[j], if onlyOnce && HasNotice(parts, level) then parts else AddNotice(parts, level, notice, key), j);
    case RunEnded(response, rendered) =>
      if Clean(response) == "" || rendered {
        FinishKeepsKey(parts[j], parts, j);
      } else {
        StreamKeepsKey(parts, Clean(response), key, j);
        FinishKeepsKey(parts[j], AddFinal(parts, Clean(response), key), j);
      }
  }

  /** While a stream stays open the items stay the same in number. */
  lemma OpenStaysLast(parts: seq<Item>, body: Body, key: Option<string>)
    requires Touches(body) && OpenOnlyLast(parts) && OpenAtEnd(parts) && OpenAtEnd(PartsAfter(parts, body, key))
    ensures |PartsAfter(parts, body, key)| == |parts|
  {
    if body.RunClosed? || body.RunEnded? {
      EventText(parts, body, key);
    }
  }

  /** The key is on no item but possibly the `j`-th. */
  ghost predicate PartsOnlyAt(parts: seq<Item>, j: int, key: string) {
    forall x :: 0 <= x < |parts| && parts[x].eventKey == Some(key) ==> x == j
  }

  lemma AppendOnlyAt(parts: seq<Item>, item: Item, j: int, key: string)
    requires PartsOnlyAt(parts, j, key) && item.eventKey != Some(key)
    ensures PartsOnlyAt(Append(parts, item), j, key)
  {
  }

  lemma FinishOnlyAt(parts: seq<Item>, j: int, key: string)
    requires PartsOnlyAt(parts, j, key)
    ensures PartsOnlyAt(Finish(parts), j, key)
  {
    FinishText(parts);
  }

  lemma NoticeOnlyAt(parts: seq<Item>, level: NoticeLevel, content: string, own: Option<string>, j: int, key: string)
    requires PartsOnlyAt(parts, j, key) && own != Some(key)
    ensures PartsOnlyAt(AddNotice(parts, level, content, own), j, key)
  {
    if Clean(content) != "" {
      AppendOnlyAt(parts, Notice(level, Clean(content), own), j, key);
    }
  }

  lemma StreamOnlyAt(parts: seq<Item>, content: string, own: Option<string>, j: int, key: string)
    requires PartsOnlyAt(parts, j, key) && own != Some(key)
    ensures PartsOnlyAt(AddDelta(parts, content, own), j, key) && PartsOnlyAt(AddFinal(parts, content, own), j, key)
  {
    if !OpenAtEnd(parts) {
      AppendOnlyAt(parts, AssistantText(content, AssistantStream, true, own), j, key);
      AppendOnlyAt(parts, AssistantText(content, AssistantMessage, false, own), j, key);
    }
  }

  /** An event with another key puts this one nowhere. */
  lemma EventSpreadsNoOtherKey(parts: seq<Item>, e: Event, j: int, key: string)
    requires Touches(e.body) && PartsOnlyAt(parts, j, key) && e.eventKey != Some(key)
    ensures PartsOnlyAt(PartsAfter(parts, e.body, e.eventKey), j, key)
  {
    var own := e.eventKey;
    match e.body
    case AssistantDelta(content) => StreamOnlyAt(parts, StripAnsi(content), own, j, key);
    case AssistantFinal(content) => StreamOnlyAt(parts, Clean(content), own, j, key);
    case ReasoningDelta(content) => AppendOnlyAt(parts, Thinking(StripAnsi(content), true, own), j, key);
    case ReasoningFinal(raw, summary) =>
      AppendOnlyAt(parts, Reasoning(StripAnsi(summary), if StripAnsi(raw) != "" then StripAnsi(raw) else StripAnsi(summary), own), j, key);
    case NoticeText(level, content) => NoticeOnlyAt(parts, level, content, own, j, key);
    case Structured(kind, id, content, awaiting, _) => AppendOnlyAt(parts, Other(kind, id, content, awaiting, own), j, key);
    case UpsertById(kind, id, content) => AppendOnlyAt(parts, Other(kind, id, content, false, own), j, key);
    case RunClosed(level, notice, onlyOnce, _) =>
      NoticeOnlyAt(parts, level, notice, own, j, key);
      FinishOnlyAt(if onlyOnce && HasNotice(parts, level) then parts else AddNotice(parts, level, notice, own), j, key);
    case RunEnded(response, rendered) =>
      StreamOnlyAt(parts, Clean(response), own, j, key);
      FinishOnlyAt(if Clean(response) == "" || rendered then parts else AddFinal(parts, Clean(response), own), j, key);
  }

  /** Keyed text merged into the open stream takes the key off it. */
  lemma MergingTakesKey(parts: seq<Item>, e: Event, key: string)
    requires Touches(e.body) && OpenAtEnd(parts) && PartsOnlyAt(parts, |parts| - 1, key)
    requires MergesKeyedText(e) && e.eventKey != Some(key)
    ensures PartsOnlyAt(PartsAfter(parts, e.body, e.eventKey), -1, key)
  {
    if e.body.RunEnded? {
      FinishText(AddFinal(parts, Clean(e.body.response), e.eventKey));
    }
  }

  /** A delta leaves its key on the stream it opens or grows, and only there. */
  lemma DeltaTakesKey(parts: seq<Item>, content: string, key: string)
    requires PartsOnlyAt(parts, -1, key)
    ensures var next := AddDelta(parts, content, Some(key));
      OpenAtEnd(next) && next[|next| - 1].eventKey == Some(key) && PartsOnlyAt(next, |next| - 1, key)
  {
  }

  // ---------------------------------------------------------------------------
  // The same for whole transcripts
  // ---------------------------------------------------------------------------

  function PartsOf(turn: Turn): seq<Item> {
    if turn.messages == [] then [] else turn.messages[0].parts
  }

  /** The `j`-th item of the `i`-th turn is a text item with this key. */
  predicate KeyAt(turns: seq<Turn>, i: nat, j: nat, key: string) {
    && i < |turns| && j < |PartsOf(turns[i])|
    && PartsOf(turns[i])[j].AssistantText? && PartsOf(turns[i])[j].eventKey == Some(key)
  }

  /** No event writes into the item any more: its turn is over, or it is closed. */
  predicate Shielded(turns: seq<Turn>, i: nat, j: nat)
    requires i < |turns| && j < |PartsOf(turns[i])|
  {
    i < |turns| - 1 || !IsOpen(PartsOf(turns[i])[j])
  }

  ghost predicate TurnOnlyAt(turn: Turn, j: int, key: string) {
    turn.user.eventKey != Some(key) && PartsOnlyAt(PartsOf(turn), j, key)
  }

  /** The item of the `x`-th turn that is meant by the `j`-th of the `i`-th, or none. */
  function Spot(x: int, i: int, j: int): int {
    if x == i then j else -1
  }

  /** The key is nowhere but possibly on the `j`-th item of the `i`-th turn. */
  ghost predicate OnlyAt(turns: seq<Turn>, i: int, j: int, key: string) {
    forall x :: 0 <= x < |turns| ==> TurnOnlyAt(turns[x], Spot(x, i, j), key)
  }

  lemma KeyAtIsKnown(turns: seq<Turn>, i: nat, j: nat, key: string)
    requires KeyAt(turns, i, j, key)
    ensures KnowsKey(turns, key)
  {
    assert turns[i].messages[0].parts[j].eventKey == Some(key);
    assert HasKey(turns[i], key);
  }

  lemma NowhereIsUnknown(turns: seq<Turn>, key: string)
    requires Good(turns)
    ensures OnlyAt(turns, -1, -1, key) <==> !KnowsKey(turns, key)
  {
    forall x | 0 <= x < |turns| ensures TurnOnlyAt(turns[x], -1, key) <==> !HasKey(turns[x], key) {
      NotInTurn(turns[x], key);
    }
  }

  lemma NotInTurn(turn: Turn, key: string)
    requires GoodTurn(turn)
    ensures TurnOnlyAt(turn, -1, key) <==> !HasKey(turn, key)
  {
    if !TurnOnlyAt(turn, -1, key) && turn.user.eventKey != Some(key) {
      var x :| 0 <= x < |PartsOf(turn)| && PartsOf(turn)[x].eventKey == Some(key);
      assert turn.messages[0].parts[x].eventKey == Some(key);
    }
  }

  /** The turn a message is merged into keeps its messages. */
  lemma {:induction false} MergeKeepsParts(turns: seq<Turn>, prompt: string, e: Event, from: nat, x: nat)
    requires from <= |turns| && x < |turns|
    ensures var next := MergedFrom(turns, prompt, e, from);
      && |turns| <= |next| && next[x].messages == turns[x].messages
      && (next[x].user.eventKey == turns[x].user.eventKey || next[x].user.eventKey == e.eventKey)
    decreases |turns| - from
  {
    if from < |turns| && MergingOf(turns[from], prompt, e).NotThere? {
      MergeKeepsParts(turns, prompt, e, from + 1, x);
    }
  }

  lemma {:induction false} MergeAddsAtMostOne(turns: seq<Turn>, prompt: string, e: Event, from: nat)
    requires from <= |turns|
    ensures var next := MergedFrom(turns, prompt, e, from);
      |next| == |turns| || next == turns + [Turn(User(prompt, e.eventKey, Truthy(e.sessionItemId)), [])]
    decreases |turns| - from
  {
    if from < |turns| && MergingOf(turns[from], prompt, e).NotThere? {
      MergeAddsAtMostOne(turns, prompt, e, from + 1);
    }
  }

  lemma SettledParts(turn: Turn, key: Option<string>)
    ensures |PartsOf(SettledTurn(turn, key))| == |PartsOf(turn)| && SettledTurn(turn, key).user == turn.user
    ensures forall j :: 0 <= j < |PartsOf(turn)| ==> PartsOf(SettledTurn(turn, key))[j] == SettledItem(PartsOf(turn)[j], key)
  {
  }

  /** What a touching event does to the turns, one by one. */
  lemma TouchedParts(turns: seq<Turn>, parts: seq<Item>)
    ensures var next := WithParts(turns, parts);
      && |next| == (if turns == [] then 1 else |turns|)
      && PartsOf(next[|next| - 1]) == parts
      && (forall x :: 0 <= x < |next| - 1 ==> next[x] == turns[x])
      && next[|next| - 1].user == (if turns == [] then User("", None, None) else turns[|turns| - 1].user)
    ensures CurrentParts(turns) == if turns == [] then [] else PartsOf(turns[|turns| - 1])
  {
  }

  lemma SettleKeepsKeyAt(turns: seq<Turn>, key: Option<string>, i: nat, j: nat, k: string)
    requires KeyAt(turns, i, j, k)
    ensures KeyAt(SettleAll(turns, key), i, j, k)
    ensures Shielded(SettleAll(turns, key), i, j) == Shielded(turns, i, j)
  {
    SettledParts(turns[i], key);
  }

  lemma TouchKeepsKeyAt(turns: seq<Turn>, e: Event, i: nat, j: nat, k: string)
    requires Good(turns) && Touches(e.body) && KeyAt(turns, i, j, k)
    requires Shielded(turns, i, j) || !MergesKeyedText(e)
    ensures var next := WithParts(turns, PartsAfter(CurrentParts(turns), e.body, e.eventKey));
      KeyAt(next, i, j, k) && (Shielded(turns, i, j) ==> Shielded(next, i, j))
  {
    var parts := CurrentParts(turns);
    TouchedParts(turns, PartsAfter(parts, e.body, e.eventKey));
    if i == |turns| - 1 {
      assert GoodTurn(turns[i]);
      TextItemKeepsKey(parts, j, e);
    }
  }

  lemma StepKeepsKeyAt(turns: seq<Turn>, e: Event, i: nat, j: nat, k: string)
    requires Good(turns) && KeyAt(turns, i, j, k) && (Shielded(turns, i, j) || !MergesKeyedText(e))
    ensures KeyAt(Step(turns, e), i, j, k)
    ensures Shielded(turns, i, j) ==> Shielded(Step(turns, e), i, j)
  {
    if Duplicate(turns, e) {
    } else if e.body.UserMessage? {
      MergeKeepsParts(turns, e.body.prompt, e, 0, i);
    } else if Touches(e.body) {
      var before := if e.body.RunClosed? && e.body.settles then SettleAll(turns, e.eventKey) else turns;
      SettleKeepsKeyAt(turns, e.eventKey, i, j, k);
      SettleKeepsText(turns, e.eventKey);
      TouchKeepsKeyAt(before, e, i, j, k);
      SettleKeepsKeyAt(WithParts(before, PartsAfter(CurrentParts(before), e.body, e.eventKey)), e.eventKey, i, j, k);
    }
  }

  /** Once shielded, the key stays whatever follows. */
  lemma {:induction false} ShieldedForGood(turns: seq<Turn>, events: seq<Event>, i: nat, j: nat, k: string)
    requires Good(turns) && KeyAt(turns, i, j, k) && Shielded(turns, i, j)
    ensures KeyAt(Fold(turns, events), i, j, k)
    decreases |events|
  {
    if events != [] {
      StepText(turns, events[0]);
      StepKeepsKeyAt(turns, events[0], i, j, k);
      ShieldedForGood(Step(turns, events[0]), events[1..], i, j, k);
    }
  }

  lemma SettleOnlyAt(turns: seq<Turn>, key: Option<string>, i: int, j: int, k: string)
    requires OnlyAt(turns, i, j, k) && key != Some(k)
    ensures OnlyAt(SettleAll(turns, key), i, j, k)
  {
    forall x | 0 <= x < |turns| ensures TurnOnlyAt(SettledTurn(turns[x], key), Spot(x, i, j), k) {
      assert TurnOnlyAt(turns[x], Spot(x, i, j), k);
      SettledParts(turns[x], key);
    }
  }

  function LastOf(turns: seq<Turn>): nat {
    if turns == [] then 0 else |turns| - 1
  }

  /** Where a key may be after the current items are exchanged. */
  lemma WithPartsOnlyAt(turns: seq<Turn>, parts: seq<Item>, i: int, j: int, i2: int, j2: int, k: string)
    requires OnlyAt(turns, i, j, k)
    requires forall x :: 0 <= x < |turns| - 1 ==> Spot(x, i, j) == Spot(x, i2, j2)
    requires PartsOnlyAt(parts, Spot(LastOf(turns), i2, j2), k)
    ensures OnlyAt(WithParts(turns, parts), i2, j2, k)
  {
    var next := WithParts(turns, parts);
    TouchedParts(turns, parts);
    forall x | 0 <= x < |next| ensures TurnOnlyAt(next[x], Spot(x, i2, j2), k) {
      if x < |turns| {
        assert TurnOnlyAt(turns[x], Spot(x, i, j), k);
      }
    }
  }

  lemma CurrentOnlyAt(turns: seq<Turn>, i: int, j: int, k: string)
    requires OnlyAt(turns, i, j, k) && i < |turns|
    ensures PartsOnlyAt(CurrentParts(turns), Spot(LastOf(turns), i, j), k)
  {
    TouchedParts(turns, []);
    if turns != [] {
      assert TurnOnlyAt(turns[|turns| - 1], Spot(|turns| - 1, i, j), k);
    }
  }

  lemma MergeOnlyAt(turns: seq<Turn>, prompt: string, e: Event, i: int, j: int, k: string)
    requires OnlyAt(turns, i, j, k) && i < |turns| && e.eventKey != Some(k)
    ensures OnlyAt(MergedFrom(turns, prompt, e, 0), i, j, k)
  {
    var next := MergedFrom(turns, prompt, e, 0);
    MergeAddsAtMostOne(turns, prompt, e, 0);
    forall x | 0 <= x < |next| ensures TurnOnlyAt(next[x], Spot(x, i, j), k) {
      if x < |turns| {
        assert TurnOnlyAt(turns[x], Spot(x, i, j), k);
        MergeKeepsParts(turns, prompt, e, 0, x);
      }
    }
  }

  /** An event with another key puts this one nowhere new. */
  lemma StepOnlyAt(turns: seq<Turn>, e: Event, i: int, j: int, k: string)
    requires OnlyAt(turns, i, j, k) && i < |turns| && e.eventKey != Some(k)
    ensures OnlyAt(Step(turns, e), i, j, k)
  {
    if Duplicate(turns, e) {
    } else if e.body.UserMessage? {
      MergeOnlyAt(turns, e.body.prompt, e, i, j, k);
    } else if Touches(e.body) {
      var before := if e.body.RunClosed? && e.body.settles then SettleAll(turns, e.eventKey) else turns;
      SettleOnlyAt(turns, e.eventKey, i, j, k);
      TouchOnlyAt(before, e, i, j, k);
      SettleOnlyAt(WithParts(before, PartsAfter(CurrentParts(before), e.body, e.eventKey)), e.eventKey, i, j, k);
    }
  }

  lemma TouchOnlyAt(turns: seq<Turn>, e: Event, i: int, j: int, k: string)
    requires OnlyAt(turns, i, j, k) && i < |turns| && e.eventKey != Some(k) && Touches(e.body)
    ensures OnlyAt(WithParts(turns, PartsAfter(CurrentParts(turns), e.body, e.eventKey)), i, j, k)
  {
    CurrentOnlyAt(turns, i, j, k);
    EventSpreadsNoOtherKey(CurrentParts(turns), e, Spot(LastOf(turns), i, j), k);
    WithPartsOnlyAt(turns, PartsAfter(CurrentParts(turns), e.body, e.eventKey), i, j, i, j, k);
  }

  lemma {:induction false} FreshNeverSpread(turns: seq<Turn>, events: seq<Event>, keys: set<string>, k: string)
    requires Good(turns) && OnlyAt(turns, -1, -1, k) && k in keys && Fresh(events, keys)
    ensures OnlyAt(Fold(turns, events), -1, -1, k) && Good(Fold(turns, events))
    decreases |events|
  {
    if events != [] {
      FreshIsOther(events, keys, k);
      StepText(turns, events[0]);
      StepOnlyAt(turns, events[0], -1, -1, k);
      FreshNeverSpread(Step(turns, events[0]), events[1..], keys + KeyOf(events[0]), k);
    }
  }

  lemma FreshIsOther(events: seq<Event>, keys: set<string>, k: string)
    requires events != [] && Fresh(events, keys) && k in keys
    ensures events[0].eventKey != Some(k)
  {
    OwnKey(events[0]);
  }

  lemma OwnKey(e: Event)
    ensures forall k :: e.eventKey == Some(k) ==> k in KeyOf(e)
  {
  }

  // ---------------------------------------------------------------------------
  // When a replay is recognised
  // ---------------------------------------------------------------------------

  /** The open stream of the last turn carries the key, and nothing else does. */
  ghost predicate StreamHasKey(turns: seq<Turn>, key: string) {
    && turns != [] && OpenAtEnd(PartsOf(turns[|turns| - 1]))
    && KeyAt(turns, |turns| - 1, |PartsOf(turns[|turns| - 1])| - 1, key)
    && OnlyAt(turns, |turns| - 1, |PartsOf(turns[|turns| - 1])| - 1, key)
  }

  lemma AcceptedDeltaHasKey(turns: seq<Turn>, e: Event, key: string)
    requires Good(turns) && e.body.AssistantDelta? && StripAnsi(e.body.content) != ""
    requires e.eventKey == Some(key) && !KnowsKey(turns, key)
    ensures StreamHasKey(Step(turns, e), key)
  {
    NowhereIsUnknown(turns, key);
    DeltaHasKey(turns, CurrentParts(turns), StripAnsi(e.body.content), key);
  }

  lemma DeltaHasKey(turns: seq<Turn>, parts: seq<Item>, content: string, key: string)
    requires OnlyAt(turns, -1, -1, key) && parts == CurrentParts(turns)
    ensures StreamHasKey(WithParts(turns, AddDelta(parts, content, Some(key))), key)
  {
    CurrentOnlyAt(turns, -1, -1, key);
    DeltaTakesKey(parts, content, key);
    PutHasKey(turns, AddDelta(parts, content, Some(key)), key);
  }

  lemma PutHasKey(turns: seq<Turn>, after: seq<Item>, key: string)
    requires OnlyAt(turns, -1, -1, key) && OpenAtEnd(after)
    requires after[|after| - 1].eventKey == Some(key) && PartsOnlyAt(after, |after| - 1, key)
    ensures StreamHasKey(WithParts(turns, after), key)
  {
    TouchedParts(turns, after);
    WithPartsOnlyAt(turns, after, -1, -1, LastOf(turns), |after| - 1, key);
  }

  /** Keyed text merged into the stream: the key is gone. */
  lemma MergingForgets(turns: seq<Turn>, e: Event, key: string)
    requires Good(turns) && StreamHasKey(turns, key)
    requires MergesKeyedText(e) && e.eventKey != Some(key) && !Duplicate(turns, e)
    ensures OnlyAt(Step(turns, e), -1, -1, key)
  {
    CurrentIsPartsOf(turns);
    MergedForgets(turns, e, CurrentParts(turns), key);
    SettleOnlyAt(WithParts(turns, PartsAfter(CurrentParts(turns), e.body, e.eventKey)), e.eventKey, -1, -1, key);
  }

  lemma MergedForgets(turns: seq<Turn>, e: Event, parts: seq<Item>, key: string)
    requires turns != [] && parts == CurrentParts(turns) && OpenAtEnd(parts) && OnlyAt(turns, |turns| - 1, |parts| - 1, key)
    requires MergesKeyedText(e) && e.eventKey != Some(key) && Touches(e.body)
    ensures OnlyAt(WithParts(turns, PartsAfter(parts, e.body, e.eventKey)), -1, -1, key)
  {
    CurrentOnlyAt(turns, |turns| - 1, |parts| - 1, key);
    MergingTakesKey(parts, e, key);
    WithPartsOnlyAt(turns, PartsAfter(parts, e.body, e.eventKey), |turns| - 1, |parts| - 1, -1, -1, key);
  }

  lemma CurrentIsPartsOf(turns: seq<Turn>)
    requires turns != []
    ensures CurrentParts(turns) == PartsOf(turns[|turns| - 1])
  {
    TouchedParts(turns, []);
  }

  /** Whether the stream at the end of `next` is the one at the end of `turns`, if there is one. */
  predicate InPlace(turns: seq<Turn>, next: seq<Turn>)
    requires turns != []
  {
    && |turns| <= |next|
    && (OpenAtEnd(PartsOf(next[|next| - 1])) ==>
          |next| == |turns| && |PartsOf(next[|next| - 1])| == |PartsOf(turns[|turns| - 1])|)
  }

  lemma SettleIsInPlace(turns: seq<Turn>, key: Option<string>)
    requires turns != []
    ensures var next := SettleAll(turns, key);
      && |next| == |turns| && |PartsOf(next[|next| - 1])| == |PartsOf(turns[|turns| - 1])|
      && OpenAtEnd(PartsOf(next[|next| - 1])) == OpenAtEnd(PartsOf(turns[|turns| - 1]))
  {
    SettledParts(turns[|turns| - 1], key);
  }

  lemma PutIsInPlace(turns: seq<Turn>, e: Event, parts: seq<Item>)
    requires Good(turns) && turns != [] && parts == PartsOf(turns[|turns| - 1]) && OpenAtEnd(parts) && Touches(e.body)
    ensures InPlace(turns, WithParts(turns, PartsAfter(parts, e.body, e.eventKey)))
    ensures |WithParts(turns, PartsAfter(parts, e.body, e.eventKey))| == |turns|
  {
    var after := PartsAfter(parts, e.body, e.eventKey);
    TouchedParts(turns, after);
    assert GoodTurn(turns[|turns| - 1]);
    if OpenAtEnd(after) {
      OpenStaysLast(parts, e.body, e.eventKey);
    }
  }

  lemma TouchIsInPlace(turns: seq<Turn>, e: Event, before: seq<Turn>, put: seq<Turn>)
    requires Good(turns) && turns != [] && OpenAtEnd(PartsOf(turns[|turns| - 1])) && Touches(e.body)
    requires before == if e.body.RunClosed? && e.body.settles then SettleAll(turns, e.eventKey) else turns
    requires put == WithParts(before, PartsAfter(CurrentParts(before), e.body, e.eventKey))
    ensures InPlace(turns, if e.body.RunEnded? then SettleAll(put, e.eventKey) else put)
  {
    SettleIsInPlace(turns, e.eventKey);
    SettleKeepsText(turns, e.eventKey);
    CurrentIsPartsOf(before);
    PutIsInPlace(before, e, CurrentParts(before));
    SettleIsInPlace(put, e.eventKey);
  }

  /** After one more event an open stream at the end is still the same one. */
  lemma StepIsInPlace(turns: seq<Turn>, e: Event)
    requires Good(turns) && turns != [] && OpenAtEnd(PartsOf(turns[|turns| - 1]))
    ensures InPlace(turns, Step(turns, e))
  {
    if Duplicate(turns, e) {
    } else if e.body.UserMessage? {
      MergeAddsAtMostOne(turns, e.body.prompt, e, 0);
      MergeKeepsParts(turns, e.body.prompt, e, 0, |turns| - 1);
    } else if Touches(e.body) {
      var before := if e.body.RunClosed? && e.body.settles then SettleAll(turns, e.eventKey) else turns;
      TouchIsInPlace(turns, e, before, WithParts(before, PartsAfter(CurrentParts(before), e.body, e.eventKey)));
    }
  }

  lemma ForgottenForGood(turns: seq<Turn>, e: Event, rest: seq<Event>, keys: set<string>, key: string)
    requires Good(turns) && StreamHasKey(turns, key) && key in keys && Fresh(rest, keys)
    requires MergesKeyedText(e) && e.eventKey != Some(key) && !Duplicate(turns, e)
    ensures !KnowsKey(Fold(Step(turns, e), rest), key)
  {
    StepText(turns, e);
    MergingForgets(turns, e, key);
    FreshNeverSpread(Step(turns, e), rest, keys, key);
    NowhereIsUnknown(Fold(Step(turns, e), rest), key);
  }

  lemma KeptForGood(turns: seq<Turn>, rest: seq<Event>, i: nat, j: nat, key: string)
    requires Good(turns) && KeyAt(turns, i, j, key) && !OpenAtEnd(CurrentParts(turns))
    ensures KnowsKey(Fold(turns, rest), key)
  {
    ClosedIsShielded(turns, i, j);
    ShieldedForGood(turns, rest, i, j, key);
    KeyAtIsKnown(Fold(turns, rest), i, j, key);
  }

  /** Any other event leaves the key where it is: on the open stream, or on one that is closed now. */
  lemma StreamKeepsItsKey(turns: seq<Turn>, e: Event, next: seq<Turn>, key: string)
    requires Good(turns) && StreamHasKey(turns, key) && next == Step(turns, e)
    requires !MergesKeyedText(e) && e.eventKey != Some(key)
    ensures Good(next) && next != []
    ensures KeyAt(next, |turns| - 1, |PartsOf(turns[|turns| - 1])| - 1, key)
    ensures OpenAtEnd(CurrentParts(next)) ==> StreamHasKey(next, key)
  {
    var i, j := |turns| - 1, |PartsOf(turns[|turns| - 1])| - 1;
    StreamStepsOn(turns, e, i, j, key);
    CurrentIsPartsOf(next);
    if OpenAtEnd(CurrentParts(next)) {
      StreamInPlaceHasKey(turns, next, key);
    }
  }

  lemma StreamStepsOn(turns: seq<Turn>, e: Event, i: nat, j: nat, key: string)
    requires Good(turns) && turns != [] && OpenAtEnd(PartsOf(turns[|turns| - 1]))
    requires i == |turns| - 1 && KeyAt(turns, i, j, key) && OnlyAt(turns, i, j, key)
    requires !MergesKeyedText(e) && e.eventKey != Some(key)
    ensures Good(Step(turns, e)) && InPlace(turns, Step(turns, e))
    ensures KeyAt(Step(turns, e), i, j, key) && OnlyAt(Step(turns, e), i, j, key)
  {
    StepText(turns, e);
    StepKeepsKeyAt(turns, e, i, j, key);
    StepOnlyAt(turns, e, i, j, key);
    StepIsInPlace(turns, e);
  }

  lemma StreamInPlaceHasKey(turns: seq<Turn>, next: seq<Turn>, key: string)
    requires turns != [] && InPlace(turns, next) && OpenAtEnd(PartsOf(next[|next| - 1]))
    requires PartsOf(turns[|turns| - 1]) != []
    requires KeyAt(next, |turns| - 1, |PartsOf(turns[|turns| - 1])| - 1, key)
    requires OnlyAt(next, |turns| - 1, |PartsOf(turns[|turns| - 1])| - 1, key)
    ensures StreamHasKey(next, key)
  {
  }

  lemma {:induction false} KnownUnlessOverwritten(turns: seq<Turn>, events: seq<Event>, keys: set<string>, key: string)
    requires Good(turns) && StreamHasKey(turns, key)
    requires AllKeysWithin(turns, keys) && key in keys && Fresh(events, keys)
    ensures KnowsKey(Fold(turns, events), key) <==> !Overwritten(turns, events)
    decreases |events|
  {
    var i, j := |turns| - 1, |PartsOf(turns[|turns| - 1])| - 1;
    CurrentIsPartsOf(turns);
    if events == [] {
      KeyAtIsKnown(turns, i, j, key);
    } else {
      var e, rest, more := events[0], events[1..], keys + KeyOf(events[0]);
      FreshIsOther(events, keys, key);
      FirstIsAccepted(turns, events, keys);
      if MergesKeyedText(e) {
        ForgottenForGood(turns, e, rest, more, key);
      } else {
        var next := Step(turns, e);
        StreamKeepsItsKey(turns, e, next, key);
        if OpenAtEnd(CurrentParts(next)) {
          GrowKeys(turns, keys, more);
          StepKeys(turns, e, more);
          KnownUnlessOverwritten(next, rest, more, key);
        } else {
          KeptForGood(next, rest, i, j, key);
        }
      }
    }
  }

  lemma ClosedIsShielded(turns: seq<Turn>, i: nat, j: nat)
    requires Good(turns) && i < |turns| && j < |PartsOf(turns[i])| && !OpenAtEnd(CurrentParts(turns))
    ensures Shielded(turns, i, j)
  {
    TouchedParts(turns, []);
    assert GoodTurn(turns[i]);
  }

  lemma FirstIsAccepted(turns: seq<Turn>, events: seq<Event>, keys: set<string>)
    requires AllKeysWithin(turns, keys) && events != [] && Fresh(events, keys)
    ensures !Duplicate(turns, events[0])
  {
    if events[0].eventKey.Some? {
      OwnKey(events[0]);
      UnknownKey(turns, keys, events[0].eventKey.value);
    }
  }

  /** A delta that was accepted and is replayed after any further fresh events is recognised, and
      dropped, exactly when none of them wrote keyed text into its stream while that was open; when one
      did, the replay repeats the text. */
  lemma ReplayIsDroppedIff(turns: seq<Turn>, e: Event, more: seq<Event>, keys: set<string>)
    requires Good(turns) && AllKeysWithin(turns, keys) && Fresh([e] + more, keys)
    requires e.body.AssistantDelta? && StripAnsi(e.body.content) != "" && e.eventKey.Some?
    ensures var after := Fold(Step(turns, e), more);
      && (Step(after, e) == after <==> !Overwritten(Step(turns, e), more))
      && (Overwritten(Step(turns, e), more) ==> AllText(Step(after, e)) == AllText(after) + StripAnsi(e.body.content))
  {
    var key, next, known := e.eventKey.value, Step(turns, e), keys + KeyOf(e);
    assert ([e] + more)[0] == e && ([e] + more)[1..] == more;
    FirstIsAccepted(turns, [e] + more, keys);
    AcceptedDeltaHasKey(turns, e, key);
    StepText(turns, e);
    GrowKeys(turns, keys, known);
    StepKeys(turns, e, known);
    assert key in known;
    KnownUnlessOverwritten(next, more, known, key);
    RunKeepsGood(next, more);
    StepText(Fold(next, more), e);
  }

  // ---------------------------------------------------------------------------
  // Two cases of it
  // ---------------------------------------------------------------------------

  lemma KeyIsKept(turns: seq<Turn>, body: Body, key: string)
    requires body.AssistantDelta? && Touches(body)
    ensures KnowsKey(WithParts(turns, PartsAfter(CurrentParts(turns), body, Some(key))), key)
  {
    var next := WithParts(turns, PartsAfter(CurrentParts(turns), body, Some(key)));
    var parts := next[|next| - 1].messages[0].parts;
    assert parts[|parts| - 1].eventKey == Some(key);
    assert HasKey(next[|next| - 1], key);
  }

  /** A delta replayed at once is recognised. */
  lemma ReplayAtOnceIsDropped(turns: seq<Turn>, e: Event)
    requires e.body.AssistantDelta? && e.eventKey.Some?
    ensures Step(Step(turns, e), e) == Step(turns, e)
  {
    if !Duplicate(turns, e) && Touches(e.body) {
      KeyIsKept(turns, e.body, e.eventKey.value);
    }
  }

  /** A transcript whose only content is one open stream. */
  function One(markdown: string, key: string): seq<Turn> {
    [Turn(User("", None, None), [Message(markdown, [AssistantText(markdown, AssistantStream, true, Some(key))])])]
  }

  lemma JoinedOne(item: Item)
    ensures Joined([item]) == TextOfItem(item)
  {
  }

  lemma WithPartsOfOne(turns: seq<Turn>, m: Message, item: Item)
    requires Ensured(turns) == [Turn(User("", None, None), [m])]
    ensures WithParts(turns, [item]) == [Turn(User("", None, None), [Message(TextOfItem(item), [item])])]
  {
    var some := Ensured(turns);
    var after := Message(Joined([item]), [item]);
    JoinedOne(item);
    assert [m][0 := after] == [after];
    assert WithParts(turns, [item]) == [some[0].(messages := [after])];
  }

  lemma FirstDelta(content: string, key: string)
    requires StripAnsi(content) != ""
    ensures Step([], Event(AssistantDelta(content), Some(key), None)) == One(StripAnsi(content), key)
  {
    var item := AssistantText(StripAnsi(content), AssistantStream, true, Some(key));
    JoinedOne(item);
    assert AddDelta([], StripAnsi(content), Some(key)) == [item];
    assert !Duplicate([], Event(AssistantDelta(content), Some(key), None));
    WithPartsOfOne([], Message("", []), item);
  }

  /** The open stream takes the key of the newest delta, so only that key is recognised. */
  lemma NextDelta(markdown: string, content: string, key: string, next: string)
    requires StripAnsi(content) != "" && key != next
    ensures Step(One(markdown, key), Event(AssistantDelta(content), Some(next), None)) == One(markdown + StripAnsi(content), next)
  {
    var item := AssistantText(markdown + StripAnsi(content), AssistantStream, true, Some(next));
    JoinedOne(item);
    assert !KnowsKey(One(markdown, key), next);
    assert AddDelta(CurrentParts(One(markdown, key)), StripAnsi(content), Some(next)) == [item];
    WithPartsOfOne(One(markdown, key), One(markdown, key)[0].messages[0], item);
  }

  /** A delta replayed after the next one is not: the key of the part has been overwritten by then. */
  lemma LateReplayRepeats(content: string, more: string, first: string, second: string)
    requires StripAnsi(content) != "" && StripAnsi(more) != "" && first != second
    ensures var e, f := Event(AssistantDelta(content), Some(first), None), Event(AssistantDelta(more), Some(second), None);
      Fold([], [e, f, e]) == One(StripAnsi(content) + StripAnsi(more) + StripAnsi(content), first)
  {
    var e, f := Event(AssistantDelta(content), Some(first), None), Event(AssistantDelta(more), Some(second), None);
    FirstDelta(content, first);
    NextDelta(StripAnsi(content), more, first, second);
    NextDelta(StripAnsi(content) + StripAnsi(more), content, second, first);
    ThreeSteps([], e, f, e);
  }

  lemma ThreeSteps(turns: seq<Turn>, a: Event, b: Event, c: Event)
    ensures Fold(turns, [a, b, c]) == Step(Step(Step(turns, a), b), c)
  {
    FoldSnoc(turns, [a, b], c);
    FoldSnoc(turns, [a], b);
    FoldSnoc(turns, [], a);
    assert [a, b] + [c] == [a, b, c] && [a] + [b] == [a, b] && [] + [a] == [a];
  }
}
