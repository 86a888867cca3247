// What each transcript event leaves in the items, field by field, and how streamed reasoning grows.

module TranscriptLaws {
  import opened Wrappers
  import opened TranscriptItems
  import opened TranscriptStream
  import opened TranscriptReplay

  // ---------------------------------------------------------------------------
  // Colour sequences
  // ---------------------------------------------------------------------------

  /** The parameters of a colour sequence. */
  predicate IsCodes(codes: string) {
    forall i :: 0 <= i < |codes| ==> '0' <= codes[i] <= '9' || codes[i] == ';'
  }

  /** A text without an escape character is left alone. */
  lemma {:induction false} PlainTextStays(s: string)
    requires '\U{001B}' !in s
    ensures StripAnsi(s) == s
    decreases |s|
  {
    if s != "" {
      assert s[0] in s;
      PlainTextStays(s[1..]);
    }
  }

  lemma {:induction false} CodeRunEnds(s: string, i: nat, end: nat)
    requires i <= end <= |s| && IsCodes(s[i..end]) && (end == |s| || !('0' <= s[end] <= '9' || s[end] == ';'))
    ensures CodeRun(s, i) == end
    decreases end - i
  {
    if i < end {
      assert s[i..end][0] == s[i] && s[i..end][1..] == s[i + 1..end];
      CodeRunEnds(s, i + 1, end);
    }
  }

  /** A colour sequence at the front goes, whatever its parameters. */
  lemma SequenceGoes(codes: string, rest: string)
    requires IsCodes(codes)
    ensures StripAnsi(['\U{001B}', '['] + codes + "m" + rest) == StripAnsi(rest)
  {
    var s := ['\U{001B}', '['] + codes + "m" + rest;
    var end := |codes| + 2;
    assert s[2..end] == codes && s[end] == 'm' && s[end + 1..] == rest;
    CodeRunEnds(s, 2, end);
    assert AnsiLength(s) == end + 1;
  }

  /** Any other first character stays. */
  lemma OtherCharacterStays(s: string)
    requires s != ""
    requires forall n :: 2 <= n < |s| && s[n] == 'm' ==> !(s[0] == '\U{001B}' && s[1] == '[' && IsCodes(s[2..n]))
    ensures StripAnsi(s) == [s[0]] + StripAnsi(s[1..])
  {
    LengthIsOfASequence(s);
  }

  lemma LengthIsOfASequence(s: string)
    ensures AnsiLength(s) > 0 ==>
      var n := AnsiLength(s) - 1;
      2 <= n < |s| && s[n] == 'm' && s[0] == '\U{001B}' && s[1] == '[' && IsCodes(s[2..n])
  {
    if |s| >= 3 {
      CodesUpTo(s, 2);
    }
  }

  lemma {:induction false} CodesUpTo(s: string, i: nat)
    requires i <= |s|
    ensures IsCodes(s[i..CodeRun(s, i)])
    decreases |s| - i
  {
    if i < |s| && ('0' <= s[i] <= '9' || s[i] == ';') {
      CodesUpTo(s, i + 1);
      var end := CodeRun(s, i);
      assert s[i..end] == [s[i]] + s[i + 1..end];
    }
  }

  // ---------------------------------------------------------------------------
  // Appending and replacing
  // ---------------------------------------------------------------------------

  /** The items with the last one closed: an open stream is a message from then on, thinking is inactive. */
  predicate TailClosed(before: seq<Item>, after: seq<Item>) {
    && |after| == |before|
    && (forall k :: 0 <= k < |before| - 1 ==> after[k] == before[k])
    && (before != [] ==>
          var last, now := before[|before| - 1], after[|before| - 1];
          if last.AssistantText? && last.streamKey == AssistantStream then
            now == AssistantText(last.markdown, AssistantMessage, false, last.eventKey)
          else if last.Thinking? then now == Thinking(last.raw, false, last.eventKey)
          else now == last)
  }

  /** The items with the last one closed and one more. */
  predicate Appended(before: seq<Item>, after: seq<Item>, item: Item) {
    |after| == |before| + 1 && after[|before|] == item && TailClosed(before, after[..|before|])
  }

  lemma AppendAppends(before: seq<Item>, item: Item)
    ensures Appended(before, Append(before, item), item)
  {
    assert Append(before, item)[..|before|] == CloseTrailing(before);
  }

  predicate IsLastThinking(parts: seq<Item>, i: nat) {
    i < |parts| && parts[i].Thinking? && forall j :: i < j < |parts| ==> !parts[j].Thinking?
  }

  predicate IsLastReasoning(parts: seq<Item>, i: nat) {
    i < |parts| && parts[i].Reasoning? && forall j :: i < j < |parts| ==> !parts[j].Reasoning?
  }

  predicate NoThinking(parts: seq<Item>) {
    forall j :: 0 <= j < |parts| ==> !parts[j].Thinking?
  }

  predicate NoReasoning(parts: seq<Item>) {
    forall j :: 0 <= j < |parts| ==> !parts[j].Reasoning?
  }

  function KeyOr(key: Option<string>, kept: Option<string>): Option<string> {
    if key.Some? then key else kept
  }

  /** An event that is not the end of a run works on the current items and nothing else. */
  lemma CurrentAfter(turns: seq<Turn>, e: Event)
    requires !Duplicate(turns, e) && Touches(e.body) && !e.body.RunClosed? && !e.body.RunEnded?
    ensures CurrentParts(Step(turns, e)) == PartsAfter(CurrentParts(turns), e.body, e.eventKey)
    ensures |turns| <= |Step(turns, e)| && forall x :: 0 <= x < |turns| - 1 ==> Step(turns, e)[x] == turns[x]
  {
    TouchedParts(turns, PartsAfter(CurrentParts(turns), e.body, e.eventKey));
    TouchedParts(Step(turns, e), []);
  }

  // ---------------------------------------------------------------------------
  // Event by event
  // ---------------------------------------------------------------------------

  /** A reasoning delta goes to the end of the last thinking item, which is active then; where there is none,
      one item is added that holds just the delta. */
  lemma ReasoningDeltaSets(turns: seq<Turn>, e: Event)
    requires !Duplicate(turns, e) && e.body.ReasoningDelta? && StripAnsi(e.body.content) != ""
    ensures var before, after, text := CurrentParts(turns), CurrentParts(Step(turns, e)), StripAnsi(e.body.content);
      && (forall i: nat :: IsLastThinking(before, i) ==>
            after == before[i := Thinking(before[i].raw + text, true, KeyOr(e.eventKey, before[i].eventKey))])
      && (NoThinking(before) ==> Appended(before, after, Thinking(text, true, e.eventKey)))
  {
    CurrentAfter(turns, e);
    AppendAppends(CurrentParts(turns), Thinking(StripAnsi(e.body.content), true, e.eventKey));
  }

  /** A final reasoning holds its raw text, or its summary where there is none, in the place of the last
      thinking item, else of the last reasoning item, else at the end. */
  lemma ReasoningFinalSets(turns: seq<Turn>, e: Event)
    requires !Duplicate(turns, e) && e.body.ReasoningFinal? && (StripAnsi(e.body.raw) != "" || StripAnsi(e.body.summary) != "")
    ensures var before, after := CurrentParts(turns), CurrentParts(Step(turns, e));
      var raw, summary := StripAnsi(e.body.raw), StripAnsi(e.body.summary);
      var item := Reasoning(summary, if raw == "" then summary else raw, e.eventKey);
      && (forall i: nat :: IsLastThinking(before, i) ==> after == before[i := item])
      && (forall i: nat :: NoThinking(before) && IsLastReasoning(before, i) ==> after == before[i := item])
      && (NoThinking(before) && NoReasoning(before) ==> Appended(before, after, item))
  {
    CurrentAfter(turns, e);
    var raw, summary := StripAnsi(e.body.raw), StripAnsi(e.body.summary);
    AppendAppends(CurrentParts(turns), Reasoning(summary, if raw == "" then summary else raw, e.eventKey));
  }

  /** A delta of the assistant grows the stream that is open at the end, or opens one. */
  lemma AssistantDeltaSets(turns: seq<Turn>, e: Event)
    requires !Duplicate(turns, e) && e.body.AssistantDelta? && StripAnsi(e.body.content) != ""
    ensures var before, after, text := CurrentParts(turns), CurrentParts(Step(turns, e)), StripAnsi(e.body.content);
      if before != [] && before[|before| - 1].AssistantText? && before[|before| - 1].streamKey == AssistantStream then
        var last := before[|before| - 1];
        after == before[|before| - 1 := AssistantText(last.markdown + text, AssistantStream, true, KeyOr(e.eventKey, last.eventKey))]
      else
        Appended(before, after, AssistantText(text, AssistantStream, true, e.eventKey))
  {
    CurrentAfter(turns, e);
    AppendAppends(CurrentParts(turns), AssistantText(StripAnsi(e.body.content), AssistantStream, true, e.eventKey));
  }

  /** A final message takes the place of that stream, closed, or comes at the end. */
  lemma AssistantFinalSets(turns: seq<Turn>, e: Event)
    requires !Duplicate(turns, e) && e.body.AssistantFinal? && Clean(e.body.content) != ""
    ensures var before, after, text := CurrentParts(turns), CurrentParts(Step(turns, e)), Clean(e.body.content);
      if before != [] && before[|before| - 1].AssistantText? && before[|before| - 1].streamKey == AssistantStream then
        after == before[|before| - 1 := AssistantText(text, AssistantMessage, false, KeyOr(e.eventKey, before[|before| - 1].eventKey))]
      else
        Appended(before, after, AssistantText(text, AssistantMessage, false, e.eventKey))
  {
    CurrentAfter(turns, e);
    AppendAppends(CurrentParts(turns), AssistantText(Clean(e.body.content), AssistantMessage, false, e.eventKey));
  }

  /** A notice or a structured item holds what the event brings; so does an upserted item, in the place of the
      first of its kind and id. */
  lemma ItemsSet(turns: seq<Turn>, e: Event)
    requires !Duplicate(turns, e)
    ensures var before, after := CurrentParts(turns), CurrentParts(Step(turns, e));
      && (e.body.NoticeText? && Clean(e.body.content) != "" ==>
            Appended(before, after, Notice(e.body.level, Clean(e.body.content), e.eventKey)))
      && (e.body.Structured? && e.body.shown ==>
            Appended(before, after, Other(e.body.kind, e.body.id, e.body.body, e.body.awaiting, e.eventKey)))
  {
    if (e.body.NoticeText? && Clean(e.body.content) != "") || (e.body.Structured? && e.body.shown) {
      CurrentAfter(turns, e);
    }
    if e.body.NoticeText? {
      AppendAppends(CurrentParts(turns), Notice(e.body.level, Clean(e.body.content), e.eventKey));
    } else if e.body.Structured? {
      AppendAppends(CurrentParts(turns), Other(e.body.kind, e.body.id, e.body.body, e.body.awaiting, e.eventKey));
    }
  }

  lemma UpsertSets(turns: seq<Turn>, e: Event)
    requires !Duplicate(turns, e) && e.body.UpsertById?
    ensures var before, after := CurrentParts(turns), CurrentParts(Step(turns, e));
      var item := Other(e.body.kind, e.body.id, e.body.body, false, e.eventKey);
      if exists i :: 0 <= i < |before| && before[i].Other? && before[i].kind == e.body.kind && before[i].id == e.body.id then
        exists i :: 0 <= i < |before| && before[i].Other? && before[i].kind == e.body.kind && before[i].id == e.body.id
          && (forall j :: 0 <= j < i ==> !(before[j].Other? && before[j].kind == e.body.kind && before[j].id == e.body.id))
          && after == before[i := item]
      else Appended(before, after, item)
  {
    CurrentAfter(turns, e);
    AppendAppends(CurrentParts(turns), Other(e.body.kind, e.body.id, e.body.body, false, e.eventKey));
  }

  /** An event without content, and one that only reports a status, changes nothing. */
  lemma EmptyEventsDoNothing(turns: seq<Turn>, e: Event)
    requires || (e.body.UserMessage? && e.body.prompt == "")
             || (e.body.AssistantDelta? && StripAnsi(e.body.content) == "")
             || (e.body.AssistantFinal? && Clean(e.body.content) == "")
             || (e.body.ReasoningDelta? && StripAnsi(e.body.content) == "")
             || (e.body.ReasoningFinal? && StripAnsi(e.body.raw) == "" && StripAnsi(e.body.summary) == "")
             || (e.body.NoticeText? && Clean(e.body.content) == "")
             || (e.body.Structured? && !e.body.shown) || e.body.StatusOnly?
    ensures Step(turns, e) == turns
  {
  }

  /** The turn shows the user message of the event already: under its item id, its key, or, while it has no
      answer yet, its text. */
  predicate ShowsMessage(turn: Turn, e: Event)
    requires e.body.UserMessage?
  {
    || (Present(e.sessionItemId) && turn.user.sessionItemId == e.sessionItemId)
    || (e.eventKey.Some? && turn.user.eventKey == e.eventKey)
    || (turn.user.text == e.body.prompt && turn.messages == [])
  }

  lemma {:induction false} MergingAdds(turns: seq<Turn>, e: Event, from: nat)
    requires e.body.UserMessage? && from <= |turns| && forall j :: from <= j < |turns| ==> !ShowsMessage(turns[j], e)
    ensures MergedFrom(turns, e.body.prompt, e, from) == turns + [Turn(User(e.body.prompt, e.eventKey, Truthy(e.sessionItemId)), [])]
    decreases |turns| - from
  {
    if from < |turns| {
      assert !ShowsMessage(turns[from], e);
      MergingAdds(turns, e, from + 1);
    }
  }

  /** A user message that no turn shows opens a turn; one that is shown by its text alone gives that turn its
      key and item id, in the first turn that shows it; otherwise nothing changes. */
  lemma UserMessageSets(turns: seq<Turn>, e: Event)
    requires !Duplicate(turns, e) && e.body.UserMessage? && e.body.prompt != ""
    ensures (forall j :: 0 <= j < |turns| ==> !ShowsMessage(turns[j], e)) ==>
      Step(turns, e) == turns + [Turn(User(e.body.prompt, e.eventKey, if Present(e.sessionItemId) then e.sessionItemId else None), [])]
    ensures forall i :: 0 <= i < |turns| && ShowsMessage(turns[i], e) && (forall j :: 0 <= j < i ==> !ShowsMessage(turns[j], e)) ==>
      var user := turns[i].user;
      if (Present(e.sessionItemId) && user.sessionItemId == e.sessionItemId) || (e.eventKey.Some? && user.eventKey == e.eventKey) then
        Step(turns, e) == turns
      else
        Step(turns, e) == turns[i := Turn(User(user.text, KeyOr(e.eventKey, user.eventKey),
                                               if Present(e.sessionItemId) then e.sessionItemId else user.sessionItemId), [])]
  {
    if forall j :: 0 <= j < |turns| ==> !ShowsMessage(turns[j], e) {
      MergingAdds(turns, e, 0);
    }
    forall i | 0 <= i < |turns| && ShowsMessage(turns[i], e) && (forall j :: 0 <= j < i ==> !ShowsMessage(turns[j], e))
      ensures var user := turns[i].user;
        if (Present(e.sessionItemId) && user.sessionItemId == e.sessionItemId) || (e.eventKey.Some? && user.eventKey == e.eventKey) then
          Step(turns, e) == turns
        else
          Step(turns, e) == turns[i := Turn(User(user.text, KeyOr(e.eventKey, user.eventKey),
                                                 if Present(e.sessionItemId) then e.sessionItemId else user.sessionItemId), [])]
    {
      ShownMessageSets(turns, e, 0, i);
    }
  }

  lemma {:induction false} ShownMessageSets(turns: seq<Turn>, e: Event, from: nat, i: nat)
    requires e.body.UserMessage? && from <= i < |turns| && ShowsMessage(turns[i], e)
    requires forall j :: from <= j < i ==> !ShowsMessage(turns[j], e)
    ensures var next, user := MergedFrom(turns, e.body.prompt, e, from), turns[i].user;
      if (Present(e.sessionItemId) && user.sessionItemId == e.sessionItemId) || (e.eventKey.Some? && user.eventKey == e.eventKey) then
        next == turns
      else
        next == turns[i := Turn(User(user.text, KeyOr(e.eventKey, user.eventKey),
                                     if Present(e.sessionItemId) then e.sessionItemId else user.sessionItemId), [])]
    decreases i - from
  {
    if from < i {
      assert !ShowsMessage(turns[from], e);
      ShownMessageSets(turns, e, from + 1, i);
    }
  }

  // ---------------------------------------------------------------------------
  // The end of a run
  // ---------------------------------------------------------------------------

  /** An item as the end of a run leaves it: closed and inactive, with the same content; one that awaits
      approval may be settled. */
  predicate Ended(was: Item, now: Item, settles: bool, key: Option<string>) {
    match was
    case AssistantText(markdown, streamKey, streaming, k) =>
      if streamKey == AssistantStream then now == AssistantText(markdown, AssistantMessage, false, k) else now == was
    case Thinking(raw, _, k) => now == Thinking(raw, false, k)
    case Other(kind, id, body, awaiting, k) =>
      if awaiting && settles then now == Other(kind, id, body, false, KeyOr(key, k)) else now == was
    case _ => now == was
  }

  lemma EndsOne(item: Item, key: Option<string>)
    ensures Ended(item, Closed(item), false, key)
    ensures Ended(item, Closed(SettledItem(item, key)), true, key) && Ended(item, SettledItem(Closed(item), key), true, key)
  {
  }

  lemma CurrentOfSettled(turns: seq<Turn>, key: Option<string>)
    requires turns != []
    ensures var before, after := CurrentParts(turns), CurrentParts(SettleAll(turns, key));
      |after| == |before| && forall j :: 0 <= j < |before| ==> after[j] == SettledItem(before[j], key)
  {
    CurrentIsPartsOf(turns);
    CurrentIsPartsOf(SettleAll(turns, key));
    SettledParts(turns[|turns| - 1], key);
  }

  /** Finishing, with whatever was settled before. */
  lemma FinishedItems(was: seq<Item>, parts: seq<Item>, done: seq<Item>, settled: bool, key: Option<string>)
    requires |was| <= |parts| && done == Finish(parts)
    requires forall j :: 0 <= j < |was| ==> parts[j] == Prepared(was[j], settled, key) || parts[j] == Closed(Prepared(was[j], settled, key))
    ensures |done| == |parts| && forall j :: 0 <= j < |was| ==> Ended(was[j], done[j], settled, key)
  {
    FinishText(parts);
    forall j | 0 <= j < |was| ensures Ended(was[j], done[j], settled, key) {
      EndsOne(was[j], key);
      assert done[j] == Closed(parts[j]);
    }
  }

  function Prepared(item: Item, settled: bool, key: Option<string>): Item {
    if settled then SettledItem(item, key) else item
  }

  /** What the turns are before the items of a closing event are worked on. */
  lemma ClosingWorksOn(turns: seq<Turn>, settled: bool, key: Option<string>, before: seq<Turn>)
    requires before == if settled then SettleAll(turns, key) else turns
    ensures var was, parts := CurrentParts(turns), CurrentParts(before);
      |parts| == |was| && forall j :: 0 <= j < |was| ==> parts[j] == Prepared(was[j], settled, key)
  {
    if turns != [] {
      CurrentOfSettled(turns, key);
    } else {
      TouchedParts(turns, []);
      TouchedParts(before, []);
    }
  }

  /** Closing a run closes and, where it says so, settles every current item, after adding its notice, if it
      has one and none of its level is to be repeated. */
  lemma RunClosedSets(turns: seq<Turn>, e: Event)
    requires !Duplicate(turns, e) && e.body.RunClosed?
    ensures var was, after := CurrentParts(turns), CurrentParts(Step(turns, e));
      var noted := Clean(e.body.notice) != ""
        && !(e.body.onlyOnce && exists i :: 0 <= i < |was| && was[i].Notice? && was[i].level == e.body.level);
      && |after| == |was| + (if noted then 1 else 0)
      && (noted ==> after[|was|] == Notice(e.body.level, Clean(e.body.notice), e.eventKey))
      && (forall j :: 0 <= j < |was| ==> Ended(was[j], after[j], e.body.settles, e.eventKey))
  {
    var parts := ClosingParts(turns, e);
    NoticesStay(CurrentParts(turns), parts, e.body.settles, e.eventKey, e.body.level);
    NotedItems(CurrentParts(turns), parts, e, CurrentParts(Step(turns, e)));
  }

  /** The items that a closing event works on, once it has settled what awaits approval. */
  lemma ClosingParts(turns: seq<Turn>, e: Event) returns (parts: seq<Item>)
    requires !Duplicate(turns, e) && e.body.RunClosed?
    ensures var was := CurrentParts(turns);
      |parts| == |was| && forall j :: 0 <= j < |was| ==> parts[j] == Prepared(was[j], e.body.settles, e.eventKey)
    ensures CurrentParts(Step(turns, e)) == PartsAfter(parts, e.body, e.eventKey)
  {
    var before := if e.body.settles then SettleAll(turns, e.eventKey) else turns;
    parts := CurrentParts(before);
    ClosingWorksOn(turns, e.body.settles, e.eventKey, before);
    TouchedParts(before, PartsAfter(parts, e.body, e.eventKey));
    TouchedParts(Step(turns, e), []);
  }

  lemma NoticesStay(was: seq<Item>, parts: seq<Item>, settled: bool, key: Option<string>, level: NoticeLevel)
    requires |parts| == |was| && forall j :: 0 <= j < |was| ==> parts[j] == Prepared(was[j], settled, key)
    ensures HasNotice(parts, level) <==> exists i :: 0 <= i < |was| && was[i].Notice? && was[i].level == level
  {
    if i :| 0 <= i < |was| && was[i].Notice? && was[i].level == level {
      assert parts[i].Notice? && parts[i].level == level;
    }
    if HasNotice(parts, level) {
      var i :| 0 <= i < |parts| && parts[i].Notice? && parts[i].level == level;
      assert was[i].Notice? && was[i].level == level;
    }
  }

  lemma NotedItems(was: seq<Item>, parts: seq<Item>, e: Event, after: seq<Item>)
    requires e.body.RunClosed? && |parts| == |was|
    requires forall j :: 0 <= j < |was| ==> parts[j] == Prepared(was[j], e.body.settles, e.eventKey)
    requires after == PartsAfter(parts, e.body, e.eventKey)
    ensures var noted := Clean(e.body.notice) != "" && !(e.body.onlyOnce && HasNotice(parts, e.body.level));
      && |after| == |was| + (if noted then 1 else 0)
      && (noted ==> after[|was|] == Notice(e.body.level, Clean(e.body.notice), e.eventKey))
      && (forall j :: 0 <= j < |was| ==> Ended(was[j], after[j], e.body.settles, e.eventKey))
  {
    if Clean(e.body.notice) != "" && !(e.body.onlyOnce && HasNotice(parts, e.body.level)) {
      AppendedEnds(was, parts, Notice(e.body.level, Clean(e.body.notice), e.eventKey), e.body.settles, e.eventKey);
    } else {
      FinishedItems(was, parts, Finish(parts), e.body.settles, e.eventKey);
    }
  }

  lemma AppendedEnds(was: seq<Item>, parts: seq<Item>, notice: Item, settled: bool, key: Option<string>)
    requires notice.Notice? && |parts| == |was| && forall j :: 0 <= j < |was| ==> parts[j] == Prepared(was[j], settled, key)
    ensures var after := Finish(Append(parts, notice));
      && |after| == |was| + 1 && after[|was|] == notice
      && forall j :: 0 <= j < |was| ==> Ended(was[j], after[j], settled, key)
  {
    var done := Append(parts, notice);
    FinishText(done);
    forall j | 0 <= j < |was| ensures done[j] == Prepared(was[j], settled, key) || done[j] == Closed(Prepared(was[j], settled, key)) {
      assert done[j] == if j == |parts| - 1 then Closed(parts[j]) else parts[j];
    }
    FinishedItems(was, done, Finish(done), settled, key);
  }

  /** An item as settling leaves it: it awaits no approval, and is as it was if it awaited none. */
  predicate Answered(was: Item, now: Item, key: Option<string>) {
    if was.Other? && was.awaiting then now == Other(was.kind, was.id, was.body, false, KeyOr(key, was.eventKey)) else now == was
  }

  predicate AnsweredMessage(was: Message, now: Message, key: Option<string>) {
    && now.text == was.text && |now.parts| == |was.parts|
    && forall j :: 0 <= j < |was.parts| ==> Answered(was.parts[j], now.parts[j], key)
  }

  predicate AnsweredTurn(was: Turn, now: Turn, key: Option<string>) {
    && now.user == was.user && |now.messages| == |was.messages|
    && forall j :: 0 <= j < |was.messages| ==> AnsweredMessage(was.messages[j], now.messages[j], key)
  }

  lemma SettlingAnswers(turn: Turn, key: Option<string>)
    ensures AnsweredTurn(turn, SettledTurn(turn, key), key)
  {
  }

  /** What still awaits approval in an earlier turn is settled at the end of a run, and where closing it says
      so; no other event reaches the items of an earlier turn. */
  lemma EarlierTurns(turns: seq<Turn>, e: Event, i: nat)
    requires !Duplicate(turns, e) && i < |turns| - 1 && !e.body.UserMessage?
    ensures i < |Step(turns, e)|
    ensures if e.body.RunEnded? || (e.body.RunClosed? && e.body.settles) then AnsweredTurn(turns[i], Step(turns, e)[i], e.eventKey)
            else Step(turns, e)[i] == turns[i]
  {
    if Touches(e.body) {
      var before := if e.body.RunClosed? && e.body.settles then SettleAll(turns, e.eventKey) else turns;
      TouchedParts(before, PartsAfter(CurrentParts(before), e.body, e.eventKey));
      SettlingAnswers(turns[i], e.eventKey);
    }
  }

  /** The end of a run closes and settles every current item; a response that was not rendered yet takes the
      place of the open stream, or comes at the end. */
  lemma RunEndedSets(turns: seq<Turn>, e: Event)
    requires !Duplicate(turns, e) && e.body.RunEnded?
    ensures var was, after := CurrentParts(turns), CurrentParts(Step(turns, e));
      var says := Clean(e.body.response) != "" && !e.body.rendered;
      var open := OpenAtEnd(was);
      && |after| == |was| + (if says && !open then 1 else 0)
      && (says ==> after != [] && after[|after| - 1] == AssistantText(Clean(e.body.response), AssistantMessage, false,
                     if open then KeyOr(e.eventKey, was[|was| - 1].eventKey) else e.eventKey))
      && (forall j :: 0 <= j < |was| - (if says && open then 1 else 0) ==> Ended(was[j], after[j], true, e.eventKey))
  {
    var was, key := CurrentParts(turns), e.eventKey;
    var parts := PartsAfter(was, e.body, key);
    var put := WithParts(turns, parts);
    SaidItems(was, e, parts);
    TouchedParts(turns, parts);
    CurrentIsPartsOf(put);
    CurrentOfSettled(put, key);
    SettledEnds(was, parts, CurrentParts(SettleAll(put, key)), key,
                |was| - if Clean(e.body.response) != "" && !e.body.rendered && OpenAtEnd(was) then 1 else 0);
  }

  lemma SettledEnds(was: seq<Item>, parts: seq<Item>, after: seq<Item>, key: Option<string>, n: int)
    requires |after| == |parts| && forall j :: 0 <= j < |parts| ==> after[j] == SettledItem(parts[j], key)
    requires 0 <= n <= |was| && n <= |parts| && forall j :: 0 <= j < n ==> parts[j] == Closed(was[j])
    ensures forall j :: 0 <= j < n ==> Ended(was[j], after[j], true, key)
  {
    forall j | 0 <= j < n ensures Ended(was[j], after[j], true, key) {
      EndsOne(was[j], key);
    }
  }

  lemma SaidItems(was: seq<Item>, e: Event, parts: seq<Item>)
    requires e.body.RunEnded? && parts == PartsAfter(was, e.body, e.eventKey)
    ensures var says := Clean(e.body.response) != "" && !e.body.rendered;
      var open := OpenAtEnd(was);
      && |parts| == |was| + (if says && !open then 1 else 0)
      && (says ==> parts != [] && parts[|parts| - 1] == AssistantText(Clean(e.body.response), AssistantMessage, false,
                     if open then KeyOr(e.eventKey, was[|was| - 1].eventKey) else e.eventKey))
      && (forall j :: 0 <= j < |was| - (if says && open then 1 else 0) ==> parts[j] == Closed(was[j]))
  {
    if Clean(e.body.response) == "" || e.body.rendered {
      FinishText(was);
    } else {
      FinalItems(was, Clean(e.body.response), e.eventKey);
    }
  }

  lemma FinalItems(was: seq<Item>, text: string, key: Option<string>)
    ensures var parts, open := Finish(AddFinal(was, text, key)), OpenAtEnd(was);
      && |parts| == |was| + (if open then 0 else 1)
      && parts[|parts| - 1] == AssistantText(text, AssistantMessage, false, if open then KeyOr(key, was[|was| - 1].eventKey) else key)
      && (forall j :: 0 <= j < |was| - (if open then 1 else 0) ==> parts[j] == Closed(was[j]))
  {
    FinishText(AddFinal(was, text, key));
    if !OpenAtEnd(was) {
      AppendAppends(was, AssistantText(text, AssistantMessage, false, key));
    }
  }

  // ---------------------------------------------------------------------------
  // Reasoning over whole runs
  // ---------------------------------------------------------------------------

  function ReasoningOf(body: Body): string {
    if body.ReasoningDelta? then StripAnsi(body.content) else ""
  }

  /** The event replaces thinking by final reasoning. */
  predicate ConcludesReasoning(body: Body) {
    body.ReasoningFinal? && (StripAnsi(body.raw) != "" || StripAnsi(body.summary) != "")
  }

  /** All that is being thought, item after item. */
  function Thoughts(parts: seq<Item>): string {
    if parts == [] then ""
    else Thoughts(parts[..|parts| - 1]) + if parts[|parts| - 1].Thinking? then parts[|parts| - 1].raw else ""
  }

  function AllThoughts(turns: seq<Turn>): string {
    if turns == [] then "" else AllThoughts(turns[..|turns| - 1]) + Thoughts(PartsOf(turns[|turns| - 1]))
  }

  function ThoughtOf(item: Item): string {
    if item.Thinking? then item.raw else ""
  }

  lemma {:induction false} SameThoughts(a: seq<Item>, b: seq<Item>)
    requires |a| == |b| && forall i :: 0 <= i < |a| ==> ThoughtOf(a[i]) == ThoughtOf(b[i])
    ensures Thoughts(a) == Thoughts(b)
    decreases |a|
  {
    if a != [] {
      SameThoughts(a[..|a| - 1], b[..|b| - 1]);
    }
  }

  lemma AppendThoughts(parts: seq<Item>, item: Item)
    ensures Thoughts(Append(parts, item)) == Thoughts(parts) + ThoughtOf(item)
  {
    AppendAppends(parts, item);
    assert Append(parts, item)[..|parts|] == CloseTrailing(parts);
    SameThoughts(CloseTrailing(parts), parts);
  }

  lemma {:induction false} LaterThoughts(parts: seq<Item>, i: nat, text: string, item: Item)
    requires IsLastThinking(parts, i) && item.Thinking? && item.raw == parts[i].raw + text
    ensures Thoughts(parts[i := item]) == Thoughts(parts) + text
    decreases |parts|
  {
    var after, n := parts[i := item], |parts| - 1;
    if i == n {
      assert after[..n] == parts[..n];
    } else {
      assert after[..n] == parts[..n][i := item];
      LaterThoughts(parts[..n], i, text, item);
    }
  }

  lemma NoticeThoughts(parts: seq<Item>, level: NoticeLevel, content: string, key: Option<string>)
    ensures Thoughts(AddNotice(parts, level, content, key)) == Thoughts(parts)
  {
    if Clean(content) != "" {
      AppendThoughts(parts, Notice(level, Clean(content), key));
    }
  }

  lemma StreamThoughts(parts: seq<Item>, content: string, key: Option<string>)
    ensures Thoughts(AddDelta(parts, content, key)) == Thoughts(parts)
    ensures Thoughts(AddFinal(parts, content, key)) == Thoughts(parts)
  {
    if OpenAtEnd(parts) {
      SameThoughts(AddDelta(parts, content, key), parts);
      SameThoughts(AddFinal(parts, content, key), parts);
    } else {
      AppendThoughts(parts, AssistantText(content, AssistantStream, true, key));
      AppendThoughts(parts, AssistantText(content, AssistantMessage, false, key));
    }
  }

  lemma FinishThoughts(parts: seq<Item>)
    ensures Thoughts(Finish(parts)) == Thoughts(parts)
  {
    FinishText(parts);
    SameThoughts(Finish(parts), parts);
  }

  lemma UpsertThoughts(parts: seq<Item>, kind: string, id: string, body: string, key: Option<string>)
    ensures Thoughts(Upsert(parts, kind, id, body, key)) == Thoughts(parts)
  {
    if FindOther(parts, kind, id).Some? {
      SameThoughts(Upsert(parts, kind, id, body, key), parts);
    } else {
      AppendThoughts(parts, Other(kind, id, body, false, key));
    }
  }

  lemma DeltaThoughts(parts: seq<Item>, content: string, key: Option<string>)
    ensures Thoughts(AddReasoningDelta(parts, content, key)) == Thoughts(parts) + content
  {
    var at := LastThinking(parts);
    if at.Some? {
      LaterThoughts(parts, at.value, content, Mark(parts[at.value].(active := true, raw := parts[at.value].raw + content), key));
    } else {
      AppendThoughts(parts, Thinking(content, true, key));
    }
  }

  lemma EventThoughts(parts: seq<Item>, body: Body, key: Option<string>)
    requires Touches(body) && !ConcludesReasoning(body)
    ensures Thoughts(PartsAfter(parts, body, key)) == Thoughts(parts) + ReasoningOf(body)
  {
    if body.AssistantDelta? {
      StreamThoughts(parts, StripAnsi(body.content), key);
    } else if body.AssistantFinal? {
      StreamThoughts(parts, Clean(body.content), key);
    } else if body.ReasoningDelta? {
      DeltaThoughts(parts, StripAnsi(body.content), key);
    } else if body.NoticeText? {
      NoticeThoughts(parts, body.level, body.content, key);
    } else if body.Structured? {
      AppendThoughts(parts, Other(body.kind, body.id, body.body, body.awaiting, key));
    } else if body.UpsertById? {
      UpsertThoughts(parts, body.kind, body.id, body.body, key);
    } else if body.RunClosed? {
      NoticeThoughts(parts, body.level, body.notice, key);
      FinishThoughts(if body.onlyOnce && HasNotice(parts, body.level) then parts else AddNotice(parts, body.level, body.notice, key));
    } else if body.RunEnded? {
      StreamThoughts(parts, Clean(body.response), key);
      FinishThoughts(if Clean(body.response) == "" || body.rendered then parts else AddFinal(parts, Clean(body.response), key));
    }
  }

  lemma {:induction false} SameAllThoughts(a: seq<Turn>, b: seq<Turn>)
    requires |a| == |b| && forall i :: 0 <= i < |a| ==> Thoughts(PartsOf(a[i])) == Thoughts(PartsOf(b[i]))
    ensures AllThoughts(a) == AllThoughts(b)
    decreases |a|
  {
    if a != [] {
      SameAllThoughts(a[..|a| - 1], b[..|b| - 1]);
    }
  }

  lemma SettleThoughts(turns: seq<Turn>, key: Option<string>)
    ensures AllThoughts(SettleAll(turns, key)) == AllThoughts(turns)
  {
    forall i | 0 <= i < |turns| ensures Thoughts(PartsOf(SettledTurn(turns[i], key))) == Thoughts(PartsOf(turns[i])) {
      SettledParts(turns[i], key);
      SameThoughts(PartsOf(SettledTurn(turns[i], key)), PartsOf(turns[i]));
    }
    SameAllThoughts(SettleAll(turns, key), turns);
  }

  lemma PutThoughts(turns: seq<Turn>, parts: seq<Item>, more: string)
    requires Thoughts(parts) == Thoughts(CurrentParts(turns)) + more
    ensures AllThoughts(WithParts(turns, parts)) == AllThoughts(turns) + more
  {
    var next := WithParts(turns, parts);
    TouchedParts(turns, parts);
    if turns == [] {
      assert next[..0] == [] && Thoughts([]) == "";
    } else {
      assert next[..|turns| - 1] == turns[..|turns| - 1];
    }
  }

  lemma MergeThoughts(turns: seq<Turn>, prompt: string, e: Event)
    ensures AllThoughts(MergedFrom(turns, prompt, e, 0)) == AllThoughts(turns)
  {
    var next := MergedFrom(turns, prompt, e, 0);
    MergeAddsAtMostOne(turns, prompt, e, 0);
    if |next| == |turns| {
      forall x | 0 <= x < |turns| ensures Thoughts(PartsOf(next[x])) == Thoughts(PartsOf(turns[x])) {
        MergeKeepsParts(turns, prompt, e, 0, x);
      }
      SameAllThoughts(next, turns);
    } else {
      assert next[..|turns|] == turns && Thoughts([]) == "";
    }
  }

  /** An event adds to the thoughts exactly the reasoning it streams, unless it concludes some. */
  lemma StepThoughts(turns: seq<Turn>, e: Event)
    requires !ConcludesReasoning(e.body)
    ensures AllThoughts(Step(turns, e)) == AllThoughts(turns) + (if Duplicate(turns, e) then "" else ReasoningOf(e.body))
  {
    if Duplicate(turns, e) {
    } else if e.body.UserMessage? {
      MergeThoughts(turns, e.body.prompt, e);
    } else if Touches(e.body) {
      var before := if e.body.RunClosed? && e.body.settles then SettleAll(turns, e.eventKey) else turns;
      SettleThoughts(turns, e.eventKey);
      EventThoughts(CurrentParts(before), e.body, e.eventKey);
      PutThoughts(before, PartsAfter(CurrentParts(before), e.body, e.eventKey), ReasoningOf(e.body));
      SettleThoughts(WithParts(before, PartsAfter(CurrentParts(before), e.body, e.eventKey)), e.eventKey);
    }
  }

  /** All reasoning deltas of a batch, stripped, in order. */
  function ReasoningDeltas(events: seq<Event>): string {
    if events == [] then "" else ReasoningOf(events[0].body) + ReasoningDeltas(events[1..])
  }

  lemma GrowTwice(before: string, first: string, rest: string, mid: string, end: string)
    requires mid == before + first && end == mid + rest
    ensures end == before + (first + rest)
  {
  }

  /** Over any run of fresh events none of which concludes it, what is being thought grows by exactly the
      stripped reasoning deltas, in order, whatever comes in between. */
  lemma {:induction false} ThoughtsLoseNothing(turns: seq<Turn>, events: seq<Event>, keys: set<string>)
    requires AllKeysWithin(turns, keys) && Fresh(events, keys)
    requires forall i :: 0 <= i < |events| ==> !ConcludesReasoning(events[i].body)
    ensures AllThoughts(Fold(turns, events)) == AllThoughts(turns) + ReasoningDeltas(events)
    decreases |events|
  {
    if events != [] {
      var e, next, more := events[0], Step(turns, events[0]), keys + KeyOf(events[0]);
      FirstIsAccepted(turns, events, keys);
      StepThoughts(turns, e);
      GrowKeys(turns, keys, more);
      StepKeys(turns, e, more);
      ThoughtsLoseNothing(next, events[1..], more);
      GrowTwice(AllThoughts(turns), ReasoningOf(e.body), ReasoningDeltas(events[1..]), AllThoughts(next), AllThoughts(Fold(next, events[1..])));
    }
  }

  // ---------------------------------------------------------------------------
  // One thinking item over a turn
  // ---------------------------------------------------------------------------

  /** The `i`-th item is still the last thinking, and has grown by `text`. */
  predicate Thinks(before: seq<Item>, after: seq<Item>, i: nat, text: string) {
    IsLastThinking(before, i) && IsLastThinking(after, i) && after[i].raw == before[i].raw + text
  }

  lemma AppendThinks(parts: seq<Item>, item: Item, i: nat)
    requires IsLastThinking(parts, i) && !item.Thinking?
    ensures Thinks(parts, Append(parts, item), i, "")
  {
    AppendAppends(parts, item);
    assert forall k :: 0 <= k < |parts| ==> Append(parts, item)[..|parts|][k] == Append(parts, item)[k];
  }

  lemma FinishThinks(before: seq<Item>, parts: seq<Item>, i: nat)
    requires Thinks(before, parts, i, "")
    ensures Thinks(before, Finish(parts), i, "")
  {
    FinishText(parts);
  }

  lemma NoticeThinks(parts: seq<Item>, level: NoticeLevel, content: string, key: Option<string>, i: nat)
    requires IsLastThinking(parts, i)
    ensures Thinks(parts, AddNotice(parts, level, content, key), i, "")
  {
    if Clean(content) != "" {
      AppendThinks(parts, Notice(level, Clean(content), key), i);
    }
  }

  lemma StreamThinks(parts: seq<Item>, content: string, key: Option<string>, i: nat)
    requires IsLastThinking(parts, i)
    ensures Thinks(parts, AddDelta(parts, content, key), i, "") && Thinks(parts, AddFinal(parts, content, key), i, "")
  {
    if !OpenAtEnd(parts) {
      AppendThinks(parts, AssistantText(content, AssistantStream, true, key), i);
      AppendThinks(parts, AssistantText(content, AssistantMessage, false, key), i);
    }
  }

  lemma EventThinks(parts: seq<Item>, body: Body, key: Option<string>, i: nat)
    requires Touches(body) && !ConcludesReasoning(body) && IsLastThinking(parts, i)
    ensures Thinks(parts, PartsAfter(parts, body, key), i, ReasoningOf(body))
  {
    if body.AssistantDelta? {
      StreamThinks(parts, StripAnsi(body.content), key, i);
    } else if body.AssistantFinal? {
      StreamThinks(parts, Clean(body.content), key, i);
    } else if body.NoticeText? {
      NoticeThinks(parts, body.level, body.content, key, i);
    } else if body.Structured? {
      AppendThinks(parts, Other(body.kind, body.id, body.body, body.awaiting, key), i);
    } else if body.UpsertById? {
      AppendThinks(parts, Other(body.kind, body.id, body.body, false, key), i);
    } else if body.RunClosed? {
      NoticeThinks(parts, body.level, body.notice, key, i);
      FinishThinks(parts, if body.onlyOnce && HasNotice(parts, body.level) then parts else AddNotice(parts, body.level, body.notice, key), i);
    } else if body.RunEnded? {
      StreamThinks(parts, Clean(body.response), key, i);
      FinishThinks(parts, if Clean(body.response) == "" || body.rendered then parts else AddFinal(parts, Clean(body.response), key), i);
    }
  }

  lemma SettleThinks(turns: seq<Turn>, key: Option<string>, i: nat)
    requires turns != [] && IsLastThinking(CurrentParts(turns), i)
    ensures Thinks(CurrentParts(turns), CurrentParts(SettleAll(turns, key)), i, "")
  {
    CurrentOfSettled(turns, key);
  }

  lemma StepThinks(turns: seq<Turn>, e: Event, i: nat)
    requires !Duplicate(turns, e) && !e.body.UserMessage? && !ConcludesReasoning(e.body)
    requires turns != [] && IsLastThinking(CurrentParts(turns), i)
    ensures Step(turns, e) != [] && Thinks(CurrentParts(turns), CurrentParts(Step(turns, e)), i, ReasoningOf(e.body))
  {
    if Touches(e.body) {
      var before := if e.body.RunClosed? && e.body.settles then SettleAll(turns, e.eventKey) else turns;
      var parts := PartsAfter(CurrentParts(before), e.body, e.eventKey);
      var put := WithParts(before, parts);
      SettleThinks(turns, e.eventKey, i);
      EventThinks(CurrentParts(before), e.body, e.eventKey, i);
      TouchedParts(before, parts);
      CurrentIsPartsOf(put);
      SettleThinks(put, e.eventKey, i);
    }
  }

  /** Within a turn one item takes up all of it. */
  lemma {:induction false} OneItemThinks(turns: seq<Turn>, events: seq<Event>, keys: set<string>, i: nat)
    requires AllKeysWithin(turns, keys) && Fresh(events, keys)
    requires forall k :: 0 <= k < |events| ==> !ConcludesReasoning(events[k].body) && !events[k].body.UserMessage?
    requires turns != [] && IsLastThinking(CurrentParts(turns), i)
    ensures Thinks(CurrentParts(turns), CurrentParts(Fold(turns, events)), i, ReasoningDeltas(events))
    decreases |events|
  {
    if events != [] {
      var e, next, more := events[0], Step(turns, events[0]), keys + KeyOf(events[0]);
      FirstIsAccepted(turns, events, keys);
      StepThinks(turns, e, i);
      GrowKeys(turns, keys, more);
      StepKeys(turns, e, more);
      OneItemThinks(next, events[1..], more, i);
      GrowTwice(CurrentParts(turns)[i].raw, ReasoningOf(e.body), ReasoningDeltas(events[1..]),
                CurrentParts(next)[i].raw, CurrentParts(Fold(next, events[1..]))[i].raw);
    }
  }
}
