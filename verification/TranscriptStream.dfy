// The transcript over whole batches of events: the event loop on a cloned bundle, and why no streamed
// text is lost, repeated or reordered.

module TranscriptStream {
  import opened Wrappers
  import opened TranscriptItems

  datatype Message = Message(text: string, parts: seq<Item>)

  datatype User = User(text: string, eventKey: Option<string>, sessionItemId: Option<string>)

  datatype Turn = Turn(user: User, messages: seq<Message>)

  // ---------------------------------------------------------------------------
  // The turns after an event
  // ---------------------------------------------------------------------------

  predicate HasKey(turn: Turn, key: string) {
    || turn.user.eventKey == Some(key)
    || exists i, j :: 0 <= i < |turn.messages| && 0 <= j < |turn.messages[i].parts|
                      && turn.messages[i].parts[j].eventKey == Some(key)
  }

  predicate KnowsKey(turns: seq<Turn>, key: string) {
    exists i :: 0 <= i < |turns| && HasKey(turns[i], key)
  }

  predicate Duplicate(turns: seq<Turn>, e: Event) {
    e.eventKey.Some? && KnowsKey(turns, e.eventKey.value)
  }

  /** The last turn with an assistant message in it, created as far as it is missing. */
  function Ensured(turns: seq<Turn>): (r: seq<Turn>)
    ensures r != [] && r[|r| - 1].messages != []
  {
    var some := if turns == [] then [Turn(User("", None, None), [])] else turns;
    var last := some[|some| - 1];
    if last.messages == [] then some[|some| - 1 := last.(messages := [Message("", [])])] else some
  }

  function CurrentParts(turns: seq<Turn>): seq<Item> {
    Ensured(turns)[|Ensured(turns)| - 1].messages[0].parts
  }

  /** The first message of the last turn gets new items, and its text is read off them. */
  function WithParts(turns: seq<Turn>, parts: seq<Item>): seq<Turn> {
    var some := Ensured(turns);
    var last := some[|some| - 1];
    some[|some| - 1 := last.(messages := last.messages[0 := Message(Joined(parts), parts)])]
  }

  function SettledItem(item: Item, key: Option<string>): Item {
    if item.Other? && item.awaiting then Mark(item.(awaiting := false), key) else item
  }

  function SettledMessage(m: Message, key: Option<string>): Message {
    m.(parts := seq(|m.parts|, i requires 0 <= i < |m.parts| => SettledItem(m.parts[i], key)))
  }

  function SettledTurn(turn: Turn, key: Option<string>): Turn {
    turn.(messages := seq(|turn.messages|, i requires 0 <= i < |turn.messages| => SettledMessage(turn.messages[i], key)))
  }

  /** Whatever awaits approval, in any turn, is settled. */
  function SettleAll(turns: seq<Turn>, key: Option<string>): seq<Turn> {
    seq(|turns|, i requires 0 <= i < |turns| => SettledTurn(turns[i], key))
  }

  datatype Merging = NotThere | AlreadyThere | Renames

  function MergingOf(turn: Turn, prompt: string, e: Event): Merging {
    if Present(e.sessionItemId) && turn.user.sessionItemId == e.sessionItemId then AlreadyThere
    else if e.eventKey.Some? && turn.user.eventKey == e.eventKey then AlreadyThere
    else if turn.user.text == prompt && turn.messages == [] then Renames
    else NotThere
  }

  function Renamed(user: User, e: Event): User {
    user.(eventKey := if e.eventKey.Some? then e.eventKey else user.eventKey,
          sessionItemId := if Present(e.sessionItemId) then e.sessionItemId else user.sessionItemId)
  }

  /** A user message that is already shown is merged into the first turn that shows it. */
  function MergedFrom(turns: seq<Turn>, prompt: string, e: Event, i: nat): seq<Turn>
    requires i <= |turns|
    decreases |turns| - i
  {
    if i == |turns| then turns + [Turn(User(prompt, e.eventKey, Truthy(e.sessionItemId)), [])]
    else match MergingOf(turns[i], prompt, e)
      case NotThere => MergedFrom(turns, prompt, e, i + 1)
      case AlreadyThere => turns
      case Renames => turns[i := turns[i].(user := Renamed(turns[i].user, e))]
  }

  function Step(turns: seq<Turn>, e: Event): seq<Turn> {
    if Duplicate(turns, e) then turns
    else if e.body.UserMessage? then
      if e.body.prompt == "" then turns else MergedFrom(turns, e.body.prompt, e, 0)
    else if !Touches(e.body) then turns
    else
      var before := if e.body.RunClosed? && e.body.settles then SettleAll(turns, e.eventKey) else turns;
      var after := WithParts(before, PartsAfter(CurrentParts(before), e.body, e.eventKey));
      if e.body.RunEnded? then SettleAll(after, e.eventKey) else after
  }

  function Fold(turns: seq<Turn>, events: seq<Event>): seq<Turn>
    decreases |events|
  {
    if events == [] then turns else Fold(Step(turns, events[0]), events[1..])
  }

  lemma {:induction false} FoldSnoc(turns: seq<Turn>, events: seq<Event>, e: Event)
    ensures Fold(turns, events + [e]) == Step(Fold(turns, events), e)
    decreases |events|
  {
    if events == [] {
      assert [] + [e] == [e];
    } else {
      assert (events + [e])[1..] == events[1..] + [e];
      FoldSnoc(Step(turns, events[0]), events[1..], e);
    }
  }

  // ---------------------------------------------------------------------------
  // The invariant
  // ---------------------------------------------------------------------------

  ghost predicate GoodMessage(m: Message) {
    m.text == Joined(m.parts) && OpenOnlyLast(m.parts)
  }

  ghost predicate GoodTurn(turn: Turn) {
    |turn.messages| <= 1 && (turn.messages != [] ==> GoodMessage(turn.messages[0]))
  }

  /** Every message's text is what its items say, and only its last item may be an open stream. */
  ghost predicate Good(turns: seq<Turn>) {
    forall i :: 0 <= i < |turns| ==> GoodTurn(turns[i])
  }

  function TextOfTurn(turn: Turn): string {
    if turn.messages == [] then "" else turn.messages[0].text
  }

  /** The text of the whole transcript, turn after turn. */
  function AllText(turns: seq<Turn>): string {
    if turns == [] then "" else AllText(turns[..|turns| - 1]) + TextOfTurn(turns[|turns| - 1])
  }

  lemma {:induction false} SameAllText(a: seq<Turn>, b: seq<Turn>)
    requires |a| == |b| && forall i :: 0 <= i < |a| ==> TextOfTurn(a[i]) == TextOfTurn(b[i])
    ensures AllText(a) == AllText(b)
    decreases |a|
  {
    if a != [] {
      SameAllText(a[..|a| - 1], b[..|b| - 1]);
    }
  }

  lemma NewTurn(turns: seq<Turn>, user: User)
    requires Good(turns)
    ensures Good(turns + [Turn(user, [])]) && AllText(turns + [Turn(user, [])]) == AllText(turns)
  {
    assert (turns + [Turn(user, [])])[..|turns|] == turns;
  }

  lemma PutTurn(turns: seq<Turn>, i: nat, turn: Turn)
    requires Good(turns) && i < |turns| && GoodTurn(turn)
    ensures Good(turns[i := turn])
    ensures TextOfTurn(turn) == TextOfTurn(turns[i]) ==> AllText(turns[i := turn]) == AllText(turns)
  {
    if TextOfTurn(turn) == TextOfTurn(turns[i]) {
      SameAllText(turns[i := turn], turns);
    }
  }

  lemma FirstTurnIsGood(turn: Turn)
    requires turn == Turn(User("", None, None), [Message("", [])])
    ensures Good([turn]) && AllText([turn]) == ""
  {
    assert GoodTurn(turn);
    assert [turn][..0] == [];
  }

  lemma EnsuredCases(turns: seq<Turn>)
    ensures turns == [] ==> Ensured(turns) == [Turn(User("", None, None), [Message("", [])])]
    ensures turns != [] && turns[|turns| - 1].messages == [] ==>
      Ensured(turns) == turns[|turns| - 1 := turns[|turns| - 1].(messages := [Message("", [])])]
    ensures turns != [] && turns[|turns| - 1].messages != [] ==> Ensured(turns) == turns
  {
  }

  lemma EnsuredIsGood(turns: seq<Turn>)
    requires Good(turns)
    ensures Good(Ensured(turns)) && AllText(Ensured(turns)) == AllText(turns)
  {
    EnsuredCases(turns);
    if turns == [] {
      FirstTurnIsGood(Turn(User("", None, None), [Message("", [])]));
    } else if turns[|turns| - 1].messages == [] {
      FilledIsGood(turns, |turns| - 1);
    }
  }

  lemma FilledIsGood(turns: seq<Turn>, i: nat)
    requires Good(turns) && i < |turns| && turns[i].messages == []
    ensures Good(turns[i := turns[i].(messages := [Message("", [])])])
    ensures AllText(turns[i := turns[i].(messages := [Message("", [])])]) == AllText(turns)
  {
    PutTurn(turns, i, turns[i].(messages := [Message("", [])]));
  }

  lemma PutLast(turns: seq<Turn>, turn: Turn)
    requires turns != []
    ensures AllText(turns[|turns| - 1 := turn]) == AllText(turns[..|turns| - 1]) + TextOfTurn(turn)
  {
    assert turns[|turns| - 1 := turn][..|turns| - 1] == turns[..|turns| - 1];
  }

  lemma WithPartsText(turns: seq<Turn>, parts: seq<Item>)
    requires Good(turns) && OpenOnlyLast(parts)
    ensures Good(WithParts(turns, parts))
    ensures AllText(WithParts(turns, parts)) == AllText(Ensured(turns)[..|Ensured(turns)| - 1]) + Joined(parts)
  {
    EnsuredIsGood(turns);
    var some := Ensured(turns);
    var last := some[|some| - 1];
    assert GoodTurn(last);
    var turn := last.(messages := last.messages[0 := Message(Joined(parts), parts)]);
    PutTurn(some, |some| - 1, turn);
    PutLast(some, turn);
  }

  lemma SettledPartsAre(parts: seq<Item>, key: Option<string>)
    requires OpenOnlyLast(parts)
    ensures var next := SettledMessage(Message("", parts), key).parts;
      OpenOnlyLast(next) && Joined(next) == Joined(parts)
  {
    SameTexts(SettledMessage(Message("", parts), key).parts, parts);
  }

  lemma SettleKeepsText(turns: seq<Turn>, key: Option<string>)
    requires Good(turns)
    ensures Good(SettleAll(turns, key)) && AllText(SettleAll(turns, key)) == AllText(turns)
  {
    var next := SettleAll(turns, key);
    forall i | 0 <= i < |turns| ensures GoodTurn(next[i]) && TextOfTurn(next[i]) == TextOfTurn(turns[i]) {
      assert GoodTurn(turns[i]);
      if turns[i].messages != [] {
        SettledPartsAre(turns[i].messages[0].parts, key);
      }
    }
    SameAllText(next, turns);
  }

  lemma RenameKeepsText(turns: seq<Turn>, i: nat, user: User)
    requires Good(turns) && i < |turns|
    ensures Good(turns[i := turns[i].(user := user)]) && AllText(turns[i := turns[i].(user := user)]) == AllText(turns)
  {
    assert GoodTurn(turns[i]);
    PutTurn(turns, i, turns[i].(user := user));
  }

  lemma {:induction false} MergeKeepsText(turns: seq<Turn>, prompt: string, e: Event, i: nat)
    requires Good(turns) && i <= |turns|
    ensures Good(MergedFrom(turns, prompt, e, i)) && AllText(MergedFrom(turns, prompt, e, i)) == AllText(turns)
    decreases |turns| - i
  {
    if i == |turns| {
      NewTurn(turns, User(prompt, e.eventKey, Truthy(e.sessionItemId)));
    } else {
      match MergingOf(turns[i], prompt, e)
      case NotThere => MergeKeepsText(turns, prompt, e, i + 1);
      case AlreadyThere =>
      case Renames => RenameKeepsText(turns, i, Renamed(turns[i].user, e));
    }
  }

  /** What an event adds to the streamed text: nothing if its key is already there. */
  function Streamed(turns: seq<Turn>, e: Event): string {
    if Duplicate(turns, e) then "" else DeltaOf(e.body)
  }

  lemma CurrentIsLast(turns: seq<Turn>)
    requires Good(turns)
    ensures OpenOnlyLast(CurrentParts(turns))
    ensures AllText(turns) == AllText(Ensured(turns)[..|Ensured(turns)| - 1]) + Joined(CurrentParts(turns))
  {
    EnsuredIsGood(turns);
    var some := Ensured(turns);
    assert GoodTurn(some[|some| - 1]);
  }

  lemma TouchText(turns: seq<Turn>, parts: seq<Item>, body: Body, key: Option<string>, after: seq<Item>)
    requires Good(turns) && Touches(body) && parts == CurrentParts(turns) && after == PartsAfter(parts, body, key)
    ensures Good(WithParts(turns, after))
    ensures !Finals(body) ==> AllText(WithParts(turns, after)) == AllText(turns) + DeltaOf(body)
  {
    CurrentIsLast(turns);
    EventText(parts, body, key);
    WithPartsText(turns, after);
    if !Finals(body) {
      Regroup(AllText(Ensured(turns)[..|Ensured(turns)| - 1]), Joined(parts), DeltaOf(body), AllText(turns), Joined(after),
              AllText(WithParts(turns, after)));
    }
  }

  lemma Regroup(earlier: string, was: string, added: string, before: string, now: string, after: string)
    requires before == earlier + was && now == was + added && after == earlier + now
    ensures after == before + added
  {
  }

  /** One event keeps the invariant, and unless it brings a final message it adds to the transcript's
      text exactly what it streams, at the end. */
  lemma StepText(turns: seq<Turn>, e: Event)
    requires Good(turns)
    ensures Good(Step(turns, e))
    ensures !Finals(e.body) ==> AllText(Step(turns, e)) == AllText(turns) + Streamed(turns, e)
  {
    if Duplicate(turns, e) {
    } else if e.body.UserMessage? {
      MergeKeepsText(turns, e.body.prompt, e, 0);
    } else if Touches(e.body) {
      SettleKeepsText(turns, e.eventKey);
      var before := if e.body.RunClosed? && e.body.settles then SettleAll(turns, e.eventKey) else turns;
      TouchText(before, CurrentParts(before), e.body, e.eventKey, PartsAfter(CurrentParts(before), e.body, e.eventKey));
      SettleKeepsText(WithParts(before, PartsAfter(CurrentParts(before), e.body, e.eventKey)), e.eventKey);
    }
  }

  /** The invariant holds after any batch of events. */
  lemma {:induction false} RunKeepsGood(turns: seq<Turn>, events: seq<Event>)
    requires Good(turns)
    ensures Good(Fold(turns, events))
    decreases |events|
  {
    if events != [] {
      StepText(turns, events[0]);
      RunKeepsGood(Step(turns, events[0]), events[1..]);
    }
  }

  function StreamedAll(turns: seq<Turn>, events: seq<Event>): string
    decreases |events|
  {
    if events == [] then "" else Streamed(turns, events[0]) + StreamedAll(Step(turns, events[0]), events[1..])
  }

  lemma GrowTwice(before: string, first: string, rest: string, next: string, end: string)
    requires next == before + first && end == next + rest
    ensures end == before + (first + rest)
  {
  }

  /** Without final messages the transcript's text grows by exactly the accepted deltas, in order,
      whatever else comes in between. */
  lemma {:induction false} StreamingIsExact(turns: seq<Turn>, events: seq<Event>)
    requires Good(turns) && forall i :: 0 <= i < |events| ==> !Finals(events[i].body)
    ensures AllText(Fold(turns, events)) == AllText(turns) + StreamedAll(turns, events)
    decreases |events|
  {
    if events != [] {
      var next := Step(turns, events[0]);
      StepText(turns, events[0]);
      StreamingIsExact(next, events[1..]);
      GrowTwice(AllText(turns), Streamed(turns, events[0]), StreamedAll(next, events[1..]), AllText(next), AllText(Fold(next, events[1..])));
    }
  }

  // ---------------------------------------------------------------------------
  // What stays where it is
  // ---------------------------------------------------------------------------

  ghost predicate TurnContinues(a: Turn, b: Turn) {
    && a.user.text == b.user.text && |a.messages| <= |b.messages|
    && forall j :: 0 <= j < |a.messages| ==> Preserves(a.messages[j].parts, b.messages[j].parts)
  }

  /** No turn, message or item is lost or moved. */
  ghost predicate Grows(a: seq<Turn>, b: seq<Turn>) {
    |a| <= |b| && forall i :: 0 <= i < |a| ==> TurnContinues(a[i], b[i])
  }

  lemma SameTurn(a: Turn)
    ensures TurnContinues(a, a)
  {
    forall j | 0 <= j < |a.messages| ensures Preserves(a.messages[j].parts, a.messages[j].parts) {
      SamePreserves(a.messages[j].parts);
    }
  }

  lemma TurnTrans(a: Turn, b: Turn, c: Turn)
    requires TurnContinues(a, b) && TurnContinues(b, c)
    ensures TurnContinues(a, c)
  {
    forall j | 0 <= j < |a.messages| ensures Preserves(a.messages[j].parts, c.messages[j].parts) {
      PreservesTrans(a.messages[j].parts, b.messages[j].parts, c.messages[j].parts);
    }
  }

  lemma GrowsTrans(a: seq<Turn>, b: seq<Turn>, c: seq<Turn>)
    requires Grows(a, b) && Grows(b, c)
    ensures Grows(a, c)
  {
    forall i | 0 <= i < |a| ensures TurnContinues(a[i], c[i]) {
      TurnTrans(a[i], b[i], c[i]);
    }
  }

  lemma GrowsAt(turns: seq<Turn>, i: nat, turn: Turn)
    requires i < |turns| && TurnContinues(turns[i], turn)
    ensures Grows(turns, turns[i := turn])
  {
    forall k | 0 <= k < |turns| ensures TurnContinues(turns[k], turns[i := turn][k]) {
      SameTurn(turns[k]);
    }
  }

  lemma GrowsBy(turns: seq<Turn>, more: seq<Turn>)
    ensures Grows(turns, turns + more)
  {
    forall k | 0 <= k < |turns| ensures TurnContinues(turns[k], (turns + more)[k]) {
      SameTurn(turns[k]);
    }
  }

  lemma EnsuredGrows(turns: seq<Turn>)
    ensures Grows(turns, Ensured(turns))
  {
    if turns != [] {
      var last := turns[|turns| - 1];
      SameTurn(last);
      if last.messages == [] {
        GrowsAt(turns, |turns| - 1, last.(messages := [Message("", [])]));
      } else {
        GrowsBy(turns, []);
        assert turns + [] == turns;
      }
    }
  }

  lemma CurrentTurnContinues(last: Turn, parts: seq<Item>)
    requires last.messages != [] && Preserves(last.messages[0].parts, parts)
    ensures TurnContinues(last, last.(messages := last.messages[0 := Message(Joined(parts), parts)]))
  {
    forall j | 0 <= j < |last.messages|
      ensures Preserves(last.messages[j].parts, last.messages[0 := Message(Joined(parts), parts)][j].parts)
    {
      SamePreserves(last.messages[j].parts);
    }
  }

  lemma WithPartsGrows(turns: seq<Turn>, parts: seq<Item>)
    requires Preserves(CurrentParts(turns), parts)
    ensures Grows(turns, WithParts(turns, parts))
  {
    var some := Ensured(turns);
    var last := some[|some| - 1];
    EnsuredGrows(turns);
    CurrentTurnContinues(last, parts);
    GrowsAt(some, |some| - 1, last.(messages := last.messages[0 := Message(Joined(parts), parts)]));
    GrowsTrans(turns, some, WithParts(turns, parts));
  }

  lemma SettledPreserves(m: Message, key: Option<string>)
    ensures Preserves(m.parts, SettledMessage(m, key).parts)
  {
    SamePreserves(m.parts);
  }

  lemma SettleGrows(turns: seq<Turn>, key: Option<string>)
    ensures Grows(turns, SettleAll(turns, key))
  {
    forall i | 0 <= i < |turns| ensures TurnContinues(turns[i], SettledTurn(turns[i], key)) {
      forall j | 0 <= j < |turns[i].messages|
        ensures Preserves(turns[i].messages[j].parts, SettledMessage(turns[i].messages[j], key).parts)
      {
        SettledPreserves(turns[i].messages[j], key);
      }
    }
  }

  lemma {:induction false} MergeGrows(turns: seq<Turn>, prompt: string, e: Event, i: nat)
    requires i <= |turns|
    ensures Grows(turns, MergedFrom(turns, prompt, e, i))
    decreases |turns| - i
  {
    if i == |turns| {
      GrowsBy(turns, [Turn(User(prompt, e.eventKey, Truthy(e.sessionItemId)), [])]);
    } else {
      match MergingOf(turns[i], prompt, e)
      case NotThere => MergeGrows(turns, prompt, e, i + 1);
      case AlreadyThere => NothingGrows(turns);
      case Renames =>
        SameTurn(turns[i]);
        GrowsAt(turns, i, turns[i].(user := Renamed(turns[i].user, e)));
    }
  }

  lemma NothingGrows(turns: seq<Turn>)
    ensures Grows(turns, turns)
  {
    GrowsBy(turns, []);
    assert turns + [] == turns;
  }

  lemma TouchGrows(turns: seq<Turn>, body: Body, key: Option<string>)
    requires Touches(body)
    ensures Grows(turns, WithParts(turns, PartsAfter(CurrentParts(turns), body, key)))
  {
    EventPreserves(CurrentParts(turns), body, key);
    WithPartsGrows(turns, PartsAfter(CurrentParts(turns), body, key));
  }

  lemma StepGrows(turns: seq<Turn>, e: Event)
    ensures Grows(turns, Step(turns, e))
  {
    if Duplicate(turns, e) || (!e.body.UserMessage? && !Touches(e.body)) || (e.body.UserMessage? && e.body.prompt == "") {
      NothingGrows(turns);
    } else if e.body.UserMessage? {
      MergeGrows(turns, e.body.prompt, e, 0);
    } else {
      var before := if e.body.RunClosed? && e.body.settles then SettleAll(turns, e.eventKey) else turns;
      var after := WithParts(before, PartsAfter(CurrentParts(before), e.body, e.eventKey));
      NothingGrows(turns);
      SettleGrows(turns, e.eventKey);
      TouchGrows(before, e.body, e.eventKey);
      GrowsTrans(turns, before, after);
      SettleGrows(after, e.eventKey);
      GrowsTrans(turns, after, SettleAll(after, e.eventKey));
    }
  }

  /** Whatever the events, every turn and item stays where it is, closed text stays word for word, and
      user messages keep their text. */
  lemma {:induction false} RunGrows(turns: seq<Turn>, events: seq<Event>)
    ensures Grows(turns, Fold(turns, events))
    decreases |events|
  {
    if events == [] {
      NothingGrows(turns);
    } else {
      var next := Step(turns, events[0]);
      StepGrows(turns, events[0]);
      RunGrows(next, events[1..]);
      GrowsTrans(turns, next, Fold(next, events[1..]));
    }
  }

  // ---------------------------------------------------------------------------
  // Which events are accepted
  // ---------------------------------------------------------------------------

  ghost predicate ItemKeysWithin(parts: seq<Item>, keys: set<string>) {
    forall i :: 0 <= i < |parts| && parts[i].eventKey.Some? ==> parts[i].eventKey.value in keys
  }

  ghost predicate TurnKeysWithin(turn: Turn, keys: set<string>) {
    && (turn.user.eventKey.Some? ==> turn.user.eventKey.value in keys)
    && forall i :: 0 <= i < |turn.messages| ==> ItemKeysWithin(turn.messages[i].parts, keys)
  }

  ghost predicate AllKeysWithin(turns: seq<Turn>, keys: set<string>) {
    forall i :: 0 <= i < |turns| ==> TurnKeysWithin(turns[i], keys)
  }

  function KeyOf(e: Event): set<string> {
    if e.eventKey.Some? then {e.eventKey.value} else {}
  }

  lemma UnknownKey(turns: seq<Turn>, keys: set<string>, key: string)
    requires AllKeysWithin(turns, keys) && key !in keys
    ensures !KnowsKey(turns, key)
  {
    forall i | 0 <= i < |turns| ensures !HasKey(turns[i], key) {
      assert TurnKeysWithin(turns[i], keys);
    }
  }

  lemma AppendKeys(parts: seq<Item>, item: Item, keys: set<string>)
    requires ItemKeysWithin(parts, keys) && (item.eventKey.Some? ==> item.eventKey.value in keys)
    ensures ItemKeysWithin(Append(parts, item), keys)
  {
    var next := Append(parts, item);
    forall i | 0 <= i < |next| && next[i].eventKey.Some? ensures next[i].eventKey.value in keys {
      assert next[i] == if i == |parts| then item else if i == |parts| - 1 then Closed(parts[i]) else parts[i];
    }
  }

  lemma FinishKeys(parts: seq<Item>, keys: set<string>)
    requires ItemKeysWithin(parts, keys)
    ensures ItemKeysWithin(Finish(parts), keys)
  {
    FinishText(parts);
  }

  lemma NoticeKeys(parts: seq<Item>, level: NoticeLevel, content: string, key: Option<string>, keys: set<string>)
    requires ItemKeysWithin(parts, keys) && (key.Some? ==> key.value in keys)
    ensures ItemKeysWithin(AddNotice(parts, level, content, key), keys)
  {
    if Clean(content) != "" {
      AppendKeys(parts, Notice(level, Clean(content), key), keys);
    }
  }

  lemma StreamKeys(parts: seq<Item>, content: string, key: Option<string>, keys: set<string>)
    requires ItemKeysWithin(parts, keys) && (key.Some? ==> key.value in keys)
    ensures ItemKeysWithin(AddDelta(parts, content, key), keys) && ItemKeysWithin(AddFinal(parts, content, key), keys)
  {
    AppendKeys(parts, AssistantText(content, AssistantStream, true, key), keys);
    AppendKeys(parts, AssistantText(content, AssistantMessage, false, key), keys);
  }

  /** An event brings in no key but its own. */
  lemma PartKeys(parts: seq<Item>, body: Body, key: Option<string>, keys: set<string>)
    requires Touches(body) && ItemKeysWithin(parts, keys) && (key.Some? ==> key.value in keys)
    ensures ItemKeysWithin(PartsAfter(parts, body, key), keys)
  {
    match body
    case AssistantDelta(content) => StreamKeys(parts, StripAnsi(content), key, keys);
    case AssistantFinal(content) => StreamKeys(parts, Clean(content), key, keys);
    case ReasoningDelta(content) => AppendKeys(parts, Thinking(StripAnsi(content), true, key), keys);
    case ReasoningFinal(raw, summary) =>
      AppendKeys(parts, Reasoning(StripAnsi(summary), if StripAnsi(raw) != "" then StripAnsi(raw) else StripAnsi(summary), key), keys);
    case NoticeText(level, content) => NoticeKeys(parts, level, content, key, keys);
    case Structured(kind, id, content, awaiting, _) => AppendKeys(parts, Other(kind, id, content, awaiting, key), keys);
    case UpsertById(kind, id, content) => AppendKeys(parts, Other(kind, id, content, false, key), keys);
    case RunClosed(level, notice, onlyOnce, _) =>
      NoticeKeys(parts, level, notice, key, keys);
      FinishKeys(if onlyOnce && HasNotice(parts, level) then parts else AddNotice(parts, level, notice, key), keys);
    case RunEnded(response, rendered) =>
      StreamKeys(parts, Clean(response), key, keys);
      FinishKeys(if Clean(response) == "" || rendered then parts else AddFinal(parts, Clean(response), key), keys);
  }

  lemma EnsuredKeys(turns: seq<Turn>, keys: set<string>)
    requires AllKeysWithin(turns, keys)
    ensures AllKeysWithin(Ensured(turns), keys) && ItemKeysWithin(CurrentParts(turns), keys)
  {
    var some := Ensured(turns);
    forall i | 0 <= i < |some| ensures TurnKeysWithin(some[i], keys) {
      if i < |turns| {
        assert TurnKeysWithin(turns[i], keys);
      }
    }
    assert TurnKeysWithin(some[|some| - 1], keys);
  }

  lemma SettleKeys(turns: seq<Turn>, key: Option<string>, keys: set<string>)
    requires AllKeysWithin(turns, keys) && (key.Some? ==> key.value in keys)
    ensures AllKeysWithin(SettleAll(turns, key), keys)
  {
    forall i | 0 <= i < |turns| ensures TurnKeysWithin(SettledTurn(turns[i], key), keys) {
      assert TurnKeysWithin(turns[i], keys);
      forall j | 0 <= j < |turns[i].messages| ensures ItemKeysWithin(SettledMessage(turns[i].messages[j], key).parts, keys) {
        assert ItemKeysWithin(turns[i].messages[j].parts, keys);
      }
    }
  }

  lemma WithPartsKeys(turns: seq<Turn>, parts: seq<Item>, keys: set<string>)
    requires AllKeysWithin(turns, keys) && ItemKeysWithin(parts, keys)
    ensures AllKeysWithin(WithParts(turns, parts), keys)
  {
    EnsuredKeys(turns, keys);
    var some, next := Ensured(turns), WithParts(turns, parts);
    forall i | 0 <= i < |next| ensures TurnKeysWithin(next[i], keys) {
      assert TurnKeysWithin(some[i], keys);
    }
  }

  lemma {:induction false} MergeKeys(turns: seq<Turn>, prompt: string, e: Event, i: nat, keys: set<string>)
    requires AllKeysWithin(turns, keys) && KeyOf(e) <= keys && i <= |turns|
    ensures AllKeysWithin(MergedFrom(turns, prompt, e, i), keys)
    decreases |turns| - i
  {
    if i < |turns| && MergingOf(turns[i], prompt, e).NotThere? {
      MergeKeys(turns, prompt, e, i + 1, keys);
    }
  }

  lemma StepKeys(turns: seq<Turn>, e: Event, keys: set<string>)
    requires AllKeysWithin(turns, keys) && KeyOf(e) <= keys
    ensures AllKeysWithin(Step(turns, e), keys)
  {
    var key := e.eventKey;
    assert key.Some? ==> key.value in KeyOf(e);
    if Duplicate(turns, e) {
    } else if e.body.UserMessage? {
      MergeKeys(turns, e.body.prompt, e, 0, keys);
    } else if Touches(e.body) {
      SettleKeys(turns, key, keys);
      var before := if e.body.RunClosed? && e.body.settles then SettleAll(turns, key) else turns;
      EnsuredKeys(before, keys);
      PartKeys(CurrentParts(before), e.body, key, keys);
      WithPartsKeys(before, PartsAfter(CurrentParts(before), e.body, key), keys);
      SettleKeys(WithParts(before, PartsAfter(CurrentParts(before), e.body, key)), key, keys);
    }
  }

  /** All deltas of a batch, stripped, in order. */
  function Deltas(events: seq<Event>): string {
    if events == [] then "" else DeltaOf(events[0].body) + Deltas(events[1..])
  }

  /** Events whose keys are new and differ from one another. */
  ghost predicate Fresh(events: seq<Event>, keys: set<string>)
    decreases |events|
  {
    events != [] ==> KeyOf(events[0]) !! keys && Fresh(events[1..], keys + KeyOf(events[0]))
  }

  /** Fresh events are all accepted: what is streamed is every delta. */
  lemma {:induction false} FreshAreStreamed(turns: seq<Turn>, events: seq<Event>, keys: set<string>)
    requires AllKeysWithin(turns, keys) && Fresh(events, keys)
    ensures StreamedAll(turns, events) == Deltas(events)
    decreases |events|
  {
    if events != [] {
      var e := events[0];
      var next := Step(turns, e);
      if e.eventKey.Some? {
        assert e.eventKey.value in KeyOf(e);
        UnknownKey(turns, keys, e.eventKey.value);
      }
      GrowKeys(turns, keys, keys + KeyOf(e));
      StepKeys(turns, e, keys + KeyOf(e));
      FreshAreStreamed(next, events[1..], keys + KeyOf(e));
    }
  }

  lemma GrowKeys(turns: seq<Turn>, keys: set<string>, more: set<string>)
    requires AllKeysWithin(turns, keys) && keys <= more
    ensures AllKeysWithin(turns, more)
  {
    forall i | 0 <= i < |turns| ensures TurnKeysWithin(turns[i], more) {
      assert TurnKeysWithin(turns[i], keys);
      forall j | 0 <= j < |turns[i].messages| ensures ItemKeysWithin(turns[i].messages[j].parts, more) {
        assert ItemKeysWithin(turns[i].messages[j].parts, keys);
      }
    }
  }

  /** Loss-free streaming: from an empty transcript, under any interleaving of fresh events none of
      which is a final message, the text is exactly all deltas in order. */
  lemma StreamingLosesNothing(events: seq<Event>)
    requires Fresh(events, {}) && forall i :: 0 <= i < |events| ==> !Finals(events[i].body)
    ensures Good(Fold([], events))
    ensures AllText(Fold([], events)) == Deltas(events)
  {
    RunKeepsGood([], events);
    StreamingIsExact([], events);
    FreshAreStreamed([], events, {});
  }

  // ---------------------------------------------------------------------------
  // The event loop
  // ---------------------------------------------------------------------------

  class Bundle {
    var turns: seq<Turn>

    constructor (turns: seq<Turn>)
      ensures this.turns == turns
    {
      this.turns := turns;
    }

    method EnsureAssistantMessage()
      modifies this
      ensures turns == Ensured(old(turns))
    {
      if turns == [] {
        turns := [Turn(User("", None, None), [])];
      }
      var last := turns[|turns| - 1];
      if last.messages == [] {
        turns := turns[|turns| - 1 := last.(messages := [Message("", [])])];
      }
    }

    /** Gives the current message new items and reads its text off them, item by item. */
    method UpdateAssistantItems(body: Body, key: Option<string>)
      requires Touches(body)
      modifies this
      ensures turns == WithParts(old(turns), PartsAfter(CurrentParts(old(turns)), body, key))
    {
      EnsureAssistantMessage();
      var last := turns[|turns| - 1];
      var parts := PartsAfter(last.messages[0].parts, body, key);
      var text, i := "", 0;
      while i < |parts|
        invariant 0 <= i <= |parts|
        invariant text == Joined(parts[..i])
        invariant turns == Ensured(old(turns))
      {
        assert parts[..i + 1] == parts[..i] + [parts[i]];
        JoinedConcat(parts[..i], [parts[i]]);
        assert Joined([parts[i]]) == TextOfItem(parts[i]);
        if parts[i].AssistantText? {
          text := text + parts[i].markdown;
        }
        i := i + 1;
      }
      assert parts[..|parts|] == parts;
      turns := turns[|turns| - 1 := last.(messages := last.messages[0 := Message(text, parts)])];
    }

    /** Merges a user message into a turn that shows it already; tells whether there was one. */
    method MergeRenderedUserMessage(prompt: string, e: Event) returns (merged: bool)
      modifies this
      ensures merged ==> turns == MergedFrom(old(turns), prompt, e, 0)
      ensures !merged ==> turns == old(turns)
                          && MergedFrom(turns, prompt, e, 0) == turns + [Turn(User(prompt, e.eventKey, Truthy(e.sessionItemId)), [])]
    {
      var i := 0;
      while i < |turns|
        invariant 0 <= i <= |turns| && turns == old(turns)
        invariant MergedFrom(turns, prompt, e, 0) == MergedFrom(turns, prompt, e, i)
      {
        match MergingOf(turns[i], prompt, e) {
          case AlreadyThere => return true;
          case Renames =>
            turns := turns[i := turns[i].(user := Renamed(turns[i].user, e))];
            return true;
          case NotThere =>
        }
        i := i + 1;
      }
      return false;
    }

    method ApplyEvent(e: Event) returns (changed: bool)
      modifies this
      ensures turns == Step(old(turns), e)
      ensures !changed ==> turns == old(turns)
    {
      if e.eventKey.Some? && KnowsKey(turns, e.eventKey.value) {
        return false;
      }
      if e.body.UserMessage? {
        if e.body.prompt != "" {
          var merged := MergeRenderedUserMessage(e.body.prompt, e);
          if !merged {
            turns := turns + [Turn(User(e.body.prompt, e.eventKey, Truthy(e.sessionItemId)), [])];
          }
        }
        return true;
      }
      if e.body.RunClosed? && e.body.settles {
        turns := SettleAll(turns, e.eventKey);
      }
      if Touches(e.body) {
        UpdateAssistantItems(e.body, e.eventKey);
      }
      if e.body.RunEnded? {
        turns := SettleAll(turns, e.eventKey);
      }
      return true;
    }
  }

  /** Applies a batch to a clone; the bundle itself is handed back if nothing changed. */
  method ApplyEvents(bundle: Bundle, events: seq<Event>) returns (result: Bundle, changed: bool)
    ensures bundle.turns == old(bundle.turns)
    ensures result.turns == Fold(old(bundle.turns), events)
    ensures result == bundle || fresh(result)
    ensures changed || result == bundle
    ensures Good(old(bundle.turns)) ==> Good(result.turns)
  {
    if events == [] {
      return bundle, false;
    }
    var next := new Bundle(bundle.turns);
    changed := false;
    var i := 0;
    while i < |events|
      invariant 0 <= i <= |events|
      invariant fresh(next) && bundle.turns == old(bundle.turns)
      invariant next.turns == Fold(bundle.turns, events[..i])
      invariant !changed ==> next.turns == bundle.turns
    {
      assert events[..i + 1] == events[..i] + [events[i]];
      FoldSnoc(bundle.turns, events[..i], events[i]);
      var touched := next.ApplyEvent(events[i]);
      changed := touched || changed;
      i := i + 1;
    }
    assert events[..i] == events;
    if Good(bundle.turns) {
      RunKeepsGood(bundle.turns, events);
    }
    result := if changed then next else bundle;
  }
}
