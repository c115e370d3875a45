// What codex says of a turn, gathered (internal/codexbridge/bridge.go).

module Bridge {
  import opened Options
  import opened Turns

  /** A thread item: an agent message, with whether its phase marks it the final answer,
      or anything else. */
  datatype Item = AgentMessage(id: string, text: string, finalAnswer: bool) | OtherItem

  /** What has been heard of one turn: its completed items and, by message id, the text
      streamed so far. */
  datatype TurnItems = TurnItems(items: seq<Item>, messages: map<string, string>)

  const NOTHING := TurnItems([], map[])

  datatype Event =
    | ItemCompleted(turnID: string, item: Item)
    | Delta(turnID: string, itemID: string, delta: string)
    | TurnCompleted(turnID: string)
    | ErrorNotified

  function Gathered(items: map<string, TurnItems>, turnID: string): TurnItems {
    if turnID in items then items[turnID] else NOTHING
  }

  /** The bridge's items after an event. */
  function Handle(items: map<string, TurnItems>, e: Event): map<string, TurnItems> {
    match e
    case ItemCompleted(turnID, item) =>
      var g := Gathered(items, turnID);
      items[turnID := g.(items := g.items + [item])]
    case Delta(turnID, itemID, delta) =>
      if turnID == "" || itemID == "" || delta == "" then items
      else
        var g := Gathered(items, turnID);
        var text := if itemID in g.messages then g.messages[itemID] else "";
        items[turnID := g.(messages := g.messages[itemID := text + delta])]
    case TurnCompleted(turnID) => items - {turnID}
    case ErrorNotified => items
  }

  function HandleAll(events: seq<Event>): map<string, TurnItems> {
    if events == [] then map[] else Handle(HandleAll(events[..|events| - 1]), events[|events| - 1])
  }

  /** The items the merge starts from. */
  function Base(items: seq<Item>, g: TurnItems): seq<Item> {
    if items == [] && g.items != [] then g.items else items
  }

  ghost function SeenIDs(items: seq<Item>): set<string> {
    set i | 0 <= i < |items| && items[i].AgentMessage? && items[i].id != "" :: items[i].id
  }

  /** The streamed messages no item carries, in the order the map yields them. */
  ghost function Unseen(g: TurnItems, seen: set<string>, order: seq<string>): seq<Item>
    requires forall id | id in order :: id in g.messages
  {
    if order == [] then [] else
      var rest := Unseen(g, seen, order[..|order| - 1]);
      var id := order[|order| - 1];
      if id in seen then rest else rest + [AgentMessage(id, g.messages[id], false)]
  }

  /** An order a map may yield its keys in: each once. */
  ghost predicate IsOrder(order: seq<string>, keys: set<string>) {
    && (forall id | id in order :: id in keys)
    && (forall id | id in keys :: id in order)
    && forall i, j | 0 <= i < j < |order| :: order[i] != order[j]
  }

  ghost function Merged(items: seq<Item>, g: TurnItems, order: seq<string>): seq<Item>
    requires IsOrder(order, g.messages.Keys)
  {
    Base(items, g) + Unseen(g, SeenIDs(Base(items, g)), order)
  }

  function FirstFinal(items: seq<Item>): Option<string> {
    if items == [] then None
    else if items[0].AgentMessage? && items[0].finalAnswer then Some(items[0].text)
    else FirstFinal(items[1..])
  }

  function LastMessage(items: seq<Item>): Option<string> {
    if items == [] then None
    else if items[|items| - 1].AgentMessage? then Some(items[|items| - 1].text)
    else LastMessage(items[..|items| - 1])
  }

  /** The answer, or nothing for ErrMissingAgentMessage. */
  function Answer(items: seq<Item>): Option<string> {
    if FirstFinal(items).Some? then FirstFinal(items) else LastMessage(items)
  }

  method ExtractFinalAnswer(items: seq<Item>) returns (answer: Option<string>)
    ensures answer == Answer(items)
  {
    var i := 0;
    while i < |items|
      invariant 0 <= i <= |items|
      invariant FirstFinal(items) == FirstFinal(items[i..])
    {
      if items[i].AgentMessage? && items[i].finalAnswer {
        return Some(items[i].text);
      }
      i := i + 1;
    }
    assert items[..i] == items;
    while i > 0
      invariant 0 <= i <= |items|
      invariant LastMessage(items) == LastMessage(items[..i])
    {
      i := i - 1;
      assert items[..i + 1][..i] == items[..i];
      if items[i].AgentMessage? {
        return Some(items[i].text);
      }
    }
    return None;
  }

  method MergeTurnItems(items: seq<Item>, g: TurnItems) returns (merged: seq<Item>, ghost order: seq<string>)
    ensures IsOrder(order, g.messages.Keys)
    ensures merged == Merged(items, g, order)
    ensures exists o :: IsOrder(o, g.messages.Keys) && merged == Merged(items, g, o)
  {
    merged := if items == [] && g.items != [] then g.items else items;
    order := [];
    if g.messages == map[] {
      return;
    }
    var base := merged;
    var seen: set<string> := {};
    for i := 0 to |base|
      invariant seen == SeenIDs(base[..i])
    {
      SeenIDsNext(base, i);
      if base[i].AgentMessage? && base[i].id != "" {
        seen := seen + {base[i].id};
      }
    }
    assert base[..|base|] == base;
    var left := g.messages.Keys;
    while left != {}
      invariant left <= g.messages.Keys
      invariant IsOrder(order, g.messages.Keys - left)
      invariant merged == base + Unseen(g, seen, order)
      decreases |left|
    {
      var id :| id in left;
      left := left - {id};
      assert (order + [id])[..|order|] == order;
      order := order + [id];
      if id !in seen {
        merged := merged + [AgentMessage(id, g.messages[id], false)];
      }
    }
    assert g.messages.Keys - left == g.messages.Keys;
  }

  lemma {:induction false} SeenIDsNext(items: seq<Item>, i: nat)
    requires i < |items|
    ensures SeenIDs(items[..i + 1]) ==
      SeenIDs(items[..i]) + if items[i].AgentMessage? && items[i].id != "" then {items[i].id} else {}
  {
    var before, after := items[..i], items[..i + 1];
    forall id | id in SeenIDs(before) ensures id in SeenIDs(after) {
      var k :| 0 <= k < |before| && before[k].AgentMessage? && before[k].id != "" && before[k].id == id;
      assert after[k].AgentMessage? && after[k].id != "" && after[k].id == id;
    }
    if items[i].AgentMessage? && items[i].id != "" {
      assert after[i].id in SeenIDs(after);
    }
    forall id | id in SeenIDs(after)
      ensures id in SeenIDs(before) || (items[i].AgentMessage? && items[i].id != "" && id == items[i].id)
    {
      var k :| 0 <= k < |after| && after[k].AgentMessage? && after[k].id != "" && after[k].id == id;
      if k < i {
        assert before[k].id in SeenIDs(before);
      }
    }
  }

  /** Where a notification's result goes: to one turn, to the active one, or nowhere. */
  datatype Outcome = ToTurn(result: TurnResult) | ToActive(result: TurnResult) | Unsaid

  class Bridge {
    var items: map<string, TurnItems>

    constructor ()
      ensures items == map[]
    {
      items := map[];
    }

    method ItemsForTurn(turnID: string) returns (g: TurnItems)
      modifies this
      ensures g == Gathered(old(items), turnID) && items == old(items)[turnID := g]
    {
      if turnID !in items {
        items := items[turnID := NOTHING];
      }
      g := items[turnID];
    }

    method OnItemCompleted(turnID: string, item: Item)
      modifies this
      ensures items == Handle(old(items), ItemCompleted(turnID, item))
    {
      var g := ItemsForTurn(turnID);
      items := items[turnID := g.(items := g.items + [item])];
    }

    method OnAgentMessageDelta(turnID: string, itemID: string, delta: string)
      modifies this
      ensures items == Handle(old(items), Delta(turnID, itemID, delta))
    {
      if turnID == "" || itemID == "" || delta == "" {
        return;
      }
      var g := ItemsForTurn(turnID);
      var text := if itemID in g.messages then g.messages[itemID] else "";
      items := items[turnID := g.(messages := g.messages[itemID := text + delta])];
    }

    method OnTurnCompleted(threadID: string, turnID: string, turnItems: seq<Item>)
      returns (result: TurnResult, ghost order: seq<string>)
      modifies this
      ensures items == Handle(old(items), TurnCompleted(turnID))
      ensures IsOrder(order, Gathered(old(items), turnID).messages.Keys)
      ensures result == CompletedResult(threadID, turnID, Answer(Merged(turnItems, Gathered(old(items), turnID), order)))
      ensures Carries(result, threadID, turnID, Answer(Merged(turnItems, Gathered(old(items), turnID), order)))
    {
      order := [];
      var all := turnItems;
      if turnID in items {
        all, order := MergeTurnItems(turnItems, items[turnID]);
      } else {
        assert turnItems + [] == turnItems;
      }
      items := items - {turnID};
      var answer := ExtractFinalAnswer(all);
      match answer {
        case Some(message) => result := TurnResult(threadID, turnID, message, None);
        case None => result := TurnResult(threadID, turnID, "", Some(MissingAgentMessage));
      }
    }

    method OnError(threadID: string, turnID: string, message: string, willRetry: bool, details: Option<string>)
      returns (outcome: Outcome)
      ensures outcome == ErrorOutcome(threadID, turnID, message, willRetry, details)
      ensures outcome.Unsaid? <==> willRetry
      ensures !outcome.Unsaid? ==>
        && (outcome.ToActive? <==> turnID == "")
        && outcome.result == TurnResult(threadID, turnID, "", Some(
             Notification(threadID, turnID, message, false, if details.Some? then details.value else "")))
    {
      var text := "";
      if details.Some? {
        text := details.value;
      }
      if willRetry {
        return Unsaid;
      }
      var result := TurnResult(threadID, turnID, "", Some(Notification(threadID, turnID, message, willRetry, text)));
      if turnID == "" {
        return ToActive(result);
      }
      return ToTurn(result);
    }
  }

  /** The result is the turn's, and carries the answer, or says there is none. */
  predicate Carries(result: TurnResult, threadID: string, turnID: string, answer: Option<string>) {
    && result.threadID == threadID && result.turnID == turnID
    && (answer.Some? ==> result.err.None? && result.message == answer.value)
    && (answer.None? ==> result.err == Some(MissingAgentMessage) && result.message == "")
  }

  function CompletedResult(threadID: string, turnID: string, answer: Option<string>): TurnResult {
    match answer
    case Some(message) => TurnResult(threadID, turnID, message, None)
    case None => TurnResult(threadID, turnID, "", Some(MissingAgentMessage))
  }

  function ErrorOutcome(threadID: string, turnID: string, message: string, willRetry: bool, details: Option<string>): Outcome {
    if willRetry then Unsaid
    else
      var text := if details.Some? then details.value else "";
      var result := TurnResult(threadID, turnID, "", Some(Notification(threadID, turnID, message, false, text)));
      if turnID == "" then ToActive(result) else ToTurn(result)
  }

  /** The text streamed for one message of one turn since the turn last completed: its
      deltas joined in the order they arrived. */
  function Joined(events: seq<Event>, turnID: string, itemID: string): string {
    if events == [] then "" else
      var before, last := Joined(events[..|events| - 1], turnID, itemID), events[|events| - 1];
      match last
      case Delta(t, i, delta) => if t == turnID && i == itemID then before + delta else before
      case TurnCompleted(t) => if t == turnID then "" else before
      case _ => before
  }

  /** The items completed in one turn since it last completed. */
  function ItemsOf(events: seq<Event>, turnID: string): seq<Item> {
    if events == [] then [] else
      var before, last := ItemsOf(events[..|events| - 1], turnID), events[|events| - 1];
      match last
      case ItemCompleted(t, item) => if t == turnID then before + [item] else before
      case TurnCompleted(t) => if t == turnID then [] else before
      case _ => before
  }

  /** Deltas join in arrival order and never leak: after any events the bridge holds, for
      every turn, exactly the messages something was streamed for, each with its own turn's
      deltas, and exactly its own turn's items. */
  lemma {:induction false} GathersItsOwn(events: seq<Event>, turnID: string)
    requires turnID != ""
    ensures
      var g := Gathered(HandleAll(events), turnID);
      && g.items == ItemsOf(events, turnID)
      && "" !in g.messages
      && forall itemID | itemID != "" ::
           && (itemID in g.messages <==> Joined(events, turnID, itemID) != "")
           && (itemID in g.messages ==> g.messages[itemID] == Joined(events, turnID, itemID))
  {
    if events != [] {
      GathersItsOwn(events[..|events| - 1], turnID);
    }
  }

  ghost predicate HasMessage(items: seq<Item>) {
    exists i :: 0 <= i < |items| && items[i].AgentMessage?
  }

  lemma {:induction false} LastMessageIff(items: seq<Item>)
    ensures LastMessage(items).Some? <==> HasMessage(items)
  {
    if items != [] {
      var before := items[..|items| - 1];
      LastMessageIff(before);
      if HasMessage(items) && !items[|items| - 1].AgentMessage? {
        var i :| 0 <= i < |items| && items[i].AgentMessage?;
        assert before[i].AgentMessage?;
      }
      if HasMessage(before) {
        var i :| 0 <= i < |before| && before[i].AgentMessage?;
        assert items[i].AgentMessage?;
      }
    }
  }

  lemma {:induction false} FirstFinalHasMessage(items: seq<Item>)
    ensures FirstFinal(items).Some? ==> HasMessage(items)
  {
    if items != [] && !(items[0].AgentMessage? && items[0].finalAnswer) {
      FirstFinalHasMessage(items[1..]);
      if HasMessage(items[1..]) {
        var i :| 0 <= i < |items[1..]| && items[1..][i].AgentMessage?;
        assert items[i + 1].AgentMessage?;
      }
    }
  }

  lemma {:induction false} UnseenHolds(g: TurnItems, seen: set<string>, order: seq<string>, id: string)
    requires forall other | other in order :: other in g.messages
    requires id in order && id !in seen
    ensures HasMessage(Unseen(g, seen, order))
  {
    var last := order[|order| - 1];
    var rest := Unseen(g, seen, order[..|order| - 1]);
    if id != last {
      UnseenHolds(g, seen, order[..|order| - 1], id);
      var i :| 0 <= i < |rest| && rest[i].AgentMessage?;
      assert Unseen(g, seen, order)[i].AgentMessage?;
    } else {
      assert Unseen(g, seen, order)[|rest|].AgentMessage?;
    }
  }

  /** A turn ends in ErrMissingAgentMessage exactly when none of its items is an agent
      message and nothing was streamed for it. */
  lemma {:induction false} MissingExactlyWhenSilent(items: seq<Item>, g: TurnItems, order: seq<string>)
    requires IsOrder(order, g.messages.Keys)
    ensures Answer(Merged(items, g, order)).None? <==> !HasMessage(Base(items, g)) && g.messages == map[]
  {
    var base, merged := Base(items, g), Merged(items, g, order);
    FirstFinalHasMessage(merged);
    LastMessageIff(merged);
    if HasMessage(base) {
      var i :| 0 <= i < |base| && base[i].AgentMessage?;
      assert merged[i].AgentMessage?;
    } else if g.messages != map[] {
      var id :| id in g.messages.Keys;
      assert SeenIDs(base) == {};
      UnseenHolds(g, {}, order, id);
      var unseen := Unseen(g, {}, order);
      var i :| 0 <= i < |unseen| && unseen[i].AgentMessage?;
      assert merged[|base| + i].AgentMessage?;
    } else {
      UnseenLast(g, SeenIDs(base), order);
      assert merged == base;
    }
  }

  /** A turn that was streamed anything, with its ids, never ends in ErrMissingAgentMessage. */
  lemma {:induction false} StreamedTurnHasAnswer(events: seq<Event>, turnID: string, itemID: string, items: seq<Item>, order: seq<string>)
    requires turnID != "" && itemID != "" && Joined(events, turnID, itemID) != ""
    requires IsOrder(order, Gathered(HandleAll(events), turnID).messages.Keys)
    ensures Answer(Merged(items, Gathered(HandleAll(events), turnID), order)).Some?
  {
    GathersItsOwn(events, turnID);
    MissingExactlyWhenSilent(items, Gathered(HandleAll(events), turnID), order);
  }

  /** The streamed messages no item carries. */
  ghost function UnseenIDs(items: seq<Item>, g: TurnItems): set<string> {
    g.messages.Keys - SeenIDs(Base(items, g))
  }

  lemma {:induction false} UnseenLast(g: TurnItems, seen: set<string>, order: seq<string>)
    requires forall id | id in order :: id in g.messages
    ensures FirstFinal(Unseen(g, seen, order)).None?
    ensures
      var unseen := Unseen(g, seen, order);
      if unseen == [] then forall id | id in order :: id in seen
      else exists id :: id in order && id !in seen && LastMessage(unseen) == Some(g.messages[id])
  {
    if order != [] {
      var before, last := order[..|order| - 1], order[|order| - 1];
      UnseenLast(g, seen, before);
      if last !in seen {
        FirstFinalAppend(Unseen(g, seen, before), [AgentMessage(last, g.messages[last], false)]);
      }
    }
  }

  lemma {:induction false} FirstFinalAppend(a: seq<Item>, b: seq<Item>)
    ensures FirstFinal(a + b) == if FirstFinal(a).Some? then FirstFinal(a) else FirstFinal(b)
  {
    if a == [] {
      assert a + b == b;
    } else {
      assert (a + b)[1..] == a[1..] + b;
      FirstFinalAppend(a[1..], b);
    }
  }

  lemma {:induction false} LastMessageAppend(a: seq<Item>, b: seq<Item>)
    ensures LastMessage(a + b) == if LastMessage(b).Some? then LastMessage(b) else LastMessage(a)
  {
    if b == [] {
      assert a + b == a;
    } else {
      assert (a + b)[..|a + b| - 1] == a + b[..|b| - 1];
      LastMessageAppend(a, b[..|b| - 1]);
    }
  }

  /** The merged answer: the final answer among the items, or the last unseen message in the
      map's order, or the items' last message. */
  lemma {:induction false} MergedAnswer(items: seq<Item>, g: TurnItems, order: seq<string>)
    requires IsOrder(order, g.messages.Keys)
    ensures
      var base := Base(items, g);
      var answer := Answer(Merged(items, g, order));
      if FirstFinal(base).Some? then answer == FirstFinal(base)
      else if UnseenIDs(items, g) == {} then answer == LastMessage(base)
      else exists id :: id in UnseenIDs(items, g) && answer == Some(g.messages[id])
  {
    var base := Base(items, g);
    var unseen := Unseen(g, SeenIDs(base), order);
    UnseenLast(g, SeenIDs(base), order);
    FirstFinalAppend(base, unseen);
    LastMessageAppend(base, unseen);
    if UnseenIDs(items, g) == {} {
      assert forall id | id in order && id !in SeenIDs(base) :: id in UnseenIDs(items, g);
      assert unseen == [];
    } else {
      var id :| id in UnseenIDs(items, g);
      assert id in order;
    }
  }

  predicate IsFirstFinal(items: seq<Item>, i: nat) {
    && i < |items| && items[i].AgentMessage? && items[i].finalAnswer
    && forall j | 0 <= j < i :: !(items[j].AgentMessage? && items[j].finalAnswer)
  }

  predicate IsLastMessage(items: seq<Item>, i: nat) {
    i < |items| && items[i].AgentMessage? && forall j | i < j < |items| :: !items[j].AgentMessage?
  }

  lemma {:induction false} FirstFinalIs(items: seq<Item>)
    ensures forall i: nat | IsFirstFinal(items, i) :: FirstFinal(items) == Some(items[i].text)
    ensures FirstFinal(items).Some? ==> exists i: nat :: IsFirstFinal(items, i)
  {
    if items != [] {
      FirstFinalIs(items[1..]);
      if !(items[0].AgentMessage? && items[0].finalAnswer) {
        forall i: nat | IsFirstFinal(items, i) ensures IsFirstFinal(items[1..], i - 1) {
          assert items[1..][i - 1] == items[i];
        }
        if FirstFinal(items).Some? {
          var i: nat :| IsFirstFinal(items[1..], i);
          assert items[i + 1] == items[1..][i];
          assert forall j | 0 < j < i + 1 :: items[j] == items[1..][j - 1];
          assert IsFirstFinal(items, i + 1);
        }
      } else {
        assert IsFirstFinal(items, 0);
      }
    }
  }

  lemma {:induction false} LastMessageIs(items: seq<Item>)
    ensures forall i: nat | IsLastMessage(items, i) :: LastMessage(items) == Some(items[i].text)
    ensures LastMessage(items).Some? ==> exists i: nat :: IsLastMessage(items, i)
  {
    if items != [] {
      var n := |items| - 1;
      LastMessageIs(items[..n]);
      if items[n].AgentMessage? {
        assert IsLastMessage(items, n);
      } else {
        forall i: nat | IsLastMessage(items, i) ensures IsLastMessage(items[..n], i) {
        }
        if LastMessage(items).Some? {
          var i: nat :| IsLastMessage(items[..n], i);
          assert IsLastMessage(items, i);
        }
      }
    }
  }

  /** Text was streamed for the message and no item carries it. */
  ghost predicate OnlyStreamed(events: seq<Event>, turnID: string, items: seq<Item>, itemID: string) {
    && itemID != "" && Joined(events, turnID, itemID) != ""
    && forall i | 0 <= i < |items| && items[i].AgentMessage? :: items[i].id != itemID
  }

  /** What a turn's answer is, from what codex said of the turn: the text of its first final
      answer; failing that, of a message that was only streamed; failing that, of its last
      message. The items are the notification's, or those completed meanwhile if it has none. */
  ghost predicate IsAnswer(events: seq<Event>, turnID: string, items: seq<Item>, answer: Option<string>) {
    var base := if items == [] then ItemsOf(events, turnID) else items;
    if exists i: nat :: IsFirstFinal(base, i)
    then exists i: nat :: IsFirstFinal(base, i) && answer == Some(base[i].text)
    else if exists itemID :: OnlyStreamed(events, turnID, base, itemID)
    then exists itemID :: OnlyStreamed(events, turnID, base, itemID) && answer == Some(Joined(events, turnID, itemID))
    else if exists i: nat :: IsLastMessage(base, i)
    then exists i: nat :: IsLastMessage(base, i) && answer == Some(base[i].text)
    else answer.None?
  }

  /** The answer the bridge finds is the turn's, for every order of its map. */
  lemma {:induction false} AnswerIsTheTurns(events: seq<Event>, turnID: string, items: seq<Item>, order: seq<string>)
    requires turnID != "" && IsOrder(order, Gathered(HandleAll(events), turnID).messages.Keys)
    ensures IsAnswer(events, turnID, items, Answer(Merged(items, Gathered(HandleAll(events), turnID), order)))
  {
    var g := Gathered(HandleAll(events), turnID);
    var base := if items == [] then ItemsOf(events, turnID) else items;
    GathersItsOwn(events, turnID);
    assert Base(items, g) == base;
    MergedAnswer(items, g, order);
    FirstFinalIs(base);
    LastMessageIs(base);
    forall itemID ensures itemID in UnseenIDs(items, g) <==> OnlyStreamed(events, turnID, base, itemID) {
    }
    if FirstFinal(base).None? && UnseenIDs(items, g) != {} {
      var id :| id in UnseenIDs(items, g) && Answer(Merged(items, g, order)) == Some(g.messages[id]);
      assert OnlyStreamed(events, turnID, base, id);
    } else if FirstFinal(base).None? {
      assert forall itemID :: !OnlyStreamed(events, turnID, base, itemID);
    }
  }

  lemma {:induction false} OrderEndingIn(keys: set<string>, last: string) returns (order: seq<string>)
    requires last in keys
    ensures IsOrder(order, keys) && order != [] && order[|order| - 1] == last
    decreases |keys|
  {
    if keys == {last} {
      order := [last];
    } else {
      var other :| other in keys && other != last;
      var rest := OrderEndingIn(keys - {other}, last);
      order := [other] + rest;
    }
  }

  lemma {:induction false} AnswerEndingIn(items: seq<Item>, g: TurnItems, id: string) returns (order: seq<string>)
    requires FirstFinal(Base(items, g)).None? && id in UnseenIDs(items, g)
    ensures IsOrder(order, g.messages.Keys) && Answer(Merged(items, g, order)) == Some(g.messages[id])
  {
    order := OrderEndingIn(g.messages.Keys, id);
    var base := Base(items, g);
    var unseen := Unseen(g, SeenIDs(base), order);
    UnseenLast(g, SeenIDs(base), order);
    FirstFinalAppend(base, unseen);
    LastMessageAppend(base, unseen);
  }

  /** Go yields a map's keys in any order. The answer does not depend on it exactly when the
      items hold a final answer or the unseen messages all say the same -- in particular when
      there is at most one. */
  lemma {:induction false} AnswerIgnoresMapOrderIff(items: seq<Item>, g: TurnItems)
    ensures
      (forall a, b | IsOrder(a, g.messages.Keys) && IsOrder(b, g.messages.Keys) ::
         Answer(Merged(items, g, a)) == Answer(Merged(items, g, b)))
      <==>
      || FirstFinal(Base(items, g)).Some?
      || forall x, y | x in UnseenIDs(items, g) && y in UnseenIDs(items, g) :: g.messages[x] == g.messages[y]
  {
    if FirstFinal(Base(items, g)).Some?
       || forall x, y | x in UnseenIDs(items, g) && y in UnseenIDs(items, g) :: g.messages[x] == g.messages[y] {
      forall a, b | IsOrder(a, g.messages.Keys) && IsOrder(b, g.messages.Keys)
        ensures Answer(Merged(items, g, a)) == Answer(Merged(items, g, b))
      {
        MergedAnswer(items, g, a);
        MergedAnswer(items, g, b);
      }
    } else {
      var x, y :| x in UnseenIDs(items, g) && y in UnseenIDs(items, g) && g.messages[x] != g.messages[y];
      var a := AnswerEndingIn(items, g, x);
      var b := AnswerEndingIn(items, g, y);
    }
  }

  lemma {:induction false} BridgeResultsGivenUp(threadID: string, turnID: string, answer: Option<string>,
                             message: string, willRetry: bool, details: Option<string>)
    ensures GivenUp(CompletedResult(threadID, turnID, answer))
    ensures
      var outcome := ErrorOutcome(threadID, turnID, message, willRetry, details);
      && (outcome.Unsaid? <==> willRetry)
      && (!outcome.Unsaid? ==> GivenUp(outcome.result) && GivenUp(Addressed(outcome.result, turnID)))
  {
  }
}
