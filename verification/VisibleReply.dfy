/**
The reply of a run as the user sees it: which messages are marked visible, and the transcript kept
beside them (backend/app/runtime/engine.py, `_persist_assistant_round`;
backend/app/services/agent_run_service.py, `_persist_aborted_projection` and `_finalize_transcript`;
backend/app/services/transcript_service.py, `append_item` and `build_persisted_transcript`).
*/
module VisibleReply {
  import opened Common

  type MessageId = string
  type RunId = string

  datatype Role = User | Assistant | Elicitation | Hidden

  // `blank`: no transcript item can be made of the message.
  datatype Message = Message(id: MessageId, role: Role, run: Option<RunId>, visible: bool, blank: bool)

  datatype Item = Item(id: MessageId, role: Role)

  datatype Chat = Chat(messages: seq<Message>, transcript: seq<Item>)

  predicate Replies(m: Message, run: RunId) {
    m.role == Assistant && m.run == Some(run)
  }

  // ------------------------------------------------------------------------------------------
  // The edits
  // ------------------------------------------------------------------------------------------

  function Hide(messages: seq<Message>, run: RunId): (r: seq<Message>)
    ensures |r| == |messages|
    ensures forall i | 0 <= i < |r| ::
      r[i] == if Replies(messages[i], run) then messages[i].(visible := false) else messages[i]
  {
    seq(|messages|, i requires 0 <= i < |messages| =>
      if Replies(messages[i], run) then messages[i].(visible := false) else messages[i])
  }

  // Ids of the visible replies of a run.
  function Shown(messages: seq<Message>, run: RunId): set<MessageId> {
    set m | m in messages && Replies(m, run) && m.visible :: m.id
  }

  function Without(items: seq<Item>, ids: set<MessageId>): seq<Item> {
    if items == [] then []
    else
      var last := items[|items| - 1];
      Without(items[..|items| - 1], ids) + if last.id in ids then [] else [last]
  }

  // Position of the first item with the id, or the length.
  function Position(items: seq<Item>, id: MessageId): (n: nat)
    ensures n <= |items|
    ensures n < |items| ==> items[n].id == id
    ensures forall i | 0 <= i < n :: items[i].id != id
  {
    if items == [] then 0 else if items[0].id == id then 0 else 1 + Position(items[1..], id)
  }

  function AppendItem(items: seq<Item>, item: Item): seq<Item> {
    var n := Position(items, item.id);
    if item.id != "" && n < |items| then items[n := item] else items + [item]
  }

  function Round(c: Chat, m: Message): Chat {
    if !m.visible then c.(messages := c.messages + [m])
    else if m.run.None? then Chat(c.messages + [m], AppendItem(c.transcript, Item(m.id, m.role)))
    else
      Chat(Hide(c.messages, m.run.value) + [m],
           AppendItem(Without(c.transcript, Shown(c.messages, m.run.value)), Item(m.id, m.role)))
  }

  // The last visible reply of its run.
  predicate Latest(messages: seq<Message>, i: nat) {
    i < |messages| && forall j | i < j < |messages| && messages[j].visible && messages[j].role == Assistant ::
      messages[j].run != messages[i].run
  }

  predicate Listed(messages: seq<Message>, i: nat) {
    && i < |messages| && messages[i].visible
    && match messages[i].role
       case User => true
       case Elicitation => true
       case Assistant => !messages[i].blank && (messages[i].run.Some? ==> Latest(messages, i))
       case Hidden => false
  }

  function ItemsUpTo(messages: seq<Message>, n: nat): seq<Item>
    requires n <= |messages|
  {
    if n == 0 then []
    else if Listed(messages, n - 1) then ItemsUpTo(messages, n - 1) + [Item(messages[n - 1].id, messages[n - 1].role)]
    else ItemsUpTo(messages, n - 1)
  }

  function Built(messages: seq<Message>): seq<Item> {
    ItemsUpTo(messages, |messages|)
  }

  /** The two lists of a session. */
  class Session {
    var messages: seq<Message>
    var transcript: seq<Item>

    ghost function Model(): Chat
      reads this
    {
      Chat(messages, transcript)
    }

    constructor ()
      ensures Model() == Chat([], [])
    {
      messages, transcript := [], [];
    }

    method HideReplies(run: RunId) returns (replaced: set<MessageId>)
      modifies this`messages
      ensures messages == Hide(old(messages), run) && replaced == Shown(old(messages), run)
    {
      replaced := {};
      var i := 0;
      while i < |messages|
        invariant i <= |messages| == |old(messages)|
        invariant replaced == Shown(old(messages)[..i], run)
        invariant forall j | 0 <= j < i :: messages[j] == Hide(old(messages), run)[j]
        invariant forall j | i <= j < |messages| :: messages[j] == old(messages)[j]
      {
        ghost var before := old(messages)[..i];
        assert old(messages)[..i + 1] == before + [messages[i]];
        assert forall m :: m in before + [messages[i]] <==> m in before || m == messages[i];
        if Replies(messages[i], run) {
          if messages[i].visible {
            replaced := replaced + {messages[i].id};
          }
          messages := messages[i := messages[i].(visible := false)];
        }
        i := i + 1;
      }
      assert old(messages)[..i] == old(messages);
    }

    method DropItems(ids: set<MessageId>)
      modifies this`transcript
      ensures transcript == Without(old(transcript), ids)
    {
      var kept: seq<Item> := [];
      var i := 0;
      while i < |transcript|
        invariant i <= |transcript| && transcript == old(transcript) && kept == Without(transcript[..i], ids)
      {
        assert transcript[..i + 1][..i] == transcript[..i];
        if transcript[i].id !in ids {
          kept := kept + [transcript[i]];
        }
        i := i + 1;
      }
      assert transcript[..i] == transcript;
      transcript := kept;
    }

    method PersistRound(m: Message)
      modifies this
      ensures Model() == Round(old(Model()), m)
    {
      if m.visible && m.run.Some? {
        var replaced := HideReplies(m.run.value);
        DropItems(replaced);
      }
      messages := messages + [m];
      if m.visible {
        transcript := AppendItem(transcript, Item(m.id, m.role));
      }
    }

    method ProjectAborted(m: Message)
      requires m.run.Some?
      modifies this`messages
      ensures messages == Hide(old(messages), m.run.value) + [m]
    {
      var _ := HideReplies(m.run.value);
      messages := messages + [m];
    }

    method LatestByRun() returns (latest: map<RunId, nat>)
      ensures forall i | 0 <= i < |messages| && messages[i].visible && messages[i].role == Assistant && messages[i].run.Some? ::
        messages[i].run.value in latest && (latest[messages[i].run.value] == i <==> Latest(messages, i))
    {
      latest := map[];
      var n := 0;
      while n < |messages|
        invariant n <= |messages|
        invariant forall i | 0 <= i < n && messages[i].visible && messages[i].role == Assistant && messages[i].run.Some? ::
          messages[i].run.value in latest && i <= latest[messages[i].run.value]
        invariant forall r | r in latest ::
          latest[r] < n && messages[latest[r]].visible && Replies(messages[latest[r]], r)
      {
        if messages[n].visible && messages[n].role == Assistant && messages[n].run.Some? {
          latest := latest[messages[n].run.value := n];
        }
        n := n + 1;
      }
    }

    method BuildTranscript()
      modifies this`transcript
      ensures transcript == Built(messages)
    {
      var latest := LatestByRun();
      transcript := [];
      var n := 0;
      while n < |messages|
        invariant n <= |messages| && messages == old(messages) && transcript == ItemsUpTo(messages, n)
      {
        var m := messages[n];
        if m.visible && (m.role == User || m.role == Elicitation) {
          transcript := transcript + [Item(m.id, m.role)];
        }
        if m.visible && m.role == Assistant && !m.blank && (m.run.None? || latest[m.run.value] == n) {
          transcript := transcript + [Item(m.id, m.role)];
        }
        n := n + 1;
      }
    }
  }

  // ------------------------------------------------------------------------------------------
  // At most one item per run
  // ------------------------------------------------------------------------------------------

  // The run whose reply the message with this id is.
  function RunOf(messages: seq<Message>, id: MessageId): Option<RunId> {
    if messages == [] then None
    else
      var last := messages[|messages| - 1];
      if last.id == id then (if last.role == Assistant then last.run else None)
      else RunOf(messages[..|messages| - 1], id)
  }

  predicate Separate(messages: seq<Message>, x: Item, y: Item) {
    x.id != y.id && (RunOf(messages, x.id).Some? ==> RunOf(messages, x.id) != RunOf(messages, y.id))
  }

  // Items have distinct ids, and no two are replies of one run.
  predicate Apart(messages: seq<Message>, items: seq<Item>) {
    items != [] ==>
      var before := items[..|items| - 1];
      Apart(messages, before) && forall x | x in before :: Separate(messages, x, items[|items| - 1])
  }

  predicate DistinctIds(messages: seq<Message>) {
    forall i, j | 0 <= i < j < |messages| :: messages[i].id != messages[j].id
  }

  // A reply in the transcript is a visible message.
  predicate ShowsVisible(messages: seq<Message>, items: seq<Item>) {
    forall x | x in items && RunOf(messages, x.id).Some? :: x.id in Shown(messages, RunOf(messages, x.id).value)
  }

  predicate Invariant(c: Chat) {
    DistinctIds(c.messages) && Apart(c.messages, c.transcript) && ShowsVisible(c.messages, c.transcript)
  }

  predicate NewId(c: Chat, id: MessageId) {
    && (forall m | m in c.messages :: m.id != id)
    && (forall x | x in c.transcript :: x.id != id)
  }

  lemma {:induction false} RunOfMore(messages: seq<Message>, m: Message, id: MessageId)
    ensures RunOf(messages + [m], id) ==
      if m.id == id then (if m.role == Assistant then m.run else None) else RunOf(messages, id)
  {
    assert (messages + [m])[..|messages|] == messages;
  }

  lemma {:induction false} RunOfHidden(messages: seq<Message>, run: RunId, id: MessageId)
    ensures RunOf(Hide(messages, run), id) == RunOf(messages, id)
  {
    if messages != [] {
      assert Hide(messages, run)[..|messages| - 1] == Hide(messages[..|messages| - 1], run);
      RunOfHidden(messages[..|messages| - 1], run, id);
    }
  }

  lemma {:induction false} RunOfAt(messages: seq<Message>, i: nat)
    requires i < |messages| && DistinctIds(messages)
    ensures RunOf(messages, messages[i].id) == if messages[i].role == Assistant then messages[i].run else None
  {
    if i < |messages| - 1 {
      RunOfAt(messages[..|messages| - 1], i);
    }
  }

  // Items keep apart as long as the runs of their ids stay the same.
  lemma {:induction false} SameRunsApart(messages: seq<Message>, others: seq<Message>, items: seq<Item>)
    requires Apart(messages, items)
    requires forall x | x in items :: RunOf(others, x.id) == RunOf(messages, x.id)
    ensures Apart(others, items)
  {
    if items != [] {
      SameRunsApart(messages, others, items[..|items| - 1]);
    }
  }

  lemma {:induction false} WithoutIs(items: seq<Item>, ids: set<MessageId>, x: Item)
    ensures x in Without(items, ids) <==> x in items && x.id !in ids
  {
    if items != [] {
      WithoutIs(items[..|items| - 1], ids, x);
      assert items == items[..|items| - 1] + [items[|items| - 1]];
    }
  }

  lemma {:induction false} WithoutApart(messages: seq<Message>, items: seq<Item>, ids: set<MessageId>)
    requires Apart(messages, items)
    ensures Apart(messages, Without(items, ids))
  {
    if items != [] {
      var before, last := items[..|items| - 1], items[|items| - 1];
      WithoutApart(messages, before, ids);
      if last.id !in ids {
        forall x | x in Without(before, ids) ensures Separate(messages, x, last) {
          WithoutIs(before, ids, x);
        }
        AppendApart(messages, Without(before, ids), last);
        assert Without(items, ids) == Without(before, ids) + [last];
      } else {
        assert Without(items, ids) == Without(before, ids);
      }
    }
  }

  lemma {:induction false} AppendApart(messages: seq<Message>, items: seq<Item>, item: Item)
    requires Apart(messages, items) && forall x | x in items :: Separate(messages, x, item)
    ensures AppendItem(items, item) == items + [item] && Apart(messages, items + [item])
  {
    assert (items + [item])[..|items|] == items;
    assert forall i | 0 <= i < |items| :: items[i] in items;
  }

  // A message with a new id: runs of the ids in the transcript stay.
  lemma {:induction false} AddedMessage(messages: seq<Message>, items: seq<Item>, m: Message)
    requires forall x | x in items :: x.id != m.id
    requires forall k | k in messages :: k.id != m.id
    requires DistinctIds(messages) && Apart(messages, items)
    ensures DistinctIds(messages + [m]) && Apart(messages + [m], items)
    ensures forall x | x in items :: RunOf(messages + [m], x.id) == RunOf(messages, x.id)
    ensures forall run :: Shown(messages, run) <= Shown(messages + [m], run)
  {
    forall x | x in items ensures RunOf(messages + [m], x.id) == RunOf(messages, x.id) {
      RunOfMore(messages, m, x.id);
    }
    SameRunsApart(messages, messages + [m], items);
    assert forall k | k in messages :: k in messages + [m];
  }

  lemma {:induction false} HiddenKeeps(messages: seq<Message>, run: RunId, items: seq<Item>)
    requires DistinctIds(messages) && Apart(messages, items)
    ensures DistinctIds(Hide(messages, run)) && Apart(Hide(messages, run), items)
    ensures forall x | x in items :: RunOf(Hide(messages, run), x.id) == RunOf(messages, x.id)
    ensures forall other | other != run :: Shown(messages, other) <= Shown(Hide(messages, run), other)
    ensures forall m | m in Hide(messages, run) :: exists k :: k in messages && k.id == m.id
  {
    forall x | x in items ensures RunOf(Hide(messages, run), x.id) == RunOf(messages, x.id) {
      RunOfHidden(messages, run, x.id);
    }
    SameRunsApart(messages, Hide(messages, run), items);
    forall other, id | other != run && id in Shown(messages, other) ensures id in Shown(Hide(messages, run), other) {
      var m :| m in messages && Replies(m, other) && m.visible && m.id == id;
      var i :| 0 <= i < |messages| && messages[i] == m;
      assert Hide(messages, run)[i] == m;
    }
    forall m | m in Hide(messages, run) ensures exists k :: k in messages && k.id == m.id {
      var i :| 0 <= i < |messages| && Hide(messages, run)[i] == m;
      assert messages[i] in messages;
    }
  }

  // ------------------------------------------------------------------------------------------
  // Steps of a session
  // ------------------------------------------------------------------------------------------

  datatype Step =
    | Say(m: Message)                                 // a user message, listed at once
    | Note(m: Message)                                // a message that is not listed
    | PersistRound(m: Message)
    | Recover(m: Message)                             // one stored response, appended as it is
    | Settle(projection: Option<Message>)             // the end of a drive

  predicate Enabled(c: Chat, s: Step) {
    match s
    case Say(m) => m.role == User && m.visible && NewId(c, m.id)
    case Note(m) => m.role != Assistant && NewId(c, m.id)
    case PersistRound(m) => m.role == Assistant && NewId(c, m.id)
    case Recover(m) => m.role == Assistant && m.visible && m.run.Some? && NewId(c, m.id)
    case Settle(p) => p.Some? ==> p.value.role == Assistant && p.value.visible && p.value.run.Some? && NewId(c, p.value.id)
  }

  function Settled(c: Chat, projection: Option<Message>): seq<Message>
    requires projection.Some? ==> projection.value.run.Some?
  {
    if projection.Some? then Hide(c.messages, projection.value.run.value) + [projection.value] else c.messages
  }

  function Next(c: Chat, s: Step): Chat
    requires Enabled(c, s)
  {
    match s
    case Say(m) => Chat(c.messages + [m], AppendItem(c.transcript, Item(m.id, User)))
    case Note(m) => c.(messages := c.messages + [m])
    case PersistRound(m) => Round(c, m)
    case Recover(m) => c.(messages := c.messages + [m])
    case Settle(p) => Chat(Settled(c, p), Built(Settled(c, p)))
  }

  lemma {:induction false} MessageKeepsInvariant(c: Chat, m: Message)
    requires Invariant(c) && NewId(c, m.id)
    ensures Invariant(c.(messages := c.messages + [m]))
  {
    AddedMessage(c.messages, c.transcript, m);
  }

  // An item of the new message is apart from all others when none of them is of its run.
  lemma {:induction false} ItemKeepsInvariant(messages: seq<Message>, items: seq<Item>, m: Message)
    requires Invariant(Chat(messages, items)) && NewId(Chat(messages, items), m.id) && m.visible
    requires m.role == Assistant && m.run.Some? ==> forall x | x in items :: RunOf(messages, x.id) != m.run
    ensures Invariant(Chat(messages + [m], AppendItem(items, Item(m.id, m.role))))
  {
    AddedMessage(messages, items, m);
    RunOfMore(messages, m, m.id);
    AppendApart(messages + [m], items, Item(m.id, m.role));
    assert m in messages + [m];
  }

  lemma {:induction false} RoundKeepsInvariant(c: Chat, m: Message)
    requires Invariant(c) && NewId(c, m.id) && m.role == Assistant
    ensures Invariant(Round(c, m))
  {
    if !m.visible {
      MessageKeepsInvariant(c, m);
    } else if m.run.None? {
      ItemKeepsInvariant(c.messages, c.transcript, m);
    } else {
      var run := m.run.value;
      var ids := Shown(c.messages, run);
      var hidden, kept := Hide(c.messages, run), Without(c.transcript, ids);
      WithoutApart(c.messages, c.transcript, ids);
      HiddenKeeps(c.messages, run, kept);
      forall x | x in kept
        ensures x in c.transcript && RunOf(c.messages, x.id) != Some(run)
        ensures RunOf(hidden, x.id).Some? ==> x.id in Shown(hidden, RunOf(hidden, x.id).value)
      {
        WithoutIs(c.transcript, ids, x);
      }
      ItemKeepsInvariant(hidden, kept, m);
    }
  }

  // What is in a rebuilt transcript.
  lemma {:induction false} BuiltFrom(messages: seq<Message>, n: nat, x: Item)
    requires n <= |messages|
    ensures x in ItemsUpTo(messages, n) <==>
      exists i: nat :: i < n && Listed(messages, i) && x == Item(messages[i].id, messages[i].role)
  {
    if n > 0 {
      BuiltFrom(messages, n - 1, x);
    }
  }

  lemma {:induction false} BuiltApart(messages: seq<Message>, n: nat)
    requires n <= |messages| && DistinctIds(messages)
    ensures Apart(messages, ItemsUpTo(messages, n))
  {
    if n > 0 {
      BuiltApart(messages, n - 1);
      if Listed(messages, n - 1) {
        var before, item := ItemsUpTo(messages, n - 1), Item(messages[n - 1].id, messages[n - 1].role);
        forall x | x in before ensures Separate(messages, x, item) {
          BuiltFrom(messages, n - 1, x);
          var i: nat :| i < n - 1 && Listed(messages, i) && x == Item(messages[i].id, messages[i].role);
          RunOfAt(messages, i);
          RunOfAt(messages, n - 1);
        }
        AppendApart(messages, before, item);
        assert ItemsUpTo(messages, n) == before + [item];
      } else {
        assert ItemsUpTo(messages, n) == ItemsUpTo(messages, n - 1);
      }
    }
  }

  /** A transcript rebuilt from the messages lists at most one reply of a run, and only visible ones. */
  lemma {:induction false} BuiltKeepsInvariant(messages: seq<Message>)
    requires DistinctIds(messages)
    ensures Invariant(Chat(messages, Built(messages)))
  {
    BuiltApart(messages, |messages|);
    forall x | x in Built(messages) && RunOf(messages, x.id).Some?
      ensures x.id in Shown(messages, RunOf(messages, x.id).value)
    {
      BuiltFrom(messages, |messages|, x);
      var i: nat :| i < |messages| && Listed(messages, i) && x == Item(messages[i].id, messages[i].role);
      RunOfAt(messages, i);
      assert messages[i] in messages;
    }
  }

  lemma {:induction false} StepKeepsInvariant(c: Chat, s: Step)
    requires Invariant(c) && Enabled(c, s)
    ensures Invariant(Next(c, s))
  {
    match s
    case Say(m) => ItemKeepsInvariant(c.messages, c.transcript, m);
    case Note(m) => MessageKeepsInvariant(c, m);
    case PersistRound(m) => RoundKeepsInvariant(c, m);
    case Recover(m) => MessageKeepsInvariant(c, m);
    case Settle(p) =>
      if p.Some? {
        HiddenKeeps(c.messages, p.value.run.value, c.transcript);
        AddedMessage(Hide(c.messages, p.value.run.value), [], p.value);
      }
      BuiltKeepsInvariant(Settled(c, p));
  }

  predicate Legal(c: Chat, steps: seq<Step>)
    decreases |steps|
  {
    steps == [] || (Enabled(c, steps[0]) && Legal(Next(c, steps[0]), steps[1..]))
  }

  function After(c: Chat, steps: seq<Step>): Chat
    requires Legal(c, steps)
    decreases |steps|
  {
    if steps == [] then c else After(Next(c, steps[0]), steps[1..])
  }

  lemma {:induction false} RunsKeepInvariant(c: Chat, steps: seq<Step>)
    requires Invariant(c) && Legal(c, steps)
    ensures Invariant(After(c, steps))
    decreases |steps|
  {
    if steps != [] {
      StepKeepsInvariant(c, steps[0]);
      RunsKeepInvariant(Next(c, steps[0]), steps[1..]);
    }
  }

  lemma {:induction false} ApartAt(messages: seq<Message>, items: seq<Item>, k: nat, l: nat)
    requires Apart(messages, items) && k < l < |items|
    ensures Separate(messages, items[k], items[l])
  {
    if l < |items| - 1 {
      ApartAt(messages, items[..|items| - 1], k, l);
    } else {
      assert items[k] == items[..|items| - 1][k] && items[k] in items[..|items| - 1];
    }
  }

  /** Through any sequence of steps, the transcript never lists two replies of one run. */
  lemma {:induction false} OneItemPerRun(steps: seq<Step>, k: nat, l: nat)
    requires Legal(Chat([], []), steps)
    requires k < l < |After(Chat([], []), steps).transcript|
    ensures var c := After(Chat([], []), steps); Separate(c.messages, c.transcript[k], c.transcript[l])
  {
    RunsKeepInvariant(Chat([], []), steps);
    var c := After(Chat([], []), steps);
    ApartAt(c.messages, c.transcript, k, l);
  }

  // ------------------------------------------------------------------------------------------
  // No message is lost, and what is said is listed
  // ------------------------------------------------------------------------------------------

  // The messages that a step brings.
  function Brought(s: Step): seq<Message> {
    match s
    case Say(m) => [m]
    case Note(m) => [m]
    case PersistRound(m) => [m]
    case Recover(m) => [m]
    case Settle(p) => if p.Some? then [p.value] else []
  }

  function AllBrought(steps: seq<Step>): seq<Message> {
    if steps == [] then [] else Brought(steps[0]) + AllBrought(steps[1..])
  }

  // The same messages, some of them hidden by now.
  predicate OnlyHidden(before: seq<Message>, after: seq<Message>) {
    |after| == |before| && forall i | 0 <= i < |before| ::
      after[i] == before[i].(visible := after[i].visible) && (after[i].visible ==> before[i].visible)
  }

  lemma {:induction false} StepOnlyHides(c: Chat, s: Step)
    requires Enabled(c, s)
    ensures OnlyHidden(c.messages + Brought(s), Next(c, s).messages)
  {
  }

  lemma {:induction false} HiddenFurther(a: seq<Message>, b: seq<Message>, more: seq<Message>, c: seq<Message>)
    requires OnlyHidden(a, b) && OnlyHidden(b + more, c)
    ensures OnlyHidden(a + more, c)
  {
    forall i | 0 <= i < |a + more|
      ensures c[i] == (a + more)[i].(visible := c[i].visible) && (c[i].visible ==> (a + more)[i].visible)
    {
      assert c[i] == (b + more)[i].(visible := c[i].visible) && (c[i].visible ==> (b + more)[i].visible);
    }
  }

  lemma {:induction false} BroughtFirst(c: Chat, steps: seq<Step>, last: seq<Message>)
    requires steps != [] && Enabled(c, steps[0]) && OnlyHidden(c.messages + Brought(steps[0]), Next(c, steps[0]).messages)
    requires OnlyHidden(Next(c, steps[0]).messages + AllBrought(steps[1..]), last)
    ensures OnlyHidden(c.messages + AllBrought(steps), last)
  {
    var first, rest := Brought(steps[0]), AllBrought(steps[1..]);
    HiddenFurther(c.messages + first, Next(c, steps[0]).messages, rest, last);
    assert (c.messages + first) + rest == c.messages + (first + rest);
  }

  /** Every message that any step brought is there, in its place and unchanged, except that it may have been hidden. */
  lemma {:induction false} NoMessageIsLost(c: Chat, steps: seq<Step>)
    requires Legal(c, steps)
    ensures OnlyHidden(c.messages + AllBrought(steps), After(c, steps).messages)
    decreases |steps|
  {
    if steps == [] {
      assert c.messages + [] == c.messages;
    } else {
      StepOnlyHides(c, steps[0]);
      NoMessageIsLost(Next(c, steps[0]), steps[1..]);
      BroughtFirst(c, steps, After(c, steps).messages);
    }
  }

  // Is the item that of a visible reply of the run?
  predicate IsReplyItem(messages: seq<Message>, x: Item, run: RunId) {
    exists m :: m in messages && m.role == Assistant && m.run == Some(run) && m.visible && m.id == x.id
  }

  /** A visible reply is the only one of its run from then on: it is the last message and the last item, the earlier
      ones are hidden and no longer listed, and everything else stays. */
  lemma {:induction false} RoundTakesOver(c: Chat, m: Message)
    requires Enabled(c, PersistRound(m)) && m.visible && m.run.Some?
    ensures var t := Next(c, PersistRound(m));
      && |t.messages| == |c.messages| + 1 && t.messages[|c.messages|] == m
      && (forall i | 0 <= i < |c.messages| :: t.messages[i] ==
            if c.messages[i].role == Assistant && c.messages[i].run == m.run then c.messages[i].(visible := false) else c.messages[i])
      && t.transcript != [] && t.transcript[|t.transcript| - 1] == Item(m.id, Assistant)
      && (forall x :: (x in t.transcript <==>
            x == Item(m.id, Assistant) || (x in c.transcript && !IsReplyItem(c.messages, x, m.run.value))))
  {
    var run := m.run.value;
    var kept := Without(c.transcript, Shown(c.messages, run));
    forall x ensures x in kept <==> x in c.transcript && !IsReplyItem(c.messages, x, run) {
      WithoutIs(c.transcript, Shown(c.messages, run), x);
    }
    NewItemIsLast(kept, Item(m.id, Assistant));
  }

  lemma {:induction false} NewItemIsLast(items: seq<Item>, item: Item)
    requires forall x | x in items :: x.id != item.id
    ensures AppendItem(items, item) == items + [item]
    ensures forall x :: (x in items + [item] <==> x in items || x == item)
  {
    forall i | 0 <= i < |items| ensures items[i].id != item.id {
      assert items[i] in items;
    }
  }

  /** What a user says, or a hidden round, is added as it is; only the former is listed, last. */
  lemma {:induction false} SayingIsListed(c: Chat, m: Message)
    requires Enabled(c, Say(m)) || (Enabled(c, PersistRound(m)) && !m.visible)
    ensures Enabled(c, Say(m)) ==> Next(c, Say(m)) == Chat(c.messages + [m], c.transcript + [Item(m.id, User)])
    ensures Enabled(c, PersistRound(m)) && !m.visible ==> Next(c, PersistRound(m)) == Chat(c.messages + [m], c.transcript)
  {
    NewItemIsLast(c.transcript, Item(m.id, User));
  }

  /** Any message with a new id can be brought, by the step for its kind. */
  lemma {:induction false} NewMessagesAreTaken(c: Chat, m: Message)
    requires (forall k | k in c.messages :: k.id != m.id) && (forall x | x in c.transcript :: x.id != m.id)
    ensures m.role == User && m.visible ==> Legal(c, [Say(m)])
    ensures m.role != Assistant ==> Legal(c, [Note(m)])
    ensures m.role == Assistant ==> Legal(c, [PersistRound(m)])
    ensures m.role == Assistant && m.visible && m.run.Some? ==> Legal(c, [Recover(m)]) && Legal(c, [Settle(Some(m))])
    ensures Legal(c, [Settle(None)])
  {
    assert [Say(m)][1..] == [] && [Note(m)][1..] == [] && [PersistRound(m)][1..] == [] && [Recover(m)][1..] == [];
    assert [Settle(Some(m))][1..] == [] && [Settle(None)][1..] == [];
  }

  // The listed messages among the first n.
  function ListedAmong(messages: seq<Message>, n: nat): seq<nat>
    requires n <= |messages|
  {
    if n == 0 then []
    else if Listed(messages, n - 1) then ListedAmong(messages, n - 1) + [n - 1]
    else ListedAmong(messages, n - 1)
  }

  // The items are those of the listed messages before n, in order.
  predicate AreItems(messages: seq<Message>, n: nat, r: seq<nat>, items: seq<Item>)
    requires n <= |messages|
  {
    && |items| == |r| && (forall k, l | 0 <= k < l < |r| :: r[k] < r[l]) && (forall k | 0 <= k < |r| :: r[k] < n && Listed(messages, r[k]))
    && (forall k | 0 <= k < |r| :: items[k] == Item(messages[r[k]].id, messages[r[k]].role))
    && (forall i: nat | i < n && Listed(messages, i) :: i in r)
  }

  lemma {:induction false} OneMoreListed(messages: seq<Message>, n: nat, r: seq<nat>, items: seq<Item>)
    requires n < |messages| && AreItems(messages, n, r, items)
    ensures if Listed(messages, n) then AreItems(messages, n + 1, r + [n], items + [Item(messages[n].id, messages[n].role)])
            else AreItems(messages, n + 1, r, items)
  {
  }

  lemma {:induction false} OneMoreItem(messages: seq<Message>, n: nat)
    requires n < |messages| && AreItems(messages, n, ListedAmong(messages, n), ItemsUpTo(messages, n))
    ensures AreItems(messages, n + 1, ListedAmong(messages, n + 1), ItemsUpTo(messages, n + 1))
  {
    OneMoreListed(messages, n, ListedAmong(messages, n), ItemsUpTo(messages, n));
  }

  lemma {:induction false} ItemsAreListed(messages: seq<Message>, n: nat)
    requires n <= |messages|
    ensures AreItems(messages, n, ListedAmong(messages, n), ItemsUpTo(messages, n))
  {
    if n > 0 {
      ItemsAreListed(messages, n - 1);
      OneMoreItem(messages, n - 1);
    }
  }

  /** A rebuilt transcript lists, in order and once each, what users said and were asked, and of the replies those
      without a run and the last visible one of each run; nothing hidden. */
  lemma {:induction false} BuiltLists(messages: seq<Message>) returns (r: seq<nat>)
    ensures |r| == |Built(messages)| && (forall k, l | 0 <= k < l < |r| :: r[k] < r[l])
    ensures forall k | 0 <= k < |r| :: r[k] < |messages| && Built(messages)[k] == Item(messages[r[k]].id, messages[r[k]].role)
    ensures forall i: nat | i < |messages| :: i in r <==>
      && messages[i].visible && messages[i].role != Hidden
      && (messages[i].role == Assistant ==>
            && !messages[i].blank
            && (messages[i].run.Some? ==> forall j | i < j < |messages| :: !(messages[j].visible && Replies(messages[j], messages[i].run.value))))
  {
    r := ListedAmong(messages, |messages|);
    ItemsAreListed(messages, |messages|);
    forall i: nat | i < |messages| ensures i in r <==> Listed(messages, i) {
    }
  }

  // ------------------------------------------------------------------------------------------
  // At most one visible message per run
  // ------------------------------------------------------------------------------------------

  predicate SameReply(m: Message, k: Message) {
    m.role == Assistant && k.role == Assistant && m.run.Some? && m.run == k.run && m.visible && k.visible
  }

  predicate OneVisible(messages: seq<Message>) {
    forall i, j | 0 <= i < j < |messages| :: !SameReply(messages[i], messages[j])
  }

  // The stored response belongs to a run whose reply is already visible.
  predicate Doubles(c: Chat, s: Step) {
    s.Recover? && exists i :: 0 <= i < |c.messages| && SameReply(c.messages[i], s.m)
  }

  /** Every step keeps at most one visible reply per run, except that recovering a stored response
      does so exactly when its run has no visible reply yet. */
  lemma {:induction false} OneVisibleUnlessDoubled(c: Chat, s: Step)
    requires OneVisible(c.messages) && Enabled(c, s)
    ensures OneVisible(Next(c, s).messages) <==> !Doubles(c, s)
  {
    var messages' := Next(c, s).messages;
    if Doubles(c, s) {
      var i :| 0 <= i < |c.messages| && SameReply(c.messages[i], s.m);
      assert SameReply(messages'[i], messages'[|c.messages|]);
    } else {
      forall i, j | 0 <= i < j < |messages'| ensures !SameReply(messages'[i], messages'[j]) {
        assert j < |c.messages| ==> !SameReply(c.messages[i], c.messages[j]);
      }
    }
  }

  predicate NeverDoubles(c: Chat, steps: seq<Step>)
    requires Legal(c, steps)
    decreases |steps|
  {
    steps != [] ==> !Doubles(c, steps[0]) && NeverDoubles(Next(c, steps[0]), steps[1..])
  }

  /** Over any sequence of persisted rounds, projections and such recoveries, a run has at most one
      visible reply among the messages. */
  lemma {:induction false} OneVisibleReplyPerRun(c: Chat, steps: seq<Step>)
    requires OneVisible(c.messages) && Legal(c, steps) && NeverDoubles(c, steps)
    ensures OneVisible(After(c, steps).messages)
    decreases |steps|
  {
    if steps != [] {
      OneVisibleUnlessDoubled(c, steps[0]);
      OneVisibleReplyPerRun(Next(c, steps[0]), steps[1..]);
    }
  }

  // ------------------------------------------------------------------------------------------
  // Which reply a settled drive shows
  // ------------------------------------------------------------------------------------------

  /** After a drive has settled, the transcript lists a reply of a run if and only if it is the last
      visible one of the run and an item can be made of it. */
  lemma {:induction false} LastReplyIsListed(messages: seq<Message>, i: nat)
    requires DistinctIds(messages) && i < |messages| && messages[i].role == Assistant && messages[i].run.Some?
    ensures Item(messages[i].id, Assistant) in Built(messages) <==>
      messages[i].visible && !messages[i].blank && Latest(messages, i)
  {
    BuiltFrom(messages, |messages|, Item(messages[i].id, Assistant));
    assert forall k: nat | k < |messages| && messages[k].id == messages[i].id :: k == i;
    assert Listed(messages, i) <==> messages[i].visible && !messages[i].blank && Latest(messages, i);
  }

  /** So a response recovered after the final answer takes its place: the answer leaves the transcript,
      and if nothing can be shown of the recovered response the run is left without a reply. */
  lemma {:induction false} RecoveredReplyHidesAnswer(c: Chat, answer: nat, m: Message)
    requires Invariant(c) && Enabled(c, Recover(m))
    requires answer < |c.messages| && Replies(c.messages[answer], m.run.value)
    ensures var after := Next(Next(c, Recover(m)), Settle(None));
      && Item(c.messages[answer].id, Assistant) !in after.transcript
      && (Item(m.id, Assistant) in after.transcript <==> !m.blank)
  {
    var messages' := c.messages + [m];
    MessageKeepsInvariant(c, m);
    LastReplyIsListed(messages', answer);
    LastReplyIsListed(messages', |c.messages|);
    assert m.visible && messages'[|c.messages|] == m;
  }
}
