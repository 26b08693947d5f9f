/**
The live view of a run (backend/app/services/agent_run_service.py, `_apply_event_to_active_view` and
its helpers, and the place of the view update inside `_commit_and_publish`).
*/
module LiveView {
  import opened Common

  const LIVE_OUTPUT_PREVIEW_LIMIT := 4000

  datatype Kind = Reasoning | Content | Tool | Notice

  datatype BlockStatus = Streaming | Running | Done | Incomplete | Aborted

  // `live` is liveOutputText; None once it has been popped.
  datatype Block = Block(id: string, kind: Kind, content: string, status: BlockStatus, output: string, live: Option<string>)

  // An empty part or id is an absent one.  `freshId` is the uuid drawn if a block has to be made.
  datatype Event =
    | Delta(kind: Kind, part: string, text: string, freshId: string)
    | ContentCompleted(part: string, incomplete: bool)
    | ToolStarted(id: string, freshId: string)
    | ToolOutput(id: string, text: string)
    | ToolFinished(id: string, output: string, aborted: bool)
    | Recreated(freshId: string)
    | AbortedRun(partial: string)
    | Completed
    | Other

  datatype View = View(completed: bool, streaming: bool, blocks: seq<Block>)

  const START := View(false, true, [])

  const STOPPED := "tool stopped"

  predicate IsDelta(e: Event) {
    e.Delta? && (e.kind == Reasoning || e.kind == Content)
  }

  // ------------------------------------------------------------------------------------------
  // What one event does to the blocks
  // ------------------------------------------------------------------------------------------

  function Tail(s: string): string {
    if |s| <= LIVE_OUTPUT_PREVIEW_LIMIT then s else s[|s| - LIVE_OUTPUT_PREVIEW_LIMIT..]
  }

  // Position after the last block of the kind (and id, if one is given); 0 if there is none.
  function FindLast(blocks: seq<Block>, kind: Kind, part: string): (n: nat)
    ensures n <= |blocks|
    ensures n > 0 ==> blocks[n - 1].kind == kind && (part == "" || blocks[n - 1].id == part)
    ensures forall i | n <= i < |blocks| :: !(blocks[i].kind == kind && (part == "" || blocks[i].id == part))
  {
    if blocks == [] then 0
    else
      var last := blocks[|blocks| - 1];
      if last.kind == kind && (part == "" || last.id == part) then |blocks|
      else FindLast(blocks[..|blocks| - 1], kind, part)
  }

  function AddDelta(b: Block, text: string): Block {
    b.(content := b.content + text, status := if b.kind == Content then Streaming else b.status)
  }

  function NewBlock(kind: Kind, part: string, freshId: string): Block {
    Block(if part != "" then part else freshId, kind, "", if kind == Content then Streaming else Done, "", None)
  }

  function ApplyDelta(blocks: seq<Block>, e: Event): seq<Block>
    requires IsDelta(e)
  {
    var n := FindLast(blocks, e.kind, e.part);
    if n > 0 then blocks[n - 1 := AddDelta(blocks[n - 1], e.text)]
    else blocks + [AddDelta(NewBlock(e.kind, e.part, e.freshId), e.text)]
  }

  // Index of the first tool block with this id, or the length if there is none.
  function FindTool(blocks: seq<Block>, id: string): (n: nat)
    ensures n <= |blocks|
    ensures n < |blocks| ==> blocks[n].kind == Tool && blocks[n].id == id
    ensures forall i | 0 <= i < n :: !(blocks[i].kind == Tool && blocks[i].id == id)
  {
    if blocks == [] then 0
    else if blocks[0].kind == Tool && blocks[0].id == id then 0
    else 1 + FindTool(blocks[1..], id)
  }

  function LiveText(b: Block): string {
    if b.live.Some? then b.live.value else ""
  }

  function CompleteContent(b: Block, part: string, incomplete: bool): Block {
    if b.kind == Content && (if part != "" then b.id == part else b.status == Streaming)
    then b.(status := if incomplete then Incomplete else Done) else b
  }

  function AbortBlock(b: Block, partial: string): Block {
    if b.kind == Content && b.status == Streaming then
      b.(content := if partial != "" then partial else b.content, status := Aborted)
    else if b.kind == Tool && b.status == Running then
      b.(status := Aborted, output := STOPPED, live := None)
    else b
  }

  function ApplyToBlocks(blocks: seq<Block>, e: Event): seq<Block> {
    match e
    case Delta(_, _, _, _) => if IsDelta(e) then ApplyDelta(blocks, e) else blocks
    case ContentCompleted(part, incomplete) =>
      seq(|blocks|, i requires 0 <= i < |blocks| => CompleteContent(blocks[i], part, incomplete))
    case ToolStarted(id, freshId) =>
      blocks + [Block(if id != "" then id else freshId, Tool, "", Running, "", Some(""))]
    case ToolOutput(id, text) =>
      var n := FindTool(blocks, id);
      if n < |blocks| then blocks[n := blocks[n].(live := Some(Tail(LiveText(blocks[n]) + text)))] else blocks
    case ToolFinished(id, output, aborted) =>
      var n := FindTool(blocks, id);
      if n < |blocks| then
        blocks[n := blocks[n].(output := output, status := if aborted then Aborted else Done, live := None)]
      else blocks
    case Recreated(freshId) => blocks + [Block(freshId, Notice, "", Done, "", None)]
    case AbortedRun(partial) => seq(|blocks|, i requires 0 <= i < |blocks| => AbortBlock(blocks[i], partial))
    case Completed => blocks
    case Other => blocks
  }

  function Apply(v: View, e: Event): View {
    View(e.Completed?, v.streaming && !e.Completed?, ApplyToBlocks(v.blocks, e))
  }

  function Fold(v: View, events: seq<Event>): View
    decreases |events|
  {
    if events == [] then v
    else Apply(Fold(v, events[..|events| - 1]), events[|events| - 1])
  }

  /** The view object; events are applied in place, block by block. */
  class ActiveView {
    var completed: bool
    var streaming: bool
    var blocks: seq<Block>

    ghost function Model(): View
      reads this
    {
      View(completed, streaming, blocks)
    }

    constructor ()
      ensures Model() == START
    {
      completed, streaming, blocks := false, true, [];
    }

    method FindOrCreate(kind: Kind, part: string, freshId: string) returns (index: nat)
      modifies this`blocks
      ensures index < |blocks|
      ensures var n := FindLast(old(blocks), kind, part);
        if n > 0 then blocks == old(blocks) && index == n - 1
        else blocks == old(blocks) + [NewBlock(kind, part, freshId)] && index == |old(blocks)|
    {
      var n: nat := |blocks|;
      assert blocks[..n] == blocks;
      while n > 0
        invariant n <= |blocks| && blocks == old(blocks)
        invariant FindLast(blocks, kind, part) == FindLast(blocks[..n], kind, part)
      {
        assert blocks[..n][..n - 1] == blocks[..n - 1];
        if blocks[n - 1].kind == kind && (part == "" || blocks[n - 1].id == part) {
          return n - 1;
        }
        n := n - 1;
      }
      index := |blocks|;
      blocks := blocks + [NewBlock(kind, part, freshId)];
    }

    method FindToolBlock(id: string) returns (index: nat)
      ensures index == FindTool(blocks, id)
    {
      index := 0;
      while index < |blocks|
        invariant index <= |blocks|
        invariant FindTool(blocks, id) == index + FindTool(blocks[index..], id)
      {
        if blocks[index].kind == Tool && blocks[index].id == id {
          return;
        }
        assert blocks[index..][1..] == blocks[index + 1..];
        index := index + 1;
      }
    }

    method ApplyEvent(e: Event)
      modifies this
      ensures Model() == Apply(old(Model()), e)
    {
      completed := e.Completed?;
      match e
      case Delta(kind, part, text, freshId) =>
        if kind == Reasoning || kind == Content {
          var index := FindOrCreate(kind, part, freshId);
          blocks := blocks[index := AddDelta(blocks[index], text)];
        }
      case ContentCompleted(part, incomplete) =>
        var i := 0;
        while i < |blocks|
          invariant i <= |blocks| == |old(blocks)| && completed == e.Completed? && streaming == old(streaming)
          invariant forall j | 0 <= j < i :: blocks[j] == CompleteContent(old(blocks[j]), part, incomplete)
          invariant forall j | i <= j < |blocks| :: blocks[j] == old(blocks[j])
        {
          blocks := blocks[i := CompleteContent(blocks[i], part, incomplete)];
          i := i + 1;
        }
        assert blocks == ApplyToBlocks(old(blocks), e);
      case ToolStarted(id, freshId) =>
        blocks := blocks + [Block(if id != "" then id else freshId, Tool, "", Running, "", Some(""))];
      case ToolOutput(id, text) =>
        var n := FindToolBlock(id);
        if n < |blocks| {
          blocks := blocks[n := blocks[n].(live := Some(Tail(LiveText(blocks[n]) + text)))];
        }
      case ToolFinished(id, output, aborted) =>
        var n := FindToolBlock(id);
        if n < |blocks| {
          blocks := blocks[n := blocks[n].(output := output, status := if aborted then Aborted else Done, live := None)];
        }
      case Recreated(freshId) => blocks := blocks + [Block(freshId, Notice, "", Done, "", None)];
      case AbortedRun(partial) =>
        var i := 0;
        while i < |blocks|
          invariant i <= |blocks| == |old(blocks)| && completed == e.Completed? && streaming == old(streaming)
          invariant forall j | 0 <= j < i :: blocks[j] == AbortBlock(old(blocks[j]), partial)
          invariant forall j | i <= j < |blocks| :: blocks[j] == old(blocks[j])
        {
          blocks := blocks[i := AbortBlock(blocks[i], partial)];
          i := i + 1;
        }
        assert blocks == ApplyToBlocks(old(blocks), e);
      case Completed => streaming := false;
      case Other =>
    }
  }

  // ------------------------------------------------------------------------------------------
  // Block contents are what the deltas say
  // ------------------------------------------------------------------------------------------

  // The parts of a kind in order of first mention.  A delta without a part belongs to the latest one,
  // or starts one under a fresh name.
  function Names(events: seq<Event>, kind: Kind): seq<string>
    decreases |events|
  {
    if events == [] then []
    else
      var e := events[|events| - 1];
      var names := Names(events[..|events| - 1], kind);
      if IsDelta(e) && e.kind == kind && Home(names, e) !in names then names + [Home(names, e)] else names
  }

  function Home(names: seq<string>, e: Event): string
    requires IsDelta(e)
  {
    if e.part != "" then e.part else if names != [] then names[|names| - 1] else e.freshId
  }

  // The deltas of one part, put together.
  function TextOf(events: seq<Event>, kind: Kind, name: string): string
    decreases |events|
  {
    if events == [] then ""
    else
      var e := events[|events| - 1];
      var before := events[..|events| - 1];
      TextOf(before, kind, name) +
      if IsDelta(e) && e.kind == kind && Home(Names(before, kind), e) == name then e.text else ""
  }

  // An aborted event that carries text puts it in place of the content of every streaming block.
  predicate Faithful(blocks: seq<Block>, e: Event) {
    e.AbortedRun? && e.partial != "" ==>
      forall i | 0 <= i < |blocks| && blocks[i].kind == Content && blocks[i].status == Streaming ::
        blocks[i].content == e.partial
  }

  predicate FaithfulAborts(events: seq<Event>)
    decreases |events|
  {
    events != [] ==>
      var before := events[..|events| - 1];
      FaithfulAborts(before) && Faithful(Fold(START, before).blocks, events[|events| - 1])
  }

  // Each block is of a named part and each named part has one block; the latest part is the last block.
  predicate Ordered(blocks: seq<Block>, kind: Kind, names: seq<string>) {
    && (forall i | 0 <= i < |blocks| && blocks[i].kind == kind :: blocks[i].id in names)
    && (forall i, j | 0 <= i < j < |blocks| && blocks[i].kind == kind && blocks[j].kind == kind ::
          blocks[i].id != blocks[j].id && blocks[i].id != names[|names| - 1])
    && (forall n | n in names :: HasBlock(blocks, kind, n))
  }

  predicate Texts(blocks: seq<Block>, kind: Kind, events: seq<Event>) {
    forall i | 0 <= i < |blocks| && blocks[i].kind == kind :: blocks[i].content == TextOf(events, kind, blocks[i].id)
  }

  predicate Shows(blocks: seq<Block>, kind: Kind, events: seq<Event>) {
    Ordered(blocks, kind, Names(events, kind)) && Texts(blocks, kind, events)
  }

  predicate HasBlock(blocks: seq<Block>, kind: Kind, id: string) {
    exists i :: 0 <= i < |blocks| && blocks[i].kind == kind && blocks[i].id == id
  }

  // The blocks of a kind keep place, id and content, and none is added.
  predicate Keeps(blocks: seq<Block>, blocks': seq<Block>, kind: Kind) {
    && |blocks| <= |blocks'|
    && (forall i | 0 <= i < |blocks| :: blocks'[i].kind == blocks[i].kind
          && (blocks[i].kind == kind ==> blocks'[i].id == blocks[i].id && blocks'[i].content == blocks[i].content))
    && (forall i | |blocks| <= i < |blocks'| :: blocks'[i].kind != kind)
  }

  lemma {:induction false} OtherEventsKeep(blocks: seq<Block>, e: Event, kind: Kind)
    requires kind == Reasoning || kind == Content
    requires !(IsDelta(e) && e.kind == kind) && Faithful(blocks, e)
    ensures Keeps(blocks, ApplyToBlocks(blocks, e), kind)
  {
  }

  // One more event: what it adds to the names and texts of a kind.
  lemma {:induction false} OneMore(before: seq<Event>, e: Event, kind: Kind)
    ensures Names(before + [e], kind) ==
      var names := Names(before, kind);
      if IsDelta(e) && e.kind == kind && Home(names, e) !in names then names + [Home(names, e)] else names
    ensures forall n :: (TextOf(before + [e], kind, n) == TextOf(before, kind, n) + (
      if IsDelta(e) && e.kind == kind && Home(Names(before, kind), e) == n then e.text else ""))
  {
    assert (before + [e])[..|before|] == before;
  }

  // No block of the kind is added or changes its id.
  lemma {:induction false} SameIdsOrdered(blocks: seq<Block>, blocks': seq<Block>, kind: Kind, names: seq<string>)
    requires Ordered(blocks, kind, names) && |blocks| <= |blocks'|
    requires forall i | 0 <= i < |blocks| ::
      blocks'[i].kind == blocks[i].kind && (blocks[i].kind == kind ==> blocks'[i].id == blocks[i].id)
    requires forall i | |blocks| <= i < |blocks'| :: blocks'[i].kind != kind
    ensures Ordered(blocks', kind, names)
  {
    forall n | n in names ensures HasBlock(blocks', kind, n) {
      assert HasBlock(blocks, kind, n);
      var i :| 0 <= i < |blocks| && blocks[i].kind == kind && blocks[i].id == n;
      assert blocks'[i].id == n;
    }
  }

  lemma {:induction false} KeepsShows(blocks: seq<Block>, blocks': seq<Block>, kind: Kind, before: seq<Event>, e: Event)
    requires Shows(blocks, kind, before) && Keeps(blocks, blocks', kind)
    requires !(IsDelta(e) && e.kind == kind)
    ensures Shows(blocks', kind, before + [e])
  {
    OneMore(before, e, kind);
    SameIdsOrdered(blocks, blocks', kind, Names(before, kind));
    forall i | 0 <= i < |blocks'| && blocks'[i].kind == kind
      ensures blocks'[i].content == TextOf(before + [e], kind, blocks'[i].id)
    {
      assert TextOf(before, kind, blocks'[i].id) + "" == TextOf(before, kind, blocks'[i].id);
    }
  }

  lemma {:induction false} UnnamedIsEmpty(events: seq<Event>, kind: Kind, n: string)
    requires n !in Names(events, kind)
    ensures TextOf(events, kind, n) == ""
    decreases |events|
  {
    if events != [] {
      UnnamedIsEmpty(events[..|events| - 1], kind, n);
    }
  }

  // The part of a delta that needs a new block has not been named before.
  lemma {:induction false} NewHome(blocks: seq<Block>, before: seq<Event>, e: Event)
    requires IsDelta(e) && Ordered(blocks, e.kind, Names(before, e.kind)) && FindLast(blocks, e.kind, e.part) == 0
    ensures Home(Names(before, e.kind), e) !in Names(before, e.kind)
  {
    var names := Names(before, e.kind);
    assert names != [] ==> HasBlock(blocks, e.kind, names[|names| - 1]);
    assert Home(names, e) in names ==> HasBlock(blocks, e.kind, Home(names, e));
  }

  lemma {:induction false} NewBlockIsNamed(blocks: seq<Block>, before: seq<Event>, e: Event)
    requires IsDelta(e) && Ordered(blocks, e.kind, Names(before, e.kind)) && FindLast(blocks, e.kind, e.part) == 0
    ensures var b := ApplyDelta(blocks, e)[|blocks|]; b.kind == e.kind && b.id == Home(Names(before, e.kind), e)
  {
    var names := Names(before, e.kind);
    assert names != [] ==> HasBlock(blocks, e.kind, names[|names| - 1]);
  }

  lemma {:induction false} OneMoreOrdered(blocks: seq<Block>, b: Block, kind: Kind, names: seq<string>)
    requires Ordered(blocks, kind, names) && b.kind == kind && b.id !in names
    ensures Ordered(blocks + [b], kind, names + [b.id])
  {
    var blocks' := blocks + [b];
    forall n | n in names + [b.id] ensures HasBlock(blocks', kind, n) {
      if n in names {
        assert HasBlock(blocks, kind, n);
        var i :| 0 <= i < |blocks| && blocks[i].kind == kind && blocks[i].id == n;
        assert blocks'[i] == blocks[i];
      } else {
        assert blocks'[|blocks|] == b;
      }
    }
  }

  lemma {:induction false} NewBlockShows(blocks: seq<Block>, before: seq<Event>, e: Event)
    requires IsDelta(e) && Shows(blocks, e.kind, before) && FindLast(blocks, e.kind, e.part) == 0
    ensures Shows(ApplyDelta(blocks, e), e.kind, before + [e])
  {
    var home := Home(Names(before, e.kind), e);
    NewHome(blocks, before, e);
    OneMore(before, e, e.kind);
    UnnamedIsEmpty(before, e.kind, home);
    NewBlockIsNamed(blocks, before, e);
    var blocks' := ApplyDelta(blocks, e);
    OneMoreOrdered(blocks, blocks'[|blocks|], e.kind, Names(before, e.kind));
    forall i | 0 <= i < |blocks| && blocks[i].kind == e.kind
      ensures blocks'[i] == blocks[i] && blocks[i].id != home
      ensures blocks[i].content == TextOf(before + [e], e.kind, blocks[i].id)
    {
      assert TextOf(before, e.kind, blocks[i].id) + "" == TextOf(before, e.kind, blocks[i].id);
    }
  }

  lemma {:induction false} GrownBlockText(blocks: seq<Block>, before: seq<Event>, e: Event, i: nat)
    requires IsDelta(e) && Shows(blocks, e.kind, before) && FindLast(blocks, e.kind, e.part) > 0
    requires i < |blocks| && blocks[i].kind == e.kind
    ensures ApplyDelta(blocks, e)[i].content == TextOf(before + [e], e.kind, blocks[i].id)
  {
    OneMore(before, e, e.kind);
    LastBlockIsHome(blocks, before, e);
    var at := FindLast(blocks, e.kind, e.part) - 1;
    if i != at {
      assert blocks[i].id != blocks[at].id;
      assert TextOf(before, e.kind, blocks[i].id) + "" == TextOf(before, e.kind, blocks[i].id);
    }
  }

  lemma {:induction false} GrownBlockShows(blocks: seq<Block>, before: seq<Event>, e: Event)
    requires IsDelta(e) && Shows(blocks, e.kind, before) && FindLast(blocks, e.kind, e.part) > 0
    ensures Shows(ApplyDelta(blocks, e), e.kind, before + [e])
  {
    var names := Names(before, e.kind);
    var blocks' := ApplyDelta(blocks, e);
    assert Names(before + [e], e.kind) == names by {
      OneMore(before, e, e.kind);
      LastBlockIsHome(blocks, before, e);
    }
    SameIdsOrdered(blocks, blocks', e.kind, names);
    forall i | 0 <= i < |blocks'| && blocks'[i].kind == e.kind
      ensures blocks'[i].content == TextOf(before + [e], e.kind, blocks'[i].id)
    {
      GrownBlockText(blocks, before, e, i);
    }
  }

  lemma {:induction false} LastBlockIsHome(blocks: seq<Block>, before: seq<Event>, e: Event)
    requires IsDelta(e) && Ordered(blocks, e.kind, Names(before, e.kind)) && FindLast(blocks, e.kind, e.part) > 0
    ensures blocks[FindLast(blocks, e.kind, e.part) - 1].id == Home(Names(before, e.kind), e)
  {
    var names := Names(before, e.kind);
    if e.part == "" {
      var last := names[|names| - 1];
      assert HasBlock(blocks, e.kind, last);
    }
  }

  /** Over every event sequence whose aborts are faithful, the content of each reasoning and content
      block is the concatenation of the deltas of its part, and each part has exactly one block. */
  lemma {:induction false} ContentIsTheDeltas(events: seq<Event>, kind: Kind)
    requires FaithfulAborts(events) && (kind == Reasoning || kind == Content)
    ensures Shows(Fold(START, events).blocks, kind, events)
    decreases |events|
  {
    if events != [] {
      var before, e := events[..|events| - 1], events[|events| - 1];
      assert before + [e] == events;
      ContentIsTheDeltas(before, kind);
      var blocks := Fold(START, before).blocks;
      if IsDelta(e) && e.kind == kind {
        if FindLast(blocks, kind, e.part) > 0 {
          GrownBlockShows(blocks, before, e);
        } else {
          NewBlockShows(blocks, before, e);
        }
      } else {
        OtherEventsKeep(blocks, e, kind);
        KeepsShows(blocks, ApplyToBlocks(blocks, e), kind, before, e);
      }
    }
  }

  lemma {:induction false} DeltaKeepsOrder(blocks: seq<Block>, before: seq<Event>, e: Event)
    requires IsDelta(e) && Ordered(blocks, e.kind, Names(before, e.kind))
    ensures Ordered(ApplyDelta(blocks, e), e.kind, Names(before + [e], e.kind))
  {
    OneMore(before, e, e.kind);
    if FindLast(blocks, e.kind, e.part) > 0 {
      LastBlockIsHome(blocks, before, e);
      SameIdsOrdered(blocks, ApplyDelta(blocks, e), e.kind, Names(before, e.kind));
    } else {
      NewHome(blocks, before, e);
      NewBlockIsNamed(blocks, before, e);
      OneMoreOrdered(blocks, ApplyDelta(blocks, e)[|blocks|], e.kind, Names(before, e.kind));
    }
  }

  lemma {:induction false} OtherEventsKeepIds(blocks: seq<Block>, e: Event, kind: Kind)
    requires kind == Reasoning || kind == Content
    requires !(IsDelta(e) && e.kind == kind)
    ensures var blocks' := ApplyToBlocks(blocks, e);
      && |blocks| <= |blocks'|
      && (forall i | 0 <= i < |blocks| :: blocks'[i].kind == blocks[i].kind && (blocks[i].kind == kind ==> blocks'[i].id == blocks[i].id))
      && (forall i | |blocks| <= i < |blocks'| :: blocks'[i].kind != kind)
  {
  }

  // Whatever the aborts carry, the blocks of a kind are those of its parts.
  lemma {:induction false} PartsHaveBlocks(events: seq<Event>, kind: Kind)
    requires kind == Reasoning || kind == Content
    ensures Ordered(Fold(START, events).blocks, kind, Names(events, kind))
    decreases |events|
  {
    if events != [] {
      var before, e := events[..|events| - 1], events[|events| - 1];
      assert before + [e] == events;
      PartsHaveBlocks(before, kind);
      var blocks := Fold(START, before).blocks;
      if IsDelta(e) && e.kind == kind {
        DeltaKeepsOrder(blocks, before, e);
      } else {
        OneMore(before, e, kind);
        OtherEventsKeepIds(blocks, e, kind);
        SameIdsOrdered(blocks, ApplyToBlocks(blocks, e), kind, Names(before, kind));
      }
    }
  }

  // A part streams from its last delta on, until it is completed or the run is aborted.
  function PartStatus(events: seq<Event>, name: string): BlockStatus
    decreases |events|
  {
    if events == [] then Streaming
    else
      var e, before := events[|events| - 1], events[..|events| - 1];
      var was := PartStatus(before, name);
      if IsDelta(e) && e.kind == Content && Home(Names(before, Content), e) == name then Streaming
      else if e.ContentCompleted? && (if e.part != "" then e.part == name else was == Streaming) then
        (if e.incomplete then Incomplete else Done)
      else if e.AbortedRun? && was == Streaming then Aborted
      else was
  }

  predicate ShowsStatus(blocks: seq<Block>, events: seq<Event>) {
    forall i | 0 <= i < |blocks| && blocks[i].kind == Content :: blocks[i].status == PartStatus(events, blocks[i].id)
  }

  lemma {:induction false} DeltaShowsStatus(blocks: seq<Block>, before: seq<Event>, e: Event)
    requires IsDelta(e) && e.kind == Content && Ordered(blocks, Content, Names(before, Content)) && ShowsStatus(blocks, before)
    ensures ShowsStatus(ApplyDelta(blocks, e), before + [e])
  {
    assert (before + [e])[..|before|] == before;
    if FindLast(blocks, Content, e.part) > 0 {
      LastBlockIsHome(blocks, before, e);
    } else {
      NewHome(blocks, before, e);
      NewBlockIsNamed(blocks, before, e);
    }
  }

  /** Each content block has the status of its part. */
  lemma {:induction false} PartsShowTheirStatus(events: seq<Event>)
    ensures ShowsStatus(Fold(START, events).blocks, events)
    decreases |events|
  {
    if events != [] {
      var before, e := events[..|events| - 1], events[|events| - 1];
      assert before + [e] == events;
      PartsShowTheirStatus(before);
      var blocks := Fold(START, before).blocks;
      if IsDelta(e) && e.kind == Content {
        PartsHaveBlocks(before, Content);
        DeltaShowsStatus(blocks, before, e);
      } else {
        OtherShowsStatus(blocks, before, e);
      }
    }
  }

  lemma {:induction false} OtherShowsStatus(blocks: seq<Block>, before: seq<Event>, e: Event)
    requires ShowsStatus(blocks, before) && !(IsDelta(e) && e.kind == Content)
    ensures ShowsStatus(ApplyToBlocks(blocks, e), before + [e])
  {
    assert (before + [e])[..|before|] == before;
    OtherEventsKeepIds(blocks, e, Content);
  }

  /** The view streams until the run is completed, and says completed exactly after that event. */
  lemma {:induction false} FlagsFollowTheRun(events: seq<Event>)
    ensures Fold(START, events).streaming <==> forall i | 0 <= i < |events| :: !events[i].Completed?
    ensures Fold(START, events).completed <==> events != [] && events[|events| - 1].Completed?
    decreases |events|
  {
    if events != [] {
      FlagsFollowTheRun(events[..|events| - 1]);
    }
  }

  /** The condition is exact: an abort keeps the contents right if and only if it is faithful. */
  lemma {:induction false} AbortMustBeFaithful(blocks: seq<Block>, before: seq<Event>, e: Event)
    requires e.AbortedRun? && Shows(blocks, Content, before)
    ensures Shows(ApplyToBlocks(blocks, e), Content, before + [e]) <==> Faithful(blocks, e)
  {
    var blocks' := ApplyToBlocks(blocks, e);
    OneMore(before, e, Content);
    if Faithful(blocks, e) {
      OtherEventsKeep(blocks, e, Content);
      KeepsShows(blocks, blocks', Content, before, e);
    } else {
      var i :| 0 <= i < |blocks| && blocks[i].kind == Content && blocks[i].status == Streaming && blocks[i].content != e.partial;
      assert blocks'[i].content != TextOf(before + [e], Content, blocks'[i].id);
    }
  }

  /** Such an abort: the engine keeps the text of a delta before it publishes the delta, so an abort in
      between carries more than the deltas. */
  lemma {:induction false} AbortReplacesText()
    ensures var events := [Delta(Content, "p", "ab", "x"), AbortedRun("abc")];
      Fold(START, events).blocks[0].content == "abc" != TextOf(events, Content, "p")
  {
    var d := Delta(Content, "p", "ab", "x");
    var abort := AbortedRun("abc");
    assert [d, abort][..1] == [d] && [d][..0] == [];
    assert Fold(START, [d]) == Apply(START, d);
    assert Fold(START, [d, abort]) == Apply(Fold(START, [d]), abort);
    OneMore([], d, Content);
    OneMore([d], abort, Content);
    assert [] + [d] == [d] && [d] + [abort] == [d, abort];
    assert TextOf([d, abort], Content, "p") == "ab";
  }

  // ------------------------------------------------------------------------------------------
  // Live tool output
  // ------------------------------------------------------------------------------------------

  function ToolId(e: Event): string
    requires e.ToolStarted?
  {
    if e.id != "" then e.id else e.freshId
  }

  predicate Started(events: seq<Event>, id: string) {
    exists i :: 0 <= i < |events| && events[i].ToolStarted? && ToolId(events[i]) == id
  }

  // The first call with an id is the one that output and results with that id go to.
  predicate Opens(before: seq<Event>, e: Event, id: string) {
    e.ToolStarted? && ToolId(e) == id && !Started(before, id)
  }

  predicate InProgress(events: seq<Event>, id: string)
    decreases |events|
  {
    events != [] &&
    var e, before := events[|events| - 1], events[..|events| - 1];
    Opens(before, e, id) || (InProgress(before, id) && !(e.ToolFinished? && e.id == id) && !e.AbortedRun?)
  }

  // Everything a tool has printed since it started, or since its output was last cleared.
  function WholeOutput(events: seq<Event>, id: string): string
    decreases |events|
  {
    if events == [] then ""
    else
      var e, before := events[|events| - 1], events[..|events| - 1];
      if e.ToolOutput? && e.id == id && Started(before, id) then WholeOutput(before, id) + e.text
      else if e.ToolFinished? && e.id == id then ""
      else if e.AbortedRun? && InProgress(before, id) then ""
      else WholeOutput(before, id)
  }

  predicate IsTool(b: Block, id: string) {
    b.kind == Tool && b.id == id
  }

  // The first block of a started tool shows the end of its output; another block with the id shows none.
  predicate ToolShows(blocks: seq<Block>, id: string, started: bool, running: bool, output: string) {
    && (started <==> FindTool(blocks, id) < |blocks|)
    && (started ==>
          var b := blocks[FindTool(blocks, id)];
          LiveText(b) == Tail(output) && (b.status == Running <==> running))
    && (forall i | FindTool(blocks, id) < i < |blocks| && IsTool(blocks[i], id) :: LiveText(blocks[i]) == "")
  }

  lemma {:induction false} TailOfTail(a: string, b: string)
    ensures Tail(Tail(a) + b) == Tail(a + b)
  {
  }

  // The tool's blocks stay where they are and show what they should now.
  lemma {:induction false} SameTools(blocks: seq<Block>, blocks': seq<Block>, id: string, started: bool,
                  running: bool, running': bool, output: string, output': string)
    requires ToolShows(blocks, id, started, running, output) && |blocks| <= |blocks'|
    requires forall i | 0 <= i < |blocks| :: IsTool(blocks'[i], id) <==> IsTool(blocks[i], id)
    requires forall i | |blocks| <= i < |blocks'| && IsTool(blocks'[i], id) :: started && LiveText(blocks'[i]) == ""
    requires forall i | 0 <= i < |blocks| && i != FindTool(blocks, id) && IsTool(blocks[i], id) ::
      LiveText(blocks[i]) == "" ==> LiveText(blocks'[i]) == ""
    requires started ==>
      var b := blocks'[FindTool(blocks, id)];
      LiveText(b) == Tail(output') && (b.status == Running <==> running')
    ensures ToolShows(blocks', id, started, running', output')
  {
    var n := FindTool(blocks, id);
    if started {
      assert IsTool(blocks'[n], id) && forall i | 0 <= i < n :: !IsTool(blocks'[i], id);
      assert FindTool(blocks', id) == n;
    }
  }

  function OutputAfter(e: Event, id: string, started: bool, running: bool, output: string): string {
    if e.ToolOutput? && e.id == id && started then output + e.text
    else if e.ToolFinished? && e.id == id then ""
    else if e.AbortedRun? && running then ""
    else output
  }

  function RunningAfter(e: Event, id: string, running: bool): bool {
    running && !(e.ToolFinished? && e.id == id) && !e.AbortedRun?
  }

  // Output or the end of some tool.
  lemma {:induction false} ToolEventKeeps(blocks: seq<Block>, e: Event, id: string, started: bool, running: bool, output: string)
    requires ToolShows(blocks, id, started, running, output) && (!started ==> output == "" && !running)
    requires e.ToolOutput? || e.ToolFinished?
    ensures ToolShows(ApplyToBlocks(blocks, e), id, started, RunningAfter(e, id, running), OutputAfter(e, id, started, running, output))
  {
    if e.ToolOutput? {
      TailOfTail(output, e.text);
    }
    SameTools(blocks, ApplyToBlocks(blocks, e), id, started, running, RunningAfter(e, id, running),
      output, OutputAfter(e, id, started, running, output));
  }

  // Blocks change in place, none is added.
  lemma {:induction false} EditKeepsTools(blocks: seq<Block>, e: Event, id: string, started: bool, running: bool, output: string)
    requires ToolShows(blocks, id, started, running, output) && (!started ==> output == "" && !running)
    requires e.ContentCompleted? || e.AbortedRun?
    ensures ToolShows(ApplyToBlocks(blocks, e), id, started, RunningAfter(e, id, running), OutputAfter(e, id, started, running, output))
  {
    SameTools(blocks, ApplyToBlocks(blocks, e), id, started, running, RunningAfter(e, id, running),
      output, OutputAfter(e, id, started, running, output));
  }

  lemma {:induction false} DeltaKeepsTools(blocks: seq<Block>, e: Event, id: string, started: bool, running: bool, output: string)
    requires ToolShows(blocks, id, started, running, output) && e.Delta?
    ensures ToolShows(ApplyToBlocks(blocks, e), id, started, running, output)
  {
    SameTools(blocks, ApplyToBlocks(blocks, e), id, started, running, running, output, output);
  }

  lemma {:induction false} ApplyKeepsTools(blocks: seq<Block>, e: Event, id: string, started: bool, running: bool, output: string)
    requires ToolShows(blocks, id, started, running, output) && (!started ==> output == "" && !running)
    requires e.ToolStarted? && ToolId(e) == id ==> started
    ensures ToolShows(ApplyToBlocks(blocks, e), id, started, RunningAfter(e, id, running), OutputAfter(e, id, started, running, output))
  {
    if e.ToolOutput? || e.ToolFinished? {
      ToolEventKeeps(blocks, e, id, started, running, output);
    } else if e.ContentCompleted? || e.AbortedRun? {
      EditKeepsTools(blocks, e, id, started, running, output);
    } else if e.Delta? {
      DeltaKeepsTools(blocks, e, id, started, running, output);
    } else {
      SameTools(blocks, ApplyToBlocks(blocks, e), id, started, running, running, output, output);
    }
  }

  lemma {:induction false} StartShowsTool(blocks: seq<Block>, e: Event)
    requires e.ToolStarted? && ToolShows(blocks, ToolId(e), false, false, "")
    ensures ToolShows(ApplyToBlocks(blocks, e), ToolId(e), true, true, "")
  {
    var blocks' := ApplyToBlocks(blocks, e);
    assert IsTool(blocks'[|blocks|], ToolId(e)) && forall i | 0 <= i < |blocks| :: blocks'[i] == blocks[i];
    assert FindTool(blocks', ToolId(e)) == |blocks|;
  }

  /** The live output of a tool is always the last 4000 characters of everything it has printed. */
  lemma {:induction false} LiveOutputIsTheTail(events: seq<Event>, id: string)
    ensures ToolShows(Fold(START, events).blocks, id, Started(events, id), InProgress(events, id), WholeOutput(events, id))
    ensures !Started(events, id) ==> WholeOutput(events, id) == "" && !InProgress(events, id)
    decreases |events|
  {
    if events != [] {
      var before, e := events[..|events| - 1], events[|events| - 1];
      LiveOutputIsTheTail(before, id);
      StartedMore(before, e, id);
      assert before + [e] == events;
      if Opens(before, e, id) {
        StartShowsTool(Fold(START, before).blocks, e);
      } else {
        ApplyKeepsTools(Fold(START, before).blocks, e, id, Started(before, id), InProgress(before, id), WholeOutput(before, id));
      }
    }
  }

  lemma {:induction false} StartedMore(before: seq<Event>, e: Event, id: string)
    ensures Started(before + [e], id) <==> Started(before, id) || (e.ToolStarted? && ToolId(e) == id)
  {
    if Started(before, id) {
      var i :| 0 <= i < |before| && before[i].ToolStarted? && ToolId(before[i]) == id;
      assert (before + [e])[i] == before[i];
    }
    if e.ToolStarted? && ToolId(e) == id {
      assert (before + [e])[|before|] == e;
    }
  }

  // What has become of a tool.
  datatype Fate = Unseen | AtWork | Ended(output: string, aborted: bool) | CutShort

  function FateOf(events: seq<Event>, id: string): Fate
    decreases |events|
  {
    if events == [] then Unseen
    else
      var e, before := events[|events| - 1], events[..|events| - 1];
      var was := FateOf(before, id);
      if e.ToolStarted? && ToolId(e) == id && was == Unseen then AtWork
      else if e.ToolFinished? && e.id == id && was != Unseen then Ended(e.output, e.aborted)
      else if e.AbortedRun? && was == AtWork then CutShort
      else was
  }

  predicate ShowsFate(blocks: seq<Block>, id: string, fate: Fate) {
    && (fate == Unseen <==> FindTool(blocks, id) == |blocks|)
    && (fate != Unseen ==>
          var b := blocks[FindTool(blocks, id)];
          match fate
          case Ended(output, aborted) => b.output == output && b.status == if aborted then Aborted else Done
          case CutShort => b.output == STOPPED && b.status == Aborted
          case _ => b.status == Running)
  }

  // The tool's block stays where it is.
  lemma {:induction false} SameTool(blocks: seq<Block>, blocks': seq<Block>, id: string)
    requires |blocks| <= |blocks'| && forall i | 0 <= i < |blocks| :: IsTool(blocks'[i], id) <==> IsTool(blocks[i], id)
    requires forall i | |blocks| <= i < |blocks'| :: FindTool(blocks, id) < |blocks| || !IsTool(blocks'[i], id)
    ensures FindTool(blocks', id) == if FindTool(blocks, id) < |blocks| then FindTool(blocks, id) else |blocks'|
  {
    var n, n' := FindTool(blocks, id), FindTool(blocks', id);
    assert n < |blocks| ==> IsTool(blocks'[n], id);
    assert n' < |blocks| ==> IsTool(blocks[n'], id);
  }

  lemma {:induction false} StartShowsFate(blocks: seq<Block>, e: Event, id: string)
    requires e.ToolStarted? && ShowsFate(blocks, id, Unseen)
    ensures ShowsFate(ApplyToBlocks(blocks, e), id, if ToolId(e) == id then AtWork else Unseen)
  {
    var blocks' := ApplyToBlocks(blocks, e);
    assert forall i | 0 <= i < |blocks| :: blocks'[i] == blocks[i] && !IsTool(blocks[i], id);
    assert IsTool(blocks'[|blocks|], ToolId(e));
  }

  function FateAfter(was: Fate, e: Event, id: string): Fate {
    if e.ToolFinished? && e.id == id && was != Unseen then Ended(e.output, e.aborted)
    else if e.AbortedRun? && was == AtWork then CutShort
    else was
  }

  lemma {:induction false} DeltaShowsFate(blocks: seq<Block>, e: Event, id: string, was: Fate)
    requires ShowsFate(blocks, id, was) && e.Delta?
    ensures ShowsFate(ApplyToBlocks(blocks, e), id, was)
  {
    SameTool(blocks, ApplyToBlocks(blocks, e), id);
  }

  lemma {:induction false} ToolEventShowsFate(blocks: seq<Block>, e: Event, id: string, was: Fate)
    requires ShowsFate(blocks, id, was) && (e.ToolOutput? || e.ToolFinished? || (e.ToolStarted? && was != Unseen))
    ensures ShowsFate(ApplyToBlocks(blocks, e), id, FateAfter(was, e, id))
  {
    SameTool(blocks, ApplyToBlocks(blocks, e), id);
  }

  lemma {:induction false} EventShowsFate(blocks: seq<Block>, e: Event, id: string, was: Fate)
    requires ShowsFate(blocks, id, was) && !e.ToolStarted? && !e.ToolOutput? && !e.ToolFinished? && !e.Delta?
    ensures ShowsFate(ApplyToBlocks(blocks, e), id, FateAfter(was, e, id))
  {
    SameTool(blocks, ApplyToBlocks(blocks, e), id);
  }

  /** The first block of each tool shows what has become of the tool: at work, its output, or cut short. */
  lemma {:induction false} ToolsShowTheirFate(events: seq<Event>, id: string)
    ensures ShowsFate(Fold(START, events).blocks, id, FateOf(events, id))
    decreases |events|
  {
    if events != [] {
      var before, e := events[..|events| - 1], events[|events| - 1];
      ToolsShowTheirFate(before, id);
      var blocks, was := Fold(START, before).blocks, FateOf(before, id);
      if e.ToolStarted? && was == Unseen {
        StartShowsFate(blocks, e, id);
      } else if e.Delta? {
        DeltaShowsFate(blocks, e, id, was);
      } else if e.ToolStarted? || e.ToolOutput? || e.ToolFinished? {
        ToolEventShowsFate(blocks, e, id, was);
      } else {
        EventShowsFate(blocks, e, id, was);
      }
    }
  }

  // ------------------------------------------------------------------------------------------
  // The view and the log
  // ------------------------------------------------------------------------------------------

  // A publish holds the publish lock from its commit to its fan-out and updates the view in between.
  datatype Flight = Idle | Committed(number: nat) | Applied

  // The view of the current drive: events after number `base` belong to it; `last` is last_seq.
  datatype Drive = Drive(base: nat, view: View, last: nat)

  datatype Feed = Feed(log: seq<Event>, outside: set<nat>, flight: Flight, drive: Option<Drive>)

  datatype Step =
    | Open                     // a start or a resume puts an empty view in place
    | Commit(event: Event)
    | UpdateView
    | Release
    | Abandon                  // the publish raises after its commit
    | CommitOutside(event: Event)
    | Discard

  predicate Enabled(f: Feed, m: Step) {
    match m
    case Commit(_) => f.flight == Idle
    case UpdateView => f.flight.Committed?
    case Release => f.flight == Applied
    case Abandon => f.flight.Committed?
    case _ => true
  }

  function Next(f: Feed, m: Step): Feed
    requires Enabled(f, m) && WellNumbered(f)
  {
    match m
    case Open =>
      var base := if f.flight.Committed? then f.flight.number - 1 else |f.log|;
      f.(drive := Some(Drive(base, START, base)))
    case Commit(e) => f.(log := f.log + [e], flight := Committed(|f.log| + 1))
    case UpdateView =>
      var n := f.flight.number;
      var g := f.(flight := Applied);
      if f.drive.None? then g
      else g.(drive := Some(f.drive.value.(view := Apply(f.drive.value.view, f.log[n - 1]), last := n)))
    case Release => f.(flight := Idle)
    case Abandon => f.(flight := Idle, outside := f.outside + {f.flight.number})
    case CommitOutside(e) => f.(log := f.log + [e], outside := f.outside + {|f.log| + 1})
    case Discard => f.(drive := None)
  }

  predicate WellNumbered(f: Feed) {
    f.flight.Committed? ==> 1 <= f.flight.number <= |f.log|
  }

  // The events numbered low + 1 to high that were published, not just appended.
  function Published(log: seq<Event>, outside: set<nat>, low: nat, high: nat): seq<Event>
    requires low <= high <= |log|
  {
    if low == high then []
    else Published(log, outside, low, high - 1) + (if high in outside then [] else [log[high - 1]])
  }

  // An event in flight is the latest published one.
  predicate FlightOk(f: Feed) {
    && WellNumbered(f)
    && (forall n | n in f.outside :: n <= |f.log|)
    && (f.flight.Committed? ==> f.flight.number !in f.outside)
    && (f.flight.Committed? ==> forall n | f.flight.number < n <= |f.log| :: n in f.outside)
  }

  // The view holds the published events up to `last`; later ones are unpublished or in flight.
  predicate DriveFits(log: seq<Event>, outside: set<nat>, flight: Flight, d: Drive) {
    && d.base <= d.last <= |log|
    && d.view == Fold(START, Published(log, outside, d.base, d.last))
    && (forall n | d.last < n <= |log| :: n in outside || flight == Committed(n))
    && (flight.Committed? ==> d.last < flight.number)
  }

  predicate DriveOk(f: Feed) {
    f.drive.Some? ==> DriveFits(f.log, f.outside, f.flight, f.drive.value)
  }

  predicate Current(f: Feed) {
    FlightOk(f) && DriveOk(f)
  }

  lemma {:induction false} PublishedStable(log: seq<Event>, more: seq<Event>, outside: set<nat>, extra: set<nat>, low: nat, high: nat)
    requires low <= high <= |log| && forall n | n in extra :: n > high
    ensures Published(log + more, outside + extra, low, high) == Published(log, outside, low, high)
    decreases high
  {
    if low < high {
      PublishedStable(log, more, outside, extra, low, high - 1);
    }
  }

  lemma {:induction false} PublishedSplits(log: seq<Event>, outside: set<nat>, low: nat, mid: nat, high: nat)
    requires low <= mid <= high <= |log|
    ensures Published(log, outside, low, high) == Published(log, outside, low, mid) + Published(log, outside, mid, high)
    decreases high
  {
    if mid < high {
      PublishedSplits(log, outside, low, mid, high - 1);
    }
  }

  lemma {:induction false} NothingPublished(log: seq<Event>, outside: set<nat>, low: nat, high: nat)
    requires low <= high <= |log| && forall n | low < n <= high :: n in outside
    ensures Published(log, outside, low, high) == []
    decreases high
  {
    if low < high {
      NothingPublished(log, outside, low, high - 1);
    }
  }

  lemma {:induction false} FoldSplits(v: View, a: seq<Event>, b: seq<Event>)
    ensures Fold(v, a + b) == Fold(Fold(v, a), b)
    decreases |b|
  {
    if b == [] {
      assert a + b == a;
    } else {
      assert (a + b)[..|a + b| - 1] == a + b[..|b| - 1];
      FoldSplits(v, a, b[..|b| - 1]);
    }
  }

  // Apart from the new log and the new set, the drive is as it was.
  lemma {:induction false} LogGrows(f: Feed, more: seq<Event>, extra: set<nat>)
    requires Current(f) && f.drive.Some? && forall n | n in extra :: n > f.drive.value.last
    ensures var d := f.drive.value;
      d.view == Fold(START, Published(f.log + more, f.outside + extra, d.base, d.last))
  {
    PublishedStable(f.log, more, f.outside, extra, f.drive.value.base, f.drive.value.last);
  }

  lemma {:induction false} UpdateKeepsCurrent(f: Feed)
    requires Current(f) && f.flight.Committed? && f.drive.Some?
    ensures var d := f.drive.value; var n := f.flight.number;
      Apply(d.view, f.log[n - 1]) == Fold(START, Published(f.log, f.outside, d.base, n))
  {
    var d := f.drive.value;
    var n := f.flight.number;
    PublishedSplits(f.log, f.outside, d.base, d.last, n);
    NothingPublished(f.log, f.outside, d.last, n - 1);
    assert Published(f.log, f.outside, d.last, n) == [f.log[n - 1]];
    FoldSplits(START, Published(f.log, f.outside, d.base, d.last), [f.log[n - 1]]);
    assert [f.log[n - 1]][..0] == [];
    assert Fold(d.view, [f.log[n - 1]]) == Apply(d.view, f.log[n - 1]);
  }

  lemma {:induction false} StepKeepsFlight(f: Feed, m: Step)
    requires FlightOk(f) && Enabled(f, m)
    ensures FlightOk(Next(f, m))
  {
  }

  lemma {:induction false} CommitKeepsDrive(f: Feed, e: Event)
    requires Current(f) && f.drive.Some? && f.flight == Idle
    ensures DriveFits(f.log + [e], f.outside, Committed(|f.log| + 1), f.drive.value)
  {
    LogGrows(f, [e], {});
    assert f.outside + {} == f.outside;
  }

  lemma {:induction false} OutsideKeepsDrive(f: Feed, more: seq<Event>, n: nat, flight: Flight)
    requires Current(f) && f.drive.Some? && n > f.drive.value.last && |more| <= 1
    requires (flight == f.flight && more != [] && n == |f.log| + 1) || (f.flight == Committed(n) && flight == Idle && more == [])
    ensures DriveFits(f.log + more, f.outside + {n}, flight, f.drive.value)
  {
    LogGrows(f, more, {n});
  }

  lemma {:induction false} StepKeepsDrive(f: Feed, m: Step)
    requires Current(f) && Enabled(f, m)
    ensures DriveOk(Next(f, m))
  {
    if f.drive.Some? {
      match m
      case Commit(e) => CommitKeepsDrive(f, e);
      case CommitOutside(e) => OutsideKeepsDrive(f, [e], |f.log| + 1, f.flight);
      case Abandon =>
        OutsideKeepsDrive(f, [], f.flight.number, Idle);
        assert f.log + [] == f.log;
      case UpdateView => UpdateKeepsCurrent(f);
      case _ =>
    }
  }

  lemma {:induction false} StepKeepsCurrent(f: Feed, m: Step)
    requires Current(f) && Enabled(f, m)
    ensures Current(Next(f, m))
  {
    StepKeepsFlight(f, m);
    StepKeepsDrive(f, m);
  }

  predicate Legal(f: Feed, steps: seq<Step>)
    requires WellNumbered(f)
    decreases |steps|
  {
    steps == [] || (Enabled(f, steps[0]) && Legal(Next(f, steps[0]), steps[1..]))
  }

  function After(f: Feed, steps: seq<Step>): Feed
    requires WellNumbered(f) && Legal(f, steps)
    decreases |steps|
  {
    if steps == [] then f else After(Next(f, steps[0]), steps[1..])
  }

  lemma {:induction false} StaysCurrent(f: Feed, steps: seq<Step>)
    requires Current(f) && Legal(f, steps)
    ensures Current(After(f, steps))
    decreases |steps|
  {
    if steps != [] {
      StepKeepsCurrent(f, steps[0]);
      StaysCurrent(Next(f, steps[0]), steps[1..]);
    }
  }

  /** At all times the view is the fold of the published events of its drive up to last_seq, and the
      view followed by the published events after last_seq is the full replay. */
  lemma {:induction false} ViewIsTheFoldOfTheLog(steps: seq<Step>)
    requires Legal(Feed([], {}, Idle, None), steps)
    requires After(Feed([], {}, Idle, None), steps).drive.Some?
    ensures var f := After(Feed([], {}, Idle, None), steps); var d := f.drive.value;
      && d.base <= d.last <= |f.log|
      && d.view == Fold(START, Published(f.log, f.outside, d.base, d.last))
      && Fold(d.view, Published(f.log, f.outside, d.last, |f.log|)) == Fold(START, Published(f.log, f.outside, d.base, |f.log|))
      && (!f.flight.Committed? ==> d.view == Fold(START, Published(f.log, f.outside, d.base, |f.log|)))
  {
    StaysCurrent(Feed([], {}, Idle, None), steps);
    var f := After(Feed([], {}, Idle, None), steps);
    var d := f.drive.value;
    PublishedSplits(f.log, f.outside, d.base, d.last, |f.log|);
    FoldSplits(START, Published(f.log, f.outside, d.base, d.last), Published(f.log, f.outside, d.last, |f.log|));
    if !f.flight.Committed? {
      NothingPublished(f.log, f.outside, d.last, |f.log|);
    }
  }

  function Publishing(events: seq<Event>): seq<Step> {
    if events == [] then [] else [Commit(events[0])] + ([UpdateView] + ([Release] + Publishing(events[1..])))
  }

  lemma {:induction false} FirstStep(f: Feed, m: Step, rest: seq<Step>)
    requires WellNumbered(f) && Enabled(f, m) && WellNumbered(Next(f, m)) && Legal(Next(f, m), rest)
    ensures Legal(f, [m] + rest) && After(f, [m] + rest) == After(Next(f, m), rest)
  {
    assert ([m] + rest)[1..] == rest;
  }

  // The feed after one event has been published to an open view.
  function Shown(f: Feed, e: Event): Feed
    requires f.drive.Some?
  {
    f.(log := f.log + [e], flight := Idle,
       drive := Some(Drive(f.drive.value.base, Apply(f.drive.value.view, e), |f.log| + 1)))
  }

  lemma {:induction false} OneIsShown(f: Feed, e: Event, rest: seq<Step>)
    requires f.flight == Idle && f.drive.Some? && Legal(Shown(f, e), rest)
    ensures Legal(f, [Commit(e)] + ([UpdateView] + ([Release] + rest)))
    ensures After(f, [Commit(e)] + ([UpdateView] + ([Release] + rest))) == After(Shown(f, e), rest)
  {
    var g := Next(f, Commit(e));
    var h := Next(g, UpdateView);
    assert Next(h, Release) == Shown(f, e);
    FirstStep(h, Release, rest);
    FirstStep(g, UpdateView, [Release] + rest);
    FirstStep(f, Commit(e), [UpdateView] + ([Release] + rest));
  }

  function AllShown(f: Feed, events: seq<Event>): Feed
    requires f.drive.Some?
  {
    var d := f.drive.value;
    f.(log := f.log + events,
       drive := Some(Drive(d.base, Fold(d.view, events), if events == [] then d.last else |f.log| + |events|)))
  }

  lemma {:induction false} ShownOneByOne(f: Feed, e: Event, more: seq<Event>)
    requires f.flight == Idle && f.drive.Some?
    ensures AllShown(Shown(f, e), more) == AllShown(f, [e] + more)
  {
    FoldSplits(f.drive.value.view, [e], more);
    assert [e][..0] == [];
    assert f.log + [e] + more == f.log + ([e] + more);
  }

  lemma {:induction false} AllAreShown(f: Feed, events: seq<Event>)
    requires f.flight == Idle && f.drive.Some?
    ensures Legal(f, Publishing(events)) && After(f, Publishing(events)) == AllShown(f, events)
    decreases |events|
  {
    if events == [] {
      assert f.log + [] == f.log;
    } else {
      var e, more := events[0], events[1..];
      AllAreShown(Shown(f, e), more);
      OneIsShown(f, e, Publishing(more));
      ShownOneByOne(f, e, more);
      assert [e] + more == events;
    }
  }

  /** A view that is opened while nothing is in flight starts empty; whatever is then published, one event after the
      other, is in the log and shown in the view. */
  lemma {:induction false} PublishedEventsAreShown(f: Feed, events: seq<Event>)
    requires f.flight == Idle
    ensures Legal(f, [Open] + Publishing(events))
    ensures var g := After(f, [Open] + Publishing(events));
      && g.log == f.log + events && g.outside == f.outside && g.flight == Idle
      && g.drive.Some? && g.drive.value.view == Fold(START, events) && g.drive.value.last == |g.log|
  {
    AllAreShown(Next(f, Open), events);
    FirstStep(f, Open, Publishing(events));
  }

  /** What is appended past the publish, or whose publish fails behind its commit, is in the log, and the view never
      learns of it; a view that is discarded is gone. */
  lemma {:induction false} OutsideEventsAreNotShown(f: Feed, e: Event)
    requires f.flight == Idle
    ensures Next(f, CommitOutside(e)) == f.(log := f.log + [e], outside := f.outside + {|f.log| + 1})
    ensures Next(Next(f, Commit(e)), Abandon) == Next(f, CommitOutside(e))
    ensures Next(f, Discard) == f.(drive := None)
  {
  }

  /** A restart of the tools is noted by a block of its own, last. */
  lemma {:induction false} NoticesAreAdded(v: View, freshId: string)
    ensures Apply(v, Recreated(freshId)).blocks == v.blocks + [Block(freshId, Notice, "", Done, "", None)]
  {
  }

  /** A preview is the end of the text, and all of it up to 4000 characters. */
  lemma {:induction false} TailIsTheEnd(s: string)
    ensures |Tail(s)| == (if |s| < 4000 then |s| else 4000) && Tail(s) == s[|s| - |Tail(s)|..]
  {
  }
}
