/**
Writing a session to its ledger and to the JSON file beside it
(backend/app/services/session_service.py, `persist_async`, `_persist_snapshot`, `_write_metadata`,
`_freeze_metadata`, `_commit_metadata`, `_reconcile_identity`;
backend/app/services/context/history_store.py, `capture`).

A write first takes a generation number and a frozen copy of the session.  Synchronous writes do it all
under one lock; asynchronous ones freeze at once and commit later, in any order.
*/
module Checkpoints {
  import opened Common

  type Generation = nat

  // What is written: one identity field, empty or not, and everything else.
  datatype Content = Content(identity: Option<string>, body: string)

  // `source` is the last generation of this process that had the stored content; None if another process wrote it.
  datatype Ledger = Ledger(revision: nat, content: Content, source: Option<Generation>)

  datatype Projection = Projection(generation: Generation, revision: nat, content: Content)

  datatype State = State(
    live: Content,                            // the session in memory
    ledgerRevision: nat,
    checkpointGeneration: Generation,
    nextGeneration: Generation,
    frozen: map<Generation, Content>,         // snapshots waiting for their commit
    captured: map<Generation, Content>,       // every snapshot ever taken
    lastCaptured: Option<Content>,            // what this process last captured
    ledger: Option<Ledger>,
    json: Option<Projection>
  )

  // ------------------------------------------------------------------------------------------
  // One commit
  // ------------------------------------------------------------------------------------------

  // An empty identity is filled from the conversation; a different one is a conflict.
  function Fill(c: Content, conversation: Option<string>): Option<Content> {
    if conversation.None? || c.identity == conversation then Some(c)
    else if c.identity.None? then Some(c.(identity := conversation))
    else None
  }

  // `capture`: the revision of the ledger afterwards, or None if the write was refused.  With a cached index
  // of messages the ledger also has to hold what that index was made from.
  function CapturedRevision(ledger: Option<Ledger>, c: Content, expected: nat, cached: Option<Content>): Option<nat> {
    if ledger.None? then (if expected == 0 && cached.None? then Some(1) else None)
    else if cached.Some? && ledger.value.content != cached.value then None
    else if ledger.value.content == c then Some(ledger.value.revision)
    else if ledger.value.revision == expected then Some(expected + 1)
    else None
  }

  // How the file system and the cache behave during one commit.
  datatype Luck = Luck(cached: bool, jsonWritten: bool)

  function Cached(s: State, luck: Luck): Option<Content> {
    if luck.cached then s.lastCaptured else None
  }

  function Commit(s: State, c: Content, g: Generation, luck: Luck): State {
    var revision := CapturedRevision(s.ledger, c, s.ledgerRevision, Cached(s, luck));
    if revision.None? then s
    else
      s.(ledgerRevision := revision.value, checkpointGeneration := g, lastCaptured := Some(c),
         ledger := Some(Ledger(revision.value, c, Some(g))),
         json := if luck.jsonWritten then Some(Projection(g, revision.value, c)) else s.json)
  }

  function Freeze(s: State): State {
    s.(nextGeneration := s.nextGeneration + 1, frozen := s.frozen[s.nextGeneration := s.live],
       captured := s.captured[s.nextGeneration := s.live])
  }

  function PersistSnapshot(s: State, g: Generation, conversation: Option<string>, luck: Luck): State
    requires g in s.frozen
  {
    var t := s.(frozen := s.frozen - {g});
    if g <= s.checkpointGeneration then t
    else
      var filled := Fill(s.frozen[g], conversation);
      if filled.None? then t else Commit(t, filled.value, g, luck)
  }

  function WriteMetadata(s: State, conversation: Option<string>, luck: Luck): State {
    var filled := Fill(s.live, conversation);
    if filled.None? then s
    else
      var g := s.nextGeneration;
      Commit(s.(live := filled.value, nextGeneration := g + 1, captured := s.captured[g := filled.value]),
             filled.value, g, luck)
  }

  /** The session object and its stores. */
  class SessionStore {
    var live: Content
    var ledgerRevision: nat
    var checkpointGeneration: Generation
    var nextGeneration: Generation
    var frozen: map<Generation, Content>
    ghost var captured: map<Generation, Content>
    var lastCaptured: Option<Content>
    var ledger: Option<Ledger>
    var json: Option<Projection>

    ghost function Model(): State
      reads this
    {
      State(live, ledgerRevision, checkpointGeneration, nextGeneration, frozen, captured, lastCaptured, ledger, json)
    }

    constructor (live: Content)
      ensures Model() == Start(live)
    {
      this.live, ledgerRevision, checkpointGeneration, nextGeneration := live, 0, 0, 1;
      frozen, captured, lastCaptured, ledger, json := map[], map[], None, None, None;
    }

    method FreezeMetadata() returns (g: Generation)
      modifies this
      ensures Model() == Freeze(old(Model())) && g == old(nextGeneration)
    {
      g := nextGeneration;
      nextGeneration := nextGeneration + 1;
      frozen, captured := frozen[g := live], captured[g := live];
    }

    method Capture(c: Content, g: Generation, cached: Option<Content>) returns (revision: Option<nat>)
      modifies this`ledger
      ensures revision == CapturedRevision(old(ledger), c, ledgerRevision, cached)
      ensures ledger == if revision.Some? then Some(Ledger(revision.value, c, Some(g))) else old(ledger)
    {
      if ledger == None && ledgerRevision != 0 {
        return None;
      }
      if cached.Some? && (ledger == None || ledger.value.content != cached.value) {
        return None;
      }
      if ledger != None && ledger.value.content == c {
        revision := Some(ledger.value.revision);
      } else {
        if ledger != None && ledger.value.revision != ledgerRevision {
          return None;
        }
        revision := Some(if ledger == None then 1 else ledger.value.revision + 1);
      }
      ledger := Some(Ledger(revision.value, c, Some(g)));
    }

    method CommitMetadata(c: Content, g: Generation, luck: Luck) returns (ok: bool)
      modifies this
      ensures Model() == Commit(old(Model()), c, g, luck)
      ensures var captured := CapturedRevision(old(ledger), c, old(ledgerRevision), Cached(old(Model()), luck));
        ok <==> luck.jsonWritten && captured.Some?
    {
      var revision := Capture(c, g, if luck.cached then lastCaptured else None);
      if revision.None? {
        return false;
      }
      ledgerRevision, checkpointGeneration, lastCaptured := revision.value, g, Some(c);
      if luck.jsonWritten {
        json := Some(Projection(g, revision.value, c));
      }
      ok := luck.jsonWritten;
    }

    method PersistFrozen(g: Generation, conversation: Option<string>, luck: Luck) returns (ok: bool)
      requires g in frozen
      modifies this
      ensures Model() == PersistSnapshot(old(Model()), g, conversation, luck)
    {
      var c := frozen[g];
      frozen := frozen - {g};
      if g <= checkpointGeneration {
        return true;
      }
      var filled := Fill(c, conversation);
      if filled.None? {
        return false;
      }
      ok := CommitMetadata(filled.value, g, luck);
    }

    method Write(conversation: Option<string>, luck: Luck) returns (ok: bool)
      modifies this
      ensures Model() == WriteMetadata(old(Model()), conversation, luck)
    {
      var filled := Fill(live, conversation);
      if filled.None? {
        return false;
      }
      live := filled.value;
      var g := nextGeneration;
      nextGeneration := nextGeneration + 1;
      captured := captured[g := live];
      ok := CommitMetadata(live, g, luck);
    }
  }

  // ------------------------------------------------------------------------------------------
  // Runs
  // ------------------------------------------------------------------------------------------

  datatype Step =
    | Edit(content: Content)                                             // the session changes in memory
    | TakeSnapshot
    | CommitSnapshot(generation: Generation, conversation: Option<string>, luck: Luck)
    | SyncWrite(conversation: Option<string>, luck: Luck)
    | OtherProcess(content: Content)                                     // writes the ledger behind our back

  predicate Enabled(s: State, m: Step) {
    m.CommitSnapshot? ==> m.generation in s.frozen
  }

  function Next(s: State, m: Step): State
    requires Enabled(s, m)
  {
    match m
    case Edit(content) => s.(live := content)
    case TakeSnapshot => Freeze(s)
    case CommitSnapshot(g, conversation, luck) => PersistSnapshot(s, g, conversation, luck)
    case SyncWrite(conversation, luck) => WriteMetadata(s, conversation, luck)
    case OtherProcess(content) =>
      s.(ledger := Some(Ledger(if s.ledger.Some? then s.ledger.value.revision + 1 else 1, content, None)))
  }

  function Start(live: Content): State {
    State(live, 0, 0, 1, map[], map[], None, None, None)
  }

  // The content is the snapshot, except that an empty identity may have been filled.
  predicate Filled(snapshot: Content, c: Content) {
    c.body == snapshot.body && (c.identity == snapshot.identity || snapshot.identity.None?)
  }

  predicate IsSnapshot(s: State, g: Generation, c: Content) {
    g in s.captured && Filled(s.captured[g], c)
  }

  predicate Invariant(s: State) {
    && s.checkpointGeneration < s.nextGeneration
    && (forall g | g in s.captured :: 0 < g < s.nextGeneration)
    && (forall g | g in s.frozen :: g in s.captured && s.captured[g] == s.frozen[g])
    && (s.ledger.Some? && s.ledger.value.source.Some? ==>
          && s.ledger.value.source.value == s.checkpointGeneration
          && s.ledger.value.revision == s.ledgerRevision
          && s.lastCaptured == Some(s.ledger.value.content)
          && IsSnapshot(s, s.checkpointGeneration, s.ledger.value.content))
    // another process's write always has a revision this one has not seen
    && (s.ledger.Some? && s.ledger.value.source.None? ==> s.ledger.value.revision > s.ledgerRevision)
    && (s.ledger.None? ==> s.ledgerRevision == 0 && s.lastCaptured.None?)
    && (s.json.Some? ==>
          && s.ledger.Some?
          && s.json.value.generation <= s.checkpointGeneration
          && s.json.value.revision <= s.ledgerRevision
          && IsSnapshot(s, s.json.value.generation, s.json.value.content))
  }

  lemma {:induction false} CommitKeepsInvariant(s: State, c: Content, g: Generation, luck: Luck)
    requires Invariant(s) && s.checkpointGeneration < g && IsSnapshot(s, g, c)
    ensures Invariant(Commit(s, c, g, luck))
  {
  }

  lemma {:induction false} SnapshotKeepsInvariant(s: State, g: Generation, conversation: Option<string>, luck: Luck)
    requires Invariant(s) && g in s.frozen
    ensures Invariant(PersistSnapshot(s, g, conversation, luck))
  {
    var filled := Fill(s.frozen[g], conversation);
    if g > s.checkpointGeneration && filled.Some? {
      CommitKeepsInvariant(s.(frozen := s.frozen - {g}), filled.value, g, luck);
    }
  }

  lemma {:induction false} TakenGeneration(s: State, c: Content, t: State)
    requires Invariant(s)
    requires t == s.(live := c, nextGeneration := s.nextGeneration + 1, captured := s.captured[s.nextGeneration := c])
    ensures Invariant(t)
  {
    assert forall x | x in s.captured :: x != s.nextGeneration;
  }

  lemma {:induction false} WriteKeepsInvariant(s: State, conversation: Option<string>, luck: Luck)
    requires Invariant(s)
    ensures Invariant(WriteMetadata(s, conversation, luck))
  {
    var filled := Fill(s.live, conversation);
    if filled.Some? {
      var g := s.nextGeneration;
      var t := s.(live := filled.value, nextGeneration := g + 1, captured := s.captured[g := filled.value]);
      TakenGeneration(s, filled.value, t);
      CommitKeepsInvariant(t, filled.value, g, luck);
    }
  }

  lemma {:induction false} FreezeKeepsInvariant(s: State)
    requires Invariant(s)
    ensures Invariant(Freeze(s))
  {
    assert forall x | x in s.captured :: x != s.nextGeneration;
  }

  lemma {:induction false} StepKeepsInvariant(s: State, m: Step)
    requires Invariant(s) && Enabled(s, m)
    ensures Invariant(Next(s, m))
  {
    match m
    case TakeSnapshot => FreezeKeepsInvariant(s);
    case CommitSnapshot(g, conversation, luck) => SnapshotKeepsInvariant(s, g, conversation, luck);
    case SyncWrite(conversation, luck) => WriteKeepsInvariant(s, conversation, luck);
    case _ =>
  }

  predicate Legal(s: State, steps: seq<Step>)
    decreases |steps|
  {
    steps == [] || (Enabled(s, steps[0]) && Legal(Next(s, steps[0]), steps[1..]))
  }

  function After(s: State, steps: seq<Step>): State
    requires Legal(s, steps)
    decreases |steps|
  {
    if steps == [] then s else After(Next(s, steps[0]), steps[1..])
  }

  lemma {:induction false} RunsKeepInvariant(s: State, steps: seq<Step>)
    requires Invariant(s) && Legal(s, steps)
    ensures Invariant(After(s, steps)) && s.checkpointGeneration <= After(s, steps).checkpointGeneration
    decreases |steps|
  {
    if steps != [] {
      StepKeepsInvariant(s, steps[0]);
      RunsKeepInvariant(Next(s, steps[0]), steps[1..]);
    }
  }

  // ------------------------------------------------------------------------------------------
  // Main results
  // ------------------------------------------------------------------------------------------

  function Writes(s: State, m: Step): bool
    requires Enabled(s, m)
  {
    !m.OtherProcess? && Next(s, m).ledger != s.ledger
  }

  /** Over any interleaving of delayed snapshots, synchronous writes and other processes: what this process has
      in the ledger is the session as captured at the ledger's generation, the JSON file holds an earlier or the
      same generation and revision, and it too is the session as captured then. */
  lemma {:induction false} StoresAreSnapshots(live: Content, steps: seq<Step>)
    requires Legal(Start(live), steps)
    ensures var s := After(Start(live), steps);
      && (s.ledger.Some? && s.ledger.value.source.Some? ==>
            IsSnapshot(s, s.ledger.value.source.value, s.ledger.value.content))
      && (s.json.Some? ==>
            && s.ledger.Some? && s.json.value.revision <= s.ledger.value.revision
            && IsSnapshot(s, s.json.value.generation, s.json.value.content))
      && (s.json.Some? && s.ledger.value.source.Some? ==> s.json.value.generation <= s.ledger.value.source.value)
  {
    RunsKeepInvariant(Start(live), steps);
  }

  /** A write always carries a larger generation than the one before it, and an older snapshot is dropped
      without a trace once a newer one has been committed. */
  lemma {:induction false} GenerationsIncrease(live: Content, steps: seq<Step>, m: Step)
    requires Legal(Start(live), steps) && Enabled(After(Start(live), steps), m)
    ensures var s := After(Start(live), steps); var t := Next(s, m);
      && (Writes(s, m) ==> t.ledger.value.source == Some(t.checkpointGeneration) && s.checkpointGeneration < t.checkpointGeneration)
      && (!Writes(s, m) ==> t.checkpointGeneration == s.checkpointGeneration && t.json == s.json)
      && (m.CommitSnapshot? && m.generation <= s.checkpointGeneration ==> t == s.(frozen := s.frozen - {m.generation}))
  {
    RunsKeepInvariant(Start(live), steps);
  }

  /** No update is lost: a write replaces this process's own last one or one with the same content; if another
      process has written anything else in between, nothing is written at all, not even the file. */
  lemma {:induction false} NoLostUpdate(live: Content, steps: seq<Step>, m: Step)
    requires Legal(Start(live), steps) && Enabled(After(Start(live), steps), m)
    requires Writes(After(Start(live), steps), m) && After(Start(live), steps).ledger.Some?
    ensures var s := After(Start(live), steps); var before, now := s.ledger.value, Next(s, m).ledger.value;
      && (before.source.Some? || now.content == before.content)
      && (now.revision == before.revision <==> now.content == before.content)
      && (now.revision == before.revision || now.revision == before.revision + 1)
  {
    RunsKeepInvariant(Start(live), steps);
  }

  /** A session that no other process has written to can always be written: neither the revision nor the cache
      stands in the way. */
  lemma {:induction false} UncontestedWritesSucceed(live: Content, steps: seq<Step>, conversation: Option<string>, luck: Luck)
    requires Legal(Start(live), steps)
    requires var s := After(Start(live), steps);
      (s.ledger.None? || s.ledger.value.source.Some?) && Fill(s.live, conversation).Some?
    ensures var s := After(Start(live), steps); var t := WriteMetadata(s, conversation, luck);
      && t.checkpointGeneration == s.nextGeneration
      && t.ledger.Some? && t.ledger.value.content == Fill(s.live, conversation).value == t.live
      && t == Next(s, SyncWrite(conversation, luck))
      && t.ledger.value.source == Some(s.nextGeneration)
      && t.json == if luck.jsonWritten then Some(Projection(s.nextGeneration, t.ledger.value.revision, t.live)) else s.json
  {
    RunsKeepInvariant(Start(live), steps);
  }

  // What happens between a snapshot and its commit: the session goes on changing, and more snapshots are taken.
  predicate OnlyEdits(steps: seq<Step>) {
    forall m | m in steps :: m.Edit? || m.TakeSnapshot?
  }

  // The session as the last edit left it.
  function Edited(live: Content, steps: seq<Step>): Content
    decreases |steps|
  {
    if steps == [] then live else Edited(if steps[0].Edit? then steps[0].content else live, steps[1..])
  }

  lemma {:induction false} EditsTouchSession(s: State, steps: seq<Step>)
    requires OnlyEdits(steps)
    requires Invariant(s)
    ensures Legal(s, steps)
    ensures var t := After(s, steps);
      && t.live == Edited(s.live, steps) && t.ledger == s.ledger && t.json == s.json
      && t.ledgerRevision == s.ledgerRevision && t.checkpointGeneration == s.checkpointGeneration
      && t.lastCaptured == s.lastCaptured && t.nextGeneration >= s.nextGeneration
      && (forall g | g in s.frozen :: g in t.frozen && t.frozen[g] == s.frozen[g])
    decreases |steps|
  {
    if steps != [] {
      assert steps[0] in steps && forall m | m in steps[1..] :: m in steps;
      StepKeepsInvariant(s, steps[0]);
      EditsTouchSession(Next(s, steps[0]), steps[1..]);
    }
  }

  /** A snapshot that no other process contests stores the session as it was when the snapshot was taken, whatever
      is edited before the commit: in the ledger, and in the file if that can be written. */
  lemma {:induction false} SnapshotStoresItsMoment(live: Content, steps: seq<Step>, edits: seq<Step>, conversation: Option<string>, luck: Luck)
    requires Legal(Start(live), steps) && OnlyEdits(edits)
    requires var s := After(Start(live), steps);
      (s.ledger.None? || s.ledger.value.source.Some?) && Fill(s.live, conversation).Some?
    ensures var s := After(Start(live), steps); var g := s.nextGeneration;
      && Legal(Next(s, TakeSnapshot), edits)
      && var u := After(Next(s, TakeSnapshot), edits);
         && u.live == Edited(s.live, edits) && Enabled(u, CommitSnapshot(g, conversation, luck))
         && var t := Next(u, CommitSnapshot(g, conversation, luck));
            && t.live == u.live && t.ledger.Some?
            && t.ledger.value.content == Content(if s.live.identity.None? then conversation else s.live.identity, s.live.body)
            && t.json == if luck.jsonWritten then Some(Projection(g, t.ledger.value.revision, t.ledger.value.content)) else s.json
  {
    RunsKeepInvariant(Start(live), steps);
    var s := After(Start(live), steps);
    StepKeepsInvariant(s, TakeSnapshot);
    EditsTouchSession(Next(s, TakeSnapshot), edits);
  }

  /** A session whose identity differs from that of its conversation is not written at all. */
  lemma {:induction false} ConflictsAreNotWritten(s: State, conversation: string, luck: Luck)
    requires s.live.identity.Some? && s.live.identity != Some(conversation)
    ensures Next(s, SyncWrite(Some(conversation), luck)) == s
  {
  }

  /** Once another process has written something else, this one's writes are refused: the ledger, the file and
      what this process knows of the ledger stay. */
  lemma {:induction false} ForeignWritesStand(live: Content, steps: seq<Step>, content: Content, conversation: Option<string>, luck: Luck)
    requires Legal(Start(live), steps)
    requires Fill(After(Start(live), steps).live, conversation) != Some(content)
    ensures var u := Next(After(Start(live), steps), OtherProcess(content)); var t := Next(u, SyncWrite(conversation, luck));
      && u.ledger.Some? && u.ledger.value.content == content && u.ledger.value.revision > u.ledgerRevision
      && t.ledger == u.ledger && t.json == u.json && t.ledgerRevision == u.ledgerRevision
  {
    RunsKeepInvariant(Start(live), steps);
  }

  /** If it has written the very content that this one is about to write, the write is taken as done, unless the
      message index of this process is cached and stands for other content. */
  lemma {:induction false} AgreedContentIsTaken(live: Content, steps: seq<Step>, luck: Luck)
    requires Legal(Start(live), steps)
    ensures var s := After(Start(live), steps); var u := Next(s, OtherProcess(s.live)); var t := Next(u, SyncWrite(None, luck));
      if luck.cached && s.lastCaptured.Some? && s.lastCaptured != Some(s.live) then t.ledger == u.ledger
      else t.ledger == Some(Ledger(u.ledger.value.revision, s.live, Some(s.nextGeneration))) && t.ledgerRevision == u.ledger.value.revision
  {
  }
}
