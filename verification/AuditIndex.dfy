/**
The audit transcript index (backend/app/services/audit_transcript_service.py; the fingerprint of a source is
made in backend/app/services/context/history_store.py, `capture` and `sync_audit_source`).

Digests are taken to be injective, so a key is what it was computed from.  Message versions are recorded in
an archive that only grows; its size is part of every key.  A builder reads its key, the messages and the
stored responses at three moments, while other processes go on writing.
*/
module AuditIndex {
  import opened Common

  // One version of a message.
  datatype Message = Message(id: string, digest: string)

  // A stored response and how often it has been saved.
  datatype Response = Response(attempt: nat, revision: nat)

  // A response is no longer open once a message holds it; it is shown when its run is over.
  datatype Attempt = Attempt(revision: nat, open: bool, shown: bool)

  datatype Key = Key(messages: seq<Message>, archiveRevision: nat, responses: seq<Response>)

  // A transcript item stands for a message or for a response that no message holds yet.
  datatype Item = FromMessage(message: Message) | FromResponse(response: Response)

  function Render(messages: seq<Message>, responses: seq<Response>): seq<Item> {
    seq(|messages|, i requires 0 <= i < |messages| => FromMessage(messages[i])) +
    seq(|responses|, i requires 0 <= i < |responses| => FromResponse(responses[i]))
  }

  function Build(key: Key): seq<Item> {
    Render(key.messages, key.responses)
  }

  /** A transcript shows the messages in order, and behind them the responses that no message holds yet. */
  lemma {:induction false} BuildIs(key: Key)
    ensures |Build(key)| == |key.messages| + |key.responses|
    ensures forall i | 0 <= i < |key.messages| :: Build(key)[i] == FromMessage(key.messages[i])
    ensures forall i | 0 <= i < |key.responses| :: Build(key)[|key.messages| + i] == FromResponse(key.responses[i])
  {
  }

  datatype Head = Head(key: Key, total: nat)

  datatype Page = Page(items: seq<Item>, total: nat, start: nat, end: nat, hasMore: bool)

  // ------------------------------------------------------------------------------------------
  // The index tables
  // ------------------------------------------------------------------------------------------

  // Items at their positions.
  function Enumerated(transcript: seq<Item>): map<nat, Item> {
    map i: nat | i < |transcript| :: transcript[i]
  }

  function EndOf(total: nat, before: Option<nat>): nat {
    if before.Some? && before.value < total then before.value else total
  }

  function StartOf(end: nat, limit: nat): nat {
    if end < limit then 0 else end - limit
  }

  function Slice(transcript: seq<Item>, limit: nat, before: Option<nat>): Page {
    var end := EndOf(|transcript|, before);
    var start := StartOf(end, limit);
    Page(transcript[start..end], |transcript|, start, end, start > 0)
  }

  class IndexTables {
    var head: Option<Head>
    var items: map<nat, Item>

    constructor ()
      ensures head == None && items == map[]
    {
      head, items := None, map[];
    }

    // The writing transaction.
    method Store(key: Key, transcript: seq<Item>)
      modifies this
      ensures head == Some(Head(key, |transcript|)) && items == Enumerated(transcript)
    {
      items := map[];
      var i := 0;
      while i < |transcript|
        invariant i <= |transcript| && items == Enumerated(transcript[..i])
      {
        items := items[i := transcript[i]];
        i := i + 1;
      }
      assert transcript[..i] == transcript;
      head := Some(Head(key, |transcript|));
    }

    // `_page`: the rows of one interval, in order.
    method ReadPage(key: Key, limit: nat, before: Option<nat>) returns (page: Option<Page>)
      ensures page == PageOf(head, items, key, limit, before)
      ensures page.Some? <==> head.Some? && head.value.key == key
      ensures page.Some? ==> Bounded(page.value, head.value.total, limit, before)
    {
      if head == None || head.value.key != key {
        return None;
      }
      var total := head.value.total;
      var end := EndOf(total, before);
      var start := StartOf(end, limit);
      var rows: seq<Item> := [];
      var i := start;
      while i < end
        invariant start <= i <= end && rows == Rows(items, start, i)
      {
        if i in items {
          rows := rows + [items[i]];
        }
        i := i + 1;
      }
      page := Some(Page(rows, total, start, end, start > 0));
    }
  }

  // The rows at the positions of an interval, as far as there are any.
  function Rows(items: map<nat, Item>, start: nat, end: nat): seq<Item>
    requires start <= end
  {
    if start == end then [] else Rows(items, start, end - 1) + if end - 1 in items then [items[end - 1]] else []
  }

  function PageOf(head: Option<Head>, items: map<nat, Item>, key: Key, limit: nat, before: Option<nat>): Option<Page> {
    if head == None || head.value.key != key then None
    else
      var end := EndOf(head.value.total, before);
      var start := StartOf(end, limit);
      Some(Page(Rows(items, start, end), head.value.total, start, end, start > 0))
  }

  function Least(a: nat, b: nat): nat {
    if a < b then a else b
  }

  // A page ends where it was asked to, or at the end of all; it covers `limit` positions, or all there are
  // before its end; and there is more exactly if it leaves a position before its start.
  predicate Bounded(page: Page, total: nat, limit: nat, before: Option<nat>) {
    && page.total == total && page.end == (if before.Some? then Least(before.value, total) else total)
    && page.start <= page.end && page.end - page.start == Least(limit, page.end)
    && (page.hasMore <==> page.start > 0)
  }

  lemma {:induction false} RowsAreSlice(transcript: seq<Item>, start: nat, end: nat)
    requires start <= end <= |transcript|
    ensures Rows(Enumerated(transcript), start, end) == transcript[start..end]
  {
    if start < end {
      RowsAreSlice(transcript, start, end - 1);
      assert transcript[start..end] == transcript[start..end - 1] + [transcript[end - 1]];
    }
  }

  /** A page of an index is the slice of the transcript that the index holds. */
  lemma {:induction false} PageIsSlice(head: Option<Head>, items: map<nat, Item>, key: Key, transcript: seq<Item>, limit: nat, before: Option<nat>)
    requires head == Some(Head(key, |transcript|)) && items == Enumerated(transcript)
    ensures PageOf(head, items, key, limit, before) == Some(Slice(transcript, limit, before))
    ensures var page := Slice(transcript, limit, before);
      && Bounded(page, |transcript|, limit, before) && page.items == transcript[page.start..page.end]
      && |page.items| == Least(limit, page.end)
  {
    var end := EndOf(|transcript|, before);
    RowsAreSlice(transcript, StartOf(end, limit), end);
  }

  // ------------------------------------------------------------------------------------------
  // Builders and writers
  // ------------------------------------------------------------------------------------------

  type BuilderId = nat

  datatype Builder = Builder(key: Key, messages: Option<seq<Message>>, responses: Option<seq<Response>>)

  datatype State = State(
    archive: seq<Message>,
    messages: seq<Message>,
    attempts: seq<Attempt>,
    head: Option<Head>,
    items: map<nat, Item>,
    builders: map<BuilderId, Builder>
  )

  datatype Step =
    | Capture(messages: seq<Message>, settled: set<nat>)   // a writer stores the messages of the session
    | NewAttempt
    | Save(attempt: nat, valid: bool)
    | Show(attempt: nat, shown: bool)                      // the run of a response is over, or goes on
    | Start(builder: BuilderId)
    | ReadMessages(builder: BuilderId)
    | ReadResponses(builder: BuilderId)
    | Write(builder: BuilderId)

  // The versions that the archive does not have yet are appended.
  function Record(archive: seq<Message>, messages: seq<Message>): (r: seq<Message>)
    ensures archive <= r
    ensures |r| == |archive| <==> forall m | m in messages :: m in archive
    decreases |messages|
  {
    if messages == [] then archive
    else
      var r := Record(archive, messages[..|messages| - 1]);
      var last := messages[|messages| - 1];
      assert messages == messages[..|messages| - 1] + [last] && (|r| == |archive| ==> r == archive);
      if last in r then r else r + [last]
  }

  predicate Listed(a: Attempt) {
    a.open && a.shown
  }

  // The responses a transcript shows, oldest first.
  function Responses(attempts: seq<Attempt>): seq<Response> {
    if attempts == [] then []
    else
      var n := |attempts| - 1;
      Responses(attempts[..n]) + if Listed(attempts[n]) then [Response(n, attempts[n].revision)] else []
  }

  function KeyOf(s: State): Key {
    Key(s.messages, |s.archive|, Responses(s.attempts))
  }

  function Settle(attempts: seq<Attempt>, settled: set<nat>): seq<Attempt> {
    seq(|attempts|, i requires 0 <= i < |attempts| => if i in settled then attempts[i].(open := false) else attempts[i])
  }

  predicate Enabled(s: State, m: Step) {
    match m
    // a response is settled by the first version of a message that holds it
    case Capture(messages, settled) => (forall i | i in settled :: i < |s.attempts|) && (settled != {} ==> exists x :: x in messages && x !in s.archive)
    case NewAttempt => true
    case Save(i, _) => i < |s.attempts|
    case Show(i, _) => i < |s.attempts|
    case Start(b) => b !in s.builders
    case ReadMessages(b) => b in s.builders && s.builders[b].messages.None?
    case ReadResponses(b) => b in s.builders && s.builders[b].messages.Some? && s.builders[b].responses.None?
    case Write(b) => b in s.builders && s.builders[b].messages.Some? && s.builders[b].responses.Some?
  }

  function Next(s: State, m: Step): State
    requires Enabled(s, m)
  {
    match m
    case Capture(messages, settled) =>
      s.(archive := Record(s.archive, messages), messages := messages, attempts := Settle(s.attempts, settled))
    case NewAttempt => s.(attempts := s.attempts + [Attempt(0, true, false)])
    case Save(i, valid) =>
      var a := s.attempts[i];
      s.(attempts := s.attempts[i := Attempt(a.revision + 1, a.open && valid, a.shown)])
    case Show(i, shown) => s.(attempts := s.attempts[i := s.attempts[i].(shown := shown)])
    case Start(b) => s.(builders := s.builders[b := Builder(KeyOf(s), None, None)])
    case ReadMessages(b) => s.(builders := s.builders[b := s.builders[b].(messages := Some(s.messages))])
    case ReadResponses(b) => s.(builders := s.builders[b := s.builders[b].(responses := Some(Responses(s.attempts)))])
    case Write(b) =>
      var t := s.(builders := s.builders - {b});
      var builder := s.builders[b];
      if KeyOf(s) != builder.key then t
      else
        var transcript := Render(builder.messages.value, builder.responses.value);
        t.(head := Some(Head(builder.key, |transcript|)), items := Enumerated(transcript))
  }

  predicate Legal(s: State, steps: seq<Step>)
    decreases |steps|
  {
    steps == [] || (Enabled(s, steps[0]) && Legal(Next(s, steps[0]), steps[1..]))
  }

  function After(s: State, steps: seq<Step>): State
    requires Legal(s, steps)
    decreases |steps|
  {
    if steps == [] then s else After(Next(s, steps[0]), steps[1..])
  }

  const EMPTY := State([], [], [], None, map[], map[])

  // ------------------------------------------------------------------------------------------
  // When a written index is the fresh build
  // ------------------------------------------------------------------------------------------

  predicate Exact(s: State) {
    s.head.Some? ==>
      s.head.value.total == |Build(s.head.value.key)| && s.items == Enumerated(Build(s.head.value.key))
  }

  lemma {:induction false} EnumeratedApart(a: seq<Item>, b: seq<Item>)
    ensures Enumerated(a) == Enumerated(b) <==> a == b
  {
    if Enumerated(a) == Enumerated(b) {
      assert Enumerated(a).Keys == Enumerated(b).Keys;
      assert |a| < |b| ==> |a| in Enumerated(b).Keys && |a| !in Enumerated(a).Keys;
      assert |b| < |a| ==> |b| in Enumerated(a).Keys && |b| !in Enumerated(b).Keys;
      assert forall i | 0 <= i < |a| :: a[i] == Enumerated(a)[i] == Enumerated(b)[i] == b[i];
      assert a == b;
    }
  }

  function MessagesIn(items: seq<Item>): seq<Message> {
    if items == [] then [] else (if items[0].FromMessage? then [items[0].message] else []) + MessagesIn(items[1..])
  }

  function ResponsesIn(items: seq<Item>): seq<Response> {
    if items == [] then [] else (if items[0].FromResponse? then [items[0].response] else []) + ResponsesIn(items[1..])
  }

  lemma {:induction false} RenderedParts(messages: seq<Message>, responses: seq<Response>)
    ensures MessagesIn(Render(messages, responses)) == messages && ResponsesIn(Render(messages, responses)) == responses
    decreases |messages|, |responses|
  {
    var items := Render(messages, responses);
    if messages != [] {
      assert items[1..] == Render(messages[1..], responses) && items[0] == FromMessage(messages[0]);
      RenderedParts(messages[1..], responses);
    } else if responses != [] {
      assert items[1..] == Render([], responses[1..]) && items[0] == FromResponse(responses[0]);
      RenderedParts([], responses[1..]);
    }
  }

  lemma {:induction false} RenderApart(messages: seq<Message>, responses: seq<Response>, messages': seq<Message>, responses': seq<Response>)
    ensures Render(messages, responses) == Render(messages', responses') <==> messages == messages' && responses == responses'
  {
    RenderedParts(messages, responses);
    RenderedParts(messages', responses');
  }

  // Steps that are not taken by builder b.
  predicate OfOthers(steps: seq<Step>, b: BuilderId) {
    forall m | m in steps :: m.Start? || m.ReadMessages? || m.ReadResponses? || m.Write? ==> m.builder != b
  }

  lemma {:induction false} OthersLeaveBuilder(s: State, steps: seq<Step>, b: BuilderId)
    requires b in s.builders && Legal(s, steps) && OfOthers(steps, b)
    ensures b in After(s, steps).builders && After(s, steps).builders[b] == s.builders[b]
    decreases |steps|
  {
    if steps != [] {
      assert steps[0] in steps && forall m | m in steps[1..] :: m in steps;
      OthersLeaveBuilder(Next(s, steps[0]), steps[1..], b);
    }
  }

  /** Exactly when a builder leaves a wrong index under the current key: after any steps of others between its
      start, its two reads and its write, the write goes through if and only if the key is what it was at the
      start, and the index is then the fresh build if and only if the messages were the same at the first read
      and the shown responses at the second. */
  lemma {:induction false} WrittenIndexIsExact(s: State, b: BuilderId, first: seq<Step>, second: seq<Step>, third: seq<Step>)
    requires b !in s.builders && OfOthers(first, b) && OfOthers(second, b) && OfOthers(third, b)
    requires Legal(Next(s, Start(b)), first)
    requires var s1 := After(Next(s, Start(b)), first); Enabled(s1, ReadMessages(b)) && Legal(Next(s1, ReadMessages(b)), second)
    requires var s1 := After(Next(s, Start(b)), first); var s2 := After(Next(s1, ReadMessages(b)), second);
      Enabled(s2, ReadResponses(b)) && Legal(Next(s2, ReadResponses(b)), third)
    ensures var s1 := After(Next(s, Start(b)), first);
      var s2 := After(Next(s1, ReadMessages(b)), second);
      var s3 := After(Next(s2, ReadResponses(b)), third);
      && Enabled(s3, Write(b))
      && var t := Next(s3, Write(b));
         && (KeyOf(s3) != KeyOf(s) ==> t.head == s3.head && t.items == s3.items)
         && (KeyOf(s3) == KeyOf(s) ==>
               && t.head.Some? && t.head.value.key == KeyOf(t)
               && (t.items == Enumerated(Build(KeyOf(t))) <==>
                     s1.messages == s.messages && Responses(s2.attempts) == Responses(s.attempts)))
  {
    var s1 := After(Next(s, Start(b)), first);
    OthersLeaveBuilder(Next(s, Start(b)), first, b);
    var s2 := After(Next(s1, ReadMessages(b)), second);
    OthersLeaveBuilder(Next(s1, ReadMessages(b)), second, b);
    var s3 := After(Next(s2, ReadResponses(b)), third);
    OthersLeaveBuilder(Next(s2, ReadResponses(b)), third, b);
    var built := Render(s1.messages, Responses(s2.attempts));
    EnumeratedApart(built, Build(KeyOf(s)));
    RenderApart(s1.messages, Responses(s2.attempts), s.messages, Responses(s.attempts));
  }

  lemma {:induction false} ArchiveGrows(s: State, steps: seq<Step>)
    requires Legal(s, steps)
    ensures s.archive <= After(s, steps).archive
    decreases |steps|
  {
    if steps != [] {
      ArchiveGrows(Next(s, steps[0]), steps[1..]);
    }
  }

  /** What the archive revision is for: once a version that was not recorded is captured, no key from before
      returns, so no builder that started before can write any more. */
  lemma {:induction false} NewVersionEndsOldKeys(s: State, m: Step, steps: seq<Step>, key: Key)
    requires m.Capture? && Enabled(s, m) && Legal(Next(s, m), steps) && key.archiveRevision <= |s.archive|
    requires exists x :: x in m.messages && x !in s.archive
    ensures KeyOf(After(Next(s, m), steps)) != key
  {
    ArchiveGrows(Next(s, m), steps);
  }

  // ------------------------------------------------------------------------------------------
  // Runs in which no key returns
  // ------------------------------------------------------------------------------------------

  // The keys of the states that the steps lead to, one after another.
  function Later(s: State, steps: seq<Step>): (keys: seq<Key>)
    requires Legal(s, steps)
    ensures |keys| == |steps|
    decreases |steps|
  {
    if steps == [] then [] else [KeyOf(Next(s, steps[0]))] + Later(Next(s, steps[0]), steps[1..])
  }

  function Keys(s: State, steps: seq<Step>): seq<Key>
    requires Legal(s, steps)
  {
    [KeyOf(s)] + Later(s, steps)
  }

  // A key that has been replaced by another never comes back.
  predicate NoneReturns(keys: seq<Key>) {
    forall i, j, k :: 0 <= i <= j <= k < |keys| && keys[i] == keys[k] ==> keys[j] == keys[i]
  }

  // An index under the current key is the transcript built now.
  predicate Fresh(s: State) {
    Current(s) ==> s.head.value.total == |Build(KeyOf(s))| && s.items == Enumerated(Build(KeyOf(s)))
  }

  predicate Current(s: State) {
    s.head.Some? && s.head.value.key == KeyOf(s)
  }

  predicate Misleads(s: State) {
    Current(s) && s.items != Enumerated(Build(KeyOf(s)))
  }

  // The builder was started under key i, and has read under the keys j and k.
  predicate Reads(past: seq<Key>, b: Builder, i: nat, j: nat, k: nat) {
    && i <= j <= k < |past| && past[i] == b.key
    && (b.messages.Some? ==> b.messages.value == past[j].messages)
    && (b.responses.Some? ==> b.responses.value == past[k].responses)
  }

  ghost predicate ReadsSome(past: seq<Key>, b: Builder) {
    exists i: nat, j: nat, k: nat :: Reads(past, b, i, j, k)
  }

  // Messages are read before responses.
  predicate Ordered(s: State) {
    forall b | b in s.builders :: s.builders[b].responses.Some? ==> s.builders[b].messages.Some?
  }

  // `past` holds the keys up to now.
  ghost predicate Invariant(s: State, past: seq<Key>) {
    && past != [] && past[|past| - 1] == KeyOf(s) && Exact(s) && Ordered(s)
    && forall b | b in s.builders :: ReadsSome(past, s.builders[b])
  }

  lemma {:induction false} ReadsLonger(past: seq<Key>, key: Key, b: Builder)
    requires ReadsSome(past, b)
    ensures ReadsSome(past + [key], b)
  {
    var i: nat, j: nat, k: nat :| Reads(past, b, i, j, k);
    assert Reads(past + [key], b, i, j, k);
  }

  // The builder that a step of its own leaves.
  lemma {:induction false} OwnStepReads(s: State, past: seq<Key>, m: Step)
    requires Invariant(s, past) && Enabled(s, m) && (m.Start? || m.ReadMessages? || m.ReadResponses?)
    ensures ReadsSome(past + [KeyOf(s)], Next(s, m).builders[m.builder])
  {
    var now, b := past + [KeyOf(s)], Next(s, m).builders[m.builder];
    if m.Start? {
      assert Reads(now, b, |past|, |past|, |past|);
    } else {
      var i: nat, j: nat, k: nat :| Reads(past, s.builders[m.builder], i, j, k);
      assert m.ReadMessages? ==> Reads(now, b, i, |past|, |past|);
      assert m.ReadResponses? ==> Reads(now, b, i, j, |past|);
    }
  }

  lemma {:induction false} WriteKeepsExact(s: State, past: seq<Key>, b: BuilderId)
    requires Invariant(s, past) && NoneReturns(past) && Enabled(s, Write(b))
    ensures Exact(Next(s, Write(b)))
  {
    var builder := s.builders[b];
    if KeyOf(s) == builder.key {
      var i: nat, j: nat, k: nat :| Reads(past, builder, i, j, k);
      assert past[i] == past[|past| - 1] && past[j] == past[i] && past[k] == past[i];
    }
  }

  lemma {:induction false} StepKeepsReads(s: State, past: seq<Key>, m: Step, b: BuilderId)
    requires Invariant(s, past) && Enabled(s, m) && b in Next(s, m).builders
    ensures ReadsSome(past + [KeyOf(Next(s, m))], Next(s, m).builders[b])
  {
    if (m.Start? || m.ReadMessages? || m.ReadResponses?) && m.builder == b {
      OwnStepReads(s, past, m);
    } else {
      ReadsLonger(past, KeyOf(Next(s, m)), s.builders[b]);
    }
  }

  lemma {:induction false} StepKeepsExact(s: State, past: seq<Key>, m: Step)
    requires Invariant(s, past) && NoneReturns(past) && Enabled(s, m)
    ensures Exact(Next(s, m)) && Ordered(Next(s, m))
  {
    if m.Write? {
      WriteKeepsExact(s, past, m.builder);
    }
  }

  lemma {:induction false} StepKeepsInvariant(s: State, past: seq<Key>, m: Step)
    requires Invariant(s, past) && NoneReturns(past) && Enabled(s, m)
    ensures Invariant(Next(s, m), past + [KeyOf(Next(s, m))])
  {
    StepKeepsExact(s, past, m);
    forall b | b in Next(s, m).builders ensures ReadsSome(past + [KeyOf(Next(s, m))], Next(s, m).builders[b]) {
      StepKeepsReads(s, past, m, b);
    }
  }

  lemma {:induction false} RunsKeepInvariant(s: State, past: seq<Key>, steps: seq<Step>)
    requires Invariant(s, past) && Legal(s, steps) && NoneReturns(past + Later(s, steps))
    ensures Exact(After(s, steps))
    decreases |steps|
  {
    if steps != [] {
      var t := Next(s, steps[0]);
      LaterKeys(s, past, steps);
      StepKeepsInvariant(s, past, steps[0]);
      RunsKeepInvariant(t, past + [KeyOf(t)], steps[1..]);
    }
  }

  lemma {:induction false} LaterKeys(s: State, past: seq<Key>, steps: seq<Step>)
    requires steps != [] && Legal(s, steps) && NoneReturns(past + Later(s, steps))
    ensures NoneReturns(past)
    ensures var t := Next(s, steps[0]); NoneReturns(past + [KeyOf(t)] + Later(t, steps[1..]))
  {
    var t, all := Next(s, steps[0]), past + Later(s, steps);
    assert past + [KeyOf(t)] + Later(t, steps[1..]) == all;
    forall i, j, k | 0 <= i <= j <= k < |past| && past[i] == past[k] ensures past[j] == past[i] {
      assert all[i] == past[i] && all[j] == past[j] && all[k] == past[k];
    }
  }

  /** For any interleaving of builders and writers in which no key returns: an index whose key is the current
      one is exactly the transcript built now, so each page served from it is that slice of a fresh build. */
  lemma {:induction false} IndexRefinesBuild(steps: seq<Step>)
    requires Legal(EMPTY, steps) && NoneReturns(Keys(EMPTY, steps))
    ensures Fresh(After(EMPTY, steps))
  {
    RunsKeepInvariant(EMPTY, [KeyOf(EMPTY)], steps);
  }

  // ------------------------------------------------------------------------------------------
  // Exactly which writers are safe
  // ------------------------------------------------------------------------------------------

  predicate OfWriter(m: Step) {
    m.Capture? || m.NewAttempt? || m.Save? || m.Show?
  }

  predicate OfWriters(steps: seq<Step>) {
    forall m | m in steps :: OfWriter(m)
  }

  // The steps of writers among others.
  function Written(steps: seq<Step>): seq<Step> {
    if steps == [] then [] else (if OfWriter(steps[0]) then [steps[0]] else []) + Written(steps[1..])
  }

  // How many of the first n steps are of writers.
  function Place(steps: seq<Step>, n: nat): nat
    requires n <= |steps|
    decreases |steps|
  {
    if n == 0 then 0 else (if OfWriter(steps[0]) then 1 else 0) + Place(steps[1..], n - 1)
  }

  lemma {:induction false} PlacesRise(steps: seq<Step>, i: nat, j: nat)
    requires i <= j <= |steps|
    ensures Place(steps, i) <= Place(steps, j)
    decreases |steps|
  {
    if i > 0 {
      PlacesRise(steps[1..], i - 1, j - 1);
    }
  }

  predicate SameSource(s: State, u: State) {
    s.archive == u.archive && s.messages == u.messages && s.attempts == u.attempts
  }

  lemma {:induction false} BuildersLeaveSource(s: State, u: State, m: Step)
    requires SameSource(s, u) && Enabled(s, m)
    ensures !OfWriter(m) ==> SameSource(Next(s, m), u)
    ensures OfWriter(m) ==> Enabled(u, m) && SameSource(Next(s, m), Next(u, m))
  {
  }

  lemma {:induction false} KeysShift(s: State, steps: seq<Step>, n: nat)
    requires Legal(s, steps) && 0 < n <= |steps|
    ensures Keys(s, steps)[n] == Keys(Next(s, steps[0]), steps[1..])[n - 1]
  {
  }

  // The keys of a run are those of its writers alone, some of them repeated.
  lemma {:induction false} KeysFollowWriters(s: State, u: State, steps: seq<Step>, written: seq<Step>, n: nat)
    requires SameSource(s, u) && Legal(s, steps) && Legal(u, written) && Written(steps) <= written && n <= |steps|
    ensures Place(steps, n) <= |written| && Keys(s, steps)[n] == Keys(u, written)[Place(steps, n)]
    decreases |steps|
  {
    if n > 0 {
      var m := steps[0];
      BuildersLeaveSource(s, u, m);
      KeysShift(s, steps, n);
      if OfWriter(m) {
        WrittenHead(steps, written);
        KeysFollowWriters(Next(s, m), Next(u, m), steps[1..], written[1..], n - 1);
        KeysShift(u, written, Place(steps[1..], n - 1) + 1);
      } else {
        KeysFollowWriters(Next(s, m), u, steps[1..], written, n - 1);
      }
    }
  }

  lemma {:induction false} WrittenHead(steps: seq<Step>, written: seq<Step>)
    requires steps != [] && OfWriter(steps[0]) && Written(steps) <= written
    ensures written != [] && written[0] == steps[0] && Written(steps[1..]) <= written[1..]
  {
    assert Written(steps) == [steps[0]] + Written(steps[1..]);
    assert Written(steps)[1..] == Written(steps[1..]);
  }

  lemma {:induction false} SafeIfNoneReturns(written: seq<Step>, steps: seq<Step>)
    requires Legal(EMPTY, written) && NoneReturns(Keys(EMPTY, written))
    requires Legal(EMPTY, steps) && Written(steps) <= written
    ensures Fresh(After(EMPTY, steps))
  {
    var keys, all := Keys(EMPTY, steps), Keys(EMPTY, written);
    forall i, j, k | 0 <= i <= j <= k < |keys| && keys[i] == keys[k] ensures keys[j] == keys[i] {
      KeysFollowWriters(EMPTY, EMPTY, steps, written, i);
      KeysFollowWriters(EMPTY, EMPTY, steps, written, j);
      KeysFollowWriters(EMPTY, EMPTY, steps, written, k);
      PlacesRise(steps, i, j);
      PlacesRise(steps, j, k);
      assert all[Place(steps, i)] == all[Place(steps, k)];
    }
    IndexRefinesBuild(steps);
  }

  // A builder that reads between two stretches of writers.
  function Around(first: seq<Step>, second: seq<Step>): seq<Step> {
    [Start(0)] + (first + ([ReadMessages(0)] + ([ReadResponses(0)] + (second + [Write(0)]))))
  }

  // A builder that starts after i steps of the writers, reads after j and writes after k.
  function Interrupted(written: seq<Step>, i: nat, j: nat, k: nat): seq<Step>
    requires i <= j <= k <= |written|
  {
    written[..i] + Around(written[i..j], written[j..k])
  }

  lemma {:induction false} RunsJoin(s: State, a: seq<Step>, b: seq<Step>)
    ensures Legal(s, a + b) <==> Legal(s, a) && Legal(After(s, a), b)
    ensures Legal(s, a + b) ==> After(s, a + b) == After(After(s, a), b)
    decreases |a|
  {
    if a == [] {
      assert a + b == b;
    } else {
      assert (a + b)[1..] == a[1..] + b && (a + b)[0] == a[0];
      if Enabled(s, a[0]) {
        RunsJoin(Next(s, a[0]), a[1..], b);
      }
    }
  }

  lemma {:induction false} OneStepJoins(s: State, m: Step, rest: seq<Step>)
    requires Enabled(s, m) && Legal(Next(s, m), rest)
    ensures Legal(s, [m] + rest) && After(s, [m] + rest) == After(Next(s, m), rest)
    ensures Keys(s, [m] + rest) == [KeyOf(s)] + Keys(Next(s, m), rest)
  {
    assert ([m] + rest)[1..] == rest;
  }

  lemma {:induction false} KeyAt(s: State, steps: seq<Step>, n: nat)
    requires Legal(s, steps) && n <= |steps|
    ensures Legal(s, steps[..n]) && Keys(s, steps)[n] == KeyOf(After(s, steps[..n]))
    decreases |steps|
  {
    if n > 0 {
      assert steps[..n][1..] == steps[1..][..n - 1];
      KeyAt(Next(s, steps[0]), steps[1..], n - 1);
    }
  }

  // Writers do the same beside builders, whom they leave alone.
  lemma {:induction false} WritersAlone(s: State, u: State, steps: seq<Step>)
    requires SameSource(s, u) && Legal(s, steps) && OfWriters(steps)
    ensures Legal(u, steps) && SameSource(After(s, steps), After(u, steps)) && After(u, steps).builders == u.builders
    decreases |steps|
  {
    if steps != [] {
      BuildersLeaveSource(s, u, steps[0]);
      assert steps[0] in steps && forall m | m in steps[1..] :: m in steps;
      WritersAlone(Next(s, steps[0]), Next(u, steps[0]), steps[1..]);
    }
  }

  lemma {:induction false} WrittenJoins(a: seq<Step>, b: seq<Step>)
    ensures Written(a + b) == Written(a) + Written(b)
    decreases |a|
  {
    if a == [] {
      assert a + b == b;
    } else {
      var joined := a + b;
      assert joined[1..] == a[1..] + b && joined[0] == a[0];
      WrittenJoins(a[1..], b);
      var first := if OfWriter(a[0]) then [a[0]] else [];
      assert Written(joined) == first + (Written(a[1..]) + Written(b)) == (first + Written(a[1..])) + Written(b);
    }
  }

  lemma {:induction false} WrittenAll(steps: seq<Step>)
    requires OfWriters(steps)
    ensures Written(steps) == steps
    decreases |steps|
  {
    if steps != [] {
      assert steps[0] in steps && forall m | m in steps[1..] :: m in steps;
      WrittenAll(steps[1..]);
    }
  }

  lemma {:induction false} WrittenByBuilder(m: Step, rest: seq<Step>)
    requires !OfWriter(m)
    ensures Written([m] + rest) == Written(rest)
  {
    assert ([m] + rest)[1..] == rest;
  }

  lemma {:induction false} WrittenAround(first: seq<Step>, second: seq<Step>)
    requires OfWriters(first) && OfWriters(second)
    ensures Written(Around(first, second)) == first + second
  {
    var last := second + [Write(0)];
    WrittenAll(first);
    WrittenAll(second);
    WrittenJoins(second, [Write(0)]);
    WrittenByBuilder(ReadResponses(0), last);
    WrittenByBuilder(ReadMessages(0), [ReadResponses(0)] + last);
    WrittenJoins(first, [ReadMessages(0)] + ([ReadResponses(0)] + last));
    WrittenByBuilder(Start(0), first + ([ReadMessages(0)] + ([ReadResponses(0)] + last)));
  }

  // The state from which a builder writes that has read after `first`.
  function BeforeWrite(s: State, first: seq<Step>, second: seq<Step>): State
    requires 0 !in s.builders && OfWriters(first) && OfWriters(second)
    requires Legal(s, first) && Legal(After(s, first), second)
  {
    WritersAlone(s, Next(s, Start(0)), first);
    var read := Next(Next(After(Next(s, Start(0)), first), ReadMessages(0)), ReadResponses(0));
    WritersAlone(After(s, first), read, second);
    After(read, second)
  }

  lemma {:induction false} AroundJoins(s: State, first: seq<Step>, second: seq<Step>)
    requires 0 !in s.builders && OfWriters(first) && OfWriters(second)
    requires Legal(s, first) && Legal(After(s, first), second)
    ensures Enabled(BeforeWrite(s, first, second), Write(0)) && Legal(s, Around(first, second))
    ensures After(s, Around(first, second)) == Next(BeforeWrite(s, first, second), Write(0))
  {
    var s0 := Next(s, Start(0));
    WritersAlone(s, s0, first);
    var s1 := After(s0, first);
    var read := Next(Next(s1, ReadMessages(0)), ReadResponses(0));
    WritersAlone(After(s, first), read, second);
    OneStepJoins(After(read, second), Write(0), []);
    assert [Write(0)] + [] == [Write(0)];
    RunsJoin(read, second, [Write(0)]);
    OneStepJoins(Next(s1, ReadMessages(0)), ReadResponses(0), second + [Write(0)]);
    OneStepJoins(s1, ReadMessages(0), [ReadResponses(0)] + (second + [Write(0)]));
    RunsJoin(s0, first, [ReadMessages(0)] + ([ReadResponses(0)] + (second + [Write(0)])));
    OneStepJoins(s, Start(0), first + ([ReadMessages(0)] + ([ReadResponses(0)] + (second + [Write(0)]))));
  }

  lemma {:induction false} BuilderAround(s: State, first: seq<Step>, second: seq<Step>)
    requires 0 !in s.builders && OfWriters(first) && OfWriters(second)
    requires Legal(s, first) && Legal(After(s, first), second)
    requires KeyOf(After(s, first)) != KeyOf(s) && KeyOf(After(After(s, first), second)) == KeyOf(s)
    ensures Legal(s, Around(first, second)) && Misleads(After(s, Around(first, second)))
  {
    AroundJoins(s, first, second);
    WritersAlone(s, Next(s, Start(0)), first);
    var s1 := After(Next(s, Start(0)), first);
    WritersAlone(After(s, first), Next(Next(s1, ReadMessages(0)), ReadResponses(0)), second);
    ArchiveGrows(s, first);
    ArchiveGrows(After(s, first), second);
    WrittenIndexIsExact(s, 0, first, [], second);
  }

  lemma {:induction false} InterruptedStretches(before: seq<Step>, first: seq<Step>, second: seq<Step>)
    requires OfWriters(before) && OfWriters(first) && OfWriters(second) && Legal(EMPTY, before)
    requires var s := After(EMPTY, before); Legal(s, first) && Legal(After(s, first), second)
    requires var s := After(EMPTY, before);
      KeyOf(After(s, first)) != KeyOf(s) && KeyOf(After(After(s, first), second)) == KeyOf(s)
    ensures Legal(EMPTY, before + Around(first, second)) && Misleads(After(EMPTY, before + Around(first, second)))
    ensures Written(before + Around(first, second)) == before + (first + second)
  {
    WritersAlone(EMPTY, EMPTY, before);
    BuilderAround(After(EMPTY, before), first, second);
    RunsJoin(EMPTY, before, Around(first, second));
    WrittenAll(before);
    WrittenAround(first, second);
    WrittenJoins(before, Around(first, second));
  }

  lemma {:induction false} Stretches(written: seq<Step>, i: nat, j: nat, k: nat)
    requires Legal(EMPTY, written) && i <= j <= k <= |written|
    ensures Legal(EMPTY, written[..i])
    ensures var s, keys := After(EMPTY, written[..i]), Keys(EMPTY, written);
      && Legal(s, written[i..j]) && Legal(After(s, written[i..j]), written[j..k])
      && KeyOf(s) == keys[i] && KeyOf(After(s, written[i..j])) == keys[j]
      && KeyOf(After(After(s, written[i..j]), written[j..k])) == keys[k]
  {
    assert written[..j] == written[..i] + written[i..j] && written[..k] == written[..j] + written[j..k];
    KeyAt(EMPTY, written, i);
    KeyAt(EMPTY, written, j);
    KeyAt(EMPTY, written, k);
    RunsJoin(EMPTY, written[..i], written[i..j]);
    RunsJoin(EMPTY, written[..j], written[j..k]);
  }

  lemma {:induction false} StretchesOfWriters(written: seq<Step>, i: nat, j: nat, k: nat)
    requires OfWriters(written) && i <= j <= k <= |written|
    ensures OfWriters(written[..i]) && OfWriters(written[i..j]) && OfWriters(written[j..k])
    ensures written[..i] + (written[i..j] + written[j..k]) == written[..k]
  {
  }

  /** A key that returns can always mislead: a builder that starts under it, reads under another key and
      writes when it is back leaves a wrong index under the current key. */
  lemma {:induction false} ReturningKeyMisleads(written: seq<Step>, i: nat, j: nat, k: nat)
    requires OfWriters(written) && Legal(EMPTY, written) && i <= j <= k <= |written|
    requires Keys(EMPTY, written)[i] == Keys(EMPTY, written)[k] != Keys(EMPTY, written)[j]
    ensures Legal(EMPTY, Interrupted(written, i, j, k)) && Misleads(After(EMPTY, Interrupted(written, i, j, k)))
    ensures Written(Interrupted(written, i, j, k)) == written[..k]
  {
    Stretches(written, i, j, k);
    StretchesOfWriters(written, i, j, k);
    InterruptedStretches(written[..i], written[i..j], written[j..k]);
  }

  lemma {:induction false} SomeReturn(keys: seq<Key>) returns (i: nat, j: nat, k: nat)
    requires !NoneReturns(keys)
    ensures i <= j <= k < |keys| && keys[i] == keys[k] && keys[j] != keys[i]
  {
    i, j, k :| i <= j <= k < |keys| && keys[i] == keys[k] && keys[j] != keys[i];
  }

  lemma {:induction false} SomeBuilderMisleads(written: seq<Step>) returns (steps: seq<Step>)
    requires OfWriters(written) && Legal(EMPTY, written) && !NoneReturns(Keys(EMPTY, written))
    ensures Legal(EMPTY, steps) && Written(steps) <= written && Misleads(After(EMPTY, steps))
  {
    var i, j, k := SomeReturn(Keys(EMPTY, written));
    ReturningKeyMisleads(written, i, j, k);
    steps := Interrupted(written, i, j, k);
  }

  /** What writers do is safe for all builders, however they are interleaved and wherever it stops, if and only
      if no key returns. */
  lemma {:induction false} SafeExactlyIfNoneReturns(written: seq<Step>)
    requires OfWriters(written) && Legal(EMPTY, written)
    ensures NoneReturns(Keys(EMPTY, written)) <==>
      forall steps | Legal(EMPTY, steps) && Written(steps) <= written :: Fresh(After(EMPTY, steps))
  {
    if NoneReturns(Keys(EMPTY, written)) {
      forall steps | Legal(EMPTY, steps) && Written(steps) <= written ensures Fresh(After(EMPTY, steps)) {
        SafeIfNoneReturns(written, steps);
      }
    } else {
      var steps := SomeBuilderMisleads(written);
      assert Legal(EMPTY, steps) && Written(steps) <= written && !Fresh(After(EMPTY, steps));
    }
  }

  // A message is taken back and put back; no version is new.
  function TakenBack(x: Message, y: Message): seq<Step> {
    [Capture([x, y], {}), Capture([x], {}), Capture([x, y], {})]
  }

  lemma {:induction false} RecordBoth(x: Message, y: Message)
    requires x != y
    ensures Record([], [x, y]) == [x, y] && Record([x, y], [x, y]) == [x, y] == Record([x, y], [x])
  {
    assert [x, y][..1] == [x] && [x][..0] == [] && Record([], [x]) == [x];
    assert |Record([x, y], [x, y])| == 2 && |Record([x, y], [x])| == 2;
  }

  lemma {:induction false} TakenBackReturns(x: Message, y: Message)
    requires x != y
    ensures Legal(EMPTY, TakenBack(x, y))
    ensures var keys := Keys(EMPTY, TakenBack(x, y)); keys[1] == keys[3] && keys[2] != keys[1]
  {
    RecordBoth(x, y);
    assert Settle([], {}) == [];
    var both := State([x, y], [x, y], [], None, map[], map[]);
    var one := both.(messages := [x]);
    var put, take := Capture([x, y], {}), Capture([x], {});
    assert Next(EMPTY, put) == both == Next(one, put) && Next(both, take) == one;
    OneStepJoins(one, put, []);
    OneStepJoins(both, take, [put] + []);
    OneStepJoins(EMPTY, put, [take] + ([put] + []));
    assert TakenBack(x, y) == [put] + ([take] + ([put] + []));
    assert Keys(EMPTY, TakenBack(x, y)) == [KeyOf(EMPTY), KeyOf(both), KeyOf(one), KeyOf(both)];
  }

  /** Keys do return: the archive revision does not see a message that is taken back and put back unchanged.
      A builder that reads in between leaves an index without it under the current key. */
  lemma {:induction false} TakenBackMessageIsMissing(x: Message, y: Message)
    requires x != y
    ensures Legal(EMPTY, Interrupted(TakenBack(x, y), 1, 2, 3))
    ensures Misleads(After(EMPTY, Interrupted(TakenBack(x, y), 1, 2, 3)))
  {
    TakenBackReturns(x, y);
    ReturningKeyMisleads(TakenBack(x, y), 1, 2, 3);
  }

  // ------------------------------------------------------------------------------------------
  // Which responses are shown
  // ------------------------------------------------------------------------------------------

  function Made(steps: seq<Step>): nat {
    if steps == [] then 0 else Made(steps[..|steps| - 1]) + if steps[|steps| - 1].NewAttempt? then 1 else 0
  }

  function Saves(steps: seq<Step>, i: nat): nat {
    if steps == [] then 0
    else
      var m := steps[|steps| - 1];
      Saves(steps[..|steps| - 1], i) + if m.Save? && m.attempt == i then 1 else 0
  }

  // No save found the response invalid, and no message that holds it has been captured.
  predicate StaysOpen(steps: seq<Step>, i: nat) {
    forall k | 0 <= k < |steps| :: steps[k] != Save(i, false) && !(steps[k].Capture? && i in steps[k].settled)
  }

  // The last thing said about the run of the response is that it is over.
  predicate RunIsOver(steps: seq<Step>, i: nat) {
    exists k :: 0 <= k < |steps| && steps[k] == Show(i, true) && forall l | k < l < |steps| :: steps[l] != Show(i, false)
  }

  lemma {:induction false} StaysOpenMore(steps: seq<Step>, m: Step, i: nat)
    ensures StaysOpen(steps + [m], i) <==> StaysOpen(steps, i) && m != Save(i, false) && !(m.Capture? && i in m.settled)
  {
    var all := steps + [m];
    assert all[|steps|] == m && forall k | 0 <= k < |steps| :: all[k] == steps[k];
  }

  lemma {:induction false} RunIsOverMore(steps: seq<Step>, m: Step, i: nat)
    ensures RunIsOver(steps + [m], i) <==> m == Show(i, true) || (RunIsOver(steps, i) && m != Show(i, false))
  {
    var all := steps + [m];
    assert all[|steps|] == m && forall k | 0 <= k < |steps| :: all[k] == steps[k];
    if RunIsOver(steps, i) && m != Show(i, false) {
      var k :| 0 <= k < |steps| && steps[k] == Show(i, true) && forall l | k < l < |steps| :: steps[l] != Show(i, false);
      assert all[k] == Show(i, true) && forall l | k < l < |all| :: all[l] != Show(i, false);
    }
  }

  predicate HasHistory(a: Attempt, steps: seq<Step>, i: nat) {
    a.revision == Saves(steps, i) && (a.open <==> StaysOpen(steps, i)) && (a.shown <==> RunIsOver(steps, i))
  }

  // Nothing has been said yet of a response that is still to come.
  predicate Untouched(steps: seq<Step>, i: nat) {
    Saves(steps, i) == 0 && StaysOpen(steps, i) && !RunIsOver(steps, i)
  }

  lemma {:induction false} OneMoreStep(steps: seq<Step>, m: Step, i: nat)
    requires Legal(EMPTY, steps) && Enabled(After(EMPTY, steps), m) && |After(EMPTY, steps).attempts| == Made(steps)
    requires if i < Made(steps) then HasHistory(After(EMPTY, steps).attempts[i], steps, i) else Untouched(steps, i)
    ensures var t := Next(After(EMPTY, steps), m);
      && |t.attempts| == Made(steps + [m])
      && if i < |t.attempts| then HasHistory(t.attempts[i], steps + [m], i) else Untouched(steps + [m], i)
  {
    assert (steps + [m])[..|steps|] == steps;
    StaysOpenMore(steps, m, i);
    RunIsOverMore(steps, m, i);
  }

  lemma {:induction false} AttemptsHaveHistory(steps: seq<Step>, i: nat)
    requires Legal(EMPTY, steps)
    ensures |After(EMPTY, steps).attempts| == Made(steps)
    ensures if i < Made(steps) then HasHistory(After(EMPTY, steps).attempts[i], steps, i) else Untouched(steps, i)
    decreases |steps|
  {
    if steps != [] {
      var fewer, m := steps[..|steps| - 1], steps[|steps| - 1];
      assert fewer + [m] == steps;
      RunsJoin(EMPTY, fewer, [m]);
      AttemptsHaveHistory(fewer, i);
      assert [m][1..] == [];
      OneMoreStep(fewer, m, i);
    }
  }

  /** A transcript shows a response, in its last version, exactly from the end of its run on, until a message that
      holds it is captured, and unless it was found invalid; the responses stand in the order they were made in. */
  lemma {:induction false} ShownExactly(steps: seq<Step>, x: Response)
    requires Legal(EMPTY, steps)
    ensures var shown := Responses(After(EMPTY, steps).attempts);
      && (x in shown <==>
            x.attempt < Made(steps) && x.revision == Saves(steps, x.attempt)
            && StaysOpen(steps, x.attempt) && RunIsOver(steps, x.attempt))
      && Sorted(shown)
  {
    AttemptsHaveHistory(steps, x.attempt);
    ResponsesAre(After(EMPTY, steps).attempts, x);
    ResponsesSorted(After(EMPTY, steps).attempts);
  }

  // ------------------------------------------------------------------------------------------
  // Writers whose keys never return
  // ------------------------------------------------------------------------------------------

  // A capture that changes the messages records a new version, and a shown response stays until it is settled.
  predicate Tame(s: State, m: Step) {
    match m
    case Capture(messages, _) => messages == s.messages || exists x :: x in messages && x !in s.archive
    case Save(i, valid) => valid || (i < |s.attempts| ==> !Listed(s.attempts[i]))
    case Show(i, shown) => shown || (i < |s.attempts| ==> !Listed(s.attempts[i]))
    case _ => true
  }

  predicate AllTame(s: State, steps: seq<Step>)
    requires Legal(s, steps)
    decreases |steps|
  {
    steps != [] ==> Tame(s, steps[0]) && AllTame(Next(s, steps[0]), steps[1..])
  }

  predicate Sorted(a: seq<Response>) {
    forall k, l | 0 <= k < l < |a| :: a[k].attempt < a[l].attempt
  }

  // Every response of a is in b, saved at least as often.
  predicate Below(a: seq<Response>, b: seq<Response>) {
    forall x {:trigger Covers(b, x)} | x in a :: Covers(b, x)
  }

  predicate Covers(b: seq<Response>, x: Response) {
    exists y :: y in b && y.attempt == x.attempt && x.revision <= y.revision
  }

  lemma {:induction false} ResponsesAre(attempts: seq<Attempt>, x: Response)
    ensures x in Responses(attempts) <==>
      x.attempt < |attempts| && Listed(attempts[x.attempt]) && attempts[x.attempt].revision == x.revision
  {
    if attempts != [] {
      ResponsesAre(attempts[..|attempts| - 1], x);
    }
  }

  lemma {:induction false} ResponsesSorted(attempts: seq<Attempt>)
    ensures Sorted(Responses(attempts))
  {
    if attempts != [] {
      var before := attempts[..|attempts| - 1];
      ResponsesSorted(before);
      forall k | 0 <= k < |Responses(before)| ensures Responses(before)[k].attempt < |attempts| - 1 {
        ResponsesAre(before, Responses(before)[k]);
      }
    }
  }

  lemma {:induction false} BelowBelow(a: seq<Response>, b: seq<Response>, c: seq<Response>)
    requires Below(a, b) && Below(b, c)
    ensures Below(a, c)
  {
    forall x | x in a ensures Covers(c, x) {
      assert Covers(b, x);
      var y :| y in b && y.attempt == x.attempt && x.revision <= y.revision;
      assert Covers(c, y);
    }
  }

  lemma {:induction false} OnePerAttempt(a: seq<Response>, x: Response, z: Response)
    requires Sorted(a) && x in a && z in a && x.attempt == z.attempt
    ensures x == z
  {
    var k :| 0 <= k < |a| && a[k] == x;
    var l :| 0 <= l < |a| && a[l] == z;
  }

  lemma {:induction false} BetweenItself(a: seq<Response>, b: seq<Response>, x: Response)
    requires Sorted(a) && Below(a, b) && Below(b, a) && x in a
    ensures x in b
  {
    assert Covers(b, x);
    var y :| y in b && y.attempt == x.attempt && x.revision <= y.revision;
    assert Covers(a, y);
    var z :| z in a && z.attempt == y.attempt && y.revision <= z.revision;
    OnePerAttempt(a, x, z);
  }

  lemma {:induction false} SameSorted(a: seq<Response>, b: seq<Response>)
    requires Sorted(a) && Sorted(b) && forall x :: x in a <==> x in b
    ensures a == b
    decreases |a|
  {
    assert (a != [] ==> a[0] in b) && (b != [] ==> b[0] in a);
    if a != [] && b != [] {
      assert a == [a[0]] + a[1..] && b == [b[0]] + b[1..];
      assert a[0] == b[0];
      forall x ensures x in a[1..] <==> x in b[1..] {
        assert x in a[1..] ==> x in a && x.attempt > a[0].attempt;
        assert x in b[1..] ==> x in b && x.attempt > b[0].attempt;
      }
      SameSorted(a[1..], b[1..]);
    }
  }

  lemma {:induction false} BelowBothWays(a: seq<Response>, b: seq<Response>)
    requires Sorted(a) && Sorted(b) && Below(a, b) && Below(b, a)
    ensures a == b
  {
    forall x ensures x in a <==> x in b {
      if x in a { BetweenItself(a, b, x); }
      if x in b { BetweenItself(b, a, x); }
    }
    SameSorted(a, b);
  }

  // While nothing new is recorded, a tame step only adds responses or saves them again.
  lemma {:induction false} TameStepsGrow(s: State, m: Step)
    requires Enabled(s, m) && Tame(s, m) && |Next(s, m).archive| == |s.archive|
    ensures Next(s, m).messages == s.messages
    ensures Below(Responses(s.attempts), Responses(Next(s, m).attempts))
  {
    var t := Next(s, m);
    if m.Capture? {
      assert m.settled == {} && t.attempts == s.attempts;
    }
    forall x | x in Responses(s.attempts) ensures Covers(Responses(t.attempts), x) {
      ResponsesAre(s.attempts, x);
      var y := Response(x.attempt, t.attempts[x.attempt].revision);
      ResponsesAre(t.attempts, y);
      assert y in Responses(t.attempts);
    }
  }

  lemma {:induction false} BelowItself(a: seq<Response>)
    ensures Below(a, a)
  {
    forall x | x in a ensures Covers(a, x) {
    }
  }

  // The order in which keys follow each other.
  predicate NotAfter(a: Key, b: Key) {
    && Sorted(a.responses) && Sorted(b.responses) && a.archiveRevision <= b.archiveRevision
    && (a.archiveRevision == b.archiveRevision ==> a.messages == b.messages && Below(a.responses, b.responses))
  }

  lemma {:induction false} TameStepsRise(s: State, m: Step)
    requires Enabled(s, m) && Tame(s, m)
    ensures NotAfter(KeyOf(s), KeyOf(Next(s, m)))
  {
    ResponsesSorted(s.attempts);
    ResponsesSorted(Next(s, m).attempts);
    if |Next(s, m).archive| == |s.archive| {
      TameStepsGrow(s, m);
    }
  }

  /** Ordinary writers are tame: a capture that adds a new message, a valid save, the end of a run. */
  lemma {:induction false} OrdinaryStepsAreTame(s: State, m: Step, x: Message)
    requires Enabled(s, m) && x !in s.archive
    requires (m.Capture? && m.messages == s.messages + [x]) || (m.Save? && m.valid) || (m.Show? && m.shown) || m.NewAttempt?
    ensures AllTame(s, [m])
  {
    assert [m][1..] == [];
    assert m.Capture? ==> x in m.messages;
  }

  lemma {:induction false} NotAfterThat(a: Key, b: Key, c: Key)
    requires NotAfter(a, b) && NotAfter(b, c)
    ensures NotAfter(a, c)
  {
    if a.archiveRevision == c.archiveRevision {
      BelowBelow(a.responses, b.responses, c.responses);
    }
  }

  lemma {:induction false} TameKeysRise(s: State, steps: seq<Step>, i: nat, j: nat)
    requires Legal(s, steps) && AllTame(s, steps) && i <= j <= |steps|
    ensures NotAfter(Keys(s, steps)[i], Keys(s, steps)[j])
    decreases |steps|, j
  {
    if j == 0 {
      ResponsesSorted(s.attempts);
      BelowItself(Responses(s.attempts));
    } else {
      TameKeysRise(Next(s, steps[0]), steps[1..], if i == 0 then 0 else i - 1, j - 1);
      KeysShift(s, steps, j);
      if i > 0 {
        KeysShift(s, steps, i);
      } else {
        TameStepsRise(s, steps[0]);
        NotAfterThat(KeyOf(s), KeyOf(Next(s, steps[0])), Keys(s, steps)[j]);
      }
    }
  }

  /** Keys do not return if every capture that changes the messages records a new version and a shown response
      stays until it is settled. */
  lemma {:induction false} TameKeysNeverReturn(s: State, steps: seq<Step>)
    requires Legal(s, steps) && AllTame(s, steps)
    ensures NoneReturns(Keys(s, steps))
  {
    var keys := Keys(s, steps);
    forall i, j, k | 0 <= i <= j <= k < |keys| && keys[i] == keys[k] ensures keys[j] == keys[i] {
      TameKeysRise(s, steps, i, j);
      TameKeysRise(s, steps, j, k);
      BelowBothWays(keys[i].responses, keys[j].responses);
    }
  }

  // ------------------------------------------------------------------------------------------
  // Paging through
  // ------------------------------------------------------------------------------------------

  // The pages that a reader gets who starts at the newest and follows `start`, newest last.
  function PagesBack(transcript: seq<Item>, limit: nat, end: nat): (pages: seq<Page>)
    requires limit > 0 && end <= |transcript|
    decreases end
  {
    var page := Slice(transcript, limit, Some(end));
    if page.hasMore then PagesBack(transcript, limit, page.start) + [page] else [page]
  }

  function Joined(pages: seq<Page>): seq<Item> {
    if pages == [] then [] else Joined(pages[..|pages| - 1]) + pages[|pages| - 1].items
  }

  /** Following `before = start` from the newest page ends, and the pages tile the transcript: put together
      they are the transcript, each item once and in order, and each page ends where the next one starts. */
  lemma {:induction false} PagesTile(transcript: seq<Item>, limit: nat, end: nat)
    requires limit > 0 && end <= |transcript|
    ensures var pages := PagesBack(transcript, limit, end);
      && Joined(pages) == transcript[..end]
      && pages[0].start == 0 && pages[|pages| - 1].end == end
      && (forall i | 0 <= i < |pages| - 1 :: pages[i].end == pages[i + 1].start)
      && (forall i | 0 < i < |pages| :: |pages[i].items| == limit)
      && |pages[0].items| <= limit && (end > 0 ==> pages[0].items != [])
    decreases end
  {
    var page := Slice(transcript, limit, Some(end));
    if page.hasMore {
      PagesTile(transcript, limit, page.start);
      var older := PagesBack(transcript, limit, page.start);
      assert (older + [page])[..|older|] == older;
      assert transcript[..page.start] + transcript[page.start..end] == transcript[..end];
    } else {
      assert [page][..0] == [];
    }
  }

  /** Only the oldest page can have fewer than `limit` items, so a transcript of n items takes as many pages as
      n / limit, rounded up. */
  lemma {:induction false} PagesNeeded(transcript: seq<Item>, limit: nat)
    requires limit > 0 && transcript != []
    ensures var n := |PagesBack(transcript, limit, |transcript|)|;
      (n - 1) * limit < |transcript| <= n * limit
  {
    PageCount(transcript, limit, |transcript|);
  }

  lemma {:induction false} PageCount(transcript: seq<Item>, limit: nat, end: nat)
    requires limit > 0 && 0 < end <= |transcript|
    ensures var n := |PagesBack(transcript, limit, end)|; (n - 1) * limit < end <= n * limit
    decreases end
  {
    if end > limit {
      PageCount(transcript, limit, end - limit);
      var n := |PagesBack(transcript, limit, end - limit)|;
      assert (n + 1 - 1) * limit == (n - 1) * limit + limit && (n + 1) * limit == n * limit + limit;
    }
  }

  /** A reader of a stored index gets exactly these pages. */
  method FollowPages(index: IndexTables, key: Key, limit: nat, ghost transcript: seq<Item>) returns (pages: seq<Page>)
    requires limit > 0 && index.head == Some(Head(key, |transcript|)) && index.items == Enumerated(transcript)
    ensures pages == PagesBack(transcript, limit, |transcript|) && Joined(pages) == transcript
  {
    var page := index.ReadPage(key, limit, None);
    PageIsSlice(index.head, index.items, key, transcript, limit, None);
    assert Slice(transcript, limit, None) == Slice(transcript, limit, Some(|transcript|));
    pages := [page.value];
    while page.value.hasMore
      invariant page.Some? && page.value.end <= |transcript| && page.value == Slice(transcript, limit, Some(page.value.end))
      invariant PagesBack(transcript, limit, |transcript|) == Older(transcript, limit, page.value) + pages
      decreases page.value.start
    {
      var before := page.value.start;
      PageIsSlice(index.head, index.items, key, transcript, limit, Some(before));
      OnePageBack(transcript, limit, before, pages);
      page := index.ReadPage(key, limit, Some(before));
      pages := [page.value] + pages;
    }
    PagesTile(transcript, limit, |transcript|);
  }

  // The pages still to come after a page.
  function Older(transcript: seq<Item>, limit: nat, page: Page): seq<Page>
    requires limit > 0 && page.start <= |transcript|
  {
    if page.hasMore then PagesBack(transcript, limit, page.start) else []
  }

  lemma {:induction false} OnePageBack(transcript: seq<Item>, limit: nat, before: nat, pages: seq<Page>)
    requires limit > 0 && before <= |transcript|
    ensures var page := Slice(transcript, limit, Some(before));
      PagesBack(transcript, limit, before) + pages == Older(transcript, limit, page) + ([page] + pages)
  {
  }
}
