/**
Tool calls and tool results in a session's messages over any sequence of runs
(backend/app/runtime/engine.py, `_recover_interrupted_tool_calls`, the id check of a batch and the loop
around it; backend/app/services/context/history_store.py, `recover_attempts`).

Multisets of ids count calls and results.  An attempt is the stored response to one model request.
*/
module ToolHistory {
  import opened Common

  type CallId = string
  type AttemptId = nat

  datatype Message =
    | Assistant(attempt: Option<AttemptId>, calls: seq<CallId>)
    | ToolResult(id: CallId)
    | Other

  function Calls(messages: seq<Message>): multiset<CallId> {
    if messages == [] then multiset{}
    else
      var m := messages[|messages| - 1];
      Calls(messages[..|messages| - 1]) + if m.Assistant? then multiset(m.calls) else multiset{}
  }

  function Results(messages: seq<Message>): multiset<CallId> {
    if messages == [] then multiset{}
    else
      var m := messages[|messages| - 1];
      Results(messages[..|messages| - 1]) + if m.ToolResult? then multiset{m.id} else multiset{}
  }

  ghost predicate NoRepeats(ids: multiset<CallId>) {
    forall id :: ids[id] <= 1
  }

  // Each call has its own result, and each result a call.
  predicate Paired(messages: seq<Message>) {
    Calls(messages) == Results(messages)
  }

  lemma {:induction false} CountsSplit(a: seq<Message>, b: seq<Message>)
    ensures Calls(a + b) == Calls(a) + Calls(b)
    ensures Results(a + b) == Results(a) + Results(b)
    decreases |b|
  {
    if b == [] {
      assert a + b == a;
    } else {
      assert (a + b)[..|a + b| - 1] == a + b[..|b| - 1];
      CountsSplit(a, b[..|b| - 1]);
    }
  }

  lemma {:induction false} CountsOfOne(m: Message)
    ensures Calls([m]) == if m.Assistant? then multiset(m.calls) else multiset{}
    ensures Results([m]) == if m.ToolResult? then multiset{m.id} else multiset{}
  {
    assert [m][..0] == [];
  }

  // ------------------------------------------------------------------------------------------
  // Repair of unanswered calls
  // ------------------------------------------------------------------------------------------

  function Closing(calls: seq<CallId>, known: set<CallId>): seq<Message> {
    if calls == [] then []
    else
      var id := calls[|calls| - 1];
      Closing(calls[..|calls| - 1], known) + if id in known then [] else [ToolResult(id)]
  }

  function RepairWith(messages: seq<Message>, known: set<CallId>): seq<Message> {
    if messages == [] then []
    else
      var m := messages[|messages| - 1];
      RepairWith(messages[..|messages| - 1], known) + [m] + if m.Assistant? then Closing(m.calls, known) else []
  }

  function KnownResults(messages: seq<Message>): set<CallId> {
    set id | id in Results(messages)
  }

  function Repair(messages: seq<Message>): seq<Message> {
    RepairWith(messages, KnownResults(messages))
  }

  /** The messages of a session, repaired in place at the start of a run. */
  class Session {
    var messages: seq<Message>

    constructor (messages: seq<Message>)
      ensures this.messages == messages
    {
      this.messages := messages;
    }

    method CollectResults() returns (known: set<CallId>)
      ensures known == KnownResults(messages)
    {
      known := {};
      var i := 0;
      while i < |messages|
        invariant i <= |messages| && known == KnownResults(messages[..i])
      {
        assert messages[..i + 1][..i] == messages[..i];
        if messages[i].ToolResult? {
          known := known + {messages[i].id};
        }
        i := i + 1;
      }
      assert messages[..i] == messages;
    }

    method CloseCalls()
      modifies this`messages
      ensures messages == Repair(old(messages))
    {
      var known := CollectResults();
      var repaired: seq<Message> := [];
      var i := 0;
      while i < |messages|
        invariant i <= |messages| && messages == old(messages)
        invariant repaired == RepairWith(messages[..i], known)
      {
        assert messages[..i + 1][..i] == messages[..i];
        var m := messages[i];
        repaired := repaired + [m];
        if m.Assistant? {
          var j := 0;
          ghost var before := repaired;
          while j < |m.calls|
            invariant j <= |m.calls| && repaired == before + Closing(m.calls[..j], known)
          {
            assert m.calls[..j + 1][..j] == m.calls[..j];
            if m.calls[j] !in known {
              repaired := repaired + [ToolResult(m.calls[j])];
            }
            j := j + 1;
          }
          assert m.calls[..j] == m.calls;
        }
        i := i + 1;
      }
      assert messages[..i] == messages;
      messages := repaired;
    }
  }

  // The messages of a repaired history that were there before.
  function Original(messages: seq<Message>, known: set<CallId>): seq<Message> {
    if messages == [] then []
    else
      var m := messages[|messages| - 1];
      Original(messages[..|messages| - 1], known) + if m.ToolResult? && m.id !in known then [] else [m]
  }

  lemma {:induction false} OriginalSplits(a: seq<Message>, b: seq<Message>, known: set<CallId>)
    ensures Original(a + b, known) == Original(a, known) + Original(b, known)
    decreases |b|
  {
    if b == [] {
      assert a + b == a;
    } else {
      assert (a + b)[..|a + b| - 1] == a + b[..|b| - 1];
      OriginalSplits(a, b[..|b| - 1], known);
    }
  }

  lemma {:induction false} OneMore(messages: seq<Message>, m: Message)
    ensures Calls(messages + [m]) == Calls(messages) + if m.Assistant? then multiset(m.calls) else multiset{}
    ensures Results(messages + [m]) == Results(messages) + if m.ToolResult? then multiset{m.id} else multiset{}
    ensures forall known :: (Original(messages + [m], known) ==
      Original(messages, known) + if m.ToolResult? && m.id !in known then [] else [m])
  {
    assert (messages + [m])[..|messages|] == messages;
  }

  lemma {:induction false} ClosingMore(calls: seq<CallId>, last: CallId, known: set<CallId>)
    ensures last in known ==> Closing(calls + [last], known) == Closing(calls, known)
    ensures last !in known ==> Closing(calls + [last], known) == Closing(calls, known) + [ToolResult(last)]
  {
    assert (calls + [last])[..|calls|] == calls;
  }

  lemma {:induction false} ClosingIsNew(calls: seq<CallId>, known: set<CallId>)
    ensures Original(Closing(calls, known), known) == [] && Calls(Closing(calls, known)) == multiset{}
  {
    if calls != [] {
      var fewer, last := calls[..|calls| - 1], calls[|calls| - 1];
      ClosingIsNew(fewer, known);
      ClosingMore(fewer, last, known);
      assert calls == fewer + [last];
      if last !in known {
        OneMore(Closing(fewer, known), ToolResult(last));
      }
    }
  }

  lemma {:induction false} LastCounts(calls: seq<CallId>)
    requires calls != []
    ensures multiset(calls) == multiset(calls[..|calls| - 1]) + multiset{calls[|calls| - 1]}
  {
    assert calls == calls[..|calls| - 1] + [calls[|calls| - 1]];
  }

  lemma {:induction false} ClosingCounts(calls: seq<CallId>, known: set<CallId>, id: CallId)
    ensures Results(Closing(calls, known))[id] == if id in known then 0 else multiset(calls)[id]
  {
    if calls != [] {
      var fewer, last := calls[..|calls| - 1], calls[|calls| - 1];
      ClosingCounts(fewer, known, id);
      LastCounts(calls);
      if last in known {
        assert Closing(calls, known) == Closing(fewer, known);
      } else {
        assert Closing(calls, known) == Closing(fewer, known) + [ToolResult(last)];
        OneMore(Closing(fewer, known), ToolResult(last));
      }
    }
  }

  function ClosingOf(m: Message, known: set<CallId>): seq<Message> {
    if m.Assistant? then Closing(m.calls, known) else []
  }

  // Repairing with a set of known results only adds results.
  lemma {:induction false} RepairAdds(messages: seq<Message>, known: set<CallId>)
    requires forall id | id in Results(messages) :: id in known
    ensures Original(RepairWith(messages, known), known) == messages
  {
    if messages != [] {
      var before, m := messages[..|messages| - 1], messages[|messages| - 1];
      assert before + [m] == messages;
      RepairAdds(before, known);
      if m.Assistant? {
        ClosingIsNew(m.calls, known);
      }
      OriginalSplits(RepairWith(before, known), [m], known);
      OriginalSplits(RepairWith(before, known) + [m], ClosingOf(m, known), known);
      assert m.ToolResult? ==> m.id in Results(messages);
      assert [m][..0] == [];
    }
  }

  lemma {:induction false} RepairKeepsCalls(messages: seq<Message>, known: set<CallId>)
    ensures Calls(RepairWith(messages, known)) == Calls(messages)
  {
    if messages != [] {
      var before, m := messages[..|messages| - 1], messages[|messages| - 1];
      RepairKeepsCalls(before, known);
      if m.Assistant? {
        ClosingIsNew(m.calls, known);
      }
      CountsSplit(RepairWith(before, known), [m]);
      CountsSplit(RepairWith(before, known) + [m], ClosingOf(m, known));
      CountsOfOne(m);
    }
  }

  lemma {:induction false} RepairCounts(messages: seq<Message>, known: set<CallId>, id: CallId)
    ensures Results(RepairWith(messages, known))[id] ==
      Results(messages)[id] + if id in known then 0 else Calls(messages)[id]
  {
    if messages != [] {
      var before, m := messages[..|messages| - 1], messages[|messages| - 1];
      RepairCounts(before, known, id);
      if m.Assistant? {
        ClosingCounts(m.calls, known, id);
      }
      CountsSplit(RepairWith(before, known), [m]);
      CountsSplit(RepairWith(before, known) + [m], ClosingOf(m, known));
      CountsOfOne(m);
    }
  }

  // The counts of a repaired history.
  lemma {:induction false} RepairedCounts(messages: seq<Message>)
    ensures Calls(Repair(messages)) == Calls(messages)
    ensures forall id ::
      Results(Repair(messages))[id] == if id in Results(messages) then Results(messages)[id] else Calls(messages)[id]
  {
    RepairKeepsCalls(messages, KnownResults(messages));
    forall id
      ensures Results(Repair(messages))[id] == if id in Results(messages) then Results(messages)[id] else Calls(messages)[id]
    {
      RepairCounts(messages, KnownResults(messages), id);
    }
  }

  /** Repair keeps every old message in order: the messages that are not new results are the old ones. */
  lemma {:induction false} RepairKeepsOldMessages(messages: seq<Message>)
    ensures Original(Repair(messages), KnownResults(messages)) == messages
  {
    RepairAdds(messages, KnownResults(messages));
  }

  /** After a repair no call is without a result. */
  lemma {:induction false} RepairClosesEveryCall(messages: seq<Message>)
    ensures forall id | id in Calls(Repair(messages)) :: id in Results(Repair(messages))
  {
    RepairedCounts(messages);
  }

  // ------------------------------------------------------------------------------------------
  // Where a repair puts its results
  // ------------------------------------------------------------------------------------------

  // How many of the calls have no known result.
  function Open(calls: seq<CallId>, known: set<CallId>): nat {
    if calls == [] then 0
    else Open(calls[..|calls| - 1], known) + if calls[|calls| - 1] in known then 0 else 1
  }

  predicate IsNew(m: Message, known: set<CallId>) {
    m.ToolResult? && m.id !in known
  }

  // Call c of the message at j is open.
  predicate IsOpen(r: seq<Message>, known: set<CallId>, j: nat, c: nat) {
    j < |r| && r[j].Assistant? && c < |r[j].calls| && r[j].calls[c] !in known
  }

  // At i stands the result of call c of the message at j: behind that message come the results of its open
  // calls in order, and nothing else comes between.
  predicate Answers(r: seq<Message>, known: set<CallId>, i: nat, j: nat, c: nat) {
    && IsOpen(r, known, j, c) && i == j + 1 + Open(r[j].calls[..c], known) < |r| && r[i] == ToolResult(r[j].calls[c])
    && forall x | j < x <= i :: IsNew(r[x], known)
  }

  predicate IsAnswered(r: seq<Message>, known: set<CallId>, j: nat, c: nat)
    requires IsOpen(r, known, j, c)
  {
    Answers(r, known, j + 1 + Open(r[j].calls[..c], known), j, c)
  }

  ghost predicate IsAnswer(r: seq<Message>, known: set<CallId>, i: nat) {
    exists j: nat, c: nat :: Answers(r, known, i, j, c)
  }

  // Every open call is answered in its place, and every new result answers one.
  ghost predicate InPlace(r: seq<Message>, known: set<CallId>) {
    && (forall j: nat, c: nat {:trigger IsAnswered(r, known, j, c)} | IsOpen(r, known, j, c) :: IsAnswered(r, known, j, c))
    && (forall i: nat {:trigger IsAnswer(r, known, i)} | i < |r| && IsNew(r[i], known) :: IsAnswer(r, known, i))
  }

  lemma {:induction false} ClosingIsOpen(calls: seq<CallId>, known: set<CallId>)
    ensures |Closing(calls, known)| == Open(calls, known)
    ensures forall m | m in Closing(calls, known) :: IsNew(m, known)
  {
    if calls != [] {
      ClosingIsOpen(calls[..|calls| - 1], known);
    }
  }

  lemma {:induction false} ClosingAt(calls: seq<CallId>, known: set<CallId>, c: nat)
    requires c < |calls| && calls[c] !in known
    ensures Open(calls[..c], known) < |Closing(calls, known)|
    ensures Closing(calls, known)[Open(calls[..c], known)] == ToolResult(calls[c])
  {
    var fewer := calls[..|calls| - 1];
    if c < |fewer| {
      ClosingAt(fewer, known, c);
      assert fewer[..c] == calls[..c];
    } else {
      ClosingIsOpen(fewer, known);
    }
  }

  lemma {:induction false} ClosingFrom(calls: seq<CallId>, known: set<CallId>, x: nat) returns (c: nat)
    requires x < |Closing(calls, known)|
    ensures c < |calls| && calls[c] !in known && Open(calls[..c], known) == x
  {
    var fewer := calls[..|calls| - 1];
    ClosingIsOpen(fewer, known);
    if x < |Closing(fewer, known)| {
      c := ClosingFrom(fewer, known, x);
      assert fewer[..c] == calls[..c];
    } else {
      c := |fewer|;
    }
  }

  lemma {:induction false} AnswersStay(r: seq<Message>, more: seq<Message>, known: set<CallId>, i: nat, j: nat, c: nat)
    requires Answers(r, known, i, j, c)
    ensures Answers(r + more, known, i, j, c)
  {
  }

  lemma {:induction false} AnswersShift(r: seq<Message>, more: seq<Message>, known: set<CallId>, i: nat, j: nat, c: nat)
    requires Answers(more, known, i, j, c)
    ensures Answers(r + more, known, |r| + i, |r| + j, c)
  {
    var all := r + more;
    assert all[|r| + j] == more[j] && all[|r| + i] == more[i];
    forall x | |r| + j < x <= |r| + i ensures IsNew(all[x], known) {
      assert all[x] == more[x - |r|];
    }
  }

  lemma {:induction false} OpenInJoin(r: seq<Message>, more: seq<Message>, known: set<CallId>, j: nat, c: nat)
    requires InPlace(r, known) && InPlace(more, known) && IsOpen(r + more, known, j, c)
    ensures IsAnswered(r + more, known, j, c)
  {
    if j < |r| {
      assert IsOpen(r, known, j, c) && IsAnswered(r, known, j, c);
      AnswersStay(r, more, known, j + 1 + Open(r[j].calls[..c], known), j, c);
    } else {
      var k := j - |r|;
      assert (r + more)[j] == more[k] && IsOpen(more, known, k, c) && IsAnswered(more, known, k, c);
      AnswersShift(r, more, known, k + 1 + Open(more[k].calls[..c], known), k, c);
    }
  }

  lemma {:induction false} NewInJoin(r: seq<Message>, more: seq<Message>, known: set<CallId>, i: nat) returns (j: nat, c: nat)
    requires InPlace(r, known) && InPlace(more, known) && i < |r + more| && IsNew((r + more)[i], known)
    ensures Answers(r + more, known, i, j, c)
  {
    if i < |r| {
      assert IsNew(r[i], known) && IsAnswer(r, known, i);
      j, c :| Answers(r, known, i, j, c);
      AnswersStay(r, more, known, i, j, c);
    } else {
      assert IsNew(more[i - |r|], known) && IsAnswer(more, known, i - |r|);
      var k: nat;
      k, c :| Answers(more, known, i - |r|, k, c);
      AnswersShift(r, more, known, i - |r|, k, c);
      j := |r| + k;
    }
  }

  lemma {:induction false} InPlaceJoins(r: seq<Message>, more: seq<Message>, known: set<CallId>)
    requires InPlace(r, known) && InPlace(more, known)
    ensures InPlace(r + more, known)
  {
    var all := r + more;
    forall j: nat, c: nat | IsOpen(all, known, j, c) ensures IsAnswered(all, known, j, c) {
      OpenInJoin(r, more, known, j, c);
    }
    forall i: nat | i < |all| && IsNew(all[i], known) ensures IsAnswer(all, known, i) {
      var j, c := NewInJoin(r, more, known, i);
    }
  }

  // An old message, with the results that belong behind it.
  lemma {:induction false} BlockAnswers(m: Message, known: set<CallId>, block: seq<Message>, c: nat)
    requires m.Assistant? && c < |m.calls| && m.calls[c] !in known && block == [m] + Closing(m.calls, known)
    ensures Answers(block, known, 1 + Open(m.calls[..c], known), 0, c)
  {
    ClosingAt(m.calls, known, c);
    ClosingIsOpen(m.calls, known);
    forall x | 0 < x < |block| ensures IsNew(block[x], known) {
      assert block[x] == Closing(m.calls, known)[x - 1];
    }
  }

  lemma {:induction false} BlockInPlace(m: Message, known: set<CallId>, block: seq<Message>)
    requires !IsNew(m, known) && block == [m] + ClosingOf(m, known)
    ensures InPlace(block, known)
  {
    if m.Assistant? {
      ClosingIsOpen(m.calls, known);
      assert forall j | 0 < j < |block| :: block[j] in Closing(m.calls, known);
    }
    forall j: nat, c: nat | IsOpen(block, known, j, c) ensures IsAnswered(block, known, j, c) {
      BlockAnswers(m, known, block, c);
    }
    forall i: nat | i < |block| && IsNew(block[i], known) ensures IsAnswer(block, known, i) {
      var c := ClosingFrom(m.calls, known, i - 1);
      BlockAnswers(m, known, block, c);
    }
  }

  lemma {:induction false} RepairWithInPlace(messages: seq<Message>, known: set<CallId>)
    requires forall id | id in Results(messages) :: id in known
    ensures InPlace(RepairWith(messages, known), known)
  {
    if messages != [] {
      var before, m := messages[..|messages| - 1], messages[|messages| - 1];
      RepairWithInPlace(before, known);
      assert m.ToolResult? ==> m.id in Results(messages);
      var block := [m] + ClosingOf(m, known);
      BlockInPlace(m, known, block);
      InPlaceJoins(RepairWith(before, known), block, known);
      assert RepairWith(before, known) + block == RepairWith(messages, known);
    }
  }

  /** A repair puts each new result behind the message that made the call: directly behind it come the results
      of its open calls, in their order, and there is no other new result. */
  lemma {:induction false} RepairAnswersInPlace(messages: seq<Message>)
    ensures InPlace(Repair(messages), KnownResults(messages))
  {
    RepairWithInPlace(messages, KnownResults(messages));
  }

  lemma {:induction false} NothingToRepair(messages: seq<Message>, known: set<CallId>)
    requires forall id | id in Calls(messages) :: id in known
    ensures RepairWith(messages, known) == messages
  {
    if messages != [] {
      var before, m := messages[..|messages| - 1], messages[|messages| - 1];
      NothingToRepair(before, known);
      if m.Assistant? {
        assert forall id | id in m.calls :: id in multiset(m.calls);
        AllKnown(m.calls, known);
      }
    }
  }

  lemma {:induction false} AllKnown(calls: seq<CallId>, known: set<CallId>)
    requires forall id | id in calls :: id in known
    ensures Closing(calls, known) == []
  {
    if calls != [] {
      AllKnown(calls[..|calls| - 1], known);
    }
  }

  /** Repairing twice is repairing once. */
  lemma {:induction false} RepairIsIdempotent(messages: seq<Message>)
    ensures Repair(Repair(messages)) == Repair(messages)
  {
    RepairedCounts(messages);
    NothingToRepair(Repair(messages), KnownResults(Repair(messages)));
  }

  /** A repair pairs calls and results exactly when each call that has a result at all already had its own. */
  lemma {:induction false} RepairPairsExactly(messages: seq<Message>)
    ensures Paired(Repair(messages)) <==>
      forall id | id in Results(messages) :: Results(messages)[id] == Calls(messages)[id]
  {
    RepairedCounts(messages);
    var r := Repair(messages);
    if forall id | id in Results(messages) :: Results(messages)[id] == Calls(messages)[id] {
      assert forall id :: Calls(r)[id] == Results(r)[id];
    }
  }

  // ------------------------------------------------------------------------------------------
  // Ids of one batch
  // ------------------------------------------------------------------------------------------

  datatype Proposal = Proposal(id: CallId, name: string, arguments: string, conflict: bool)

  predicate IsFirst(batch: seq<Proposal>, i: nat) {
    i < |batch| && forall j | 0 <= j < i :: batch[j].id != batch[i].id
  }

  // Another call of the batch took the same id for something else.
  predicate Conflicts(batch: seq<Proposal>, i: nat)
    requires i < |batch|
  {
    exists j :: i < j < |batch| && batch[j].id == batch[i].id
      && (batch[j].name, batch[j].arguments) != (batch[i].name, batch[i].arguments)
  }

  // What becomes of the first call with its id; `spare` holds the fresh ids.
  function Kept(batch: seq<Proposal>, historical: set<CallId>, spare: seq<CallId>, i: nat): Proposal
    requires i < |batch| == |spare|
  {
    var p := batch[i];
    Proposal(if p.id in historical then spare[i] else p.id, p.name, p.arguments, p.conflict || Conflicts(batch, i))
  }

  // Positions of the first call with each id.
  function Firsts(batch: seq<Proposal>): (r: seq<nat>)
    ensures forall k | 0 <= k < |r| :: IsFirst(batch, r[k])
    ensures forall k, l | 0 <= k < l < |r| :: r[k] < r[l]
    ensures forall i: nat | IsFirst(batch, i) :: i in r
  {
    if batch == [] then []
    else
      var n := |batch| - 1;
      assert forall i: nat | i < n :: IsFirst(batch[..n], i) == IsFirst(batch, i);
      Firsts(batch[..n]) + if IsFirst(batch, n) then [n] else []
  }

  predicate Fresh(spare: seq<CallId>, batch: seq<Proposal>, historical: set<CallId>) {
    && |spare| == |batch|
    && (forall i, j | 0 <= i < j < |spare| :: spare[i] != spare[j])
    && (forall i | 0 <= i < |spare| :: spare[i] !in historical && forall j | 0 <= j < |batch| :: spare[i] != batch[j].id)
  }

  // What is left of a batch, or of the part of it seen so far.
  predicate Deduped(batch: seq<Proposal>, historical: set<CallId>, spare: seq<CallId>, kept: seq<Proposal>)
    requires |spare| == |batch|
  {
    && |kept| == |Firsts(batch)|
    && forall k | 0 <= k < |kept| :: kept[k] == Kept(batch, historical, spare, Firsts(batch)[k])
  }

  function Differ(p: Proposal, q: Proposal): bool {
    (p.name, p.arguments) != (q.name, q.arguments)
  }

  lemma {:induction false} RepeatedId(batch: seq<Proposal>, historical: set<CallId>, spare: seq<CallId>, kept: seq<Proposal>, i: nat, k: nat)
    requires i < |batch| == |spare| && Deduped(batch[..i], historical, spare[..i], kept)
    requires k < |kept| && batch[Firsts(batch[..i])[k]].id == batch[i].id
    ensures Firsts(batch[..i + 1]) == Firsts(batch[..i])
    ensures Deduped(batch[..i + 1], historical, spare[..i + 1],
              if Differ(kept[k], batch[i]) then kept[k := kept[k].(conflict := true)] else kept)
  {
    var r := Firsts(batch[..i]);
    assert batch[..i + 1][..i] == batch[..i];
    assert batch[..i + 1][r[k]].id == batch[..i + 1][i].id;
    forall l | 0 <= l < |kept|
      ensures Kept(batch[..i + 1], historical, spare[..i + 1], r[l]) ==
        if l == k && Differ(kept[k], batch[i]) then kept[l].(conflict := true) else kept[l]
    {
      ConflictGrows(batch, i, r[l]);
      assert IsFirst(batch[..i], r[l]);
      if l != k {
        assert r[l] < r[k] || r[k] < r[l];
        assert batch[r[l]].id != batch[r[k]].id;
      }
    }
  }

  lemma {:induction false} NewId(batch: seq<Proposal>, historical: set<CallId>, spare: seq<CallId>, kept: seq<Proposal>, i: nat)
    requires i < |batch| == |spare| && Deduped(batch[..i], historical, spare[..i], kept)
    requires forall k | 0 <= k < |kept| :: batch[Firsts(batch[..i])[k]].id != batch[i].id
    ensures Firsts(batch[..i + 1]) == Firsts(batch[..i]) + [i]
    ensures Deduped(batch[..i + 1], historical, spare[..i + 1],
              kept + [batch[i].(id := if batch[i].id in historical then spare[i] else batch[i].id)])
  {
    var r := Firsts(batch[..i]);
    assert batch[..i + 1][..i] == batch[..i];
    assert IsFirst(batch[..i + 1], i) by {
      FirstExists(batch[..i], batch[i].id);
    }
    forall l | 0 <= l < |kept| ensures Kept(batch[..i + 1], historical, spare[..i + 1], r[l]) == kept[l] {
      ConflictGrows(batch, i, r[l]);
    }
  }

  // `seen` maps each id met so far to the position of its call among the kept ones.
  predicate Indexed(batch: seq<Proposal>, r: seq<nat>, seen: map<CallId, nat>) {
    && (forall k | 0 <= k < |r| :: r[k] < |batch| && batch[r[k]].id in seen)
    && (forall id | id in seen :: seen[id] < |r| && r[seen[id]] < |batch| && batch[r[seen[id]]].id == id)
  }

  lemma {:induction false} IndexedMore(batch: seq<Proposal>, r: seq<nat>, seen: map<CallId, nat>, i: nat)
    requires Indexed(batch, r, seen) && i < |batch| && batch[i].id !in seen
    ensures Indexed(batch, r + [i], seen[batch[i].id := |r|])
  {
  }

  /** The loop over a batch: the first call with each id stays, in order, renamed if history has the id,
      and marked if a later call took the same id for something else. */
  method DedupeBatch(batch: seq<Proposal>, historical: set<CallId>, spare: seq<CallId>) returns (kept: seq<Proposal>)
    requires |spare| == |batch|
    ensures Deduped(batch, historical, spare, kept)
  {
    kept := [];
    var seen: map<CallId, nat> := map[];
    var i := 0;
    while i < |batch|
      invariant i <= |batch| && Deduped(batch[..i], historical, spare[..i], kept)
      invariant Indexed(batch, Firsts(batch[..i]), seen)
    {
      kept, seen := KeepOne(batch, historical, spare, kept, seen, i);
      i := i + 1;
    }
    assert batch[..i] == batch && spare[..i] == spare;
  }

  // One round of the loop.
  method KeepOne(batch: seq<Proposal>, historical: set<CallId>, spare: seq<CallId>,
                 before: seq<Proposal>, seenBefore: map<CallId, nat>, i: nat)
    returns (kept: seq<Proposal>, seen: map<CallId, nat>)
    requires i < |batch| == |spare| && Deduped(batch[..i], historical, spare[..i], before)
    requires Indexed(batch, Firsts(batch[..i]), seenBefore)
    ensures Deduped(batch[..i + 1], historical, spare[..i + 1], kept)
    ensures Indexed(batch, Firsts(batch[..i + 1]), seen)
  {
    seen := seenBefore;
    if batch[i].id in seen {
      kept := MarkRepeated(batch, historical, spare, before, seen, i);
    } else {
      NewId(batch, historical, spare, before, i);
      IndexedMore(batch, Firsts(batch[..i]), seen, i);
      seen := seen[batch[i].id := |before|];
      kept := before + [batch[i].(id := if batch[i].id in historical then spare[i] else batch[i].id)];
    }
  }

  method MarkRepeated(batch: seq<Proposal>, historical: set<CallId>, spare: seq<CallId>,
                      before: seq<Proposal>, seen: map<CallId, nat>, i: nat) returns (kept: seq<Proposal>)
    requires i < |batch| == |spare| && Deduped(batch[..i], historical, spare[..i], before)
    requires Indexed(batch, Firsts(batch[..i]), seen) && batch[i].id in seen
    ensures Firsts(batch[..i + 1]) == Firsts(batch[..i])
    ensures Deduped(batch[..i + 1], historical, spare[..i + 1], kept)
  {
    kept := before;
    var k := seen[batch[i].id];
    RepeatedId(batch, historical, spare, kept, i, k);
    if Differ(kept[k], batch[i]) {
      kept := kept[k := kept[k].(conflict := true)];
    }
  }

  // An id that occurs has a first occurrence.
  lemma {:induction false} FirstExists(batch: seq<Proposal>, id: CallId)
    ensures (exists i :: 0 <= i < |batch| && batch[i].id == id) ==> exists i: nat :: IsFirst(batch, i) && batch[i].id == id
    decreases |batch|
  {
    if i :| 0 <= i < |batch| && batch[i].id == id {
      if !IsFirst(batch, i) {
        FirstExists(batch[..i], id);
        var j: nat :| IsFirst(batch[..i], j) && batch[..i][j].id == id;
        assert IsFirst(batch, j);
      }
    }
  }

  lemma {:induction false} ConflictGrows(batch: seq<Proposal>, i: nat, k: nat)
    requires k <= i < |batch|
    ensures Conflicts(batch[..i + 1], k) <==>
      (k < i && Conflicts(batch[..i], k)) || (k < i && batch[i].id == batch[k].id
        && (batch[i].name, batch[i].arguments) != (batch[k].name, batch[k].arguments))
  {
    if k < i && Conflicts(batch[..i], k) {
      var j :| k < j < i && batch[j].id == batch[k].id && (batch[j].name, batch[j].arguments) != (batch[k].name, batch[k].arguments);
      assert batch[..i + 1][j] == batch[j];
    }
    if k < i && batch[i].id == batch[k].id && (batch[i].name, batch[i].arguments) != (batch[k].name, batch[k].arguments) {
      assert batch[..i + 1][i] == batch[i];
    }
    if Conflicts(batch[..i + 1], k) {
      var j :| k < j < i + 1 && batch[..i + 1][j].id == batch[k].id
        && (batch[..i + 1][j].name, batch[..i + 1][j].arguments) != (batch[k].name, batch[k].arguments);
      assert j < i ==> batch[..i][j] == batch[j];
    }
  }

  /** The kept ids are distinct and new to the history. */
  lemma {:induction false} KeptIdsAreNew(batch: seq<Proposal>, historical: set<CallId>, spare: seq<CallId>, kept: seq<Proposal>)
    requires Fresh(spare, batch, historical) && Deduped(batch, historical, spare, kept)
    ensures forall k, l | 0 <= k < l < |kept| :: kept[k].id != kept[l].id
    ensures forall k | 0 <= k < |kept| :: kept[k].id !in historical
  {
    var r := Firsts(batch);
    forall k, l | 0 <= k < l < |r| ensures kept[k].id != kept[l].id {
      assert IsFirst(batch, r[l]) && batch[r[k]].id != batch[r[l]].id;
    }
  }

  // A later call has the id for something else.
  predicate TakenAgain(batch: seq<Proposal>, i: nat)
    requires i < |batch|
  {
    exists j | i < j < |batch| ::
      batch[j].id == batch[i].id && (batch[j].name != batch[i].name || batch[j].arguments != batch[i].arguments)
  }

  // Where each kept call comes from.
  predicate KeptFrom(batch: seq<Proposal>, historical: set<CallId>, spare: seq<CallId>, p: Proposal, i: nat)
    requires |spare| == |batch|
  {
    && i < |batch| && (forall j | 0 <= j < i :: batch[j].id != batch[i].id)
    && p.id == (if batch[i].id in historical then spare[i] else batch[i].id)
    && p.name == batch[i].name && p.arguments == batch[i].arguments
    && (p.conflict <==> batch[i].conflict || TakenAgain(batch, i))
  }

  /** A batch comes down to the first call with each id, all of them, in order and otherwise as they were. */
  lemma {:induction false} BatchComesDownTo(batch: seq<Proposal>, historical: set<CallId>, spare: seq<CallId>, kept: seq<Proposal>)
    returns (r: seq<nat>)
    requires |spare| == |batch| && Deduped(batch, historical, spare, kept)
    ensures |r| == |kept| && (forall k, l | 0 <= k < l < |r| :: r[k] < r[l])
    ensures forall k | 0 <= k < |kept| :: KeptFrom(batch, historical, spare, kept[k], r[k])
    ensures forall i | 0 <= i < |batch| :: exists k :: 0 <= k < |r| && r[k] < |batch| && batch[r[k]].id == batch[i].id
  {
    r := Firsts(batch);
    forall i | 0 <= i < |batch| ensures exists k :: 0 <= k < |r| && r[k] < |batch| && batch[r[k]].id == batch[i].id {
      FirstExists(batch, batch[i].id);
      var j: nat :| IsFirst(batch, j) && batch[j].id == batch[i].id;
      assert j in r;
    }
  }

  // ------------------------------------------------------------------------------------------
  // Attempts and their recovery
  // ------------------------------------------------------------------------------------------

  datatype Status = Streaming | Completed | Incomplete | Invalid

  // The stored response: its calls, and whether it holds anything else.
  datatype Attempt = Attempt(calls: seq<CallId>, status: Status, text: bool)

  // Only a completed response is believed about its calls.
  function OpenCalls(a: Attempt): seq<CallId> {
    if a.status == Completed then a.calls else []
  }

  predicate Recoverable(a: Attempt) {
    a.status != Invalid && (a.text || OpenCalls(a) != [])
  }

  function AttemptOf(m: Message): set<AttemptId> {
    if m.Assistant? && m.attempt.Some? then {m.attempt.value} else {}
  }

  function Known(messages: seq<Message>): set<AttemptId> {
    if messages == [] then {} else Known(messages[..|messages| - 1]) + AttemptOf(messages[|messages| - 1])
  }

  function Recovered(attempts: seq<Attempt>, skip: set<AttemptId>): seq<Message> {
    if attempts == [] then []
    else
      var a := |attempts| - 1;
      Recovered(attempts[..a], skip) +
      if a in skip || !Recoverable(attempts[a]) then [] else [Assistant(Some(a), OpenCalls(attempts[a]))]
  }

  // Calls that a recovery would still bring into the messages.
  function Pending(attempts: seq<Attempt>, skip: set<AttemptId>): multiset<CallId> {
    if attempts == [] then multiset{}
    else
      var a := |attempts| - 1;
      Pending(attempts[..a], skip) + if a in skip then multiset{} else multiset(OpenCalls(attempts[a]))
  }

  /** `recover_attempts`; attempts of a run that is still active are held back. */
  method RecoverAttempts(session: Session, attempts: seq<Attempt>, held: set<AttemptId>)
    modifies session`messages
    ensures session.messages == old(session.messages) + Recovered(attempts, Known(old(session.messages)) + held)
  {
    var known := Known(session.messages);
    var a := 0;
    assert session.messages == session.messages + [];
    while a < |attempts|
      invariant a <= |attempts|
      invariant session.messages == old(session.messages) + Recovered(attempts[..a], known + held)
    {
      assert attempts[..a + 1][..a] == attempts[..a];
      if a !in known && a !in held && Recoverable(attempts[a]) {
        session.messages := session.messages + [Assistant(Some(a), OpenCalls(attempts[a]))];
      }
      a := a + 1;
    }
    assert attempts[..a] == attempts;
  }

  function RecoveredOf(a: AttemptId, x: Attempt, skip: set<AttemptId>): seq<Message> {
    if a in skip || !Recoverable(x) then [] else [Assistant(Some(a), OpenCalls(x))]
  }

  lemma {:induction false} RecoveredMore(attempts: seq<Attempt>, x: Attempt, skip: set<AttemptId>)
    ensures Recovered(attempts + [x], skip) == Recovered(attempts, skip) + RecoveredOf(|attempts|, x, skip)
    ensures Pending(attempts + [x], skip) ==
      Pending(attempts, skip) + if |attempts| in skip then multiset{} else multiset(OpenCalls(x))
  {
    assert (attempts + [x])[..|attempts|] == attempts;
  }

  lemma {:induction false} RecoveredCounts(attempts: seq<Attempt>, skip: set<AttemptId>)
    ensures Calls(Recovered(attempts, skip)) == Pending(attempts, skip)
    ensures Results(Recovered(attempts, skip)) == multiset{}
  {
    if attempts != [] {
      var fewer, x := attempts[..|attempts| - 1], attempts[|attempts| - 1];
      assert attempts == fewer + [x];
      RecoveredCounts(fewer, skip);
      RecoveredMore(fewer, x, skip);
      if |fewer| !in skip && Recoverable(x) {
        OneMore(Recovered(fewer, skip), Assistant(Some(|fewer|), OpenCalls(x)));
      } else {
        assert Recovered(attempts, skip) == Recovered(fewer, skip);
        assert |fewer| !in skip ==> OpenCalls(x) == [] && multiset(OpenCalls(x)) == multiset{};
      }
    }
  }

  lemma {:induction false} RecoveredKnownMore(attempts: seq<Attempt>, x: Attempt, skip: set<AttemptId>)
    ensures Known(Recovered(attempts + [x], skip)) == Known(Recovered(attempts, skip)) +
      if |attempts| !in skip && Recoverable(x) then {|attempts|} else {}
  {
    RecoveredMore(attempts, x, skip);
    if |attempts| !in skip && Recoverable(x) {
      KnownMore(Recovered(attempts, skip), Assistant(Some(|attempts|), OpenCalls(x)));
    } else {
      assert Recovered(attempts + [x], skip) == Recovered(attempts, skip);
    }
  }

  predicate Returns(attempts: seq<Attempt>, skip: set<AttemptId>, a: AttemptId) {
    a < |attempts| && a !in skip && Recoverable(attempts[a])
  }

  lemma {:induction false} ReturnsMore(attempts: seq<Attempt>, x: Attempt, skip: set<AttemptId>, a: AttemptId)
    ensures Returns(attempts + [x], skip, a) <==>
      Returns(attempts, skip, a) || (a == |attempts| && a !in skip && Recoverable(x))
  {
    assert a < |attempts| ==> (attempts + [x])[a] == attempts[a];
  }

  lemma {:induction false} RecoveredAre(attempts: seq<Attempt>, skip: set<AttemptId>, a: AttemptId)
    ensures a in Known(Recovered(attempts, skip)) <==> Returns(attempts, skip, a)
  {
    if attempts != [] {
      var fewer, x := attempts[..|attempts| - 1], attempts[|attempts| - 1];
      RecoveredAre(fewer, skip, a);
      RecoveredKnownMore(fewer, x, skip);
      ReturnsMore(fewer, x, skip, a);
      assert attempts == fewer + [x];
    }
  }

  lemma {:induction false} KnownMore(messages: seq<Message>, m: Message)
    ensures Known(messages + [m]) == Known(messages) + AttemptOf(m)
  {
    assert (messages + [m])[..|messages|] == messages;
  }

  lemma {:induction false} KnownSplits(a: seq<Message>, b: seq<Message>)
    ensures Known(a + b) == Known(a) + Known(b)
    decreases |b|
  {
    if b == [] {
      assert a + b == a;
    } else {
      assert (a + b)[..|a + b| - 1] == a + b[..|b| - 1];
      KnownSplits(a, b[..|b| - 1]);
    }
  }

  // Splitting the pending calls by two sets that between them cover what is open.
  lemma {:induction false} PendingParts(attempts: seq<Attempt>, skip: set<AttemptId>, one: set<AttemptId>, two: set<AttemptId>)
    requires skip <= one && skip <= two
    requires forall a | 0 <= a < |attempts| && a !in skip && OpenCalls(attempts[a]) != [] :: a in one <==> a !in two
    ensures Pending(attempts, skip) == Pending(attempts, one) + Pending(attempts, two)
  {
    if attempts != [] {
      PendingParts(attempts[..|attempts| - 1], skip, one, two);
    }
  }

  /** Recovery neither loses nor doubles a call: what it adds to the messages is what stops being pending. */
  lemma {:induction false} RecoveryConservesCalls(messages: seq<Message>, attempts: seq<Attempt>, held: set<AttemptId>)
    ensures var after := messages + Recovered(attempts, Known(messages) + held);
      && Calls(after) + Pending(attempts, Known(after)) == Calls(messages) + Pending(attempts, Known(messages))
      && Results(after) == Results(messages)
      && (forall a | a in Known(after) :: a in Known(messages) || a < |attempts|)
  {
    var known := Known(messages);
    var recovered := Recovered(attempts, known + held);
    RecoveredCounts(attempts, known + held);
    forall a: nat ensures a in Known(recovered) <==> a < |attempts| && a !in known + held && Recoverable(attempts[a]) {
      RecoveredAre(attempts, known + held, a);
    }
    CountsSplit(messages, recovered);
    KnownSplits(messages, recovered);
    PendingParts(attempts, known, known + held, known + Known(recovered));
  }

  lemma {:induction false} PendingMore(attempts: seq<Attempt>, x: Attempt, skip: set<AttemptId>)
    ensures Pending(attempts + [x], skip) ==
      Pending(attempts, skip) + if |attempts| in skip then multiset{} else multiset(OpenCalls(x))
  {
    assert (attempts + [x])[..|attempts|] == attempts;
  }

  lemma {:induction false} PendingKnownMore(attempts: seq<Attempt>, x: Attempt, a: AttemptId, skip: set<AttemptId>)
    requires a <= |attempts| && a !in skip
    requires a < |attempts| ==>
      Pending(attempts, skip) == Pending(attempts, skip + {a}) + multiset(OpenCalls(attempts[a]))
    ensures Pending(attempts + [x], skip) == Pending(attempts + [x], skip + {a}) + multiset(OpenCalls((attempts + [x])[a]))
  {
    PendingMore(attempts, x, skip);
    PendingMore(attempts, x, skip + {a});
    if a == |attempts| {
      SkipBeyond(attempts, skip, {a});
    }
  }

  lemma {:induction false} PendingKnown(attempts: seq<Attempt>, a: AttemptId, skip: set<AttemptId>)
    requires a < |attempts| && a !in skip
    ensures Pending(attempts, skip) == Pending(attempts, skip + {a}) + multiset(OpenCalls(attempts[a]))
  {
    var fewer, last := attempts[..|attempts| - 1], attempts[|attempts| - 1];
    if a < |fewer| {
      PendingKnown(fewer, a, skip);
    }
    PendingKnownMore(fewer, last, a, skip);
    assert attempts == fewer + [last];
  }

  lemma {:induction false} PendingIgnores(attempts: seq<Attempt>, others: seq<Attempt>, skip: set<AttemptId>)
    requires |attempts| == |others| && forall a | 0 <= a < |attempts| && a !in skip :: attempts[a] == others[a]
    ensures Pending(attempts, skip) == Pending(others, skip)
  {
    if attempts != [] {
      PendingIgnores(attempts[..|attempts| - 1], others[..|others| - 1], skip);
    }
  }

  lemma {:induction false} PendingChange(attempts: seq<Attempt>, a: AttemptId, x: Attempt, skip: set<AttemptId>)
    requires a < |attempts| && a !in skip
    ensures Pending(attempts[a := x], skip) + multiset(OpenCalls(attempts[a])) == Pending(attempts, skip) + multiset(OpenCalls(x))
  {
    PendingKnown(attempts, a, skip);
    PendingKnown(attempts[a := x], a, skip);
    PendingIgnores(attempts, attempts[a := x], skip + {a});
  }

  lemma {:induction false} SkipBeyond(attempts: seq<Attempt>, skip: set<AttemptId>, more: set<AttemptId>)
    requires forall a | a in more :: a >= |attempts|
    ensures Pending(attempts, skip + more) == Pending(attempts, skip)
  {
    if attempts != [] {
      SkipBeyond(attempts[..|attempts| - 1], skip, more);
    }
  }

  lemma {:induction false} PendingDrops(attempts: seq<Attempt>, a: AttemptId, x: Attempt, skip: set<AttemptId>)
    requires a < |attempts| && a !in skip && OpenCalls(x) == []
    ensures Pending(attempts[a := x], skip) <= Pending(attempts, skip)
  {
    PendingChange(attempts, a, x, skip);
    var p, q := Pending(attempts[a := x], skip), Pending(attempts, skip);
    assert multiset(OpenCalls(x)) == multiset{};
    assert q == p + multiset(OpenCalls(attempts[a]));
  }

  // ------------------------------------------------------------------------------------------
  // Sequences of runs
  // ------------------------------------------------------------------------------------------

  datatype Phase =
    | Idle                        // no run
    | Looping                     // about to request the model
    | Asked(attempt: AttemptId)   // response streaming
    | Saved(attempt: AttemptId, fingerprint: string)   // response stored; the fingerprint of its batch
    | Batch(todo: seq<CallId>)    // executing its calls

  // Repetition of the run's batches: the last fingerprint and how often it came back; limit 0 is no limit.
  datatype Guard = Guard(limit: nat, last: Option<string>, stall: nat)

  function Judged(g: Guard, fingerprint: string): Guard {
    Guard(g.limit, Some(fingerprint), if g.last == Some(fingerprint) then g.stall + 1 else 0)
  }

  predicate Stalls(g: Guard, fingerprint: string) {
    g.limit > 0 && Judged(g, fingerprint).stall >= g.limit
  }

  function Cleared(g: Guard): Guard {
    Guard(g.limit, None, 0)
  }

  datatype State = State(messages: seq<Message>, attempts: seq<Attempt>, phase: Phase, guard: Guard)

  datatype Step =
    | Begin(held: set<AttemptId>)                                // recover, repair, user message
    | Ask
    | Save(calls: seq<CallId>, fingerprint: string, complete: bool, text: bool)   // after the batch was deduplicated
    | Reject(kept: bool)                                         // calls that must not be executed
    | Stall                                                      // the same batch once too often
    | Record                                                     // the batch goes into the messages
    | Continue(kept: bool, notice: bool)                         // a response without calls
    | Retry(calls: seq<CallId>, text: bool, kept: bool, notice: bool)   // the request failed or broke off
    | ToolDone
    | Stop(marked: bool, text: bool)                             // abort, limit, error, cancellation, question
    | Recover(held: set<AttemptId>)                              // at the end of a drive, or when a session is loaded

  // A complete batch waits to be judged.
  predicate HasBatch(s: State)
    requires WellFormed(s)
  {
    s.phase.Saved? && s.attempts[s.phase.attempt].status == Completed && s.attempts[s.phase.attempt].calls != []
  }

  ghost predicate Enabled(s: State, m: Step)
    requires WellFormed(s)
  {
    match m
    case Begin(_) => s.phase.Idle?
    case Ask => s.phase.Looping?
    case Save(calls, _, _, _) => s.phase.Asked? && NoRepeats(multiset(calls)) && forall id | id in calls :: id !in Calls(s.messages)
    case Reject(_) => s.phase.Saved?
    case Stall => HasBatch(s) && Stalls(s.guard, s.phase.fingerprint)
    case Record => HasBatch(s) && !Stalls(s.guard, s.phase.fingerprint)
    case Continue(_, _) => s.phase.Saved? && s.attempts[s.phase.attempt].calls == []
    case Retry(_, _, _, _) => s.phase.Asked?
    case ToolDone => s.phase.Batch?
    case Stop(_, _) => !s.phase.Idle?
    case Recover(_) => s.phase.Idle?
  }

  predicate WellFormed(s: State) {
    && (forall a | a in Known(s.messages) :: a < |s.attempts|)
    && (s.phase.Asked? || s.phase.Saved? ==> s.phase.attempt < |s.attempts| && s.phase.attempt !in Known(s.messages))
    && (s.phase.Asked? ==> s.attempts[s.phase.attempt] == Attempt([], Streaming, false))
    && (s.phase.Batch? ==> s.phase.todo != [])
  }

  function Projection(s: State): seq<Message>
    requires WellFormed(s)
  {
    [Assistant(if s.phase.Asked? || s.phase.Saved? then Some(s.phase.attempt) else None, [])]
  }

  // The guard after n executed rounds with one batch.
  function JudgedTimes(limit: nat, fingerprint: string, n: nat): Guard {
    if n == 0 then Guard(limit, None, 0) else Judged(JudgedTimes(limit, fingerprint, n - 1), fingerprint)
  }

  /** A batch is refused exactly when it has been executed `limit` times in a row; another one never is. */
  lemma {:induction false} StallsAfterLimit(limit: nat, fingerprint: string, other: string, n: nat)
    requires other != fingerprint
    ensures Stalls(JudgedTimes(limit, fingerprint, n), fingerprint) <==> limit > 0 && n >= limit
    ensures !Stalls(JudgedTimes(limit, fingerprint, n), other)
    ensures n > 0 ==> JudgedTimes(limit, fingerprint, n) == Guard(limit, Some(fingerprint), n - 1)
  {
    if n > 0 {
      StallsAfterLimit(limit, fingerprint, other, n - 1);
    }
  }

  // What is kept of a response without executing anything, and a notice to the model.
  function Extra(s: State, kept: bool, notice: bool): seq<Message>
    requires WellFormed(s)
  {
    (if kept then Projection(s) else []) + (if notice then [Other] else [])
  }

  ghost function Next(s: State, m: Step): State
    requires WellFormed(s) && Enabled(s, m)
  {
    match m
    case Begin(held) =>
      s.(messages := Repair(s.messages + Recovered(s.attempts, Known(s.messages) + held)) + [Other], phase := Looping, guard := Cleared(s.guard))
    case Ask => s.(attempts := s.attempts + [Attempt([], Streaming, false)], phase := Asked(|s.attempts|))
    case Save(calls, fingerprint, complete, text) =>
      var a := s.phase.attempt;
      s.(attempts := s.attempts[a := Attempt(calls, if complete then Completed else Incomplete, text)], phase := Saved(a, fingerprint))
    case Reject(kept) =>
      var a := s.phase.attempt;
      s.(attempts := s.attempts[a := s.attempts[a].(status := Invalid)], phase := Looping,
         messages := s.messages + (if kept then Projection(s) else []) + [Other])
    case Stall => s.(messages := s.messages + [Other], phase := Looping, guard := Cleared(s.guard))
    case Record =>
      var a := s.phase.attempt;
      s.(messages := s.messages + [Assistant(Some(a), s.attempts[a].calls)], phase := Batch(s.attempts[a].calls),
         guard := Judged(s.guard, s.phase.fingerprint))
    case Continue(kept, notice) =>
      s.(messages := s.messages + Extra(s, kept, notice), phase := Looping,
         guard := if kept then Cleared(s.guard) else s.guard)
    case Retry(calls, text, kept, notice) =>
      s.(attempts := s.attempts[s.phase.attempt := Attempt(calls, Incomplete, text)], phase := Looping,
         messages := s.messages + Extra(s, kept, notice))
    case ToolDone =>
      var rest := s.phase.todo[1..];
      s.(messages := s.messages + [ToolResult(s.phase.todo[0])], phase := if rest == [] then Looping else Batch(rest))
    case Stop(marked, text) =>
      s.(messages := s.messages + (if marked then Projection(s) else []), phase := Idle,
         attempts := if s.phase.Asked? then s.attempts[s.phase.attempt := Attempt([], Streaming, text)] else s.attempts)
    case Recover(held) => s.(messages := s.messages + Recovered(s.attempts, Known(s.messages) + held))
  }

  function Ids(s: State): multiset<CallId> {
    Calls(s.messages) + Pending(s.attempts, Known(s.messages))
  }

  ghost predicate Answered(s: State) {
    match s.phase
    case Idle => Results(s.messages) <= Calls(s.messages)
    case Batch(todo) => Results(s.messages) + multiset(todo) == Calls(s.messages)
    case _ => Paired(s.messages)
  }

  ghost predicate Invariant(s: State) {
    WellFormed(s) && Answered(s) && NoRepeats(Ids(s))
  }

  // A completed response uses an id that a stored response, not in the messages, uses too.
  predicate Reuses(s: State, m: Step) {
    m.Save? && m.complete && exists id :: id in m.calls && id in Pending(s.attempts, Known(s.messages))
  }

  lemma {:induction false} OtherAdds(messages: seq<Message>)
    ensures Calls(messages + [Other]) == Calls(messages) && Results(messages + [Other]) == Results(messages)
    ensures Known(messages + [Other]) == Known(messages)
  {
    OneMore(messages, Other);
    KnownMore(messages, Other);
  }

  lemma {:induction false} AddedIds(recorded: multiset<CallId>, pending: multiset<CallId>, added: multiset<CallId>)
    requires NoRepeats(recorded + pending) && NoRepeats(added) && forall id | id in added :: id !in recorded
    ensures NoRepeats(recorded + (pending + added)) <==> forall id | id in added :: id !in pending
  {
    var all := recorded + (pending + added);
    assert forall id :: all[id] == (recorded + pending)[id] + added[id];
    if id :| id in added && id in pending {
      assert all[id] >= 2;
    }
  }

  lemma {:induction false} SavedIds(s: State, x: Attempt, t: State)
    requires Invariant(s) && s.phase.Asked? && t.phase.Saved?
    requires t == s.(attempts := s.attempts[s.phase.attempt := x], phase := Saved(s.phase.attempt, t.phase.fingerprint))
    ensures Ids(t) == Calls(s.messages) + (Pending(s.attempts, Known(s.messages)) + multiset(OpenCalls(x)))
  {
    PendingChange(s.attempts, s.phase.attempt, x, Known(s.messages));
    assert multiset(OpenCalls(s.attempts[s.phase.attempt])) == multiset{};
  }

  /** A completed response keeps all ids distinct exactly when it reuses none of a stored response. */
  lemma {:induction false} SavedIdsStayDistinct(s: State, m: Step)
    requires Invariant(s) && Enabled(s, m) && m.Save?
    ensures NoRepeats(Ids(Next(s, m))) <==> !Reuses(s, m)
  {
    var x := Attempt(m.calls, if m.complete then Completed else Incomplete, m.text);
    SavedIds(s, x, Next(s, m));
    if m.complete {
      AddedIds(Calls(s.messages), Pending(s.attempts, Known(s.messages)), multiset(m.calls));
    } else {
      AddedIds(Calls(s.messages), Pending(s.attempts, Known(s.messages)), multiset([]));
    }
  }

  lemma {:induction false} FewerIds(s: State, t: State)
    requires Invariant(s) && Ids(t) <= Ids(s)
    ensures NoRepeats(Ids(t))
  {
    forall id ensures Ids(t)[id] <= 1 {
      assert Ids(t)[id] <= Ids(s)[id];
    }
  }

  lemma {:induction false} RecoverKeepsInvariant(s: State, held: set<AttemptId>, t: State)
    requires Invariant(s) && s.phase.Idle?
    requires t == s.(messages := s.messages + Recovered(s.attempts, Known(s.messages) + held))
    ensures Invariant(t)
  {
    RecoveryConservesCalls(s.messages, s.attempts, held);
    CountsSplit(s.messages, Recovered(s.attempts, Known(s.messages) + held));
    FewerIds(s, t);
  }

  lemma {:induction false} RepairAnswers(s: State)
    requires Invariant(s) && s.phase.Idle?
    ensures Results(Repair(s.messages)) == Calls(Repair(s.messages))
  {
    forall id | id in Results(s.messages) ensures Results(s.messages)[id] == Calls(s.messages)[id] {
      assert Results(s.messages)[id] <= Calls(s.messages)[id] <= Ids(s)[id];
    }
    RepairPairsExactly(s.messages);
  }

  lemma {:induction false} RepairKeepsInvariant(s: State, t: State)
    requires Invariant(s) && s.phase.Idle? && t == s.(messages := Repair(s.messages) + [Other], phase := Looping)
    ensures Invariant(t)
  {
    RepairedCounts(s.messages);
    RepairedKnown(s.messages);
    RepairAnswers(s);
    var u := s.(messages := Repair(s.messages), phase := Looping);
    FewerIds(s, u);
    QuietMessage(u, Other, t);
  }

  lemma {:induction false} RepairedKnownWith(messages: seq<Message>, known: set<CallId>)
    ensures Known(RepairWith(messages, known)) == Known(messages)
  {
    if messages != [] {
      var before, m := messages[..|messages| - 1], messages[|messages| - 1];
      RepairedKnownWith(before, known);
      KnownMore(before, m);
      assert before + [m] == messages;
      KnownMore(RepairWith(before, known), m);
      if m.Assistant? {
        ClosingKnown(m.calls, known);
      }
      KnownSplits(RepairWith(before, known) + [m], ClosingOf(m, known));
    }
  }

  lemma {:induction false} ClosingKnown(calls: seq<CallId>, known: set<CallId>)
    ensures Known(Closing(calls, known)) == {}
  {
    if calls != [] {
      var fewer, id := calls[..|calls| - 1], calls[|calls| - 1];
      ClosingKnown(fewer, known);
      KnownMore(Closing(fewer, known), ToolResult(id));
      assert Closing(calls, known) == if id in known then Closing(fewer, known) else Closing(fewer, known) + [ToolResult(id)];
    }
  }

  lemma {:induction false} RepairedKnown(messages: seq<Message>)
    ensures Known(Repair(messages)) == Known(messages)
  {
    RepairedKnownWith(messages, KnownResults(messages));
  }

  // The response of attempt a enters the messages with or without its calls.
  lemma {:induction false} AttemptBecomesKnown(s: State, a: AttemptId)
    requires WellFormed(s) && a < |s.attempts| && a !in Known(s.messages)
    ensures Pending(s.attempts, Known(s.messages)) ==
      Pending(s.attempts, Known(s.messages) + {a}) + multiset(OpenCalls(s.attempts[a]))
  {
    PendingKnown(s.attempts, a, Known(s.messages));
  }

  lemma {:induction false} AskKeepsInvariant(s: State, t: State)
    requires Invariant(s) && s.phase.Looping?
    requires t == s.(attempts := s.attempts + [Attempt([], Streaming, false)], phase := Asked(|s.attempts|))
    ensures Invariant(t)
  {
    RecoveredMore(s.attempts, Attempt([], Streaming, false), Known(s.messages));
    FewerIds(s, t);
  }

  // A message without calls or result goes to the end, and may make an attempt without open calls known.
  lemma {:induction false} QuietMessage(s: State, m: Message, t: State)
    requires WellFormed(s) && NoRepeats(Ids(s)) && (m == Other || (m.Assistant? && m.calls == []))
    requires forall a | a in AttemptOf(m) :: a < |s.attempts|
    requires t.messages == s.messages + [m] && t.attempts == s.attempts
    ensures Calls(t.messages) == Calls(s.messages) && Results(t.messages) == Results(s.messages)
    ensures Known(t.messages) == Known(s.messages) + AttemptOf(m) && NoRepeats(Ids(t))
  {
    OneMore(s.messages, m);
    KnownMore(s.messages, m);
    if AttemptOf(m) != {} && m.attempt.value !in Known(s.messages) {
      AttemptBecomesKnown(s, m.attempt.value);
    } else {
      assert Known(t.messages) == Known(s.messages);
    }
    forall id ensures Ids(t)[id] <= 1 {
      assert Ids(t)[id] <= Ids(s)[id];
    }
  }

  lemma {:induction false} QuietKeepsInvariant(s: State, m: Message, t: State)
    requires Invariant(s) && (s.phase.Looping? || s.phase.Idle?) && (m == Other || (m.Assistant? && m.calls == []))
    requires forall a | a in AttemptOf(m) :: a < |s.attempts|
    requires t == s.(messages := s.messages + [m])
    ensures Invariant(t)
  {
    QuietMessage(s, m, t);
  }

  // Marking the saved response invalid takes its calls out.
  lemma {:induction false} InvalidKeepsInvariant(s: State, t: State)
    requires Invariant(s) && s.phase.Saved?
    requires t == s.(attempts := s.attempts[s.phase.attempt := s.attempts[s.phase.attempt].(status := Invalid)], phase := Looping)
    ensures Invariant(t)
  {
    PendingDrops(s.attempts, s.phase.attempt, t.attempts[s.phase.attempt], Known(s.messages));
    FewerIds(s, t);
  }

  lemma {:induction false} RejectKeepsInvariant(s: State, more: seq<Message>, t: State)
    requires Invariant(s) && s.phase.Saved?
    requires t == s.(attempts := s.attempts[s.phase.attempt := s.attempts[s.phase.attempt].(status := Invalid)],
                     phase := Looping, messages := s.messages + more + [Other])
    requires more == [] || more == Projection(s)
    ensures Invariant(t)
  {
    var r := t.(messages := s.messages);
    InvalidKeepsInvariant(s, r);
    var u := t.(messages := s.messages + more);
    if more == [] {
      assert u.messages == s.messages;
    } else {
      QuietKeepsInvariant(r, more[0], u);
    }
    QuietKeepsInvariant(u, Other, t);
  }

  lemma {:induction false} StallKeepsInvariant(s: State, t: State)
    requires Invariant(s) && s.phase.Saved? && t == s.(messages := s.messages + [Other], phase := Looping)
    ensures Invariant(t)
  {
    QuietKeepsInvariant(s.(phase := Looping), Other, t);
  }

  lemma {:induction false} RecordKeepsInvariant(s: State, t: State)
    requires Invariant(s) && s.phase.Saved? && s.attempts[s.phase.attempt].status == Completed
    requires s.attempts[s.phase.attempt].calls != []
    requires t == s.(messages := s.messages + [Assistant(Some(s.phase.attempt), s.attempts[s.phase.attempt].calls)],
                     phase := Batch(s.attempts[s.phase.attempt].calls))
    ensures Invariant(t)
  {
    var a := s.phase.attempt;
    AttemptBecomesKnown(s, a);
    OneMore(s.messages, Assistant(Some(a), s.attempts[a].calls));
    KnownMore(s.messages, Assistant(Some(a), s.attempts[a].calls));
    FewerIds(s, t);
  }

  lemma {:induction false} ExtraKeepsInvariant(s: State, p: Message, kept: bool, notice: bool, t: State)
    requires Invariant(s) && s.phase.Looping? && p.Assistant? && p.calls == []
    requires forall a | a in AttemptOf(p) :: a < |s.attempts|
    requires t == s.(messages := s.messages + ((if kept then [p] else []) + (if notice then [Other] else [])))
    ensures Invariant(t)
  {
    var u := s.(messages := s.messages + if kept then [p] else []);
    if kept {
      QuietKeepsInvariant(s, p, u);
    } else {
      assert u.messages == s.messages;
    }
    if notice {
      assert t.messages == u.messages + [Other];
      QuietKeepsInvariant(u, Other, t);
    } else {
      assert t.messages == u.messages;
    }
  }

  lemma {:induction false} ContinueKeepsInvariant(s: State, kept: bool, notice: bool, t: State)
    requires Invariant(s) && s.phase.Saved?
    requires t == s.(messages := s.messages + Extra(s, kept, notice), phase := Looping)
    ensures Invariant(t)
  {
    ExtraKeepsInvariant(s.(phase := Looping), Projection(s)[0], kept, notice, t);
  }

  // A response that is not complete has no open calls.
  lemma {:induction false} FailedKeepsInvariant(s: State, x: Attempt, r: State)
    requires Invariant(s) && s.phase.Asked? && x.status == Incomplete
    requires r == s.(attempts := s.attempts[s.phase.attempt := x], phase := Looping)
    ensures Invariant(r)
  {
    PendingDrops(s.attempts, s.phase.attempt, x, Known(s.messages));
    FewerIds(s, r);
  }

  lemma {:induction false} RetryKeepsInvariant(s: State, x: Attempt, kept: bool, notice: bool, t: State)
    requires Invariant(s) && s.phase.Asked? && x.status == Incomplete
    requires t == s.(attempts := s.attempts[s.phase.attempt := x], phase := Looping,
                     messages := s.messages + Extra(s, kept, notice))
    ensures Invariant(t)
  {
    var r := t.(messages := s.messages);
    FailedKeepsInvariant(s, x, r);
    ExtraKeepsInvariant(r, Projection(s)[0], kept, notice, t);
  }

  lemma {:induction false} ToolDoneKeepsInvariant(s: State, t: State)
    requires Invariant(s) && s.phase.Batch?
    requires var todo := s.phase.todo;
      t == s.(messages := s.messages + [ToolResult(todo[0])], phase := if todo[1..] == [] then Looping else Batch(todo[1..]))
    ensures Invariant(t)
  {
    var todo := s.phase.todo;
    OneMore(s.messages, ToolResult(todo[0]));
    KnownMore(s.messages, ToolResult(todo[0]));
    assert Known(t.messages) == Known(s.messages);
    assert todo == [todo[0]] + todo[1..];
    FewerIds(s, t);
  }

  lemma {:induction false} StopKeepsInvariant(s: State, text: bool, more: seq<Message>, t: State)
    requires Invariant(s) && !s.phase.Idle? && (more == [] || more == Projection(s))
    requires t == State(s.messages + more,
      if s.phase.Asked? then s.attempts[s.phase.attempt := Attempt([], Streaming, text)] else s.attempts, Idle, s.guard)
    ensures Invariant(t)
  {
    var r := t.(messages := s.messages);
    if s.phase.Asked? {
      PendingDrops(s.attempts, s.phase.attempt, r.attempts[s.phase.attempt], Known(s.messages));
    }
    FewerIds(s, r);
    if more == [] {
      assert t.messages == s.messages;
    } else {
      QuietKeepsInvariant(r, more[0], t);
    }
  }

  lemma {:induction false} StepKeepsInvariant(s: State, m: Step)
    requires Invariant(s) && Enabled(s, m) && !Reuses(s, m)
    ensures Invariant(Next(s, m))
  {
    var t := Next(s, m).(guard := s.guard);
    match m {
      case Begin(held) =>
        var u := s.(messages := s.messages + Recovered(s.attempts, Known(s.messages) + held));
        RecoverKeepsInvariant(s, held, u);
        RepairKeepsInvariant(u, t);
      case Ask => AskKeepsInvariant(s, t);
      case Save(_, _, _, _) => SavedIdsStayDistinct(s, m);
      case Reject(kept) => RejectKeepsInvariant(s, if kept then Projection(s) else [], t);
      case Stall => StallKeepsInvariant(s, t);
      case Record => RecordKeepsInvariant(s, t);
      case Continue(kept, notice) => ContinueKeepsInvariant(s, kept, notice, t);
      case Retry(calls, text, kept, notice) => RetryKeepsInvariant(s, Attempt(calls, Incomplete, text), kept, notice, t);
      case ToolDone => ToolDoneKeepsInvariant(s, t);
      case Stop(marked, text) => StopKeepsInvariant(s, text, if marked then Projection(s) else [], t);
      case Recover(held) => RecoverKeepsInvariant(s, held, t);
    }
    if !m.Save? {
      GuardIsSeparate(t, Next(s, m).guard);
    }
  }

  // The repetition guard says nothing about ids.
  lemma {:induction false} GuardIsSeparate(s: State, g: Guard)
    requires Invariant(s)
    ensures Invariant(s.(guard := g))
  {
  }

  ghost predicate Legal(s: State, steps: seq<Step>)
    requires WellFormed(s)
    decreases |steps|
  {
    steps == [] || (Enabled(s, steps[0]) && WellFormed(Next(s, steps[0])) && Legal(Next(s, steps[0]), steps[1..]))
  }

  ghost function After(s: State, steps: seq<Step>): State
    requires WellFormed(s) && Legal(s, steps)
    decreases |steps|
  {
    if steps == [] then s else After(Next(s, steps[0]), steps[1..])
  }

  ghost predicate NeverReuses(s: State, steps: seq<Step>)
    requires WellFormed(s) && Legal(s, steps)
    decreases |steps|
  {
    steps != [] ==> !Reuses(s, steps[0]) && NeverReuses(Next(s, steps[0]), steps[1..])
  }

  lemma {:induction false} RunsKeepInvariant(s: State, steps: seq<Step>)
    requires Invariant(s) && Legal(s, steps) && NeverReuses(s, steps)
    ensures Invariant(After(s, steps))
    decreases |steps|
  {
    if steps != [] {
      StepKeepsInvariant(s, steps[0]);
      RunsKeepInvariant(Next(s, steps[0]), steps[1..]);
    }
  }

  /** A new session satisfies all that the results below start from. */
  lemma {:induction false} NewSessionsAreSound(limit: nat)
    ensures var s := State([], [], Idle, Guard(limit, None, 0)); Invariant(s) && Tidy(s) && InOrder(s)
  {
  }

  /** Over any sequence of runs, stopped anywhere, whose responses reuse no id of a stored response:
      whenever the model is asked, each recorded call has exactly one result. */
  lemma {:induction false} OneResultPerCall(s: State, steps: seq<Step>, id: CallId)
    requires Invariant(s) && Legal(s, steps) && NeverReuses(s, steps)
    requires After(s, steps).phase.Looping? && id in Calls(After(s, steps).messages)
    ensures Calls(After(s, steps).messages)[id] == 1 == Results(After(s, steps).messages)[id]
  {
    RunsKeepInvariant(s, steps);
    var t := After(s, steps);
    assert Ids(t)[id] <= 1 && Ids(t)[id] == Calls(t.messages)[id] + Pending(t.attempts, Known(t.messages))[id];
  }

  // ------------------------------------------------------------------------------------------
  // No result comes before its call
  // ------------------------------------------------------------------------------------------

  // Up to any point there are at most as many results of an id as calls.
  ghost predicate Led(messages: seq<Message>) {
    forall n: nat | n <= |messages| :: Results(messages[..n]) <= Calls(messages[..n])
  }

  ghost predicate InOrder(s: State) {
    && WellFormed(s) && Led(s.messages)
    && (s.phase.Batch? ==> Results(s.messages) + multiset(s.phase.todo) <= Calls(s.messages))
  }

  lemma {:induction false} LedSoFar(messages: seq<Message>)
    requires Led(messages)
    ensures Results(messages) <= Calls(messages)
  {
    assert messages[..|messages|] == messages;
  }

  lemma {:induction false} LedByOne(messages: seq<Message>, m: Message)
    requires Led(messages) && Results(messages + [m]) <= Calls(messages + [m])
    ensures Led(messages + [m])
  {
    var longer := messages + [m];
    forall n: nat | n <= |longer| ensures Results(longer[..n]) <= Calls(longer[..n]) {
      if n <= |messages| {
        assert longer[..n] == messages[..n];
      } else {
        assert longer[..n] == longer;
      }
    }
  }

  lemma {:induction false} LedOnwards(messages: seq<Message>, more: seq<Message>)
    requires Led(messages) && Results(more) == multiset{}
    ensures Led(messages + more)
    decreases |more|
  {
    if more == [] {
      assert messages + more == messages;
    } else {
      var fewer, m := more[..|more| - 1], more[|more| - 1];
      assert more == fewer + [m] && messages + more == messages + fewer + [m];
      OneMore(fewer, m);
      LedOnwards(messages, fewer);
      LedSoFar(messages + fewer);
      OneMore(messages + fewer, m);
      LedByOne(messages + fewer, m);
    }
  }

  // The results behind a message whose calls the history has.
  lemma {:induction false} LedBehind(messages: seq<Message>, calls: seq<CallId>, known: set<CallId>)
    requires Led(messages)
    requires forall id | id !in known :: Results(messages)[id] + multiset(calls)[id] <= Calls(messages)[id]
    ensures Led(messages + Closing(calls, known))
    decreases |calls|
  {
    if calls == [] {
      assert messages + [] == messages;
    } else {
      var fewer, last := calls[..|calls| - 1], calls[|calls| - 1];
      assert calls == fewer + [last];
      LedBehind(messages, fewer, known);
      if last in known {
        assert Closing(calls, known) == Closing(fewer, known);
      } else {
        assert messages + Closing(calls, known) == messages + Closing(fewer, known) + [ToolResult(last)];
        LedAtResult(messages, calls, known);
        LedByOne(messages + Closing(fewer, known), ToolResult(last));
      }
    }
  }

  lemma {:induction false} LedAtResult(messages: seq<Message>, calls: seq<CallId>, known: set<CallId>)
    requires Led(messages)
    requires forall id | id !in known :: Results(messages)[id] + multiset(calls)[id] <= Calls(messages)[id]
    ensures Results(messages + Closing(calls, known)) <= Calls(messages + Closing(calls, known))
  {
    LedSoFar(messages);
    CountsSplit(messages, Closing(calls, known));
    ClosingIsNew(calls, known);
    forall id ensures Results(messages + Closing(calls, known))[id] <= Calls(messages + Closing(calls, known))[id] {
      ClosingCounts(calls, known, id);
    }
  }

  lemma {:induction false} RepairLeads(messages: seq<Message>, known: set<CallId>)
    requires Led(messages) && forall id | id in Results(messages) :: id in known
    ensures Led(RepairWith(messages, known))
  {
    if messages != [] {
      var before, m := messages[..|messages| - 1], messages[|messages| - 1];
      assert before + [m] == messages;
      LedBefore(before, m);
      RepairLeads(before, known);
      OneMoreLeads(before, m, known);
    }
  }

  lemma {:induction false} OneMoreLeads(messages: seq<Message>, m: Message, known: set<CallId>)
    requires Led(RepairWith(messages, known)) && Results(messages + [m]) <= Calls(messages + [m])
    requires forall id | id in Results(messages + [m]) :: id in known
    ensures Led(RepairWith(messages, known) + [m] + ClosingOf(m, known))
  {
    RepairCountsThrough(messages, m, known);
    var longer := RepairWith(messages, known) + [m];
    LedByOne(RepairWith(messages, known), m);
    if m.Assistant? {
      LedBehind(longer, m.calls, known);
    } else {
      assert longer + [] == longer;
    }
  }

  lemma {:induction false} LedBefore(messages: seq<Message>, m: Message)
    requires Led(messages + [m])
    ensures Led(messages) && Results(messages + [m]) <= Calls(messages + [m])
    ensures forall id | id in Results(messages) :: id in Results(messages + [m])
  {
    OneMore(messages, m);
    LedSoFar(messages + [m]);
    forall n: nat | n <= |messages| ensures Results(messages[..n]) <= Calls(messages[..n]) {
      assert (messages + [m])[..n] == messages[..n];
    }
  }

  lemma {:induction false} CountsThrough(messages: seq<Message>, m: Message, known: set<CallId>, id: CallId)
    requires Results(messages + [m])[id] <= Calls(messages + [m])[id]
    requires id !in known ==> Results(messages + [m])[id] == 0
    ensures Results(RepairWith(messages, known) + [m])[id] <= Calls(RepairWith(messages, known) + [m])[id]
    ensures m.Assistant? && id !in known ==>
      Results(RepairWith(messages, known) + [m])[id] + multiset(m.calls)[id] <= Calls(RepairWith(messages, known) + [m])[id]
  {
    OneMore(messages, m);
    OneMore(RepairWith(messages, known), m);
    RepairKeepsCalls(messages, known);
    RepairCounts(messages, known, id);
  }

  lemma {:induction false} RepairCountsThrough(messages: seq<Message>, m: Message, known: set<CallId>)
    requires Results(messages + [m]) <= Calls(messages + [m])
    requires forall id | id in Results(messages + [m]) :: id in known
    ensures Results(RepairWith(messages, known) + [m]) <= Calls(RepairWith(messages, known) + [m])
    ensures m.Assistant? ==> forall id | id !in known ::
      Results(RepairWith(messages, known) + [m])[id] + multiset(m.calls)[id] <= Calls(RepairWith(messages, known) + [m])[id]
  {
    forall id ensures Results(RepairWith(messages, known) + [m])[id] <= Calls(RepairWith(messages, known) + [m])[id] {
      assert id !in known ==> id !in Results(messages + [m]);
      CountsThrough(messages, m, known, id);
    }
    if m.Assistant? {
      forall id | id !in known
        ensures Results(RepairWith(messages, known) + [m])[id] + multiset(m.calls)[id] <= Calls(RepairWith(messages, known) + [m])[id]
      {
        assert id !in Results(messages + [m]);
        CountsThrough(messages, m, known, id);
      }
    }
  }

  lemma {:induction false} BeginKeepsOrder(s: State, held: set<AttemptId>)
    requires InOrder(s) && s.phase.Idle?
    ensures Led(Next(s, Begin(held)).messages)
  {
    var recovered := Recovered(s.attempts, Known(s.messages) + held);
    RecoveredCounts(s.attempts, Known(s.messages) + held);
    LedOnwards(s.messages, recovered);
    RepairLeads(s.messages + recovered, KnownResults(s.messages + recovered));
    CountsOfOne(Other);
    LedOnwards(Repair(s.messages + recovered), [Other]);
  }

  lemma {:induction false} ExtraHasNoResults(s: State, kept: bool, notice: bool)
    requires WellFormed(s)
    ensures Results(Extra(s, kept, notice)) == multiset{}
  {
    var first, second := if kept then Projection(s) else [], if notice then [Other] else [];
    CountsOfOne(Other);
    CountsOfOne(Assistant(if s.phase.Asked? || s.phase.Saved? then Some(s.phase.attempt) else None, []));
    CountsSplit(first, second);
  }

  // A step adds no result, except at the start of a run and when a call is done.
  lemma {:induction false} OtherStepsLead(s: State, m: Step)
    requires InOrder(s) && Enabled(s, m) && !m.Begin? && !m.ToolDone?
    ensures Led(Next(s, m).messages)
  {
    match m
    case Recover(held) =>
      RecoveredCounts(s.attempts, Known(s.messages) + held);
      LedOnwards(s.messages, Recovered(s.attempts, Known(s.messages) + held));
    case Reject(kept) => ExtraLeads(s, kept, true);
    case Stall => ExtraLeads(s, false, true);
    case Record => RecordLeads(s);
    case Continue(kept, notice) => ExtraLeads(s, kept, notice);
    case Retry(_, _, kept, notice) => ExtraLeads(s, kept, notice);
    case Stop(marked, _) => ExtraLeads(s, marked, false);
    case _ =>
  }

  lemma {:induction false} ExtraLeads(s: State, kept: bool, notice: bool)
    requires InOrder(s)
    ensures Led(s.messages + (if kept then Projection(s) else []) + (if notice then [Other] else []))
    ensures Led(s.messages + Extra(s, kept, notice))
    ensures !kept ==> Led(s.messages + if notice then [Other] else [])
    ensures !notice ==> Led(s.messages + if kept then Projection(s) else [])
  {
    ExtraHasNoResults(s, kept, notice);
    LedOnwards(s.messages, Extra(s, kept, notice));
    var first, second := if kept then Projection(s) else [], if notice then [Other] else [];
    var base := s.messages;
    assert base + Extra(s, kept, notice) == base + first + second;
    assert base + first + [] == base + first && base + [] + second == base + second;
  }

  lemma {:induction false} RecordLeads(s: State)
    requires InOrder(s) && Enabled(s, Record)
    ensures Led(Next(s, Record).messages)
  {
    var m := Assistant(Some(s.phase.attempt), s.attempts[s.phase.attempt].calls);
    CountsOfOne(m);
    LedOnwards(s.messages, [m]);
  }

  lemma {:induction false} RecordKeepsOrder(s: State)
    requires InOrder(s) && Enabled(s, Record)
    ensures Results(Next(s, Record).messages) + multiset(Next(s, Record).phase.todo) <= Calls(Next(s, Record).messages)
  {
    LedSoFar(s.messages);
    OneMore(s.messages, Assistant(Some(s.phase.attempt), s.attempts[s.phase.attempt].calls));
  }

  lemma {:induction false} ToolDoneKeepsOrder(s: State)
    requires InOrder(s) && Enabled(s, ToolDone)
    ensures var t := Next(s, ToolDone);
      Led(t.messages) && (t.phase.Batch? ==> Results(t.messages) + multiset(t.phase.todo) <= Calls(t.messages))
  {
    var id, rest := s.phase.todo[0], s.phase.todo[1..];
    assert s.phase.todo == [id] + rest;
    OneMore(s.messages, ToolResult(id));
    assert Results(s.messages) + multiset{id} + multiset(rest) <= Calls(s.messages);
    assert Results(s.messages) + multiset{id} <= Calls(s.messages);
    LedByOne(s.messages, ToolResult(id));
  }

  lemma {:induction false} StepKeepsOrder(s: State, m: Step)
    requires InOrder(s) && Enabled(s, m) && WellFormed(Next(s, m))
    ensures InOrder(Next(s, m))
  {
    if m.Begin? {
      BeginKeepsOrder(s, m.held);
    } else if m.ToolDone? {
      ToolDoneKeepsOrder(s);
    } else {
      OtherStepsLead(s, m);
      if m.Record? {
        RecordKeepsOrder(s);
      }
    }
  }

  lemma {:induction false} RunsKeepOrder(s: State, steps: seq<Step>)
    requires InOrder(s) && Legal(s, steps)
    ensures InOrder(After(s, steps))
    decreases |steps|
  {
    if steps != [] {
      StepKeepsOrder(s, steps[0]);
      RunsKeepOrder(Next(s, steps[0]), steps[1..]);
    }
  }

  lemma {:induction false} CallerOf(messages: seq<Message>, id: CallId) returns (j: nat)
    requires id in Calls(messages)
    ensures j < |messages| && messages[j].Assistant? && id in messages[j].calls
  {
    var before, m := messages[..|messages| - 1], messages[|messages| - 1];
    if id in Calls(before) {
      j := CallerOf(before, id);
    } else {
      j := |before|;
      assert id in multiset(m.calls);
    }
  }

  /** Over every sequence of runs, stopped anywhere, and whatever ids the model reuses: each result stands
      behind a message that made its call. */
  lemma {:induction false} ResultsFollowCalls(s: State, steps: seq<Step>, i: nat) returns (j: nat)
    requires InOrder(s) && Legal(s, steps)
    requires i < |After(s, steps).messages| && After(s, steps).messages[i].ToolResult?
    ensures var messages := After(s, steps).messages;
      j < i && messages[j].Assistant? && messages[i].id in messages[j].calls
  {
    RunsKeepOrder(s, steps);
    var messages := After(s, steps).messages;
    var upTo := messages[..i + 1];
    assert upTo == messages[..i] + [messages[i]];
    OneMore(messages[..i], messages[i]);
    assert messages[i].id in Results(upTo) && Results(upTo) <= Calls(upTo);
    j := CallerOf(upTo, messages[i].id);
  }

  // ------------------------------------------------------------------------------------------
  // Exactly when each recorded call has its own result
  // ------------------------------------------------------------------------------------------

  ghost predicate OneEach(messages: seq<Message>) {
    forall id | id in Calls(messages) :: Calls(messages)[id] == 1 == Results(messages)[id]
  }

  function RecoveredNow(s: State, held: set<AttemptId>): seq<Message> {
    Recovered(s.attempts, Known(s.messages) + held)
  }

  // A recovery is about to bring back a call whose id is taken, by a recorded call or by another one it brings back.
  ghost predicate Clashes(s: State, m: Step) {
    match m
    case Begin(held) => !NoRepeats(Calls(s.messages) + Calls(RecoveredNow(s, held)))
    case Recover(held) => !NoRepeats(Calls(s.messages) + Calls(RecoveredNow(s, held)))
    case _ => false
  }

  // The calls of a stored response are still new when they are recorded.
  ghost predicate SavedIsNew(s: State)
    requires WellFormed(s)
  {
    s.phase.Saved? ==>
      var calls := s.attempts[s.phase.attempt].calls;
      NoRepeats(multiset(calls)) && forall id | id in calls :: id !in Calls(s.messages)
  }

  // Recorded ids are distinct and answered as far as the phase asks; nothing is said of stored responses.
  ghost predicate Tidy(s: State) {
    WellFormed(s) && Answered(s) && NoRepeats(Calls(s.messages)) && SavedIsNew(s)
  }

  // Messages without calls and results make no difference, nor do other attempts.
  lemma {:induction false} QuietlyTidy(s: State, m: Message, t: State)
    requires Tidy(s) && (s.phase.Looping? || s.phase.Idle?) && (m == Other || (m.Assistant? && m.calls == []))
    requires forall a | a in AttemptOf(m) :: a < |s.attempts|
    requires t == s.(messages := s.messages + [m])
    ensures Tidy(t)
  {
    OneMore(s.messages, m);
    KnownMore(s.messages, m);
  }

  lemma {:induction false} ExtraTidy(s: State, p: Message, kept: bool, notice: bool, t: State)
    requires Tidy(s) && s.phase.Looping? && p.Assistant? && p.calls == []
    requires forall a | a in AttemptOf(p) :: a < |s.attempts|
    requires t == s.(messages := s.messages + ((if kept then [p] else []) + (if notice then [Other] else [])))
    ensures Tidy(t)
  {
    var u := s.(messages := s.messages + if kept then [p] else []);
    if kept {
      QuietlyTidy(s, p, u);
    } else {
      assert u.messages == s.messages;
    }
    if notice {
      assert t.messages == u.messages + [Other];
      QuietlyTidy(u, Other, t);
    } else {
      assert t.messages == u.messages;
    }
  }

  lemma {:induction false} RecoveryTidyExactly(s: State, held: set<AttemptId>, t: State)
    requires Tidy(s) && s.phase.Idle? && t == s.(messages := s.messages + RecoveredNow(s, held))
    ensures Calls(t.messages) == Calls(s.messages) + Calls(RecoveredNow(s, held))
    ensures Results(t.messages) == Results(s.messages) && WellFormed(t) && Answered(t)
  {
    RecoveryConservesCalls(s.messages, s.attempts, held);
    CountsSplit(s.messages, RecoveredNow(s, held));
    RecoveredCounts(s.attempts, Known(s.messages) + held);
  }

  /** At the start of a run each recorded call has exactly one result if and only if the recovery brings back
      no call whose id is taken. */
  lemma {:induction false} BeginAnswersExactly(s: State, held: set<AttemptId>)
    requires Tidy(s) && s.phase.Idle?
    ensures OneEach(Next(s, Begin(held)).messages) <==> !Clashes(s, Begin(held))
    ensures NoRepeats(Calls(Next(s, Begin(held)).messages)) <==> !Clashes(s, Begin(held))
    ensures !Clashes(s, Begin(held)) ==> Tidy(Next(s, Begin(held)))
  {
    var u := s.(messages := s.messages + RecoveredNow(s, held));
    var t := Next(s, Begin(held));
    RecoveryTidyExactly(s, held, u);
    RepairTidy(u, t);
  }

  lemma {:induction false} RepairTidy(u: State, t: State)
    requires WellFormed(u) && u.phase.Idle? && Results(u.messages) <= Calls(u.messages)
    requires t == u.(messages := Repair(u.messages) + [Other], phase := Looping, guard := t.guard)
    ensures Calls(t.messages) == Calls(u.messages)
    ensures OneEach(t.messages) <==> NoRepeats(Calls(u.messages))
    ensures NoRepeats(Calls(u.messages)) ==> Tidy(t)
  {
    RepairedCounts(u.messages);
    RepairedKnown(u.messages);
    OtherAdds(Repair(u.messages));
    if NoRepeats(Calls(u.messages)) {
      forall id ensures Results(t.messages)[id] == Calls(t.messages)[id] {
        assert Results(u.messages)[id] <= Calls(u.messages)[id] <= 1;
      }
      assert Paired(t.messages);
    }
  }

  lemma {:induction false} RejectTidy(s: State, kept: bool, t: State)
    requires Tidy(s) && s.phase.Saved?
    requires t == s.(attempts := t.attempts, phase := Looping, messages := s.messages + (if kept then Projection(s) else []) + [Other])
    requires |t.attempts| == |s.attempts|
    ensures Tidy(t)
  {
    var r := s.(attempts := t.attempts, phase := Looping);
    ExtraTidy(r, Projection(s)[0], kept, true, t.(messages := s.messages + ((if kept then Projection(s) else []) + [Other])));
    assert t.messages == s.messages + ((if kept then Projection(s) else []) + [Other]);
  }

  lemma {:induction false} RecordTidy(s: State, t: State)
    requires Tidy(s) && HasBatch(s)
    requires var a := s.phase.attempt;
      t == s.(messages := s.messages + [Assistant(Some(a), s.attempts[a].calls)], phase := Batch(s.attempts[a].calls), guard := t.guard)
    ensures Tidy(t)
  {
    var a := s.phase.attempt;
    OneMore(s.messages, Assistant(Some(a), s.attempts[a].calls));
    KnownMore(s.messages, Assistant(Some(a), s.attempts[a].calls));
  }

  lemma {:induction false} ResultAdds(messages: seq<Message>, id: CallId)
    ensures Calls(messages + [ToolResult(id)]) == Calls(messages)
    ensures Results(messages + [ToolResult(id)]) == Results(messages) + multiset{id}
    ensures Known(messages + [ToolResult(id)]) == Known(messages)
  {
    OneMore(messages, ToolResult(id));
    KnownMore(messages, ToolResult(id));
  }

  lemma {:induction false} ToolDoneTidy(s: State, t: State)
    requires Tidy(s) && s.phase.Batch?
    requires var todo := s.phase.todo;
      t == s.(messages := s.messages + [ToolResult(todo[0])], phase := if todo[1..] == [] then Looping else Batch(todo[1..]))
    ensures Tidy(t)
  {
    var todo := s.phase.todo;
    ResultAdds(s.messages, todo[0]);
    assert todo == [todo[0]] + todo[1..];
    assert multiset(todo) == multiset{todo[0]} + multiset(todo[1..]);
  }

  lemma {:induction false} StoppedTidy(s: State, attempts: seq<Attempt>)
    requires Tidy(s) && |attempts| == |s.attempts|
    ensures Tidy(s.(attempts := attempts, phase := Idle))
  {
  }

  lemma {:induction false} StopTidy(s: State, more: seq<Message>, t: State)
    requires Tidy(s) && !s.phase.Idle? && (more == [] || more == Projection(s))
    requires t == State(s.messages + more, t.attempts, Idle, s.guard) && |t.attempts| == |s.attempts|
    ensures Tidy(t)
  {
    var r := s.(attempts := t.attempts, phase := Idle);
    StoppedTidy(s, t.attempts);
    if more == [] {
      assert t.messages == s.messages;
    } else {
      QuietlyTidy(r, more[0], t);
    }
  }

  lemma {:induction false} GuardStaysTidy(s: State, g: Guard)
    requires Tidy(s)
    ensures Tidy(s.(guard := g))
  {
  }

  // The steps of a run that change messages or responses, recoveries aside.
  lemma {:induction false} RunStepTidy(s: State, m: Step)
    requires Tidy(s) && Enabled(s, m) && !m.Begin? && !m.Recover?
    ensures Tidy(Next(s, m))
  {
    var t := Next(s, m).(guard := s.guard);
    match m {
      case Reject(kept) => RejectTidy(s, kept, t);
      case Stall => QuietlyTidy(s.(phase := Looping), Other, t);
      case Record => RecordTidy(s, t);
      case Continue(kept, notice) => ExtraTidy(s.(phase := Looping), Projection(s)[0], kept, notice, t);
      case Retry(_, _, kept, notice) =>
        ExtraTidy(s.(phase := Looping, attempts := t.attempts), Projection(s)[0], kept, notice, t);
      case ToolDone => ToolDoneTidy(s, t);
      case Stop(marked, _) => StopTidy(s, if marked then Projection(s) else [], t);
      case _ =>
    }
    GuardStaysTidy(t, Next(s, m).guard);
  }

  lemma {:induction false} StepTidyExactly(s: State, m: Step)
    requires Tidy(s) && Enabled(s, m)
    ensures !Clashes(s, m) ==> Tidy(Next(s, m))
    ensures Clashes(s, m) ==> !NoRepeats(Calls(Next(s, m).messages))
  {
    if m.Begin? {
      BeginAnswersExactly(s, m.held);
    } else if m.Recover? {
      RecoveryTidyExactly(s, m.held, Next(s, m));
    } else {
      RunStepTidy(s, m);
    }
  }

  // Recorded calls stay recorded.
  lemma {:induction false} CallsStay(s: State, m: Step)
    requires WellFormed(s) && Enabled(s, m)
    ensures Calls(s.messages) <= Calls(Next(s, m).messages)
  {
    if m.Begin? {
      var u := s.messages + RecoveredNow(s, m.held);
      CountsSplit(s.messages, RecoveredNow(s, m.held));
      RepairedCounts(u);
      OtherAdds(Repair(u));
    } else {
      Appends(s, m);
      CountsSplit(s.messages, Added(s, m));
    }
  }

  // The messages a step appends, if it does not repair.
  function Added(s: State, m: Step): seq<Message>
    requires WellFormed(s)
  {
    match m
    case Reject(kept) => Extra(s, kept, true)
    case Stall => [Other]
    case Record => if HasBatch(s) then [Assistant(Some(s.phase.attempt), s.attempts[s.phase.attempt].calls)] else []
    case Continue(kept, notice) => Extra(s, kept, notice)
    case Retry(_, _, kept, notice) => Extra(s, kept, notice)
    case ToolDone => if s.phase.Batch? then [ToolResult(s.phase.todo[0])] else []
    case Stop(marked, _) => if marked then Projection(s) else []
    case Recover(held) => RecoveredNow(s, held)
    case _ => []
  }

  lemma {:induction false} Appends(s: State, m: Step)
    requires WellFormed(s) && Enabled(s, m) && !m.Begin?
    ensures Next(s, m).messages == s.messages + Added(s, m)
  {
    assert s.messages + [] == s.messages;
    if m.Reject? {
      assert s.messages + (if m.kept then Projection(s) else []) + [Other] == s.messages + Extra(s, m.kept, true);
    }
  }

  ghost predicate NeverClashes(s: State, steps: seq<Step>)
    requires WellFormed(s) && Legal(s, steps)
    decreases |steps|
  {
    steps != [] ==> !Clashes(s, steps[0]) && NeverClashes(Next(s, steps[0]), steps[1..])
  }

  lemma {:induction false} RepeatsStay(s: State, steps: seq<Step>)
    requires WellFormed(s) && Legal(s, steps) && !NoRepeats(Calls(s.messages))
    ensures !NoRepeats(Calls(After(s, steps).messages))
    decreases |steps|
  {
    if steps != [] {
      CallsStay(s, steps[0]);
      var id :| Calls(s.messages)[id] > 1;
      assert Calls(Next(s, steps[0]).messages)[id] > 1;
      RepeatsStay(Next(s, steps[0]), steps[1..]);
    }
  }

  lemma {:induction false} TidyExactly(s: State, steps: seq<Step>)
    requires Tidy(s) && Legal(s, steps)
    ensures NeverClashes(s, steps) ==> Tidy(After(s, steps))
    ensures !NeverClashes(s, steps) ==> !NoRepeats(Calls(After(s, steps).messages))
    decreases |steps|
  {
    if steps != [] {
      StepTidyExactly(s, steps[0]);
      if Clashes(s, steps[0]) {
        RepeatsStay(Next(s, steps[0]), steps[1..]);
      } else {
        TidyExactly(Next(s, steps[0]), steps[1..]);
      }
    }
  }

  /** Over every sequence of runs, stopped anywhere: when the model is asked, each recorded call has exactly one
      result if and only if no recovery so far brought back a call whose id was taken. */
  lemma {:induction false} OneResultPerCallExactly(s: State, steps: seq<Step>)
    requires Tidy(s) && Legal(s, steps) && After(s, steps).phase.Looping?
    ensures OneEach(After(s, steps).messages) <==> NeverClashes(s, steps)
  {
    TidyExactly(s, steps);
    var t := After(s, steps);
    if NeverClashes(s, steps) {
      forall id | id in Calls(t.messages) ensures Calls(t.messages)[id] == 1 == Results(t.messages)[id] {
        assert Calls(t.messages)[id] <= 1;
      }
    } else {
      var id :| Calls(t.messages)[id] > 1;
      assert id in Calls(t.messages);
    }
  }

  /** Responses that reuse no id of a stored response never lead there. */
  lemma {:induction false} NoReuseNoClash(s: State, steps: seq<Step>)
    requires Invariant(s) && Legal(s, steps) && NeverReuses(s, steps)
    ensures NeverClashes(s, steps)
    decreases |steps|
  {
    if steps != [] {
      StepKeepsInvariant(s, steps[0]);
      if steps[0].Begin? || steps[0].Recover? {
        RecoveredIdsAreNew(s, steps[0].held);
      }
      NoReuseNoClash(Next(s, steps[0]), steps[1..]);
    }
  }

  lemma {:induction false} RecoveredIdsAreNew(s: State, held: set<AttemptId>)
    requires Invariant(s)
    ensures NoRepeats(Calls(s.messages) + Calls(RecoveredNow(s, held)))
  {
    RecoveryConservesCalls(s.messages, s.attempts, held);
    CountsSplit(s.messages, RecoveredNow(s, held));
    var all := Calls(s.messages) + Calls(RecoveredNow(s, held));
    assert all <= Ids(s);
    forall id ensures all[id] <= 1 {
      assert all[id] <= Ids(s)[id];
    }
  }

  // ------------------------------------------------------------------------------------------
  // A refused batch that comes back
  // ------------------------------------------------------------------------------------------

  lemma {:induction false} FirstStep(s: State, m: Step, rest: seq<Step>)
    requires WellFormed(s) && Enabled(s, m) && WellFormed(Next(s, m)) && Legal(Next(s, m), rest)
    ensures Legal(s, [m] + rest) && After(s, [m] + rest) == After(Next(s, m), rest)
  {
    assert ([m] + rest)[1..] == rest;
  }

  lemma {:induction false} SplitHead(a: seq<Step>, b: seq<Step>)
    requires a != []
    ensures a + b == [a[0]] + (a[1..] + b)
  {
  }

  // The rest of a run, and how it goes on from there.
  lemma {:induction false} HeadStep(s: State, steps: seq<Step>) returns (t: State)
    requires WellFormed(s) && steps != [] && Legal(s, steps)
    ensures WellFormed(t) && Legal(t, steps[1..]) && After(s, steps) == After(t, steps[1..])
    ensures forall more | Legal(t, more) :: Legal(s, [steps[0]] + more) && After(s, [steps[0]] + more) == After(t, more)
  {
    t := Next(s, steps[0]);
    forall more | Legal(t, more) ensures Legal(s, [steps[0]] + more) && After(s, [steps[0]] + more) == After(t, more) {
      FirstStep(s, steps[0], more);
    }
  }

  lemma {:induction false} RunsJoin(s: State, a: seq<Step>, b: seq<Step>)
    requires WellFormed(s) && Legal(s, a) && WellFormed(After(s, a)) && Legal(After(s, a), b)
    ensures Legal(s, a + b) && After(s, a + b) == After(After(s, a), b)
    decreases |a|
  {
    if a == [] {
      assert a + b == b;
    } else {
      var t := HeadStep(s, a);
      RunsJoin(t, a[1..], b);
      SplitHead(a, b);
    }
  }

  // ------------------------------------------------------------------------------------------
  // What a round achieves
  // ------------------------------------------------------------------------------------------

  function ResultsOf(calls: seq<CallId>): seq<Message> {
    seq(|calls|, i requires 0 <= i < |calls| => ToolResult(calls[i]))
  }

  function Executing(n: nat): seq<Step> {
    if n == 0 then [] else [ToolDone] + Executing(n - 1)
  }

  lemma {:induction false} OneToolIsDone(s: State, todo: seq<CallId>)
    requires WellFormed(s) && s.phase == Batch(todo) && todo != []
    ensures var t := s.(messages := s.messages + [ToolResult(todo[0])], phase := if |todo| == 1 then Looping else Batch(todo[1..]));
      Next(s, ToolDone) == t && WellFormed(t)
  {
    KnownMore(s.messages, ToolResult(todo[0]));
  }

  lemma {:induction false} ToolsAreDone(s: State, todo: seq<CallId>)
    requires WellFormed(s) && s.phase == Batch(todo) && todo != []
    ensures Legal(s, Executing(|todo|))
    ensures After(s, Executing(|todo|)) == s.(messages := s.messages + ResultsOf(todo), phase := Looping)
    decreases |todo|
  {
    OneToolIsDone(s, todo);
    var t := Next(s, ToolDone);
    assert ResultsOf(todo) == [ToolResult(todo[0])] + ResultsOf(todo[1..]);
    assert s.messages + ResultsOf(todo) == t.messages + ResultsOf(todo[1..]);
    if |todo| > 1 {
      ToolsAreDone(t, todo[1..]);
    }
    FirstStep(s, ToolDone, Executing(|todo| - 1));
  }

  function ToolRound(calls: seq<CallId>, fingerprint: string): seq<Step> {
    [Ask] + ([Save(calls, fingerprint, true, false)] + ([Record] + Executing(|calls|)))
  }

  // The state behind the request whose response is stored.
  function ResponseIn(s: State, x: Attempt, fingerprint: string): State {
    s.(attempts := s.attempts + [x], phase := Saved(|s.attempts|, fingerprint))
  }

  lemma {:induction false} ResponseIsStored(s: State, x: Attempt, fingerprint: string, rest: seq<Step>)
    requires WellFormed(s) && s.phase == Looping && (x.status == Completed || x.status == Incomplete)
    requires NoRepeats(multiset(x.calls)) && forall id | id in x.calls :: id !in Calls(s.messages)
    requires WellFormed(ResponseIn(s, x, fingerprint)) ==> Legal(ResponseIn(s, x, fingerprint), rest)
    ensures WellFormed(ResponseIn(s, x, fingerprint))
    ensures var steps := [Ask] + ([Save(x.calls, fingerprint, x.status == Completed, x.text)] + rest);
      Legal(s, steps) && After(s, steps) == After(ResponseIn(s, x, fingerprint), rest)
  {
    var asked := s.(attempts := s.attempts + [Attempt([], Streaming, false)], phase := Asked(|s.attempts|));
    assert Next(s, Ask) == asked && WellFormed(asked);
    var t := ResponseIn(s, x, fingerprint);
    assert asked.attempts[|s.attempts| := x] == t.attempts;
    assert Next(asked, Save(x.calls, fingerprint, x.status == Completed, x.text)) == t && WellFormed(t);
    FirstStep(asked, Save(x.calls, fingerprint, x.status == Completed, x.text), rest);
    FirstStep(s, Ask, [Save(x.calls, fingerprint, x.status == Completed, x.text)] + rest);
  }

  lemma {:induction false} BatchIsRecorded(s: State, calls: seq<CallId>)
    requires WellFormed(s) && HasBatch(s) && s.attempts[s.phase.attempt].calls == calls && !Stalls(s.guard, s.phase.fingerprint)
    ensures Legal(s, [Record] + Executing(|calls|))
    ensures After(s, [Record] + Executing(|calls|)) ==
      s.(messages := s.messages + [Assistant(Some(s.phase.attempt), calls)] + ResultsOf(calls), phase := Looping,
         guard := Judged(s.guard, s.phase.fingerprint))
  {
    var m := Assistant(Some(s.phase.attempt), calls);
    KnownMore(s.messages, m);
    var t := s.(messages := s.messages + [m], phase := Batch(calls), guard := Judged(s.guard, s.phase.fingerprint));
    assert Next(s, Record) == t && WellFormed(t);
    ToolsAreDone(t, calls);
    FirstStep(s, Record, Executing(|calls|));
  }

  /** A round whose batch is not refused records the response with all its calls, then their results in order, and
      goes on to the next request. */
  lemma {:induction false} RoundIsRecorded(s: State, calls: seq<CallId>, fingerprint: string)
    requires WellFormed(s) && s.phase == Looping && calls != [] && !Stalls(s.guard, fingerprint)
    requires NoRepeats(multiset(calls)) && forall id | id in calls :: id !in Calls(s.messages)
    ensures Legal(s, ToolRound(calls, fingerprint))
    ensures var t := After(s, ToolRound(calls, fingerprint));
      && t.messages == s.messages + [Assistant(Some(|s.attempts|), calls)] + ResultsOf(calls)
      && t.phase == Looping && t.attempts == s.attempts + [Attempt(calls, Completed, false)]
      && t.guard == Judged(s.guard, fingerprint)
  {
    var x := Attempt(calls, Completed, false);
    var u := ResponseIn(s, x, fingerprint);
    assert u.attempts[|s.attempts|] == x;
    assert WellFormed(u);
    BatchIsRecorded(u, calls);
    ResponseIsStored(s, x, fingerprint, [Record] + Executing(|calls|));
  }

  // The steps of a round that ends the run with an answer, and of one that repeats a batch.
  function AnswerRound(): seq<Step> {
    [Ask] + ([Save([], "", true, true)] + ([Continue(true, false)] + ([Stop(false, false)] + [])))
  }

  /** An answer without calls becomes the last message, and the run can end. */
  lemma {:induction false} AnswerIsRecorded(s: State)
    requires WellFormed(s) && s.phase == Looping
    ensures Legal(s, AnswerRound())
    ensures var t := After(s, AnswerRound());
      && t.messages == s.messages + [Assistant(Some(|s.attempts|), [])] && t.phase == Idle
      && t.attempts == s.attempts + [Attempt([], Completed, true)] && t.guard == Cleared(s.guard)
  {
    var x := Attempt([], Completed, true);
    var u := ResponseIn(s, x, "");
    assert u.attempts[|s.attempts|] == x && WellFormed(u);
    var m := Assistant(Some(|s.attempts|), []);
    KnownMore(s.messages, m);
    var v := u.(messages := s.messages + [m], phase := Looping, guard := Cleared(s.guard));
    assert Extra(u, true, false) == [m] && Next(u, Continue(true, false)) == v && WellFormed(v);
    assert v.messages + [] == v.messages && Next(v, Stop(false, false)) == v.(phase := Idle);
    FirstStep(v, Stop(false, false), []);
    FirstStep(u, Continue(true, false), [Stop(false, false)] + []);
    ResponseIsStored(s, x, "", [Continue(true, false)] + ([Stop(false, false)] + []));
  }

  /** A response that is stored when its run stops is in the messages once the next run has begun, unless it was
      rejected or holds nothing; a rejected one never comes back. */
  lemma {:induction false} StoredResponseComesBack(s: State, a: AttemptId, held: set<AttemptId>)
    requires WellFormed(s) && s.phase == Idle && a < |s.attempts| && a !in held && a !in Known(s.messages)
    ensures a in Known(Next(s, Begin(held)).messages) <==> Recoverable(s.attempts[a])
    ensures s.attempts[a].status == Completed ==> (Recoverable(s.attempts[a]) <==> s.attempts[a].text || s.attempts[a].calls != [])
    ensures s.attempts[a].status == Invalid ==> !Recoverable(s.attempts[a])
  {
    var recovered := Recovered(s.attempts, Known(s.messages) + held);
    RecoveredAre(s.attempts, Known(s.messages) + held, a);
    KnownSplits(s.messages, recovered);
    RepairedKnown(s.messages + recovered);
    KnownMore(Repair(s.messages + recovered), Other);
  }

  /** A rejected response is invalid from then on, a stopped one keeps its calls. */
  lemma {:induction false} RejectedIsInvalid(s: State, kept: bool)
    requires WellFormed(s) && s.phase.Saved?
    ensures Next(s, Reject(kept)).attempts == s.attempts[s.phase.attempt := s.attempts[s.phase.attempt].(status := Invalid)]
    ensures Next(s, Reject(kept)).phase == Looping && Next(s, Stop(false, false)).phase == Idle
    ensures Next(s, Stop(false, false)).attempts == s.attempts && Next(s, Stop(false, false)).messages == s.messages
  {
  }

  const ASKED := Attempt([], Streaming, false)

  function Stored(id: CallId): Attempt {
    Attempt([id], Completed, false)
  }

  // A round with one call that is executed, and one that is refused.
  function Round(id: CallId, fingerprint: string): seq<Step> {
    [Ask] + ([Save([id], fingerprint, true, false)] + ([Record] + ([ToolDone] + [])))
  }

  function RefusedRound(id: CallId, fingerprint: string): seq<Step> {
    [Ask] + ([Save([id], fingerprint, true, false)] + ([Stall] + []))
  }

  // The state with the response to a request stored.
  function WithResponse(s: State, id: CallId, fingerprint: string): State {
    s.(attempts := s.attempts + [Stored(id)], phase := Saved(|s.attempts|, fingerprint))
  }

  lemma {:induction false} ResponseStored(s: State, id: CallId, fingerprint: string, rest: seq<Step>)
    requires WellFormed(s) && s.phase == Looping && id !in Calls(s.messages)
    requires WellFormed(WithResponse(s, id, fingerprint)) && Legal(WithResponse(s, id, fingerprint), rest)
    ensures var steps := [Ask] + ([Save([id], fingerprint, true, false)] + rest);
      Legal(s, steps) && After(s, steps) == After(WithResponse(s, id, fingerprint), rest)
  {
    var asked := s.(attempts := s.attempts + [ASKED], phase := Asked(|s.attempts|));
    assert WellFormed(asked) && Next(s, Ask) == asked;
    assert asked.attempts[|s.attempts| := Stored(id)] == s.attempts + [Stored(id)];
    assert multiset([id]) == multiset{id};
    var save := Save([id], fingerprint, true, false);
    assert Enabled(asked, save) && Next(asked, save) == WithResponse(s, id, fingerprint);
    FirstStep(asked, save, rest);
    FirstStep(s, Ask, [save] + rest);
  }

  lemma {:induction false} ResponseWellFormed(s: State, id: CallId, fingerprint: string)
    requires WellFormed(s) && s.phase == Looping
    ensures WellFormed(WithResponse(s, id, fingerprint))
  {
  }

  // What an executed round leaves.
  function Executed(s: State, id: CallId, fingerprint: string): State {
    State(s.messages + [Assistant(Some(|s.attempts|), [id])] + [ToolResult(id)], s.attempts + [Stored(id)], Looping,
          Judged(s.guard, fingerprint))
  }

  lemma {:induction false} ExecutedCounts(s: State, id: CallId, fingerprint: string)
    ensures var t := Executed(s, id, fingerprint);
      && Calls(t.messages) == Calls(s.messages) + multiset{id} && Results(t.messages) == Results(s.messages) + multiset{id}
      && Known(t.messages) == Known(s.messages) + {|s.attempts|}
  {
    var called := s.messages + [Assistant(Some(|s.attempts|), [id])];
    OneMore(s.messages, Assistant(Some(|s.attempts|), [id]));
    KnownMore(s.messages, Assistant(Some(|s.attempts|), [id]));
    OneMore(called, ToolResult(id));
    KnownMore(called, ToolResult(id));
    assert multiset([id]) == multiset{id};
  }

  lemma {:induction false} RoundExecutes(s: State, id: CallId, fingerprint: string)
    requires WellFormed(s) && s.phase == Looping && id !in Calls(s.messages) && !Stalls(s.guard, fingerprint)
    ensures Legal(s, Round(id, fingerprint)) && After(s, Round(id, fingerprint)) == Executed(s, id, fingerprint)
    ensures WellFormed(Executed(s, id, fingerprint))
  {
    ExecutedCounts(s, id, fingerprint);
    ResponseWellFormed(s, id, fingerprint);
    BatchExecutes(WithResponse(s, id, fingerprint), Executed(s, id, fingerprint), id, fingerprint);
    ResponseStored(s, id, fingerprint, [Record] + ([ToolDone] + []));
  }

  lemma {:induction false} BatchExecutes(s: State, t: State, id: CallId, fingerprint: string)
    requires WellFormed(s) && HasBatch(s) && s.phase.fingerprint == fingerprint && !Stalls(s.guard, fingerprint)
    requires s.attempts[s.phase.attempt].calls == [id] && WellFormed(t)
    requires t == State(s.messages + [Assistant(Some(s.phase.attempt), [id])] + [ToolResult(id)], s.attempts, Looping,
                        Judged(s.guard, fingerprint))
    ensures Legal(s, [Record] + ([ToolDone] + [])) && After(s, [Record] + ([ToolDone] + [])) == t
  {
    var batch := t.(messages := s.messages + [Assistant(Some(s.phase.attempt), [id])], phase := Batch([id]));
    KnownMore(s.messages, Assistant(Some(s.phase.attempt), [id]));
    assert Next(s, Record) == batch && WellFormed(batch);
    assert [id][1..] == [] && Next(batch, ToolDone) == t;
    FirstStep(batch, ToolDone, []);
    FirstStep(s, Record, [ToolDone] + []);
  }

  function Refused(s: State, id: CallId): State {
    State(s.messages + [Other], s.attempts + [Stored(id)], Looping, Cleared(s.guard))
  }

  lemma {:induction false} RoundIsRefused(s: State, id: CallId, fingerprint: string)
    requires WellFormed(s) && s.phase == Looping && id !in Calls(s.messages) && Stalls(s.guard, fingerprint)
    ensures Legal(s, RefusedRound(id, fingerprint)) && After(s, RefusedRound(id, fingerprint)) == Refused(s, id)
    ensures WellFormed(Refused(s, id))
  {
    OtherAdds(s.messages);
    ResponseWellFormed(s, id, fingerprint);
    var saved := WithResponse(s, id, fingerprint);
    assert Enabled(saved, Stall) && Next(saved, Stall) == Refused(s, id);
    FirstStep(saved, Stall, []);
    ResponseStored(s, id, fingerprint, [Stall] + []);
  }

  // The run is stopped, its responses are recovered, and the next run begins.
  const NEXT_RUN: seq<Step> := [Stop(false, false)] + ([Recover({})] + ([Begin({})] + []))

  // Response k, with the call id, is stored but in no message.
  lemma {:induction false} NextRunRevives(s: State, k: AttemptId, id: CallId)
    requires WellFormed(s) && s.phase == Looping && k < |s.attempts| && Paired(s.messages) && id in Calls(s.messages)
    requires Recovered(s.attempts, Known(s.messages)) == [Assistant(Some(k), [id])]
    requires Recovered(s.attempts, Known(s.messages) + {k}) == []
    ensures Legal(s, NEXT_RUN)
    ensures var t := After(s, NEXT_RUN);
      && t.phase == Looping
      && Calls(t.messages) == Calls(s.messages) + multiset{id} && Results(t.messages) == Results(s.messages)
  {
    var idle := s.(phase := Idle);
    var revived := idle.(messages := s.messages + [Assistant(Some(k), [id])]);
    StopLeaves(s);
    RecoverRevives(idle, k, id, revived);
    BeginOnRepaired(revived);
    ThreeSteps(s, idle, revived, Stop(false, false), Recover({}), Begin({}));
  }

  lemma {:induction false} StopLeaves(s: State)
    requires WellFormed(s) && s.phase == Looping
    ensures Next(s, Stop(false, false)) == s.(phase := Idle) && WellFormed(s.(phase := Idle))
  {
    assert s.messages + [] == s.messages;
  }

  lemma {:induction false} ThreeSteps(s: State, u: State, v: State, a: Step, b: Step, c: Step)
    requires WellFormed(s) && Enabled(s, a) && WellFormed(Next(s, a)) && Next(s, a) == u
    requires Enabled(u, b) && WellFormed(Next(u, b)) && Next(u, b) == v && Enabled(v, c) && WellFormed(Next(v, c))
    ensures Legal(s, [a] + ([b] + ([c] + []))) && After(s, [a] + ([b] + ([c] + []))) == Next(v, c)
  {
    FirstStep(v, c, []);
    FirstStep(u, b, [c] + []);
    FirstStep(s, a, [b] + ([c] + []));
  }

  lemma {:induction false} RecoverRevives(s: State, k: AttemptId, id: CallId, t: State)
    requires WellFormed(s) && s.phase == Idle && k < |s.attempts| && Paired(s.messages) && id in Calls(s.messages)
    requires Recovered(s.attempts, Known(s.messages)) == [Assistant(Some(k), [id])]
    requires t == s.(messages := s.messages + [Assistant(Some(k), [id])])
    ensures Next(s, Recover({})) == t && WellFormed(t) && Known(t.messages) == Known(s.messages) + {k}
    ensures Calls(t.messages) == Calls(s.messages) + multiset{id} && Results(t.messages) == Results(s.messages)
    ensures forall x | x in Calls(t.messages) :: x in Results(t.messages)
  {
    OneMore(s.messages, Assistant(Some(k), [id]));
    KnownMore(s.messages, Assistant(Some(k), [id]));
    assert multiset([id]) == multiset{id} && Known(s.messages) + {} == Known(s.messages);
  }

  lemma {:induction false} BeginOnRepaired(s: State)
    requires WellFormed(s) && s.phase.Idle? && Recovered(s.attempts, Known(s.messages)) == []
    requires forall id | id in Calls(s.messages) :: id in Results(s.messages)
    ensures Next(s, Begin({})) == s.(messages := s.messages + [Other], phase := Looping, guard := Cleared(s.guard))
    ensures Calls(s.messages + [Other]) == Calls(s.messages) && Results(s.messages + [Other]) == Results(s.messages)
    ensures WellFormed(Next(s, Begin({})))
  {
    assert Known(s.messages) + {} == Known(s.messages) && s.messages + [] == s.messages;
    NothingToRepair(s.messages, KnownResults(s.messages));
    OtherAdds(s.messages);
  }

  // Before the first run; a batch may not be repeated at all.
  const FRESH := State([], [], Idle, Guard(1, None, 0))

  const BEGUN := State([Other], [], Looping, Guard(1, None, 0))

  lemma {:induction false} FirstRunBegins()
    ensures WellFormed(FRESH) && Enabled(FRESH, Begin({})) && Next(FRESH, Begin({})) == BEGUN && WellFormed(BEGUN)
    ensures Calls(BEGUN.messages) == multiset{} == Results(BEGUN.messages) && Known(BEGUN.messages) == {}
  {
    assert FRESH.messages + [Other] == [Other];
    OtherAdds(FRESH.messages);
    assert Recovered(FRESH.attempts, {}) == [] && Repair(FRESH.messages) == [];
    BeginOnRepaired(FRESH);
  }

  // Batch p is executed as call a and refused as call c; then another batch takes the id c and is executed.
  function Reused(a: CallId, c: CallId, p: string, q: string): seq<Step> {
    Round(a, p) + (RefusedRound(c, p) + (Round(c, q) + NEXT_RUN))
  }

  // The state before the run is stopped.
  function BeforeTheEnd(a: CallId, c: CallId, p: string, q: string): State {
    Executed(Refused(Executed(BEGUN, a, p), c), c, q)
  }

  lemma {:induction false} EndFacts(a: CallId, c: CallId, p: string, q: string)
    ensures var s := BeforeTheEnd(a, c, p, q);
      Calls(s.messages) == multiset{a, c} == Results(s.messages) && Known(s.messages) == {0, 2}
  {
    var one := Executed(BEGUN, a, p);
    FirstRunBegins();
    ExecutedCounts(BEGUN, a, p);
    OtherAdds(one.messages);
    assert |Refused(one, c).attempts| == 2;
    ExecutedCounts(Refused(one, c), c, q);
  }

  lemma {:induction false} EndAttempts(a: CallId, c: CallId, p: string, q: string)
    ensures BeforeTheEnd(a, c, p, q).attempts == [] + [Stored(a)] + [Stored(c)] + [Stored(c)]
  {
  }

  lemma {:induction false} OnlyRefusedIsOpen(a: CallId, c: CallId, skip: set<AttemptId>)
    requires 0 in skip && 2 in skip
    ensures Recovered([] + [Stored(a)] + [Stored(c)] + [Stored(c)], skip) == if 1 in skip then [] else [Assistant(Some(1), [c])]
  {
    var one: seq<Attempt> := [] + [Stored(a)];
    var two := one + [Stored(c)];
    RecoveredMore([], Stored(a), skip);
    RecoveredMore(one, Stored(c), skip);
    RecoveredMore(two, Stored(c), skip);
    assert |one| == 1 && |two| == 2;
  }

  lemma {:induction false} LastRuns(a: CallId, c: CallId, p: string, q: string)
    requires a != c && WellFormed(BeforeTheEnd(a, c, p, q))
    ensures Legal(BeforeTheEnd(a, c, p, q), NEXT_RUN)
    ensures var t := After(BeforeTheEnd(a, c, p, q), NEXT_RUN);
      t.phase == Looping && Calls(t.messages)[c] == 2 && Results(t.messages)[c] == 1
  {
    var s := BeforeTheEnd(a, c, p, q);
    EndFacts(a, c, p, q);
    EndAttempts(a, c, p, q);
    OnlyRefusedIsOpen(a, c, {0, 2});
    OnlyRefusedIsOpen(a, c, {0, 2} + {1});
    NextRunRevives(s, 1, c);
  }

  /** The condition is needed.  A batch refused for repetition stays stored as a completed response; if the
      next one takes the same id and is executed, recovery brings the refused call back, and the model is
      then asked with two calls that share one result. */
  lemma {:induction false} StalledCallComesBack(a: CallId, c: CallId, p: string, q: string)
    requires a != c
    ensures WellFormed(FRESH) && Legal(FRESH, [Begin({})] + Reused(a, c, p, q))
    ensures var t := After(FRESH, [Begin({})] + Reused(a, c, p, q));
      t.phase == Looping && Calls(t.messages)[c] == 2 && Results(t.messages)[c] == 1 && !OneEach(t.messages)
  {
    FirstRunBegins();
    var one := Executed(BEGUN, a, p);
    var two := Refused(one, c);
    var three := Executed(two, c, q);
    RoundExecutes(BEGUN, a, p);
    ExecutedCounts(BEGUN, a, p);
    RoundIsRefused(one, c, p);
    OtherAdds(one.messages);
    RoundExecutes(two, c, q);
    LastRuns(a, c, p, q);
    RunsJoin(two, Round(c, q), NEXT_RUN);
    RunsJoin(one, RefusedRound(c, p), Round(c, q) + NEXT_RUN);
    RunsJoin(BEGUN, Round(a, p), RefusedRound(c, p) + (Round(c, q) + NEXT_RUN));
    FirstStep(FRESH, Begin({}), Reused(a, c, p, q));
  }
}
