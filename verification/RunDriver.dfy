/**
The driver of one run (backend/app/services/agent_run_service.py, `_drive_run`, `_status_for_event`,
and the two writers of the run row in backend/app/services/store.py it ends with).

A `Script` says what the outside does to one drive: the events of the engine, how the stream ends, and
which of the calls raise.  `DriveRun` follows the coroutine through it and leaves a trace of its actions.
*/
module RunDriver {
  import opened Common

  // The subtypes that matter; ErrorOther is any other that starts with "error".
  datatype Subtype = Success | AwaitingUserInput | AbortedRun | PlainError | ErrorCleanup | ErrorOther(text: string) | Other(text: string)

  datatype Event =
    | Completed(subtype: Subtype)
    | Aborted
    | Error
    | WorkboardUpdated
    | AskCancelled
    | Streamed(body: string)

  datatype Status = Queued | Running | WaitingInput | CompletedRun | Failed | Cancelled | TimedOut

  // The run row and its events.
  datatype Row = Row(status: Status, log: seq<Event>)

  // How one publish ends.  A raise can come before or after the event is committed; a cancellation
  // is delivered only once a publish that got the lock has run to its end.
  datatype Outcome = Done | Raised(committed: bool) | Interrupted(committed: bool)

  // How another call of the finally block ends; only a cancellation leaves the block early.
  datatype Fate = Goes | Raises | IsCut

  datatype Item = Item(event: Event, outcome: Outcome)

  datatype Ending = Normal | ByException | ByCancellation

  datatype Fault = NoFault | InRecovery | InProjection | InTranscript

  datatype Script = Script(
    items: seq<Item>,
    ending: Ending,
    recovery: Outcome,            // publishing the aborted or error event
    settleRaises: bool,
    board: Outcome,               // publishing the two settled snapshots
    ask: Outcome,
    fault: Fault,
    persist: Fate,
    subagents: Fate,
    terminal: Outcome,
    failRaises: bool,
    closes: bool                  // false if a cancellation arrives while the closing waits for the service lock
  )

  datatype Action =
    | Publish(event: Event, outcome: Outcome)
    | SettleRuntime
    | RecoverAttempts
    | ProjectAborted
    | BuildTranscript
    | FinishRun
    | PersistSession
    | CancelSubagents
    | FailRow
    | ClearView
    | CloseRun(goes: bool)

  // ------------------------------------------------------------------------------------------
  // The run row
  // ------------------------------------------------------------------------------------------

  function StatusFor(e: Event): Option<Status> {
    if !e.Completed? then None
    else
      match e.subtype
      case Success => Some(CompletedRun)
      case AwaitingUserInput => Some(WaitingInput)
      case AbortedRun => Some(Cancelled)
      case PlainError => Some(Failed)
      case ErrorCleanup => Some(Failed)
      case ErrorOther(_) => Some(Failed)
      case Other(_) => Some(CompletedRun)
  }

  predicate Active(status: Status) {
    status == Queued || status == Running || status == WaitingInput
  }

  function Append(row: Row, e: Event): Row {
    Row(if StatusFor(e).Some? then StatusFor(e).value else row.status, row.log + [e])
  }

  predicate IsCommitted(o: Outcome) {
    o.Done? || o.committed
  }

  // `fail_agent_run`: a row that is no longer active stays as it is.
  function FailActive(row: Row): Row {
    if Active(row.status) then Row(Failed, row.log + [Error, Completed(PlainError)]) else row
  }

  // What one action leaves in the row; `failGoes` says whether FailRow goes through.
  function Effect(row: Row, a: Action, failGoes: bool): Row {
    if a.Publish? && IsCommitted(a.outcome) then Append(row, a.event)
    else if a.FailRow? && failGoes then FailActive(row)
    else row
  }

  function Replay(row: Row, acts: seq<Action>, failGoes: bool): Row
    decreases |acts|
  {
    if acts == [] then row
    else Replay(Effect(row, acts[0], failGoes), acts[1..], failGoes)
  }

  // ------------------------------------------------------------------------------------------
  // How a drive ends, from its script
  // ------------------------------------------------------------------------------------------

  // Completed events are held back; any other event is published, and a publish that fails ends the stream.
  predicate Breaks(i: Item) {
    !i.event.Completed? && !i.outcome.Done?
  }

  predicate BreaksAt(items: seq<Item>, n: nat) {
    n < |items| && Breaks(items[n]) && forall j | 0 <= j < n :: !Breaks(items[j])
  }

  predicate Unbroken(items: seq<Item>) {
    forall j | 0 <= j < |items| :: !Breaks(items[j])
  }

  // The completed event the engine yielded last.
  function Held(items: seq<Item>): Option<Subtype>
    decreases |items|
  {
    if items == [] then None
    else if items[|items| - 1].event.Completed? then Some(items[|items| - 1].event.subtype)
    else Held(items[..|items| - 1])
  }

  // How the stream ended and what the driver held when it did.
  ghost predicate StreamEnds(s: Script, ending: Ending, held: Option<Subtype>) {
    || (Unbroken(s.items) && ending == s.ending && held == Held(s.items))
    || (exists n: nat ::
          && BreaksAt(s.items, n) && held == Held(s.items[..n])
          && ending == (if s.items[n].outcome.Interrupted? then ByCancellation else ByException))
  }

  // The terminal event as the except clauses leave it.
  function Chosen(s: Script, ending: Ending, held: Option<Subtype>): Option<Subtype> {
    if ending.Normal? || !s.recovery.Done? then held
    else if ending.ByCancellation? then Some(AbortedRun)
    else Some(PlainError)
  }

  function Settled(s: Script, chosen: Option<Subtype>): Subtype {
    var subtype := if chosen.Some? then chosen.value else ErrorCleanup;
    if subtype == AbortedRun && (s.settleRaises || !s.board.Done? || !s.ask.Done?) then ErrorCleanup else subtype
  }

  function Terminal(s: Script, chosen: Option<Subtype>): Subtype {
    if s.persist.Raises? then ErrorCleanup else Settled(s, chosen)
  }

  // Where a cancellation leaves the finally block before the terminal publish.
  datatype Cut = NotCut | InSettle | InPersist | InSubagents

  function CutOf(s: Script, chosen: Option<Subtype>): Cut {
    if chosen == Some(AbortedRun) && !s.settleRaises && (s.board.Interrupted? || (s.board.Done? && s.ask.Interrupted?)) then InSettle
    else if s.persist.IsCut? then InPersist
    else if s.subagents.IsCut? && Stopped(Terminal(s, chosen)) then InSubagents
    else NotCut
  }

  function RecoveryEvents(ending: Ending): seq<Event> {
    match ending
    case Normal => []
    case ByCancellation => [Aborted]
    case ByException => [Error]
  }

  // A run that ends aborted publishes its settled work board and question, unless something raises.
  function SettleEvents(s: Script, chosen: Option<Subtype>): seq<Event> {
    if chosen != Some(AbortedRun) || s.settleRaises then []
    else if s.board.Done? then [WorkboardUpdated, AskCancelled]
    else [WorkboardUpdated]
  }

  // ------------------------------------------------------------------------------------------
  // What a trace has to look like
  // ------------------------------------------------------------------------------------------

  predicate IsTerminal(a: Action) {
    a.Publish? && a.event.Completed?
  }

  predicate Quiet(a: Action) {
    !IsTerminal(a) && !a.CancelSubagents? && !a.FailRow? && !a.CloseRun?
  }

  // A stretch of a trace before the subagents are cancelled and the terminal event is published.
  predicate Preparing(acts: seq<Action>) {
    forall a | a in acts :: Quiet(a)
  }

  // The session's run is finished, then its state written, before action k.
  predicate SavedBefore(acts: seq<Action>, k: nat) {
    k <= |acts| && exists i :: 0 <= i < k - 1 && acts[i] == FinishRun && acts[i + 1] == PersistSession
  }

  predicate Unpublished(acts: seq<Action>) {
    forall a | a in acts :: !IsTerminal(a) && !a.FailRow? && !a.CloseRun?
  }

  function AfterTerminal(outcome: Outcome, closes: bool): seq<Action> {
    if outcome.Raised? then [FailRow, ClearView, CloseRun(closes)] else [ClearView, CloseRun(closes)]
  }

  predicate Disciplined(acts: seq<Action>, k: nat, subtype: Subtype, outcome: Outcome) {
    && k < |acts| && SavedBefore(acts, k) && Unpublished(acts[..k])
    && acts[k] == Publish(Completed(subtype), outcome)
    && (acts[k + 1..] == AfterTerminal(outcome, true) || acts[k + 1..] == AfterTerminal(outcome, false))
  }

  predicate OnlyPublishes(acts: seq<Action>) {
    forall a | a in acts :: a.Publish?
  }

  // The steps of settling a run that a trace has to contain, up to the subtype it settled on.
  predicate SettlesHistory(s: Script, acts: seq<Action>, chosen: Option<Subtype>) {
    var stopped := Stopped(Settled(s, chosen));
    var reached := CutOf(s, chosen) != InSettle;
    && (SettleRuntime in acts <==> chosen == Some(AbortedRun))
    && (RecoverAttempts in acts <==> reached)
    && (ProjectAborted in acts <==> reached && s.fault != InRecovery && stopped)
    && (BuildTranscript in acts <==> reached && s.fault != InRecovery && !(s.fault == InProjection && stopped))
  }

  // The events a trace published, in order.
  function Events(acts: seq<Action>): seq<Event> {
    if acts == [] then [] else (if acts[0].Publish? then [acts[0].event] else []) + Events(acts[1..])
  }

  lemma {:induction false} EventsSplit(a: seq<Action>, b: seq<Action>)
    ensures Events(a + b) == Events(a) + Events(b)
  {
    if a == [] {
      assert a + b == b;
    } else {
      var rest := a[1..] + b;
      EventsSplit(a[1..], b);
      assert a + b == [a[0]] + rest && ([a[0]] + rest)[1..] == rest;
    }
  }

  lemma {:induction false} EventsOfOne(a: Action)
    ensures Events([a]) == if a.Publish? then [a.event] else []
  {
    assert [a][1..] == [];
  }

  function Passed(items: seq<Item>): seq<Event>
    decreases |items|
  {
    if items == [] then []
    else
      var e := items[|items| - 1].event;
      Passed(items[..|items| - 1]) + if e.Completed? then [] else [e]
  }

  // The items that were looked at: all of them, or those up to the one that broke the stream.
  ghost predicate SeenThrough(items: seq<Item>, seen: seq<Item>) {
    (Unbroken(items) && seen == items) || exists n: nat :: BreaksAt(items, n) && seen == items[..n + 1]
  }

  lemma {:induction false} OneMoreSeen(items: seq<Item>, i: nat)
    requires i < |items|
    ensures Held(items[..i + 1]) ==
      if items[i].event.Completed? then Some(items[i].event.subtype) else Held(items[..i])
    ensures Passed(items[..i + 1]) == Passed(items[..i]) + if items[i].event.Completed? then [] else [items[i].event]
  {
    assert items[..i + 1][..i] == items[..i];
  }

  lemma {:induction false} OneMorePublished(acts: seq<Action>, a: Action)
    requires Preparing(acts) && a.Publish? && !a.event.Completed?
    ensures Preparing(acts + [a]) && Events(acts + [a]) == Events(acts) + [a.event]
  {
    EventsSplit(acts, [a]);
    EventsOfOne(a);
  }

  // Every event but the completed ones has been published; without completed ones they are published one by one.
  predicate AllPublished(seen: seq<Item>, acts: seq<Action>) {
    && (forall i | 0 <= i < |seen| && !seen[i].event.Completed? :: Publish(seen[i].event, seen[i].outcome) in acts)
    && ((forall i | 0 <= i < |seen| :: !seen[i].event.Completed?) ==>
          |acts| == |seen| && forall i | 0 <= i < |seen| :: acts[i] == Publish(seen[i].event, seen[i].outcome))
  }

  // The loop over the engine's events.
  method Stream(s: Script) returns (acts: seq<Action>, ending: Ending, held: Option<Subtype>, ghost seen: seq<Item>)
    ensures Preparing(acts) && OnlyPublishes(acts) && StreamEnds(s, ending, held)
    ensures SeenThrough(s.items, seen) && Events(acts) == Passed(seen)
    ensures AllPublished(seen, acts)
  {
    acts, ending, held, seen := [], s.ending, None, [];
    var i := 0;
    while i < |s.items|
      invariant i <= |s.items| && ending == s.ending && StreamedTo(s.items, i, acts, held)
      invariant forall j | 0 <= j < i :: !Breaks(s.items[j])
    {
      var item := s.items[i];
      OneMoreStreamed(s.items, i, acts, held);
      if item.event.Completed? {
        held := Some(item.event.subtype);
      } else {
        acts := acts + [Publish(item.event, item.outcome)];
        if !item.outcome.Done? {
          ending := if item.outcome.Interrupted? then ByCancellation else ByException;
          seen := s.items[..i + 1];
          assert BreaksAt(s.items, i);
          return;
        }
      }
      i := i + 1;
    }
    seen := s.items;
    assert s.items[..i] == s.items;
  }

  // What the loop knows after n items, if no publish has failed.
  ghost predicate StreamedTo(items: seq<Item>, n: nat, acts: seq<Action>, held: Option<Subtype>) {
    && n <= |items| && held == Held(items[..n]) && Events(acts) == Passed(items[..n])
    && Preparing(acts) && OnlyPublishes(acts) && AllPublished(items[..n], acts)
  }

  lemma {:induction false} OneMoreStreamed(items: seq<Item>, n: nat, acts: seq<Action>, held: Option<Subtype>)
    requires n < |items| && StreamedTo(items, n, acts, held)
    ensures var item := items[n];
      if item.event.Completed? then StreamedTo(items, n + 1, acts, Some(item.event.subtype))
      else
        && StreamedTo(items, n + 1, acts + [Publish(item.event, item.outcome)], held)
        && Held(items[..n]) == Held(items[..n + 1])
  {
    OneMoreSeen(items, n);
    OneMoreInAll(items[..n], acts, items[n]);
    assert items[..n + 1] == items[..n] + [items[n]];
    if !items[n].event.Completed? {
      OneMorePublished(acts, Publish(items[n].event, items[n].outcome));
    }
  }

  lemma {:induction false} OneMoreInAll(seen: seq<Item>, acts: seq<Action>, item: Item)
    requires AllPublished(seen, acts)
    ensures AllPublished(seen + [item], if item.event.Completed? then acts else acts + [Publish(item.event, item.outcome)])
  {
    var more := seen + [item];
    assert more[|seen|] == item && forall i | 0 <= i < |seen| :: more[i] == seen[i];
  }

  // No publish of the stream fails before n.
  predicate GoesUpTo(items: seq<Item>, n: nat) {
    n <= |items| && forall i | 0 <= i < n :: items[i].event.Completed? || items[i].outcome.Done?
  }

  /** The stream is seen to its end if every publish goes through; the first that does not ends it, and the way it
      fails is the way the stream ends. */
  lemma {:induction false} FirstFailureEnds(s: Script, ending: Ending, held: Option<Subtype>, seen: seq<Item>, n: nat)
    requires StreamEnds(s, ending, held) && SeenThrough(s.items, seen) && GoesUpTo(s.items, n)
    ensures n == |s.items| ==> seen == s.items && ending == s.ending
    ensures n < |s.items| && !s.items[n].event.Completed? && !s.items[n].outcome.Done? ==>
      seen == s.items[..n + 1] && ending == if s.items[n].outcome.Interrupted? then ByCancellation else ByException
  {
    assert forall m: nat | BreaksAt(s.items, m) :: Breaks(s.items[m]);
    if n < |s.items| && !s.items[n].event.Completed? && !s.items[n].outcome.Done? {
      assert Breaks(s.items[n]);
    }
  }

  // The except clauses.
  method Recover(s: Script, ending: Ending, held: Option<Subtype>) returns (acts: seq<Action>, chosen: Option<Subtype>)
    ensures Preparing(acts) && OnlyPublishes(acts) && Events(acts) == RecoveryEvents(ending)
    ensures chosen == Chosen(s, ending, held)
    ensures acts == match ending
                    case Normal => []
                    case ByCancellation => [Publish(Aborted, s.recovery)]
                    case ByException => [Publish(Error, s.recovery)]
  {
    acts, chosen := [], held;
    if !ending.Normal? {
      var e := if ending.ByCancellation? then Aborted else Error;
      EventsOfOne(Publish(e, s.recovery));
      acts := [Publish(e, s.recovery)];
      if s.recovery.Done? {
        chosen := Some(if ending.ByCancellation? then AbortedRun else PlainError);
      }
    }
  }

  // The finally block up to the settled terminal event.
  method Settle(s: Script, chosen: Option<Subtype>) returns (acts: seq<Action>, subtype: Subtype, cut: bool)
    ensures Preparing(acts) && subtype == Settled(s, chosen) && Events(acts) == SettleEvents(s, chosen)
    ensures SettleRuntime in acts <==> chosen == Some(AbortedRun)
    ensures forall a | a in acts :: a.Publish? || a.SettleRuntime?
    ensures cut <==> CutOf(s, chosen) == InSettle
    ensures acts ==
      if chosen != Some(AbortedRun) then []
      else if s.settleRaises then [SettleRuntime]
      else if !s.board.Done? then [SettleRuntime, Publish(WorkboardUpdated, s.board)]
      else [SettleRuntime, Publish(WorkboardUpdated, s.board), Publish(AskCancelled, s.ask)]
  {
    acts, cut := [], false;
    subtype := if chosen.Some? then chosen.value else ErrorCleanup;
    if subtype == AbortedRun {
      var raised := s.settleRaises;
      var board, ask := Publish(WorkboardUpdated, s.board), Publish(AskCancelled, s.ask);
      acts := [SettleRuntime];
      EventsOfOne(SettleRuntime);
      if !raised {
        EventsSplit(acts, [board]);
        EventsOfOne(board);
        acts := acts + [board];
        raised, cut := !s.board.Done?, s.board.Interrupted?;
        if !raised {
          EventsSplit(acts, [ask]);
          EventsOfOne(ask);
          acts := acts + [ask];
          raised, cut := !s.ask.Done?, s.ask.Interrupted?;
        }
      }
      if raised {
        subtype := ErrorCleanup;
      }
    }
  }

  // Settling the session's history; a fault in it skips the rest of it and nothing else.
  method Finalize(s: Script, subtype: Subtype) returns (acts: seq<Action>)
    ensures Preparing(acts) && Events(acts) == [] && SettleRuntime !in acts && RecoverAttempts in acts
    ensures ProjectAborted in acts <==> s.fault != InRecovery && Stopped(subtype)
    ensures BuildTranscript in acts <==> s.fault != InRecovery && !(s.fault == InProjection && Stopped(subtype))
  {
    acts := [RecoverAttempts];
    EventsOfOne(RecoverAttempts);
    if s.fault != InRecovery {
      if Stopped(subtype) {
        EventsSplit(acts, [ProjectAborted]);
        EventsOfOne(ProjectAborted);
        acts := acts + [ProjectAborted];
      }
      if !(s.fault == InProjection && Stopped(subtype)) {
        EventsSplit(acts, [BuildTranscript]);
        EventsOfOne(BuildTranscript);
        acts := acts + [BuildTranscript];
      }
    }
  }

  predicate Stopped(subtype: Subtype) {
    StatusFor(Completed(subtype)) == Some(Failed) || StatusFor(Completed(subtype)) == Some(Cancelled)
  }

  // From finish_run on; `subtype` is what is published after the attempt to write the session.
  function Closing(subtype: Subtype, outcome: Outcome, closes: bool): seq<Action> {
    Saving(Stopped(subtype)) + ([Publish(Completed(subtype), outcome)] + AfterTerminal(outcome, closes))
  }

  method Close(subtype: Subtype, outcome: Outcome, closes: bool) returns (acts: seq<Action>)
    ensures acts == Closing(subtype, outcome, closes)
  {
    acts := [FinishRun, PersistSession];
    if Stopped(subtype) {
      acts := [FinishRun, PersistSession, CancelSubagents];
    }
    var rest := [Publish(Completed(subtype), outcome)];
    if outcome.Raised? {
      rest := rest + [FailRow];
    }
    rest := rest + [ClearView, CloseRun(closes)];
    assert rest == [Publish(Completed(subtype), outcome)] + AfterTerminal(outcome, closes);
    acts := acts + rest;
  }

  lemma {:induction false} HistorySettled(s: Script, settled: seq<Action>, finalized: seq<Action>, chosen: Option<Subtype>)
    requires SettleRuntime in settled <==> chosen == Some(AbortedRun)
    requires forall a | a in settled :: a.Publish? || a.SettleRuntime?
    requires SettleRuntime !in finalized && RecoverAttempts in finalized && CutOf(s, chosen) != InSettle
    requires var stopped := Stopped(Settled(s, chosen));
      && (ProjectAborted in finalized <==> s.fault != InRecovery && stopped)
      && (BuildTranscript in finalized <==> s.fault != InRecovery && !(s.fault == InProjection && stopped))
    ensures SettlesHistory(s, settled + finalized, chosen)
  {
    assert forall x :: x in settled + finalized <==> x in settled || x in finalized;
    assert forall x | x == RecoverAttempts || x == ProjectAborted || x == BuildTranscript :: x !in settled;
  }

  lemma {:induction false} HistoryStaysSettled(s: Script, before: seq<Action>, settled: seq<Action>, chosen: Option<Subtype>)
    requires OnlyPublishes(before) && SettlesHistory(s, settled, chosen)
    ensures SettlesHistory(s, before + settled, chosen)
  {
    assert forall x: Action | !x.Publish? :: x in before + settled <==> x in settled;
  }

  function Saving(cancel: bool): seq<Action> {
    if cancel then [FinishRun, PersistSession, CancelSubagents] else [FinishRun, PersistSession]
  }

  lemma {:induction false} SavingSaves(cancel: bool)
    ensures SavedBefore(Saving(cancel), |Saving(cancel)|) && Unpublished(Saving(cancel)) && Events(Saving(cancel)) == []
    ensures CancelSubagents in Saving(cancel) <==> cancel
  {
    assert Saving(cancel)[0] == FinishRun && Saving(cancel)[0 + 1] == PersistSession;
    NothingPublished(Saving(cancel));
  }

  lemma {:induction false} ClosingEvents(before: seq<Action>, terminal: Action, outcome: Outcome, closes: bool)
    requires Events(before) == [] && terminal.Publish?
    ensures Events(before + ([terminal] + AfterTerminal(outcome, closes))) == [terminal.event]
  {
    NothingPublished(AfterTerminal(outcome, closes));
    EventsOfOne(terminal);
    EventsSplit([terminal], AfterTerminal(outcome, closes));
    EventsSplit(before, [terminal] + AfterTerminal(outcome, closes));
  }

  lemma {:induction false} ClosingIsDisciplined(before: seq<Action>, subtype: Subtype, outcome: Outcome, closes: bool)
    requires Unpublished(before) && SavedBefore(before, |before|)
    ensures Disciplined(before + ([Publish(Completed(subtype), outcome)] + AfterTerminal(outcome, closes)), |before|, subtype, outcome)
  {
    var all := before + ([Publish(Completed(subtype), outcome)] + AfterTerminal(outcome, closes));
    assert all[..|before|] == before && all[|before| + 1..] == AfterTerminal(outcome, closes);
    var i :| 0 <= i < |before| - 1 && before[i] == FinishRun && before[i + 1] == PersistSession;
    assert all[i] == FinishRun && all[i + 1] == PersistSession;
  }

  lemma {:induction false} NothingPublished(acts: seq<Action>)
    requires forall a | a in acts :: !a.Publish?
    ensures Events(acts) == []
  {
    if acts != [] {
      NothingPublished(acts[1..]);
    }
  }

  lemma {:induction false} DisciplineShifts(before: seq<Action>, acts: seq<Action>, k: nat, subtype: Subtype, outcome: Outcome)
    requires Preparing(before) && Disciplined(acts, k, subtype, outcome)
    ensures Disciplined(before + acts, |before| + k, subtype, outcome)
  {
    var all := before + acts;
    assert all[..|before| + k] == before + acts[..k];
    assert all[|before| + k + 1..] == acts[k + 1..];
    var i :| 0 <= i < k - 1 && acts[i] == FinishRun && acts[i + 1] == PersistSession;
    assert all[|before| + i] == FinishRun && all[|before| + i + 1] == PersistSession;
  }

  lemma {:induction false} PreparedParts(a: seq<Action>, b: seq<Action>)
    requires Preparing(a) && Preparing(b)
    ensures Preparing(a + b) && Events(a + b) == Events(a) + Events(b)
  {
    EventsSplit(a, b);
  }

  lemma {:induction false} Associative(a: seq<Action>, b: seq<Action>, c: seq<Action>)
    ensures a + (b + c) == a + b + c
  {
  }

  // The end of a drive: the closing, or what a cancellation lets through of it.
  function Ends(s: Script, chosen: Option<Subtype>): seq<Action> {
    match CutOf(s, chosen)
    case InSettle => [ClearView, CloseRun(s.closes)]
    case InPersist => [FinishRun, PersistSession, ClearView, CloseRun(s.closes)]
    case InSubagents => [FinishRun, PersistSession, CancelSubagents, ClearView, CloseRun(s.closes)]
    case NotCut => Closing(Terminal(s, chosen), s.terminal, s.closes)
  }

  // The finally block: what it does before finish_run, and the end.
  method CleanUp(s: Script, chosen: Option<Subtype>) returns (acts: seq<Action>, ghost settling: seq<Action>)
    ensures acts == settling + Ends(s, chosen)
    ensures Preparing(settling) && Events(settling) == SettleEvents(s, chosen) && SettlesHistory(s, settling, chosen)
  {
    var settled, subtype, cut := Settle(s, chosen);
    if cut {
      settling := settled;
      acts := settled + [ClearView, CloseRun(s.closes)];
      return;
    }
    var finalized := Finalize(s, subtype);
    HistorySettled(s, settled, finalized, chosen);
    PreparedParts(settled, finalized);
    settling := settled + finalized;
    acts := LeaveFinally(s, chosen);
    acts := settled + finalized + acts;
  }

  method LeaveFinally(s: Script, chosen: Option<Subtype>) returns (acts: seq<Action>)
    requires CutOf(s, chosen) != InSettle
    ensures acts == Ends(s, chosen)
  {
    if s.persist.IsCut? {
      return [FinishRun, PersistSession, ClearView, CloseRun(s.closes)];
    }
    if Stopped(Terminal(s, chosen)) && s.subagents.IsCut? {
      return [FinishRun, PersistSession, CancelSubagents, ClearView, CloseRun(s.closes)];
    }
    acts := Close(Terminal(s, chosen), s.terminal, s.closes);
  }

  // The try block and its except clauses.
  method StreamAndRecover(s: Script)
    returns (acts: seq<Action>, chosen: Option<Subtype>, ending: Ending, held: Option<Subtype>, ghost seen: seq<Item>)
    ensures StreamEnds(s, ending, held) && SeenThrough(s.items, seen)
    ensures Preparing(acts) && OnlyPublishes(acts)
    ensures Events(acts) == Passed(seen) + RecoveryEvents(ending) && chosen == Chosen(s, ending, held)
  {
    var streamed, recovered;
    streamed, ending, held, seen := Stream(s);
    recovered, chosen := Recover(s, ending, held);
    PreparedParts(streamed, recovered);
    acts := streamed + recovered;
  }

  /** The whole coroutine, cancelled at any point or not at all.  Its trace is some preparation, which publishes
      no terminal event, and then the end: finish_run, the write of the session, the one terminal publish and the
      closing of the run, or the part of it that a cancellation inside the finally block lets through. */
  method DriveRun(s: Script)
    returns (acts: seq<Action>, ending: Ending, held: Option<Subtype>, ghost seen: seq<Item>, ghost preparation: seq<Action>)
    ensures StreamEnds(s, ending, held) && SeenThrough(s.items, seen)
    ensures acts == preparation + Ends(s, Chosen(s, ending, held))
    ensures Preparing(preparation) && SettlesHistory(s, preparation, Chosen(s, ending, held))
    ensures Events(preparation) == Passed(seen) + RecoveryEvents(ending) + SettleEvents(s, Chosen(s, ending, held))
  {
    var before, closed, chosen;
    ghost var settling;
    before, chosen, ending, held, seen := StreamAndRecover(s);
    closed, settling := CleanUp(s, chosen);
    HistoryStaysSettled(s, before, settling, chosen);
    PreparedParts(before, settling);
    Associative(before, settling, Ends(s, chosen));
    preparation := before + settling;
    acts := before + closed;
  }

  lemma {:induction false} Assembled(before: seq<Action>, closed: seq<Action>, k: nat, subtype: Subtype, outcome: Outcome)
    requires Preparing(before) && Disciplined(closed, k, subtype, outcome)
    ensures Disciplined(before + closed, |before| + k, subtype, outcome)
    ensures Events(before + closed) == Events(before) + Events(closed)
  {
    EventsSplit(before, closed);
    DisciplineShifts(before, closed, k, subtype, outcome);
  }

  lemma {:induction false} ClosingDisciplined(subtype: Subtype, outcome: Outcome, closes: bool)
    ensures Disciplined(Closing(subtype, outcome, closes), |Saving(Stopped(subtype))|, subtype, outcome)
    ensures Events(Closing(subtype, outcome, closes)) == [Completed(subtype)]
  {
    var saving := Saving(Stopped(subtype));
    SavingSaves(Stopped(subtype));
    ClosingIsDisciplined(saving, subtype, outcome, closes);
    ClosingEvents(saving, Publish(Completed(subtype), outcome), outcome, closes);
  }

  /** Such a trace has exactly one terminal publish; it is the last publish, comes after finish_run and the
      write of the session, and only clearing the view, closing the run and the fallback follow. */
  lemma {:induction false} TerminalPublishIsLast(preparation: seq<Action>, subtype: Subtype, outcome: Outcome, closes: bool)
    requires Preparing(preparation)
    ensures exists k: nat :: Disciplined(preparation + Closing(subtype, outcome, closes), k, subtype, outcome)
    ensures Events(preparation + Closing(subtype, outcome, closes)) == Events(preparation) + [Completed(subtype)]
  {
    var k := |Saving(Stopped(subtype))|;
    var closing := Closing(subtype, outcome, closes);
    ClosingDisciplined(subtype, outcome, closes);
    Assembled(preparation, closing, k, subtype, outcome);
    assert Disciplined(preparation + closing, |preparation| + k, subtype, outcome);
  }

  // ------------------------------------------------------------------------------------------
  // What a disciplined trace leaves in the run row
  // ------------------------------------------------------------------------------------------

  function CompletedIn(log: seq<Event>): nat {
    if log == [] then 0 else (if log[0].Completed? then 1 else 0) + CompletedIn(log[1..])
  }

  lemma {:induction false} CompletedSplits(a: seq<Event>, b: seq<Event>)
    ensures CompletedIn(a + b) == CompletedIn(a) + CompletedIn(b)
  {
    if a == [] {
      assert a + b == b;
    } else {
      assert (a + b)[1..] == a[1..] + b;
      CompletedSplits(a[1..], b);
    }
  }

  // Until the terminal publish the stored status stays what it was.
  lemma {:induction false} StatusStays(row: Row, acts: seq<Action>, goes: bool)
    requires Unpublished(acts)
    ensures Replay(row, acts, goes).status == row.status
    ensures CompletedIn(Replay(row, acts, goes).log) == CompletedIn(row.log)
    decreases |acts|
  {
    if acts != [] {
      if acts[0].Publish? {
        CompletedSplits(row.log, [acts[0].event]);
        assert [acts[0].event][1..] == [];
        assert !IsTerminal(acts[0]);
      }
      assert !acts[0].FailRow?;
      StatusStays(Effect(row, acts[0], goes), acts[1..], goes);
    }
  }

  lemma {:induction false} ReplaySplits(row: Row, a: seq<Action>, b: seq<Action>, goes: bool)
    ensures Replay(row, a + b, goes) == Replay(Replay(row, a, goes), b, goes)
    decreases |a|
  {
    if a == [] {
      assert a + b == b;
    } else {
      assert (a + b)[1..] == a[1..] + b;
      ReplaySplits(Effect(row, a[0], goes), a[1..], b, goes);
    }
  }

  lemma {:induction false} ReplayOne(row: Row, a: Action, goes: bool)
    ensures Replay(row, [a], goes) == Effect(row, a, goes)
  {
    assert [a][1..] == [];
  }

  // From the terminal publish on.
  function Final(row: Row, subtype: Subtype, outcome: Outcome, goes: bool): Row {
    var published := if IsCommitted(outcome) then Append(row, Completed(subtype)) else row;
    if outcome.Raised? && goes then FailActive(published) else published
  }

  lemma {:induction false} ReplayEnd(row: Row, outcome: Outcome, closes: bool, goes: bool)
    ensures Replay(row, AfterTerminal(outcome, closes), goes) == if outcome.Raised? && goes then FailActive(row) else row
  {
    ReplayOne(row, ClearView, goes);
    ReplayOne(row, CloseRun(closes), goes);
    ReplaySplits(row, [ClearView], [CloseRun(closes)], goes);
    assert [ClearView] + [CloseRun(closes)] == [ClearView, CloseRun(closes)];
    if outcome.Raised? {
      assert AfterTerminal(outcome, closes)[1..] == [ClearView, CloseRun(closes)];
      var failed := Effect(row, FailRow, goes);
      ReplayOne(failed, ClearView, goes);
      ReplayOne(failed, CloseRun(closes), goes);
      ReplaySplits(failed, [ClearView], [CloseRun(closes)], goes);
    }
  }

  lemma {:induction false} RowAtTheEnd(row: Row, acts: seq<Action>, k: nat, subtype: Subtype, outcome: Outcome, goes: bool)
    requires Disciplined(acts, k, subtype, outcome)
    ensures Replay(row, acts, goes) == Final(Replay(row, acts[..k], goes), subtype, outcome, goes)
    ensures Replay(row, acts[..k], goes).status == row.status
    ensures CompletedIn(Replay(row, acts[..k], goes).log) == CompletedIn(row.log)
  {
    StatusStays(row, acts[..k], goes);
    var middle := Replay(row, acts[..k], goes);
    assert acts == acts[..k] + [acts[k]] + acts[k + 1..];
    ReplaySplits(row, acts[..k] + [acts[k]], acts[k + 1..], goes);
    ReplaySplits(row, acts[..k], [acts[k]], goes);
    ReplayOne(middle, acts[k], goes);
    ReplayEnd(Effect(middle, acts[k], goes), outcome, acts[k + 1..] == AfterTerminal(outcome, true), goes);
  }

  /** A drive leaves its row active only if the run waits for an answer and that was stored without a
      raise (or failing the row did not go through), or if neither the terminal event nor the fallback was stored. */
  lemma {:induction false} RowLeftActive(row: Row, acts: seq<Action>, k: nat, subtype: Subtype, outcome: Outcome, goes: bool)
    requires Disciplined(acts, k, subtype, outcome)
    ensures Active(Replay(row, acts, goes).status) <==>
      if IsCommitted(outcome) then subtype == AwaitingUserInput && !(outcome.Raised? && goes)
      else Active(row.status) && !(outcome.Raised? && goes)
  {
    RowAtTheEnd(row, acts, k, subtype, outcome, goes);
  }

  /** The log gains at most one completed event, except that a waiting run whose terminal publish
      raised after its commit is failed on top of it. */
  lemma {:induction false} CompletedOnce(row: Row, acts: seq<Action>, k: nat, subtype: Subtype, outcome: Outcome, goes: bool)
    requires Disciplined(acts, k, subtype, outcome)
    ensures var more := CompletedIn(Replay(row, acts, goes).log) - CompletedIn(row.log);
      && 0 <= more <= 2
      && (more == 2 <==> outcome == Raised(true) && subtype == AwaitingUserInput && goes)
      && (more == 0 <==> !IsCommitted(outcome) && !(outcome.Raised? && goes && Active(row.status)))
  {
    RowAtTheEnd(row, acts, k, subtype, outcome, goes);
    var middle := Replay(row, acts[..k], goes);
    var done := Completed(subtype);
    CompletedSplits(middle.log, [done]);
    CompletedSplits(middle.log + [done], [Error, Completed(PlainError)]);
    CompletedSplits(middle.log, [Error, Completed(PlainError)]);
    CompletedSplits([Error], [Completed(PlainError)]);
    assert [done][1..] == [] && [Error] + [Completed(PlainError)] == [Error, Completed(PlainError)];
    assert [Completed(PlainError)][1..] == [] && [Error][1..] == [];
  }

  // ------------------------------------------------------------------------------------------
  // What an undisturbed drive stores
  // ------------------------------------------------------------------------------------------

  // Every publish goes through, and nothing else raises or is cancelled.
  predicate Smooth(s: Script) {
    && Unbroken(s.items) && s.recovery.Done? && !s.settleRaises && s.board.Done? && s.ask.Done?
    && s.persist.Goes? && s.subagents.Goes? && s.terminal.Done?
  }

  // The last completed event of the engine stands at n.
  predicate LastCompleted(items: seq<Item>, n: nat) {
    n < |items| && items[n].event.Completed? && forall i | n < i < |items| :: !items[i].event.Completed?
  }

  lemma {:induction false} HeldIsLast(items: seq<Item>, n: nat)
    requires LastCompleted(items, n)
    ensures Held(items) == Some(items[n].event.subtype)
  {
    if n < |items| - 1 {
      HeldIsLast(items[..|items| - 1], n);
    }
  }

  lemma {:induction false} NothingHeld(items: seq<Item>)
    requires forall i | 0 <= i < |items| :: !items[i].event.Completed?
    ensures Held(items) == None
  {
    if items != [] {
      NothingHeld(items[..|items| - 1]);
    }
  }

  // The status that a run has to end with, in the words of its outcome.
  ghost predicate EndsAs(s: Script, status: Status) {
    match s.ending
    case ByCancellation => status == Cancelled
    case ByException => status == Failed
    case Normal =>
      && (forall n: nat | LastCompleted(s.items, n) ::
            match s.items[n].event.subtype
            case AwaitingUserInput => status == WaitingInput
            case AbortedRun => status == Cancelled
            case PlainError => status == Failed
            case ErrorCleanup => status == Failed
            case ErrorOther(_) => status == Failed
            case Success => status == CompletedRun
            case Other(_) => status == CompletedRun)
      && ((forall i | 0 <= i < |s.items| :: !s.items[i].event.Completed?) ==> status == Failed)
  }

  lemma {:induction false} SettledEndsAs(s: Script, chosen: Option<Subtype>)
    requires Smooth(s) && chosen == Chosen(s, s.ending, Held(s.items))
    ensures CutOf(s, chosen) == NotCut
    ensures StatusFor(Completed(Terminal(s, chosen))).Some? && EndsAs(s, StatusFor(Completed(Terminal(s, chosen))).value)
  {
    if s.ending.Normal? {
      forall n: nat | LastCompleted(s.items, n) ensures Held(s.items) == Some(s.items[n].event.subtype) {
        HeldIsLast(s.items, n);
      }
      if forall i | 0 <= i < |s.items| :: !s.items[i].event.Completed? {
        NothingHeld(s.items);
      }
    }
  }

  /** What goes wrong fails the run: settling a stopped run, or writing the session.  A recovery event that cannot be
      published leaves the terminal event as the stream left it; a run that is left without any is failed. */
  lemma {:induction false} FaultsFailTheRun(s: Script, ending: Ending, held: Option<Subtype>)
    ensures s.persist.Raises? ==> StatusFor(Completed(Terminal(s, Chosen(s, ending, held)))) == Some(Failed)
    ensures Chosen(s, ending, held) == Some(AbortedRun) && (s.settleRaises || !s.board.Done? || !s.ask.Done?) ==>
      StatusFor(Completed(Terminal(s, Chosen(s, ending, held)))) == Some(Failed)
    ensures !s.recovery.Done? || ending.Normal? ==> Chosen(s, ending, held) == held
    ensures s.recovery.Done? && ending.ByCancellation? ==> Chosen(s, ending, held) == Some(AbortedRun)
    ensures s.recovery.Done? && ending.ByException? ==> Chosen(s, ending, held) == Some(PlainError)
    ensures Chosen(s, ending, held) == None ==> StatusFor(Completed(Terminal(s, None))) == Some(Failed)
  {
  }

  /** Undisturbed, a drive leaves its row with the status of its outcome: of the engine's last completed event, or
      of the cancellation or exception that ended it; a run without any is failed.  Its log ends with the one
      completed event. */
  lemma {:induction false} OutcomeIsStored(row: Row, s: Script, preparation: seq<Action>, goes: bool)
    requires Smooth(s) && Preparing(preparation)
    ensures var r := Replay(row, preparation + Ends(s, Chosen(s, s.ending, Held(s.items))), goes);
      && EndsAs(s, r.status) && CompletedIn(r.log) == CompletedIn(row.log) + 1
      && r.log != [] && r.log[|r.log| - 1].Completed?
      && (CancelSubagents in Ends(s, Chosen(s, s.ending, Held(s.items))) <==> r.status == Failed || r.status == Cancelled)
  {
    var chosen := Chosen(s, s.ending, Held(s.items));
    SettledEndsAs(s, chosen);
    var subtype := Terminal(s, chosen);
    var closing := Closing(subtype, Done, s.closes);
    ClosingDisciplined(subtype, Done, s.closes);
    var k := |Saving(Stopped(subtype))|;
    Assembled(preparation, closing, k, subtype, Done);
    var acts := preparation + closing;
    RowAtTheEnd(row, acts, |preparation| + k, subtype, Done, goes);
    CompletedOnce(row, acts, |preparation| + k, subtype, Done, goes);
    SubagentsAreCancelled(subtype, s.closes);
  }

  lemma {:induction false} SubagentsAreCancelled(subtype: Subtype, closes: bool)
    ensures CancelSubagents in Closing(subtype, Done, closes) <==>
      StatusFor(Completed(subtype)) == Some(Failed) || StatusFor(Completed(subtype)) == Some(Cancelled)
  {
    SavingSaves(Stopped(subtype));
    var rest := [Publish(Completed(subtype), Done)] + AfterTerminal(Done, closes);
    assert CancelSubagents !in rest;
    assert forall a :: a in Closing(subtype, Done, closes) <==> a in Saving(Stopped(subtype)) || a in rest;
  }

  /** A question that was stored before its publish raised is failed on top: two completed events. */
  lemma {:induction false} WaitingRunEndsTwice(log: seq<Event>)
    ensures var row := Replay(Row(Running, log), Closing(AwaitingUserInput, Raised(true), true), true);
      row.status == Failed && CompletedIn(row.log) == CompletedIn(log) + 2
  {
    ClosingDisciplined(AwaitingUserInput, Raised(true), true);
    var acts, k := Closing(AwaitingUserInput, Raised(true), true), |Saving(Stopped(AwaitingUserInput))|;
    RowAtTheEnd(Row(Running, log), acts, k, AwaitingUserInput, Raised(true), true);
    CompletedOnce(Row(Running, log), acts, k, AwaitingUserInput, Raised(true), true);
  }

  /** A cancellation that leaves the finally block before the terminal publish closes the run and leaves its row
      exactly as active as it was, without a completed event. */
  lemma {:induction false} CutDriveLeavesRow(row: Row, preparation: seq<Action>, s: Script, chosen: Option<Subtype>, goes: bool)
    requires Preparing(preparation) && CutOf(s, chosen) != NotCut
    ensures var acts := preparation + Ends(s, chosen); var r := Replay(row, acts, goes);
      && acts[|acts| - 1] == CloseRun(s.closes) && Events(acts) == Events(preparation)
      && r.status == row.status && CompletedIn(r.log) == CompletedIn(row.log)
  {
    var ends := Ends(s, chosen);
    assert ends[|ends| - 1] == CloseRun(s.closes) && forall a | a in ends :: !a.Publish? && !a.FailRow?;
    NothingPublished(ends);
    EventsSplit(preparation, ends);
    ReplaySplits(row, preparation, ends, goes);
    assert Unpublished(preparation);
    StatusStays(row, preparation, goes);
    QuietEnd(Replay(row, preparation, goes), ends, goes);
  }

  lemma {:induction false} QuietEnd(row: Row, acts: seq<Action>, goes: bool)
    requires forall a | a in acts :: !a.Publish? && !a.FailRow?
    ensures Replay(row, acts, goes) == row
    decreases |acts|
  {
    if acts != [] {
      assert Effect(row, acts[0], goes) == row;
      QuietEnd(row, acts[1..], goes);
    }
  }
}
