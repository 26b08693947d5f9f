/**
One run per session (backend/app/services/agent_run_service.py and the run table of
backend/app/services/store.py).

Starters, resumers, drivers, cancellers and the waiting-input sweeper interleave freely.  A step is
one stretch of code between two awaits; `lock` records who holds the service lock across an await.
*/
module RunSlots {
  import opened Common

  type RunId = nat
  type SessionId = string
  type ResumerId = nat

  datatype Status = Running | WaitingInput | Completed | Failed | Cancelled

  datatype Row = Row(session: SessionId, status: Status)

  type Table = map<RunId, Row>

  predicate Active(status: Status) {
    status == Running || status == WaitingInput
  }

  // ------------------------------------------------------------------------------------------
  // The run table
  // ------------------------------------------------------------------------------------------

  predicate HasActive(table: Table, session: SessionId) {
    exists run :: run in table && table[run].session == session && Active(table[run].status)
  }

  predicate OtherActive(table: Table, run: RunId) {
    && run in table
    && exists other :: (other in table && other != run
                        && table[other].session == table[run].session && Active(table[other].status))
  }

  function SetStatus(table: Table, run: RunId, status: Status): Table {
    if run in table then table[run := table[run].(status := status)] else table
  }

  // resume_waiting_agent_run: the update applies to a waiting row only; the row is returned either way.
  function ResumeWaiting(table: Table, run: RunId): Table {
    if run in table && table[run].status == WaitingInput then SetStatus(table, run, Running) else table
  }

  // fail_agent_run, cancel_orphan_agent_run: close an active row, leave a closed one alone.
  function CloseActive(table: Table, run: RunId, status: Status): Table {
    if run in table && Active(table[run].status) then SetStatus(table, run, status) else table
  }

  // timeout_waiting_agent_run
  function TimeoutWaiting(table: Table, run: RunId): Table {
    if run in table && table[run].status == WaitingInput then SetStatus(table, run, Cancelled) else table
  }

  // The status written with a terminal event.  A waiting row next to another active row of the session
  // breaks the unique index; the publish fails and the driver falls back to fail_agent_run.
  function Settle(table: Table, run: RunId, status: Status): Table {
    if Active(status) && OtherActive(table, run) then CloseActive(table, run, Failed) else SetStatus(table, run, status)
  }

  // ------------------------------------------------------------------------------------------
  // The service
  // ------------------------------------------------------------------------------------------

  // An entry of `_runs`: a driver task, and whether it has settled its terminal status.
  datatype Live = Live(session: SessionId, settled: bool)

  // A resumer of a blocking question: has looked up the waiting run; has claimed it and holds the lock;
  // has released the lock; has published the resume event.
  datatype Phase = Looked | Claimed | Released | Ready

  datatype Resumer = Resumer(run: RunId, session: SessionId, phase: Phase)

  datatype Lock = Free | Starting(run: RunId, session: SessionId) | Resuming(resumer: ResumerId)

  datatype State = State(
    table: Table,
    runs: map<RunId, Live>,
    sessionRuns: map<SessionId, RunId>,
    resumers: map<ResumerId, Resumer>,
    lock: Lock
  )

  datatype Step =
    | StartCheck(session: SessionId, run: RunId)
    | StartDone(saved: bool)
    | ResumeLook(resumer: ResumerId, run: RunId)
    | ResumeClaim(resumer: ResumerId)
    | ResumeSaved(resumer: ResumerId, saved: bool)
    | ResumePublished(resumer: ResumerId, published: bool)
    | ResumeRegister(resumer: ResumerId)
    | DriverSettles(run: RunId, status: Status)
    | DriverCloses(run: RunId)
    | CancelOrphan(run: RunId)
    | SweepWaiting(run: RunId)

  predicate Enabled(s: State, m: Step) {
    match m
    case StartCheck(_, run) => s.lock == Free && run !in s.table
    case StartDone(_) => s.lock.Starting?
    case ResumeLook(r, run) => r !in s.resumers && run in s.table && s.table[run].status == WaitingInput
    case ResumeClaim(r) => s.lock == Free && r in s.resumers && s.resumers[r].phase == Looked
    case ResumeSaved(r, _) => s.lock == Resuming(r) && r in s.resumers && s.resumers[r].phase == Claimed
    case ResumePublished(r, _) => r in s.resumers && s.resumers[r].phase == Released
    case ResumeRegister(r) => s.lock == Free && r in s.resumers && s.resumers[r].phase == Ready
    case DriverSettles(run, status) => run in s.runs && !s.runs[run].settled && status != Running
    // also without having settled: a cancellation can cut the end of a drive short
    case DriverCloses(run) => s.lock == Free && run in s.runs
    case CancelOrphan(run) => run !in s.runs
    case SweepWaiting(_) => true
  }

  function Register(s: State, run: RunId, session: SessionId): State {
    s.(runs := s.runs[run := Live(session, false)], sessionRuns := s.sessionRuns[session := run])
  }

  function Next(s: State, m: Step): State
    requires Enabled(s, m)
  {
    match m
    case StartCheck(session, run) =>
      if session in s.sessionRuns && s.sessionRuns[session] in s.runs then s
      else if HasActive(s.table, session) then s
      else s.(table := s.table[run := Row(session, Running)], lock := Starting(run, session))
    case StartDone(saved) =>
      var released := s.(lock := Free);
      if saved then Register(released, s.lock.run, s.lock.session)
      else released.(table := CloseActive(s.table, s.lock.run, Failed))
    case ResumeLook(r, run) => s.(resumers := s.resumers[r := Resumer(run, s.table[run].session, Looked)])
    case ResumeClaim(r) =>
      var resumer := s.resumers[r];
      if resumer.session in s.sessionRuns then s.(resumers := s.resumers - {r})
      else
        var table := ResumeWaiting(s.table, resumer.run);
        if resumer.run in table && table[resumer.run].status == Running then
          s.(table := table, resumers := s.resumers[r := resumer.(phase := Claimed)], lock := Resuming(r))
        else s.(table := table, resumers := s.resumers - {r})
    case ResumeSaved(r, saved) =>
      if saved then s.(resumers := s.resumers[r := s.resumers[r].(phase := Released)], lock := Free)
      else s.(table := CloseActive(s.table, s.resumers[r].run, Failed), resumers := s.resumers - {r}, lock := Free)
    case ResumePublished(r, published) =>
      if published then s.(resumers := s.resumers[r := s.resumers[r].(phase := Ready)])
      else s.(table := CloseActive(s.table, s.resumers[r].run, Failed), resumers := s.resumers - {r})
    case ResumeRegister(r) =>
      var resumer := s.resumers[r];
      var gone := s.(resumers := s.resumers - {r});
      if resumer.session in s.sessionRuns then gone.(table := CloseActive(s.table, resumer.run, Failed))
      else Register(gone, resumer.run, resumer.session)
    case DriverSettles(run, status) =>
      s.(table := Settle(s.table, run, status), runs := s.runs[run := s.runs[run].(settled := true)])
    case DriverCloses(run) =>
      var session := s.runs[run].session;
      s.(runs := s.runs - {run},
         sessionRuns := if session in s.sessionRuns && s.sessionRuns[session] == run then s.sessionRuns - {session}
                        else s.sessionRuns)
    case CancelOrphan(run) => s.(table := CloseActive(s.table, run, Cancelled))
    case SweepWaiting(run) => s.(table := TimeoutWaiting(s.table, run))
  }

  /** The run table as an object. */
  class Store {
    var table: Table

    constructor ()
      ensures table == map[]
    {
      table := map[];
    }

    method GetActive(session: SessionId) returns (run: Option<RunId>)
      ensures run.None? <==> !HasActive(table, session)
      ensures run.Some? ==> run.value in table && table[run.value].session == session && Active(table[run.value].status)
    {
      var keys := table.Keys;
      while keys != {}
        invariant keys <= table.Keys
        invariant forall k | k in table && k !in keys :: !(table[k].session == session && Active(table[k].status))
        decreases keys
      {
        var k :| k in keys;
        if table[k].session == session && Active(table[k].status) {
          return Some(k);
        }
        keys := keys - {k};
      }
      run := None;
    }

    method Resume(run: RunId) returns (row: Option<Row>)
      modifies this
      ensures table == ResumeWaiting(old(table), run)
      ensures row == if run in table then Some(table[run]) else None
    {
      if run in table && table[run].status == WaitingInput {
        table := table[run := table[run].(status := Running)];
      }
      row := if run in table then Some(table[run]) else None;
    }

    method Close(run: RunId, status: Status)
      modifies this
      ensures table == CloseActive(old(table), run, status)
    {
      if run in table && Active(table[run].status) {
        table := table[run := table[run].(status := status)];
      }
    }
  }

  /** `AgentRunService`: the two maps guarded by its lock, and the locked blocks that use them. */
  class AgentRunService {
    const store: Store
    var runs: map<RunId, Live>
    var sessionRuns: map<SessionId, RunId>
    var lock: Lock

    ghost function Model(resumers: map<ResumerId, Resumer>): State
      reads this, store
    {
      State(store.table, runs, sessionRuns, resumers, lock)
    }

    constructor (store: Store)
      ensures this.store == store && runs == map[] && sessionRuns == map[] && lock == Free
    {
      this.store := store;
      runs, sessionRuns, lock := map[], map[], Free;
    }

    // start_chat_run up to the await of the first snapshot
    method BeginStart(session: SessionId, run: RunId, ghost resumers: map<ResumerId, Resumer>) returns (ok: bool)
      requires Enabled(Model(resumers), StartCheck(session, run))
      modifies this`lock, store
      ensures Model(resumers) == Next(old(Model(resumers)), StartCheck(session, run))
      ensures ok <==> lock == Starting(run, session)
      ensures ok <==>
        && !(session in sessionRuns && sessionRuns[session] in runs)
        && forall r | r in old(store.table) && old(store.table)[r].session == session ::
             old(store.table)[r].status != Running && old(store.table)[r].status != WaitingInput
      ensures store.table == if ok then old(store.table)[run := Row(session, Running)] else old(store.table)
    {
      if session in sessionRuns && sessionRuns[session] in runs {
        return false;
      }
      var active := store.GetActive(session);
      if active.Some? {
        return false;
      }
      store.table := store.table[run := Row(session, Running)];
      lock := Starting(run, session);
      ok := true;
    }

    // start_chat_run after the await: register the driver, or fail the row
    method FinishStart(saved: bool, ghost resumers: map<ResumerId, Resumer>)
      requires lock.Starting?
      modifies this, store
      ensures Model(resumers) == Next(old(Model(resumers)), StartDone(saved))
    {
      if saved {
        runs := runs[lock.run := Live(lock.session, false)];
        sessionRuns := sessionRuns[lock.session := lock.run];
      } else {
        store.Close(lock.run, Failed);
      }
      lock := Free;
    }

    // resume_elicitation_run, first locked block up to its await
    method ClaimResume(r: ResumerId, ghost resumers: map<ResumerId, Resumer>, resumer: Resumer) returns (ok: bool)
      requires r in resumers && resumers[r] == resumer && Enabled(Model(resumers), ResumeClaim(r))
      modifies this`lock, store
      ensures var after := Next(old(Model(resumers)), ResumeClaim(r)); Model(after.resumers) == after
      ensures ok <==> lock == Resuming(r)
      ensures ok <==>
        && resumer.session !in sessionRuns && resumer.run in old(store.table)
        && (old(store.table)[resumer.run].status == WaitingInput || old(store.table)[resumer.run].status == Running)
    {
      if resumer.session in sessionRuns {
        return false;
      }
      var row := store.Resume(resumer.run);
      if row.None? || row.value.status != Running {
        return false;
      }
      lock := Resuming(r);
      ok := true;
    }

    // resume_elicitation_run, second locked block
    method RegisterResume(r: ResumerId, ghost resumers: map<ResumerId, Resumer>, resumer: Resumer) returns (ok: bool)
      requires r in resumers && resumers[r] == resumer && Enabled(Model(resumers), ResumeRegister(r))
      modifies this`runs, this`sessionRuns, store
      ensures Model(resumers - {r}) == Next(old(Model(resumers)), ResumeRegister(r))
      ensures ok <==> resumer.session !in old(sessionRuns)
    {
      if resumer.session in sessionRuns {
        store.Close(resumer.run, Failed);
        return false;
      }
      runs := runs[resumer.run := Live(resumer.session, false)];
      sessionRuns := sessionRuns[resumer.session := resumer.run];
      ok := true;
    }

    // _close_run
    method CloseRun(run: RunId, ghost resumers: map<ResumerId, Resumer>)
      requires Enabled(Model(resumers), DriverCloses(run))
      modifies this`runs, this`sessionRuns
      ensures Model(resumers) == Next(old(Model(resumers)), DriverCloses(run))
    {
      var session := runs[run].session;
      runs := runs - {run};
      if session in sessionRuns && sessionRuns[session] == run {
        sessionRuns := sessionRuns - {session};
      }
    }
  }

  // ------------------------------------------------------------------------------------------
  // What every step keeps
  // ------------------------------------------------------------------------------------------

  // `_runs` and `_session_runs` are exact inverses.
  predicate Inverses(runs: map<RunId, Live>, sessionRuns: map<SessionId, RunId>) {
    && (forall run | run in runs :: runs[run].session in sessionRuns && sessionRuns[runs[run].session] == run)
    && (forall session | session in sessionRuns :: sessionRuns[session] in runs && runs[sessionRuns[session]].session == session)
  }

  predicate Inverse(s: State) {
    Inverses(s.runs, s.sessionRuns)
  }

  predicate OneActiveRow(table: Table) {
    forall a, b | a in table && b in table && Active(table[a].status) && Active(table[b].status)
      && table[a].session == table[b].session :: a == b
  }

  // Everyone who will register a run knows its session, and a starter found the slot empty.
  predicate Consistent(s: State) {
    && (forall run | run in s.runs :: run in s.table && s.table[run].session == s.runs[run].session)
    && (forall r | r in s.resumers :: s.resumers[r].run in s.table && s.table[s.resumers[r].run].session == s.resumers[r].session)
    && (s.lock.Starting? ==>
          && s.lock.run in s.table && s.table[s.lock.run].session == s.lock.session
          && s.lock.session !in s.sessionRuns)
  }

  predicate Invariant(s: State) {
    Inverse(s) && Consistent(s) && OneActiveRow(s.table)
  }

  lemma {:induction false} RegisteredInverses(runs: map<RunId, Live>, sessionRuns: map<SessionId, RunId>, run: RunId, session: SessionId)
    requires Inverses(runs, sessionRuns) && session !in sessionRuns && (run in runs ==> runs[run].session == session)
    ensures Inverses(runs[run := Live(session, false)], sessionRuns[session := run])
  {
  }

  lemma {:induction false} ClosedInverses(runs: map<RunId, Live>, sessionRuns: map<SessionId, RunId>, run: RunId)
    requires Inverses(runs, sessionRuns) && run in runs
    ensures Inverses(runs - {run}, sessionRuns - {runs[run].session})
  {
  }

  lemma {:induction false} StepKeepsInverse(s: State, m: Step)
    requires Inverse(s) && Consistent(s) && Enabled(s, m)
    ensures Inverse(Next(s, m))
  {
    match m
    case StartDone(_) => RegisteredInverses(s.runs, s.sessionRuns, s.lock.run, s.lock.session);
    case ResumeRegister(r) =>
      if s.resumers[r].session !in s.sessionRuns {
        RegisteredInverses(s.runs, s.sessionRuns, s.resumers[r].run, s.resumers[r].session);
      }
    case DriverCloses(run) => ClosedInverses(s.runs, s.sessionRuns, run);
    case _ =>
  }

  // The table as Next leaves it: nothing but a started run is added, and no row changes session.
  predicate Extends(table: Table, table': Table) {
    forall run | run in table :: run in table' && table'[run].session == table[run].session
  }

  lemma {:induction false} TableOnlyGrows(s: State, m: Step)
    requires Enabled(s, m)
    ensures Extends(s.table, Next(s, m).table)
  {
  }

  predicate RunsKnown(table: Table, runs: map<RunId, Live>) {
    forall run | run in runs :: run in table && table[run].session == runs[run].session
  }

  predicate ResumersKnown(table: Table, resumers: map<ResumerId, Resumer>) {
    forall r | r in resumers :: resumers[r].run in table && table[resumers[r].run].session == resumers[r].session
  }

  lemma {:induction false} ConsistentAfter(s: State, m: Step)
    requires Consistent(s) && Enabled(s, m)
    ensures RunsKnown(Next(s, m).table, Next(s, m).runs) && ResumersKnown(Next(s, m).table, Next(s, m).resumers)
  {
    TableOnlyGrows(s, m);
    var t := Next(s, m);
    forall run | run in t.runs ensures run in t.table && t.table[run].session == t.runs[run].session {
      assert run in s.runs ==> run in s.table && s.table[run].session == s.runs[run].session;
    }
    forall r | r in t.resumers
      ensures t.resumers[r].run in t.table && t.table[t.resumers[r].run].session == t.resumers[r].session
    {
      assert r in s.resumers ==> s.resumers[r].run in s.table;
    }
  }

  lemma {:induction false} StepKeepsConsistent(s: State, m: Step)
    requires Inverse(s) && Consistent(s) && Enabled(s, m)
    ensures Consistent(Next(s, m))
  {
    ConsistentAfter(s, m);
    TableOnlyGrows(s, m);
  }

  // A table whose active rows were all active before.
  lemma {:induction false} FewerActiveRows(table: Table, table': Table)
    requires OneActiveRow(table) && table.Keys == table'.Keys && Extends(table, table')
    requires forall run | run in table && Active(table'[run].status) :: Active(table[run].status)
    ensures OneActiveRow(table')
  {
  }

  lemma {:induction false} SettleKeepsOneActiveRow(table: Table, run: RunId, status: Status)
    requires OneActiveRow(table)
    ensures OneActiveRow(Settle(table, run, status))
  {
    if Active(status) && OtherActive(table, run) {
      FewerActiveRows(table, CloseActive(table, run, Failed));
    }
  }

  lemma {:induction false} StepKeepsOneActiveRow(s: State, m: Step)
    requires Invariant(s) && Enabled(s, m)
    ensures OneActiveRow(Next(s, m).table)
  {
    match m
    case DriverSettles(run, status) => SettleKeepsOneActiveRow(s.table, run, status);
    case StartCheck(session, run) => StartKeepsOneActiveRow(s.table, session, run);
    case _ =>
      ActiveRowsStay(s, m);
      FewerActiveRows(s.table, Next(s, m).table);
  }

  lemma {:induction false} StartKeepsOneActiveRow(table: Table, session: SessionId, run: RunId)
    requires OneActiveRow(table) && run !in table
    ensures !HasActive(table, session) ==> OneActiveRow(table[run := Row(session, Running)])
  {
  }

  // The rows stay, and no row becomes active.
  predicate Settles(table: Table, table': Table) {
    && table'.Keys == table.Keys
    && forall run | run in table ::
         table'[run].session == table[run].session && (Active(table'[run].status) ==> Active(table[run].status))
  }

  lemma {:induction false} TableStepsSettle(table: Table, run: RunId, status: Status)
    requires !Active(status)
    ensures Settles(table, table) && Settles(table, CloseActive(table, run, status))
    ensures Settles(table, ResumeWaiting(table, run)) && Settles(table, TimeoutWaiting(table, run))
  {
  }

  lemma {:induction false} ActiveRowsStay(s: State, m: Step)
    requires Enabled(s, m) && !m.DriverSettles? && !m.StartCheck?
    ensures Settles(s.table, Next(s, m).table)
  {
    match m
    case StartDone(_) => TableStepsSettle(s.table, s.lock.run, Failed);
    case ResumeClaim(r) => TableStepsSettle(s.table, s.resumers[r].run, Failed);
    case ResumeSaved(r, _) => TableStepsSettle(s.table, s.resumers[r].run, Failed);
    case ResumePublished(r, _) => TableStepsSettle(s.table, s.resumers[r].run, Failed);
    case ResumeRegister(r) => TableStepsSettle(s.table, s.resumers[r].run, Failed);
    case CancelOrphan(run) => TableStepsSettle(s.table, run, Cancelled);
    case SweepWaiting(run) => TableStepsSettle(s.table, run, Failed);
    case _ =>
  }

  predicate Legal(s: State, steps: seq<Step>)
    decreases |steps|
  {
    steps == [] || (Enabled(s, steps[0]) && Legal(Next(s, steps[0]), steps[1..]))
  }

  function After(s: State, steps: seq<Step>): State
    requires Legal(s, steps)
    decreases |steps|
  {
    if steps == [] then s else After(Next(s, steps[0]), steps[1..])
  }

  // A process that has just started over a table that outlived its predecessor.
  function Boot(table: Table): State {
    State(table, map[], map[], map[], Free)
  }

  lemma {:induction false} RunsKeepInvariant(s: State, steps: seq<Step>)
    requires Invariant(s) && Legal(s, steps)
    ensures Invariant(After(s, steps))
    decreases |steps|
  {
    if steps != [] {
      StepKeepsInverse(s, steps[0]);
      StepKeepsConsistent(s, steps[0]);
      StepKeepsOneActiveRow(s, steps[0]);
      RunsKeepInvariant(Next(s, steps[0]), steps[1..]);
    }
  }

  // ------------------------------------------------------------------------------------------
  // Main results
  // ------------------------------------------------------------------------------------------

  /** Over every interleaving, a session has at most one live driver, the two maps are exact
      inverses, and the table holds at most one active run of a session. */
  lemma {:induction false} OneDriverPerSession(table: Table, steps: seq<Step>, a: RunId, b: RunId)
    requires OneActiveRow(table) && Legal(Boot(table), steps)
    requires var s := After(Boot(table), steps); a in s.runs && b in s.runs && s.runs[a].session == s.runs[b].session
    ensures a == b && Inverse(After(Boot(table), steps)) && OneActiveRow(After(Boot(table), steps).table)
  {
    RunsKeepInvariant(Boot(table), steps);
  }

  // ------------------------------------------------------------------------------------------
  // What each of them achieves
  // ------------------------------------------------------------------------------------------

  // Nothing keeps a start of the session out.
  predicate Idle(s: State, session: SessionId) {
    && session !in s.sessionRuns
    && forall run | run in s.table && s.table[run].session == session ::
         s.table[run].status != Running && s.table[run].status != WaitingInput
  }

  predicate Registered(s: State, session: SessionId, run: RunId) {
    && run in s.runs && s.runs[run] == Live(session, false)
    && session in s.sessionRuns && s.sessionRuns[session] == run
  }

  lemma {:induction false} OneStep(s: State, m: Step, rest: seq<Step>)
    requires Enabled(s, m) && Legal(Next(s, m), rest)
    ensures Legal(s, [m] + rest) && After(s, [m] + rest) == After(Next(s, m), rest)
  {
    assert ([m] + rest)[1..] == rest;
  }

  lemma {:induction false} TwoSteps(s: State, a: Step, b: Step)
    requires Enabled(s, a) && Enabled(Next(s, a), b)
    ensures Legal(s, [a, b]) && After(s, [a, b]) == Next(Next(s, a), b)
  {
    OneStep(Next(s, a), b, []);
    OneStep(s, a, [b] + []);
    assert [a] + ([b] + []) == [a, b];
  }

  /** In an idle session a start goes through: it leaves a driver registered and its row running.  If the session
      cannot be written, the row is closed and the session is as idle as before. */
  lemma {:induction false} StartsFromIdle(s: State, session: SessionId, run: RunId, saved: bool)
    requires Invariant(s) && s.lock == Free && Idle(s, session) && run !in s.table
    ensures Legal(s, [StartCheck(session, run), StartDone(saved)])
    ensures var t := After(s, [StartCheck(session, run), StartDone(saved)]);
      && t.lock == Free && run in t.table && t.table[run].session == session
      && (forall other | other in s.table :: other in t.table && t.table[other] == s.table[other])
      && if saved then Registered(t, session, run) && t.table[run].status == Running
         else t.table[run].status == Failed && Idle(t, session) && t.runs == s.runs && t.sessionRuns == s.sessionRuns
  {
    assert !HasActive(s.table, session);
    TwoSteps(s, StartCheck(session, run), StartDone(saved));
  }

  function Answering(r: ResumerId, run: RunId): seq<Step> {
    [ResumeLook(r, run)] + ([ResumeClaim(r)] + ([ResumeSaved(r, true)] + ([ResumePublished(r, true)] + ([ResumeRegister(r)] + []))))
  }

  /** The answer to a question leaves a driver registered for the same run, and its row running. */
  lemma {:induction false} ResumesFromWaiting(s: State, r: ResumerId, run: RunId)
    requires Invariant(s) && s.lock == Free && r !in s.resumers && run in s.table && s.table[run].status == WaitingInput
    requires s.table[run].session !in s.sessionRuns
    ensures Legal(s, Answering(r, run))
    ensures var t := After(s, Answering(r, run));
      && t.lock == Free && Registered(t, s.table[run].session, run)
      && t.table == s.table[run := Row(s.table[run].session, Running)]
  {
    var session := s.table[run].session;
    var s1 := s.(resumers := s.resumers[r := Resumer(run, session, Looked)]);
    var table := s.table[run := Row(session, Running)];
    var s2 := s1.(table := table, resumers := s1.resumers[r := Resumer(run, session, Claimed)], lock := Resuming(r));
    var s3 := s2.(resumers := s2.resumers[r := Resumer(run, session, Released)], lock := Free);
    var s4 := s3.(resumers := s3.resumers[r := Resumer(run, session, Ready)]);
    OneStep(s4, ResumeRegister(r), []);
    OneStep(s3, ResumePublished(r, true), [ResumeRegister(r)] + []);
    OneStep(s2, ResumeSaved(r, true), [ResumePublished(r, true)] + ([ResumeRegister(r)] + []));
    assert Next(s1, ResumeClaim(r)) == s2;
    OneStep(s1, ResumeClaim(r), [ResumeSaved(r, true)] + ([ResumePublished(r, true)] + ([ResumeRegister(r)] + [])));
    OneStep(s, ResumeLook(r, run), [ResumeClaim(r)] + ([ResumeSaved(r, true)] + ([ResumePublished(r, true)] + ([ResumeRegister(r)] + []))));
  }

  /** A resume that fails at any point closes the row, and leaves lock and session free. */
  lemma {:induction false} FailedResumesClose(s: State, r: ResumerId, m: Step)
    requires Invariant(s) && Enabled(s, m) && r in s.resumers && s.table[s.resumers[r].run].status == Running
    requires m == ResumeSaved(r, false) || m == ResumePublished(r, false) || m == ResumeRegister(r)
    requires m.ResumeRegister? <==> s.resumers[r].session in s.sessionRuns
    ensures Next(s, m) == s.(table := s.table[s.resumers[r].run := Row(s.resumers[r].session, Failed)],
                             resumers := s.resumers - {r}, lock := if m.ResumeSaved? then Free else s.lock)
    ensures !m.ResumeRegister? ==> Idle(Next(s, m), s.resumers[r].session)
  {
  }

  /** A driver that settles and closes leaves its status in the row, and the session free for the next start,
      or for an answer if the run waits for one. */
  lemma {:induction false} RunsEnd(s: State, session: SessionId, run: RunId, status: Status)
    requires Invariant(s) && s.lock == Free && Registered(s, session, run) && Active(s.table[run].status) && status != Running
    ensures Legal(s, [DriverSettles(run, status), DriverCloses(run)])
    ensures var t := After(s, [DriverSettles(run, status), DriverCloses(run)]);
      && t.table == s.table[run := Row(session, status)] && run !in t.runs && session !in t.sessionRuns
      && (status != WaitingInput ==> Idle(t, session))
  {
    assert !OtherActive(s.table, run);
    TwoSteps(s, DriverSettles(run, status), DriverCloses(run));
  }

  /** A run without a driver can be cancelled, and a question timed out; the session is then idle. */
  lemma {:induction false} OrphansEnd(s: State, run: RunId)
    requires Invariant(s) && run in s.table && run !in s.runs && Active(s.table[run].status)
    requires s.table[run].session !in s.sessionRuns
    ensures Enabled(s, CancelOrphan(run)) && Enabled(s, SweepWaiting(run))
    ensures Next(s, CancelOrphan(run)) == s.(table := s.table[run := Row(s.table[run].session, Cancelled)])
    ensures s.table[run].status == WaitingInput ==> Next(s, SweepWaiting(run)) == Next(s, CancelOrphan(run))
    ensures Idle(Next(s, CancelOrphan(run)), s.table[run].session)
  {
  }

  // ------------------------------------------------------------------------------------------
  // The run table as a guard for live drivers
  // ------------------------------------------------------------------------------------------

  predicate Recorded(table: Table, run: RunId, status: Status) {
    run in table && table[run].status == status
  }

  predicate Driven(s: State, run: RunId) {
    run in s.runs && !s.runs[run].settled
  }

  // Every driver that has not settled is recorded as running.
  ghost predicate Guarded(s: State) {
    forall run | Driven(s, run) :: Recorded(s.table, run, Running)
  }

  // The steps that break it.  A driver is registered without looking at its row again; and a resumer
  // that fails, or finds its own run driven by another resumer, fails the row of that driver.
  predicate Slips(s: State, m: Step)
    requires Enabled(s, m)
  {
    match m
    case StartDone(saved) => saved && !Recorded(s.table, s.lock.run, Running)
    case ResumeSaved(r, saved) => !saved && Driven(s, s.resumers[r].run)
    case ResumePublished(r, published) => !published && Driven(s, s.resumers[r].run)
    case ResumeRegister(r) =>
      if s.resumers[r].session in s.sessionRuns then Driven(s, s.resumers[r].run)
      else !Recorded(s.table, s.resumers[r].run, Running)
    case _ => false
  }

  lemma {:induction false} SlipBreaksGuard(s: State, m: Step)
    requires Invariant(s) && Enabled(s, m) && Slips(s, m)
    ensures !Guarded(Next(s, m))
  {
    var run := if m.StartDone? then s.lock.run else s.resumers[m.resumer].run;
    assert Driven(Next(s, m), run) && !Recorded(Next(s, m).table, run, Running);
  }

  predicate OfResumer(m: Step) {
    m.ResumeClaim? || m.ResumeSaved? || m.ResumePublished? || m.ResumeRegister?
  }

  lemma {:induction false} ResumerKeepsRecord(s: State, m: Step, run: RunId)
    requires Inverse(s) && Consistent(s) && Enabled(s, m) && !Slips(s, m) && OfResumer(m)
    requires Driven(s, run) ==> Recorded(s.table, run, Running)
    ensures Driven(Next(s, m), run) ==> Recorded(Next(s, m).table, run, Running)
  {
  }

  lemma {:induction false} DriverStaysRecorded(s: State, m: Step, run: RunId)
    requires Inverse(s) && Consistent(s) && Enabled(s, m) && !Slips(s, m) && !OfResumer(m)
    requires Driven(s, run) ==> Recorded(s.table, run, Running)
    ensures Driven(Next(s, m), run) ==> Recorded(Next(s, m).table, run, Running)
  {
  }

  /** Exactly these steps break the guard. */
  lemma {:induction false} GuardedUnlessSlip(s: State, m: Step)
    requires Invariant(s) && Guarded(s) && Enabled(s, m)
    ensures Guarded(Next(s, m)) <==> !Slips(s, m)
  {
    if Slips(s, m) {
      SlipBreaksGuard(s, m);
    } else {
      forall run | Driven(Next(s, m), run) ensures Recorded(Next(s, m).table, run, Running) {
        if OfResumer(m) {
          ResumerKeepsRecord(s, m, run);
        } else {
          DriverStaysRecorded(s, m, run);
        }
      }
    }
  }

  predicate NeverSlips(s: State, steps: seq<Step>)
    requires Legal(s, steps)
    decreases |steps|
  {
    steps != [] ==> !Slips(s, steps[0]) && NeverSlips(Next(s, steps[0]), steps[1..])
  }

  /** Over a run without such a step the table shows every live driver as running, so no other
      process can start the session either. */
  lemma {:induction false} GuardedThroughout(s: State, steps: seq<Step>)
    requires Invariant(s) && Guarded(s) && Legal(s, steps) && NeverSlips(s, steps)
    ensures Guarded(After(s, steps))
    decreases |steps|
  {
    if steps != [] {
      GuardedUnlessSlip(s, steps[0]);
      RunsKeepInvariant(s, [steps[0]]);
      StepKeepsInverse(s, steps[0]);
      StepKeepsConsistent(s, steps[0]);
      StepKeepsOneActiveRow(s, steps[0]);
      GuardedThroughout(Next(s, steps[0]), steps[1..]);
    }
  }

  // What callers must keep to: a question is answered by one resumer at a time, and a run is not
  // cancelled as an orphan while a starter or a resumer is about to register it.
  predicate Orderly(s: State, m: Step) {
    match m
    case ResumeLook(_, run) => forall r | r in s.resumers :: s.resumers[r].run != run
    case CancelOrphan(run) =>
      && !(s.lock.Starting? && s.lock.run == run)
      && forall r | r in s.resumers :: s.resumers[r].run == run ==> s.resumers[r].phase == Looked
    case _ => true
  }

  // A resumer that has claimed its run holds the row as running and the session as free.
  predicate Reserves(s: State, resumer: Resumer) {
    if resumer.phase == Looked then !Recorded(s.table, resumer.run, Running)
    else Recorded(s.table, resumer.run, Running) && resumer.session !in s.sessionRuns
  }

  predicate OnePerRun(resumers: map<ResumerId, Resumer>) {
    forall q, r | q in resumers && r in resumers && resumers[q].run == resumers[r].run :: q == r
  }

  predicate Reserved(s: State) {
    && OnePerRun(s.resumers)
    && (forall r | r in s.resumers :: Reserves(s, s.resumers[r]))
    && (s.lock.Starting? ==>
          && Recorded(s.table, s.lock.run, Running)
          && forall r | r in s.resumers :: s.resumers[r].run != s.lock.run)
  }

  lemma {:induction false} ReservedNeverSlips(s: State, m: Step)
    requires Invariant(s) && Guarded(s) && Reserved(s) && Enabled(s, m)
    ensures !Slips(s, m)
  {
    if m.ResumeSaved? || m.ResumePublished? || m.ResumeRegister? {
      assert Reserves(s, s.resumers[m.resumer]);
    }
  }

  // The step does not bear on whether the run is recorded as running.
  predicate Elsewhere(s: State, m: Step, run: RunId)
    requires Enabled(s, m)
  {
    match m
    case StartCheck(_, other) => other != run
    case StartDone(_) => s.lock.run != run
    case ResumeClaim(r) => s.resumers[r].run != run
    case ResumeSaved(r, _) => s.resumers[r].run != run
    case ResumePublished(r, _) => s.resumers[r].run != run
    case ResumeRegister(r) => s.resumers[r].run != run
    case DriverSettles(other, _) => other != run
    case CancelOrphan(other) => other == run ==> !Recorded(s.table, run, Running)
    case _ => true
  }

  lemma {:induction false} RecordStays(s: State, m: Step, run: RunId)
    requires Enabled(s, m) && Elsewhere(s, m, run)
    ensures Recorded(Next(s, m).table, run, Running) <==> Recorded(s.table, run, Running)
  {
  }

  lemma {:induction false} DriversAreNotResumed(s: State, run: RunId, r: ResumerId)
    requires Inverse(s) && Consistent(s) && Guarded(s) && r in s.resumers && Reserves(s, s.resumers[r]) && Driven(s, run)
    ensures s.resumers[r].run != run
  {
  }

  // Nobody else touches the row of a resumer.
  lemma {:induction false} ResumersAreElsewhere(s: State, m: Step, r: ResumerId)
    requires Invariant(s) && Guarded(s) && Reserved(s) && Enabled(s, m) && Orderly(s, m)
    requires r in s.resumers && r in Next(s, m).resumers && Next(s, m).resumers[r] == s.resumers[r]
    ensures Elsewhere(s, m, s.resumers[r].run)
  {
    if m.DriverSettles? {
      DriversAreNotResumed(s, m.run, r);
    } else {
      assert Reserves(s, s.resumers[r]);
    }
  }

  // No other run takes the session of a resumer that has claimed its run.
  lemma {:induction false} SessionStaysFree(s: State, m: Step, r: ResumerId)
    requires Invariant(s) && Reserved(s) && Enabled(s, m)
    requires r in s.resumers && s.resumers[r].phase != Looked && r in Next(s, m).resumers
    ensures s.resumers[r].session !in Next(s, m).sessionRuns
  {
    assert Reserves(s, s.resumers[r]);
    if m.ResumeRegister? && m.resumer != r {
      assert Reserves(s, s.resumers[m.resumer]);
      OneActiveSession(s.table, s.resumers[r].run, s.resumers[m.resumer].run);
    } else if m.StartDone? {
      OneActiveSession(s.table, s.resumers[r].run, s.lock.run);
    }
  }

  lemma {:induction false} OneActiveSession(table: Table, a: RunId, b: RunId)
    requires OneActiveRow(table) && a != b && Recorded(table, a, Running) && Recorded(table, b, Running)
    ensures table[a].session != table[b].session
  {
  }

  lemma {:induction false} IdleResumerKeepsReservation(s: State, m: Step, r: ResumerId)
    requires Invariant(s) && Guarded(s) && Reserved(s) && Enabled(s, m) && Orderly(s, m)
    requires r in s.resumers && r in Next(s, m).resumers && Next(s, m).resumers[r] == s.resumers[r]
    ensures Reserves(Next(s, m), s.resumers[r])
  {
    assert Reserves(s, s.resumers[r]);
    ResumersAreElsewhere(s, m, r);
    RecordStays(s, m, s.resumers[r].run);
    if s.resumers[r].phase != Looked {
      SessionStaysFree(s, m, r);
    }
  }

  // A resumer that looks, claims, or goes on to its second block.
  lemma {:induction false} ActingResumerReserves(s: State, m: Step, r: ResumerId)
    requires Reserved(s) && Enabled(s, m) && r in Next(s, m).resumers
    requires r in s.resumers ==> Next(s, m).resumers[r] != s.resumers[r]
    ensures Reserves(Next(s, m), Next(s, m).resumers[r])
  {
    assert m.resumer == r;
    assert r in s.resumers ==> Reserves(s, s.resumers[r]);
  }

  // The run of a starter is its own.
  lemma {:induction false} StarterKeepsRow(s: State, m: Step)
    requires Consistent(s) && Inverse(s) && Reserved(s) && Enabled(s, m) && Orderly(s, m) && Next(s, m).lock.Starting?
    ensures var t := Next(s, m);
      && Recorded(t.table, t.lock.run, Running)
      && forall r | r in t.resumers :: t.resumers[r].run != t.lock.run
  {
    if s.lock.Starting? {
      assert s.lock.run !in s.runs;
      RecordStays(s, m, s.lock.run);
    }
  }

  lemma {:induction false} StepKeepsOnePerRun(s: State, m: Step)
    requires OnePerRun(s.resumers) && Enabled(s, m) && Orderly(s, m)
    ensures OnePerRun(Next(s, m).resumers)
  {
  }

  lemma {:induction false} StepKeepsReserved(s: State, m: Step)
    requires Invariant(s) && Guarded(s) && Reserved(s) && Enabled(s, m) && Orderly(s, m)
    ensures Reserved(Next(s, m))
  {
    StepKeepsOnePerRun(s, m);
    forall r | r in Next(s, m).resumers ensures Reserves(Next(s, m), Next(s, m).resumers[r]) {
      if r in s.resumers && Next(s, m).resumers[r] == s.resumers[r] {
        IdleResumerKeepsReservation(s, m, r);
      } else {
        ActingResumerReserves(s, m, r);
      }
    }
    if Next(s, m).lock.Starting? {
      StarterKeepsRow(s, m);
    }
  }

  predicate AllOrderly(s: State, steps: seq<Step>)
    requires Legal(s, steps)
    decreases |steps|
  {
    steps != [] ==> Orderly(s, steps[0]) && AllOrderly(Next(s, steps[0]), steps[1..])
  }

  lemma {:induction false} OrderlyRunsStayReserved(s: State, steps: seq<Step>)
    requires Invariant(s) && Guarded(s) && Reserved(s) && Legal(s, steps) && AllOrderly(s, steps)
    ensures var t := After(s, steps); Invariant(t) && Guarded(t) && Reserved(t)
    decreases |steps|
  {
    if steps != [] {
      var m := steps[0];
      ReservedNeverSlips(s, m);
      GuardedUnlessSlip(s, m);
      StepKeepsInverse(s, m);
      StepKeepsConsistent(s, m);
      StepKeepsOneActiveRow(s, m);
      StepKeepsReserved(s, m);
      OrderlyRunsStayReserved(Next(s, m), steps[1..]);
    }
  }

  /** With one resumer per question and no orphan cancelled on the way to its registration, the table
      shows every live driver as running after every run, and a resume that has claimed its run, and
      whose writes go through, always ends with a driver registered for it. */
  lemma {:induction false} OrderlyCallersKeepTheGuard(table: Table, steps: seq<Step>)
    requires OneActiveRow(table) && Legal(Boot(table), steps) && AllOrderly(Boot(table), steps)
    ensures var s := After(Boot(table), steps);
      && Guarded(s)
      && (forall r | Enabled(s, ResumeRegister(r)) :: Driven(Next(s, ResumeRegister(r)), s.resumers[r].run))
  {
    OrderlyRunsStayReserved(Boot(table), steps);
    var s := After(Boot(table), steps);
    forall r | Enabled(s, ResumeRegister(r)) ensures Driven(Next(s, ResumeRegister(r)), s.resumers[r].run) {
      assert Reserves(s, s.resumers[r]);
    }
  }

  /** Ordinary starts, answers and ends are orderly: nobody else answers the question, and nobody cancels. */
  lemma {:induction false} OrdinaryStepsAreOrderly(s: State, m: Step)
    requires Enabled(s, m) && !m.CancelOrphan?
    requires m.ResumeLook? ==> forall r | r in s.resumers :: s.resumers[r].run != m.run
    ensures AllOrderly(s, [m])
    ensures Guarded(s) && Reserved(s) && Invariant(s) ==> NeverSlips(s, [m])
  {
    assert [m][1..] == [];
    if Guarded(s) && Reserved(s) && Invariant(s) {
      ReservedNeverSlips(s, m);
    }
  }

  const ONE_QUESTION: Table := map[1 := Row("s", WaitingInput)]

  const TWO_ANSWERS: seq<Step> := [
    ResumeLook(1, 1), ResumeLook(2, 1), ResumeClaim(1), ResumeSaved(1, true), ResumeClaim(2), ResumeSaved(2, true),
    ResumePublished(1, true), ResumePublished(2, true), ResumeRegister(1), ResumeRegister(2)]

  lemma {:induction false} Walk(s: State, steps: seq<Step>, i: nat)
    requires i < |steps| && Enabled(s, steps[i]) && Legal(Next(s, steps[i]), steps[i + 1..])
    ensures Legal(s, steps[i..]) && After(s, steps[i..]) == After(Next(s, steps[i]), steps[i + 1..])
  {
    assert steps[i..][1..] == steps[i + 1..];
  }

  // Both resumers have claimed the run and released the lock.
  const BOTH_CLAIMED :=
    State(map[1 := Row("s", Running)], map[], map[], map[1 := Resumer(1, "s", Released), 2 := Resumer(1, "s", Released)], Free)

  // Both have seen the question waiting.
  const BOTH_LOOKED :=
    State(ONE_QUESTION, map[], map[], map[1 := Resumer(1, "s", Looked), 2 := Resumer(1, "s", Looked)], Free)

  lemma {:induction false} BothResumersLook()
    requires Legal(BOTH_LOOKED, TWO_ANSWERS[2..])
    ensures Legal(Boot(ONE_QUESTION), TWO_ANSWERS)
    ensures After(Boot(ONE_QUESTION), TWO_ANSWERS) == After(BOTH_LOOKED, TWO_ANSWERS[2..])
  {
    var s0 := Boot(ONE_QUESTION);
    var s1 := s0.(resumers := map[1 := Resumer(1, "s", Looked)]);
    assert Next(s0, TWO_ANSWERS[0]) == s1 && Next(s1, TWO_ANSWERS[1]) == BOTH_LOOKED;
    Walk(s1, TWO_ANSWERS, 1);
    Walk(s0, TWO_ANSWERS, 0);
    assert TWO_ANSWERS[0..] == TWO_ANSWERS;
  }

  lemma {:induction false} FirstResumerClaims(s4: State)
    requires s4 == State(map[1 := Row("s", Running)], map[], map[],
                         map[1 := Resumer(1, "s", Released), 2 := Resumer(1, "s", Looked)], Free)
    requires Legal(s4, TWO_ANSWERS[4..])
    ensures Legal(BOTH_LOOKED, TWO_ANSWERS[2..])
    ensures After(BOTH_LOOKED, TWO_ANSWERS[2..]) == After(s4, TWO_ANSWERS[4..])
  {
    var s3 := Next(BOTH_LOOKED, TWO_ANSWERS[2]);
    assert s3 == s4.(resumers := s4.resumers[1 := Resumer(1, "s", Claimed)], lock := Resuming(1));
    assert Next(s3, TWO_ANSWERS[3]) == s4;
    Walk(s3, TWO_ANSWERS, 3);
    Walk(BOTH_LOOKED, TWO_ANSWERS, 2);
  }

  lemma {:induction false} SecondResumerClaims(s4: State)
    requires s4 == State(map[1 := Row("s", Running)], map[], map[],
                         map[1 := Resumer(1, "s", Released), 2 := Resumer(1, "s", Looked)], Free)
    requires Legal(BOTH_CLAIMED, TWO_ANSWERS[6..])
    ensures Legal(s4, TWO_ANSWERS[4..])
    ensures After(s4, TWO_ANSWERS[4..]) == After(BOTH_CLAIMED, TWO_ANSWERS[6..])
  {
    var s5 := Next(s4, TWO_ANSWERS[4]);
    assert s5 == s4.(resumers := s4.resumers[2 := Resumer(1, "s", Claimed)], lock := Resuming(2));
    assert Next(s5, TWO_ANSWERS[5]) == BOTH_CLAIMED;
    Walk(s5, TWO_ANSWERS, 5);
    Walk(s4, TWO_ANSWERS, 4);
  }

  lemma {:induction false} BothResumersRegister()
    ensures Legal(BOTH_CLAIMED, TWO_ANSWERS[6..])
    ensures var s := After(BOTH_CLAIMED, TWO_ANSWERS[6..]); Driven(s, 1) && Recorded(s.table, 1, Failed)
  {
    var ready := Resumer(1, "s", Ready);
    var s8 := BOTH_CLAIMED.(resumers := map[1 := ready, 2 := ready]);
    var s9 := s8.(runs := map[1 := Live("s", false)], sessionRuns := map["s" := 1], resumers := map[2 := ready]);
    Walk(s9, TWO_ANSWERS, 9);
    assert Next(s8, TWO_ANSWERS[8]) == s9;
    Walk(s8, TWO_ANSWERS, 8);
    assert Next(Next(BOTH_CLAIMED, TWO_ANSWERS[6]), TWO_ANSWERS[7]) == s8;
    Walk(Next(BOTH_CLAIMED, TWO_ANSWERS[6]), TWO_ANSWERS, 7);
    Walk(BOTH_CLAIMED, TWO_ANSWERS, 6);
  }

  /** The claim does not exclude a second resumer: `resume_waiting_agent_run` also returns a row that
      someone else has just set to running.  Two answers to one question then end with a live driver
      whose row says failed. */
  lemma {:induction false} SecondResumerFailsLiveRun()
    ensures OneActiveRow(ONE_QUESTION) && Legal(Boot(ONE_QUESTION), TWO_ANSWERS)
    ensures var s := After(Boot(ONE_QUESTION), TWO_ANSWERS); Driven(s, 1) && Recorded(s.table, 1, Failed)
  {
    var s4 := State(map[1 := Row("s", Running)], map[], map[],
                    map[1 := Resumer(1, "s", Released), 2 := Resumer(1, "s", Looked)], Free);
    BothResumersRegister();
    SecondResumerClaims(s4);
    FirstResumerClaims(s4);
    BothResumersLook();
  }
}
