/**
The run context of a session (backend/app/services/session_types.py, the run methods of `AgentSession`).

A session holds at most one active run and a copy of the run that was last asked to stop.  Loops of older
runs may still call in; every method takes the run id it speaks for.
*/
module RunContext {
  import opened Common

  type RunId = string

  datatype Context = Context(run: RunId, aborted: bool, partial: string, tool: Option<string>)

  datatype Session = Session(active: Option<Context>, lastAbort: Option<Context>)

  function Get(s: Session, run: RunId): Option<Context> {
    if s.active.Some? && s.active.value.run == run then s.active else None
  }

  predicate IsAborted(s: Session, run: RunId) {
    Get(s, run).Some? ==> Get(s, run).value.aborted
  }

  function Partial(s: Session, run: RunId): string {
    if Get(s, run).Some? then Get(s, run).value.partial
    else if s.lastAbort.Some? && s.lastAbort.value.run == run then s.lastAbort.value.partial
    else ""
  }

  datatype Call =
    | BeginRun(run: RunId)
    | FinishRun(run: RunId)
    | RequestAbort
    | SetPartial(run: RunId, content: string)
    | MarkTool(run: RunId, tool: Option<string>)

  function Next(s: Session, c: Call): Session {
    match c
    case BeginRun(run) => s.(active := Some(Context(run, false, "", None)))
    case FinishRun(run) => if Get(s, run).Some? then s.(active := None) else s
    case RequestAbort =>
      if s.active.None? then s
      else
        var stopped := s.active.value.(aborted := true);
        Session(Some(stopped), Some(stopped))
    case SetPartial(run, content) =>
      if Get(s, run).Some? then s.(active := Some(s.active.value.(partial := content))) else s
    case MarkTool(run, tool) =>
      if Get(s, run).Some? then s.(active := Some(s.active.value.(tool := tool))) else s
  }

  /** The session object. */
  class AgentSession {
    var active: Option<Context>
    var lastAbort: Option<Context>

    ghost function Model(): Session
      reads this
    {
      Session(active, lastAbort)
    }

    constructor ()
      ensures Model() == Session(None, None)
    {
      active, lastAbort := None, None;
    }

    method Begin(run: RunId)
      modifies this
      ensures Model() == Next(old(Model()), BeginRun(run))
    {
      active := Some(Context(run, false, "", None));
    }

    method Finish(run: RunId)
      modifies this
      ensures Model() == Next(old(Model()), FinishRun(run))
    {
      if active.Some? && active.value.run == run {
        active := None;
      }
    }

    method Abort() returns (run: Option<RunId>)
      modifies this
      ensures Model() == Next(old(Model()), RequestAbort)
      ensures run == if old(active).Some? then Some(old(active).value.run) else None
    {
      if active.None? {
        return None;
      }
      active := Some(active.value.(aborted := true));
      lastAbort := active;
      run := Some(active.value.run);
    }

    method SetPartialContent(run: RunId, content: string)
      modifies this
      ensures Model() == Next(old(Model()), SetPartial(run, content))
    {
      if active.Some? && active.value.run == run {
        active := Some(active.value.(partial := content));
      }
    }

    method PartialContent(run: RunId) returns (content: string)
      ensures content == Partial(Model(), run)
    {
      if active.Some? && active.value.run == run {
        return active.value.partial;
      }
      if lastAbort.Some? && lastAbort.value.run == run {
        return lastAbort.value.partial;
      }
      content := "";
    }
  }

  function After(s: Session, calls: seq<Call>): Session
    decreases |calls|
  {
    if calls == [] then s else After(Next(s, calls[0]), calls[1..])
  }

  predicate NeverBegins(calls: seq<Call>, run: RunId) {
    forall c | c in calls :: c != BeginRun(run)
  }

  /** Once a run is stopped it stays stopped, whatever any loop calls, until it is begun again.  A run that
      another one has displaced, or that was finished, counts as stopped too. */
  lemma {:induction false} AbortSticks(s: Session, calls: seq<Call>, run: RunId)
    requires IsAborted(s, run) && NeverBegins(calls, run)
    ensures IsAborted(After(s, calls), run)
    decreases |calls|
  {
    if calls != [] {
      assert calls[0] in calls && forall c | c in calls[1..] :: c in calls;
      AbortSticks(Next(s, calls[0]), calls[1..], run);
    }
  }

  // Calls that speak for another run only, and do not stop or replace this one.
  predicate Foreign(calls: seq<Call>, run: RunId) {
    forall c | c in calls :: !c.BeginRun? && !c.RequestAbort? && c.run != run
  }

  /** A loop that has been overtaken cannot disturb the current run. */
  lemma {:induction false} StaleLoopsAreHarmless(s: Session, calls: seq<Call>, run: RunId)
    requires Get(s, run).Some? && Foreign(calls, run)
    ensures After(s, calls) == s
    decreases |calls|
  {
    if calls != [] {
      assert calls[0] in calls && forall c | c in calls[1..] :: c in calls;
      StaleLoopsAreHarmless(s, calls[1..], run);
    }
  }

  // The runs that calls stop, as they were when asked to; a request that finds no active run stops none.
  function Stops(s: Session, calls: seq<Call>): seq<Context>
    decreases |calls|
  {
    if calls == [] then []
    else
      (if calls[0].RequestAbort? && s.active.Some? then [s.active.value] else []) + Stops(Next(s, calls[0]), calls[1..])
  }

  function LastStop(first: Context, more: seq<Context>): Context {
    if more == [] then first else more[|more| - 1]
  }

  /** The text of a stopped run stays readable when the run is over, as it was when the run was last asked to
      stop, exactly while no later stop is of another run.  Unless the run is begun again, that means: exactly
      while no later stop at all is of another run. */
  lemma {:induction false} PartialSurvives(s: Session, calls: seq<Call>, run: RunId)
    requires Get(s, run).Some? && Get(After(Next(s, RequestAbort), calls), run).None?
    ensures var more := Stops(Next(s, RequestAbort), calls);
      var last := LastStop(s.active.value, more);
      && Partial(After(Next(s, RequestAbort), calls), run) == (if last.run == run then last.partial else "")
      && (NeverBegins(calls, run) ==> (last.run == run <==> forall c | c in more :: c.run == run))
  {
    var t := Next(s, RequestAbort);
    LastAbortIsLastStop(t, calls);
    if NeverBegins(calls, run) {
      StopsInOrder(t, calls, run);
    }
  }

  lemma {:induction false} LastAbortIsLastStop(s: Session, calls: seq<Call>)
    requires s.lastAbort.Some?
    ensures After(s, calls).lastAbort.Some?
    ensures var more := Stops(s, calls);
      var last := LastStop(s.lastAbort.value, more);
      After(s, calls).lastAbort == Some(if more == [] then last else last.(aborted := true))
    decreases |calls|
  {
    if calls != [] {
      LastAbortIsLastStop(Next(s, calls[0]), calls[1..]);
    }
  }

  // Once another run has been stopped, this one is not stopped any more.
  lemma {:induction false} StopsInOrder(s: Session, calls: seq<Call>, run: RunId)
    requires NeverBegins(calls, run)
    ensures var stops := Stops(s, calls);
      && (Get(s, run).None? ==> forall c | c in stops :: c.run != run)
      && (stops != [] && stops[|stops| - 1].run == run ==> forall c | c in stops :: c.run == run)
    decreases |calls|
  {
    if calls != [] {
      assert calls[0] in calls && forall c | c in calls[1..] :: c in calls;
      StopsInOrder(Next(s, calls[0]), calls[1..], run);
    }
  }

  // The text set last, unless the run has not set any.
  function LastText(calls: seq<Call>, run: RunId): string
    decreases |calls|
  {
    if calls == [] then ""
    else
      var c := calls[|calls| - 1];
      if c.SetPartial? && c.run == run then c.content else LastText(calls[..|calls| - 1], run)
  }

  // No run is begun, and this one is not finished.
  predicate KeepsRun(calls: seq<Call>, run: RunId) {
    forall c | c in calls :: !c.BeginRun? && c != FinishRun(run)
  }

  lemma {:induction false} OneMoreCall(s: Session, calls: seq<Call>, c: Call)
    ensures After(s, calls + [c]) == Next(After(s, calls), c)
    decreases |calls|
  {
    if calls == [] {
      assert calls + [c] == [c] && [c][1..] == [];
    } else {
      assert (calls + [c])[1..] == calls[1..] + [c];
      OneMoreCall(Next(s, calls[0]), calls[1..], c);
    }
  }

  // The tool marked last, unless the run has not marked any.
  function LastTool(calls: seq<Call>, run: RunId): Option<string>
    decreases |calls|
  {
    if calls == [] then None
    else
      var c := calls[|calls| - 1];
      if c.MarkTool? && c.run == run then c.tool else LastTool(calls[..|calls| - 1], run)
  }

  /** From its begin to its end a run reads the text it set last, and counts as stopped exactly from the first
      request on; a run that has been begun anew starts with no text and not stopped. */
  lemma {:induction false} RunReadsItsText(s: Session, calls: seq<Call>, run: RunId)
    requires KeepsRun(calls, run)
    ensures var t := After(Next(s, BeginRun(run)), calls);
      && Get(t, run).Some? && Partial(t, run) == LastText(calls, run)
      && Get(t, run).value.tool == LastTool(calls, run) && (IsAborted(t, run) <==> RequestAbort in calls)
    decreases |calls|
  {
    if calls != [] {
      var fewer, c := calls[..|calls| - 1], calls[|calls| - 1];
      assert calls == fewer + [c] && c in calls && forall x | x in fewer :: x in calls;
      RunReadsItsText(s, fewer, run);
      OneMoreCall(Next(s, BeginRun(run)), fewer, c);
    }
  }

  /** A run that is finished, or displaced by another, is stopped. */
  lemma {:induction false} EndedRunsAreStopped(s: Session, run: RunId, other: RunId)
    requires other != run
    ensures IsAborted(Next(s, FinishRun(run)), run) && IsAborted(Next(s, BeginRun(other)), run)
  {
  }
}
