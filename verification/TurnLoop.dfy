/**
The effort limits of one run (backend/app/runtime/engine.py, `take_llm_retry_delay` and the skeleton of
`_stream_chat`; the limits are settings in backend/app/core/config.py).

The outside of one turn is an `Input`: what came back from the model and how much time passed.  The clock
only ever moves forward, and by at least the length of each sleep.
*/
module TurnLoop {
  import opened Common

  type Span = x: real | x >= 0.0

  type Window = x: real | x >= 1.0 witness 1.0

  datatype Limits = Limits(
    maxTurns: nat,               // 0: no limit
    maxStallRounds: nat,         // 0: no stall detection
    maxContinuations: nat,
    retryAttempts: nat,
    retryWindow: Window
  )

  function Max(a: real, b: real): real { if a < b then b else a }

  function Min(a: real, b: real): real { if a < b then a else b }

  // ------------------------------------------------------------------------------------------
  // Retry budget
  // ------------------------------------------------------------------------------------------

  const RETRY_DELAYS: seq<real> := [1.0, 3.0, 5.0, 10.0, 10.0, 10.0, 10.0, 10.0]

  function TableDelay(count: nat): real {
    RETRY_DELAYS[if count < |RETRY_DELAYS| then count else |RETRY_DELAYS| - 1]
  }

  /** A deadline of 0.0 means that no window is open. */
  class RetryBudget {
    const limits: Limits
    var deadline: real
    var count: nat

    constructor (limits: Limits)
      ensures this.limits == limits && deadline == 0.0 && count == 0
    {
      this.limits, deadline, count := limits, 0.0, 0;
    }

    method Reset()
      modifies this
      ensures deadline == 0.0 && count == 0
    {
      deadline, count := 0.0, 0;
    }

    // The clock is read up to three times: opening, check, rest.
    method TakeDelay(opening: real, check: real, rest: real, minimum: real) returns (delay: Option<real>)
      requires 0.0 <= opening <= check <= rest
      modifies this
      ensures deadline == if old(deadline) == 0.0 then opening + limits.retryWindow else old(deadline)
      ensures delay.Some? <==> check < deadline && old(count) < limits.retryAttempts
      ensures count == old(count) + if delay.Some? then 1 else 0
      ensures delay.Some? ==> delay.value == Min(Max(TableDelay(old(count)), minimum), Max(0.0, deadline - rest))
    {
      if deadline == 0.0 {
        deadline := opening + limits.retryWindow;
      }
      if check >= deadline || count >= limits.retryAttempts {
        return None;
      }
      var d := Max(RETRY_DELAYS[if count < |RETRY_DELAYS| - 1 then count else |RETRY_DELAYS| - 1], minimum);
      d := Min(d, Max(0.0, deadline - rest));
      count := count + 1;
      delay := Some(d);
    }
  }

  function Sum(delays: seq<real>): real {
    if delays == [] then 0.0 else Sum(delays[..|delays| - 1]) + delays[|delays| - 1]
  }

  lemma {:induction false} SumMore(delays: seq<real>, d: real)
    ensures Sum(delays + [d]) == Sum(delays) + d
  {
    assert (delays + [d])[..|delays|] == delays;
  }

  // ------------------------------------------------------------------------------------------
  // Turns
  // ------------------------------------------------------------------------------------------

  // Interrupted stands for every other reason.
  datatype StopReason = Stop | ToolCalls | Length | Interrupted

  datatype Reply =
    | Negotiated                                     // request adapted, asked again
    | Refused                                        // the run ends
    | StatusError(retryable: bool, cooldown: real)
    | Broken                                         // the stream broke off
    | Response(stop: StopReason, visible: bool, reasoning: bool, output: bool,
               calls: Option<string>,                // fingerprint of the batch
               closed: bool,                         // the request offered no tools
               endsInBatch: bool)

  // `ends`: abort, run time or a blocked context, found before the request.
  datatype Input = Input(ends: bool, before: Span, check: Span, rest: Span, reply: Reply)

  // Tool rounds as they were decided, and rounds without tools.
  datatype Round = Executed(fingerprint: string) | Stalled(fingerprint: string) | Talked

  // `spent` is the time since the last window was opened.
  datatype Log = Log(turns: nat, requests: nat, continuations: nat, rounds: seq<Round>, windows: seq<seq<real>>, spent: real)

  predicate Fits(limits: Limits, delays: seq<real>) {
    |delays| <= limits.retryAttempts && Sum(delays) <= limits.retryWindow
  }

  // The k rounds before round i all executed this batch.
  predicate RepeatedBefore(rounds: seq<Round>, i: nat, k: nat, fingerprint: string) {
    k <= i <= |rounds| && forall j | i - k <= j < i :: rounds[j] == Executed(fingerprint)
  }

  // A batch is refused exactly when the last maxStallRounds rounds executed the same one.
  predicate StallRule(limits: Limits, rounds: seq<Round>) {
    forall i | 0 <= i < |rounds| && !rounds[i].Talked? ::
      rounds[i].Stalled? <==> limits.maxStallRounds > 0 && RepeatedBefore(rounds, i, limits.maxStallRounds, rounds[i].fingerprint)
  }

  // What the two stall variables say about the rounds so far.
  predicate Counted(rounds: seq<Round>, last: Option<string>, stall: nat) {
    match last
    case None => stall == 0 && (rounds == [] || !rounds[|rounds| - 1].Executed?)
    case Some(f) =>
      && RepeatedBefore(rounds, |rounds|, stall + 1, f)
      && (stall + 1 == |rounds| || rounds[|rounds| - stall - 2] != Executed(f))
  }

  lemma {:induction false} MoreRounds(limits: Limits, rounds: seq<Round>, round: Round)
    requires StallRule(limits, rounds)
    requires !round.Talked? ==>
      (round.Stalled? <==> limits.maxStallRounds > 0 && RepeatedBefore(rounds, |rounds|, limits.maxStallRounds, round.fingerprint))
    ensures StallRule(limits, rounds + [round])
  {
    var more := rounds + [round];
    forall i | 0 <= i < |more| && !more[i].Talked?
      ensures more[i].Stalled? <==> limits.maxStallRounds > 0 && RepeatedBefore(more, i, limits.maxStallRounds, more[i].fingerprint)
    {
      assert forall j | 0 <= j < |rounds| :: more[j] == rounds[j];
      assert RepeatedBefore(more, i, limits.maxStallRounds, more[i].fingerprint) ==
        RepeatedBefore(rounds, i, limits.maxStallRounds, more[i].fingerprint);
    }
  }

  /** The window that is open now, and the budget object and clock that go with it. */
  ghost predicate WindowOpen(budget: RetryBudget, delays: seq<real>, start: real, now: real)
    reads budget
  {
    && now >= 0.0 && |delays| == budget.count && Fits(budget.limits, delays)
    && (budget.deadline == 0.0 ==> delays == [])
    && (budget.deadline != 0.0 ==>
          budget.deadline == start + budget.limits.retryWindow && start <= now && Sum(delays) <= now - start)
  }

  predicate Exhausted(limits: Limits, delays: seq<real>, spent: real) {
    |delays| >= limits.retryAttempts || spent >= limits.retryWindow
  }

  // One request for a delay and the sleep that follows it.
  method TakeAndSleep(budget: RetryBudget, input: Input, minimum: real, delays: seq<real>, start: real, now: real)
    returns (granted: bool, delays': seq<real>, start': real, now': real)
    requires WindowOpen(budget, delays, start, now)
    modifies budget
    ensures WindowOpen(budget, delays', start', now') && now <= now'
    ensures granted <==> |delays'| > |delays|
    ensures granted ==> delays' == delays + [delays'[|delays|]]
    ensures !granted ==> delays' == delays && Exhausted(budget.limits, delays', now' - start')
    ensures !granted ==> |delays| >= budget.limits.retryAttempts || now' - start' >= budget.limits.retryWindow
  {
    var opening := now + input.before;
    var check := opening + input.check;
    var rest := check + input.rest;
    start' := if budget.deadline == 0.0 then opening else start;
    var delay := budget.TakeDelay(opening, check, rest, minimum);
    granted, delays', now' := delay.Some?, delays, rest;
    if delay.Some? {
      SumMore(delays, delay.value);
      delays' := delays + [delay.value];
      now' := rest + delay.value;
    }
  }

  // The stall variables and the decision about one batch.
  method JudgeBatch(limits: Limits, fingerprint: string, rounds: seq<Round>, last: Option<string>, stall: nat)
    returns (rounds': seq<Round>, last': Option<string>, stall': nat)
    requires StallRule(limits, rounds) && Counted(rounds, last, stall)
    ensures StallRule(limits, rounds') && Counted(rounds', last', stall')
    ensures rounds' == rounds + [Executed(fingerprint)] || rounds' == rounds + [Stalled(fingerprint)]
  {
    stall' := if last == Some(fingerprint) then stall + 1 else 0;
    last' := Some(fingerprint);
    if limits.maxStallRounds > 0 {
      RepeatsCounted(rounds, last, stall, fingerprint, limits.maxStallRounds);
    }
    if limits.maxStallRounds > 0 && stall' >= limits.maxStallRounds {
      MoreRounds(limits, rounds, Stalled(fingerprint));
      rounds', last', stall' := rounds + [Stalled(fingerprint)], None, 0;
    } else {
      MoreRounds(limits, rounds, Executed(fingerprint));
      rounds' := rounds + [Executed(fingerprint)];
    }
  }

  lemma {:induction false} RepeatsCounted(rounds: seq<Round>, last: Option<string>, stall: nat, fingerprint: string, k: nat)
    requires Counted(rounds, last, stall) && k > 0
    ensures RepeatedBefore(rounds, |rounds|, k, fingerprint) <==> last == Some(fingerprint) && k <= stall + 1
  {
    if RepeatedBefore(rounds, |rounds|, k, fingerprint) {
      assert rounds[|rounds| - 1] == Executed(fingerprint);
    }
  }

  predicate Empty(r: Reply)
    requires r.Response?
  {
    !r.visible && !r.reasoning && r.calls.None?
  }

  predicate BadCalls(r: Reply)
    requires r.Response?
  {
    r.calls.Some? && (r.closed || (r.stop != ToolCalls && r.stop != Stop))
  }

  predicate WantsMore(r: Reply)
    requires r.Response?
  {
    r.stop == Length || (r.stop == Stop && !r.visible && r.output)
  }

  // Why the loop left after this input.
  predicate Ends(limits: Limits, log: Log, input: Input) {
    || input.ends
    || (limits.maxTurns > 0 && log.turns > limits.maxTurns)
    || match input.reply
       case Negotiated => false
       case Refused => true
       case StatusError(retryable, _) => !retryable || Spent(limits, log)
       case Broken => Spent(limits, log)
       case Response(_, _, _, _, _, _, endsInBatch) =>
         log.rounds != [] &&
         if input.reply.calls.Some? && !BadCalls(input.reply) then log.rounds[|log.rounds| - 1].Executed? && endsInBatch
         else
           && log.rounds[|log.rounds| - 1].Talked?
           && (BadCalls(input.reply) || Empty(input.reply) ==> Spent(limits, log))
           && (BadCalls(input.reply) || !WantsMore(input.reply) || log.continuations == limits.maxContinuations)
  }

  predicate Spent(limits: Limits, log: Log) {
    log.windows != [] && Exhausted(limits, log.windows[|log.windows| - 1], log.spent)
  }

  // What becomes of a turn once its reply is in.
  datatype Verdict = Again | Leave | Proceed

  ghost predicate AllFit(limits: Limits, windows: seq<seq<real>>) {
    forall w | w in windows :: Fits(limits, w)
  }

  // Why a reply ends the run, or what holds when it is looked at further.
  predicate Justified(limits: Limits, reply: Reply, verdict: Verdict, delays: seq<real>, spent: real) {
    match verdict
    case Again => !reply.Refused?
    case Leave =>
      || reply.Refused?
      || (reply.StatusError? && (!reply.retryable || Exhausted(limits, delays, spent)))
      || (reply.Broken? && Exhausted(limits, delays, spent))
    case Proceed => reply.Response? && (BadCalls(reply) || Empty(reply) ==> Exhausted(limits, delays, spent))
  }

  // A batch of tools that is looked at.
  predicate HasBatch(r: Reply) {
    r.Response? && r.calls.Some? && !r.closed && (r.stop == ToolCalls || r.stop == Stop)
  }

  // A response that says something and asks for no tool.
  predicate Answers(r: Reply) {
    r.Response? && r.calls.None? && (r.visible || r.reasoning)
  }

  // The failures of a turn and the retry budget.
  method TakeReply(budget: RetryBudget, input: Input, windows: seq<seq<real>>, delays: seq<real>, start: real, now: real)
    returns (verdict: Verdict, windows': seq<seq<real>>, delays': seq<real>, start': real, now': real)
    requires WindowOpen(budget, delays, start, now) && AllFit(budget.limits, windows)
    modifies budget
    ensures WindowOpen(budget, delays', start', now') && AllFit(budget.limits, windows')
    ensures Justified(budget.limits, input.reply, verdict, delays', now' - start')
    ensures input.reply.Negotiated? ==> verdict == Again
    ensures input.reply.Refused? || (input.reply.StatusError? && !input.reply.retryable) ==> verdict == Leave
    ensures input.reply.Broken? || (input.reply.StatusError? && input.reply.retryable) ==>
      || (verdict == Again && |delays'| == |delays| + 1)
      || (verdict == Leave && (|delays'| >= budget.limits.retryAttempts || now' - start' >= budget.limits.retryWindow))
    ensures input.reply.Response? ==> verdict != Leave
    ensures HasBatch(input.reply) || Answers(input.reply) ==> verdict == Proceed
  {
    var reply := input.reply;
    windows', delays', start', now' := windows, delays, start, now;
    var asks := (reply.StatusError? && reply.retryable) || reply.Broken? || (reply.Response? && (Empty(reply) || BadCalls(reply)));
    if asks {
      var granted;
      granted, delays', start', now' :=
        TakeAndSleep(budget, input, if reply.StatusError? then reply.cooldown else 0.0, delays, start, now);
      verdict := if granted then Again else if reply.Response? then Proceed else Leave;
    } else if reply.Response? {
      if reply.stop == Stop || reply.stop == ToolCalls {
        windows' := windows + [delays];
        budget.Reset();
        delays' := [];
      }
      verdict := Proceed;
    } else {
      verdict := if reply.Negotiated? then Again else Leave;
    }
  }

  // A reply that is looked at: a batch of tools, or talk that may ask for a continuation.
  method JudgeReply(limits: Limits, reply: Reply, rounds: seq<Round>, last: Option<string>, stall: nat, continuations: nat)
    returns (rounds': seq<Round>, last': Option<string>, stall': nat, continuations': nat, left: bool)
    requires reply.Response? && StallRule(limits, rounds) && Counted(rounds, last, stall)
    requires continuations <= limits.maxContinuations
    ensures StallRule(limits, rounds') && Counted(rounds', last', stall') && |rounds'| == |rounds| + 1
    ensures continuations <= continuations' <= limits.maxContinuations
    ensures HasBatch(reply) ==>
      && (rounds' == rounds + [Executed(reply.calls.value)] || rounds' == rounds + [Stalled(reply.calls.value)])
      && continuations' == continuations && (left <==> rounds'[|rounds|].Executed? && reply.endsInBatch)
    ensures !HasBatch(reply) ==>
      && rounds' == rounds + [Talked] && continuations' == continuations + (if left then 0 else 1)
      && (left <==> (reply.calls.Some? || continuations == limits.maxContinuations
                     || !(reply.stop == Length || (reply.stop == Stop && !reply.visible && reply.output))))
    ensures left ==>
      if reply.calls.Some? && !BadCalls(reply) then rounds'[|rounds|].Executed? && reply.endsInBatch
      else
        && rounds'[|rounds|].Talked?
        && (BadCalls(reply) || !WantsMore(reply) || continuations' == limits.maxContinuations)
  {
    continuations', left := continuations, false;
    if reply.calls.Some? && !BadCalls(reply) {
      rounds', last', stall' := JudgeBatch(limits, reply.calls.value, rounds, last, stall);
      left := rounds'[|rounds|].Executed? && reply.endsInBatch;
      return;
    }
    MoreRounds(limits, rounds, Talked);
    rounds', last', stall' := rounds + [Talked], None, 0;
    if continuations < limits.maxContinuations && !BadCalls(reply) && WantsMore(reply) {
      continuations' := continuations + 1;
    } else {
      left := true;
    }
  }

  // Whatever came before, the run ends with this turn: it is stopped or refused, or has its answer.
  predicate EndsForSure(i: Input) {
    || i.ends || i.reply.Refused? || (i.reply.StatusError? && !i.reply.retryable)
    || (Answers(i.reply) && i.reply.visible && i.reply.stop == Stop)
  }

  // A turn with a batch of tools after which the run goes on.
  predicate UsesTools(i: Input) {
    !i.ends && HasBatch(i.reply) && !i.reply.endsInBatch
  }

  // Each turn so far has its round, with the batch it asked for.
  predicate RoundPerTurn(inputs: seq<Input>, turns: nat, rounds: seq<Round>) {
    && turns <= |inputs| && |rounds| == turns
    && forall i | 0 <= i < turns :: UsesTools(inputs[i]) ==> !rounds[i].Talked? && rounds[i].fingerprint == inputs[i].reply.calls.value
  }

  // One turn from its request on.
  method OneTurn(limits: Limits, budget: RetryBudget, input: Input, turns: nat, requests: nat,
                 windows: seq<seq<real>>, delays: seq<real>, start: real, now: real,
                 rounds: seq<Round>, last: Option<string>, stall: nat, continuations: nat)
    returns (windows': seq<seq<real>>, delays': seq<real>, start': real, now': real,
             rounds': seq<Round>, last': Option<string>, stall': nat, continuations': nat, left: bool)
    requires budget.limits == limits && WindowOpen(budget, delays, start, now) && AllFit(limits, windows)
    requires StallRule(limits, rounds) && Counted(rounds, last, stall) && continuations <= limits.maxContinuations
    modifies budget
    ensures WindowOpen(budget, delays', start', now') && AllFit(limits, windows')
    ensures StallRule(limits, rounds') && Counted(rounds', last', stall') && continuations' <= limits.maxContinuations
    ensures rounds <= rounds' && |rounds'| <= |rounds| + 1
    ensures left ==>
      Ends(limits, Log(turns, requests, continuations', rounds', windows' + [delays'], now' - start'), input)
    ensures EndsForSure(input) && !input.ends ==> left
    ensures UsesTools(input) ==>
      !left && |rounds'| == |rounds| + 1 && !rounds'[|rounds|].Talked? && rounds'[|rounds|].fingerprint == input.reply.calls.value
  {
    rounds', last', stall', continuations', left := rounds, last, stall, continuations, false;
    var verdict;
    verdict, windows', delays', start', now' := TakeReply(budget, input, windows, delays, start, now);
    if verdict != Proceed {
      left := verdict == Leave;
      return;
    }
    rounds', last', stall', continuations', left := JudgeReply(limits, input.reply, rounds, last, stall, continuations);
  }

  /** The loop over turns, up to the end of the run or of the inputs.  Whatever the model and the clock do,
      every limit holds, and the loop leaves early only for one of its reasons. */
  method RunTurns(limits: Limits, inputs: seq<Input>) returns (log: Log)
    ensures limits.maxTurns > 0 ==> log.requests <= limits.maxTurns
    ensures log.continuations <= limits.maxContinuations
    ensures StallRule(limits, log.rounds) && |log.rounds| <= log.requests
    ensures AllFit(limits, log.windows)
    ensures log.turns <= |inputs|
    ensures log.turns < |inputs| ==> log.turns > 0 && Ends(limits, log, inputs[log.turns - 1])
    ensures forall t | 0 <= t < log.turns - 1 :: !EndsForSure(inputs[t])
    ensures (forall t | 0 <= t < |inputs| :: UsesTools(inputs[t])) && (limits.maxTurns == 0 || |inputs| <= limits.maxTurns) ==>
      log.turns == |inputs| && RoundPerTurn(inputs, |inputs|, log.rounds)
  {
    var budget := new RetryBudget(limits);
    var turns: nat, requests: nat, continuations: nat, stall: nat := 0, 0, 0, 0;
    var last: Option<string> := None;
    var rounds: seq<Round>, delays: seq<real>, windows: seq<seq<real>> := [], [], [];
    var now := 0.0;
    var start := 0.0;
    var left := false;
    while turns < |inputs| && !left
      invariant turns <= |inputs| && fresh(budget) && budget.limits == limits
      invariant |rounds| <= requests <= turns && (limits.maxTurns > 0 ==> requests <= limits.maxTurns)
      invariant continuations <= limits.maxContinuations
      invariant StallRule(limits, rounds) && Counted(rounds, last, stall)
      invariant WindowOpen(budget, delays, start, now) && AllFit(limits, windows)
      invariant forall t | 0 <= t < (if left then turns - 1 else turns) :: !EndsForSure(inputs[t])
      invariant (forall t | 0 <= t < turns :: UsesTools(inputs[t])) && (limits.maxTurns == 0 || turns <= limits.maxTurns) ==>
        !left && RoundPerTurn(inputs, turns, rounds)
      invariant left ==>
        turns > 0 && Ends(limits, Log(turns, requests, continuations, rounds, windows + [delays], now - start), inputs[turns - 1])
    {
      var input := inputs[turns];
      turns := turns + 1;
      if input.ends || (limits.maxTurns > 0 && turns > limits.maxTurns) {
        left := true;
        continue;
      }
      requests := requests + 1;
      windows, delays, start, now, rounds, last, stall, continuations, left :=
        OneTurn(limits, budget, input, turns, requests, windows, delays, start, now, rounds, last, stall, continuations);
    }
    log := Log(turns, requests, continuations, rounds, windows + [delays], now - start);
  }

  /** The stall rule bounds repetition: of any maxStallRounds + 1 successive tool rounds with the same batch,
      one was refused. */
  lemma {:induction false} NoLongRepetition(limits: Limits, rounds: seq<Round>, start: nat, fingerprint: string)
    requires StallRule(limits, rounds) && limits.maxStallRounds > 0 && start + limits.maxStallRounds < |rounds|
    ensures exists i :: start <= i <= start + limits.maxStallRounds && rounds[i] != Executed(fingerprint)
  {
    var i := start + limits.maxStallRounds;
    if forall j | start <= j <= i :: rounds[j] == Executed(fingerprint) {
      assert RepeatedBefore(rounds, i, limits.maxStallRounds, fingerprint);
      assert rounds[i].Stalled?;
    }
  }
}
