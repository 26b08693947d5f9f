/**
Background writes (backend/app/services/durable_io.py): a started write is never abandoned, and at most
four run at a time for one event loop.
*/
module DurableIo {
  import opened Common

  // ------------------------------------------------------------------------------------------
  // finish_on_cancel
  // ------------------------------------------------------------------------------------------

  datatype Ending = Value(value: string) | Raised(error: string) | Cancelled

  // What can end a wait: the caller is cancelled, or its write is done.
  datatype Signal = Cancel | Done(ending: Ending)

  // Position of the first Done, or the number of signals.
  function FirstDone(signals: seq<Signal>): (n: nat)
    ensures n <= |signals|
    ensures n < |signals| ==> signals[n].Done?
    ensures forall i | 0 <= i < n :: signals[i].Cancel?
  {
    if signals == [] || signals[0].Done? then 0 else 1 + FirstDone(signals[1..])
  }

  lemma {:induction false} FirstDoneIs(signals: seq<Signal>, n: nat)
    requires n < |signals| && signals[n].Done? && forall i | 0 <= i < n :: signals[i].Cancel?
    ensures FirstDone(signals) == n
  {
    if n > 0 {
      FirstDoneIs(signals[1..], n - 1);
    }
  }

  /** The wait and the loop behind it.  The caller gets no answer before the write is done; it then gets the
      write's error if there is one, its own cancellation if it was cancelled meanwhile, and else the value. */
  method FinishOnCancel(signals: seq<Signal>) returns (answer: Option<Ending>, waits: nat)
    ensures answer.Some? <==> exists i :: 0 <= i < |signals| && signals[i].Done?
    ensures answer.Some? ==>
      var n := FirstDone(signals);
      n < |signals| && waits == n + 1 &&
      answer.value == if signals[n].ending.Value? && n > 0 then Cancelled else signals[n].ending
    ensures forall n: nat | n < |signals| && signals[n].Done? && forall i | 0 <= i < n :: signals[i].Cancel? ::
      answer == Some(if signals[n].ending.Value? && n > 0 then Cancelled else signals[n].ending)
  {
    if signals == [] {
      return None, 0;
    }
    waits := 1;
    if signals[0].Done? {
      return Some(signals[0].ending), 1;
    }
    var done := false;
    var ending := Cancelled;
    while waits < |signals| && !done
      invariant 1 <= waits <= |signals|
      invariant forall i | 0 <= i < waits - 1 :: signals[i].Cancel?
      invariant signals[waits - 1] == if done then Done(ending) else Cancel
    {
      if signals[waits].Done? {
        done, ending := true, signals[waits].ending;
      }
      waits := waits + 1;
    }
    if done {
      FirstDoneIs(signals, waits - 1);
      answer := Some(if ending.Value? then Cancelled else ending);
    } else {
      answer := None;
    }
  }

  // ------------------------------------------------------------------------------------------
  // Slots
  // ------------------------------------------------------------------------------------------

  const SLOTS := 4

  type Loop = nat
  type Caller = nat
  type Semaphore = nat

  // A caller refers to its semaphore for as long as it waits or writes.
  datatype Phase = Waiting | Writing

  datatype Use = Use(loop: Loop, semaphore: Semaphore, phase: Phase, cancelled: bool)

  // The table forgets a semaphore that nobody refers to.
  datatype State = State(table: map<Loop, Semaphore>, next: Semaphore, uses: map<Caller, Use>)

  datatype Step =
    | Arrive(caller: Caller, loop: Loop)
    | Acquire(caller: Caller)
    | CancelCaller(caller: Caller)       // a waiting caller leaves; a writing one stays until the write is done
    | WriteDone(caller: Caller)
    | Collect(loop: Loop)                // the garbage collector drops an unused semaphore

  predicate Used(s: State, semaphore: Semaphore) {
    exists c :: c in s.uses && s.uses[c].semaphore == semaphore
  }

  function Writers(s: State, semaphore: Semaphore): set<Caller> {
    set c | c in s.uses && s.uses[c].semaphore == semaphore && s.uses[c].phase == Writing
  }

  predicate Enabled(s: State, m: Step) {
    match m
    case Arrive(c, _) => c !in s.uses
    case Acquire(c) => c in s.uses && s.uses[c].phase == Waiting && |Writers(s, s.uses[c].semaphore)| < SLOTS
    case CancelCaller(c) => c in s.uses
    case WriteDone(c) => c in s.uses && s.uses[c].phase == Writing
    case Collect(l) => l in s.table && !Used(s, s.table[l])
  }

  function Next(s: State, m: Step): State
    requires Enabled(s, m)
  {
    match m
    case Arrive(c, l) =>
      if l in s.table then s.(uses := s.uses[c := Use(l, s.table[l], Waiting, false)])
      else State(s.table[l := s.next], s.next + 1, s.uses[c := Use(l, s.next, Waiting, false)])
    case Acquire(c) => s.(uses := s.uses[c := s.uses[c].(phase := Writing)])
    case CancelCaller(c) =>
      if s.uses[c].phase == Waiting then s.(uses := s.uses - {c}) else s.(uses := s.uses[c := s.uses[c].(cancelled := true)])
    case WriteDone(c) => s.(uses := s.uses - {c})
    case Collect(l) => s.(table := s.table - {l})
  }

  // Whoever waits or writes for a loop uses the semaphore in the table, which belongs to that loop alone.
  predicate Shared(s: State) {
    && (forall c | c in s.uses :: s.uses[c].loop in s.table && s.table[s.uses[c].loop] == s.uses[c].semaphore)
    && (forall l, k | l in s.table && k in s.table && s.table[l] == s.table[k] :: l == k)
    && (forall l | l in s.table :: s.table[l] < s.next)
  }

  predicate Limited(s: State) {
    forall c | c in s.uses :: |Writers(s, s.uses[c].semaphore)| <= SLOTS
  }

  lemma {:induction false} StepKeepsShared(s: State, m: Step)
    requires Shared(s) && Enabled(s, m)
    ensures Shared(Next(s, m))
  {
    if m.Collect? {
      assert forall c | c in s.uses :: s.uses[c].semaphore == s.table[m.loop] ==> Used(s, s.table[m.loop]);
    }
  }

  lemma {:induction false} WritersOnlyGrowBy(s: State, m: Step, semaphore: Semaphore)
    requires Enabled(s, m)
    ensures Writers(Next(s, m), semaphore) <= Writers(s, semaphore) + if m.Acquire? then {m.caller} else {}
    ensures m.Acquire? && s.uses[m.caller].semaphore != semaphore ==> Writers(Next(s, m), semaphore) <= Writers(s, semaphore)
  {
  }

  lemma {:induction false} Smaller(a: set<Caller>, b: set<Caller>)
    requires a <= b
    ensures |a| <= |b|
  {
    assert b == a + (b - a);
  }

  lemma {:induction false} StepKeepsLimited(s: State, m: Step)
    requires Shared(s) && Limited(s) && Enabled(s, m)
    ensures Limited(Next(s, m))
  {
    var t := Next(s, m);
    forall c | c in t.uses ensures |Writers(t, t.uses[c].semaphore)| <= SLOTS {
      var semaphore := t.uses[c].semaphore;
      WritersOnlyGrowBy(s, m, semaphore);
      if m.Acquire? && s.uses[m.caller].semaphore == semaphore {
        Smaller(Writers(t, semaphore), Writers(s, semaphore) + {m.caller});
      } else {
        Smaller(Writers(t, semaphore), Writers(s, semaphore));
        if c !in s.uses {
          FreshOrShared(s, m, c);
        }
      }
    }
  }

  // The semaphore of a caller that has just arrived is an old one in use, or has no writers.
  lemma {:induction false} FreshOrShared(s: State, m: Step, c: Caller)
    requires Shared(s) && Limited(s) && Enabled(s, m) && c !in s.uses && c in Next(s, m).uses
    ensures |Writers(s, Next(s, m).uses[c].semaphore)| <= SLOTS
  {
    var semaphore := Next(s, m).uses[c].semaphore;
    if w :| w in Writers(s, semaphore) {
      assert s.uses[w].semaphore == semaphore;
    } else {
      assert Writers(s, semaphore) == {};
    }
  }

  predicate Legal(s: State, steps: seq<Step>)
    decreases |steps|
  {
    steps == [] || (Enabled(s, steps[0]) && Legal(Next(s, steps[0]), steps[1..]))
  }

  function After(s: State, steps: seq<Step>): State
    requires Legal(s, steps)
    decreases |steps|
  {
    if steps == [] then s else After(Next(s, steps[0]), steps[1..])
  }

  lemma {:induction false} RunsKeepLimits(s: State, steps: seq<Step>)
    requires Shared(s) && Limited(s) && Legal(s, steps)
    ensures Shared(After(s, steps)) && Limited(After(s, steps))
    decreases |steps|
  {
    if steps != [] {
      StepKeepsShared(s, steps[0]);
      StepKeepsLimited(s, steps[0]);
      RunsKeepLimits(Next(s, steps[0]), steps[1..]);
    }
  }

  function LoopWriters(s: State, loop: Loop): set<Caller> {
    set c | c in s.uses && s.uses[c].loop == loop && s.uses[c].phase == Writing
  }

  /** Through any arrivals, cancellations and collections, at most four writes run at a time for one event
      loop: a cancelled caller keeps its slot until its write is done, and a loop in use has one semaphore. */
  lemma {:induction false} FourWritesPerLoop(steps: seq<Step>, loop: Loop)
    requires Legal(State(map[], 0, map[]), steps)
    ensures var s := After(State(map[], 0, map[]), steps);
      |LoopWriters(s, loop)| <= SLOTS
  {
    RunsKeepLimits(State(map[], 0, map[]), steps);
    var s := After(State(map[], 0, map[]), steps);
    var writers := LoopWriters(s, loop);
    if w :| w in writers {
      assert forall c | c in writers :: s.uses[c].semaphore == s.table[loop];
      assert writers <= Writers(s, s.uses[w].semaphore) && |Writers(s, s.uses[w].semaphore)| <= SLOTS;
      Smaller(writers, Writers(s, s.uses[w].semaphore));
    } else {
      assert writers == {};
    }
  }

  const FRESH_STATE := State(map[], 0, map[])

  // The writes of a loop all use the semaphore that the table has for it.
  lemma {:induction false} LoopWritersAre(steps: seq<Step>, c: Caller)
    requires Legal(FRESH_STATE, steps) && c in After(FRESH_STATE, steps).uses
    ensures var s := After(FRESH_STATE, steps); Writers(s, s.uses[c].semaphore) == LoopWriters(s, s.uses[c].loop)
  {
    RunsKeepLimits(FRESH_STATE, steps);
    var s := After(FRESH_STATE, steps);
    assert forall d | d in s.uses :: (s.uses[d].semaphore == s.uses[c].semaphore <==> s.uses[d].loop == s.uses[c].loop);
  }

  /** A waiting caller can write exactly while fewer than four writes of its loop run; other loops do not matter. */
  lemma {:induction false} SlotsAreGranted(steps: seq<Step>, c: Caller)
    requires Legal(FRESH_STATE, steps)
    requires c in After(FRESH_STATE, steps).uses && After(FRESH_STATE, steps).uses[c].phase == Waiting
    ensures var s := After(FRESH_STATE, steps); var loop := s.uses[c].loop;
      && (Enabled(s, Acquire(c)) <==> |LoopWriters(s, loop)| < 4)
      && (Enabled(s, Acquire(c)) ==> LoopWriters(Next(s, Acquire(c)), loop) == LoopWriters(s, loop) + {c})
      && LoopWriters(Next(s, CancelCaller(c)), loop) == LoopWriters(s, loop) && c !in Next(s, CancelCaller(c)).uses
  {
    LoopWritersAre(steps, c);
  }

  /** A writing caller keeps its slot when it is cancelled, and gives it back when its write is done. */
  lemma {:induction false} SlotsAreGivenBack(s: State, c: Caller)
    requires c in s.uses && s.uses[c].phase == Writing
    ensures var loop := s.uses[c].loop;
      && LoopWriters(Next(s, CancelCaller(c)), loop) == LoopWriters(s, loop) && Next(s, CancelCaller(c)).uses[c].cancelled
      && Enabled(Next(s, CancelCaller(c)), WriteDone(c))
      && LoopWriters(Next(s, WriteDone(c)), loop) == LoopWriters(s, loop) - {c} && c !in Next(s, WriteDone(c)).uses
  {
  }

  /** A caller that arrives waits, for the semaphore of its loop; one that was collected is replaced by a new one. */
  lemma {:induction false} ArrivalsWait(steps: seq<Step>, c: Caller, loop: Loop)
    requires Legal(FRESH_STATE, steps) && c !in After(FRESH_STATE, steps).uses
    ensures var s := After(FRESH_STATE, steps); var t := Next(s, Arrive(c, loop));
      && c in t.uses && t.uses[c].loop == loop && t.uses[c].phase == Waiting && !t.uses[c].cancelled
      && (loop in s.table ==> t.uses[c].semaphore == s.table[loop])
      && (loop !in s.table ==> forall l | l in s.table :: s.table[l] != t.uses[c].semaphore)
      && (forall d | d in s.uses :: d in t.uses && t.uses[d] == s.uses[d])
      && LoopWriters(t, loop) == LoopWriters(s, loop)
      && (loop in s.table && Enabled(s, Collect(loop)) ==> loop !in Next(s, Collect(loop)).table)
  {
    RunsKeepLimits(FRESH_STATE, steps);
  }
}
