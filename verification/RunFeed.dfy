/**
The event log of one run and its live subscribers (backend/app/services/agent_run_service.py,
`_commit_and_publish`, `subscribe_from`, `list_events_after`, `_close_run`; the clients are the event
streams in backend/app/api/routes/agent.py and backend/app/api/routes/host.py).

Publishers take turns on the publish lock; each commits its event and later fans it out.  Other code
appends to the same log without any fan-out (`fail_agent_run`, `cancel_orphan_agent_run`, a publish
that raises after its commit).  Clients subscribe first and read the log afterwards.
*/
module RunFeed {
  import opened Common

  datatype Event = Event(number: nat, completed: bool, body: string)

  const HOST_EVENT_QUEUE_LIMIT := 4096

  // ------------------------------------------------------------------------------------------
  // Queues and the in-memory run
  // ------------------------------------------------------------------------------------------

  /** An asyncio queue; `limit` 0 means unbounded.  None is the close sentinel. */
  class EventQueue {
    const limit: nat
    var items: seq<Option<Event>>

    constructor (limit: nat)
      ensures this.limit == limit && items == []
    {
      this.limit, items := limit, [];
    }

    predicate HasRoom()
      reads this
    {
      limit == 0 || |items| < limit
    }

    // `_close_queue_after_overflow`: make room for the sentinel by dropping the oldest item.
    method CloseAfterOverflow()
      requires !HasRoom()
      modifies this
      ensures items == old(items)[1..] + [None]
    {
      items := items[1..] + [None];
    }
  }

  /** `LiveRunState`: the history of the current drive and the registered queues. */
  class LiveRun {
    var history: seq<Event>
    var subscribers: set<EventQueue>
    var completed: bool

    constructor (history: seq<Event>)
      ensures this.history == history && subscribers == {} && !completed
    {
      this.history, subscribers, completed := history, {}, false;
    }

    method Register(queue: EventQueue)
      modifies this`subscribers
      ensures subscribers == old(subscribers) + {queue}
    {
      subscribers := subscribers + {queue};
    }

    // The locked block of `_commit_and_publish` and the loop after it.
    method FanOut(event: Event)
      modifies this, subscribers
      ensures history == old(history) + [event] && completed == (old(completed) || event.completed)
      ensures subscribers == set q | q in old(subscribers) && old(q.HasRoom())
      ensures forall q | q in old(subscribers) ::
        q.items == if old(q.HasRoom()) then old(q.items) + [Some(event)] else old(q.items)[1..] + [None]
    {
      history := history + [event];
      if event.completed {
        completed := true;
      }
      var all := subscribers;
      var todo := all;
      while todo != {}
        invariant todo <= all == old(subscribers)
        invariant history == old(history) + [event] && completed == (old(completed) || event.completed)
        invariant subscribers == set q | q in all && (q in todo || old(q.HasRoom()))
        invariant forall q | q in todo :: q.items == old(q.items)
        invariant forall q | q in all && q !in todo ::
          q.items == if old(q.HasRoom()) then old(q.items) + [Some(event)] else old(q.items)[1..] + [None]
        decreases todo
      {
        var q :| q in todo;
        todo := todo - {q};
        if q.HasRoom() {
          q.items := q.items + [Some(event)];
        } else {
          subscribers := subscribers - {q};
          q.CloseAfterOverflow();
        }
      }
    }

    // `_close_run`: every queue still registered is sent the sentinel.
    method SendClose()
      modifies subscribers
      ensures forall q | q in subscribers ::
        q.items == if old(q.HasRoom()) then old(q.items) + [None] else old(q.items)[1..] + [None]
    {
      var todo := subscribers;
      while todo != {}
        invariant todo <= subscribers
        invariant forall q | q in todo :: q.items == old(q.items)
        invariant forall q | q in subscribers && q !in todo ::
          q.items == if old(q.HasRoom()) then old(q.items) + [None] else old(q.items)[1..] + [None]
        decreases todo
      {
        var q :| q in todo;
        todo := todo - {q};
        if q.HasRoom() {
          q.items := q.items + [None];
        } else {
          q.CloseAfterOverflow();
        }
      }
    }
  }

  // ------------------------------------------------------------------------------------------
  // The feed as a state machine
  // ------------------------------------------------------------------------------------------

  type SubId = nat

  // Log length and in-flight event when the sentinel was sent.
  datatype Closing = Closing(length: nat, owed: nat)

  datatype Sub = Sub(
    after: nat,                 // the client wants events with larger numbers
    since: nat,                 // log length when it was registered
    received: seq<Event>,       // taken from its queue
    pending: seq<Event>,        // in its queue
    replayed: Option<nat>,      // log length when it read the log
    registered: bool,
    closed: Option<Closing>,
    overflowed: bool
  )

  datatype Publisher = Idle | Committed(event: Event)

  datatype State = State(
    log: seq<Event>,
    outside: set<nat>,          // events that will never be fanned out
    live: bool,
    publisher: Publisher,
    subs: map<SubId, Sub>
  )

  datatype Step =
    | Commit(completed: bool, body: string)
    | FanOut
    | Abandon
    | CommitOutside(completed: bool, body: string)
    | GoLive
    | Close
    | Subscribe(sub: SubId, after: nat)
    | Replay(sub: SubId)
    | Take(sub: SubId)
    | Unsubscribe(sub: SubId)

  predicate Enabled(s: State, m: Step) {
    match m
    case Commit(_, _) => s.publisher.Idle?
    case FanOut => s.publisher.Committed?
    case Abandon => s.publisher.Committed?
    case CommitOutside(_, _) => true
    case GoLive => !s.live
    case Close => s.live
    case Subscribe(c, _) => c !in s.subs
    case Replay(c) => c in s.subs && s.subs[c].replayed.None?
    case Take(c) => c in s.subs && s.subs[c].pending != []
    case Unsubscribe(c) => c in s.subs
  }

  // put_nowait on one queue; a full queue is closed instead and loses its registration.
  function Put(sub: Sub, event: Event): Sub {
    if !sub.registered then sub
    else if |sub.pending| < HOST_EVENT_QUEUE_LIMIT then sub.(pending := sub.pending + [event])
    else sub.(pending := sub.pending[1..], registered := false, overflowed := true)
  }

  function Owed(p: Publisher): nat {
    if p.Committed? then p.event.number else 0
  }

  // The sentinel for one queue; a full queue loses its oldest item to it.
  function CloseSub(sub: Sub, length: nat, owed: nat): Sub {
    if !sub.registered then sub
    else if |sub.pending| < HOST_EVENT_QUEUE_LIMIT then sub.(registered := false, closed := Some(Closing(length, owed)))
    else sub.(pending := sub.pending[1..], registered := false, overflowed := true)
  }

  // What is in the queue object of a subscriber: its events, then the sentinel if it was sent.
  function Contents(sub: Sub): seq<Option<Event>> {
    seq(|sub.pending|, i requires 0 <= i < |sub.pending| => Some(sub.pending[i])) +
    if sub.overflowed || sub.closed.Some? then [None] else []
  }

  // What `LiveRun.FanOut` and `LiveRun.SendClose` do to one queue.
  function Pushed(items: seq<Option<Event>>, item: Option<Event>): seq<Option<Event>> {
    if |items| < HOST_EVENT_QUEUE_LIMIT then items + [item] else items[1..] + [None]
  }

  /** The subscribers of the state machine hold what the queue objects hold. */
  lemma {:induction false} QueuesAgree(sub: Sub, event: Event, length: nat, owed: nat)
    requires sub.registered && !sub.overflowed && sub.closed.None?
    ensures Contents(Put(sub, event)) == Pushed(Contents(sub), Some(event))
    ensures Contents(CloseSub(sub, length, owed)) == Pushed(Contents(sub), None)
    ensures Put(sub, event).registered <==> |Contents(sub)| < HOST_EVENT_QUEUE_LIMIT
  {
    assert |Contents(sub)| == |sub.pending|;
  }

  function Append(s: State, completed: bool, body: string): Event {
    Event(|s.log| + 1, completed, body)
  }

  function Next(s: State, m: Step): State
    requires Enabled(s, m)
  {
    match m
    case Commit(completed, body) =>
      var event := Append(s, completed, body);
      s.(log := s.log + [event], publisher := Committed(event))
    case FanOut =>
      var event := s.publisher.event;
      if s.live then s.(publisher := Idle, subs := map c | c in s.subs :: Put(s.subs[c], event))
      else s.(publisher := Idle, outside := s.outside + {event.number})
    case Abandon => s.(publisher := Idle, outside := s.outside + {s.publisher.event.number})
    case CommitOutside(completed, body) =>
      var event := Append(s, completed, body);
      s.(log := s.log + [event], outside := s.outside + {event.number})
    case GoLive => s.(live := true)
    case Close =>
      s.(live := false, subs := map c | c in s.subs :: CloseSub(s.subs[c], |s.log|, Owed(s.publisher)))
    case Subscribe(c, after) =>
      s.(subs := s.subs[c := Sub(after, |s.log|, [], [], None, s.live, None, false)])
    case Replay(c) => s.(subs := s.subs[c := s.subs[c].(replayed := Some(|s.log|))])
    case Take(c) =>
      var sub := s.subs[c];
      s.(subs := s.subs[c := sub.(received := sub.received + [sub.pending[0]], pending := sub.pending[1..])])
    case Unsubscribe(c) => s.(subs := s.subs[c := s.subs[c].(registered := false)])
  }

  predicate Legal(s: State, steps: seq<Step>)
    decreases |steps|
  {
    steps == [] || (Enabled(s, steps[0]) && Legal(Next(s, steps[0]), steps[1..]))
  }

  function After(s: State, steps: seq<Step>): State
    requires Legal(s, steps)
    decreases |steps|
  {
    if steps == [] then s else After(Next(s, steps[0]), steps[1..])
  }

  const EMPTY := State([], {}, false, Idle, map[])

  // ------------------------------------------------------------------------------------------
  // What every step keeps
  // ------------------------------------------------------------------------------------------

  predicate Numbered(log: seq<Event>) {
    forall i | 0 <= i < |log| :: log[i].number == i + 1
  }

  predicate InLog(log: seq<Event>, e: Event) {
    1 <= e.number <= |log| && log[e.number - 1] == e
  }

  predicate Increasing(q: seq<Event>) {
    forall i, j | 0 <= i < j < |q| :: q[i].number < q[j].number
  }

  function Delivered(sub: Sub): seq<Event> {
    sub.received + sub.pending
  }

  // What a queue got: log events in order, none that is never fanned out, none from the future.
  ghost predicate QueueSound(s: State, sub: Sub) {
    var q := Delivered(sub);
    && Increasing(q)
    && (forall i | 0 <= i < |q| :: InLog(s.log, q[i]) && q[i].number !in s.outside)
    && (s.publisher.Committed? ==> forall i | 0 <= i < |q| :: q[i].number < s.publisher.event.number)
  }

  // Event number n has to be in the queue of a client that was told everything up to `length`.
  ghost predicate Due(s: State, sub: Sub, length: nat, owed: nat, n: nat) {
    sub.since < n <= length && n !in s.outside && n != owed
  }

  ghost predicate Has(q: seq<Event>, n: nat) {
    exists i :: 0 <= i < |q| && q[i].number == n
  }

  ghost predicate QueueComplete(s: State, sub: Sub) {
    && (sub.registered ==> forall n: nat :: Due(s, sub, |s.log|, Owed(s.publisher), n) ==> Has(Delivered(sub), n))
    && (sub.closed.Some? ==> forall n: nat :: Due(s, sub, sub.closed.value.length, sub.closed.value.owed, n) ==> Has(Delivered(sub), n))
    && (sub.closed.Some? ==> forall i | 0 <= i < |Delivered(sub)| ::
          Delivered(sub)[i].number <= sub.closed.value.length && Delivered(sub)[i].number != sub.closed.value.owed)
  }

  ghost predicate SubOk(s: State, sub: Sub) {
    && sub.since <= |s.log|
    && (sub.replayed.Some? ==> sub.since <= sub.replayed.value <= |s.log|)
    && (sub.closed.Some? ==> sub.closed.value.length <= |s.log|)
    && (sub.registered ==> s.live && !sub.overflowed && sub.closed.None?)
    && (!sub.overflowed ==> QueueSound(s, sub) && QueueComplete(s, sub))
  }

  ghost predicate Invariant(s: State) {
    && Numbered(s.log)
    && (forall n | n in s.outside :: 1 <= n <= |s.log|)
    && (s.publisher.Committed? ==> InLog(s.log, s.publisher.event) && s.publisher.event.number !in s.outside)
    && (forall c | c in s.subs :: SubOk(s, s.subs[c]))
  }

  // Taking an item moves it from one part of the delivery to the other.
  lemma {:induction false} TakeKeepsDelivered(sub: Sub)
    requires sub.pending != []
    ensures Delivered(sub.(received := sub.received + [sub.pending[0]], pending := sub.pending[1..])) == Delivered(sub)
  {
  }

  lemma {:induction false} HasMore(q: seq<Event>, e: Event, n: nat)
    ensures Has(q, n) ==> Has(q + [e], n)
    ensures Has(q + [e], e.number)
  {
    if Has(q, n) {
      var i :| 0 <= i < |q| && q[i].number == n;
      assert (q + [e])[i].number == n;
    }
    assert (q + [e])[|q|].number == e.number;
  }

  lemma {:induction false} PutKeepsSub(s: State, sub: Sub)
    requires Invariant(s) && SubOk(s, sub) && s.publisher.Committed? && s.live
    ensures SubOk(Next(s, FanOut), Put(sub, s.publisher.event))
  {
    var event := s.publisher.event;
    var sub' := Put(sub, event);
    if sub.registered && |sub.pending| < HOST_EVENT_QUEUE_LIMIT {
      assert Delivered(sub') == Delivered(sub) + [event];
      forall n: nat | Due(Next(s, FanOut), sub', |s.log|, 0, n) ensures Has(Delivered(sub'), n) {
        HasMore(Delivered(sub), event, n);
        assert n != event.number ==> Due(s, sub, |s.log|, event.number, n);
      }
    }
  }

  lemma {:induction false} StepKeepsSub(s: State, m: Step, c: SubId)
    requires Invariant(s) && Enabled(s, m) && c in s.subs
    ensures SubOk(Next(s, m), Next(s, m).subs[c])
  {
    var t := Next(s, m);
    var sub := s.subs[c];
    match m
    case FanOut =>
      if s.live { PutKeepsSub(s, sub); } else { OutsideKeepsSub(s, t, sub); }
    case Abandon => OutsideKeepsSub(s, t, sub);
    case Commit(_, _) => GrowthKeepsSub(s, t, sub);
    case CommitOutside(_, _) => GrowthKeepsSub(s, t, sub);
    case Take(d) => if d == c { TakeKeepsDelivered(sub); }
    case Close => CloseKeepsSub(s, sub);
    case _ =>
  }

  lemma {:induction false} CloseKeepsSub(s: State, sub: Sub)
    requires Invariant(s) && SubOk(s, sub) && s.live
    ensures SubOk(Next(s, Close), CloseSub(sub, |s.log|, Owed(s.publisher)))
  {
    var t := Next(s, Close);
    var sub' := CloseSub(sub, |s.log|, Owed(s.publisher));
    if sub.registered && |sub.pending| < HOST_EVENT_QUEUE_LIMIT {
      assert Delivered(sub') == Delivered(sub);
      forall n: nat | Due(t, sub', |s.log|, Owed(s.publisher), n) ensures Has(Delivered(sub'), n) {
        assert Due(s, sub, |s.log|, Owed(s.publisher), n);
      }
    }
    if !sub.registered && sub.closed.Some? && !sub.overflowed {
      forall n: nat | Due(t, sub', sub.closed.value.length, sub.closed.value.owed, n) ensures Has(Delivered(sub'), n) {
        assert Due(s, sub, sub.closed.value.length, sub.closed.value.owed, n);
      }
    }
  }

  // The in-flight event joins those never fanned out; nobody has it in a queue.
  lemma {:induction false} OutsideKeepsSub(s: State, t: State, sub: Sub)
    requires Invariant(s) && SubOk(s, sub) && s.publisher.Committed?
    requires t == s.(publisher := Idle, outside := s.outside + {s.publisher.event.number})
    ensures SubOk(t, sub)
  {
    forall n: nat | Due(t, sub, |t.log|, 0, n) ensures Due(s, sub, |s.log|, Owed(s.publisher), n) {
    }
    if sub.closed.Some? {
      forall n: nat | Due(t, sub, sub.closed.value.length, sub.closed.value.owed, n)
        ensures Due(s, sub, sub.closed.value.length, sub.closed.value.owed, n) {
      }
    }
  }

  // One more event in the log that no queue has yet.
  lemma {:induction false} GrowthKeepsSub(s: State, t: State, sub: Sub)
    requires Invariant(s) && SubOk(s, sub)
    requires exists event :: (t.log == s.log + [event] && event.number == |s.log| + 1 && t.live == s.live
      && ((s.publisher.Idle? && t.publisher == Committed(event) && t.outside == s.outside)
          || (t.publisher == s.publisher && t.outside == s.outside + {event.number})))
    ensures SubOk(t, sub)
  {
    if sub.registered {
      forall n: nat | Due(t, sub, |t.log|, Owed(t.publisher), n) ensures Due(s, sub, |s.log|, Owed(s.publisher), n) {
      }
    }
    if sub.closed.Some? {
      forall n: nat | Due(t, sub, sub.closed.value.length, sub.closed.value.owed, n)
        ensures Due(s, sub, sub.closed.value.length, sub.closed.value.owed, n) {
      }
    }
  }

  lemma {:induction false} StepKeepsInvariant(s: State, m: Step)
    requires Invariant(s) && Enabled(s, m)
    ensures Invariant(Next(s, m))
  {
    var t := Next(s, m);
    forall c | c in t.subs ensures SubOk(t, t.subs[c]) {
      if c in s.subs { StepKeepsSub(s, m, c); }
    }
  }

  lemma {:induction false} RunsKeepInvariant(s: State, steps: seq<Step>)
    requires Invariant(s) && Legal(s, steps)
    ensures Invariant(After(s, steps))
    decreases |steps|
  {
    if steps != [] {
      StepKeepsInvariant(s, steps[0]);
      RunsKeepInvariant(Next(s, steps[0]), steps[1..]);
    }
  }

  // ------------------------------------------------------------------------------------------
  // What a client makes of replay and queue
  // ------------------------------------------------------------------------------------------

  // list_events_after
  function EventsAfter(log: seq<Event>, after: nat): seq<Event> {
    if after <= |log| then log[after..] else []
  }

  // Skip what the cursor has passed.
  function Fresh(cursor: nat, q: seq<Event>): seq<Event>
    decreases |q|
  {
    if q == [] then []
    else if q[0].number <= cursor then Fresh(cursor, q[1..])
    else [q[0]] + Fresh(q[0].number, q[1..])
  }

  function Max(a: nat, b: nat): nat {
    if a < b then b else a
  }

  // All a client emits: the replay read when the log had `length` events, then the fresh queue items.
  function Merged(log: seq<Event>, sub: Sub, length: nat): seq<Event>
    requires length <= |log|
  {
    EventsAfter(log[..length], sub.after) + Fresh(Max(sub.after, length), Delivered(sub))
  }

  function UpToCompleted(events: seq<Event>): seq<Event> {
    if events == [] then [] else if events[0].completed then [events[0]] else [events[0]] + UpToCompleted(events[1..])
  }

  // A client that has `all` before it gives out a prefix, up to and including the first completed event.
  predicate EndsAtCompleted(all: seq<Event>, out: seq<Event>) {
    && out <= all && (forall i | 0 <= i < |out| - 1 :: !out[i].completed)
    && (out == all || (out != [] && out[|out| - 1].completed))
  }

  lemma {:induction false} UpToCompletedEnds(events: seq<Event>)
    ensures EndsAtCompleted(events, UpToCompleted(events))
  {
    if events != [] && !events[0].completed {
      UpToCompletedEnds(events[1..]);
      assert events == [events[0]] + events[1..];
    }
  }

  /** The stream of backend/app/api/routes/agent.py: replay, then queue with a cursor; the first
      completed event ends it. */
  method StreamEvents(after: nat, replay: seq<Event>, queue: seq<Event>) returns (out: seq<Event>)
    requires forall i | 0 <= i < |replay| :: replay[i].number == after + i + 1
    ensures EndsAtCompleted(replay + Fresh(after + |replay|, queue), out)
    ensures out == UpToCompleted(replay + Fresh(after + |replay|, queue))
  {
    out := [];
    var cursor := after;
    var i := 0;
    ghost var all := replay + Fresh(after + |replay|, queue);
    while i < |replay|
      invariant 0 <= i <= |replay| && cursor == after + i
      invariant out == replay[..i]
      invariant UpToCompleted(all) == out + UpToCompleted(all[i..])
    {
      out := out + [replay[i]];
      cursor := replay[i].number;
      assert all[i] == replay[i] && all[i..][1..] == all[i + 1..];
      if replay[i].completed {
        UpToCompletedEnds(all);
        return;
      }
      i := i + 1;
    }
    assert all[|replay|..] == Fresh(cursor, queue);
    var rest := EmitFresh(cursor, queue);
    out := out + rest;
    UpToCompletedEnds(all);
  }

  method EmitFresh(after: nat, queue: seq<Event>) returns (out: seq<Event>)
    ensures out == UpToCompleted(Fresh(after, queue))
  {
    out := [];
    var cursor, i := after, 0;
    assert queue[0..] == queue;
    while i < |queue|
      invariant 0 <= i <= |queue|
      invariant UpToCompleted(Fresh(after, queue)) == out + UpToCompleted(Fresh(cursor, queue[i..]))
    {
      var event := queue[i];
      assert queue[i..][1..] == queue[i + 1..];
      if event.number > cursor {
        out := out + [event];
        cursor := event.number;
        if event.completed {
          return;
        }
      }
      i := i + 1;
    }
  }

  // Skip the numbers that were seen.
  function Unseen(seen: set<nat>, q: seq<Event>): seq<Event>
    decreases |q|
  {
    if q == [] then []
    else if q[0].number in seen then Unseen(seen, q[1..])
    else [q[0]] + Unseen(seen + {q[0].number}, q[1..])
  }

  /** The stream that answers a resumed question: the same with a set of seen numbers for a cursor. */
  method StreamUnseen(after: nat, replay: seq<Event>, queue: seq<Event>) returns (out: seq<Event>)
    requires forall i | 0 <= i < |replay| :: replay[i].number == after + i + 1
    ensures EndsAtCompleted(replay + Unseen(set e | e in replay :: e.number, queue), out)
    ensures out == UpToCompleted(replay + Unseen(set e | e in replay :: e.number, queue))
  {
    var seen := set e | e in replay :: e.number;
    ghost var all := replay + Unseen(seen, queue);
    out := [];
    var i := 0;
    while i < |replay|
      invariant 0 <= i <= |replay| && UpToCompleted(all) == out + UpToCompleted(all[i..])
    {
      out := out + [replay[i]];
      assert all[i] == replay[i] && all[i..][1..] == all[i + 1..];
      if replay[i].completed {
        UpToCompletedEnds(all);
        return;
      }
      i := i + 1;
    }
    assert all[|replay|..] == Unseen(seen, queue);
    var rest := EmitUnseen(seen, queue);
    out := out + rest;
    UpToCompletedEnds(all);
  }

  method EmitUnseen(before: set<nat>, queue: seq<Event>) returns (out: seq<Event>)
    ensures out == UpToCompleted(Unseen(before, queue))
  {
    out := [];
    var seen, i := before, 0;
    assert queue[0..] == queue;
    while i < |queue|
      invariant 0 <= i <= |queue|
      invariant UpToCompleted(Unseen(before, queue)) == out + UpToCompleted(Unseen(seen, queue[i..]))
    {
      var event := queue[i];
      assert queue[i..][1..] == queue[i + 1..];
      if event.number !in seen {
        seen := seen + {event.number};
        out := out + [event];
        if event.completed {
          return;
        }
      }
      i := i + 1;
    }
  }

  lemma {:induction false} UnseenIsFresh(seen: set<nat>, cursor: nat, q: seq<Event>)
    requires Increasing(q) && forall i | 0 <= i < |q| :: q[i].number in seen <==> q[i].number <= cursor
    ensures Unseen(seen, q) == Fresh(cursor, q)
    decreases |q|
  {
    if q != [] {
      assert forall i | 0 <= i < |q[1..]| :: q[1..][i] == q[i + 1];
      if q[0].number <= cursor {
        UnseenIsFresh(seen, cursor, q[1..]);
      } else {
        UnseenIsFresh(seen + {q[0].number}, q[0].number, q[1..]);
      }
    }
  }

  lemma {:induction false} UnseenKeepsOld(seen: set<nat>, q: seq<Event>, e: Event)
    requires Increasing(q) && e in q && e.number !in seen
    ensures e in Unseen(seen, q)
    decreases |q|
  {
    assert q == [q[0]] + q[1..];
    if e != q[0] {
      var i :| 0 <= i < |q[1..]| && q[1..][i] == e;
      assert q[i + 1].number > q[0].number;
      UnseenKeepsOld(if q[0].number in seen then seen else seen + {q[0].number}, q[1..], e);
    }
  }

  /** Both clients emit the same, exactly when the queue holds no event at or before the client's cursor. */
  lemma {:induction false} ClientsAgreeExactly(after: nat, replay: seq<Event>, q: seq<Event>)
    requires Increasing(q) && forall i | 0 <= i < |replay| :: replay[i].number == after + i + 1
    ensures Unseen(set e | e in replay :: e.number, q) == Fresh(after + |replay|, q) <==>
      forall i | 0 <= i < |q| :: q[i].number > after
  {
    var seen := set e | e in replay :: e.number;
    forall n: nat ensures n in seen <==> after < n <= after + |replay| {
      if after < n <= after + |replay| {
        assert replay[n - after - 1] in replay;
      }
    }
    if i :| 0 <= i < |q| && q[i].number <= after {
      UnseenKeepsOld(seen, q, q[i]);
      FreshOrder(after + |replay|, q);
      var emitted := Fresh(after + |replay|, q);
      assert q[i] !in emitted;
    } else {
      UnseenIsFresh(seen, after + |replay|, q);
    }
  }

  // ------------------------------------------------------------------------------------------
  // Main results
  // ------------------------------------------------------------------------------------------

  lemma {:induction false} FreshMember(cursor: nat, q: seq<Event>, e: Event)
    requires Increasing(q)
    ensures e in Fresh(cursor, q) <==> e in q && e.number > cursor
    decreases |q|
  {
    if q != [] {
      var next := if q[0].number <= cursor then cursor else q[0].number;
      FreshMember(next, q[1..], e);
      assert q == [q[0]] + q[1..];
      if e in q[1..] {
        var i :| 0 <= i < |q[1..]| && q[1..][i] == e;
        assert q[i + 1] == e;
      }
    }
  }

  lemma {:induction false} FreshOrder(cursor: nat, q: seq<Event>)
    ensures Increasing(Fresh(cursor, q)) && forall i | 0 <= i < |Fresh(cursor, q)| :: Fresh(cursor, q)[i].number > cursor
    decreases |q|
  {
    if q != [] {
      FreshOrder(if q[0].number <= cursor then cursor else q[0].number, q[1..]);
    }
  }

  // The events a client must see: everything its replay covers, and what was fanned out since.
  predicate Wanted(log: seq<Event>, outside: set<nat>, owed: nat, sub: Sub, replayed: nat, length: nat, e: Event) {
    InLog(log, e) && e.number > sub.after && e.number <= Max(replayed, length)
    && (e.number <= replayed || (e.number !in outside && e.number != owed))
  }

  lemma {:induction false} ReplayMember(log: seq<Event>, after: nat, e: Event)
    requires Numbered(log)
    ensures e in EventsAfter(log, after) <==> InLog(log, e) && e.number > after
  {
    var events := EventsAfter(log, after);
    if e in events {
      var i :| 0 <= i < |events| && events[i] == e;
      assert e == log[after + i];
    }
    if InLog(log, e) && e.number > after {
      assert events[e.number - 1 - after] == e;
    }
  }

  // Whether the client has been told, and up to where: registered, or sent the sentinel.
  predicate Told(s: State, sub: Sub, length: nat, owed: nat) {
    || (sub.registered && length == |s.log| && owed == Owed(s.publisher))
    || (sub.closed.Some? && sub.closed.value == Closing(length, owed))
  }

  lemma {:induction false} QueueMember(s: State, sub: Sub, length: nat, owed: nat, e: Event)
    requires Invariant(s) && SubOk(s, sub) && !sub.overflowed && Told(s, sub, length, owed)
    ensures e in Delivered(sub) ==> InLog(s.log, e) && e.number !in s.outside && e.number <= length && e.number != owed
    ensures InLog(s.log, e) && Due(s, sub, length, owed, e.number) ==> e in Delivered(sub)
  {
    var q := Delivered(sub);
    if e in q {
      var i :| 0 <= i < |q| && q[i] == e;
    }
    if InLog(s.log, e) && Due(s, sub, length, owed, e.number) {
      var i :| 0 <= i < |q| && q[i].number == e.number;
      assert q[i] in q && InLog(s.log, q[i]);
    }
  }

  lemma {:induction false} MergedMember(s: State, sub: Sub, length: nat, owed: nat, e: Event)
    requires Invariant(s) && SubOk(s, sub) && !sub.overflowed && sub.replayed.Some? && Told(s, sub, length, owed)
    ensures e in Merged(s.log, sub, sub.replayed.value)
      <==> Wanted(s.log, s.outside, owed, sub, sub.replayed.value, length, e)
  {
    var r := sub.replayed.value;
    ReplayMember(s.log[..r], sub.after, e);
    FreshMember(Max(sub.after, r), Delivered(sub), e);
    QueueMember(s, sub, length, owed, e);
  }

  lemma {:induction false} MergedOrder(log: seq<Event>, sub: Sub, length: nat)
    requires Numbered(log) && length <= |log|
    ensures Increasing(Merged(log, sub, length))
  {
    var replay := EventsAfter(log[..length], sub.after);
    assert forall i | 0 <= i < |replay| :: replay[i].number == sub.after + i + 1;
    FreshOrder(Max(sub.after, length), Delivered(sub));
  }

  lemma {:induction false} WhatIsMerged(s: State, sub: Sub, length: nat, owed: nat)
    requires Invariant(s) && SubOk(s, sub) && !sub.overflowed && sub.replayed.Some? && Told(s, sub, length, owed)
    ensures Increasing(Merged(s.log, sub, sub.replayed.value))
    ensures forall e ::
      (e in Merged(s.log, sub, sub.replayed.value) <==> Wanted(s.log, s.outside, owed, sub, sub.replayed.value, length, e))
  {
    MergedOrder(s.log, sub, sub.replayed.value);
    forall e ensures e in Merged(s.log, sub, sub.replayed.value)
      <==> Wanted(s.log, s.outside, owed, sub, sub.replayed.value, length, e)
    {
      MergedMember(s, sub, length, owed, e);
    }
  }

  /** What any client sees, under every interleaving: its replay and queue merge to exactly the events
      after its cursor that the replay covered or that were fanned out, in order and none twice. */
  lemma {:induction false} ClientsSeeExactly(steps: seq<Step>, c: SubId)
    requires Legal(EMPTY, steps)
    requires var s := After(EMPTY, steps);
      c in s.subs && s.subs[c].registered && s.subs[c].replayed.Some?
    ensures var s := After(EMPTY, steps); var sub := s.subs[c]; var r := sub.replayed.value;
      && r <= |s.log|
      && var out := Merged(s.log, sub, r);
         && Increasing(out)
         && forall e :: e in out <==> Wanted(s.log, s.outside, Owed(s.publisher), sub, r, |s.log|, e)
  {
    RunsKeepInvariant(EMPTY, steps);
    var s := After(EMPTY, steps);
    WhatIsMerged(s, s.subs[c], |s.log|, Owed(s.publisher));
  }

  // A number the client wants and did not get from the log.
  predicate Skipped(sub: Sub, n: nat) {
    n > sub.after && sub.replayed.Some? && n > sub.replayed.value
  }

  lemma {:induction false} SameEventsSameOrder(a: seq<Event>, b: seq<Event>)
    requires Increasing(a) && Increasing(b) && forall e :: e in a <==> e in b
    ensures a == b
  {
    assert (a != [] ==> a[0] in b) && (b != [] ==> b[0] in a);
    if a != [] && b != [] {
      assert a == [a[0]] + a[1..] && b == [b[0]] + b[1..];
      assert a[0] == b[0];
      forall e ensures e in a[1..] <==> e in b[1..] {
        assert e in a[1..] ==> e in a && e.number > a[0].number;
        assert e in b[1..] ==> e in b && e.number > b[0].number;
      }
      SameEventsSameOrder(a[1..], b[1..]);
    }
  }

  lemma {:induction false} EventsAfterOrder(log: seq<Event>, after: nat)
    requires Numbered(log)
    ensures Increasing(EventsAfter(log, after))
  {
  }

  lemma {:induction false} GapFreeUnlessSkipped(s: State, sub: Sub)
    requires Invariant(s) && SubOk(s, sub) && sub.registered && sub.replayed.Some? && s.publisher.Idle?
    ensures Merged(s.log, sub, sub.replayed.value) == EventsAfter(s.log, sub.after)
      <==> forall n | n in s.outside :: !Skipped(sub, n)
  {
    var r := sub.replayed.value;
    var out, all := Merged(s.log, sub, r), EventsAfter(s.log, sub.after);
    if n :| n in s.outside && Skipped(sub, n) {
      var e := s.log[n - 1];
      MergedMember(s, sub, |s.log|, 0, e);
      ReplayMember(s.log, sub.after, e);
    } else {
      forall e ensures e in out <==> e in all {
        MergedMember(s, sub, |s.log|, 0, e);
        ReplayMember(s.log, sub.after, e);
      }
      MergedOrder(s.log, sub, r);
      EventsAfterOrder(s.log, sub.after);
      SameEventsSameOrder(out, all);
    }
  }

  /** Gap-free delivery, and exactly when: with no publish in flight, a registered client whose queue
      did not overflow has the committed events after its cursor, all of them and in order, if and
      only if nothing was committed without fan-out after it read the log. */
  lemma {:induction false} DeliveryIsGapFree(steps: seq<Step>, c: SubId)
    requires Legal(EMPTY, steps)
    requires var s := After(EMPTY, steps);
      c in s.subs && s.subs[c].registered && s.subs[c].replayed.Some? && s.publisher.Idle?
    ensures var s := After(EMPTY, steps); var sub := s.subs[c];
      && sub.replayed.value <= |s.log|
      && (Merged(s.log, sub, sub.replayed.value) == EventsAfter(s.log, sub.after)
          <==> forall n | n in s.outside :: !Skipped(sub, n))
  {
    RunsKeepInvariant(EMPTY, steps);
    GapFreeUnlessSkipped(After(EMPTY, steps), After(EMPTY, steps).subs[c]);
  }

  // What the stream of a client gives out, once it has read the replay and taken all its queue holds.
  function Output(s: State, sub: Sub): seq<Event>
    requires sub.replayed.Some? && sub.replayed.value <= |s.log|
  {
    var replay := EventsAfter(s.log[..sub.replayed.value], sub.after);
    UpToCompleted(replay + Fresh(sub.after + |replay|, Delivered(sub)))
  }

  /** Hence the stream of such a client ends the way the run does: it gives out the log after its cursor, up to
      and including the first completed event. */
  lemma {:induction false} StreamsEndWithTheRun(steps: seq<Step>, c: SubId)
    requires Legal(EMPTY, steps)
    requires var s := After(EMPTY, steps);
      && c in s.subs && s.subs[c].registered && s.subs[c].replayed.Some? && s.publisher.Idle?
      && forall n | n in s.outside :: !Skipped(s.subs[c], n)
    ensures var s := After(EMPTY, steps); var sub := s.subs[c];
      sub.replayed.value <= |s.log| && EndsAtCompleted(EventsAfter(s.log, sub.after), Output(s, sub))
  {
    DeliveryIsGapFree(steps, c);
    var s := After(EMPTY, steps);
    UpToCompletedEnds(Merged(s.log, s.subs[c], s.subs[c].replayed.value));
  }

  // ------------------------------------------------------------------------------------------
  // Runs that nobody disturbs
  // ------------------------------------------------------------------------------------------

  // Nothing is committed past the fan-out, the run stays live, and client c stays subscribed.
  predicate Undisturbed(steps: seq<Step>, c: SubId) {
    forall m | m in steps :: !m.CommitOutside? && !m.Abandon? && !m.Close? && m != Unsubscribe(c)
  }

  // Every queue has room for the whole log.
  predicate Calm(s: State, c: SubId) {
    && s.live && s.outside == {} && (s.publisher.Committed? ==> s.log != []) && (c in s.subs ==> s.subs[c].registered)
    && (c in s.subs ==> |s.subs[c].pending| + (if s.publisher.Committed? then 1 else 0) <= |s.log|)
  }

  lemma {:induction false} StepStaysCalm(s: State, m: Step, c: SubId)
    requires Calm(s, c) && Enabled(s, m) && Undisturbed([m], c) && |s.log| <= HOST_EVENT_QUEUE_LIMIT
    ensures Calm(Next(s, m), c)
  {
    assert m in [m];
  }

  lemma {:induction false} LogGrows(s: State, steps: seq<Step>)
    requires Legal(s, steps)
    ensures |s.log| <= |After(s, steps).log|
    decreases |steps|
  {
    if steps != [] {
      LogGrows(Next(s, steps[0]), steps[1..]);
    }
  }

  lemma {:induction false} RunsStayCalm(s: State, steps: seq<Step>, c: SubId)
    requires Calm(s, c) && Legal(s, steps) && Undisturbed(steps, c) && |After(s, steps).log| <= HOST_EVENT_QUEUE_LIMIT
    ensures Calm(After(s, steps), c)
    decreases |steps|
  {
    if steps != [] {
      LogGrows(s, steps);
      assert steps[0] in steps && forall m | m in steps[1..] :: m in steps;
      StepStaysCalm(s, steps[0], c);
      RunsStayCalm(Next(s, steps[0]), steps[1..], c);
    }
  }

  /** If nobody disturbs a live run, and it has no more events than a queue holds, then every client that
      subscribed at any point and has read the log gets everything after its cursor. */
  lemma {:induction false} UndisturbedClientsGetAll(steps: seq<Step>, c: SubId)
    requires Legal(EMPTY, [GoLive] + steps) && Undisturbed(steps, c)
    requires var s := After(EMPTY, [GoLive] + steps);
      |s.log| <= HOST_EVENT_QUEUE_LIMIT && c in s.subs && s.subs[c].replayed.Some? && s.publisher.Idle?
    ensures var s := After(EMPTY, [GoLive] + steps); var sub := s.subs[c];
      && sub.replayed.value <= |s.log|
      && Merged(s.log, sub, sub.replayed.value) == EventsAfter(s.log, sub.after)
      && EndsAtCompleted(EventsAfter(s.log, sub.after), Output(s, sub))
  {
    assert ([GoLive] + steps)[1..] == steps;
    RunsStayCalm(Next(EMPTY, GoLive), steps, c);
    DeliveryIsGapFree([GoLive] + steps, c);
    StreamsEndWithTheRun([GoLive] + steps, c);
  }

  /** A client that was sent the close sentinel has everything up to that point, again except what was
      never fanned out and a publish that was in flight. */
  lemma {:induction false} ClosedClientsHaveTheRest(steps: seq<Step>, c: SubId)
    requires Legal(EMPTY, steps)
    requires var s := After(EMPTY, steps);
      c in s.subs && s.subs[c].closed.Some? && s.subs[c].replayed.Some? && !s.subs[c].overflowed
    ensures var s := After(EMPTY, steps); var sub := s.subs[c];
      && sub.replayed.value <= |s.log|
      && Increasing(Merged(s.log, sub, sub.replayed.value))
      && forall e :: e in Merged(s.log, sub, sub.replayed.value) <==>
           Wanted(s.log, s.outside, sub.closed.value.owed, sub, sub.replayed.value, sub.closed.value.length, e)
  {
    RunsKeepInvariant(EMPTY, steps);
    var s := After(EMPTY, steps);
    WhatIsMerged(s, s.subs[c], s.subs[c].closed.value.length, s.subs[c].closed.value.owed);
  }

  const MISSED: seq<Step> := [GoLive, Subscribe(1, 0), Replay(1), CommitOutside(true, "failed")]

  /** The condition is needed: a run failed from outside ends in an event that a live client never gets. */
  lemma {:induction false} OutsideEventIsMissed()
    ensures Legal(EMPTY, MISSED)
    ensures var s := After(EMPTY, MISSED); var sub := s.subs[1];
      && sub.registered && sub.replayed.Some? && sub.replayed.value <= |s.log|
      && Merged(s.log, sub, sub.replayed.value) == [] && |EventsAfter(s.log, sub.after)| == 1
  {
    var s1 := Next(EMPTY, GoLive);
    var s2 := Next(s1, Subscribe(1, 0));
    var s3 := Next(s2, Replay(1));
    var s4 := Next(s3, CommitOutside(true, "failed"));
    assert MISSED[1..] == [Subscribe(1, 0), Replay(1), CommitOutside(true, "failed")];
    assert MISSED[1..][1..] == [Replay(1), CommitOutside(true, "failed")];
    assert MISSED[1..][1..][1..] == [CommitOutside(true, "failed")];
    assert MISSED[1..][1..][1..][1..] == [];
    assert After(s3, [CommitOutside(true, "failed")]) == s4;
    assert s4.log[..0] == [] && Delivered(s4.subs[1]) == [];
  }
}
