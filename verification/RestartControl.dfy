/**
The client half of the drain protocol (process_control.py) and the whole protocol together:
any number of restart guards, one service, requests that are answered late, lost, or processed
after the client has given up.
*/
module RestartControl {
  import opened Common
  import opened Lifecycle

  // ------------------------------------------------------------------------------------------
  // One guard: the polling loop of restart_guard and the restart built on it
  // ------------------------------------------------------------------------------------------

  // What one POST comes back with, and the clock read after it.
  datatype Poll =
    | Answer(ready: bool, drained: bool, now: real)
    | Failure                                     // connection error, refusal, or a foreign reply

  datatype Request = Post | Delete

  datatype Verdict = Waiting | Admitted | Stopped

  predicate Waits(p: Poll, deadline: real) {
    p.Answer? && p.ready && !p.drained && p.now < deadline
  }

  predicate Grants(p: Poll) {
    p.Answer? && p.ready && p.drained
  }

  // The first poll that does not keep the loop waiting decides.
  predicate DecidedAt(polls: seq<Poll>, deadline: real, i: nat) {
    i < |polls| && !Waits(polls[i], deadline) && forall j | 0 <= j < i :: Waits(polls[j], deadline)
  }

  lemma {:induction false} DecidedOnce(polls: seq<Poll>, deadline: real, i: nat)
    requires DecidedAt(polls, deadline, i)
    ensures forall j: nat :: DecidedAt(polls, deadline, j) ==> j == i
  {
    forall j: nat | DecidedAt(polls, deadline, j) ensures j == i {
      assert !Waits(polls[j], deadline);
    }
  }

  function Posts(n: nat): (r: seq<Request>)
    ensures |r| == n && forall i | 0 <= i < n :: r[i] == Post
  {
    seq(n, i => Post)
  }

  // The polls before i found the backend ready and busy, in time.
  predicate BusyBefore(polls: seq<Poll>, deadline: real, i: nat) {
    forall j | 0 <= j < i && j < |polls| :: polls[j].Answer? && polls[j].ready && !polls[j].drained && polls[j].now < deadline
  }

  /** The loop of `restart_guard` against a script of replies, up to the point where it yields. */
  method RestartGuard(polls: seq<Poll>, deadline: real) returns (verdict: Verdict, sent: seq<Request>)
    ensures verdict == Admitted <==> exists i: nat :: DecidedAt(polls, deadline, i) && Grants(polls[i])
    ensures verdict == Stopped <==> exists i: nat :: DecidedAt(polls, deadline, i) && !Grants(polls[i])
    ensures forall i: nat :: DecidedAt(polls, deadline, i) ==>
      sent == Posts(i + 1) + (if Grants(polls[i]) then [] else [Delete])
    ensures verdict == Waiting ==> sent == Posts(|polls|)
    ensures verdict == Admitted <==>
      exists i: nat :: i < |polls| && BusyBefore(polls, deadline, i) && polls[i].Answer? && polls[i].ready && polls[i].drained
    ensures verdict == Waiting <==> BusyBefore(polls, deadline, |polls|)
  {
    var n := 0;
    sent := [];
    while n < |polls|
      invariant 0 <= n <= |polls|
      invariant forall j | 0 <= j < n :: Waits(polls[j], deadline)
      invariant sent == Posts(n)
    {
      var poll := polls[n];
      sent := sent + [Post];
      assert sent == Posts(n + 1);
      if Grants(poll) {
        DecidedOnce(polls, deadline, n);
        return Admitted, sent;
      }
      if !Waits(poll, deadline) {
        DecidedOnce(polls, deadline, n);
        return Stopped, sent + [Delete];
      }
      n := n + 1;
    }
    verdict := Waiting;
  }

  // How a call of stop_service or start_service ends.
  datatype Outcome = Succeeds | Fails | Raises

  datatype Act = Send(request: Request) | StopProcess | StartProcess

  function Sends(requests: seq<Request>): (r: seq<Act>)
    ensures |r| == |requests| && forall i | 0 <= i < |r| :: r[i] == Send(requests[i])
  {
    seq(|requests|, i requires 0 <= i < |requests| => Send(requests[i]))
  }

  // What the with-block of an admitted restart does to the process.
  function ProcessCalls(stop: Outcome): seq<Act> {
    if stop == Succeeds then [StopProcess, StartProcess] else [StopProcess]
  }

  /** `restart_service` for the backend without `--force`, once the guard has decided.  `acts` is
      everything it does, in order: the polls; stop and then start, if admitted and only as far as the
      stop succeeds; and last, on every path and just once, the DELETE. */
  method RestartService(polls: seq<Poll>, deadline: real, stop: Outcome, start: Outcome)
    returns (result: Outcome, acts: seq<Act>)
    requires exists i: nat :: DecidedAt(polls, deadline, i)
    ensures forall i: nat :: DecidedAt(polls, deadline, i) ==>
      && acts == Sends(Posts(i + 1)) + (if Grants(polls[i]) then ProcessCalls(stop) else []) + [Send(Delete)]
      && result == if !Grants(polls[i]) then Fails else if stop == Succeeds then start else stop
  {
    var verdict, sent := RestartGuard(polls, deadline);
    acts := Sends(sent);
    if verdict != Admitted {
      forall i: nat | DecidedAt(polls, deadline, i)
        ensures !Grants(polls[i]) && acts == Sends(Posts(i + 1)) + [] + [Send(Delete)]
      {
      }
      return Fails, acts;
    }
    acts := acts + [StopProcess];
    result := stop;
    if stop == Succeeds {
      acts := acts + [StartProcess];
      result := start;
    }
    acts := acts + [Send(Delete)];
    forall i: nat | DecidedAt(polls, deadline, i)
      ensures Grants(polls[i]) && acts == Sends(Posts(i + 1)) + ProcessCalls(stop) + [Send(Delete)]
    {
    }
  }

  // ------------------------------------------------------------------------------------------
  // The protocol: many guards, one service
  // ------------------------------------------------------------------------------------------

  datatype Phase =
    | Polling
    | Answered(drained: bool, lease: real)    // the reply is on its way back; the lease it was given
    | Holding(lease: real)                    // restart_guard has yielded True
    | Ended                                   // it has given up or left the with-block

  // Every guard has its own owner name (a fresh uuid).
  datatype System = System(service: Service, now: real, guards: map<Owner, Phase>)

  datatype Move =
    | Work(current: Option<Key>, continuation: bool, key: Key)  // any acquire, from any context whatever
    | Done(key: Key)
    | Open(guard: Owner)
    | PostServed(guard: Owner)          // the service handles a poll the guard is waiting for
    | ReplyRead(guard: Owner)           // the guard reads the reply
    | GiveUp(guard: Owner)              // timeout, error or not-ready reply
    | CancelServed(guard: Owner)        // the DELETE of a guard that gave up or left
    | Leave(guard: Owner)               // end of the with-block of an admitted guard
    | StrayPost(guard: Owner)           // a poll handled after its client stopped waiting for it
    | Pass(delta: real)

  predicate Possible(s: System, m: Move) {
    match m
    case Work(_, _, key) => key !in s.service.work
    case Open(g) => g !in s.guards
    case PostServed(g) => g in s.guards && s.guards[g] == Polling
    case ReplyRead(g) => g in s.guards && s.guards[g].Answered?
    case GiveUp(g) => g in s.guards && (s.guards[g] == Polling || s.guards[g].Answered?)
    case CancelServed(g) => g in s.guards && s.guards[g] == Ended
    case Leave(g) => g in s.guards && s.guards[g].Holding?
    case StrayPost(g) => g in s.guards
    case Pass(d) => d >= 0.0
    case Done(_) => true
  }

  function Next(s: System, m: Move): System
    requires Possible(s, m)
  {
    match m
    case Work(current, continuation, key) =>
      s.(service := Acquire(s.service, s.now, current, "work", continuation, key))
    case Done(key) => s.(service := Release(s.service, key))
    case Open(g) => s.(guards := s.guards[g := Polling])
    case PostServed(g) =>
      if OwnedByOther(s.service, s.now, g) then s.(guards := s.guards[g := Ended])  // 409 ends the loop
      else
        var service := BeginDrain(s.service, s.now, g);
        s.(service := service,
           guards := s.guards[g := Answered(View(service, s.now).drained, service.expiresAt)])
    case ReplyRead(g) =>
      s.(guards := s.guards[g := if s.guards[g].drained then Holding(s.guards[g].lease) else Polling])
    case GiveUp(g) => s.(guards := s.guards[g := Ended])
    case CancelServed(g) => s.(service := CancelDrain(s.service, s.now, g))
    case Leave(g) => s.(guards := s.guards[g := Ended])
    case StrayPost(g) => s.(service := BeginDrain(s.service, s.now, g))
    case Pass(d) => s.(now := s.now + d)
  }

  predicate Legal(s: System, moves: seq<Move>)
    decreases |moves|
  {
    moves == [] || (Possible(s, moves[0]) && Legal(Next(s, moves[0]), moves[1..]))
  }

  function Play(s: System, moves: seq<Move>): System
    requires Legal(s, moves)
    decreases |moves|
  {
    if moves == [] then s else Play(Next(s, moves[0]), moves[1..])
  }

  const IDLE := System(Service(map[], None, 0.0), 0.0, map[])

  // The lease promised by a drained reply that the guard still relies on.
  predicate ReliesOn(p: Phase, now: real) {
    (p.Holding? && now < p.lease) || (p.Answered? && p.drained && now < p.lease)
  }

  predicate Safe(s: System) {
    && s.service.expiresAt <= s.now + LEASE_SECONDS
    && forall g | g in s.guards && ReliesOn(s.guards[g], s.now) ::
         s.service.owner == Some(g) && s.guards[g].lease <= s.service.expiresAt && s.service.work == map[]
  }

  lemma {:induction false} MoveKeepsSafe(s: System, m: Move)
    requires Safe(s) && Possible(s, m)
    ensures Safe(Next(s, m))
  {
    var t := Next(s, m);
    forall g | g in t.guards && ReliesOn(t.guards[g], t.now)
      ensures t.service.owner == Some(g) && t.guards[g].lease <= t.service.expiresAt && t.service.work == map[]
    {
      assert g in s.guards && s.guards[g] == t.guards[g] ==> ReliesOn(s.guards[g], s.now);
    }
  }

  lemma {:induction false} PlayKeepsSafe(s: System, moves: seq<Move>)
    requires Safe(s) && Legal(s, moves)
    ensures Safe(Play(s, moves))
    decreases |moves|
  {
    if moves != [] {
      MoveKeepsSafe(s, moves[0]);
      PlayKeepsSafe(Next(s, moves[0]), moves[1..]);
    }
  }

  /** Drain safety: from the drained reply on, and as long as the lease it came with has not run out,
      no work exists and nothing admits any, whatever the service, other guards and stray requests do. */
  lemma {:induction false} AdmittedGuardSeesNoWork(moves: seq<Move>, g: Owner, m: Move)
    requires Legal(IDLE, moves)
    requires g in Play(IDLE, moves).guards && ReliesOn(Play(IDLE, moves).guards[g], Play(IDLE, moves).now)
    ensures var s := Play(IDLE, moves);
      && s.service.work == map[] && Draining(s.service, s.now)
      && (Possible(s, m) && !m.Pass? ==>
            Next(s, m).service.work == map[] && Draining(Next(s, m).service, s.now))
  {
    PlayKeepsSafe(IDLE, moves);
  }

  lemma {:induction false} FirstMove(s: System, m: Move, rest: seq<Move>)
    requires Possible(s, m) && Legal(Next(s, m), rest)
    ensures Legal(s, [m] + rest) && Play(s, [m] + rest) == Play(Next(s, m), rest)
  {
    assert ([m] + rest)[1..] == rest;
  }

  function OnePoll(g: Owner): seq<Move> {
    [PostServed(g)] + ([ReplyRead(g)] + [])
  }

  /** A guard that polls while nobody else holds a lease gets one for 30 seconds: it goes on polling while there is
      work, and is let in as soon as there is none. */
  lemma {:induction false} PollIsAnswered(s: System, g: Owner)
    requires g in s.guards && s.guards[g] == Polling
    requires s.service.owner == None || s.service.owner == Some(g) || s.now >= s.service.expiresAt
    ensures Legal(s, OnePoll(g))
    ensures var t := Play(s, OnePoll(g));
      && t.service == Service(s.service.work, Some(g), s.now + 30.0)
      && g in t.guards && t.guards[g] == if s.service.work == map[] then Holding(s.now + 30.0) else Polling
  {
    FirstMove(Next(s, PostServed(g)), ReplyRead(g), []);
    FirstMove(s, PostServed(g), [ReplyRead(g)] + []);
  }

  /** A guard that gives up, at whatever point, leaves no drain of its own behind once its DELETE is handled. */
  lemma {:induction false} GivingUpEndsTheDrain(s: System, g: Owner, key: Key)
    requires g in s.guards && (s.guards[g] == Polling || s.guards[g].Answered?) && key !in s.service.work
    requires s.service.owner == Some(g) || s.service.owner == None || s.now >= s.service.expiresAt
    ensures Legal(s, [GiveUp(g)] + ([CancelServed(g)] + ([Work(None, false, key)] + [])))
    ensures key in Play(s, [GiveUp(g)] + ([CancelServed(g)] + ([Work(None, false, key)] + []))).service.work
  {
    var s1 := Next(s, GiveUp(g));
    var s2 := Next(s1, CancelServed(g));
    FirstMove(s2, Work(None, false, key), []);
    FirstMove(s1, CancelServed(g), [Work(None, false, key)] + []);
    FirstMove(s, GiveUp(g), [CancelServed(g)] + ([Work(None, false, key)] + []));
  }

  /** A poll that is handled only after its guard has gone keeps work out, but no longer than a lease lasts. */
  lemma {:induction false} StrayPollsRunOut(s: System, g: Owner, key: Key, passed: real)
    requires g in s.guards && s.guards[g] == Ended && key !in s.service.work && passed >= 0.0
    requires s.service.owner == None || s.now >= s.service.expiresAt
    ensures Legal(s, [StrayPost(g)] + ([Pass(passed)] + ([Work(None, false, key)] + [])))
    ensures key in Play(s, [StrayPost(g)] + ([Pass(passed)] + ([Work(None, false, key)] + []))).service.work <==> passed >= 30.0
  {
    var s1 := Next(s, StrayPost(g));
    var s2 := Next(s1, Pass(passed));
    FirstMove(s2, Work(None, false, key), []);
    FirstMove(s1, Pass(passed), [Work(None, false, key)] + []);
    FirstMove(s, StrayPost(g), [Pass(passed)] + ([Work(None, false, key)] + []));
  }

  /** A new guard starts to poll, and work that is done is gone from the service. */
  lemma {:induction false} OpenAndDone(s: System, g: Owner, key: Key)
    requires g !in s.guards
    ensures Next(s, Open(g)) == s.(guards := s.guards[g := Polling])
    ensures Next(s, Done(key)).service.work == s.service.work - {key} && Next(s, Done(key)).guards == s.guards
  {
  }

  /** Once an admitted guard has left and its DELETE is handled, work is admitted again. */
  lemma {:induction false} LeavingEndsTheDrain(s: System, g: Owner, key: Key)
    requires g in s.guards && s.guards[g].Holding? && key !in s.service.work
    requires s.service.owner == Some(g) || s.service.owner == None || s.now >= s.service.expiresAt
    ensures Legal(s, [Move.Leave(g)] + ([CancelServed(g)] + ([Work(None, false, key)] + [])))
    ensures key in Play(s, [Move.Leave(g)] + ([CancelServed(g)] + ([Work(None, false, key)] + []))).service.work
  {
    var s1 := Next(s, Move.Leave(g));
    var s2 := Next(s1, CancelServed(g));
    FirstMove(s2, Work(None, false, key), []);
    FirstMove(s1, CancelServed(g), [Work(None, false, key)] + []);
    FirstMove(s, Move.Leave(g), [CancelServed(g)] + ([Work(None, false, key)] + []));
  }

  /** Two guards are never both inside the restart under live leases. */
  lemma {:induction false} OneGuardAtATime(moves: seq<Move>, g: Owner, h: Owner)
    requires Legal(IDLE, moves)
    requires var s := Play(IDLE, moves);
      g in s.guards && h in s.guards && ReliesOn(s.guards[g], s.now) && ReliesOn(s.guards[h], s.now)
    ensures g == h
  {
    PlayKeepsSafe(IDLE, moves);
  }

  /** A losing guard's DELETE leaves the winner's lease alone. */
  lemma {:induction false} LoserCannotCancelWinner(moves: seq<Move>, winner: Owner, loser: Owner)
    requires Legal(IDLE, moves) && winner != loser
    requires var s := Play(IDLE, moves);
      && winner in s.guards && ReliesOn(s.guards[winner], s.now)
      && loser in s.guards && s.guards[loser] == Ended
    ensures var s := Play(IDLE, moves); Next(s, CancelServed(loser)) == s
  {
    PlayKeepsSafe(IDLE, moves);
  }
}
