/**
Admission and drain protocol of one service process
(backend/app/services/lifecycle_service.py).

`Service` is the state of the service object and `Acquire`, `Release`, `BeginDrain` and `CancelDrain`
say what one call does to it; class `LifecycleService` is the object itself.
`World` adds what the object does not see: the clock, the tasks with their context variable, and
who holds which work key.  A run of the system is any sequence of `Action`s.
*/
module Lifecycle {
  import opened Common

  type Key = nat
  type Owner = string
  type TaskId = nat

  const LEASE_SECONDS := 30.0

  datatype Service = Service(work: map<Key, string>, owner: Option<Owner>, expiresAt: real)

  datatype Snapshot = Snapshot(draining: bool, drained: bool)

  datatype Refusal = ServiceDraining | OtherOwner

  predicate Draining(s: Service, now: real) {
    s.owner.Some? && now < s.expiresAt
  }

  // Reading `draining` clears an owner whose lease has run out.
  function Expire(s: Service, now: real): Service {
    if s.owner.Some? && now >= s.expiresAt then s.(owner := None) else s
  }

  predicate Admits(s: Service, now: real, current: Option<Key>, continuation: bool) {
    || !Draining(s, now)
    || (current.Some? && current.value in s.work)
    || (continuation && s.work != map[])
  }

  function Acquire(s: Service, now: real, current: Option<Key>, kind: string, continuation: bool, key: Key): Service {
    var e := Expire(s, now);
    if Admits(s, now, current, continuation) then e.(work := e.work[key := kind]) else e
  }

  function Release(s: Service, key: Key): Service {
    s.(work := s.work - {key})
  }

  predicate OwnedByOther(s: Service, now: real, owner: Owner) {
    Draining(s, now) && s.owner != Some(owner)
  }

  function BeginDrain(s: Service, now: real, owner: Owner): Service {
    if OwnedByOther(s, now, owner) then s else s.(owner := Some(owner), expiresAt := now + LEASE_SECONDS)
  }

  function CancelDrain(s: Service, now: real, owner: Owner): Service {
    if OwnedByOther(s, now, owner) then s else s.(owner := None)
  }

  function View(s: Service, now: real): Snapshot {
    Snapshot(Draining(s, now), Draining(s, now) && s.work == map[])
  }

  /** The service object.  The clock reading and the new key are parameters. */
  class LifecycleService {
    var work: map<Key, string>
    var owner: Option<Owner>
    var expiresAt: real

    ghost function Model(): Service
      reads this
    {
      Service(work, owner, expiresAt)
    }

    constructor ()
      ensures Model() == Service(map[], None, 0.0)
    {
      work, owner, expiresAt := map[], None, 0.0;
    }

    method IsDraining(now: real) returns (draining: bool)
      modifies this`owner
      ensures Model() == Expire(old(Model()), now)
      ensures draining == Draining(old(Model()), now) == Draining(Model(), now)
      ensures owner == if now >= expiresAt then None else old(owner)
      ensures draining <==> owner.Some?
    {
      if owner != None && now >= expiresAt {
        owner := None;
      }
      draining := owner != None;
    }

    method AcquireKey(now: real, current: Option<Key>, kind: string, continuation: bool, key: Key)
      returns (r: Result<Key, Refusal>)
      requires key !in work
      modifies this`owner, this`work
      ensures Model() == Acquire(old(Model()), now, current, kind, continuation, key)
      ensures r == if Admits(old(Model()), now, current, continuation) then Ok(key) else Err(ServiceDraining)
    {
      var draining := IsDraining(now);
      if draining && !(current.Some? && current.value in work) && !(continuation && work != map[]) {
        return Err(ServiceDraining);
      }
      work := work[key := kind];
      r := Ok(key);
    }

    method ReleaseKey(key: Key)
      modifies this`work
      ensures Model() == Release(old(Model()), key)
    {
      work := work - {key};
    }

    method Drain(requester: Owner, now: real) returns (r: Result<Snapshot, Refusal>)
      modifies this`owner, this`expiresAt
      ensures Model() == BeginDrain(old(Model()), now, requester)
      ensures r == if OwnedByOther(old(Model()), now, requester) then Err(OtherOwner) else Ok(View(Model(), now))
    {
      var draining := IsDraining(now);
      if draining && owner != Some(requester) {
        return Err(OtherOwner);
      }
      owner := Some(requester);
      expiresAt := now + LEASE_SECONDS;
      var snapshot := TakeSnapshot(now);
      r := Ok(snapshot);
    }

    method CancelDrainOf(requester: Owner, now: real) returns (ok: bool)
      modifies this`owner
      ensures Model() == CancelDrain(old(Model()), now, requester)
      ensures ok == !OwnedByOther(old(Model()), now, requester)
    {
      var draining := IsDraining(now);
      if draining && owner != Some(requester) {
        return false;
      }
      owner := None;
      ok := true;
    }

    method TakeSnapshot(now: real) returns (snapshot: Snapshot)
      modifies this`owner
      ensures Model() == Expire(old(Model()), now)
      ensures snapshot == View(old(Model()), now)
    {
      var draining := IsDraining(now);
      snapshot := Snapshot(draining, draining && work == map[]);
    }
  }

  /** The context variable of one task. */
  class Context {
    var current: Option<Key>

    constructor (inherited: Option<Key>)
      ensures current == inherited
    {
      current := inherited;
    }
  }

  /** `with service.operation(label)`: `Enter` and `Leave` bracket one piece of admitted work. */
  class Operation {
    const service: LifecycleService
    const kind: string
    const continuation: bool
    var key: Key
    var previous: Option<Key>

    constructor (service: LifecycleService, kind: string, continuation: bool)
      ensures this.service == service && this.kind == kind && this.continuation == continuation
    {
      this.service, this.kind, this.continuation := service, kind, continuation;
    }

    method Enter(context: Context, now: real, unused: Key) returns (r: Result<Key, Refusal>)
      requires unused !in service.work
      modifies this`key, this`previous, context`current, service`owner, service`work
      ensures service.Model() == Acquire(old(service.Model()), now, old(context.current), kind, continuation, unused)
      ensures r.Ok? <==> Admits(old(service.Model()), now, old(context.current), continuation)
      ensures r.Ok? ==> key == unused && previous == old(context.current) && context.current == Some(unused)
      ensures r.Err? ==> context.current == old(context.current)
    {
      r := service.AcquireKey(now, context.current, kind, continuation, unused);
      if r.Ok? {
        key, previous := unused, context.current;
        context.current := Some(unused);
      }
    }

    method Leave(context: Context)
      modifies context`current, service`work
      ensures service.Model() == Release(old(service.Model()), key)
      ensures context.current == previous
    {
      context.current := previous;
      service.ReleaseKey(key);
    }
  }

  // ------------------------------------------------------------------------------------------
  // Tasks, their context variable, and runs of the whole process
  // ------------------------------------------------------------------------------------------

  // One open operation of a task: its key and the context value it restores on exit.
  datatype Frame = Frame(key: Key, previous: Option<Key>)

  // `base` is the context value it was created with.  A tracked task came from `create_task`:
  // its base key is its own and is released when it is done.
  datatype Task = Task(tracked: bool, base: Option<Key>, frames: seq<Frame>, current: Option<Key>)

  datatype Holder = ByFrame(task: TaskId, index: nat) | ByTask(task: TaskId)

  datatype World = World(
    service: Service,
    now: real,
    nextKey: Key,
    tasks: map<TaskId, Task>,
    holder: map<Key, Holder>,       // who will release each live key
    drainStart: Key,                // keys below this one were admitted before the current drain began
    sponsor: map<Key, Key>          // key admitted during the drain -> the live key that let it in
  )

  datatype Action =
    | Arrive(task: TaskId)                                        // a request or thread with an empty context
    | Fork(task: TaskId, child: TaskId)                           // a plain asyncio task: copies the context
    | Spawn(task: TaskId, child: TaskId, kind: string)           // lifecycle_service.create_task
    | Enter(task: TaskId, kind: string, continuation: bool, via: Key)
    | Leave(task: TaskId)
    | Finish(task: TaskId)
    | Begin(owner: Owner)
    | Cancel(owner: Owner)
    | Tick(delta: real)

  // What the calling code guarantees: live tasks act, operations close in stack order,
  // a task finishes after closing its operations.
  predicate Enabled(w: World, a: Action) {
    match a
    case Arrive(t) => t !in w.tasks
    case Fork(t, c) => t in w.tasks && c !in w.tasks
    case Spawn(t, c, _) => t in w.tasks && c !in w.tasks
    case Enter(t, _, continuation, via) =>
      t in w.tasks && (w.service.work != map[] ==> via in w.service.work)
    case Leave(t) => t in w.tasks && w.tasks[t].frames != []
    case Finish(t) => t in w.tasks && w.tasks[t].frames == []
    case Begin(_) => true
    case Cancel(_) => true
    case Tick(d) => d >= 0.0
  }

  function Last(frames: seq<Frame>): Frame
    requires frames != []
  {
    frames[|frames| - 1]
  }

  function Push(task: Task, key: Key): Task {
    task.(frames := task.frames + [Frame(key, task.current)], current := Some(key))
  }

  function Pop(task: Task): Task
    requires task.frames != []
  {
    task.(frames := task.frames[..|task.frames| - 1], current := Last(task.frames).previous)
  }

  // The live key that lets a new key in while a drain is on.
  function Sponsor(w: World, current: Option<Key>, via: Key): Key {
    if current.Some? && current.value in w.service.work then current.value else via
  }

  function Admit(w: World, current: Option<Key>, kind: string, continuation: bool, via: Key, h: Holder): World {
    var key := w.nextKey;
    var service := Acquire(w.service, w.now, current, kind, continuation, key);
    w.(service := service, nextKey := key + 1, holder := w.holder[key := h],
       sponsor := if Draining(w.service, w.now) then w.sponsor[key := Sponsor(w, current, via)] else w.sponsor)
  }

  function Drop(w: World, key: Key): World {
    w.(service := Release(w.service, key), holder := w.holder - {key})
  }

  function Apply(w: World, a: Action): World
    requires Enabled(w, a)
  {
    match a
    case Arrive(t) => w.(tasks := w.tasks[t := Task(false, None, [], None)])
    case Fork(t, c) =>
      var current := w.tasks[t].current;
      w.(tasks := w.tasks[c := Task(false, current, [], current)])
    case Spawn(t, c, kind) =>
      var current := w.tasks[t].current;
      if Admits(w.service, w.now, current, false) then
        Admit(w, current, kind, false, 0, ByTask(c)).(
          tasks := w.tasks[c := Task(true, Some(w.nextKey), [], Some(w.nextKey))])
      else
        w.(service := Expire(w.service, w.now))
    case Enter(t, kind, continuation, via) =>
      var task := w.tasks[t];
      if Admits(w.service, w.now, task.current, continuation) then
        Admit(w, task.current, kind, continuation, via, ByFrame(t, |task.frames|)).(
          tasks := w.tasks[t := Push(task, w.nextKey)])
      else
        w.(service := Expire(w.service, w.now))
    case Leave(t) =>
      var task := w.tasks[t];
      Drop(w, Last(task.frames).key).(tasks := w.tasks[t := Pop(task)])
    case Finish(t) =>
      var task := w.tasks[t];
      (if task.tracked && task.base.Some? then Drop(w, task.base.value) else w).(tasks := w.tasks - {t})
    case Begin(owner) =>
      var opens := !Draining(w.service, w.now);
      w.(service := BeginDrain(w.service, w.now, owner),
         drainStart := if opens then w.nextKey else w.drainStart,
         sponsor := if opens then map[] else w.sponsor)
    case Cancel(owner) => w.(service := CancelDrain(w.service, w.now, owner))
    case Tick(d) => w.(now := w.now + d)
  }

  const START := World(Service(map[], None, 0.0), 0.0, 0, map[], map[], 0, map[])

  predicate Feasible(w: World, run: seq<Action>)
    decreases |run|
  {
    run == [] || (Enabled(w, run[0]) && Feasible(Apply(w, run[0]), run[1..]))
  }

  function After(w: World, run: seq<Action>): World
    requires Feasible(w, run)
    decreases |run|
  {
    if run == [] then w else After(Apply(w, run[0]), run[1..])
  }

  // ------------------------------------------------------------------------------------------
  // What every step keeps
  // ------------------------------------------------------------------------------------------

  // The context value seen on top of a stack of operations.
  function Top(base: Option<Key>, frames: seq<Frame>): Option<Key> {
    if frames == [] then base else Some(Last(frames).key)
  }

  // Every operation restores the context value that was current when it was entered.
  predicate Chained(base: Option<Key>, frames: seq<Frame>)
    decreases |frames|
  {
    frames != [] ==>
      var below := frames[..|frames| - 1];
      Last(frames).previous == Top(base, below) && Chained(base, below)
  }

  predicate Stacked(task: Task) {
    task.current == Top(task.base, task.frames) && Chained(task.base, task.frames)
  }

  // The keys a task will release are recorded as its own.
  predicate Owns(holder: map<Key, Holder>, t: TaskId, task: Task) {
    && (forall i | 0 <= i < |task.frames| :: task.frames[i].key in holder && holder[task.frames[i].key] == ByFrame(t, i))
    && (task.tracked ==> task.base.Some? && task.base.value in holder && holder[task.base.value] == ByTask(t))
  }

  predicate Holds(tasks: map<TaskId, Task>, h: Holder, key: Key) {
    && h.task in tasks
    && match h
       case ByFrame(t, i) => i < |tasks[t].frames| && tasks[t].frames[i].key == key
       case ByTask(t) => tasks[t].tracked && tasks[t].base == Some(key)
  }

  // Keys and tasks agree: every key has exactly one holder, which is where it says it is.
  predicate Agree(holder: map<Key, Holder>, tasks: map<TaskId, Task>, nextKey: Key) {
    && (forall k | k in holder :: k < nextKey && Holds(tasks, holder[k], k))
    && (forall t | t in tasks :: Owns(holder, t, tasks[t]) && Stacked(tasks[t]))
  }

  predicate KeysHeld(w: World) {
    w.service.work.Keys == w.holder.Keys && Agree(w.holder, w.tasks, w.nextKey)
  }

  // Sponsors are older than what they let in, back to keys from before the drain.
  predicate Descends(sponsor: map<Key, Key>, drainStart: Key, nextKey: Key) {
    && drainStart <= nextKey
    && (forall k | k in sponsor :: drainStart <= k < nextKey && sponsor[k] < k)
    && (forall k | k in sponsor && sponsor[k] >= drainStart :: sponsor[k] in sponsor)
  }

  // Every live key that is younger than the drain has a sponsor.
  predicate Covered(work: set<Key>, sponsor: map<Key, Key>, drainStart: Key) {
    forall k | k in work && k >= drainStart :: k in sponsor
  }

  predicate Sponsored(w: World) {
    && Descends(w.sponsor, w.drainStart, w.nextKey)
    && (Draining(w.service, w.now) ==> Covered(w.service.work.Keys, w.sponsor, w.drainStart))
  }

  predicate Invariant(w: World) {
    KeysHeld(w) && Sponsored(w)
  }

  // A key given out or released touches only its holder.
  lemma {:induction false} OwnsElsewhere(holder: map<Key, Holder>, key: Key, h: Holder, t: TaskId, task: Task)
    requires Owns(holder, t, task)
    ensures key !in holder ==> Owns(holder[key := h], t, task)
    ensures key in holder && holder[key].task != t ==> Owns(holder - {key}, t, task)
  {
  }

  lemma {:induction false} PushKeepsTask(holder: map<Key, Holder>, t: TaskId, task: Task, key: Key)
    requires Owns(holder, t, task) && Stacked(task) && key !in holder
    ensures Owns(holder[key := ByFrame(t, |task.frames|)], t, Push(task, key)) && Stacked(Push(task, key))
  {
    var after := Push(task, key).frames;
    assert after[..|task.frames|] == task.frames;
  }

  lemma {:induction false} PopKeepsTask(holder: map<Key, Holder>, t: TaskId, task: Task)
    requires Owns(holder, t, task) && Stacked(task) && task.frames != []
    ensures Owns(holder - {Last(task.frames).key}, t, Pop(task)) && Stacked(Pop(task))
  {
  }

  lemma {:induction false} PushKeepsAgreement(holder: map<Key, Holder>, tasks: map<TaskId, Task>, t: TaskId, key: Key)
    requires Agree(holder, tasks, key) && t in tasks
    ensures Agree(holder[key := ByFrame(t, |tasks[t].frames|)], tasks[t := Push(tasks[t], key)], key + 1)
  {
    var h := ByFrame(t, |tasks[t].frames|);
    var holder', tasks' := holder[key := h], tasks[t := Push(tasks[t], key)];
    forall u | u in tasks' ensures Owns(holder', u, tasks'[u]) && Stacked(tasks'[u]) {
      PushKeepsTask(holder, t, tasks[t], key);
      OwnsElsewhere(holder, key, h, u, tasks[u]);
    }
    forall k | k in holder' ensures k < key + 1 && Holds(tasks', holder'[k], k) {
      assert k != key ==> Holds(tasks, holder[k], k);
    }
  }

  lemma {:induction false} CreateKeepsAgreement(holder: map<Key, Holder>, tasks: map<TaskId, Task>, t: TaskId, key: Key)
    requires Agree(holder, tasks, key) && t !in tasks
    ensures Agree(holder[key := ByTask(t)], tasks[t := Task(true, Some(key), [], Some(key))], key + 1)
  {
    var holder', tasks' := holder[key := ByTask(t)], tasks[t := Task(true, Some(key), [], Some(key))];
    forall u | u in tasks' && u != t ensures Owns(holder', u, tasks'[u]) {
      OwnsElsewhere(holder, key, ByTask(t), u, tasks[u]);
    }
    forall k | k in holder' ensures k < key + 1 && Holds(tasks', holder'[k], k) {
      assert k != key ==> Holds(tasks, holder[k], k);
    }
  }

  lemma {:induction false} PopKeepsHolder(holder: map<Key, Holder>, tasks: map<TaskId, Task>, t: TaskId, k: Key)
    requires t in tasks && tasks[t].frames != []
    requires k in holder && Holds(tasks, holder[k], k) && k != Last(tasks[t].frames).key
    ensures Holds(tasks[t := Pop(tasks[t])], holder[k], k)
  {
  }

  lemma {:induction false} TopIsOwn(holder: map<Key, Holder>, t: TaskId, task: Task)
    requires Owns(holder, t, task) && task.frames != []
    ensures Last(task.frames).key in holder && holder[Last(task.frames).key] == ByFrame(t, |task.frames| - 1)
  {
  }

  lemma {:induction false} PopKeepsOthers(holder: map<Key, Holder>, tasks: map<TaskId, Task>, t: TaskId, nextKey: Key, u: TaskId)
    requires Agree(holder, tasks, nextKey) && t in tasks && tasks[t].frames != [] && u in tasks && u != t
    ensures Owns(holder - {Last(tasks[t].frames).key}, u, tasks[u]) && Stacked(tasks[u])
  {
    TopIsOwn(holder, t, tasks[t]);
    OwnsElsewhere(holder, Last(tasks[t].frames).key, holder[Last(tasks[t].frames).key], u, tasks[u]);
  }

  lemma {:induction false} PopKeepsOwners(holder: map<Key, Holder>, tasks: map<TaskId, Task>, t: TaskId, nextKey: Key)
    requires Agree(holder, tasks, nextKey) && t in tasks && tasks[t].frames != []
    ensures var holder', tasks' := holder - {Last(tasks[t].frames).key}, tasks[t := Pop(tasks[t])];
      forall u | u in tasks' :: Owns(holder', u, tasks'[u]) && Stacked(tasks'[u])
  {
    var holder', tasks' := holder - {Last(tasks[t].frames).key}, tasks[t := Pop(tasks[t])];
    forall u | u in tasks' ensures Owns(holder', u, tasks'[u]) && Stacked(tasks'[u]) {
      if u == t {
        PopKeepsTask(holder, t, tasks[t]);
      } else {
        PopKeepsOthers(holder, tasks, t, nextKey, u);
      }
    }
  }

  lemma {:induction false} PopKeepsAgreement(holder: map<Key, Holder>, tasks: map<TaskId, Task>, t: TaskId, nextKey: Key)
    requires Agree(holder, tasks, nextKey) && t in tasks && tasks[t].frames != []
    ensures Agree(holder - {Last(tasks[t].frames).key}, tasks[t := Pop(tasks[t])], nextKey)
  {
    var holder', tasks' := holder - {Last(tasks[t].frames).key}, tasks[t := Pop(tasks[t])];
    PopKeepsOwners(holder, tasks, t, nextKey);
    forall k | k in holder' ensures k < nextKey && Holds(tasks', holder'[k], k) {
      PopKeepsHolder(holder, tasks, t, k);
    }
  }

  lemma {:induction false} RemoveKeepsAgreement(holder: map<Key, Holder>, tasks: map<TaskId, Task>, t: TaskId, nextKey: Key)
    requires Agree(holder, tasks, nextKey) && t in tasks && tasks[t].frames == []
    ensures Agree(if tasks[t].tracked then holder - {tasks[t].base.value} else holder, tasks - {t}, nextKey)
  {
    var holder' := if tasks[t].tracked then holder - {tasks[t].base.value} else holder;
    var tasks' := tasks - {t};
    assert Owns(holder, t, tasks[t]);
    forall u | u in tasks' ensures Owns(holder', u, tasks'[u]) && Stacked(tasks'[u]) {
      if tasks[t].tracked {
        OwnsElsewhere(holder, tasks[t].base.value, ByTask(t), u, tasks[u]);
      }
    }
    forall k | k in holder' ensures k < nextKey && Holds(tasks', holder'[k], k) {
      assert Holds(tasks, holder[k], k);
    }
  }

  lemma {:induction false} UntrackedKeepsAgreement(holder: map<Key, Holder>, tasks: map<TaskId, Task>, t: TaskId, task: Task, nextKey: Key)
    requires Agree(holder, tasks, nextKey) && t !in tasks && !task.tracked && task.frames == [] && task.current == task.base
    ensures Agree(holder, tasks[t := task], nextKey)
  {
    forall k | k in holder ensures Holds(tasks[t := task], holder[k], k) {
      assert Holds(tasks, holder[k], k);
    }
  }

  lemma {:induction false} StepKeepsAgreement(w: World, a: Action)
    requires KeysHeld(w) && Enabled(w, a)
    ensures Agree(Apply(w, a).holder, Apply(w, a).tasks, Apply(w, a).nextKey)
  {
    match a
    case Arrive(t) => UntrackedKeepsAgreement(w.holder, w.tasks, t, Task(false, None, [], None), w.nextKey);
    case Fork(t, c) =>
      var current := w.tasks[t].current;
      UntrackedKeepsAgreement(w.holder, w.tasks, c, Task(false, current, [], current), w.nextKey);
    case Spawn(t, c, _) => CreateKeepsAgreement(w.holder, w.tasks, c, w.nextKey);
    case Enter(t, _, _, _) => PushKeepsAgreement(w.holder, w.tasks, t, w.nextKey);
    case Leave(t) => PopKeepsAgreement(w.holder, w.tasks, t, w.nextKey);
    case Finish(t) =>
      assert Owns(w.holder, t, w.tasks[t]);
      RemoveKeepsAgreement(w.holder, w.tasks, t, w.nextKey);
    case _ =>
  }

  lemma {:induction false} SameKeysHeld(w: World, a: Action)
    requires w.service.work.Keys == w.holder.Keys && Enabled(w, a)
    ensures Apply(w, a).service.work.Keys == Apply(w, a).holder.Keys
  {
  }

  lemma {:induction false} StepKeepsKeys(w: World, a: Action)
    requires KeysHeld(w) && Enabled(w, a)
    ensures KeysHeld(Apply(w, a))
  {
    StepKeepsAgreement(w, a);
    SameKeysHeld(w, a);
  }

  lemma {:induction false} AdmitKeepsSponsors(w: World, current: Option<Key>, kind: string, continuation: bool, via: Key, h: Holder)
    requires KeysHeld(w) && Sponsored(w) && Admits(w.service, w.now, current, continuation)
    requires continuation && w.service.work != map[] ==> via in w.service.work
    ensures Sponsored(Admit(w, current, kind, continuation, via, h))
  {
  }

  // No key is admitted and no drain begins.
  lemma {:induction false} QuietKeepsSponsors(w: World, t: World)
    requires Sponsored(w) && t.sponsor == w.sponsor && t.drainStart == w.drainStart && t.nextKey == w.nextKey
    requires t.service.work.Keys <= w.service.work.Keys && (Draining(t.service, t.now) ==> Draining(w.service, w.now))
    ensures Sponsored(t)
  {
  }

  lemma {:induction false} StepKeepsSponsors(w: World, a: Action)
    requires Invariant(w) && Enabled(w, a)
    ensures Sponsored(Apply(w, a))
  {
    match a
    case Spawn(t, c, kind) =>
      if Admits(w.service, w.now, w.tasks[t].current, false) {
        AdmitKeepsSponsors(w, w.tasks[t].current, kind, false, 0, ByTask(c));
      } else {
        QuietKeepsSponsors(w, Apply(w, a));
      }
    case Enter(t, kind, continuation, via) =>
      if Admits(w.service, w.now, w.tasks[t].current, continuation) {
        AdmitKeepsSponsors(w, w.tasks[t].current, kind, continuation, via, ByFrame(t, |w.tasks[t].frames|));
      } else {
        QuietKeepsSponsors(w, Apply(w, a));
      }
    case Begin(owner) => BeginKeepsSponsors(w, owner);
    case _ => QuietKeepsSponsors(w, Apply(w, a));
  }

  lemma {:induction false} BeginKeepsSponsors(w: World, owner: Owner)
    requires Invariant(w)
    ensures Sponsored(Apply(w, Begin(owner)))
  {
    if Draining(w.service, w.now) {
      QuietKeepsSponsors(w, Apply(w, Begin(owner)));
    } else {
      assert forall k | k in w.service.work :: k < w.nextKey by {
        assert w.service.work.Keys == w.holder.Keys;
      }
    }
  }

  /** Every reachable state satisfies the invariant. */
  lemma {:induction false} RunsKeepInvariant(w: World, run: seq<Action>)
    requires Invariant(w) && Feasible(w, run)
    ensures Invariant(After(w, run))
    decreases |run|
  {
    if run != [] {
      StepKeepsKeys(w, run[0]);
      StepKeepsSponsors(w, run[0]);
      RunsKeepInvariant(Apply(w, run[0]), run[1..]);
    }
  }

  // ------------------------------------------------------------------------------------------
  // Main results
  // ------------------------------------------------------------------------------------------

  // A task is inside admitted work when it was made by `create_task` or has an operation open.
  predicate InsideWork(task: Task) {
    task.tracked || task.frames != []
  }

  /** Admitted work is never refused: whatever the drain state, an operation entered or a task
      created from inside admitted work is admitted. */
  lemma {:induction false} AdmittedWorkIsNeverRefused(run: seq<Action>, t: TaskId, kind: string, continuation: bool, via: Key, child: TaskId)
    requires Feasible(START, run)
    requires t in After(START, run).tasks && InsideWork(After(START, run).tasks[t])
    ensures var w := After(START, run);
      && Admits(w.service, w.now, w.tasks[t].current, continuation)
      && (Enabled(w, Action.Enter(t, kind, continuation, via)) ==>
            w.nextKey in Apply(w, Action.Enter(t, kind, continuation, via)).service.work)
      && (Enabled(w, Spawn(t, child, kind)) ==>
            w.nextKey in Apply(w, Spawn(t, child, kind)).service.work)
  {
    RunsKeepInvariant(START, run);
    var w := After(START, run);
    assert Owns(w.holder, t, w.tasks[t]) && Stacked(w.tasks[t]);
  }

  /** The bookkeeping is needed: a plain asyncio task that outlives the operation it was started in
      is refused during a drain, although it came from admitted work. */
  lemma {:induction false} PlainTaskCanBeRefused()
    ensures exists run ::
      && Feasible(START, run)
      && var w := After(START, run);
         2 in w.tasks && !Admits(w.service, w.now, w.tasks[2].current, false)
  {
    var run := RefusingRun();
    assert Feasible(START, run);
  }

  lemma {:induction false} RefusingRun() returns (run: seq<Action>)
    ensures Feasible(START, run)
    ensures var w := After(START, run); 2 in w.tasks && !Admits(w.service, w.now, w.tasks[2].current, false)
  {
    var enter := Action.Enter(1, "requests", false, 0);
    StartsAndForks(enter);
    LeavesRefused(Apply(Apply(Apply(START, Arrive(1)), enter), Fork(1, 2)));
    FiveSteps(START, Arrive(1), enter, Fork(1, 2), Begin("owner"), Action.Leave(1));
    run := [Arrive(1), enter, Fork(1, 2), Begin("owner"), Action.Leave(1)];
  }

  // Task 1 has an operation open, and has started a plain task inside it.
  predicate Forked(w: World) {
    && w.tasks == map[1 := Task(false, None, [Frame(0, None)], Some(0)), 2 := Task(false, Some(0), [], Some(0))]
    && w.service.work.Keys == {0} && w.service.owner == None
  }

  lemma {:induction false} StartsAndForks(enter: Action)
    requires enter == Action.Enter(1, "requests", false, 0)
    ensures Enabled(START, Arrive(1)) && Enabled(Apply(START, Arrive(1)), enter)
    ensures var w2 := Apply(Apply(START, Arrive(1)), enter); Enabled(w2, Fork(1, 2)) && Forked(Apply(w2, Fork(1, 2)))
  {
    assert Push(Task(false, None, [], None), 0).frames == [Frame(0, None)];
  }

  lemma {:induction false} LeavesRefused(w: World)
    requires Forked(w)
    ensures Enabled(w, Begin("owner")) && Enabled(Apply(w, Begin("owner")), Action.Leave(1))
    ensures var v := Apply(Apply(w, Begin("owner")), Action.Leave(1));
      2 in v.tasks && !Admits(v.service, v.now, v.tasks[2].current, false)
  {
  }

  lemma {:induction false} FirstStep(w: World, a: Action, rest: seq<Action>)
    requires Enabled(w, a) && Feasible(Apply(w, a), rest)
    ensures Feasible(w, [a] + rest) && After(w, [a] + rest) == After(Apply(w, a), rest)
  {
    assert ([a] + rest)[1..] == rest;
  }

  lemma {:induction false} FiveSteps(w: World, a: Action, b: Action, c: Action, d: Action, e: Action)
    requires Enabled(w, a) && Enabled(Apply(w, a), b) && Enabled(Apply(Apply(w, a), b), c)
    requires Enabled(Apply(Apply(Apply(w, a), b), c), d) && Enabled(Apply(Apply(Apply(Apply(w, a), b), c), d), e)
    ensures Feasible(w, [a, b, c, d, e])
    ensures After(w, [a, b, c, d, e]) == Apply(Apply(Apply(Apply(Apply(w, a), b), c), d), e)
  {
    var w1 := Apply(w, a);
    var w2 := Apply(w1, b);
    var w3 := Apply(w2, c);
    var w4 := Apply(w3, d);
    FirstStep(w4, e, []);
    FirstStep(w3, d, [e]);
    FirstStep(w2, c, [d, e]);
    FirstStep(w1, b, [c, d, e]);
    FirstStep(w, a, [b, c, d, e]);
    assert [e] + [] == [e] && [d] + [e] == [d, e] && [c] + [d, e] == [c, d, e];
    assert [b] + [c, d, e] == [b, c, d, e] && [a] + [b, c, d, e] == [a, b, c, d, e];
  }

  // Follow sponsors back to the key that needed none.
  function Root(sponsor: map<Key, Key>, key: Key): Key {
    if key in sponsor && sponsor[key] < key then Root(sponsor, sponsor[key]) else key
  }

  lemma {:induction false} RootIsOlder(w: World, key: Key)
    requires Sponsored(w) && (key < w.drainStart || key in w.sponsor)
    ensures Root(w.sponsor, key) < w.drainStart
    decreases key
  {
    if key in w.sponsor {
      RootIsOlder(w, w.sponsor[key]);
    }
  }

  /** A drain admits nothing of its own: every key live during a drain goes back, through keys that
      were live when they let the next one in, to a key admitted before the drain began. */
  lemma {:induction false} LiveKeysDescendFromBeforeTheDrain(run: seq<Action>, key: Key)
    requires Feasible(START, run)
    requires var w := After(START, run); Draining(w.service, w.now) && key in w.service.work
    ensures var w := After(START, run); Root(w.sponsor, key) < w.drainStart
  {
    RunsKeepInvariant(START, run);
    RootIsOlder(After(START, run), key);
  }

  predicate Alive(w: World, key: Option<Key>) {
    key.Some? && key.value in w.service.work
  }

  /** During a drain a new key is let in by a live one, which is recorded: the caller's own, or any for
      a continuation.  Whoever is refused has neither. */
  lemma {:induction false} SponsorsAreLive(run: seq<Action>, a: Action)
    requires Feasible(START, run) && Enabled(After(START, run), a) && (a.Enter? || a.Spawn?)
    requires Draining(After(START, run).service, After(START, run).now)
    ensures var w := After(START, run);
      var v := Apply(w, a);
      var current := w.tasks[a.task].current;
      if w.nextKey in v.service.work then
        && w.nextKey in v.sponsor && v.sponsor[w.nextKey] in w.service.work
        && (if Alive(w, current) then v.sponsor[w.nextKey] == current.value else a.Enter? && a.continuation)
      else
        !Alive(w, current) && (a.Enter? && a.continuation ==> w.service.work == map[])
  {
    RunsKeepInvariant(START, run);
    var w := After(START, run);
    assert w.nextKey !in w.holder;
    var continuation := a.Enter? && a.continuation;
    if Admits(w.service, w.now, w.tasks[a.task].current, continuation) {
      assert Sponsor(w, w.tasks[a.task].current, if a.Enter? then a.via else 0) in w.service.work;
    }
  }

  lemma {:induction false} OwnKeysAreLive(run: seq<Action>, t: TaskId)
    requires Feasible(START, run) && t in After(START, run).tasks
    ensures var w := After(START, run); var task := w.tasks[t];
      && (task.frames != [] ==> Last(task.frames).key in w.service.work)
      && (task.tracked ==> task.base.Some? && task.base.value in w.service.work)
  {
    RunsKeepInvariant(START, run);
    assert Owns(After(START, run).holder, t, After(START, run).tasks[t]);
  }

  /** Closing an operation releases its own key, and the end of a created task the task's; other work stays. */
  lemma {:induction false} EndsReleaseTheirKey(run: seq<Action>, t: TaskId)
    requires Feasible(START, run) && t in After(START, run).tasks
    ensures var w := After(START, run); var task := w.tasks[t];
      if task.frames != [] then
        && Last(task.frames).key in w.service.work
        && Apply(w, Action.Leave(t)).service.work == w.service.work - {Last(task.frames).key}
      else
        && t !in Apply(w, Finish(t)).tasks
        && if task.tracked then
             && task.base.Some? && task.base.value in w.service.work
             && Apply(w, Finish(t)).service.work == w.service.work - {task.base.value}
           else Apply(w, Finish(t)).service.work == w.service.work
  {
    OwnKeysAreLive(run, t);
  }

  // Somebody holds an unexpired lease.
  predicate LeaseLives(w: World) {
    w.service.owner.Some? && w.now < w.service.expiresAt
  }

  lemma {:induction false} NextKeyIsNew(run: seq<Action>)
    requires Feasible(START, run)
    ensures After(START, run).nextKey !in After(START, run).service.work
  {
    RunsKeepInvariant(START, run);
    assert After(START, run).nextKey !in After(START, run).holder;
  }

  /** Without a live lease every operation and every created task is admitted. */
  lemma {:induction false} AllEnterWithoutDrain(run: seq<Action>, a: Action)
    requires Feasible(START, run) && Enabled(After(START, run), a) && (a.Enter? || a.Spawn?)
    requires !LeaseLives(After(START, run))
    ensures var w := After(START, run); var v := Apply(w, a);
      v.service.work == w.service.work[w.nextKey := a.kind] && w.nextKey !in w.service.work
  {
    NextKeyIsNew(run);
  }

  /** A drain that nobody else holds is granted for 30 seconds, whoever works; it is drained as soon as no work is
      left, refuses work from outside as long as it lasts, and admits all again when it is over or cancelled. */
  lemma {:induction false} DrainIsGranted(run: seq<Action>, owner: Owner, passed: real)
    requires Feasible(START, run) && passed >= 0.0
    requires LeaseLives(After(START, run)) ==> After(START, run).service.owner == Some(owner)
    ensures var v := Apply(Apply(After(START, run), Begin(owner)), Tick(passed));
      && v.service.work == After(START, run).service.work
      && (LeaseLives(v) <==> passed < 30.0)
      && (passed < 30.0 ==> v.service.owner == Some(owner))
      && (View(v.service, v.now).drained <==> passed < 30.0 && v.service.work == map[])
      && (Admits(v.service, v.now, None, false) <==> passed >= 30.0)
      && !LeaseLives(Apply(v, Cancel(owner))) && Admits(Apply(v, Cancel(owner)).service, v.now, None, false)
  {
  }

  /** While the lease lives nobody else can take it over or cancel it. */
  lemma {:induction false} LeaseIsExclusive(w: World, owner: Owner, other: Owner)
    requires LeaseLives(w) && w.service.owner == Some(owner) && other != owner
    ensures Apply(w, Begin(other)).service == w.service == Apply(w, Cancel(other)).service
  {
  }

  /** When every operation is closed and every created task is done, no work is left. */
  lemma {:induction false} NoWorkLeftBehind(run: seq<Action>)
    requires Feasible(START, run)
    requires forall t | t in After(START, run).tasks :: !InsideWork(After(START, run).tasks[t])
    ensures After(START, run).service.work == map[]
  {
    RunsKeepInvariant(START, run);
    var w := After(START, run);
    assert forall k | k in w.service.work :: Holds(w.tasks, w.holder[k], k);
  }
}
