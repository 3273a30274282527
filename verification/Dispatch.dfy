/** Webhook dispatchers and the lease, with time (src/webhook/mod.rs:18-21, src/webhook/mod.rs:72-207). */
module Dispatch {
  import opened Base
  import opened Outbox

  /** Milliseconds. `startup` bounds the time from lease to the start of a delivery and `ack` that of recording its
      result; neither is enforced by the code. The rest is configuration. */
  datatype Timing = Timing(startup: nat, request: nat, connect: nat, ack: nat, permits: nat)

  const HOST_SLOT_WAIT: nat := 2000
  const HOST_BUSY_REQUEUE: nat := 250

  function LeaseTime(t: Timing): nat {
    t.request + t.connect + 5000
  }

  datatype Verdict = Ok | Retry(delay: nat) | GiveUp | GiveBack(delay: nat)

  /** Where a delivery is: leased and without a permit, spawned and not yet started, waiting for a slot of its host,
      sending, recording, or over. */
  datatype Phase = Queued | Starting | AtHost | Posting | Recording(result: Verdict) | Over

  datatype Task = Task(owner: nat, key: EventKey, leasedAt: nat, phase: Phase, since: nat)

  /** All deliveries so far, by number. `limits` holds, for an instance about to lease, the free permits it read. */
  datatype State = State(q: Queue, now: nat, tasks: seq<Task>, limits: map<nat, nat>)

  datatype Event =
    | Tick(d: nat)
    | Publish(watch: Id)
    /** Instance `owner` reads its free permits. It does so only after it has spawned all it leased before. */
    | Read(owner: nat)
    /** It leases `keys`, as many as it read at most. */
    | Take(owner: nat, keys: seq<EventKey>)
    /** A leased event gets a permit and is spawned. */
    | Acquire(id: nat)
    /** The host is parked: the event goes back. */
    | Parked(id: nat, delay: nat)
    | Begin(id: nat)
    | Slot(id: nat)
    | NoSlot(id: nat)
    | Answer(id: nat, result: Verdict)
    /** The result is recorded, unless the database fails. The permit is free again. */
    | Record(id: nat, ok: bool)
    /** An instance dies with all its tasks. */
    | Crash(owner: nat)

  function Budget(t: Timing, phase: Phase): nat
    requires phase != Over
  {
    match phase
    case Queued => t.startup
    case Starting => t.startup
    case AtHost => HOST_SLOT_WAIT
    case Posting => t.request
    case Recording(_) => t.ack
  }

  function Count(f: Task -> bool, tasks: seq<Task>): nat {
    if tasks == [] then 0 else Count(f, tasks[..|tasks| - 1]) + if f(tasks[|tasks| - 1]) then 1 else 0
  }

  /** Leased by `owner` and still waiting for a permit. */
  function Waits(owner: nat): Task -> bool {
    (x: Task) => x.owner == owner && x.phase == Queued
  }

  /** Holding one of its permits. */
  function Holds(owner: nat): Task -> bool {
    (x: Task) => x.owner == owner && x.phase != Queued && x.phase != Over
  }

  predicate InPhase(s: State, id: nat, phase: Phase) {
    id < |s.tasks| && s.tasks[id].phase == phase
  }

  /** A semaphore with a permit left. */
  predicate HasPermit(t: Timing, s: State, owner: nat) {
    Count(Holds(owner), s.tasks) < t.permits
  }

  predicate InTime(t: Timing, task: Task, now: nat) {
    task.phase != Over ==> now <= task.since + Budget(t, task.phase)
  }

  predicate CanDo(t: Timing, s: State, e: Event) {
    match e
    case Tick(d) => forall id :: 0 <= id < |s.tasks| ==> InTime(t, s.tasks[id], s.now + d)
    case Publish(_) => true
    case Read(owner) => HasPermit(t, s, owner) && Count(Waits(owner), s.tasks) == 0
    case Take(owner, keys) => owner in s.limits && LeaseAnswer(s.q, s.now, s.limits[owner], keys)
    case Acquire(id) => InPhase(s, id, Queued) && HasPermit(t, s, s.tasks[id].owner)
    case Parked(id, _) => InPhase(s, id, Starting)
    case Begin(id) => InPhase(s, id, Starting)
    case Slot(id) => InPhase(s, id, AtHost)
    case NoSlot(id) => InPhase(s, id, AtHost)
    case Answer(id, result) => InPhase(s, id, Posting) && !result.GiveBack?
    case Record(id, _) => id < |s.tasks| && s.tasks[id].phase.Recording?
    case Crash(_) => true
  }

  function Recorded(q: Queue, key: EventKey, result: Verdict, now: nat): Queue {
    match result
    case Ok => MarkedDelivered(q, key)
    case Retry(delay) => MarkedRetry(q, key, now + delay)
    case GiveUp => MarkedDead(q, key)
    case GiveBack(delay) => Released(q, key, now + delay)
  }

  function Moved(s: State, id: nat, phase: Phase): State
    requires id < |s.tasks|
  {
    s.(tasks := s.tasks[id := s.tasks[id].(phase := phase, since := s.now)])
  }

  function NewTasks(owner: nat, keys: seq<EventKey>, now: nat): seq<Task> {
    seq(|keys|, i requires 0 <= i < |keys| => Task(owner, keys[i], now, Queued, now))
  }

  function Crashed(tasks: seq<Task>, owner: nat): seq<Task> {
    seq(|tasks|, i requires 0 <= i < |tasks| => if tasks[i].owner == owner then tasks[i].(phase := Over) else tasks[i])
  }

  function Next(t: Timing, s: State, e: Event): State
    requires CanDo(t, s, e)
  {
    match e
    case Tick(d) => s.(now := s.now + d)
    case Publish(watch) => s.(q := Enqueued(s.q, watch, s.now))
    case Read(owner) => s.(limits := s.limits[owner := t.permits - Count(Holds(owner), s.tasks)])
    case Take(owner, keys) =>
      State(Leased(s.q, keys, s.now + LeaseTime(t)), s.now, s.tasks + NewTasks(owner, keys, s.now), s.limits - {owner})
    case Acquire(id) => s.(tasks := s.tasks[id := s.tasks[id].(phase := Starting)])
    case Parked(id, delay) => Moved(s, id, Recording(GiveBack(delay)))
    case Begin(id) => Moved(s, id, AtHost)
    case Slot(id) => Moved(s, id, Posting)
    case NoSlot(id) => Moved(s, id, Recording(GiveBack(HOST_BUSY_REQUEUE)))
    case Answer(id, result) => Moved(s, id, Recording(result))
    case Record(id, ok) =>
      s.(q := if ok then Recorded(s.q, s.tasks[id].key, s.tasks[id].phase.result, s.now) else s.q,
         tasks := s.tasks[id := s.tasks[id].(phase := Over)])
    case Crash(owner) => s.(tasks := Crashed(s.tasks, owner), limits := s.limits - {owner})
  }

  const START: State := State(Queue(map[], map[]), 0, [], map[])

  predicate Running(t: Timing, events: seq<Event>)
    decreases |events|, 0
  {
    events == [] ||
    (Running(t, events[..|events| - 1]) && CanDo(t, Reached(t, events[..|events| - 1]), events[|events| - 1]))
  }

  function Reached(t: Timing, events: seq<Event>): State
    requires Running(t, events)
    decreases |events|, 1
  {
    if events == [] then START else Next(t, Reached(t, events[..|events| - 1]), events[|events| - 1])
  }

  // ------------------------------------------------------------------ the lease outlives the delivery

  /** What the budgets leave: start-up and recording together fit in the lease, strictly. */
  predicate Roomy(t: Timing) {
    t.startup + t.ack < t.connect + 3000
  }

  /** Latest time after its lease that a task can have entered a phase. */
  function Latest(t: Timing, phase: Phase): nat
    requires phase != Over
  {
    match phase
    case Queued => 0
    case Starting => 0
    case AtHost => t.startup
    case Posting => t.startup + HOST_SLOT_WAIT
    case Recording(_) => t.startup + HOST_SLOT_WAIT + t.request
  }

  /** The row of a live task is still undelivered, the lowest such of its watch, under this task's lease. */
  ghost predicate TaskOk(t: Timing, q: Queue, now: nat, task: Task) {
    task.phase != Over ==>
      && IsWaiting(q, task.key) && Unblocked(q, task.key)
      && q.items[task.key].dueAt == task.leasedAt + LeaseTime(t)
      && task.since <= task.leasedAt + Latest(t, task.phase)
      && InTime(t, task, now)
  }

  ghost predicate TasksOk(t: Timing, q: Queue, now: nat, tasks: seq<Task>) {
    forall i :: 0 <= i < |tasks| ==> TaskOk(t, q, now, tasks[i])
  }

  /** At most one delivery per watch is in progress, over all instances. */
  ghost predicate Exclusive(tasks: seq<Task>) {
    forall a, b :: 0 <= a < b < |tasks| && tasks[a].phase != Over && tasks[b].phase != Over ==>
      tasks[a].key.watch != tasks[b].key.watch
  }

  ghost predicate Healthy(t: Timing, s: State) {
    GapFree(s.q) && TasksOk(t, s.q, s.now, s.tasks) && Exclusive(s.tasks)
  }

  /** The watch of a live task has nothing that can be leased. */
  lemma LeaseHolds(t: Timing, q: Queue, now: nat, task: Task, key: EventKey)
    requires Roomy(t) && TaskOk(t, q, now, task) && task.phase != Over && Eligible(q, key, now)
    ensures key.watch != task.key.watch
  {
    assert Latest(t, task.phase) + Budget(t, task.phase) <= t.startup + HOST_SLOT_WAIT + t.request + t.ack;
    assert now < q.items[task.key].dueAt;
    assert key != task.key;
  }

  /** A task is untouched by what happens to rows of other watches. */
  lemma OtherWatch(t: Timing, q: Queue, q': Queue, now: nat, task: Task)
    requires TaskOk(t, q, now, task)
    requires forall k: EventKey :: k.watch == task.key.watch ==> (k in q'.items <==> k in q.items)
    requires forall k: EventKey :: k.watch == task.key.watch && k in q.items ==> q'.items[k] == q.items[k]
    ensures TaskOk(t, q', now, task)
  {
  }

  lemma PublishKeeps(t: Timing, s: State, watch: Id)
    requires Healthy(t, s)
    ensures Healthy(t, Next(t, s, Publish(watch)))
  {
    var s' := Next(t, s, Publish(watch));
    assert EventKey(watch, LastOf(s.q, watch) + 1) !in s.q.items;
    forall i | 0 <= i < |s.tasks|
      ensures TaskOk(t, s'.q, s'.now, s.tasks[i])
    {
      assert TaskOk(t, s.q, s.now, s.tasks[i]);
    }
  }

  /** Leasing touches no watch with a live task. */
  lemma TakeSpares(t: Timing, q: Queue, now: nat, limit: nat, keys: seq<EventKey>, task: Task)
    requires Roomy(t) && TaskOk(t, q, now, task) && task.phase != Over && LeaseAnswer(q, now, limit, keys)
    ensures TaskOk(t, Leased(q, keys, now + LeaseTime(t)), now, task)
    ensures forall i :: 0 <= i < |keys| ==> keys[i].watch != task.key.watch
  {
    forall k | k in keys
      ensures k.watch != task.key.watch
    {
      LeaseHolds(t, q, now, task, k);
    }
    LeasedItems(q, keys, now + LeaseTime(t));
    OtherWatch(t, q, Leased(q, keys, now + LeaseTime(t)), now, task);
  }

  lemma NewTaskOk(t: Timing, q: Queue, now: nat, limit: nat, keys: seq<EventKey>, i: nat, owner: nat)
    requires LeaseAnswer(q, now, limit, keys) && i < |keys|
    ensures TaskOk(t, Leased(q, keys, now + LeaseTime(t)), now, Task(owner, keys[i], now, Queued, now))
  {
    assert keys[i] in keys;
    LeasedItems(q, keys, now + LeaseTime(t));
  }

  lemma NewExclusive(tasks: seq<Task>, q: Queue, owner: nat, keys: seq<EventKey>, now: nat, limit: nat)
    requires Exclusive(tasks) && LeaseAnswer(q, now, limit, keys)
    requires forall a, i :: 0 <= a < |tasks| && tasks[a].phase != Over && 0 <= i < |keys| ==>
               keys[i].watch != tasks[a].key.watch
    ensures Exclusive(tasks + NewTasks(owner, keys, now))
  {
    var n, all := |tasks|, tasks + NewTasks(owner, keys, now);
    forall a, b | 0 <= a < b < |all| && all[a].phase != Over && all[b].phase != Over
      ensures all[a].key.watch != all[b].key.watch
    {
      if a >= n {
        OneLeasePerWatch(q, now, limit, keys, a - n, b - n);
      } else if b >= n {
        assert all[b].key == keys[b - n];
      }
    }
  }

  lemma TakeTasksOk(t: Timing, s: State, owner: nat, keys: seq<EventKey>, limit: nat)
    requires Roomy(t) && TasksOk(t, s.q, s.now, s.tasks) && LeaseAnswer(s.q, s.now, limit, keys)
    ensures TasksOk(t, Leased(s.q, keys, s.now + LeaseTime(t)), s.now, s.tasks + NewTasks(owner, keys, s.now))
    ensures forall a, i :: 0 <= a < |s.tasks| && s.tasks[a].phase != Over && 0 <= i < |keys| ==>
              keys[i].watch != s.tasks[a].key.watch
  {
    var n, all := |s.tasks|, s.tasks + NewTasks(owner, keys, s.now);
    forall a | 0 <= a < n && s.tasks[a].phase != Over
      ensures TaskOk(t, Leased(s.q, keys, s.now + LeaseTime(t)), s.now, s.tasks[a])
      ensures forall i :: 0 <= i < |keys| ==> keys[i].watch != s.tasks[a].key.watch
    {
      TakeSpares(t, s.q, s.now, limit, keys, s.tasks[a]);
    }
    forall a | 0 <= a < |all|
      ensures TaskOk(t, Leased(s.q, keys, s.now + LeaseTime(t)), s.now, all[a])
    {
      if a >= n {
        NewTaskOk(t, s.q, s.now, limit, keys, a - n, owner);
      }
    }
  }

  lemma TakeKeeps(t: Timing, s: State, e: Event)
    requires Roomy(t) && Healthy(t, s) && e.Take? && CanDo(t, s, e)
    ensures Healthy(t, Next(t, s, e))
  {
    var limit := s.limits[e.owner];
    GapFreeKept(s.q, Lease(e.keys, s.now, limit, s.now + LeaseTime(t)));
    TakeTasksOk(t, s, e.owner, e.keys, limit);
    NewExclusive(s.tasks, s.q, e.owner, e.keys, s.now, limit);
  }

  /** A task that changes nothing but its phase. */
  lemma PhaseKeeps(t: Timing, s: State, id: nat, task: Task)
    requires Healthy(t, s) && id < |s.tasks| && s.tasks[id].phase != Over
    requires task.key == s.tasks[id].key && TaskOk(t, s.q, s.now, task)
    ensures Healthy(t, s.(tasks := s.tasks[id := task]))
  {
  }

  lemma MoveKeeps(t: Timing, s: State, id: nat, phase: Phase)
    requires Healthy(t, s) && id < |s.tasks| && s.tasks[id].phase != Over && phase != Over
    requires Latest(t, s.tasks[id].phase) + Budget(t, s.tasks[id].phase) <= Latest(t, phase)
    ensures Healthy(t, Moved(s, id, phase))
  {
    assert TaskOk(t, s.q, s.now, s.tasks[id]);
    PhaseKeeps(t, s, id, s.tasks[id].(phase := phase, since := s.now));
  }

  lemma RecordKeeps(t: Timing, s: State, e: Event)
    requires Healthy(t, s) && e.Record? && CanDo(t, s, e)
    ensures Healthy(t, Next(t, s, e))
  {
    var s' := Next(t, s, e);
    assert forall k :: k in s'.q.items <==> k in s.q.items;
    forall i | 0 <= i < |s.tasks| && i != e.id && s.tasks[i].phase != Over
      ensures TaskOk(t, s'.q, s'.now, s.tasks[i])
    {
      assert s.tasks[i].key.watch != s.tasks[e.id].key.watch;
      OtherWatch(t, s.q, s'.q, s.now, s.tasks[i]);
    }
  }

  lemma TickKeeps(t: Timing, s: State, d: nat)
    requires Healthy(t, s) && CanDo(t, s, Tick(d))
    ensures Healthy(t, Next(t, s, Tick(d)))
  {
    forall i | 0 <= i < |s.tasks|
      ensures TaskOk(t, s.q, s.now + d, s.tasks[i])
    {
      assert TaskOk(t, s.q, s.now, s.tasks[i]);
    }
  }

  lemma StepKeeps(t: Timing, s: State, e: Event)
    requires Roomy(t) && Healthy(t, s) && CanDo(t, s, e)
    ensures Healthy(t, Next(t, s, e))
  {
    match e
    case Tick(d) => TickKeeps(t, s, d);
    case Publish(watch) => PublishKeeps(t, s, watch);
    case Read(_) =>
    case Take(_, _) => TakeKeeps(t, s, e);
    case Acquire(id) =>
      assert TaskOk(t, s.q, s.now, s.tasks[id]);
      PhaseKeeps(t, s, id, s.tasks[id].(phase := Starting));
    case Parked(id, delay) => MoveKeeps(t, s, id, Recording(GiveBack(delay)));
    case Begin(id) => MoveKeeps(t, s, id, AtHost);
    case Slot(id) => MoveKeeps(t, s, id, Posting);
    case NoSlot(id) => MoveKeeps(t, s, id, Recording(GiveBack(HOST_BUSY_REQUEUE)));
    case Answer(id, result) => MoveKeeps(t, s, id, Recording(result));
    case Record(_, _) => RecordKeeps(t, s, e);
    case Crash(_) =>
  }

  /** If start-up and recording fit in what the lease leaves over, then in every run at most one delivery per watch
      is in progress, whatever instances crash or fail to record: an event never has two requests in flight, and
      an event's request never overlaps with that of an earlier or later event of its watch. */
  lemma {:induction false} OneDeliveryPerWatch(t: Timing, events: seq<Event>)
    requires Roomy(t) && Running(t, events)
    ensures Healthy(t, Reached(t, events))
  {
    if events != [] {
      var n := |events| - 1;
      OneDeliveryPerWatch(t, events[..n]);
      StepKeeps(t, Reached(t, events[..n]), events[n]);
    }
  }

  predicate IsDelivered(q: Queue, k: EventKey) {
    k in q.items && q.items[k].status == Delivered
  }

  /** And then a delivered event stays delivered for good: no delivery is left that could give up on it. */
  lemma DeliveredForGood(t: Timing, events: seq<Event>, e: Event, k: EventKey)
    requires Roomy(t) && Running(t, events) && CanDo(t, Reached(t, events), e) && IsDelivered(Reached(t, events).q, k)
    ensures IsDelivered(Next(t, Reached(t, events), e).q, k)
  {
    OneDeliveryPerWatch(t, events);
    HealthyDelivered(t, Reached(t, events), e, k);
  }

  lemma HealthyDelivered(t: Timing, s: State, e: Event, k: EventKey)
    requires Healthy(t, s) && CanDo(t, s, e) && IsDelivered(s.q, k)
    ensures IsDelivered(Next(t, s, e).q, k)
  {
    match e
    case Take(_, keys) => LeasedItems(s.q, keys, s.now + LeaseTime(t));
    case Record(id, _) => assert TaskOk(t, s.q, s.now, s.tasks[id]);
    case _ =>
  }

  // ------------------------------------------------------------------ permits

  /** What an instance has leased and not yet spawned, and what it may lease next, fits in its free permits. */
  ghost predicate Provided(t: Timing, s: State, owner: nat) {
    && Count(Holds(owner), s.tasks) + Count(Waits(owner), s.tasks) <= t.permits
    && (owner in s.limits ==>
          Count(Waits(owner), s.tasks) == 0 && Count(Holds(owner), s.tasks) + s.limits[owner] <= t.permits)
  }

  lemma {:induction false} CountConcat(f: Task -> bool, a: seq<Task>, b: seq<Task>)
    ensures Count(f, a + b) == Count(f, a) + Count(f, b)
  {
    if b == [] {
      assert a + b == a;
    } else {
      assert (a + b)[..|a + b| - 1] == a + b[..|b| - 1];
      CountConcat(f, a, b[..|b| - 1]);
    }
  }

  lemma {:induction false} CountAll(f: Task -> bool, tasks: seq<Task>)
    ensures (forall i :: 0 <= i < |tasks| ==> f(tasks[i])) ==> Count(f, tasks) == |tasks|
    ensures (forall i :: 0 <= i < |tasks| ==> !f(tasks[i])) ==> Count(f, tasks) == 0
  {
    if tasks != [] {
      CountAll(f, tasks[..|tasks| - 1]);
    }
  }

  lemma {:induction false} CountUpdate(f: Task -> bool, tasks: seq<Task>, i: nat, task: Task)
    requires i < |tasks|
    ensures Count(f, tasks[i := task]) + (if f(tasks[i]) then 1 else 0) == Count(f, tasks) + if f(task) then 1 else 0
  {
    var n := |tasks| - 1;
    if i < n {
      assert tasks[i := task][..n] == tasks[..n][i := task];
      CountUpdate(f, tasks[..n], i, task);
    } else {
      assert tasks[i := task][..n] == tasks[..n];
    }
  }

  lemma {:induction false} CountFewer(f: Task -> bool, a: seq<Task>, b: seq<Task>)
    requires |a| == |b| && forall i :: 0 <= i < |a| ==> f(b[i]) ==> f(a[i])
    ensures Count(f, b) <= Count(f, a)
  {
    if a != [] {
      CountFewer(f, a[..|a| - 1], b[..|b| - 1]);
    }
  }

  lemma TakeProvides(t: Timing, s: State, e: Event, owner: nat)
    requires Provided(t, s, owner) && e.Take? && CanDo(t, s, e)
    ensures Provided(t, Next(t, s, e), owner)
  {
    var new_ := NewTasks(e.owner, e.keys, s.now);
    CountConcat(Holds(owner), s.tasks, new_);
    CountConcat(Waits(owner), s.tasks, new_);
    CountAll(Holds(owner), new_);
    CountAll(Waits(owner), new_);
  }

  lemma AcquireProvides(t: Timing, s: State, e: Event, owner: nat)
    requires Provided(t, s, owner) && e.Acquire? && CanDo(t, s, e)
    ensures Provided(t, Next(t, s, e), owner)
  {
    CountUpdate(Holds(owner), s.tasks, e.id, s.tasks[e.id].(phase := Starting));
    CountUpdate(Waits(owner), s.tasks, e.id, s.tasks[e.id].(phase := Starting));
  }

  /** Every other event only ever frees permits. */
  lemma OthersProvide(t: Timing, s: State, e: Event, owner: nat)
    requires Provided(t, s, owner) && CanDo(t, s, e) && !e.Take? && !e.Acquire?
    ensures Provided(t, Next(t, s, e), owner)
  {
    CountFewer(Holds(owner), s.tasks, Next(t, s, e).tasks);
    CountFewer(Waits(owner), s.tasks, Next(t, s, e).tasks);
  }

  lemma {:induction false} LeasesFitPermits(t: Timing, events: seq<Event>, owner: nat)
    requires Running(t, events)
    ensures Provided(t, Reached(t, events), owner)
  {
    if events != [] {
      var n := |events| - 1;
      LeasesFitPermits(t, events[..n], owner);
      var s := Reached(t, events[..n]);
      match events[n]
      case Take(_, _) => TakeProvides(t, s, events[n], owner);
      case Acquire(_) => AcquireProvides(t, s, events[n], owner);
      case _ => OthersProvide(t, s, events[n], owner);
    }
  }

  /** No leased event ever waits for a permit: whenever one is not yet spawned, its instance has a permit for it. So
      reading the free permits first keeps leases from running out in a queue, whatever finishes or crashes since. */
  lemma AcquireNeverWaits(t: Timing, events: seq<Event>, id: nat)
    requires Running(t, events) && InPhase(Reached(t, events), id, Queued)
    ensures CanDo(t, Reached(t, events), Acquire(id))
  {
    var s := Reached(t, events);
    var owner := s.tasks[id].owner;
    LeasesFitPermits(t, events, owner);
    CountUpdate(Waits(owner), s.tasks, id, s.tasks[id].(phase := Over));
  }

  // ------------------------------------------------------------------ and only then

  const FIRST: EventKey := EventKey(0, 1)

  /** `s` is reached by some run in which `FIRST` is published and then `age` passes before anything else happens. */
  ghost predicate Reachable(t: Timing, age: nat, s: State) {
    exists events :: [Publish(0), Tick(age)] <= events && Reaches(t, events, s)
  }

  predicate Reaches(t: Timing, events: seq<Event>, s: State) {
    Running(t, events) && Reached(t, events) == s
  }

  lemma OneMore(t: Timing, age: nat, s: State, e: Event)
    requires Reachable(t, age, s) && CanDo(t, s, e)
    ensures Reachable(t, age, Next(t, s, e))
  {
    var events :| [Publish(0), Tick(age)] <= events && Reaches(t, events, s);
    assert (events + [e])[..|events|] == events;
    assert [Publish(0), Tick(age)] <= events + [e] && Reaches(t, events + [e], Next(t, s, e));
  }

  lemma FromStart(t: Timing, age: nat)
    ensures Reachable(t, age, State(OneItem(0, 0), age, [], map[]))
  {
    var events := [Publish(0), Tick(age)];
    assert events[..1] == [Publish(0)] && [Publish(0)][..0] == [];
    assert Enqueued(START.q, 0, 0) == OneItem(0, 0);
    assert Reaches(t, [Publish(0)], State(OneItem(0, 0), 0, [], map[]));
    assert events <= events && Reaches(t, events, State(OneItem(0, 0), age, [], map[]));
  }

  lemma ReachableFits(t: Timing, age: nat, s: State, id: nat)
    requires Reachable(t, age, s) && InPhase(s, id, Queued)
    ensures CanDo(t, s, Acquire(id))
  {
    var events :| [Publish(0), Tick(age)] <= events && Reaches(t, events, s);
    AcquireNeverWaits(t, events, id);
  }

  /** A delivery of `FIRST` by instance `id`, begun without delay. */
  function Fresh(id: nat, now: nat, phase: Phase): Task {
    Task(id, FIRST, now, phase, now)
  }

  function OneItem(attempts: nat, dueAt: nat): Queue {
    Queue(map[FIRST := Item(Waiting, attempts, dueAt)], map[0 := 1])
  }

  lemma ReadStep(t: Timing, s: State, me: nat)
    requires t.permits > 0 && s.limits == map[] && forall i :: 0 <= i < |s.tasks| ==> s.tasks[i].owner != me
    ensures CanDo(t, s, Read(me)) && Next(t, s, Read(me)) == s.(limits := map[me := t.permits])
  {
    CountAll(Holds(me), s.tasks);
    CountAll(Waits(me), s.tasks);
  }

  lemma TakeStep(t: Timing, s: State, me: nat, attempts: nat, dueAt: nat)
    requires t.permits > 0 && s.limits == map[me := t.permits] && s.q == OneItem(attempts, dueAt) && dueAt <= s.now
    ensures CanDo(t, s, Take(me, [FIRST]))
    ensures Next(t, s, Take(me, [FIRST]))
         == State(OneItem(attempts + 1, s.now + LeaseTime(t)), s.now, s.tasks + [Fresh(me, s.now, Queued)], map[])
  {
    LeasedAlone(s.q, FIRST, s.now + LeaseTime(t));
    assert LeasedOne(s.q, FIRST, s.now + LeaseTime(t)).items == OneItem(attempts + 1, s.now + LeaseTime(t)).items;
    assert NewTasks(me, [FIRST], s.now) == [Fresh(me, s.now, Queued)];
    assert s.limits - {me} == map[];
  }

  /** An instance without tasks, numbered like the next one, reads its permits and leases `FIRST`. */
  lemma TakenFirst(t: Timing, age: nat, s: State, attempts: nat, dueAt: nat)
    requires Reachable(t, age, s) && t.permits > 0
    requires s.q == OneItem(attempts, dueAt) && dueAt <= s.now && s.limits == map[]
    requires forall i :: 0 <= i < |s.tasks| ==> s.tasks[i].owner != |s.tasks|
    ensures Reachable(t, age, State(OneItem(attempts + 1, s.now + LeaseTime(t)), s.now,
                                    s.tasks + [Fresh(|s.tasks|, s.now, Queued)], map[]))
  {
    var me := |s.tasks|;
    ReadStep(t, s, me);
    OneMore(t, age, s, Read(me));
    TakeStep(t, s.(limits := map[me := t.permits]), me, attempts, dueAt);
    OneMore(t, age, s.(limits := map[me := t.permits]), Take(me, [FIRST]));
  }

  /** And spawns the delivery. */
  lemma Spawned(t: Timing, age: nat, s: State, attempts: nat, dueAt: nat) returns (s': State)
    requires Reachable(t, age, s) && t.permits > 0
    requires s.q == OneItem(attempts, dueAt) && dueAt <= s.now && s.limits == map[]
    requires forall i :: 0 <= i < |s.tasks| ==> s.tasks[i].owner != |s.tasks|
    ensures Reachable(t, age, s')
    ensures s' == State(OneItem(attempts + 1, s.now + LeaseTime(t)), s.now,
                        s.tasks + [Fresh(|s.tasks|, s.now, Starting)], map[])
  {
    TakenFirst(t, age, s, attempts, dueAt);
    s' := State(OneItem(attempts + 1, s.now + LeaseTime(t)), s.now, s.tasks + [Fresh(|s.tasks|, s.now, Queued)], map[]);
    s' := AcquireStep(t, age, s', s.tasks);
  }

  lemma AcquireStep(t: Timing, age: nat, s: State, tasks: seq<Task>) returns (s': State)
    requires Reachable(t, age, s) && s.tasks == tasks + [Fresh(|tasks|, s.now, Queued)]
    ensures Reachable(t, age, s') && s' == s.(tasks := tasks + [Fresh(|tasks|, s.now, Starting)])
  {
    var me := |tasks|;
    ReachableFits(t, age, s, me);
    OneMore(t, age, s, Acquire(me));
    s' := s.(tasks := tasks + [Fresh(me, s.now, Starting)]);
    assert s.tasks[me := Fresh(me, s.now, Starting)] == s'.tasks;
  }

  /** A spawned delivery gets as far as sending, at once. */
  lemma Sending(t: Timing, age: nat, s: State, id: nat) returns (s': State)
    requires Reachable(t, age, s) && id < |s.tasks| && s.tasks[id] == Fresh(id, s.now, Starting)
    ensures Reachable(t, age, s') && s' == s.(tasks := s.tasks[id := Fresh(id, s.now, Posting)])
  {
    OneMore(t, age, s, Begin(id));
    s' := Next(t, s, Begin(id));
    OneMore(t, age, s', Slot(id));
    s' := Next(t, s', Slot(id));
  }

  /** One delivery, of the first event by instance 0, leased at time `age`, in `phase` since `since`. */
  function Solo(t: Timing, age: nat, now: nat, phase: Phase, since: nat): State {
    State(OneItem(1, age + LeaseTime(t)), now, [Task(0, FIRST, age, phase, since)], map[])
  }

  lemma Wait(t: Timing, age: nat, now: nat, phase: Phase, d: nat)
    requires Reachable(t, age, Solo(t, age, now, phase, now)) && phase != Over && d <= Budget(t, phase)
    ensures Reachable(t, age, Solo(t, age, now + d, phase, now))
  {
    OneMore(t, age, Solo(t, age, now, phase, now), Tick(d));
  }

  lemma Move(t: Timing, age: nat, now: nat, phase: Phase, since: nat, e: Event, next: Phase)
    requires var s := Solo(t, age, now, phase, since);
             Reachable(t, age, s) && CanDo(t, s, e) && Next(t, s, e) == Moved(s, 0, next)
    ensures Reachable(t, age, Solo(t, age, now, next, now))
  {
    OneMore(t, age, Solo(t, age, now, phase, since), e);
    assert Moved(Solo(t, age, now, phase, since), 0, next) == Solo(t, age, now, next, now);
  }

  lemma Opening(t: Timing, age: nat)
    requires t.permits > 0
    ensures Reachable(t, age, Solo(t, age, age, Starting, age))
  {
    FromStart(t, age);
    var s := Spawned(t, age, State(OneItem(0, 0), age, [], map[]), 0, 0);
    assert s.tasks == [Fresh(0, age, Starting)];
  }

  /** A delivery that takes `late` to start, waits for its slot as long as it can, and gets its answer at the last
      moment. */
  lemma SlowAnswer(t: Timing, age: nat, late: nat, result: Verdict)
    requires t.permits > 0 && late <= t.startup && !result.GiveBack?
    ensures var since := age + late + HOST_SLOT_WAIT + t.request;
            Reachable(t, age, Solo(t, age, since, Recording(result), since))
  {
    Opening(t, age);
    Wait(t, age, age, Starting, late);
    Move(t, age, age + late, Starting, age, Begin(0), AtHost);
    Wait(t, age, age + late, AtHost, HOST_SLOT_WAIT);
    var posting := age + late + HOST_SLOT_WAIT;
    Move(t, age, posting, AtHost, age + late, Slot(0), Posting);
    Wait(t, age, posting, Posting, t.request);
    Move(t, age, posting + t.request, Posting, posting, Answer(0, result), Recording(result));
  }

  /** A delivery that uses its budgets up is still to record `result` when its lease ends. */
  lemma SlowDelivery(t: Timing, age: nat, result: Verdict) returns (since: nat)
    requires !Roomy(t) && t.permits > 0 && !result.GiveBack?
    ensures Reachable(t, age, Solo(t, age, age + LeaseTime(t), Recording(result), since))
  {
    var late := Min(t.startup, t.connect + 3000);
    SlowAnswer(t, age, late, result);
    since := age + late + HOST_SLOT_WAIT + t.request;
    Wait(t, age, since, Recording(result), t.connect + 3000 - late);
  }

  /** Two deliveries: one of instance 0, and one that instance 1 began when the lease of the other ended. */
  predicate Overlap(t: Timing, s: State, age: nat, phase: Phase) {
    && |s.tasks| == 2 && s.tasks[0].owner == 0 && s.tasks[0].key == FIRST
    && s.tasks[1] == Fresh(1, age + LeaseTime(t), phase) && s.limits == map[]
  }

  /** While it is, instance 1 leases the event again. */
  lemma SecondDelivery(t: Timing, age: nat, result: Verdict) returns (s: State)
    requires !Roomy(t) && t.permits > 0 && !result.GiveBack?
    ensures Reachable(t, age, s) && Overlap(t, s, age, Starting) && s.tasks[0].phase == Recording(result)
    ensures s.now == age + LeaseTime(t) && s.q == OneItem(2, s.now + LeaseTime(t))
  {
    var since := SlowDelivery(t, age, result);
    s := Spawned(t, age, Solo(t, age, age + LeaseTime(t), Recording(result), since), 1, age + LeaseTime(t));
  }

  /** The first delivery records a retry: the event is due again, while the second one has just begun. */
  lemma LateRetry(t: Timing, age: nat, s: State, delay: nat) returns (s': State)
    requires Reachable(t, age, s) && Overlap(t, s, age, Starting) && s.tasks[0].phase == Recording(Retry(delay))
    requires s.now == age + LeaseTime(t) && s.q == OneItem(2, s.now + LeaseTime(t))
    ensures Reachable(t, age, s') && Overlap(t, s', age, Starting) && s'.tasks[0].phase == Over
    ensures s'.now == s.now && s'.q == OneItem(2, s.now + delay)
  {
    OneMore(t, age, s, Record(0, true));
    s' := Next(t, s, Record(0, true));
  }

  /** The second one takes `d` to get as far as `e` takes it. */
  lemma Later(t: Timing, age: nat, s: State, d: nat, e: Event, phase: Phase) returns (s': State)
    requires Reachable(t, age, s) && |s.tasks| == 2 && s.tasks[0].phase == Over
    requires s.tasks[1].phase != Over && s.now == s.tasks[1].since && d <= Budget(t, s.tasks[1].phase)
    requires var mid := s.(now := s.now + d); CanDo(t, mid, e) && Next(t, mid, e) == Moved(mid, 1, phase)
    ensures Reachable(t, age, s') && s' == Moved(s.(now := s.now + d), 1, phase)
  {
    OneMore(t, age, s, Tick(d));
    OneMore(t, age, s.(now := s.now + d), e);
    s' := Next(t, s.(now := s.now + d), e);
  }

  /** The second one is sending after `delay`, however it divides that among starting, waiting and sending. */
  lemma SendingAfter(t: Timing, age: nat, s: State, delay: nat) returns (s': State)
    requires Reachable(t, age, s) && Overlap(t, s, age, Starting) && s.tasks[0].phase == Over
    requires s.now == age + LeaseTime(t)
    requires delay <= t.startup + HOST_SLOT_WAIT + t.request
    ensures Reachable(t, age, s') && s'.now == s.now + delay && s'.q == s.q && s'.limits == map[]
    ensures |s'.tasks| == 2 && s'.tasks[0] == s.tasks[0] && s'.tasks[1].phase == Posting
    ensures s'.tasks[1].owner == 1 && s'.tasks[1].key == FIRST
  {
    var a := Min(delay, t.startup);
    var b := Min(delay - a, HOST_SLOT_WAIT);
    s' := Later(t, age, s, a, Begin(1), AtHost);
    s' := Later(t, age, s', b, Slot(1), Posting);
    OneMore(t, age, s', Tick(delay - a - b));
    s' := Next(t, s', Tick(delay - a - b));
  }

  /** The bound is exact. For any other timing and any retry delay that a delivery can outlast before its answer, some
      run has two requests for one event in flight at once: the first delivery's late retry makes the event due again
      while the second one is sending. */
  lemma TwoRequests(t: Timing, age: nat, delay: nat) returns (s: State)
    requires !Roomy(t) && t.permits > 0 && delay <= t.startup + HOST_SLOT_WAIT + t.request
    ensures Reachable(t, age, s)
    ensures |s.tasks| == 3 && s.tasks[1].key == s.tasks[2].key == FIRST
    ensures s.tasks[1].phase == s.tasks[2].phase == Posting
  {
    s := SecondDelivery(t, age, Retry(delay));
    s := LateRetry(t, age, s, delay);
    s := SendingAfter(t, age, s, delay);
    s := Spawned(t, age, s, 2, s.now);
    s := Sending(t, age, s, 2);
  }

  /** Nor is a delivery final then. However old an event must be for a failing delivery to give up on it, some run
      delivers an event of that age, and the next thing recorded makes it dead. */
  lemma DeliveredThenDead(t: Timing, age: nat) returns (s: State, last: Event)
    requires !Roomy(t) && t.permits > 0
    ensures Reachable(t, age, s) && age <= s.now && IsDelivered(s.q, FIRST) && CanDo(t, s, last)
    ensures var q := Next(t, s, last).q; FIRST in q.items && q.items[FIRST].status == Dead
  {
    s := SecondDelivery(t, age, Ok);
    s := Sending(t, age, s, 1);
    OneMore(t, age, s, Answer(1, GiveUp));
    s := Next(t, s, Answer(1, GiveUp));
    OneMore(t, age, s, Record(0, true));
    s := Next(t, s, Record(0, true));
    last := Record(1, true);
  }

  // ------------------------------------------------------------------ backoff

  const U64_MAX: nat := 0xFFFF_FFFF_FFFF_FFFF

  /** Upper end of the jitter (src/webhook/mod.rs:244-248). The product saturates at 2^64 - 1. */
  function BackoffCap(base: nat, cap: nat, attempt: int): nat {
    var shift := if attempt < 0 then 0 else if attempt > 30 then 30 else attempt;
    Max(Min(Min(base * Pow2(shift), U64_MAX), cap), base)
  }

  lemma {:induction false} Pow2Grows(a: nat, b: nat)
    requires a <= b
    ensures Pow2(a) <= Pow2(b)
  {
    if a < b {
      Pow2Grows(a, b - 1);
    }
  }

  /** The waiting range is never empty, starts at the base, grows with the attempt and ends at the cap, or at the
      base where the cap is below it. */
  lemma BackoffGrows(base: nat, cap: nat, a: int, b: int)
    requires a <= b
    ensures base <= BackoffCap(base, cap, a) <= BackoffCap(base, cap, b) <= Max(base, cap)
    ensures a <= 0 ==> BackoffCap(base, cap, a) == base
  {
    var i := if a < 0 then 0 else if a > 30 then 30 else a;
    var j := if b < 0 then 0 else if b > 30 then 30 else b;
    Pow2Grows(i, j);
    MulMonotone(base, Pow2(i), Pow2(j));
  }

  /** It doubles with every attempt until it meets the cap, up to the thirtieth. */
  lemma BackoffDoubles(base: nat, cap: nat, attempt: nat)
    requires attempt < 30 && base * Pow2(attempt + 1) <= U64_MAX
    ensures BackoffCap(base, cap, 0) == base
    ensures BackoffCap(base, cap, attempt + 1) == Max(Min(2 * BackoffCap(base, cap, attempt), cap), base)
  {
    assert base * Pow2(attempt + 1) == 2 * (base * Pow2(attempt));
    Pow2Grows(0, attempt);
    MulMonotone(base, 1, Pow2(attempt));
  }
}
