/** Session dispatch as a step system: one consumer routes inbound messages to new
    tasks, to the pending queue of a running turn, or to a deferred queue; tasks of
    one session take turns under a lock. Steps of different tasks interleave freely. */
module Dispatch {
  import opened Seqs
  import opened Transcript

  const PENDING_LIMIT := 20
  const DRAIN_LIMIT := 3

  /** `home` is "channel:chat"; the empty override stands for none. `automated` says
      that the message is an automation turn that waits for an idle session. */
  datatype Inbound = Inbound(id: nat, home: string, override: string, automated: bool)

  function SessionKey(m: Inbound): string {
    if m.override != "" then m.override else m.home
  }

  function EffectiveKey(unified: bool, m: Inbound): string {
    if unified && m.override == "" then "unified:default" else SessionKey(m)
  }

  /** The message as it is put aside for its session. */
  function Routed(unified: bool, m: Inbound): Inbound {
    var key := EffectiveKey(unified, m);
    if key != SessionKey(m) then Inbound(m.id, m.home, key, m.automated) else m
  }

  /** Rerouting fixes the session: later routing finds the same one. */
  lemma RoutedStays(unified: bool, m: Inbound)
    ensures Routed(unified, Routed(unified, m)) == Routed(unified, m)
    ensures EffectiveKey(unified, Routed(unified, m)) == EffectiveKey(unified, m)
    ensures Routed(unified, m).id == m.id && Routed(unified, m).automated == m.automated
  {
  }

  /** Waiting for the lock; holding it and waiting for the concurrency gate; running
      the turn; draining leftovers; announcing idleness; the same after a
      cancellation before the turn; done. */
  datatype Phase = Created | Waiting | Holding | Running | Draining | Announcing | Aborted | Done

  /** A direct task was dispatched by an automation itself; /stop does not know it. */
  datatype Task = Task(msg: Inbound, key: string, phase: Phase, lock: nat, queue: seq<Inbound>, injected: seq<Inbound>,
                       direct: bool)

  /** `pending` names the task whose queue is registered for a session. `arrived` is
      a ledger; `inline` are the messages handled without a turn, and `dropped` those that
      /stop discarded. */
  datatype State = State(
    unified: bool,
    bus: seq<Inbound>,
    tasks: seq<Task>,
    pending: map<string, nat>,
    deferred: map<string, seq<Inbound>>,
    locks: map<string, nat>,
    nextLock: nat,
    arrived: seq<Inbound>,
    inline: seq<Inbound>,
    dropped: seq<Inbound>)

  datatype Step =
    | Arrive(m: Inbound)
    | Direct(m: Inbound)
    | Consume(inline: bool)
    | Start(i: nat)
    | Acquire(i: nat)
    | Enter(i: nat)
    | Inject(i: nat, n: nat)
    | Continue(i: nat, m: Inbound)
    | EndTurn(i: nat)
    | DrainOne(i: nat)
    | Announce(i: nat)
    | Finish(i: nat)
    | Cancel(i: nat)
    | CancelAnnounce(i: nat)
    | Expire(key: string)
    | Stop(key: string)

  predicate Holds(p: Phase) {
    p.Holding? || p.Running? || p.Draining? || p.Announcing?
  }

  /** The task's frame is alive, so its lock is not collected. */
  predicate Live(p: Phase) {
    Holds(p) || p.Waiting? || p.Aborted?
  }

  predicate Unfinished(p: Phase) {
    Live(p) || p.Created?
  }

  // ---- Steps ----

  function Spawn(unified: bool, m: Inbound, direct: bool): Task {
    Task(Routed(unified, m), EffectiveKey(unified, m), Created, 0, [], [], direct)
  }

  /** Route the oldest message of the bus; `inline` when it is a control message, a
      command handled here, or one for a missing session. */
  function Consumed(s: State, inline: bool): State
    requires s.bus != []
  {
    var m, bus := s.bus[0], s.bus[1..];
    var key := EffectiveKey(s.unified, m);
    if inline then s.(bus := bus, inline := s.inline + [m])
    else if m.automated && key in s.pending then
      s.(bus := bus, deferred := Appended(s.deferred, key, Routed(s.unified, m)))
    else if key in s.pending && s.pending[key] < |s.tasks| && |s.tasks[s.pending[key]].queue| < PENDING_LIMIT then
      var i := s.pending[key];
      s.(bus := bus, tasks := s.tasks[i := Queued(s.tasks[i], Routed(s.unified, m))])
    else s.(bus := bus, tasks := s.tasks + [Spawn(s.unified, m, false)])
  }

  function Appended(queues: map<string, seq<Inbound>>, key: string, m: Inbound): map<string, seq<Inbound>> {
    queues[key := (if key in queues then queues[key] else []) + [m]]
  }

  function Queued(t: Task, m: Inbound): Task {
    t.(queue := t.queue + [m])
  }

  /** Publish the next deferred turn of a session, if there is one. */
  function PublishedNext(s: State, key: string): State {
    if key !in s.deferred || s.deferred[key] == [] then s
    else
      var queue := s.deferred[key];
      s.(bus := s.bus + [queue[0]],
         deferred := if |queue| == 1 then s.deferred - {key} else s.deferred[key := queue[1..]])
  }

  /** The end of /stop: unregister the session's queue and discard what waits in it. */
  function Stopped(s: State, key: string): State {
    if key !in s.pending || s.pending[key] >= |s.tasks| then s.(pending := s.pending - {key})
    else
      var i := s.pending[key];
      With(s, i, s.tasks[i].(queue := []))
        .(pending := s.pending - {key}, dropped := s.dropped + s.tasks[i].queue)
  }

  function LockOf(s: State, key: string): nat {
    if key in s.locks then s.locks[key] else s.nextLock
  }

  function With(s: State, i: nat, t: Task): State
    requires i < |s.tasks|
  {
    s.(tasks := s.tasks[i := t])
  }

  predicate Enabled(s: State, e: Step) {
    match e
    case Arrive(_) => true
    case Direct(_) => true
    case Consume(inline) => s.bus != [] && (s.bus[0].automated ==> !inline)
    case Start(i) => i < |s.tasks| && s.tasks[i].phase.Created?
    case Acquire(i) =>
      i < |s.tasks| && s.tasks[i].phase.Waiting?
      && forall j | 0 <= j < |s.tasks| && Holds(s.tasks[j].phase) :: s.tasks[j].lock != s.tasks[i].lock
    case Enter(i) => i < |s.tasks| && s.tasks[i].phase.Holding?
    case Inject(i, n) => i < |s.tasks| && s.tasks[i].phase.Running? && n <= |s.tasks[i].queue| && n <= DRAIN_LIMIT
    case Continue(i, m) =>
      i < |s.tasks| && s.tasks[i].phase.Running? && |s.tasks[i].queue| < PENDING_LIMIT
      && m.override == s.tasks[i].key != "" && m.automated == s.tasks[i].msg.automated
    case EndTurn(i) => i < |s.tasks| && s.tasks[i].phase.Running?
    case DrainOne(i) => i < |s.tasks| && s.tasks[i].phase.Draining? && s.tasks[i].queue != []
    case Announce(i) => i < |s.tasks| && s.tasks[i].phase.Draining? && s.tasks[i].queue == []
    case Finish(i) => i < |s.tasks| && (s.tasks[i].phase.Announcing? || s.tasks[i].phase.Aborted?)
    case Cancel(i) => i < |s.tasks| && (s.tasks[i].phase.Waiting? || s.tasks[i].phase.Holding?)
    case CancelAnnounce(i) => i < |s.tasks| && (s.tasks[i].phase.Announcing? || s.tasks[i].phase.Aborted?)
    case Expire(key) =>
      key in s.locks
      && forall j | 0 <= j < |s.tasks| && Live(s.tasks[j].phase) :: s.tasks[j].lock != s.locks[key]
    case Stop(key) =>
      forall j | 0 <= j < |s.tasks| && s.tasks[j].key == key && !s.tasks[j].direct :: !Unfinished(s.tasks[j].phase)
  }

  /** A cancellation while the turn runs ends the turn like any other outcome; /stop has
      cancelled and awaited the session's other tasks before it discards anything. */
  function Next(s: State, e: Step): State
    requires Enabled(s, e)
  {
    match e
    case Arrive(m) => s.(bus := s.bus + [m], arrived := s.arrived + [m])
    case Direct(m) => s.(tasks := s.tasks + [Spawn(s.unified, m, true)], arrived := s.arrived + [m])
    case Consume(inline) => Consumed(s, inline)
    case Start(i) =>
      var t := s.tasks[i];
      var lock := LockOf(s, t.key);
      With(s, i, t.(phase := Waiting, lock := lock))
        .(locks := s.locks[t.key := lock], nextLock := if t.key in s.locks then s.nextLock else s.nextLock + 1)
    case Acquire(i) => With(s, i, s.tasks[i].(phase := Holding))
    case Enter(i) =>
      With(s, i, s.tasks[i].(phase := Running, queue := [])).(pending := s.pending[s.tasks[i].key := i])
    case Inject(i, n) =>
      var t := s.tasks[i];
      With(s, i, t.(queue := t.queue[n..], injected := t.injected + t.queue[..n]))
    case Continue(i, m) => With(s, i, Queued(s.tasks[i], m)).(arrived := s.arrived + [m])
    case EndTurn(i) =>
      var t := s.tasks[i];
      With(s, i, t.(phase := Draining))
        .(pending := if t.key in s.pending && s.pending[t.key] == i then s.pending - {t.key} else s.pending)
    case DrainOne(i) =>
      var t := s.tasks[i];
      With(s, i, t.(queue := t.queue[1..])).(bus := s.bus + [t.queue[0]])
    case Announce(i) => With(s, i, s.tasks[i].(phase := Announcing))
    case Finish(i) => With(PublishedNext(s, s.tasks[i].key), i, s.tasks[i].(phase := Done))
    case Cancel(i) => With(s, i, s.tasks[i].(phase := Aborted))
    case CancelAnnounce(i) => With(s, i, s.tasks[i].(phase := Done))
    case Expire(key) => s.(locks := s.locks - {key})
    case Stop(key) => Stopped(s, key)
  }

  /** The steps of one task. */
  predicate ActsOn(e: Step, i: nat) {
    !e.Arrive? && !e.Direct? && !e.Consume? && !e.Expire? && !e.Stop? && e.i == i
  }

  lemma OtherTaskStays(s: State, e: Step, i: nat)
    requires Enabled(s, e) && !e.Consume? && !e.Stop? && i < |s.tasks| && !ActsOn(e, i)
    ensures i < |Next(s, e).tasks| && Next(s, e).tasks[i] == s.tasks[i]
  {
    if e.Finish? { PublishTasks(s, s.tasks[e.i].key); }
    hide Consumed, PublishedNext, EffectiveKey, Routed;
  }

  /** Routing leaves a task as it is or queues the message, which is no automation turn,
      for it. */
  lemma ConsumeTask(s: State, inline: bool, i: nat)
    requires s.bus != [] && i < |s.tasks|
    ensures i < |Consumed(s, inline).tasks|
    ensures var t, t', m := s.tasks[i], Consumed(s, inline).tasks[i], Routed(s.unified, s.bus[0]);
            t' == t || (i in s.pending.Values && !m.automated && |t.queue| < PENDING_LIMIT && t' == Queued(t, m))
  {
    RoutedStays(s.unified, s.bus[0]);
    hide EffectiveKey, Routed, Appended;
  }

  lemma StopTask(s: State, key: string, i: nat)
    requires i < |s.tasks|
    ensures |Stopped(s, key).tasks| == |s.tasks| && Stopped(s, key).locks == s.locks
    ensures var t, t' := s.tasks[i], Stopped(s, key).tasks[i];
            t' == t || (key in s.pending && s.pending[key] == i && t' == t.(queue := []))
  {
  }

  lemma NewTask(s: State, e: Step, i: nat)
    requires Enabled(s, e) && |s.tasks| <= i < |Next(s, e).tasks|
    ensures var t := Next(s, e).tasks[i];
            i == |s.tasks| && t.phase.Created? && t.queue == [] && t.injected == []
  {
    if e.Finish? { PublishTasks(s, s.tasks[e.i].key); }
    hide PublishedNext, EffectiveKey, Routed, Appended;
  }

  function Initial(unified: bool): State {
    State(unified, [], [], map[], map[], map[], 0, [], [], [])
  }

  // ---- Where every message is ----

  /** How often an id occurs. */
  function Count(ms: seq<Inbound>, id: nat): nat {
    if ms == [] then 0 else Count(ms[..|ms| - 1], id) + if ms[|ms| - 1].id == id then 1 else 0
  }

  lemma {:induction false} CountAppend(a: seq<Inbound>, b: seq<Inbound>, id: nat)
    ensures Count(a + b, id) == Count(a, id) + Count(b, id)
  {
    if b == [] {
      assert a + b == a;
    } else {
      SplitLast(a, b);
      CountAppend(a, b[..|b| - 1], id);
    }
  }

  lemma CountOne(m: Inbound, id: nat)
    ensures Count([m], id) == if m.id == id then 1 else 0
  {
    assert [m][..0] == [];
  }

  lemma CountSnoc(ms: seq<Inbound>, m: Inbound, id: nat)
    ensures Count(ms + [m], id) == Count(ms, id) + if m.id == id then 1 else 0
  {
    CountAppend(ms, [m], id);
    CountOne(m, id);
  }

  lemma CountSplit(ms: seq<Inbound>, n: nat, id: nat)
    requires n <= |ms|
    ensures Count(ms, id) == Count(ms[..n], id) + Count(ms[n..], id)
    ensures n == 1 ==> Count(ms, id) == (if ms[0].id == id then 1 else 0) + Count(ms[1..], id)
  {
    assert ms == ms[..n] + ms[n..];
    CountAppend(ms[..n], ms[n..], id);
    if n == 1 {
      assert ms[..1] == [ms[0]];
      CountOne(ms[0], id);
    }
  }

  /** In a task: its own message, its queue, and what was injected into its turn. */
  function InTask(t: Task, id: nat): nat {
    (if t.msg.id == id then 1 else 0) + Count(t.queue, id) + Count(t.injected, id)
  }

  function InTasks(tasks: seq<Task>, id: nat): nat {
    if tasks == [] then 0 else InTasks(tasks[..|tasks| - 1], id) + InTask(tasks[|tasks| - 1], id)
  }

  lemma InTasksSnoc(tasks: seq<Task>, t: Task, id: nat)
    ensures InTasks(tasks + [t], id) == InTasks(tasks, id) + InTask(t, id)
  {
    assert (tasks + [t])[..|tasks|] == tasks;
  }

  lemma {:induction false} InTasksUpdate(tasks: seq<Task>, i: nat, t: Task, id: nat)
    requires i < |tasks|
    ensures InTasks(tasks[i := t], id) + InTask(tasks[i], id) == InTasks(tasks, id) + InTask(t, id)
  {
    hide InTask;
    var n := |tasks| - 1;
    if i < n {
      InTasksUpdate(tasks[..n], i, t, id);
      assert tasks[i := t][..n] == tasks[..n][i := t];
    } else {
      assert tasks[i := t][..n] == tasks[..n];
    }
  }

  ghost function InQueues(queues: map<string, seq<Inbound>>, id: nat): nat
    decreases |queues|
  {
    if queues == map[] then 0
    else
      var key :| key in queues;
      InQueues(queues - {key}, id) + Count(queues[key], id)
  }

  /** The sum does not depend on the order in which queues are taken. */
  lemma {:induction false} InQueuesWithout(queues: map<string, seq<Inbound>>, key: string, id: nat)
    requires key in queues
    ensures InQueues(queues, id) == InQueues(queues - {key}, id) + Count(queues[key], id)
    decreases |queues|
  {
    hide Count;
    var first :| first in queues && InQueues(queues, id) == InQueues(queues - {first}, id) + Count(queues[first], id);
    if first != key {
      InQueuesWithout(queues - {first}, key, id);
      InQueuesWithout(queues - {key}, first, id);
      assert queues - {first} - {key} == queues - {key} - {first};
    }
  }

  lemma InQueuesSet(queues: map<string, seq<Inbound>>, key: string, queue: seq<Inbound>, id: nat)
    ensures InQueues(queues[key := queue], id) + (if key in queues then Count(queues[key], id) else 0)
         == InQueues(queues, id) + Count(queue, id)
  {
    hide Count;
    InQueuesWithout(queues[key := queue], key, id);
    if key in queues {
      InQueuesWithout(queues, key, id);
      assert queues[key := queue] - {key} == queues - {key};
    } else {
      assert queues[key := queue] - {key} == queues;
    }
  }

  /** All places together. */
  ghost function Placed(s: State, id: nat): nat {
    Count(s.bus, id) + InTasks(s.tasks, id) + InQueues(s.deferred, id) + Count(s.inline, id)
    + Count(s.dropped, id)
  }

  /** Every message that arrived is in exactly one place, as often as it arrived. */
  ghost predicate Conserved(s: State) {
    forall id :: Placed(s, id) == Count(s.arrived, id)
  }

  lemma AppendedKeeps(queues: map<string, seq<Inbound>>, key: string, m: Inbound, id: nat)
    ensures InQueues(Appended(queues, key, m), id) == InQueues(queues, id) + if m.id == id then 1 else 0
  {
    hide Count, InQueues;
    var queue := if key in queues then queues[key] else [];
    CountSnoc(queue, m, id);
    InQueuesSet(queues, key, queue + [m], id);
    CountNone(id);
  }

  lemma QueuedKeeps(tasks: seq<Task>, i: nat, m: Inbound, id: nat)
    requires i < |tasks|
    ensures InTasks(tasks[i := Queued(tasks[i], m)], id) == InTasks(tasks, id) + if m.id == id then 1 else 0
  {
    hide Count, InTasks;
    InTasksUpdate(tasks, i, Queued(tasks[i], m), id);
    CountSnoc(tasks[i].queue, m, id);
  }

  lemma SpawnedKeeps(unified: bool, tasks: seq<Task>, m: Inbound, direct: bool, id: nat)
    ensures InTasks(tasks + [Spawn(unified, m, direct)], id) == InTasks(tasks, id) + if m.id == id then 1 else 0
  {
    hide Count, InTasks, EffectiveKey;
    InTasksSnoc(tasks, Spawn(unified, m, direct), id);
    CountNone(id);
  }

  lemma ConsumeKeeps(s: State, inline: bool, id: nat)
    requires s.bus != []
    ensures Placed(Consumed(s, inline), id) == Placed(s, id)
    ensures Consumed(s, inline).arrived == s.arrived
  {
    hide Count, InTasks, InQueues, EffectiveKey, Routed, Appended, Queued, Spawn;
    var m := s.bus[0];
    var key, routed := EffectiveKey(s.unified, m), Routed(s.unified, m);
    CountSplit(s.bus, 1, id);
    if inline {
      CountSnoc(s.inline, m, id);
    } else {
      RoutedStays(s.unified, m);
      if m.automated && key in s.pending {
        AppendedKeeps(s.deferred, key, routed, id);
      } else if key in s.pending && s.pending[key] < |s.tasks| && |s.tasks[s.pending[key]].queue| < PENDING_LIMIT {
        QueuedKeeps(s.tasks, s.pending[key], routed, id);
      } else {
        SpawnedKeeps(s.unified, s.tasks, m, false, id);
      }
    }
  }

  lemma CountNone(id: nat)
    ensures Count([], id) == 0
  {
  }

  lemma PublishKeeps(s: State, key: string, id: nat)
    ensures Placed(PublishedNext(s, key), id) == Placed(s, id)
    ensures PublishedNext(s, key).arrived == s.arrived && PublishedNext(s, key).tasks == s.tasks
  {
    hide Count, InTasks, InQueues;
    if key in s.deferred && s.deferred[key] != [] {
      var queue := s.deferred[key];
      CountSplit(queue, 1, id);
      CountSnoc(s.bus, queue[0], id);
      CountNone(id);
      if |queue| == 1 {
        assert queue[1..] == [];
        InQueuesWithout(s.deferred, key, id);
      } else {
        InQueuesSet(s.deferred, key, queue[1..], id);
      }
    }
  }

  /** No step loses or duplicates a message. */
  lemma StepConserves(s: State, e: Step)
    requires Enabled(s, e) && Conserved(s)
    requires e.Enter? ==> s.tasks[e.i].queue == []
    ensures Conserved(Next(s, e))
  {
    var s' := Next(s, e);
    forall id ensures Placed(s', id) == Count(s'.arrived, id) {
      assert Placed(s, id) == Count(s.arrived, id);
      StepPlaces(s, e, id);
    }
  }

  lemma StepPlaces(s: State, e: Step, id: nat)
    requires Enabled(s, e)
    requires e.Enter? ==> s.tasks[e.i].queue == []
    ensures Placed(Next(s, e), id) + Count(s.arrived, id) == Placed(s, id) + Count(Next(s, e).arrived, id)
  {
    hide Count, InTasks, InQueues, Consumed, PublishedNext, EffectiveKey, Routed;
    match e {
      case Arrive(m) => CountSnoc(s.bus, m, id); CountSnoc(s.arrived, m, id);
      case Direct(m) => SpawnedKeeps(s.unified, s.tasks, m, true, id); CountSnoc(s.arrived, m, id);
      case Consume(inline) => ConsumeKeeps(s, inline, id);
      case Inject(i, n) =>
        var t := s.tasks[i];
        InTasksUpdate(s.tasks, i, t.(queue := t.queue[n..], injected := t.injected + t.queue[..n]), id);
        CountSplit(t.queue, n, id);
        CountAppend(t.injected, t.queue[..n], id);
      case Continue(i, m) => QueuedKeeps(s.tasks, i, m, id); CountSnoc(s.arrived, m, id);
      case DrainOne(i) =>
        var t := s.tasks[i];
        InTasksUpdate(s.tasks, i, t.(queue := t.queue[1..]), id);
        CountSplit(t.queue, 1, id); CountSnoc(s.bus, t.queue[0], id);
      case Finish(i) =>
        PublishKeeps(s, s.tasks[i].key, id);
        InTasksUpdate(s.tasks, i, s.tasks[i].(phase := Done), id);
      case Expire(_) =>
      case Stop(key) => StopPlaces(s, key, id);
      case _ => PhasePlaces(s, e, id);
    }
  }

  lemma StopPlaces(s: State, key: string, id: nat)
    ensures Placed(Stopped(s, key), id) == Placed(s, id) && Stopped(s, key).arrived == s.arrived
  {
    hide Count, InTasks, InQueues;
    if key in s.pending && s.pending[key] < |s.tasks| {
      var i := s.pending[key];
      InTasksUpdate(s.tasks, i, s.tasks[i].(queue := []), id);
      CountAppend(s.dropped, s.tasks[i].queue, id);
      CountNone(id);
    }
  }

  /** The steps that change one task's phase and move no message. */
  lemma PhasePlaces(s: State, e: Step, id: nat)
    requires Enabled(s, e)
    requires e.Start? || e.Acquire? || e.Enter? || e.EndTurn? || e.Announce? || e.Cancel? || e.CancelAnnounce?
    requires e.Enter? ==> s.tasks[e.i].queue == []
    ensures Placed(Next(s, e), id) == Placed(s, id) && Next(s, e).arrived == s.arrived
  {
    hide Count, InTasks, InQueues, EffectiveKey;
    InTasksUpdate(s.tasks, e.i, Next(s, e).tasks[e.i], id);
  }

  // ---- Locks and registration ----

  /** Live tasks of a session hold on to the lock that the weak map has for it, and
      two tasks between taking the lock and finishing have different locks. */
  ghost predicate LocksOk(s: State) {
    && (forall i | 0 <= i < |s.tasks| && Live(s.tasks[i].phase) ::
          s.tasks[i].key in s.locks && s.locks[s.tasks[i].key] == s.tasks[i].lock)
    && forall i, j | 0 <= i < j < |s.tasks| && Holds(s.tasks[i].phase) && Holds(s.tasks[j].phase) ::
         s.tasks[i].lock != s.tasks[j].lock
  }

  /** A registered queue belongs to the task that is running that session's turn; the queue
      of a direct turn can be unregistered by /stop. */
  ghost predicate RegistryOk(s: State) {
    && (forall key | key in s.pending ::
          s.pending[key] < |s.tasks| && s.tasks[s.pending[key]].phase.Running? && s.tasks[s.pending[key]].key == key)
    && forall i | 0 <= i < |s.tasks| && s.tasks[i].phase.Running? && !s.tasks[i].direct ::
         s.tasks[i].key in s.pending && s.pending[s.tasks[i].key] == i
  }

  /** Only a running or draining task has queued messages, and not too many. */
  ghost predicate QueuesOk(s: State) {
    forall i | 0 <= i < |s.tasks| :: QueueOk(s.tasks[i])
  }

  predicate QueueOk(t: Task) {
    |t.queue| <= PENDING_LIMIT && (t.phase.Running? || t.phase.Draining? || t.queue == [])
  }

  ghost predicate Safe(s: State) {
    LocksOk(s) && RegistryOk(s) && QueuesOk(s) && Conserved(s)
  }

  lemma HoldersDiffer(s: State, i: nat, j: nat)
    requires LocksOk(s) && i < |s.tasks| && j < |s.tasks|
    requires Holds(s.tasks[i].phase) && Holds(s.tasks[j].phase) && s.tasks[i].key == s.tasks[j].key
    ensures i == j
  {
  }

  /** Routing starts no turn and ends none: at most it extends the queue of the
      registered task or adds a task that has not started. */
  lemma ConsumeTasks(s: State, inline: bool)
    requires s.bus != []
    ensures var s' := Consumed(s, inline);
            && s'.pending == s.pending && s'.locks == s.locks
            && |s.tasks| <= |s'.tasks| <= |s.tasks| + 1
            && (forall i | 0 <= i < |s.tasks| ::
                  var t, t' := s.tasks[i], s'.tasks[i];
                  t'.key == t.key && t'.phase == t.phase && t'.lock == t.lock && t'.direct == t.direct
                  && (t'.queue == t.queue || (i in s.pending.Values && |t'.queue| == |t.queue| + 1 <= PENDING_LIMIT)))
            && (|s'.tasks| > |s.tasks| ==> s'.tasks[|s.tasks|].phase.Created? && s'.tasks[|s.tasks|].queue == [])
  {
    hide EffectiveKey, Routed, Appended;
  }

  lemma PublishTasks(s: State, key: string)
    ensures var s' := PublishedNext(s, key);
            s'.tasks == s.tasks && s'.pending == s.pending && s'.locks == s.locks
  {
  }

  /** Steps that start no turn, end none, and touch no lock. */
  ghost predicate Quiet(s: State, s': State) {
    && s'.pending == s.pending && s'.locks == s.locks
    && |s.tasks| <= |s'.tasks|
    && (forall i | 0 <= i < |s.tasks| ::
          s'.tasks[i].key == s.tasks[i].key && s'.tasks[i].phase == s.tasks[i].phase
          && s'.tasks[i].lock == s.tasks[i].lock && s'.tasks[i].direct == s.tasks[i].direct)
    && forall i | |s.tasks| <= i < |s'.tasks| :: s'.tasks[i].phase.Created?
  }

  lemma QuietKeeps(s: State, s': State)
    requires Quiet(s, s')
    ensures LocksOk(s) ==> LocksOk(s')
    ensures RegistryOk(s) ==> RegistryOk(s')
  {
  }

  predicate IsQuiet(e: Step) {
    e.Arrive? || e.Direct? || e.Consume? || e.Inject? || e.Continue? || e.DrainOne?
  }

  lemma QuietSteps(s: State, e: Step)
    requires Enabled(s, e) && IsQuiet(e)
    ensures Quiet(s, Next(s, e))
  {
    if e.Consume? { ConsumeTasks(s, e.inline); }
    hide Consumed, EffectiveKey, Routed;
  }

  /** One task changes its phase; it does not come alive, and when it takes the lock
      nobody else has it. */
  lemma PhaseKeepsLocks(s: State, s': State, i: nat, t: Task)
    requires LocksOk(s) && i < |s.tasks| && s'.locks == s.locks && s'.tasks == s.tasks[i := t]
    requires t.key == s.tasks[i].key && t.lock == s.tasks[i].lock
    requires Live(t.phase) ==> Live(s.tasks[i].phase)
    requires Holds(t.phase) ==>
               (Holds(s.tasks[i].phase) ||
                forall j | 0 <= j < |s.tasks| && Holds(s.tasks[j].phase) :: s.tasks[j].lock != s.tasks[i].lock)
    ensures LocksOk(s')
  {
    hide Live;
    forall a, b | 0 <= a < b < |s'.tasks| && Holds(s'.tasks[a].phase) && Holds(s'.tasks[b].phase)
      ensures s'.tasks[a].lock != s'.tasks[b].lock
    {
    }
  }

  lemma StartKeepsLocks(s: State, i: nat)
    requires LocksOk(s) && Enabled(s, Start(i))
    ensures LocksOk(Next(s, Start(i)))
  {
  }

  lemma ExpireKeepsLocks(s: State, key: string)
    requires LocksOk(s) && Enabled(s, Expire(key))
    ensures LocksOk(Next(s, Expire(key)))
  {
  }

  lemma StopKeepsLocks(s: State, key: string)
    requires LocksOk(s)
    ensures LocksOk(Stopped(s, key))
  {
    var s' := Stopped(s, key);
    forall i | 0 <= i < |s.tasks|
      ensures |s'.tasks| == |s.tasks| && s'.locks == s.locks && s'.tasks[i].phase == s.tasks[i].phase
      ensures s'.tasks[i].key == s.tasks[i].key && s'.tasks[i].lock == s.tasks[i].lock
    {
      StopTask(s, key, i);
    }
    hide Stopped;
  }

  lemma StopKeepsRegistry(s: State, key: string)
    requires RegistryOk(s) && Enabled(s, Stop(key))
    ensures RegistryOk(Stopped(s, key))
  {
    var s' := Stopped(s, key);
    StopUnregisters(s, key);
    hide Stopped;
    forall other | other in s'.pending
      ensures s'.pending[other] < |s'.tasks|
      ensures s'.tasks[s'.pending[other]].phase.Running? && s'.tasks[s'.pending[other]].key == other
    {
      StopTask(s, key, s.pending[other]);
    }
    forall i | 0 <= i < |s'.tasks| && s'.tasks[i].phase.Running? && !s'.tasks[i].direct
      ensures s'.tasks[i].key in s'.pending && s'.pending[s'.tasks[i].key] == i
    {
      StopTask(s, key, i);
    }
  }

  lemma StopUnregisters(s: State, key: string)
    ensures Stopped(s, key).pending == s.pending - {key} && |Stopped(s, key).tasks| == |s.tasks|
  {
  }

  lemma LocksStep(s: State, e: Step)
    requires Enabled(s, e) && LocksOk(s)
    ensures LocksOk(Next(s, e))
  {
    if IsQuiet(e) {
      QuietSteps(s, e);
      QuietKeeps(s, Next(s, e));
    } else if e.Start? {
      StartKeepsLocks(s, e.i);
    } else if e.Expire? {
      ExpireKeepsLocks(s, e.key);
    } else if e.Stop? {
      StopKeepsLocks(s, e.key);
    } else {
      if e.Finish? { PublishTasks(s, s.tasks[e.i].key); }
      hide LocksOk, PublishedNext, Consumed;
      PhaseKeepsLocks(s, Next(s, e), e.i, Next(s, e).tasks[e.i]);
    }
  }

  lemma PhaseKeepsRegistry(s: State, s': State, i: nat, t: Task)
    requires RegistryOk(s) && i < |s.tasks| && s'.pending == s.pending && s'.tasks == s.tasks[i := t]
    requires t.key == s.tasks[i].key && t.direct == s.tasks[i].direct
    requires t.phase.Running? <==> s.tasks[i].phase.Running?
    ensures RegistryOk(s')
  {
  }

  lemma EnterKeepsRegistry(s: State, i: nat)
    requires LocksOk(s) && RegistryOk(s) && Enabled(s, Enter(i))
    ensures RegistryOk(Next(s, Enter(i)))
  {
    forall j | 0 <= j < |s.tasks| && s.tasks[j].phase.Running? ensures s.tasks[j].key != s.tasks[i].key {
      if s.tasks[j].key == s.tasks[i].key { HoldersDiffer(s, i, j); }
    }
    hide LocksOk;
  }

  lemma EndKeepsRegistry(s: State, i: nat)
    requires RegistryOk(s) && Enabled(s, EndTurn(i))
    ensures RegistryOk(Next(s, EndTurn(i)))
  {
  }

  lemma RegistryStep(s: State, e: Step)
    requires Enabled(s, e) && LocksOk(s) && RegistryOk(s)
    ensures RegistryOk(Next(s, e))
  {
    if IsQuiet(e) {
      QuietSteps(s, e);
      QuietKeeps(s, Next(s, e));
    } else if e.Enter? {
      EnterKeepsRegistry(s, e.i);
    } else if e.EndTurn? {
      EndKeepsRegistry(s, e.i);
    } else if e.Stop? {
      StopKeepsRegistry(s, e.key);
    } else if !e.Expire? {
      if e.Finish? { PublishTasks(s, s.tasks[e.i].key); }
      hide LocksOk, RegistryOk, PublishedNext, Consumed;
      PhaseKeepsRegistry(s, Next(s, e), e.i, Next(s, e).tasks[e.i]);
    }
  }

  lemma QueuesStep(s: State, e: Step)
    requires Enabled(s, e) && RegistryOk(s) && QueuesOk(s)
    ensures QueuesOk(Next(s, e))
  {
    var s' := Next(s, e);
    forall i | 0 <= i < |s'.tasks| ensures QueueOk(s'.tasks[i]) {
      if i >= |s.tasks| {
        NewTask(s, e, i);
      } else {
        assert QueueOk(s.tasks[i]);
        TaskQueueStep(s, e, i);
      }
    }
    hide *;
  }

  lemma TaskQueueStep(s: State, e: Step, i: nat)
    requires Enabled(s, e) && RegistryOk(s) && i < |s.tasks| && QueueOk(s.tasks[i])
    ensures i < |Next(s, e).tasks| && QueueOk(Next(s, e).tasks[i])
  {
    if e.Consume? {
      ConsumeTask(s, e.inline, i);
      hide Consumed, Routed;
    } else if e.Stop? {
      StopTask(s, e.key, i);
      hide Stopped;
    } else if ActsOn(e, i) {
      if e.Finish? { PublishTasks(s, s.tasks[e.i].key); }
      hide Consumed, PublishedNext, RegistryOk;
    } else {
      OtherTaskStays(s, e, i);
      hide *;
    }
  }

  lemma SafeStep(s: State, e: Step)
    requires Enabled(s, e) && Safe(s)
    ensures Safe(Next(s, e))
  {
    LocksStep(s, e);
    RegistryStep(s, e);
    QueuesStep(s, e);
    assert e.Enter? ==> s.tasks[e.i].queue == [];
    hide *;
    StepConserves(s, e);
  }

  // ---- Follow-ups of a running turn ----

  /** No automation turn is mixed into a live one: only an automation turn's own
      continuation waits in a pending queue or is injected. */
  ghost predicate Unmixed(s: State) {
    forall i | 0 <= i < |s.tasks| :: UnmixedTask(s.tasks[i])
  }

  ghost predicate UnmixedTask(t: Task) {
    forall m | m in t.queue || m in t.injected :: m.automated ==> t.msg.automated
  }

  lemma UnmixedStep(s: State, e: Step)
    requires Enabled(s, e) && Unmixed(s)
    ensures Unmixed(Next(s, e))
  {
    var s' := Next(s, e);
    forall i | 0 <= i < |s'.tasks| ensures UnmixedTask(s'.tasks[i]) {
      if i >= |s.tasks| {
        NewTask(s, e, i);
      } else {
        assert UnmixedTask(s.tasks[i]);
        UnmixedTaskStep(s, e, i);
      }
    }
    hide *;
  }

  lemma UnmixedTaskStep(s: State, e: Step, i: nat)
    requires Enabled(s, e) && i < |s.tasks| && UnmixedTask(s.tasks[i])
    ensures i < |Next(s, e).tasks| && UnmixedTask(Next(s, e).tasks[i])
  {
    if e.Consume? {
      ConsumeTask(s, e.inline, i);
      hide Consumed, Routed;
    } else if e.Stop? {
      StopTask(s, e.key, i);
      hide Stopped;
    } else if ActsOn(e, i) {
      if e.Finish? { PublishTasks(s, s.tasks[e.i].key); }
      hide Consumed, PublishedNext;
    } else {
      OtherTaskStays(s, e, i);
      hide *;
    }
  }

  /** /stop for the session of a direct task. */
  predicate StopsDirect(e: Step, t: Task) {
    t.direct && e.Stop? && e.key == t.key
  }

  /** While a turn runs, its follow-ups are taken in the order in which they were routed. */
  lemma FollowUpsKeepOrder(s: State, e: Step, i: nat)
    requires Enabled(s, e) && i < |s.tasks| && s.tasks[i].phase.Running?
    requires i < |Next(s, e).tasks| && Next(s, e).tasks[i].phase.Running?
    requires RegistryOk(s) && !StopsDirect(e, s.tasks[i])
    ensures var t, t' := s.tasks[i], Next(s, e).tasks[i];
            t.injected <= t'.injected && t.injected + t.queue <= t'.injected + t'.queue
  {
    if e.Consume? {
      ConsumeTask(s, e.inline, i);
      hide Consumed, Routed;
    } else if e.Stop? {
      StopTask(s, e.key, i);
      hide Stopped;
    } else if ActsOn(e, i) {
      OwnStepKeepsOrder(s, e, i);
      hide Next;
    } else {
      OtherTaskStays(s, e, i);
      hide *;
    }
  }

  lemma OwnStepKeepsOrder(s: State, e: Step, i: nat)
    requires Enabled(s, e) && i < |s.tasks| && s.tasks[i].phase.Running? && ActsOn(e, i)
    requires i < |Next(s, e).tasks| && Next(s, e).tasks[i].phase.Running?
    ensures var t, t' := s.tasks[i], Next(s, e).tasks[i];
            t.injected <= t'.injected && t.injected + t.queue <= t'.injected + t'.queue
  {
    if e.Inject? {
      InjectedInOrder(s.tasks[i].injected, s.tasks[i].queue, e.n);
    } else {
      assert e.Continue?;
    }
  }

  lemma InjectedInOrder(injected: seq<Inbound>, queue: seq<Inbound>, n: nat)
    requires n <= |queue|
    ensures injected + queue == injected + queue[..n] + queue[n..]
  {
  }

  predicate OwnDrainOrEnd(e: Step, i: nat) {
    (e.Inject? && e.i == i) || (e.EndTurn? && e.i == i)
  }

  /** What others do, and its own continuations, leave a running turn running and its
      queue no shorter; a full queue stays as it is. Only /stop can empty the queue of a
      direct turn. */
  lemma RunningTurnStays(s: State, e: Step, i: nat)
    requires Enabled(s, e) && RegistryOk(s) && i < |s.tasks| && s.tasks[i].phase.Running?
    requires !OwnDrainOrEnd(e, i) && !StopsDirect(e, s.tasks[i])
    ensures i < |Next(s, e).tasks| && Next(s, e).tasks[i].phase.Running? && Next(s, e).tasks[i].key == s.tasks[i].key
    ensures Next(s, e).tasks[i].msg == s.tasks[i].msg && Next(s, e).tasks[i].direct == s.tasks[i].direct
    ensures |s.tasks[i].queue| <= |Next(s, e).tasks[i].queue|
    ensures |s.tasks[i].queue| == PENDING_LIMIT ==> Next(s, e).tasks[i] == s.tasks[i]
  {
    if e.Consume? {
      ConsumeTask(s, e.inline, i);
      hide Consumed, Routed;
    } else if e.Stop? {
      StopTask(s, e.key, i);
      hide Stopped;
    } else if ActsOn(e, i) {
      assert e.Continue?;
    } else {
      OtherTaskStays(s, e, i);
      hide *;
    }
  }

  /** A continuation of the turn, as the turn itself puts it. */
  predicate IsContinuation(t: Task, m: Inbound) {
    m.override == t.key != "" && m.automated == t.msg.automated
  }

  // ---- Deferred turns ----

  /** Deferred queues hold automation turns of their own session and are not kept empty. */
  ghost predicate DeferredOk(s: State) {
    forall key | key in s.deferred ::
      s.deferred[key] != [] && forall m | m in s.deferred[key] :: m.automated && EffectiveKey(s.unified, m) == key
  }

  ghost predicate HasTask(s: State, key: string) {
    exists i :: 0 <= i < |s.tasks| && Unfinished(s.tasks[i].phase) && s.tasks[i].key == key
  }

  ghost predicate OnBus(s: State, key: string) {
    exists m :: m in s.bus && m.automated && EffectiveKey(s.unified, m) == key
  }

  /** Something is left that will publish the session's next deferred turn. */
  ghost predicate Awaited(s: State, key: string) {
    HasTask(s, key) || OnBus(s, key)
  }

  ghost predicate NoneStranded(s: State) {
    forall key | key in s.deferred :: Awaited(s, key)
  }

  /** The one way to strand deferred turns: the last unfinished task of the session is
      cancelled while it announces idleness, with no automation turn on the bus. */
  ghost predicate Strands(s: State, e: Step)
    requires Enabled(s, e)
  {
    && e.CancelAnnounce?
    && var key := s.tasks[e.i].key;
       && key in s.deferred && !OnBus(s, key)
       && forall j | 0 <= j < |s.tasks| && j != e.i && s.tasks[j].key == key :: !Unfinished(s.tasks[j].phase)
  }

  lemma DeferredStep(s: State, e: Step)
    requires Enabled(s, e) && DeferredOk(s)
    ensures DeferredOk(Next(s, e))
  {
    if e.Consume? {
      ConsumeKeepsDeferred(s, e.inline);
      hide Consumed, DeferredOk;
    } else if e.Finish? {
      PublishKeepsDeferred(s, s.tasks[e.i].key);
      hide PublishedNext, EffectiveKey;
    } else {
      hide EffectiveKey, Routed;
    }
  }

  lemma ConsumeKeepsDeferred(s: State, inline: bool)
    requires s.bus != [] && DeferredOk(s)
    ensures DeferredOk(Consumed(s, inline))
  {
    RoutedStays(s.unified, s.bus[0]);
    hide EffectiveKey, Routed;
  }

  lemma PublishKeepsDeferred(s: State, key: string)
    requires DeferredOk(s)
    ensures DeferredOk(PublishedNext(s, key))
    ensures forall other | other in PublishedNext(s, key).deferred :: other in s.deferred
    ensures key in s.deferred ==> OnBus(PublishedNext(s, key), key)
    ensures forall other | OnBus(s, other) :: OnBus(PublishedNext(s, key), other)
  {
    hide EffectiveKey;
    var s' := PublishedNext(s, key);
    if key in s.deferred {
      var queue := s.deferred[key];
      assert queue[0] in queue && queue[0] in s'.bus;
      forall m | m in queue[1..] ensures m in queue {}
    }
    forall other | OnBus(s, other) ensures OnBus(s', other) {
      var m :| m in s.bus && m.automated && EffectiveKey(s.unified, m) == other;
      assert m in s'.bus;
    }
  }

  /** Routing an automation turn leaves its session a task or keeps the one it has. */
  lemma ConsumeKeepsAwaited(s: State, inline: bool, key: string)
    requires Enabled(s, Consume(inline)) && RegistryOk(s) && Awaited(s, key)
    ensures Awaited(Consumed(s, inline), key)
  {
    ConsumeTasks(s, inline);
    var s', m := Consumed(s, inline), s.bus[0];
    if HasTask(s, key) {
      var i :| 0 <= i < |s.tasks| && Unfinished(s.tasks[i].phase) && s.tasks[i].key == key;
      assert Unfinished(s'.tasks[i].phase) && s'.tasks[i].key == key;
    } else {
      NothingRegistered(s, key);
      var w :| w in s.bus && w.automated && EffectiveKey(s.unified, w) == key;
      hide EffectiveKey, Routed;
      if w in s.bus[1..] {
        assert w in s'.bus;
      } else {
        assert w == m;
        assert s'.tasks[|s.tasks|].key == key;
      }
    }
  }

  lemma AwaitedStep(s: State, e: Step, key: string)
    requires Enabled(s, e) && RegistryOk(s) && DeferredOk(s) && Awaited(s, key)
    requires e.Finish? || e.CancelAnnounce? ==> s.tasks[e.i].key != key
    ensures Awaited(Next(s, e), key)
  {
    if e.Consume? {
      ConsumeKeepsAwaited(s, e.inline, key);
    } else if e.Finish? {
      PublishTasks(s, s.tasks[e.i].key);
      PublishKeepsDeferred(s, s.tasks[e.i].key);
      hide PublishedNext, DeferredOk, EffectiveKey;
      if HasTask(s, key) { TaskStays(s, e, key); }
    } else if HasTask(s, key) {
      TaskStays(s, e, key);
    } else {
      BusStays(s, e, key);
    }
  }

  lemma TaskStays(s: State, e: Step, key: string)
    requires Enabled(s, e) && !e.Consume? && HasTask(s, key)
    requires e.Finish? || e.CancelAnnounce? ==> s.tasks[e.i].key != key
    ensures HasTask(Next(s, e), key)
  {
    var i :| 0 <= i < |s.tasks| && Unfinished(s.tasks[i].phase) && s.tasks[i].key == key;
    UnfinishedStays(s, e, i);
    hide Next, Enabled;
    var s' := Next(s, e);
    assert i < |s'.tasks| && Unfinished(s'.tasks[i].phase) && s'.tasks[i].key == key;
  }

  lemma UnfinishedStays(s: State, e: Step, i: nat)
    requires Enabled(s, e) && !e.Consume? && i < |s.tasks| && Unfinished(s.tasks[i].phase)
    requires e.Finish? || e.CancelAnnounce? ==> e.i != i
    ensures i < |Next(s, e).tasks|
    ensures Unfinished(Next(s, e).tasks[i].phase) && Next(s, e).tasks[i].key == s.tasks[i].key
  {
    if e.Stop? {
      StopTask(s, e.key, i);
      hide Stopped;
    } else if ActsOn(e, i) {
      hide Consumed, PublishedNext, EffectiveKey, Stopped;
    } else {
      OtherTaskStays(s, e, i);
      hide *;
    }
  }

  lemma BusStays(s: State, e: Step, key: string)
    requires Enabled(s, e) && !e.Consume? && !e.Finish? && OnBus(s, key)
    ensures OnBus(Next(s, e), key)
  {
    hide EffectiveKey, Consumed, PublishedNext;
    var m :| m in s.bus && m.automated && EffectiveKey(s.unified, m) == key;
    assert m in Next(s, e).bus;
  }

  lemma NewlyDeferred(s: State, e: Step, key: string)
    requires Enabled(s, e) && RegistryOk(s) && DeferredOk(s)
    requires key in Next(s, e).deferred && key !in s.deferred
    ensures Awaited(Next(s, e), key)
  {
    if e.Finish? {
      PublishKeepsDeferred(s, s.tasks[e.i].key);
      hide *;
    } else if e.Consume? {
      ConsumeDefers(s, e.inline, key);
      ConsumeTasks(s, e.inline);
      var i := s.pending[key];
      assert s.tasks[i].phase.Running? && s.tasks[i].key == key;
      hide Consumed, DeferredOk, RegistryOk, OnBus;
      assert Unfinished(Next(s, e).tasks[i].phase) && Next(s, e).tasks[i].key == key;
    }
  }

  /** Routing defers only behind a registered turn. */
  lemma ConsumeDefers(s: State, inline: bool, key: string)
    requires s.bus != [] && key in Consumed(s, inline).deferred && key !in s.deferred
    ensures key in s.pending
  {
    hide EffectiveKey, Routed;
  }

  /** A step keeps every deferred turn awaited exactly when it is not that one
      cancellation. */
  lemma {:induction false} StrandedIff(s: State, e: Step)
    requires Enabled(s, e) && RegistryOk(s) && DeferredOk(s) && NoneStranded(s)
    ensures NoneStranded(Next(s, e)) <==> !Strands(s, e)
  {
    var s' := Next(s, e);
    if Strands(s, e) {
      CancelStrands(s, e);
    } else {
      forall key | key in s'.deferred ensures Awaited(s', key) {
        if key !in s.deferred {
          NewlyDeferred(s, e, key);
        } else if (e.Finish? || e.CancelAnnounce?) && s.tasks[e.i].key == key {
          LastStepAwaits(s, e);
        } else {
          AwaitedStep(s, e, key);
        }
      }
    }
  }

  lemma CancelStrands(s: State, e: Step)
    requires Enabled(s, e) && Strands(s, e)
    ensures !NoneStranded(Next(s, e))
  {
    hide EffectiveKey;
    var s', key := Next(s, e), s.tasks[e.i].key;
    assert key in s'.deferred && !OnBus(s', key);
    assert !HasTask(s', key);
  }

  lemma LastStepAwaits(s: State, e: Step)
    requires Enabled(s, e) && DeferredOk(s) && !Strands(s, e)
    requires (e.Finish? || e.CancelAnnounce?) && s.tasks[e.i].key in s.deferred
    ensures Awaited(Next(s, e), s.tasks[e.i].key)
  {
    var s', key := Next(s, e), s.tasks[e.i].key;
    if e.Finish? {
      PublishKeepsDeferred(s, key);
      var m :| m in PublishedNext(s, key).bus && m.automated && EffectiveKey(s.unified, m) == key;
      assert m in s'.bus;
    } else if OnBus(s, key) {
      BusStays(s, e, key);
    } else {
      hide EffectiveKey, OnBus;
      var j :| 0 <= j < |s.tasks| && j != e.i && s.tasks[j].key == key && Unfinished(s.tasks[j].phase);
      assert s'.tasks[j] == s.tasks[j];
    }
  }

  // ---- Whole runs ----

  /** The state after a sequence of steps, if each was enabled. */
  ghost function Follow(s: State, steps: seq<Step>): Option<State> {
    if steps == [] then Some(s)
    else
      var before, e := Follow(s, steps[..|steps| - 1]), steps[|steps| - 1];
      if before.Some? && Enabled(before.value, e) then Some(Next(before.value, e)) else None
  }

  ghost function After(unified: bool, steps: seq<Step>): Option<State> {
    Follow(Initial(unified), steps)
  }

  lemma FollowNothing(s: State)
    ensures Follow(s, []) == Some(s)
  {
  }

  lemma {:induction false} FollowSnoc(s: State, steps: seq<Step>, t: State, e: Step)
    requires Follow(s, steps) == Some(t) && Enabled(t, e)
    ensures Follow(s, steps + [e]) == Some(Next(t, e))
  {
    assert (steps + [e])[..|steps|] == steps;
  }

  /** What steps make of a reachable state is reachable. */
  lemma {:induction false} FollowConcat(s: State, a: seq<Step>, t: State, b: seq<Step>, u: State)
    requires Follow(s, a) == Some(t) && Follow(t, b) == Some(u)
    ensures Follow(s, a + b) == Some(u)
  {
    hide Enabled, Next;
    if b == [] {
      assert a + b == a;
    } else {
      var front, e := b[..|b| - 1], b[|b| - 1];
      var before := Follow(t, front).value;
      FollowConcat(s, a, t, front, before);
      FollowSnoc(s, a + front, before, e);
      assert a + b == a + front + [e];
    }
  }

  /** Every prefix of a run is a run. */
  lemma {:induction false} FollowPrefix(s: State, steps: seq<Step>, n: nat)
    requires Follow(s, steps).Some? && n <= |steps|
    ensures Follow(s, steps[..n]).Some?
    ensures n < |steps| ==> Enabled(Follow(s, steps[..n]).value, steps[n])
    ensures n < |steps| ==> Follow(s, steps[..n + 1]) == Some(Next(Follow(s, steps[..n]).value, steps[n]))
    decreases |steps|
  {
    hide Enabled, Next;
    if n == |steps| {
      assert steps[..n] == steps;
    } else if n == |steps| - 1 {
      assert steps[..n + 1] == steps;
    } else {
      var front := steps[..|steps| - 1];
      FollowPrefix(s, front, n);
      assert front[..n] == steps[..n] && front[..n + 1] == steps[..n + 1];
    }
  }

  lemma InitialIsSafe(unified: bool)
    ensures var s := Initial(unified); Safe(s) && DeferredOk(s) && NoneStranded(s)
  {
    assert forall id :: Placed(Initial(unified), id) == 0;
  }

  /** In every reachable state: one holder per session lock, registered queues belong
      to running turns, and every arrived message is in exactly one place. */
  lemma {:induction false} ReachableIsSafe(unified: bool, steps: seq<Step>)
    requires After(unified, steps).Some?
    ensures Safe(After(unified, steps).value) && DeferredOk(After(unified, steps).value)
  {
    if steps == [] {
      InitialIsSafe(unified);
    } else {
      ReachableIsSafe(unified, steps[..|steps| - 1]);
      var before := After(unified, steps[..|steps| - 1]).value;
      hide Safe, DeferredOk, Enabled, Next;
      SafeStep(before, steps[|steps| - 1]);
      DeferredStep(before, steps[|steps| - 1]);
    }
  }

  lemma {:induction false} ReachableUnmixed(unified: bool, steps: seq<Step>)
    requires After(unified, steps).Some?
    ensures Unmixed(After(unified, steps).value)
  {
    if steps != [] {
      ReachableUnmixed(unified, steps[..|steps| - 1]);
      var before := After(unified, steps[..|steps| - 1]).value;
      hide Unmixed, Enabled, Next;
      UnmixedStep(before, steps[|steps| - 1]);
    }
  }

  /** In every reachable state at most one task of a session is between taking the lock
      and finishing, even though idle locks expire. */
  lemma {:induction false} MutualExclusion(unified: bool, steps: seq<Step>, s: State, i: nat, j: nat)
    requires After(unified, steps) == Some(s) && i < |s.tasks| && j < |s.tasks|
    requires Holds(s.tasks[i].phase) && Holds(s.tasks[j].phase) && s.tasks[i].key == s.tasks[j].key
    ensures i == j
  {
    ReachableIsSafe(unified, steps);
    HoldersDiffer(s, i, j);
  }

  /** In every reachable state a message that arrived once is in exactly one place: on the
      bus, in one task, in one deferred queue, handled without a turn, or dropped by /stop. */
  lemma {:induction false} OnePlaceEach(unified: bool, steps: seq<Step>, s: State, id: nat)
    requires After(unified, steps) == Some(s) && Count(s.arrived, id) == 1
    ensures Count(s.bus, id) + InTasks(s.tasks, id) + InQueues(s.deferred, id) + Count(s.inline, id)
          + Count(s.dropped, id) == 1
  {
    ReachableIsSafe(unified, steps);
    hide After, Count, InTasks, InQueues, LocksOk, RegistryOk, QueuesOk, DeferredOk;
    assert Placed(s, id) == Count(s.arrived, id);
  }

  /** No step of the run so far stranded a deferred turn. */
  ghost predicate NeverStranded(unified: bool, steps: seq<Step>)
    requires After(unified, steps).Some?
  {
    forall n | 0 <= n <= |steps| ::
      After(unified, steps[..n]).Some? && NoneStranded(After(unified, steps[..n]).value)
  }

  ghost predicate StrandsAt(unified: bool, steps: seq<Step>, n: nat)
    requires n < |steps|
  {
    var s := After(unified, steps[..n]);
    s.Some? && Enabled(s.value, steps[n]) && Strands(s.value, steps[n])
  }

  /** Along a run no deferred turn is ever stranded exactly when no step is the
      cancellation of a last task's announcement. */
  lemma {:induction false} RunStrandsIff(unified: bool, steps: seq<Step>)
    requires After(unified, steps).Some?
    ensures NeverStranded(unified, steps) <==> forall n | 0 <= n < |steps| :: !StrandsAt(unified, steps, n)
  {
    if forall n | 0 <= n < |steps| :: !StrandsAt(unified, steps, n) {
      forall n | 0 <= n <= |steps|
        ensures After(unified, steps[..n]).Some? && NoneStranded(After(unified, steps[..n]).value)
      {
        PrefixNotStranded(unified, steps, n);
      }
    }
    if n :| 0 <= n < |steps| && StrandsAt(unified, steps, n) {
      var before := After(unified, steps[..n]).value;
      FollowPrefix(Initial(unified), steps, n);
      hide Enabled, Next, NoneStranded, Strands;
      CancelStrands(before, steps[n]);
      assert !NoneStranded(After(unified, steps[..n + 1]).value);
    }
  }

  lemma {:induction false} PrefixNotStranded(unified: bool, steps: seq<Step>, n: nat)
    requires After(unified, steps).Some? && n <= |steps|
    requires forall k | 0 <= k < n :: !StrandsAt(unified, steps, k)
    ensures After(unified, steps[..n]).Some? && NoneStranded(After(unified, steps[..n]).value)
  {
    FollowPrefix(Initial(unified), steps, n);
    if n == 0 {
      InitialIsSafe(unified);
    } else {
      PrefixNotStranded(unified, steps, n - 1);
      FollowPrefix(Initial(unified), steps, n - 1);
      ReachableIsSafe(unified, steps[..n - 1]);
      var before := After(unified, steps[..n - 1]).value;
      assert !StrandsAt(unified, steps, n - 1) && RegistryOk(before);
      hide NoneStranded, DeferredOk, Enabled, Next, Strands, Safe, RegistryOk;
      StrandedIff(before, steps[n - 1]);
    }
  }

  /** When all tasks of a session are finished nothing is registered for it. */
  lemma NothingRegistered(s: State, key: string)
    requires RegistryOk(s) && !HasTask(s, key)
    ensures key !in s.pending
  {
    if key in s.pending { assert Unfinished(s.tasks[s.pending[key]].phase); }
  }

  /** A turn that ends finds its own queue registered, or, when it is a direct one, none;
      it never takes another turn's, and leaves none. */
  lemma EndTurnUnregistersOwn(s: State, i: nat)
    requires LocksOk(s) && RegistryOk(s) && Enabled(s, EndTurn(i))
    ensures var key := s.tasks[i].key;
            && (key in s.pending ==> s.pending[key] == i) && (!s.tasks[i].direct ==> key in s.pending)
            && key !in Next(s, EndTurn(i)).pending
  {
    var key := s.tasks[i].key;
    if key in s.pending { HoldersDiffer(s, i, s.pending[key]); }
  }

  /** /stop discards messages exactly when a direct turn of the session is registered with
      some waiting: it has cancelled and awaited all tasks but those. */
  lemma StopDropsIff(s: State, key: string)
    requires RegistryOk(s) && Enabled(s, Stop(key))
    ensures Next(s, Stop(key)).dropped != s.dropped <==> WaitsForDirect(s, key)
    ensures |Next(s, Stop(key)).dropped| > |s.dropped| <==> WaitsForDirect(s, key)
    ensures s.dropped <= Next(s, Stop(key)).dropped
  {
    if key in s.pending {
      var i := s.pending[key];
      assert |s.dropped + s.tasks[i].queue| == |s.dropped| + |s.tasks[i].queue|;
    }
  }

  ghost predicate WaitsForDirect(s: State, key: string) {
    exists i: nat | i < |s.tasks| ::
      && s.tasks[i].direct && s.tasks[i].phase.Running? && s.tasks[i].queue != []
      && key in s.pending && s.pending[key] == i
  }

  ghost predicate DropsAt(unified: bool, steps: seq<Step>, n: nat)
    requires n < |steps|
  {
    var s := After(unified, steps[..n]);
    s.Some? && steps[n].Stop? && WaitsForDirect(s.value, steps[n].key)
  }

  /** A run loses no message exactly when no /stop in it meets such a turn. */
  lemma {:induction false} RunDropsNothingIff(unified: bool, steps: seq<Step>)
    requires After(unified, steps).Some?
    ensures After(unified, steps).value.dropped == [] <==> forall n | 0 <= n < |steps| :: !DropsAt(unified, steps, n)
  {
    if steps == [] {
      NothingDroppedYet(unified);
    } else {
      var k := |steps| - 1;
      var front := steps[..k];
      LastDrops(unified, steps);
      hide *;
      RunDropsNothingIff(unified, front);
      forall n | 0 <= n < k ensures DropsAt(unified, steps, n) <==> DropsAt(unified, front, n) {
        DropsAtPrefix(unified, steps, n);
      }
    }
  }

  lemma NothingDroppedYet(unified: bool)
    ensures After(unified, []).value.dropped == []
  {
  }

  lemma DropsAtPrefix(unified: bool, steps: seq<Step>, n: nat)
    requires n < |steps| - 1
    ensures DropsAt(unified, steps, n) <==> DropsAt(unified, steps[..|steps| - 1], n)
  {
    hide After, WaitsForDirect;
    assert steps[..|steps| - 1][..n] == steps[..n];
  }

  lemma LastDrops(unified: bool, steps: seq<Step>)
    requires After(unified, steps).Some? && steps != []
    ensures var before := After(unified, steps[..|steps| - 1]);
            && before.Some? && before.value.dropped <= After(unified, steps).value.dropped
            && (DropsAt(unified, steps, |steps| - 1) <==> After(unified, steps).value.dropped != before.value.dropped)
  {
    var front, e := steps[..|steps| - 1], steps[|steps| - 1];
    ReachableIsSafe(unified, front);
    var s := After(unified, front).value;
    assert Enabled(s, e) && After(unified, steps) == Some(Next(s, e)) && RegistryOk(s);
    hide After, Enabled, Next, Safe, RegistryOk, WaitsForDirect, DeferredOk;
    DroppedGrows(s, e);
  }

  lemma DroppedGrows(s: State, e: Step)
    requires Enabled(s, e) && RegistryOk(s)
    ensures s.dropped <= Next(s, e).dropped
    ensures Next(s, e).dropped != s.dropped <==> e.Stop? && WaitsForDirect(s, e.key)
  {
    if e.Stop? {
      StopDropsIff(s, e.key);
      hide Next, RegistryOk, WaitsForDirect;
    } else {
      hide EffectiveKey, Routed, WaitsForDirect;
    }
  }

  /** One running turn with `queue`, after `arrived`. */
  function TurnState(a: Inbound, queue: seq<Inbound>, bus: seq<Inbound>, arrived: seq<Inbound>): State {
    State(false, bus, [Task(a, "x", Running, 0, queue, [], false)], map["x" := 0], map[], map["x" := 0], 1, arrived, [],
          [])
  }

  /** A run in which one turn of a session is running. */
  lemma RunningTurn(a: Inbound) returns (steps: seq<Step>, s: State)
    requires a.home == "x" && a.override == "" && !a.automated
    ensures After(false, steps) == Some(s)
    ensures s == TurnState(a, [], [], [a])
  {
    var t := Task(a, "x", Created, 0, [], [], false);
    steps, s := Extend([], Initial(false), Arrive(a));
    steps, s := Extend(steps, s, Consume(false));
    assert s == State(false, [], [t], map[], map[], map[], 0, [a], [], []);
    steps, s := Extend(steps, s, Start(0));
    assert s == State(false, [], [t.(phase := Waiting)], map[], map[], map["x" := 0], 1, [a], [], []);
    steps, s := Extend(steps, s, Acquire(0));
    steps, s := Extend(steps, s, Enter(0));
  }

  /** A reachable /stop that discards a message: it waits for a direct turn, which goes on. */
  lemma {:induction false} StopDropsFollowUp(a: Inbound, b: Inbound) returns (steps: seq<Step>, s: State)
    requires a.home == b.home == "x" && a.override == b.override == "" && !b.automated
    ensures After(false, steps) == Some(s) && s.arrived == [a, b] && s.dropped == [b]
    ensures |s.tasks| == 1 && s.tasks[0].phase.Running? && s.tasks[0].injected == s.tasks[0].queue == []
  {
    steps, s := DirectTurn(a);
    hide After, Follow;
    var arrived := Next(s, Arrive(b));
    steps, s := Extend(steps, s, Arrive(b));
    assert Routed(false, b) == b && EffectiveKey(false, b) == "x";
    steps, s := Extend(steps, s, Consume(false));
    hide Routed, EffectiveKey, Consumed;
    assert s.tasks[0].queue == [b] && s.dropped == [] && s.arrived == [a, b];
    steps, s := Extend(steps, s, Stop("x"));
  }

  lemma DirectTurn(a: Inbound) returns (steps: seq<Step>, s: State)
    requires a.home == "x" && a.override == ""
    ensures After(false, steps) == Some(s)
    ensures s == State(false, [], [Task(a, "x", Running, 0, [], [], true)], map["x" := 0], map[], map["x" := 0], 1,
                       [a], [], [])
  {
    var t := Task(a, "x", Created, 0, [], [], true);
    steps, s := Extend([], Initial(false), Direct(a));
    assert s == State(false, [], [t], map[], map[], map[], 0, [a], [], []);
    steps, s := Extend(steps, s, Start(0));
    assert s == State(false, [], [t.(phase := Waiting)], map[], map[], map["x" := 0], 1, [a], [], []);
    steps, s := Extend(steps, s, Acquire(0));
    steps, s := Extend(steps, s, Enter(0));
  }

  /** Then an automation turn is deferred, and the turn ends. */
  lemma DeferredBehindTurn(a: Inbound, b: Inbound) returns (steps: seq<Step>, s: State)
    requires a.home == b.home == "x" && a.override == b.override == "" && !a.automated && b.automated
    ensures After(false, steps) == Some(s)
    ensures s == State(false, [], [Task(a, "x", Announcing, 0, [], [], false)], map[], map["x" := [b]], map["x" := 0],
                       1, [a, b], [], [])
  {
    var before;
    steps, before := RunningTurn(a);
    s := AutomationDeferred(before, b);
    FollowSnoc(Initial(false), steps, before, Arrive(b));
    FollowSnoc(Initial(false), steps + [Arrive(b)], Next(before, Arrive(b)), Consume(false));
    steps := steps + [Arrive(b)] + [Consume(false)];
    hide Follow, Consumed;
    steps, s := Extend(steps, s, EndTurn(0));
    steps, s := Extend(steps, s, Announce(0));
  }

  lemma AutomationDeferred(s: State, b: Inbound) returns (s': State)
    requires b.home == "x" && b.override == "" && b.automated
    requires s.bus == [] && !s.unified && "x" in s.pending && s.deferred == map[]
    ensures Next(s, Arrive(b)).bus == [b] && s' == Next(Next(s, Arrive(b)), Consume(false))
    ensures s' == s.(deferred := map["x" := [b]], arrived := s.arrived + [b])
  {
    s' := Next(Next(s, Arrive(b)), Consume(false));
    assert s'.bus == [] && Routed(false, b) == b && [] + [b] == [b];
    assert s'.deferred == map["x" := [b]];
  }

  /** The cancellation does strand a deferred turn in a reachable state. */
  lemma {:induction false} CancelledAnnouncementStrands(a: Inbound, b: Inbound) returns (steps: seq<Step>, s: State)
    requires a.home == b.home == "x" && a.override == b.override == "" && !a.automated && b.automated
    ensures After(false, steps) == Some(s) && Safe(s) && !NoneStranded(s)
  {
    steps, s := DeferredBehindTurn(a, b);
    CancelStrands(s, CancelAnnounce(0));
    steps, s := Extend(steps, s, CancelAnnounce(0));
    ReachableIsSafe(false, steps);
  }

  lemma Extend(steps: seq<Step>, s: State, e: Step) returns (steps': seq<Step>, s': State)
    requires After(false, steps) == Some(s) && Enabled(s, e)
    ensures After(false, steps') == Some(s') && s' == Next(s, e)
  {
    FollowSnoc(Initial(false), steps, s, e);
    steps', s' := steps + [e], Next(s, e);
  }

  // ---- A turn that waits for itself ----

  /** Along any steps without the turn's own drain or end, and without /stop for a direct
      one, its continuation can be queued exactly while its queue is not full; and once it
      is full, never again. */
  lemma {:induction false} ContinuationWaitsIff(s: State, steps: seq<Step>, t: State, i: nat, m: Inbound)
    requires RegistryOk(s) && LocksOk(s) && Follow(s, steps) == Some(t)
    requires i < |s.tasks| && s.tasks[i].phase.Running? && IsContinuation(s.tasks[i], m)
    requires forall e | e in steps :: !OwnDrainOrEnd(e, i) && !StopsDirect(e, s.tasks[i])
    ensures i < |t.tasks| && t.tasks[i].phase.Running? && IsContinuation(t.tasks[i], m)
    ensures t.tasks[i].key == s.tasks[i].key && t.tasks[i].direct == s.tasks[i].direct
    ensures RegistryOk(t) && LocksOk(t) && |s.tasks[i].queue| <= |t.tasks[i].queue|
    ensures Enabled(t, Continue(i, m)) <==> |t.tasks[i].queue| < PENDING_LIMIT
    ensures |s.tasks[i].queue| == PENDING_LIMIT ==> t.tasks[i] == s.tasks[i] && !Enabled(t, Continue(i, m))
  {
    if steps != [] {
      var front, e := steps[..|steps| - 1], steps[|steps| - 1];
      var before := Follow(s, front).value;
      assert e in steps && forall x | x in front :: x in steps;
      ContinuationWaitsIff(s, front, before, i, m);
      RunningTurnStays(before, e, i);
      LocksStep(before, e);
      RegistryStep(before, e);
      hide Follow, RegistryOk, LocksOk, Next;
    }
  }

  ghost predicate FollowUpsOf(queue: seq<Inbound>) {
    forall m | m in queue :: m.home == "x" && m.override == "" && !m.automated
  }

  lemma FollowUpsSplit(queue: seq<Inbound>)
    requires FollowUpsOf(queue) && queue != []
    ensures FollowUpsOf(queue[..|queue| - 1])
    ensures var b := queue[|queue| - 1]; b.home == "x" && b.override == "" && !b.automated
  {
    assert forall x | x in queue[..|queue| - 1] :: x in queue;
    assert queue[|queue| - 1] in queue;
  }

  /** A reachable running turn with any queue of follow-ups up to the limit. */
  lemma {:induction false} TurnWithQueue(a: Inbound, queue: seq<Inbound>) returns (steps: seq<Step>, s: State)
    requires a.home == "x" && a.override == "" && !a.automated && FollowUpsOf(queue) && |queue| <= PENDING_LIMIT
    ensures After(false, steps) == Some(s) && s == TurnState(a, queue, [], [a] + queue)
  {
    hide *;
    if queue == [] {
      steps, s := RunningTurn(a);
      assert [a] + queue == [a];
    } else {
      var front, b := queue[..|queue| - 1], queue[|queue| - 1];
      FollowUpsSplit(queue);
      steps, s := TurnWithQueue(a, front);
      FollowUpArrives(a, front, b, [a] + front);
      FollowUpQueued(a, front, b, [a] + front + [b]);
      steps, s := Extend(steps, s, Arrive(b));
      steps, s := Extend(steps, s, Consume(false));
      Regroup([a], front, [b]);
      assert front + [b] == queue;
    }
  }

  lemma FollowUpArrives(a: Inbound, front: seq<Inbound>, b: Inbound, arrived: seq<Inbound>)
    ensures var s := TurnState(a, front, [], arrived);
            Enabled(s, Arrive(b)) && Next(s, Arrive(b)) == TurnState(a, front, [b], arrived + [b])
  {
    assert [] + [b] == [b];
  }

  lemma FollowUpQueued(a: Inbound, front: seq<Inbound>, b: Inbound, arrived: seq<Inbound>)
    requires b.home == "x" && b.override == "" && !b.automated && |front| < PENDING_LIMIT
    ensures var s := TurnState(a, front, [b], arrived);
            Enabled(s, Consume(false)) && Next(s, Consume(false)) == TurnState(a, front + [b], [], arrived)
  {
    assert Routed(false, b) == b && EffectiveKey(false, b) == "x";
    hide Routed, EffectiveKey;
    assert [b][1..] == [];
  }

  /** A reachable turn whose queue is full and that can never queue its continuation
      unless it drains its queue or ends. */
  lemma {:induction false} FullQueueIsReachable(a: Inbound, queue: seq<Inbound>, m: Inbound)
    returns (steps: seq<Step>, s: State)
    requires a.home == "x" && a.override == "" && !a.automated && FollowUpsOf(queue) && |queue| == PENDING_LIMIT
    requires m.override == "x" && !m.automated
    ensures After(false, steps) == Some(s) && |s.tasks| == 1 && s.tasks[0].phase.Running? && s.tasks[0].queue == queue
    ensures IsContinuation(s.tasks[0], m) && !Enabled(s, Continue(0, m))
    ensures forall more, t | Follow(s, more) == Some(t) && (forall e | e in more :: !OwnDrainOrEnd(e, 0)) ::
              !Enabled(t, Continue(0, m))
  {
    steps, s := TurnWithQueue(a, queue);
    ReachableIsSafe(false, steps);
    forall more, t | Follow(s, more) == Some(t) && (forall e | e in more :: !OwnDrainOrEnd(e, 0))
      ensures !Enabled(t, Continue(0, m))
    {
      hide Follow, RegistryOk, LocksOk, Enabled;
      ContinuationWaitsIff(s, more, t, 0, m);
    }
  }
}
