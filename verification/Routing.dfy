/** Which session a message goes to: the one it names, or else, when sessions are unified,
    the common one, or else its home; and it is never put anywhere else. */
module Routing {
  import opened Transcript
  import opened Dispatch

  /** A message as it arrived is for this session. */
  predicate MeantFor(unified: bool, a: Inbound, key: string) {
    if a.override != "" then key == a.override
    else if unified then key == "unified:default"
    else key == a.home
  }

  /** `m` is the message `a`, or its copy that names the common session. */
  predicate CopyOf(unified: bool, a: Inbound, m: Inbound) {
    && m.id == a.id && m.home == a.home && m.automated == a.automated
    && (m.override == a.override || (unified && a.override == "" && m.override == "unified:default"))
  }

  ghost predicate CameIn(unified: bool, arrived: seq<Inbound>, m: Inbound) {
    exists a :: a in arrived && CopyOf(unified, a, m)
  }

  /** `m` stands for a message that arrived for session `key`, and says so itself. */
  ghost predicate BelongsTo(unified: bool, arrived: seq<Inbound>, m: Inbound, key: string) {
    && (exists a :: a in arrived && CopyOf(unified, a, m) && MeantFor(unified, a, key))
    && (m.override != "" ==> m.override == key)
    && (m.override == "" ==> m.home == key)
  }

  ghost predicate AllBelongTo(unified: bool, arrived: seq<Inbound>, ms: seq<Inbound>, key: string) {
    forall m | m in ms :: BelongsTo(unified, arrived, m, key)
  }

  /** A task's own message, its queue and what was injected into its turn are for its
      session. */
  ghost predicate TaskRouted(unified: bool, arrived: seq<Inbound>, t: Task) {
    && BelongsTo(unified, arrived, t.msg, t.key)
    && AllBelongTo(unified, arrived, t.queue, t.key) && AllBelongTo(unified, arrived, t.injected, t.key)
  }

  ghost predicate TasksRouted(s: State) {
    forall i | 0 <= i < |s.tasks| :: TaskRouted(s.unified, s.arrived, s.tasks[i])
  }

  ghost predicate DeferredRouted(s: State) {
    forall key | key in s.deferred :: AllBelongTo(s.unified, s.arrived, s.deferred[key], key)
  }

  ghost predicate BusArrived(s: State) {
    forall m | m in s.bus :: CameIn(s.unified, s.arrived, m)
  }

  /** Every message that was put aside for a session, or runs in it, is meant for it. */
  ghost predicate WellRouted(s: State) {
    TasksRouted(s) && DeferredRouted(s) && BusArrived(s)
  }

  /** Routing takes a message where it is meant for. */
  lemma RoutedBelongs(unified: bool, arrived: seq<Inbound>, m: Inbound)
    requires CameIn(unified, arrived, m)
    ensures BelongsTo(unified, arrived, Routed(unified, m), EffectiveKey(unified, m))
  {
    var a :| a in arrived && CopyOf(unified, a, m);
    assert CopyOf(unified, a, Routed(unified, m)) && MeantFor(unified, a, EffectiveKey(unified, m));
  }

  lemma BelongsStays(unified: bool, arrived: seq<Inbound>, more: seq<Inbound>, m: Inbound, key: string)
    requires arrived <= more
    ensures BelongsTo(unified, arrived, m, key) ==> BelongsTo(unified, more, m, key)
    ensures CameIn(unified, arrived, m) ==> CameIn(unified, more, m)
  {
    hide CopyOf, MeantFor;
    assert forall a | a in arrived :: a in more;
  }

  lemma RowsStay(unified: bool, arrived: seq<Inbound>, more: seq<Inbound>, ms: seq<Inbound>, key: string)
    requires arrived <= more && AllBelongTo(unified, arrived, ms, key)
    ensures AllBelongTo(unified, more, ms, key)
  {
    hide BelongsTo;
    forall m | m in ms ensures BelongsTo(unified, more, m, key) { BelongsStays(unified, arrived, more, m, key); }
  }

  lemma TaskStays(unified: bool, arrived: seq<Inbound>, more: seq<Inbound>, t: Task)
    requires arrived <= more && TaskRouted(unified, arrived, t)
    ensures TaskRouted(unified, more, t)
  {
    hide BelongsTo, AllBelongTo;
    BelongsStays(unified, arrived, more, t.msg, t.key);
    RowsStay(unified, arrived, more, t.queue, t.key);
    RowsStay(unified, arrived, more, t.injected, t.key);
  }

  /** More messages arrived; the rest is as it was. */
  lemma ArrivalStays(s: State, s': State)
    requires s'.unified == s.unified && s.arrived <= s'.arrived
    ensures TasksRouted(s) && s'.tasks == s.tasks ==> TasksRouted(s')
    ensures DeferredRouted(s) && s'.deferred == s.deferred ==> DeferredRouted(s')
    ensures BusArrived(s) && s'.bus == s.bus ==> BusArrived(s')
  {
    hide TaskRouted, AllBelongTo, CameIn;
    if TasksRouted(s) && s'.tasks == s.tasks {
      forall i | 0 <= i < |s.tasks| ensures TaskRouted(s'.unified, s'.arrived, s'.tasks[i]) {
        TaskStays(s.unified, s.arrived, s'.arrived, s.tasks[i]);
      }
    }
    if DeferredRouted(s) && s'.deferred == s.deferred {
      forall key | key in s'.deferred ensures AllBelongTo(s'.unified, s'.arrived, s'.deferred[key], key) {
        RowsStay(s.unified, s.arrived, s'.arrived, s.deferred[key], key);
      }
    }
    if BusArrived(s) && s'.bus == s.bus {
      forall m | m in s'.bus ensures CameIn(s'.unified, s'.arrived, m) {
        BelongsStays(s.unified, s.arrived, s'.arrived, m, "");
      }
    }
  }

  lemma RowsSnoc(unified: bool, arrived: seq<Inbound>, ms: seq<Inbound>, m: Inbound, key: string)
    requires AllBelongTo(unified, arrived, ms, key) && BelongsTo(unified, arrived, m, key)
    ensures AllBelongTo(unified, arrived, ms + [m], key)
  {
    hide BelongsTo;
  }

  lemma RowsCut(unified: bool, arrived: seq<Inbound>, ms: seq<Inbound>, n: nat, key: string)
    requires AllBelongTo(unified, arrived, ms, key) && n <= |ms|
    ensures AllBelongTo(unified, arrived, ms[n..], key) && AllBelongTo(unified, arrived, ms[..n], key)
  {
    hide BelongsTo;
  }

  lemma BelongingCameIn(unified: bool, arrived: seq<Inbound>, m: Inbound, key: string)
    requires BelongsTo(unified, arrived, m, key)
    ensures CameIn(unified, arrived, m)
  {
    hide CopyOf, MeantFor;
  }

  lemma SpawnRouted(unified: bool, arrived: seq<Inbound>, m: Inbound, direct: bool)
    requires CameIn(unified, arrived, m)
    ensures TaskRouted(unified, arrived, Spawn(unified, m, direct))
  {
    RoutedBelongs(unified, arrived, m);
    hide BelongsTo, EffectiveKey, Routed;
  }

  lemma DeferRoutes(s: State, s': State, key: string, m: Inbound)
    requires WellRouted(s) && BelongsTo(s.unified, s.arrived, m, key)
    requires s' == s.(bus := s'.bus, deferred := Appended(s.deferred, key, m)) && forall x | x in s'.bus :: x in s.bus
    ensures WellRouted(s')
  {
    hide BelongsTo, CameIn, TaskRouted;
    var queue := if key in s.deferred then s.deferred[key] else [];
    RowsSnoc(s.unified, s.arrived, queue, m, key);
    hide AllBelongTo;
  }

  lemma QueueRoutes(s: State, s': State, i: nat, m: Inbound)
    requires WellRouted(s) && i < |s.tasks| && BelongsTo(s.unified, s.arrived, m, s.tasks[i].key)
    requires s' == s.(bus := s'.bus, tasks := s.tasks[i := Queued(s.tasks[i], m)])
    requires forall x | x in s'.bus :: x in s.bus
    ensures WellRouted(s')
  {
    hide BelongsTo, CameIn, AllBelongTo;
    assert TaskRouted(s.unified, s.arrived, s.tasks[i]);
    RowsSnoc(s.unified, s.arrived, s.tasks[i].queue, m, s.tasks[i].key);
    assert TaskRouted(s.unified, s.arrived, Queued(s.tasks[i], m));
    hide TaskRouted;
  }

  lemma FewerOnBus(s: State, s': State)
    requires WellRouted(s) && forall x | x in s'.bus :: x in s.bus
    requires s'.unified == s.unified && s'.arrived == s.arrived && s'.deferred == s.deferred
    requires s.tasks <= s'.tasks
    requires forall i | |s.tasks| <= i < |s'.tasks| :: TaskRouted(s.unified, s.arrived, s'.tasks[i])
    ensures WellRouted(s')
  {
    hide CameIn, AllBelongTo, TaskRouted;
  }

  lemma ConsumeRoutes(s: State, inline: bool)
    requires s.bus != [] && WellRouted(s) && RegistryOk(s)
    ensures WellRouted(Consumed(s, inline))
  {
    var m := s.bus[0];
    var key, routed := EffectiveKey(s.unified, m), Routed(s.unified, m);
    assert CameIn(s.unified, s.arrived, m);
    RoutedBelongs(s.unified, s.arrived, m);
    SpawnRouted(s.unified, s.arrived, m, false);
    var s' := Consumed(s, inline);
    hide WellRouted, EffectiveKey, Routed, BelongsTo, CameIn, TaskRouted, Spawn, Queued, Appended;
    if !inline && m.automated && key in s.pending {
      DeferRoutes(s, s', key, routed);
    } else if !inline && key in s.pending && |s.tasks[s.pending[key]].queue| < PENDING_LIMIT {
      QueueRoutes(s, s', s.pending[key], routed);
    } else {
      FewerOnBus(s, s');
    }
  }

  lemma PublishRoutes(s: State, key: string)
    requires WellRouted(s)
    ensures WellRouted(PublishedNext(s, key))
  {
    if key in s.deferred && s.deferred[key] != [] {
      var queue := s.deferred[key];
      assert AllBelongTo(s.unified, s.arrived, queue, key) && queue[0] in queue;
      BelongingCameIn(s.unified, s.arrived, queue[0], key);
      RowsCut(s.unified, s.arrived, queue, 1, key);
      hide AllBelongTo, CameIn, TaskRouted, BelongsTo;
    }
  }

  /** One task changes; what it has stays in its session. */
  lemma TaskRoutes(s: State, s': State, i: nat, t: Task)
    requires WellRouted(s) && i < |s.tasks| && TaskRouted(s.unified, s'.arrived, t)
    requires s'.unified == s.unified && s.arrived <= s'.arrived
    requires s'.tasks == s.tasks[i := t] && s'.deferred == s.deferred && s'.bus == s.bus
    ensures WellRouted(s')
  {
    hide TaskRouted, AllBelongTo, CameIn;
    ArrivalStays(s, s');
    forall j | 0 <= j < |s'.tasks| ensures TaskRouted(s'.unified, s'.arrived, s'.tasks[j]) {
      if j != i { TaskStays(s.unified, s.arrived, s'.arrived, s.tasks[j]); }
    }
  }

  lemma StopRoutes(s: State, key: string)
    requires WellRouted(s)
    ensures WellRouted(Stopped(s, key))
  {
    hide AllBelongTo, CameIn, BelongsTo;
    if key in s.pending && s.pending[key] < |s.tasks| {
      assert TaskRouted(s.unified, s.arrived, s.tasks[s.pending[key]]);
      NoRows(s.unified, s.arrived, s.tasks[s.pending[key]].key);
    }
  }

  lemma NoRows(unified: bool, arrived: seq<Inbound>, key: string)
    ensures AllBelongTo(unified, arrived, [], key)
  {
  }

  lemma InjectRoutes(s: State, i: nat, n: nat)
    requires WellRouted(s) && Enabled(s, Inject(i, n))
    ensures WellRouted(Next(s, Inject(i, n)))
  {
    var t := s.tasks[i];
    assert TaskRouted(s.unified, s.arrived, t);
    RowsCut(s.unified, s.arrived, t.queue, n, t.key);
    assert AllBelongTo(s.unified, s.arrived, t.injected + t.queue[..n], t.key) by { hide BelongsTo; }
    hide WellRouted, AllBelongTo, BelongsTo;
    TaskRoutes(s, Next(s, Inject(i, n)), i, Next(s, Inject(i, n)).tasks[i]);
  }

  /** A continuation names the session of its task. */
  lemma ContinueRoutes(s: State, i: nat, m: Inbound)
    requires WellRouted(s) && Enabled(s, Continue(i, m))
    ensures WellRouted(Next(s, Continue(i, m)))
  {
    var t, more := s.tasks[i], s.arrived + [m];
    assert TaskRouted(s.unified, s.arrived, t);
    TaskStays(s.unified, s.arrived, more, t);
    assert m in more && CopyOf(s.unified, m, m) && MeantFor(s.unified, m, t.key);
    assert BelongsTo(s.unified, more, m, t.key);
    RowsSnoc(s.unified, more, t.queue, m, t.key);
    hide WellRouted, AllBelongTo, BelongsTo;
    TaskRoutes(s, Next(s, Continue(i, m)), i, Next(s, Continue(i, m)).tasks[i]);
  }

  lemma DrainRoutes(s: State, i: nat)
    requires WellRouted(s) && Enabled(s, DrainOne(i))
    ensures WellRouted(Next(s, DrainOne(i)))
  {
    var t := s.tasks[i];
    assert TaskRouted(s.unified, s.arrived, t) && t.queue[0] in t.queue;
    BelongingCameIn(s.unified, s.arrived, t.queue[0], t.key);
    RowsCut(s.unified, s.arrived, t.queue, 1, t.key);
    var cut := t.(queue := t.queue[1..]);
    hide AllBelongTo, BelongsTo, CameIn;
    TaskRoutes(s, With(s, i, cut), i, cut);
  }

  /** The steps that change only where a task is in its life. */
  lemma PhaseRoutes(s: State, s': State, i: nat, t: Task)
    requires WellRouted(s) && i < |s.tasks| && s'.tasks == s.tasks[i := t]
    requires t.msg == s.tasks[i].msg && t.key == s.tasks[i].key && t.injected == s.tasks[i].injected
    requires t.queue == s.tasks[i].queue || t.queue == []
    requires s'.unified == s.unified && s'.arrived == s.arrived && s'.deferred == s.deferred && s'.bus == s.bus
    ensures WellRouted(s')
  {
    assert TaskRouted(s.unified, s.arrived, s.tasks[i]);
    NoRows(s.unified, s.arrived, t.key);
    hide WellRouted, AllBelongTo, BelongsTo;
    TaskRoutes(s, s', i, t);
  }

  lemma ArriveRoutes(s: State, m: Inbound)
    requires WellRouted(s)
    ensures WellRouted(Next(s, Arrive(m))) && WellRouted(Next(s, Direct(m)))
  {
    var more := s.arrived + [m];
    var s' := s.(arrived := more);
    ArrivalStays(s, s');
    assert m in more && CopyOf(s.unified, m, m);
    assert CameIn(s.unified, more, m);
    SpawnRouted(s.unified, more, m, true);
    hide AllBelongTo, TaskRouted, CameIn, Spawn;
  }

  lemma RoutesStep(s: State, e: Step)
    requires Enabled(s, e) && WellRouted(s) && RegistryOk(s)
    ensures WellRouted(Next(s, e))
  {
    hide WellRouted, RegistryOk, Consumed, PublishedNext, Stopped, EffectiveKey, Routed, Spawn, Queued;
    var s' := Next(s, e);
    match e {
      case Arrive(m) => ArriveRoutes(s, m);
      case Direct(m) => ArriveRoutes(s, m);
      case Consume(inline) => ConsumeRoutes(s, inline);
      case Inject(i, n) => InjectRoutes(s, i, n);
      case Continue(i, m) => ContinueRoutes(s, i, m);
      case DrainOne(i) => DrainRoutes(s, i);
      case Finish(i) => FinishRoutes(s, i);
      case Expire(_) => LocksAside(s, s');
      case Stop(key) => StopRoutes(s, key);
      case _ => PhaseRoutes(s, s', e.i, s'.tasks[e.i]);
    }
  }

  lemma LocksAside(s: State, s': State)
    requires WellRouted(s) && s' == s.(locks := s'.locks)
    ensures WellRouted(s')
  {
    ArrivalStays(s, s');
  }

  lemma FinishRoutes(s: State, i: nat)
    requires WellRouted(s) && Enabled(s, Finish(i))
    ensures WellRouted(Next(s, Finish(i)))
  {
    PublishRoutes(s, s.tasks[i].key);
    PublishTasks(s, s.tasks[i].key);
    var published := PublishedNext(s, s.tasks[i].key);
    var t := s.tasks[i].(phase := Done);
    hide WellRouted, PublishedNext;
    PhaseRoutes(published, With(published, i, t), i, t);
  }

  /** In every reachable state each message in a task, in a task's queue, among its
      injected rows or in a deferred queue arrived for that very session. */
  lemma {:induction false} ReachableIsRouted(unified: bool, steps: seq<Step>)
    requires After(unified, steps).Some?
    ensures WellRouted(After(unified, steps).value)
  {
    if steps != [] {
      var front := steps[..|steps| - 1];
      ReachableIsRouted(unified, front);
      ReachableIsSafe(unified, front);
      var before := After(unified, front).value;
      hide WellRouted, Enabled, Next, LocksOk, RegistryOk, QueuesOk, Conserved;
      RoutesStep(before, steps[|steps| - 1]);
    }
  }

  // ---- One message ----

  lemma {:induction false} CountedIsThere(ms: seq<Inbound>, id: nat)
    ensures Count(ms, id) > 0 <==> exists m :: m in ms && m.id == id
  {
    if ms != [] {
      CountedIsThere(ms[..|ms| - 1], id);
      assert ms == ms[..|ms| - 1] + [ms[|ms| - 1]];
    }
  }

  lemma {:induction false} CountedOnceIsOne(ms: seq<Inbound>, a: Inbound, b: Inbound)
    requires a in ms && b in ms && a.id == b.id && Count(ms, a.id) == 1
    ensures a == b
  {
    var front, last := ms[..|ms| - 1], ms[|ms| - 1];
    assert ms == front + [last];
    CountedIsThere(front, a.id);
    if last.id != a.id { CountedOnceIsOne(front, a, b); }
  }

  /** A message that arrived once is found only in the session it is meant for: in tasks
      of that session, and in the deferred queue of that session. */
  lemma {:induction false} OnlyInItsSession(unified: bool, steps: seq<Step>, s: State, a: Inbound)
    requires After(unified, steps) == Some(s) && a in s.arrived && Count(s.arrived, a.id) == 1
    ensures forall i | 0 <= i < |s.tasks| && InTask(s.tasks[i], a.id) > 0 :: MeantFor(unified, a, s.tasks[i].key)
    ensures forall key | key in s.deferred && Count(s.deferred[key], a.id) > 0 :: MeantFor(unified, a, key)
  {
    ReachableIsRouted(unified, steps);
    SameUnified(unified, steps);
    hide After, Count, CopyOf, MeantFor;
    forall i | 0 <= i < |s.tasks| && InTask(s.tasks[i], a.id) > 0 ensures MeantFor(unified, a, s.tasks[i].key) {
      var t := s.tasks[i];
      assert TaskRouted(unified, s.arrived, t);
      CountedIsThere(t.queue, a.id);
      CountedIsThere(t.injected, a.id);
      var m :| (m == t.msg || m in t.queue || m in t.injected) && m.id == a.id;
      MeantOnce(unified, s.arrived, a, m, t.key);
    }
    forall key | key in s.deferred && Count(s.deferred[key], a.id) > 0 ensures MeantFor(unified, a, key) {
      CountedIsThere(s.deferred[key], a.id);
      var m :| m in s.deferred[key] && m.id == a.id;
      assert AllBelongTo(unified, s.arrived, s.deferred[key], key);
      MeantOnce(unified, s.arrived, a, m, key);
    }
  }

  lemma MeantOnce(unified: bool, arrived: seq<Inbound>, a: Inbound, m: Inbound, key: string)
    requires BelongsTo(unified, arrived, m, key) && a in arrived && m.id == a.id && Count(arrived, a.id) == 1
    ensures MeantFor(unified, a, key)
  {
    hide MeantFor;
    var b :| b in arrived && CopyOf(unified, b, m) && MeantFor(unified, b, key);
    CountedOnceIsOne(arrived, a, b);
  }

  lemma {:induction false} SameUnified(unified: bool, steps: seq<Step>)
    requires After(unified, steps).Some?
    ensures After(unified, steps).value.unified == unified
  {
    if steps != [] {
      SameUnified(unified, steps[..|steps| - 1]);
      hide Enabled, Next;
      UnifiedStays(After(unified, steps[..|steps| - 1]).value, steps[|steps| - 1]);
    }
  }

  lemma UnifiedStays(s: State, e: Step)
    requires Enabled(s, e)
    ensures Next(s, e).unified == s.unified
  {
    hide EffectiveKey, Routed, Appended, Spawn, Queued;
  }

  // ---- Order ----

  function DeferredFor(s: State, key: string): seq<Inbound> {
    if key in s.deferred then s.deferred[key] else []
  }

  /** The bus is consumed from its head and added to at its end, and so is every deferred
      queue: what leaves it is its oldest turn, which joins the end of the bus. */
  lemma QueuesKeepOrder(s: State, e: Step, key: string)
    requires Enabled(s, e)
    ensures if e.Consume? then Next(s, e).bus == s.bus[1..] else s.bus <= Next(s, e).bus
    ensures var before, after := DeferredFor(s, key), DeferredFor(Next(s, e), key);
            || before <= after
            || (before != [] && after == before[1..] && Next(s, e).bus == s.bus + [before[0]])
  {
    hide EffectiveKey, Routed, Spawn, Queued;
    if e.Finish? {
      PublishKeepsOrder(s, s.tasks[e.i].key, key);
      hide PublishedNext;
    }
  }

  lemma PublishKeepsOrder(s: State, session: string, key: string)
    ensures s.bus <= PublishedNext(s, session).bus
    ensures var before, after := DeferredFor(s, key), DeferredFor(PublishedNext(s, session), key);
            || before <= after
            || (before != [] && after == before[1..] && PublishedNext(s, session).bus == s.bus + [before[0]])
  {
  }
}
