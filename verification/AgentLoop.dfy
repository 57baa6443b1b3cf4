/** The dispatching object itself: its fields are updated by routing, by draining a
    running turn's queue and by the cleanup behind a turn, and each operation is
    proved to be the step, or the run of steps, of the dispatch protocol. */
module AgentLoop {
  import opened Transcript
  import opened Dispatch
  import opened Routing

  /** The next deferred turn of a session, if there is one. */
  function NextDeferred(queues: map<string, seq<Inbound>>, key: string): seq<Inbound> {
    if key in queues && queues[key] != [] then [queues[key][0]] else []
  }

  class AgentLoop {
    const unified: bool
    var bus: seq<Inbound>
    var tasks: seq<Task>
    var pendingQueues: map<string, nat>
    var deferredQueues: map<string, seq<Inbound>>
    var sessionLocks: map<string, nat>
    var nextLock: nat
    ghost var arrived: seq<Inbound>
    ghost var inline: seq<Inbound>
    ghost var dropped: seq<Inbound>

    ghost function Now(): State
      reads this
    {
      State(unified, bus, tasks, pendingQueues, deferredQueues, sessionLocks, nextLock, arrived, inline, dropped)
    }

    constructor (unified: bool)
      ensures Now() == Initial(unified)
    {
      this.unified := unified;
      bus, tasks, pendingQueues, deferredQueues, sessionLocks, nextLock := [], [], map[], map[], map[], 0;
      arrived, inline, dropped := [], [], [];
    }

    method PublishInbound(m: Inbound)
      modifies this`bus, this`arrived
      ensures Now() == Next(old(Now()), Arrive(m))
    {
      bus := bus + [m];
      arrived := arrived + [m];
    }

    /** Put an automation turn aside when its session is active. */
    method DeferIfActive(m: Inbound, key: string) returns (put: bool)
      modifies this`deferredQueues
      ensures put == (m.automated && key in pendingQueues)
      ensures var rerouted := if key != SessionKey(m) then m.(override := key) else m;
              deferredQueues == if put then Appended(old(deferredQueues), key, rerouted)
                                else old(deferredQueues)
    {
      if !(m.automated && key in pendingQueues) {
        return false;
      }
      var row := m;
      if key != SessionKey(m) {
        row := m.(override := key);
      }
      if key !in deferredQueues {
        deferredQueues := deferredQueues[key := []];
      }
      deferredQueues := deferredQueues[key := deferredQueues[key] + [row]];
      return true;
    }

    /** One round of the consumer. */
    method ConsumeInbound(handledInline: bool)
      requires Enabled(Now(), Consume(handledInline)) && RegistryOk(Now())
      modifies this
      ensures Now() == Next(old(Now()), Consume(handledInline))
      ensures old(WellRouted(Now())) ==> WellRouted(Now())
    {
      if WellRouted(Now()) { RoutesStep(Now(), Consume(handledInline)); }
      hide WellRouted;
      var m := bus[0];
      bus := bus[1..];
      var key := EffectiveKey(unified, m);
      if handledInline {
        inline := inline + [m];
        return;
      }
      RoutedIs(unified, m);
      hide RegistryOk, EffectiveKey, Appended;
      var put := DeferIfActive(m, key);
      if put {
        return;
      }
      if key in pendingQueues {
        var row := m;
        if key != SessionKey(m) {
          row := m.(override := key);
        }
        var owner := pendingQueues[key];
        assert owner < |tasks| by { RegisteredOwner(Now(), key); }
        if |tasks[owner].queue| < PENDING_LIMIT {
          tasks := tasks[owner := Queued(tasks[owner], row)];
          return;
        }
      }
      tasks := tasks + [Spawn(unified, m, false)];
    }

    method GetSessionLock(key: string) returns (lock: nat)
      modifies this`sessionLocks, this`nextLock
      ensures lock == LockOf(old(Now()), key)
      ensures sessionLocks == old(sessionLocks)[key := lock]
      ensures nextLock == if key in old(sessionLocks) then old(nextLock) else old(nextLock) + 1
    {
      if key !in sessionLocks {
        sessionLocks := sessionLocks[key := nextLock];
        nextLock := nextLock + 1;
      }
      lock := sessionLocks[key];
    }

    /** Take waiting follow-ups into the running turn, at most `limit`. */
    method DrainPending(i: nat, limit: nat) returns (items: seq<Inbound>)
      requires limit <= DRAIN_LIMIT && i < |tasks| && tasks[i].phase.Running?
      modifies this`tasks
      ensures |items| == if |old(tasks[i].queue)| < limit then |old(tasks[i].queue)| else limit
      ensures items == old(tasks[i].queue)[..|items|]
      ensures Enabled(old(Now()), Inject(i, |items|)) && Now() == Next(old(Now()), Inject(i, |items|))
    {
      ghost var t := tasks[i];
      items := [];
      var queue := tasks[i].queue;
      while |items| < limit && queue != []
        invariant |items| <= limit && |items| + |queue| == |t.queue|
        invariant items == t.queue[..|items|] && queue == t.queue[|items|..]
        decreases |queue|
      {
        items := items + [queue[0]];
        queue := queue[1..];
      }
      tasks := tasks[i := tasks[i].(queue := queue, injected := tasks[i].injected + items)];
    }

    method PublishNextDeferredTurn(key: string) returns (published: bool)
      requires DeferredOk(Now())
      modifies this`bus, this`deferredQueues
      ensures Now() == PublishedNext(old(Now()), key)
      ensures published == (key in old(deferredQueues))
    {
      hide EffectiveKey;
      if key !in deferredQueues || deferredQueues[key] == [] {
        return false;
      }
      var m := deferredQueues[key][0];
      deferredQueues := deferredQueues[key := deferredQueues[key][1..]];
      if deferredQueues[key] == [] {
        deferredQueues := deferredQueues - {key};
      }
      bus := bus + [m];
      return true;
    }

    method Unregister(i: nat)
      requires Enabled(Now(), EndTurn(i)) && RegistryOk(Now()) && LocksOk(Now())
      modifies this`tasks, this`pendingQueues
      ensures Now() == Next(old(Now()), EndTurn(i))
      ensures tasks == old(tasks)[i := old(tasks[i]).(phase := Draining)]
      ensures pendingQueues == old(pendingQueues) - {old(tasks[i]).key}
    {
      EndTurnUnregistersOwn(Now(), i);
      var key := tasks[i].key;
      if key in pendingQueues && pendingQueues[key] == i {
        pendingQueues := pendingQueues - {key};
      }
      tasks := tasks[i := tasks[i].(phase := Draining)];
    }

    /** The end of /stop, when the session's other tasks have been cancelled and awaited:
        pop its registered queue and empty it. */
    method StopSession(key: string) returns (total: nat)
      requires Enabled(Now(), Stop(key)) && RegistryOk(Now())
      modifies this`tasks, this`pendingQueues, this`dropped
      ensures Now() == Next(old(Now()), Stop(key))
      ensures |dropped| == |old(dropped)| + total && (total > 0 <==> WaitsForDirect(old(Now()), key))
    {
      StopDropsIff(Now(), key);
      StopIs(Now(), key);
      hide Enabled, Next, RegistryOk, WaitsForDirect;
      total := 0;
      if key !in pendingQueues {
        assert pendingQueues - {key} == pendingQueues;
        return;
      }
      var owner := pendingQueues[key];
      RegisteredOwner(Now(), key);
      pendingQueues := pendingQueues - {key};
      total := DiscardQueue(owner);
    }

    method DiscardQueue(i: nat) returns (total: nat)
      requires i < |tasks|
      modifies this`tasks, this`dropped
      ensures tasks == old(tasks)[i := old(tasks[i]).(queue := [])]
      ensures dropped == old(dropped) + old(tasks[i]).queue && total == |old(tasks[i]).queue|
    {
      ghost var t := tasks[i];
      total := 0;
      while tasks[i].queue != []
        invariant total <= |t.queue| && dropped == old(dropped) + t.queue[..total]
        invariant tasks == old(tasks)[i := t.(queue := t.queue[total..])]
        decreases |tasks[i].queue|
      {
        dropped := dropped + [tasks[i].queue[0]];
        tasks := tasks[i := tasks[i].(queue := tasks[i].queue[1..])];
        total := total + 1;
      }
      assert t.queue[..total] == t.queue && t.queue[total..] == [];
    }

    /** Announce idleness and publish the session's next deferred turn. */
    method Settle(i: nat)
      requires Enabled(Now(), Announce(i)) && DeferredOk(Now())
      modifies this`bus, this`tasks, this`deferredQueues
      ensures Now() == Next(Next(old(Now()), Announce(i)), Finish(i))
      ensures tasks == old(tasks)[i := old(tasks[i]).(phase := Done)]
      ensures bus == old(bus) + NextDeferred(old(deferredQueues), old(tasks[i]).key)
    {
      tasks := tasks[i := tasks[i].(phase := Announcing)];
      SameDeferred(old(Now()), Now());
      hide EffectiveKey;
      var published := PublishNextDeferredTurn(tasks[i].key);
      tasks := tasks[i := tasks[i].(phase := Done)];
    }

    /** Publish what is left in the queue of an ended turn. */
    method DrainToBus(i: nat) returns (ghost steps: seq<Step>)
      requires i < |tasks| && tasks[i].phase.Draining?
      modifies this`bus, this`tasks
      ensures Follow(old(Now()), steps) == Some(Now()) && AllDrains(steps)
      ensures bus == old(bus) + old(tasks[i].queue)
      ensures tasks == old(tasks)[i := old(tasks[i]).(queue := [])]
    {
      ghost var start, t := Now(), tasks[i];
      steps := [];
      hide Follow;
      FollowNothing(start);
      ghost var n := 0;
      while tasks[i].queue != []
        invariant Follow(start, steps) == Some(Now()) && AllDrains(steps)
        invariant n <= |t.queue| && bus == start.bus + t.queue[..n]
        invariant tasks == start.tasks[i := t.(queue := t.queue[n..])]
        decreases |tasks[i].queue|
      {
        FollowSnoc(start, steps, Now(), DrainOne(i));
        steps := steps + [DrainOne(i)];
        bus := bus + [tasks[i].queue[0]];
        tasks := tasks[i := tasks[i].(queue := tasks[i].queue[1..])];
        n := n + 1;
      }
    }

    /** The cleanup behind a turn: unregister, drain what is left back to the bus,
        announce idleness, publish the next deferred turn. */
    method CleanUp(i: nat) returns (ghost steps: seq<Step>)
      requires Enabled(Now(), EndTurn(i)) && RegistryOk(Now()) && LocksOk(Now()) && DeferredOk(Now())
      modifies this`bus, this`tasks, this`pendingQueues, this`deferredQueues
      ensures Follow(old(Now()), steps) == Some(Now()) && forall e | e in steps :: !e.CancelAnnounce?
      ensures var t := old(tasks[i]);
              && bus == old(bus) + t.queue + NextDeferred(old(deferredQueues), t.key)
              && tasks == old(tasks)[i := t.(phase := Done, queue := [])]
              && pendingQueues == old(pendingQueues) - {t.key}
    {
      ghost var start, t := Now(), tasks[i];
      hide *;
      ghost var drains := UnregisterAndDrain(i);
      ghost var drained := Now();
      SameDeferred(start, drained);
      steps := CleanUpFollows(start, drains, drained, i);
      Settle(i);
    }

    /** The turn has ended: its queue is unregistered, and what is left in it published. */
    method UnregisterAndDrain(i: nat) returns (ghost drains: seq<Step>)
      requires Enabled(Now(), EndTurn(i)) && RegistryOk(Now()) && LocksOk(Now())
      modifies this`bus, this`tasks, this`pendingQueues
      ensures Follow(Next(old(Now()), EndTurn(i)), drains) == Some(Now()) && AllDrains(drains)
      ensures Enabled(Now(), Announce(i))
      ensures Now().deferred == old(Now()).deferred && Now().unified == old(Now()).unified
      ensures var t := old(tasks[i]);
              && bus == old(bus) + t.queue && tasks == old(tasks)[i := t.(phase := Draining, queue := [])]
              && pendingQueues == old(pendingQueues) - {t.key}
    {
      ghost var t := tasks[i];
      hide Follow, EffectiveKey, RegistryOk, LocksOk, AllDrains, Next, Enabled;
      Unregister(i);
      drains := DrainToBus(i);
      CanAnnounce(Now(), i);
    }
  }

  lemma StopIs(s: State, key: string)
    requires Enabled(s, Stop(key))
    ensures Next(s, Stop(key)) == Stopped(s, key)
  {
  }

  lemma CanAnnounce(s: State, i: nat)
    requires i < |s.tasks| && s.tasks[i].phase.Draining? && s.tasks[i].queue == []
    ensures Enabled(s, Announce(i))
  {
  }

  lemma SameDeferred(s: State, t: State)
    requires DeferredOk(s) && t.deferred == s.deferred && t.unified == s.unified
    ensures DeferredOk(t)
  {
    hide EffectiveKey;
  }

  ghost predicate AllDrains(steps: seq<Step>) {
    forall e | e in steps :: e.DrainOne?
  }

  lemma CleanUpFollows(start: State, drains: seq<Step>, drained: State, i: nat) returns (steps: seq<Step>)
    requires Enabled(start, EndTurn(i)) && Follow(Next(start, EndTurn(i)), drains) == Some(drained) && AllDrains(drains)
    requires Enabled(drained, Announce(i))
    ensures Follow(start, steps) == Some(Next(Next(drained, Announce(i)), Finish(i)))
    ensures forall e | e in steps :: !e.CancelAnnounce?
  {
    hide Follow, PublishedNext, Consumed;
    var idle := Next(drained, Announce(i));
    FollowNothing(start);
    FollowSnoc(start, [], start, EndTurn(i));
    var ended := Next(start, EndTurn(i));
    var first := [] + [EndTurn(i)];
    FollowConcat(start, first, ended, drains, drained);
    FollowSnoc(start, first + drains, drained, Announce(i));
    FollowSnoc(start, first + drains + [Announce(i)], idle, Finish(i));
    steps := first + drains + [Announce(i)] + [Finish(i)];
  }

  lemma RoutedIs(unified: bool, m: Inbound)
    ensures Routed(unified, m) ==
            var key := EffectiveKey(unified, m); if key != SessionKey(m) then m.(override := key) else m
  {
  }

  lemma RegisteredOwner(s: State, key: string)
    requires RegistryOk(s) && key in s.pending
    ensures s.pending[key] < |s.tasks|
  {
  }
}
