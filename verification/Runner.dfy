/** The agent run as it runs: fields that are updated step by step, each step proved to
    be its part of the run as a function (RunSteps), with the logs that say what every
    request, loop head and checkpoint looked like. */
module Runner {
  import opened Transcript
  import opened Serving
  import opened RuntimeContext
  import opened Injecting
  import opened Growth
  import opened LengthRecovery
  import opened RunSteps
  import opened RunAnswers
  import opened RunLog
  import opened Seqs
  import opened ToolBatches
  import Governing
  import SessionLog
  import Texts

  lemma NoParts()
    ensures Parts([]) == []
  {
  }

  lemma NoExchanges()
    ensures NoLog().exchanges == []
  {
  }

  lemma NoCheckpoints()
    ensures Latest(NoLog().checkpoints) == None
  {
  }

  lemma NoHeads()
    ensures NoLog().heads == []
  {
  }

  /** A call row with its results behind it. */
  lemma GrowGroup(initial: seq<Message>, ms: seq<Message>, row: Message, results: seq<Message>)
    requires Grown(initial, ms) && row.Assistant? && AnswersInOrder(row.calls, results)
    ensures var after := ms + [row] + results;
            Grown(initial, after) && Extends(ms, after) && KeepsStart(initial, ms, after)
  {
    hide Grown, Extends, KeepsStart, AnswersInOrder;
    ServedGroup(row, results);
    Regroup(ms, [row], results);
    GrowAppend(initial, ms, [row] + results);
  }

  ghost predicate SameCalls(a: Log, b: Log) {
    a.heads == b.heads && a.requests == b.requests && a.exchanges == b.exchanges && a.cuts <= b.cuts
  }

  lemma SameCallsTrans(a: Log, b: Log, c: Log)
    requires SameCalls(a, b) && SameCalls(b, c)
    ensures SameCalls(a, c)
  {
  }

  /** The closing request, made from a transcript that the final one extends. */
  ghost predicate ClosedFrom(spec: RunSpec, initial: seq<Message>, t: Terminal, ms: seq<Message>, recorded: set<string>)
  {
    && Grown(initial, t.from) && Extends(t.from, ms)
    && AskedOn(t.from, t.sent) && t.sent == ClosingRequest(spec, t.from)
    && RecordedOk(spec.governance, t.from, recorded)
  }

  lemma ClosedStays(spec: RunSpec, initial: seq<Message>, t: Terminal, ms: seq<Message>, after: seq<Message>,
                    recorded: set<string>)
    requires ClosedFrom(spec, initial, t, ms, recorded) && Extends(ms, after)
    ensures ClosedFrom(spec, initial, t, after, recorded)
  {
    hide Extends, Grown, AskedOn, ClosingRequest, RecordedOk;
    ExtendsTrans(t.from, ms, after);
  }

  /** The log while the tools of a group run: its checkpoint, and a point to cancel at. */
  ghost function GroupLog(log: Log, before: seq<Message>, row: Message): Log
    requires row.Assistant?
  {
    var cp := SessionLog.Checkpoint(Some(row), [], row.calls);
    log.(checkpoints := log.checkpoints + [cp], cuts := log.cuts + [Cut(before + [row], Some(cp))])
  }

  lemma GroupAnswers(spec: RunSpec, env: Environment, s: RunState, row: Message)
    requires row.Assistant?
    ensures AnswersInOrder(row.calls, GroupRows(spec, env, s, row))
  {
    hide Outcomes, ResultRows;
    ResultsAnswer(spec, row.calls, Outcomes(env, s.toolRuns, row.calls));
  }

  class AgentRun {
    const spec: RunSpec
    const env: Environment
    const initial: seq<Message>

    var messages: seq<Message>
    var recorded: set<string>
    var lengthParts: seq<string>
    var emptyRetries: nat
    var cycles: nat

    // Uses of the environment so far.
    var providerCalls: nat
    var toolRuns: nat
    var drains: nat
    var goalChecks: nat

    // What the run reports so far, and the one checkpoint that is stored for it.
    var stopReason: LoopReason
    var error: Option<string>
    var checkpoint: Option<SessionLog.Checkpoint>

    ghost var chain: seq<Segment>
    ghost var drained: nat
    ghost var log: Log
    ghost var terminal: Option<Terminal>

    ghost function State(): RunState
      reads this
    {
      RunState(messages, recorded, chain, emptyRetries, cycles, providerCalls, toolRuns, drains, goalChecks,
               stopReason, error, checkpoint)
    }

    ghost predicate Logged()
      reads this`messages, this`recorded, this`log, this`checkpoint
    {
      LogOk(spec.governance, initial, log, messages, recorded) && checkpoint == Latest(log.checkpoints)
    }

    ghost predicate Bounded()
      reads this`providerCalls, this`log, this`terminal, this`lengthParts, this`chain, this`cycles, this`drained
    {
      && providerCalls == |log.exchanges| + (if terminal.Some? then 1 else 0)
      && lengthParts == Parts(chain) && |chain| <= MAX_LENGTH_RECOVERIES
      && cycles <= MAX_INJECTION_CYCLES && drained <= MAX_INJECTIONS_PER_TURN * cycles
    }

    ghost predicate Valid()
      reads this
    {
      Logged() && Bounded()
    }

    constructor (spec: RunSpec, env: Environment, initial: seq<Message>)
      ensures Valid() && this.spec == spec && this.env == env && this.initial == initial
      ensures State() == Start(initial) && log == NoLog() && terminal == None
    {
      this.spec, this.env, this.initial := spec, env, initial;
      messages, recorded, lengthParts := initial, {}, [];
      emptyRetries, cycles, providerCalls, toolRuns, drains, goalChecks := 0, 0, 0, 0, 0, 0;
      stopReason, error, checkpoint := Completed, None, None;
      chain, drained, log, terminal := [], 0, NoLog(), None;
      new;
      hide *;
      FreshIsValid();
    }

    lemma FreshIsValid()
      requires messages == initial && recorded == {} && lengthParts == [] && chain == []
      requires cycles == 0 && drained == 0 && providerCalls == 0 && log == NoLog() && terminal == None
      requires emptyRetries == toolRuns == drains == goalChecks == 0
      requires stopReason == Completed && error == None && checkpoint == None
      ensures Valid() && State() == Start(initial)
    {
      LogStarts(spec.governance, initial);
      NoParts();
      NoExchanges();
      NoCheckpoints();
      hide LogOk, Parts, NoLog, Latest;
    }

    /** Take over a transcript that grew from the present one. */
    method Become(after: seq<Message>)
      requires Valid() && Grown(initial, after) && Extends(messages, after)
      requires EndsInUser(initial) ==> KeepsStart(initial, messages, after)
      modifies this`messages
      ensures Valid() && messages == after
    {
      hide LogOk, Parts, Grown, Extends;
      LogGrows(spec.governance, initial, log, messages, recorded, after);
      messages := after;
    }

    lemma Growing()
      requires Valid()
      ensures Grown(initial, messages)
    {
    }

    // ---- Asking the model ----

    /** The run can be cancelled here. */
    ghost method NoteCut()
      requires Valid()
      modifies this`log
      ensures Valid() && log == old(log).(cuts := old(log).cuts + [Cut(messages, checkpoint)])
    {
      hide LogOk, Parts, CutOk, Latest;
      CutHere(spec.governance, initial, log, messages, recorded);
      LogCut(spec.governance, initial, log, messages, recorded, Cut(messages, checkpoint));
      log := log.(cuts := log.cuts + [Cut(messages, checkpoint)]);
    }

    /** One provider call for the newest governed request. */
    method Ask(sent: seq<Message>) returns (r: Response)
      requires Valid() && log.requests != [] && AskedOn(log.requests[|log.requests| - 1].shown, sent)
      modifies this`providerCalls, this`log
      ensures Valid() && r == env.respond(old(providerCalls), sent) && providerCalls == old(providerCalls) + 1
      ensures log == old(log).(exchanges := log.exchanges, cuts := old(log).cuts + [Cut(messages, checkpoint)])
    {
      hide LogOk, Parts, AskedOn, Latest;
      NoteCut();
      ghost var e := Exchange(|log.requests| - 1, sent);
      LogExchange(spec.governance, initial, log, messages, recorded, e);
      r := env.respond(providerCalls, sent);
      providerCalls := providerCalls + 1;
      log := log.(exchanges := log.exchanges + [e]);
    }

    /** Ask for the newest governed request, at most three times while all calls
        of the answer are malformed. */
    method RequestModel(sent: seq<Message>, malformedRetry: bool) returns (r: Response)
      requires Valid() && log.requests != [] && AskedOn(log.requests[|log.requests| - 1].shown, sent)
      modifies this`providerCalls, this`log
      ensures Valid() && log == old(log).(exchanges := log.exchanges, cuts := log.cuts)
      ensures old(log).cuts + [Cut(messages, checkpoint)] <= log.cuts
      ensures var (response, used) := Asked(spec, env, old(providerCalls), sent, malformedRetry);
              r == response && providerCalls == old(providerCalls) + used
      decreases !malformedRetry
    {
      hide LogOk, Parts, DropMalformed, Latest;
      var response := Ask(sent);
      var (kept, allDropped) := DropMalformed(response);
      if allDropped && CallsTools(response.finish) {
        var noted := sent + [Prompt(spec.malformedNote(response.content))];
        if !malformedRetry {
          r := RequestModel(noted, true);
        } else {
          r := Ask(noted);
        }
        return;
      }
      r := kept;
    }

    /** Prepare the next request; the transcript itself stays as it is. */
    method Govern() returns (shown: seq<Message>)
      requires Valid()
      modifies this`recorded, this`log
      ensures Valid() && log.requests != [] && log.requests[|log.requests| - 1].shown == shown
      ensures (shown, recorded) == Governing.Prepare(spec.governance, messages, old(recorded))
      ensures log == old(log).(requests := old(log).requests + [Request(messages, old(recorded), shown, recorded)])
    {
      hide LogOk, Parts, Governing.Prepare;
      var (rows, ids) := Governing.Prepare(spec.governance, messages, recorded);
      ghost var r := Request(messages, recorded, rows, ids);
      LogRequest(spec.governance, initial, log, messages, recorded, r);
      log := log.(requests := log.requests + [r]);
      recorded := ids;
      shown := rows;
    }

    // ---- Follow-ups ----

    /** The injected rows of one drain. */
    method DrainInjections() returns (rows: seq<Message>)
      modifies this`drains
      ensures rows == Capped(Injectable(env.pending(old(drains)))) && drains == old(drains) + 1
      ensures TakesFirst(env.pending(old(drains)), rows)
    {
      TakenAreFirst(env.pending(drains));
      hide TakesFirst;
      var items := env.pending(drains);
      drains := drains + 1;
      rows := [];
      for i := 0 to |items|
        invariant rows == Injectable(items[..i])
      {
        assert items[..i + 1][..i] == items[..i];
        var item := items[i];
        if item.DictItem? && item.row.User? && HasContent(item.row.content) {
          rows := rows + [item.row];
        } else if item.ObjectItem? && HasContent(item.content) {
          rows := rows + [User(item.content, None, false, true)];
        }
      }
      assert items[..|items|] == items;
      rows := Capped(rows);
    }

    /** What to inject next; goal continuations do not count as injections. */
    method TakeWaiting(reply: Option<Message>, allowGoal: bool) returns (rows: seq<Message>)
      requires Valid()
      modifies this`cycles, this`drains, this`goalChecks, this`drained
      ensures Valid() && State() == Counted(env, old(State()), reply, allowGoal)
      ensures rows == Waiting(spec, env, old(State()), reply, allowGoal)
      ensures forall m | m in rows :: m.User? && (HasContent(m.content) || reply.Some?)
    {
      hide LogOk, Parts, Injectable, Capped, HasContent, TakesFirst;
      rows := [];
      if cycles < MAX_INJECTION_CYCLES {
        rows := DrainInjections();
        if rows != [] {
          cycles := cycles + 1;
          drained := drained + |rows|;
        }
      }
      if rows == [] && allowGoal && reply.Some? {
        if env.goalActive(goalChecks) {
          rows := [Prompt(spec.goalPrompt)];
        }
        goalChecks := goalChecks + 1;
      }
    }

    /** Append the reply, if there is one, and checkpoint it. */
    method AppendReply(reply: Option<Message>)
      requires Valid() && (reply.Some? ==> reply.value.Assistant? && reply.value.calls == [])
      modifies this`messages, this`log, this`checkpoint
      ensures Valid() && Extends(old(messages), messages) && SameCalls(old(log), log)
      ensures messages == old(messages) + ReplyRow(reply) && checkpoint == ReplyCheckpoint(old(State()), reply)
      ensures reply.Some? ==> |initial| < |messages|
    {
      SelfExtends(messages);
      hide Valid, Extends;
      if reply.Some? {
        AppendSaid(reply.value);
      } else {
        assert messages + [] == messages;
      }
    }

    method AppendSaid(row: Message)
      requires Valid() && row.Assistant? && row.calls == []
      modifies this`messages, this`log, this`checkpoint
      ensures Valid() && Extends(old(messages), messages) && SameCalls(old(log), log)
      ensures messages == old(messages) + [row] && checkpoint == Some(SessionLog.Checkpoint(Some(row), [], []))
      ensures |initial| < |messages|
    {
      Growing();
      GrownIsLonger(initial, messages);
      hide Valid, Grown, Extends, KeepsStart, Placed;
      GrowPlain(initial, messages, row);
      Become(messages + [row]);
      ReplyIsPlaced(|initial|, messages, row);
      EmitCheckpoint(SessionLog.Checkpoint(Some(row), [], []));
    }

    /** Store a checkpoint in place of the last one. */
    method EmitCheckpoint(cp: SessionLog.Checkpoint)
      requires Valid() && Placed(|initial|, messages, cp)
      modifies this`log, this`checkpoint
      ensures Valid() && checkpoint == Some(cp)
      ensures log == old(log).(checkpoints := old(log).checkpoints + [cp])
    {
      hide LogOk, Parts, Placed;
      LogCheckpoint(spec.governance, initial, log, messages, recorded, cp);
      log := log.(checkpoints := log.checkpoints + [cp]);
      checkpoint := Some(cp);
    }

    method InjectRows(rows: seq<Message>)
      requires Valid() && InjectionOk(|initial|, Injection(messages, rows))
      modifies this`messages, this`log
      ensures Valid() && messages == Inject(old(messages), rows)
      ensures Extends(old(messages), messages) && SameCalls(old(log), log)
    {
      hide LogOk, Parts, Extends, Inject, InjectionOk, Latest;
      LogInjects(spec.governance, initial, log, messages, recorded, rows);
      log := log.(injections := log.injections + [Injection(messages, rows)]);
      messages := Inject(messages, rows);
    }

    /** Append the reply, if there is one, and inject behind it. */
    method InjectBehindReply(reply: Option<Message>, rows: seq<Message>)
      requires Valid() && (reply.Some? ==> reply.value.Assistant? && reply.value.calls == [])
      requires forall m | m in rows :: m.User? && (HasContent(m.content) || reply.Some?)
      modifies this`messages, this`log, this`checkpoint
      ensures Valid() && messages == Inject(old(messages) + ReplyRow(reply), rows)
      ensures checkpoint == ReplyCheckpoint(old(State()), reply)
      ensures Extends(old(messages), messages) && SameCalls(old(log), log)
    {
      Growing();
      GrownIsLonger(initial, messages);
      hide Valid, Extends, Inject, HasContent, ReplyRow, Grown;
      ghost var before := messages;
      AppendReply(reply);
      ghost var replied := messages;
      Growing();
      GrownIsLonger(initial, messages);
      InjectRows(rows);
      ExtendsTrans(before, replied, messages);
    }

    /** Append what is waiting, behind `reply` if there is one. */
    method TryDrainInjections(reply: Option<Message>, allowGoal: bool) returns (proceed: bool)
      requires Valid() && (reply.Some? ==> reply.value.Assistant? && reply.value.calls == [])
      modifies this`messages, this`cycles, this`drains, this`goalChecks, this`drained, this`log, this`checkpoint
      ensures Valid() && Extends(old(messages), messages) && SameCalls(old(log), log)
      ensures (State(), proceed) == TriedDrain(spec, env, old(State()), reply, allowGoal)
    {
      SelfExtends(messages);
      hide Valid, Extends, Waiting, Counted, Inject, Grown, HasContent, ReplyRow;
      var rows := TakeWaiting(reply, allowGoal);
      proceed := rows != [];
      if proceed {
        InjectBehindReply(reply, rows);
      }
    }

    method ClearChain()
      requires Valid()
      modifies this`lengthParts, this`chain
      ensures Valid() && lengthParts == [] && chain == []
    {
      hide LogOk;
      lengthParts := [];
      chain := [];
    }

    /** Look for follow-ups; with some, the answer starts over. */
    method FollowUp(reply: Option<Message>, allowGoal: bool) returns (proceed: bool)
      requires Valid() && (reply.Some? ==> reply.value.Assistant? && reply.value.calls == [])
      modifies this`messages, this`lengthParts, this`cycles, this`drains, this`goalChecks, this`drained, this`chain,
        this`log, this`checkpoint
      ensures Valid() && Extends(old(messages), messages) && SameCalls(old(log), log)
      ensures (State(), proceed) == FollowedUp(spec, env, old(State()), reply, allowGoal)
    {
      hide Valid, Extends, TriedDrain;
      proceed := TryDrainInjections(reply, allowGoal);
      if proceed {
        ClearChain();
      }
    }

    /** Report an error and close the transcript, then look for follow-ups. With some the run
        goes on, and what it reports stays. */
    method CloseWith(closed: seq<Message>, reason: LoopReason, text: string) returns (next: Next)
      requires Valid() && Grown(initial, closed) && Extends(messages, closed)
      requires EndsInUser(initial) ==> KeepsStart(initial, messages, closed)
      modifies this`messages, this`lengthParts, this`cycles, this`drains, this`goalChecks, this`drained, this`chain,
        this`log, this`checkpoint, this`stopReason, this`error
      ensures Valid() && Extends(old(messages), messages) && SameCalls(old(log), log)
      ensures (State(), next) == Closed(spec, env, old(State()), closed, reason, text)
    {
      hide Valid, Extends, Grown, KeepsStart, FollowedUp;
      ghost var before := messages;
      SetReport(reason, text);
      Become(closed);
      var proceed := FollowUp(None, false);
      ExtendsTrans(before, closed, messages);
      next := if proceed then Continue else Halt(reason, text);
    }

    method SetReport(reason: LoopReason, text: string)
      requires Valid()
      modifies this`stopReason, this`error
      ensures Valid() && stopReason == reason && error == Some(text)
    {
      hide LogOk, Parts;
      stopReason := reason;
      error := Some(text);
    }

    // ---- Tool work ----

    /** The calls of one batch, whose results come back in call order. */
    method RunBatch(batch: seq<Call>) returns (outcomes: seq<ToolOutcome>)
      modifies this`toolRuns
      ensures outcomes == Outcomes(env, old(toolRuns), batch) && toolRuns == old(toolRuns) + |batch|
    {
      outcomes := [];
      for k := 0 to |batch|
        invariant outcomes == Outcomes(env, old(toolRuns), batch[..k]) && toolRuns == old(toolRuns) + k
      {
        outcomes := outcomes + [env.runTool(toolRuns, batch[k])];
        toolRuns := toolRuns + 1;
      }
      assert batch[..|batch|] == batch;
    }

    /** Run all calls, batch by batch; results come back in call order. */
    method ExecuteTools(calls: seq<Call>) returns (outcomes: seq<ToolOutcome>)
      modifies this`toolRuns
      ensures outcomes == Outcomes(env, old(toolRuns), calls) && toolRuns == old(toolRuns) + |calls|
    {
      hide Batched, Flatten;
      var batches := PartitionToolBatches(spec.concurrentTools, spec.concurrencySafe, calls);
      outcomes := [];
      assert batches[..|batches|] == batches && batches[..0] == [];
      NoBatches(spec.concurrentTools, spec.concurrencySafe);
      for b := 0 to |batches|
        invariant outcomes == Outcomes(env, old(toolRuns), Flatten(batches[..b]))
        invariant toolRuns == old(toolRuns) + |Flatten(batches[..b])|
      {
        assert batches[..b + 1] == batches[..b] + [batches[b]];
        FlattenSnoc(batches[..b], batches[b]);
        OutcomesAppend(env, old(toolRuns), Flatten(batches[..b]), batches[b]);
        var more := RunBatch(batches[b]);
        outcomes := outcomes + more;
      }
    }

    method AppendResults(results: seq<Message>)
      modifies this`messages
      ensures messages == old(messages) + results
    {
      for i := 0 to |results|
        invariant messages == old(messages) + results[..i]
      {
        messages := messages + [results[i]];
      }
    }

    /** The call row, its checkpoint with all calls pending, the tool work, and one result
        row per call. The run can be cancelled while the tools run. */
    method RunGroup(row: Message) returns (outcomes: seq<ToolOutcome>, results: seq<Message>)
      requires row.Assistant?
      modifies this`messages, this`toolRuns, this`log, this`checkpoint
      ensures State() == Grouped(spec, env, old(State()), row) && results == GroupRows(spec, env, old(State()), row)
      ensures outcomes == Outcomes(env, old(toolRuns), row.calls)
      ensures AnswersWith(spec, env, old(toolRuns), row.calls, results)
      ensures messages == old(messages) + [row] + results
      ensures log == GroupLog(old(log), old(messages), row) && checkpoint == Latest(log.checkpoints)
    {
      hide ResultRows, Outcomes, AnswersWith;
      GroupAnswersWith(spec, env, State(), row);
      messages := messages + [row];
      checkpoint := Some(SessionLog.Checkpoint(Some(row), [], row.calls));
      log := GroupLog(log, old(messages), row);
      outcomes := ExecuteTools(row.calls);
      results := ResultRows(spec, row.calls, outcomes);
      AppendResults(results);
    }

    /** The call row and, behind it, one result per call; before the tools run, the
        checkpoint has all calls pending. */
    method AppendToolGroup(row: Message) returns (fatal: Option<string>, results: seq<Message>)
      requires Valid() && row.Assistant?
      modifies this`messages, this`toolRuns, this`log, this`checkpoint
      ensures Valid() && Extends(old(messages), messages) && SameCalls(old(log), log)
      ensures State() == Grouped(spec, env, old(State()), row) && results == GroupRows(spec, env, old(State()), row)
      ensures fatal == FirstFatal(Outcomes(env, old(toolRuns), row.calls))
      ensures AnswersInOrder(row.calls, results) && AnswersWith(spec, env, old(toolRuns), row.calls, results)
      ensures messages == old(messages) + [row] + results
      ensures log == GroupLog(old(log), old(messages), row)
    {
      Growing();
      hide *;
      ghost var before, earlier := messages, log;
      ValidMeans();
      var outcomes;
      outcomes, results := RunGroup(row);
      fatal := FirstFatal(outcomes);
      GroupAnswers(spec, env, old(State()), row);
      GroupIsLogged(earlier, before, row, results);
      StillBounded();
    }

    lemma ValidMeans()
      requires Valid()
      ensures LogOk(spec.governance, initial, log, messages, recorded) && Bounded()
    {
      hide LogOk, Bounded;
    }

    /** A group asks the model nothing. */
    twostate lemma StillBounded()
      requires old(Valid()) && LogOk(spec.governance, initial, log, messages, recorded)
      requires log.exchanges == old(log.exchanges) && checkpoint == Latest(log.checkpoints)
      requires unchanged(this`providerCalls) && unchanged(this`terminal) && unchanged(this`lengthParts)
      requires unchanged(this`chain) && unchanged(this`cycles) && unchanged(this`drained)
      ensures Valid()
    {
      hide LogOk, Parts;
    }

    lemma GroupIsLogged(earlier: Log, before: seq<Message>, row: Message, results: seq<Message>)
      requires row.Assistant? && AnswersInOrder(row.calls, results) && messages == before + [row] + results
      requires LogOk(spec.governance, initial, earlier, before, recorded) && log == GroupLog(earlier, before, row)
      ensures LogOk(spec.governance, initial, log, messages, recorded) && Extends(before, messages)
      ensures SameCalls(earlier, log) && log.exchanges == earlier.exchanges
    {
      LogMeans(spec.governance, initial, earlier, before, recorded);
      GrownIsLonger(initial, before);
      hide LogOk, Extends, Grown, KeepsStart, AnswersInOrder, Placed;
      GrowGroup(initial, before, row, results);
      LogGrows(spec.governance, initial, earlier, before, recorded, messages);
      var cp := SessionLog.Checkpoint(Some(row), [], row.calls);
      PendingIsPlaced(|initial|, before, row, results);
      LogCheckpoint(spec.governance, initial, earlier, messages, recorded, cp);
      PendingIsPlaced(|initial|, before, row, []);
      assert before + [row] + [] == before + [row];
      LogCut(spec.governance, initial, earlier.(checkpoints := earlier.checkpoints + [cp]), messages, recorded,
             Cut(before + [row], Some(cp)));
    }

    /** The checkpoint of a stateful response prepares the transcript once more. */
    method Regovern()
      requires Valid()
      modifies this`recorded
      ensures Valid() && recorded == Governing.Prepare(spec.governance, messages, old(recorded)).1
    {
      hide LogOk, Governing.Prepare, Latest, Parts;
      LogRegoverns(spec.governance, initial, log, messages, recorded);
      recorded := Governing.Prepare(spec.governance, messages, recorded).1;
    }

    /** The checkpoint behind tool work, and a fresh start for recoveries. */
    method FinishToolWork(row: Message, results: seq<Message>, stateful: bool)
      requires Valid() && Placed(|initial|, messages, SessionLog.Checkpoint(Some(row), results, []))
      modifies this`recorded, this`emptyRetries, this`lengthParts, this`chain, this`log, this`checkpoint
      ensures Valid() && State() == Refreshed(spec, old(State()), row, results, stateful) && SameCalls(old(log), log)
    {
      hide LogOk, Governing.Prepare, Placed, Latest, Parts;
      if stateful {
        Regovern();
      }
      EmitCheckpoint(SessionLog.Checkpoint(Some(row), results, []));
      emptyRetries := 0;
      ClearChain();
    }

    /** A response whose calls are executed: the group stays as appended. */
    method ToolTurn(content: string, r: Response) returns (next: Next)
      requires Valid()
      modifies this`messages, this`lengthParts, this`cycles, this`drains, this`goalChecks, this`drained, this`chain,
        this`log, this`checkpoint, this`stopReason, this`error, this`recorded, this`emptyRetries, this`toolRuns
      ensures Valid() && SameCalls(old(log), log)
      ensures (State(), next) == ToolsDone(spec, env, old(State()), content, r)
      ensures Extends(old(messages), messages)
      ensures Extends(Grouped(spec, env, old(State()), Assistant(Text(content), r.calls)).messages, messages)
    {
      Growing();
      GrownIsLonger(initial, messages);
      hide Valid, Extends, Grown, Grouped, FollowedUp, AfterTools, FirstFatal, Outcomes, GroupRows, GroupLog, Placed;
      ghost var before := messages;
      var row := Assistant(Text(content), r.calls);
      var fatal, results := AppendToolGroup(row);
      ghost var group := messages;
      CompletedIsPlaced(|initial|, before, row, results);
      next := GoOnAfterTools(row, results, fatal, r.stateful);
      ExtendsTrans(before, group, messages);
    }

    method CloseFatally(text: string) returns (next: Next)
      requires Valid() && text != ""
      modifies this`messages, this`lengthParts, this`cycles, this`drains, this`goalChecks, this`drained, this`chain,
        this`log, this`checkpoint, this`stopReason, this`error
      ensures Valid() && Extends(old(messages), messages) && SameCalls(old(log), log)
      ensures (State(), next) == Closed(spec, env, old(State()), AppendFinal(old(messages), text), ToolError, text)
    {
      Growing();
      hide *;
      GrowFinal(initial, messages, text);
      next := CloseWith(AppendFinal(messages, text), ToolError, text);
    }

    /** A fatal tool error closes the transcript with its text. */
    method GoOnAfterTools(row: Message, results: seq<Message>, fatal: Option<string>, stateful: bool)
      returns (next: Next)
      requires Valid() && Placed(|initial|, messages, SessionLog.Checkpoint(Some(row), results, []))
      modifies this`messages, this`lengthParts, this`cycles, this`drains, this`goalChecks, this`drained, this`chain,
        this`log, this`checkpoint, this`stopReason, this`error, this`recorded, this`emptyRetries
      ensures Valid() && Extends(old(messages), messages) && SameCalls(old(log), log)
      ensures (State(), next) == AfterTools(spec, env, old(State()), row, results, fatal, stateful)
    {
      hide Valid, Extends, Refreshed, Closed, FollowedUp, AppendFinal, Placed, FatalText;
      if fatal.Some? {
        next := CloseFatally(FatalText(fatal.value));
      } else {
        FinishToolWork(row, results, stateful);
        var proceed := FollowUp(None, false);
        next := Continue;
      }
    }

    // ---- Replies ----

    method KeepPart(reply: Reply)
      requires Valid() && |lengthParts| < MAX_LENGTH_RECOVERIES
      modifies this`lengthParts, this`chain
      ensures Valid() && chain == old(chain) + [Segment(reply.clean, reply.original)]
    {
      hide LogOk, RestoreOuterWhitespace;
      lengthParts := lengthParts + [RestoreOuterWhitespace(reply.clean, reply.original)];
      chain := chain + [Segment(reply.clean, reply.original)];
    }

    /** A truncated response: keep it and ask for the rest. */
    method Recover(reply: Reply)
      requires Valid() && |lengthParts| < MAX_LENGTH_RECOVERIES
      modifies this`messages, this`lengthParts, this`chain
      ensures Valid() && State() == Recovered(spec, old(State()), reply) && Extends(old(messages), messages)
    {
      hide Valid, Grown, Extends, KeepsStart, Served;
      var row, note := Plain(reply.clean), Prompt(spec.lengthNote(reply.clean));
      TwoServed(row, note);
      KeepPart(reply);
      Growing();
      GrowAppend(initial, messages, [row, note]);
      Become(messages + [row, note]);
    }

    /** A reply without follow-ups. */
    method Conclude(reply: Reply) returns (next: Next)
      requires Valid()
      modifies this`messages, this`lengthParts, this`cycles, this`drains, this`goalChecks, this`drained, this`chain,
        this`log, this`checkpoint, this`stopReason, this`error
      ensures Valid() && Extends(old(messages), messages) && SameCalls(old(log), log)
      ensures (State(), next) == Concluded(spec, env, old(State()), reply)
    {
      hide Valid, Extends, Grown, KeepsStart, Closed, AppendFinal, AppendPlaceholder, FinalText, Texts.Blank,
        Texts.Wording, ErrorReply;
      Growing();
      if reply.finish.Error? {
        GrowPlaceholder(initial, messages, spec.placeholderText);
        next := CloseWith(AppendPlaceholder(messages, spec.placeholderText), ModelError, ErrorReply(spec, reply));
      } else if Texts.Blank(reply.clean) {
        GrowFinal(initial, messages, Texts.Wording(Texts.NoAnswer));
        var text := Texts.Wording(Texts.NoAnswer);
        next := CloseWith(AppendFinal(messages, text), EmptyFinal, text);
      } else {
        next := Complete(reply);
      }
    }

    method Complete(reply: Reply) returns (next: Next)
      requires Valid()
      modifies this`messages, this`log, this`checkpoint
      ensures Valid() && Extends(old(messages), messages) && SameCalls(old(log), log)
      ensures messages == old(messages) + [Plain(reply.clean)]
      ensures checkpoint == ReplyCheckpoint(old(State()), Some(Plain(reply.clean)))
      ensures next == Halt(Completed, FinalText(chain, Segment(reply.clean, reply.original)))
    {
      hide LogOk, Extends, FinalText, RestoreOuterWhitespace;
      FinalTextIs(chain, Segment(reply.clean, reply.original));
      AppendReply(Some(Plain(reply.clean)));
      next := Halt(Completed,
        if lengthParts == [] then reply.clean
        else Texts.Strip(Texts.Concat(lengthParts) + RestoreOuterWhitespace(reply.clean, reply.original)));
    }

    /** A response that is no tool work, after any finalization retry. */
    method Settle(reply: Reply) returns (next: Next)
      requires Valid()
      modifies this`messages, this`lengthParts, this`cycles, this`drains, this`goalChecks, this`drained, this`chain,
        this`log, this`checkpoint, this`stopReason, this`error
      ensures Valid() && Extends(old(messages), messages) && SameCalls(old(log), log)
      ensures (State(), next) == Settled(spec, env, old(State()), reply)
    {
      PartsCount();
      hide Valid, Extends, Recovered, FollowedUp, Concluded, SaidRow;
      if reply.finish.Length? && |lengthParts| < MAX_LENGTH_RECOVERIES {
        Recover(reply);
        return Continue;
      }
      next := AnswerOrGoOn(reply);
    }

    /** Follow-ups come first; without any the reply decides how the run ends. */
    method AnswerOrGoOn(reply: Reply) returns (next: Next)
      requires Valid()
      modifies this`messages, this`lengthParts, this`cycles, this`drains, this`goalChecks, this`drained, this`chain,
        this`log, this`checkpoint, this`stopReason, this`error
      ensures Valid() && Extends(old(messages), messages) && SameCalls(old(log), log)
      ensures var allowGoal := !reply.finish.Refusal? && !reply.finish.ContentFilter?;
              var (s, proceed) := FollowedUp(spec, env, old(State()), SaidRow(reply), allowGoal);
              (State(), next) == if proceed then (s, Continue) else Concluded(spec, env, s, reply)
    {
      hide *;
      ghost var before, earlier := messages, log;
      var proceed := FollowUp(SaidRow(reply), !reply.finish.Refusal? && !reply.finish.ContentFilter?);
      if proceed {
        return Continue;
      }
      ghost var followed, later := messages, log;
      next := Conclude(reply);
      ExtendsTrans(before, followed, messages);
      SameCallsTrans(earlier, later, log);
    }

    lemma PartsCount()
      requires Valid()
      ensures |lengthParts| == |chain|
    {
    }

    /** Ask once more, with a prompt to finalize. */
    method RequestFinalization(shown: seq<Message>) returns (reply: Reply)
      requires Valid() && log.requests != [] && log.requests[|log.requests| - 1].shown == shown
      modifies this`providerCalls, this`log
      ensures Valid() && reply == Retried(spec, env, old(providerCalls), shown)
      ensures providerCalls == old(providerCalls) + 1
      ensures log == old(log).(exchanges := log.exchanges, cuts := log.cuts) && old(log.cuts) <= log.cuts
    {
      hide Valid, AskedOn;
      AskedPrompt(shown, Prompt(spec.retryPrompt));
      var r := Ask(shown + [Prompt(spec.retryPrompt)]);
      reply := Reply(r.finish, spec.finalize(r.content), r.content, r.arrearage);
    }

    /** A reply, with a second try and then a finalization retry when it is blank. */
    method HandleReply(shown: seq<Message>, reply: Reply) returns (next: Next)
      requires Valid() && log.requests != [] && log.requests[|log.requests| - 1].shown == shown
      modifies this
      ensures Valid() && Extends(old(messages), messages) && terminal == old(terminal)
      ensures log.heads == old(log.heads) && log.requests == old(log.requests) && old(log.cuts) <= log.cuts
      ensures (State(), next) == Replied(spec, env, old(State()), shown, reply)
    {
      hide LogOk, Parts, Extends, Settled, Retried, Texts.Blank, AsksAgainWhenBlank, Latest;
      var settled := reply;
      if AsksAgainWhenBlank(reply.finish) && Texts.Blank(reply.clean) {
        emptyRetries := emptyRetries + 1;
        if emptyRetries < MAX_EMPTY_RETRIES {
          SelfExtends(messages);
          return Continue;
        }
        settled := RequestFinalization(shown);
      }
      next := Settle(settled);
    }

    // ---- The loop ----

    method NoteHead()
      requires Valid()
      modifies this`log
      ensures Valid() && log == old(log).(heads := old(log).heads + [messages])
    {
      hide LogOk, Parts, Latest;
      LogHead(spec.governance, initial, log, messages, recorded);
      log := log.(heads := log.heads + [messages]);
    }

    /** The request of one iteration: governed, and made from the present transcript. */
    method AskGoverned() returns (shown: seq<Message>, r: Response)
      requires Valid()
      modifies this`recorded, this`providerCalls, this`log
      ensures Valid() && log.requests != [] && log.requests[|log.requests| - 1].shown == shown
      ensures log.heads == old(log.heads) + [messages]
      ensures |log.requests| == |old(log.requests)| + 1 && log.requests[|old(log.requests)|].from == messages
      ensures old(log.cuts) + [Cut(messages, checkpoint)] <= log.cuts
      ensures (shown, recorded) == Governing.Prepare(spec.governance, messages, old(recorded))
      ensures r == Asked(spec, env, old(providerCalls), shown, false).0
      ensures providerCalls == old(providerCalls) + Asked(spec, env, old(providerCalls), shown, false).1
    {
      hide *;
      NoteHead();
      shown := Govern();
      AskedPlain(shown);
      r := RequestModel(shown, false);
    }

    /** One iteration. */
    method Iterate() returns (next: Next)
      requires Valid() && terminal == None
      modifies this
      ensures Valid() && terminal == None && Extends(old(messages), messages)
      ensures (State(), next) == Iterated(spec, env, old(State()))
      ensures log.heads == old(log.heads) + [old(messages)]
      ensures |log.requests| == |old(log.requests)| + 1 && log.requests[|old(log.requests)|].from == old(messages)
      ensures old(log.cuts) + [Cut(old(messages), old(checkpoint))] <= log.cuts
    {
      hide Valid, Extends, Asked, ToolsDone, Replied, Governing.Prepare, Iterated, ExecutesTools, Grouped;
      ghost var before := State();
      var shown, response := AskGoverned();
      IteratedIs(spec, env, before, response, providerCalls - before.providerCalls);
      var content := spec.extract(response.content);
      if ExecutesTools(response) {
        next := ToolTurn(content, response);
      } else {
        var reply := Reply(response.finish, spec.finalize(content), response.content, response.arrearage);
        next := HandleReply(shown, reply);
      }
    }

    /** The closing call sends the bare transcript and one prompt, not a governed copy.
        A failure, an error or tool calls give no text. */
    method AskTerminal() returns (text: string)
      requires Valid() && terminal == None
      modifies this`providerCalls, this`terminal, this`log
      ensures Valid() && providerCalls == old(providerCalls) + 1 && log == old(log).(cuts := log.cuts)
      ensures terminal == Some(Terminal(messages, ClosingRequest(spec, messages)))
      ensures text == ClosingText(spec, env, old(providerCalls), messages)
    {
      hide LogOk, Parts, Latest;
      NoteCut();
      var sent := ClosingRequest(spec, messages);
      var response := env.respond(providerCalls, sent);
      providerCalls := providerCalls + 1;
      terminal := Some(Terminal(messages, sent));
      text := if env.terminalFails || response.finish.Error? || response.calls != [] then ""
              else spec.finalize(response.content);
    }

    method ClosingWords() returns (text: string)
      requires Valid() && terminal == None
      modifies this`providerCalls, this`terminal, this`log
      ensures log == old(log).(cuts := log.cuts)
      ensures Valid() && text == EndText(spec, env, old(providerCalls), messages)
      ensures providerCalls == old(providerCalls) + if spec.finalizeOnMaxIterations then 1 else 0
      ensures var closing := Terminal(messages, ClosingRequest(spec, messages));
              terminal == if spec.finalizeOnMaxIterations then Some(closing) else None
    {
      hide Valid, ClosingText, Texts.Blank;
      text := "";
      if spec.finalizeOnMaxIterations {
        text := AskTerminal();
      }
      if Texts.Blank(text) {
        text := spec.maxIterationsText;
      }
    }

    /** Take in what is waiting, then ask once more for a closing text. */
    method DrainAndAsk() returns (text: string)
      requires Valid() && terminal == None
      modifies this`messages, this`cycles, this`drains, this`goalChecks, this`drained, this`log, this`providerCalls,
        this`terminal, this`checkpoint
      ensures Valid() && log.heads == old(log.heads)
      ensures var s := TriedDrain(spec, env, old(State()), None, false).0;
              && State() == s.(providerCalls := s.providerCalls + if spec.finalizeOnMaxIterations then 1 else 0)
              && text == EndText(spec, env, s.providerCalls, s.messages)
      ensures spec.finalizeOnMaxIterations <==> terminal.Some?
      ensures terminal.Some? ==> terminal.value.from == messages && TerminalOk(terminal.value)
    {
      hide Valid, TriedDrain, EndText, ClosingRequest, TerminalOk;
      var proceed := TryDrainInjections(None, false);
      text := ClosingWords();
      ClosingIsOk();
    }

    /** The loop ran out: take in what is waiting, and close with what the model says or
        with the fallback. */
    method CloseAtMaxIterations() returns (result: RunResult)
      requires Valid() && terminal == None
      modifies this`messages, this`cycles, this`drains, this`goalChecks, this`drained, this`log, this`providerCalls,
        this`terminal, this`checkpoint
      ensures Valid() && log.heads == old(log.heads)
      ensures (State(), result) == Ended(spec, env, old(State()))
      ensures spec.finalizeOnMaxIterations <==> terminal.Some?
      ensures terminal.Some? ==>
                && TerminalOk(terminal.value)
                && terminal.value.from == TriedDrain(spec, env, old(State()), None, false).0.messages
    {
      hide Valid, TriedDrain, EndText, TerminalOk, EndResult, AppendFinal;
      var text := DrainAndAsk();
      CloseFinally(text);
      result := Result(text);
    }

    method CloseFinally(text: string)
      requires Valid() && (terminal.Some? ==> TerminalOk(terminal.value))
      modifies this`messages
      ensures Valid() && messages == AppendFinal(old(messages), text)
      ensures terminal.Some? ==> TerminalOk(terminal.value)
    {
      hide Valid, Grown, KeepsStart, AppendFinal, Extends, ClosedFrom, EndsInUser;
      Growing();
      GrowFinal(initial, messages, text);
      ghost var before := messages;
      Become(AppendFinal(messages, text));
      if terminal.Some? { ClosedStays(spec, initial, terminal.value, before, messages, recorded); }
    }

    ghost predicate TerminalOk(t: Terminal)
      reads this`messages, this`recorded
    {
      ClosedFrom(spec, initial, t, messages, recorded)
    }

    lemma ClosingIsOk()
      requires Valid() && (terminal.Some? ==> terminal.value == Terminal(messages, ClosingRequest(spec, messages)))
      ensures terminal.Some? ==> TerminalOk(terminal.value)
    {
      SelfExtends(messages);
      AskedPrompt(messages, Prompt(spec.exhaustedPrompt));
    }

    method Result(text: string) returns (result: RunResult)
      requires Valid()
      ensures result == EndResult(chain, text, error)
    {
      PartsCount();
      hide LogOk;
      if lengthParts == [] {
        result := RunResult(MaxIterations, text, error, None);
      } else {
        var tail := "\n\n" + Texts.LeftStrip(text);
        var answer := Texts.Strip(Texts.RightStrip(Texts.Concat(lengthParts)) + tail);
        result := RunResult(MaxIterations, answer, error, Some(tail));
      }
    }

    /** The whole run is the run as a function; at each loop head and at return only the
        last row was ever replaced and appended rows are served. */
    method RunCore() returns (result: RunResult)
      requires Valid() && State() == Start(initial) && log == NoLog() && terminal == None
      modifies this
      ensures (State(), result) == Ran(spec, env, initial)
      ensures Valid() && Grown(initial, messages) && HeadsOk(initial, log.heads, messages)
      ensures |log.heads| <= spec.maxIterations
      ensures drained <= 15 && |lengthParts| <= 3
      ensures result.reason == MaxIterations && spec.finalizeOnMaxIterations <==> terminal.Some?
      ensures terminal.Some? ==> TerminalOk(terminal.value)
      ensures terminal.Some? && Governing.LeavesShortTexts(spec.governance) ==>
                (Governing.ShowsCompactions(spec.governance, terminal.value.sent, recorded) <==> recorded == {})
      ensures InjectionsOk(initial, log.injections, messages) && CheckpointsOk(|initial|, log.checkpoints, messages)
      ensures CutsOk(|initial|, log.cuts)
      ensures CallsAnswered(spec, env, |initial|, messages) && toolRuns == CallTotal(messages[|initial|..])
      ensures RepliesVoiced(spec, env, |initial|, messages)
    {
      hide Valid, Grown, Extends, HeadsOk, InjectionsOk, CheckpointsOk, CutsOk, Iterated, Ended, TerminalOk, Looped,
        NoLog, CallsAnswered, CallTotal, RepliesVoiced;
      RunAnswersItsCalls(spec, env, initial);
      NoHeads();
      for iteration := 0 to spec.maxIterations
        invariant Valid() && terminal == None && |log.heads| == iteration
        invariant Looped(spec, env, State(), spec.maxIterations - iteration)
            == Looped(spec, env, Start(initial), spec.maxIterations)
      {
        LoopedStep(spec, env, State(), spec.maxIterations - iteration);
        var next := Iterate();
        if next.Halt? {
          Means();
          return RunResult(stopReason, next.content, error, None);
        }
      }
      LoopedNothing(spec, env, State());
      EndedReason(spec, env, State());
      result := CloseAtMaxIterations();
      Means();
      if terminal.Some? { ClosingShows(terminal.value); }
    }

    lemma Means()
      requires Valid()
      ensures Grown(initial, messages) && HeadsOk(initial, log.heads, messages)
      ensures InjectionsOk(initial, log.injections, messages) && CheckpointsOk(|initial|, log.checkpoints, messages)
      ensures CutsOk(|initial|, log.cuts)
      ensures drained <= 15 && |lengthParts| <= 3
    {
    }

    lemma ClosingShows(t: Terminal)
      requires TerminalOk(t)
      ensures Governing.LeavesShortTexts(spec.governance) ==>
                (Governing.ShowsCompactions(spec.governance, t.sent, recorded) <==> recorded == {})
    {
      hide Grown, Extends, RecordedOk, Governing.LeavesShortTexts;
      if Governing.LeavesShortTexts(spec.governance) { TerminalShowsIff(spec.governance, recorded, t); }
    }
  }
}
