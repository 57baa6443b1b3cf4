/** What a run reports: the stop reason and the error are set by the branches that fail,
    and nothing resets them when the run goes on behind a failure. */
module RunReports {
  import opened Transcript
  import opened Growth
  import opened LengthRecovery
  import opened RuntimeContext
  import opened RunSteps
  import Governing
  import Texts

  /** A failure and the text that is reported for it. */
  datatype Failed = Failed(reason: LoopReason, text: string)

  /** The failing branch of a reply, which is reached when nothing waits behind the reply. */
  function ReplyFailure(spec: RunSpec, env: Environment, s: RunState, reply: Reply): (failure: Option<Failed>)
    ensures failure.Some? ==> failure.value.reason.ModelError? || failure.value.reason.EmptyFinal?
  {
    var allowGoal := !reply.finish.Refusal? && !reply.finish.ContentFilter?;
    if reply.finish.Length? && |s.chain| < MAX_LENGTH_RECOVERIES then None
    else if FollowedUp(spec, env, s, SaidRow(reply), allowGoal).1 then None
    else if reply.finish.Error? then Some(Failed(ModelError, ErrorReply(spec, reply)))
    else if Texts.Blank(reply.clean) then Some(Failed(EmptyFinal, Texts.Wording(Texts.NoAnswer)))
    else None
  }

  function RepliedFailure(spec: RunSpec, env: Environment, s: RunState, shown: seq<Message>,
                          reply: Reply): (failure: Option<Failed>)
    ensures failure.Some? ==> failure.value.reason.ModelError? || failure.value.reason.EmptyFinal?
  {
    if !(AsksAgainWhenBlank(reply.finish) && Texts.Blank(reply.clean)) then ReplyFailure(spec, env, s, reply)
    else if s.emptyRetries + 1 < MAX_EMPTY_RETRIES then None
    else
      var asked := s.(emptyRetries := s.emptyRetries + 1, providerCalls := s.providerCalls + 1);
      ReplyFailure(spec, env, asked, Retried(spec, env, s.providerCalls, shown))
  }

  function ToolFailure(outcomes: seq<ToolOutcome>): (failure: Option<Failed>)
    ensures failure.Some? ==> failure.value.reason.ToolError?
  {
    match FirstFatal(outcomes)
    case Some(error) => Some(Failed(ToolError, FatalText(error)))
    case None => None
  }

  /** The failure of one iteration, if any: a fatal tool error, a model error, or a reply
      that stays blank. */
  function Failure(spec: RunSpec, env: Environment, s: RunState): (failure: Option<Failed>)
    ensures failure.Some? ==> !failure.value.reason.Completed?
  {
    var (shown, ids) := Governing.Prepare(spec.governance, s.messages, s.recorded);
    var (r, used) := Asked(spec, env, s.providerCalls, shown, false);
    var asked := s.(recorded := ids, providerCalls := s.providerCalls + used);
    var content := spec.extract(r.content);
    if ExecutesTools(r) then ToolFailure(Outcomes(env, s.toolRuns, r.calls))
    else RepliedFailure(spec, env, asked, shown, Reply(r.finish, spec.finalize(content), r.content, r.arrearage))
  }

  /** The states at the loop heads of at most `n` iterations. */
  function Heads(spec: RunSpec, env: Environment, s: RunState, n: nat): seq<RunState>
    decreases n
  {
    if n == 0 then []
    else
      var (s', next) := Iterated(spec, env, s);
      [s] + if next.Halt? then [] else Heads(spec, env, s', n - 1)
  }

  function LastFailure(spec: RunSpec, env: Environment, heads: seq<RunState>): (failure: Option<Failed>)
    ensures failure.Some? ==> !failure.value.reason.Completed?
    ensures failure == None <==> forall h | h in heads :: Failure(spec, env, h) == None
  {
    if heads == [] then None
    else
      var rest := LastFailure(spec, env, heads[1..]);
      assert forall h | h in heads :: h == heads[0] || h in heads[1..];
      if rest.Some? then rest else Failure(spec, env, heads[0])
  }

  /** The run went on behind a failure, because something was waiting. */
  predicate WentOn(spec: RunSpec, env: Environment, s: RunState) {
    Failure(spec, env, s).Some? && Iterated(spec, env, s).1.Continue?
  }

  /** `to` reports what `from` reports, or the failure when there is one. */
  ghost predicate Reports(from: RunState, to: RunState, failure: Option<Failed>) {
    match failure
    case None => to.reason == from.reason && to.error == from.error
    case Some(f) => to.reason == f.reason && to.error == Some(f.text)
  }

  /** A halt is a failure, or else the proper end. */
  ghost predicate HaltsAs(next: Next, failure: Option<Failed>) {
    next.Halt? ==>
      match failure
      case None => next.branch.Completed?
      case Some(f) => next == Halt(f.reason, f.text)
  }

  lemma FollowUpReports(spec: RunSpec, env: Environment, s: RunState, reply: Option<Message>, allowGoal: bool)
    ensures var s' := FollowedUp(spec, env, s, reply, allowGoal).0;
            s'.reason == s.reason && s'.error == s.error
  {
    hide Waiting, Inject;
  }

  lemma ClosedReports(spec: RunSpec, env: Environment, s: RunState, messages: seq<Message>, f: Failed)
    ensures var (s', next) := Closed(spec, env, s, messages, f.reason, f.text);
            Reports(s, s', Some(f)) && HaltsAs(next, Some(f))
  {
    hide FollowedUp;
    FollowUpReports(spec, env, s.(messages := messages, reason := f.reason, error := Some(f.text)), None, false);
  }

  lemma SettledReports(spec: RunSpec, env: Environment, s: RunState, reply: Reply)
    ensures var ((s', next), failure) := (Settled(spec, env, s, reply), ReplyFailure(spec, env, s, reply));
            Reports(s, s', failure) && HaltsAs(next, failure)
  {
    var allowGoal := !reply.finish.Refusal? && !reply.finish.ContentFilter?;
    FollowUpReports(spec, env, s, SaidRow(reply), allowGoal);
    var s' := FollowedUp(spec, env, s, SaidRow(reply), allowGoal).0;
    hide FollowedUp, Closed, FinalText, Texts.Blank, Texts.Wording, ErrorReply, SaidRow, AppendFinal, AppendPlaceholder;
    ClosedReports(spec, env, s', AppendPlaceholder(s'.messages, spec.placeholderText),
                  Failed(ModelError, ErrorReply(spec, reply)));
    var text := Texts.Wording(Texts.NoAnswer);
    ClosedReports(spec, env, s', AppendFinal(s'.messages, text), Failed(EmptyFinal, text));
  }

  lemma ToolsReport(spec: RunSpec, env: Environment, s: RunState, content: string, r: Response)
    ensures var ((s', next), failure) :=
              (ToolsDone(spec, env, s, content, r), ToolFailure(Outcomes(env, s.toolRuns, r.calls)));
            Reports(s, s', failure) && HaltsAs(next, failure)
  {
    var row := Assistant(Text(content), r.calls);
    var grouped, rows := Grouped(spec, env, s, row), GroupRows(spec, env, s, row);
    hide GroupRows, Outcomes, FirstFatal, FollowedUp, Closed, FatalText, Governing.Prepare, AppendFinal;
    var fatal := FirstFatal(Outcomes(env, s.toolRuns, r.calls));
    if fatal.Some? {
      var text := FatalText(fatal.value);
      ClosedReports(spec, env, grouped, AppendFinal(grouped.messages, text), Failed(ToolError, text));
    } else {
      FollowUpReports(spec, env, Refreshed(spec, grouped, row, rows, r.stateful), None, false);
    }
  }

  lemma RepliedReports(spec: RunSpec, env: Environment, s: RunState, shown: seq<Message>, reply: Reply)
    ensures var ((s', next), failure) :=
              (Replied(spec, env, s, shown, reply), RepliedFailure(spec, env, s, shown, reply));
            Reports(s, s', failure) && HaltsAs(next, failure)
  {
    hide Settled, ReplyFailure, Retried, Texts.Blank;
    SettledReports(spec, env, s, reply);
    var asked := s.(emptyRetries := s.emptyRetries + 1, providerCalls := s.providerCalls + 1);
    SettledReports(spec, env, asked, Retried(spec, env, s.providerCalls, shown));
  }

  lemma IteratedReports(spec: RunSpec, env: Environment, s: RunState)
    ensures var (s', next) := Iterated(spec, env, s);
            Reports(s, s', Failure(spec, env, s)) && HaltsAs(next, Failure(spec, env, s))
  {
    hide Governing.Prepare, Asked, ToolsDone, Replied, RepliedFailure, ToolFailure, Outcomes;
    var (shown, ids) := Governing.Prepare(spec.governance, s.messages, s.recorded);
    var (r, used) := Asked(spec, env, s.providerCalls, shown, false);
    var asked := s.(recorded := ids, providerCalls := s.providerCalls + used);
    var content := spec.extract(r.content);
    if ExecutesTools(r) {
      ToolsReport(spec, env, asked, content, r);
    } else {
      RepliedReports(spec, env, asked, shown, Reply(r.finish, spec.finalize(content), r.content, r.arrearage));
    }
  }

  /** The loop reports its last failure; it leaves by its last iteration, and all earlier
      ones went on. */
  lemma {:induction false} LoopedReports(spec: RunSpec, env: Environment, s: RunState, n: nat)
    ensures var ((s', next), heads) := (Looped(spec, env, s, n), Heads(spec, env, s, n));
            && Reports(s, s', LastFailure(spec, env, heads))
            && (forall i | 0 <= i < |heads| - 1 :: Iterated(spec, env, heads[i]).1.Continue?)
            && (next.Halt? ==> heads != [] && HaltsAs(next, Failure(spec, env, heads[|heads| - 1])))
            && (next.Continue? ==> forall h | h in heads :: Iterated(spec, env, h).1.Continue?)
    decreases n
  {
    hide Iterated, Failure;
    if n > 0 {
      var (s', next) := Iterated(spec, env, s);
      IteratedReports(spec, env, s);
      if next.Halt? {
        assert [s][1..] == [];
      } else {
        LoopedReports(spec, env, s', n - 1);
        var rest := Heads(spec, env, s', n - 1);
        assert ([s] + rest)[1..] == rest;
      }
    }
  }

  /** What a run reports: that it ran out of iterations, or else its last failure; and
      always the error of its last failure, even when a proper reply came behind it. */
  lemma {:induction false} RunReportsLastFailure(spec: RunSpec, env: Environment, initial: seq<Message>)
    ensures var result := Ran(spec, env, initial).1;
            var next := Looped(spec, env, Start(initial), spec.maxIterations).1;
            var failure := LastFailure(spec, env, Heads(spec, env, Start(initial), spec.maxIterations));
            && result.reason == (if next.Continue? then MaxIterations
                                 else if failure.Some? then failure.value.reason else Completed)
            && result.error == if failure.Some? then Some(failure.value.text) else None
  {
    LoopedReports(spec, env, Start(initial), spec.maxIterations);
    hide Looped, Heads, LastFailure, EndText;
    DrainReports(spec, env, Looped(spec, env, Start(initial), spec.maxIterations).0);
    hide TriedDrain;
  }

  lemma DrainReports(spec: RunSpec, env: Environment, s: RunState)
    ensures TriedDrain(spec, env, s, None, false).0.error == s.error
  {
    hide Waiting, Inject;
  }

  /** A run reports that it completed exactly when it ends in a proper reply and never
      went on behind a failure. */
  lemma {:induction false} CompletedIff(spec: RunSpec, env: Environment, initial: seq<Message>)
    ensures var next := Looped(spec, env, Start(initial), spec.maxIterations).1;
            var heads := Heads(spec, env, Start(initial), spec.maxIterations);
            Ran(spec, env, initial).1.reason.Completed? <==>
              next.Halt? && next.branch.Completed? && forall h | h in heads :: !WentOn(spec, env, h)
  {
    RunReportsLastFailure(spec, env, initial);
    LoopedReports(spec, env, Start(initial), spec.maxIterations);
    var heads := Heads(spec, env, Start(initial), spec.maxIterations);
    var next := Looped(spec, env, Start(initial), spec.maxIterations).1;
    hide Looped, Heads, Failure, Iterated, Ran;
    if next.Halt? && next.branch.Completed? && forall h | h in heads :: !WentOn(spec, env, h) {
      forall h | h in heads ensures Failure(spec, env, h) == None {
        var i :| 0 <= i < |heads| && heads[i] == h;
      }
    }
  }
}
