/** Bounds and endings of a run, as facts about the run as a function. */
module RunBounds {
  import opened Transcript
  import opened RuntimeContext
  import opened Growth
  import opened LengthRecovery
  import opened RunSteps
  import Governing
  import Texts

  ghost predicate Within(s: RunState) {
    s.cycles <= MAX_INJECTION_CYCLES && |s.chain| <= MAX_LENGTH_RECOVERIES
  }

  /** Parts of an iteration behind the model's answer ask it nothing more. */
  ghost predicate NoMoreCalls(s: RunState, s': RunState) {
    s'.providerCalls == s.providerCalls && s'.emptyRetries <= s.emptyRetries && (Within(s) ==> Within(s'))
  }

  lemma FollowedUpBounds(spec: RunSpec, env: Environment, s: RunState, reply: Option<Message>, allowGoal: bool)
    ensures var (s', proceed) := FollowedUp(spec, env, s, reply, allowGoal);
            && NoMoreCalls(s, s') && s'.emptyRetries == s.emptyRetries
            && if proceed then s'.chain == [] else s'.messages == s.messages && s'.chain == s.chain
  {
    hide Injectable, Capped, Inject, Waiting;
  }

  lemma ClosedBounds(spec: RunSpec, env: Environment, s: RunState, closed: seq<Message>, reason: LoopReason,
                     text: string)
    ensures var (s', next) := Closed(spec, env, s, closed, reason, text);
            && NoMoreCalls(s, s')
            && (next.Halt? ==> next == Halt(reason, text) && s'.messages == closed && s'.chain == s.chain)
  {
    hide FollowedUp;
    FollowedUpBounds(spec, env, s.(messages := closed, reason := reason, error := Some(text)), None, false);
  }

  lemma ToolsDoneBounds(spec: RunSpec, env: Environment, s: RunState, content: string, r: Response)
    ensures var (s', next) := ToolsDone(spec, env, s, content, r);
            && NoMoreCalls(s, s')
            && (next.Halt? ==> next.branch.ToolError? && ClosesWith(s'.messages, next.content))
  {
    hide Closed, FollowedUp, Outcomes, GroupRows, FirstFatal, Governing.Prepare, FatalText;
    var row := Assistant(Text(content), r.calls);
    var grouped, rows := Grouped(spec, env, s, row), GroupRows(spec, env, s, row);
    var fatal := FirstFatal(Outcomes(env, s.toolRuns, r.calls));
    if fatal.Some? {
      var text := FatalText(fatal.value);
      FinalCloses(grouped.messages, text);
      ClosedBounds(spec, env, grouped, AppendFinal(grouped.messages, text), ToolError, text);
    } else {
      FollowedUpBounds(spec, env, Refreshed(spec, grouped, row, rows, r.stateful), None, false);
    }
  }

  lemma FinalCloses(ms: seq<Message>, text: string)
    requires text != ""
    ensures ClosesWith(AppendFinal(ms, text), text)
  {
  }

  /** What the loop answers is the last row of the transcript when it ends on a tool error or
      a blank reply, and on a proper one without truncated parts before it. After a model
      error the last row is a placeholder. */
  ghost predicate ContentIsLast(s: RunState, next: Next) {
    next.Halt? && !next.branch.ModelError? && (next.branch.Completed? ==> s.chain == []) ==>
      ClosesWith(s.messages, next.content)
  }

  lemma NothingIsSaid(s: RunState)
    ensures ContentIsLast(s, Continue)
  {
  }

  lemma WholeInOnePart(last: Segment)
    ensures FinalText([], last) == last.clean
  {
  }

  /** How a run ends on a reply. */
  ghost predicate EndsWell(s: RunState, reply: Reply, s': RunState, next: Next) {
    next.Halt? ==>
      && EndsInReply(s'.messages) && ContentIsLast(s', next)
      && if reply.finish.Error? then next.branch.ModelError?
         else if Texts.Blank(reply.clean) then next.branch.EmptyFinal? && ClosesWith(s'.messages, next.content)
         else
           && next == Halt(Completed, FinalText(s.chain, Segment(reply.clean, reply.original)))
           && s'.messages == s.messages + [Plain(reply.clean)]
  }

  lemma ConcludedBounds(spec: RunSpec, env: Environment, s: RunState, reply: Reply)
    ensures var (s', next) := Concluded(spec, env, s, reply);
            NoMoreCalls(s, s') && EndsWell(s, reply, s', next)
  {
    WholeInOnePart(Segment(reply.clean, reply.original));
    hide Closed, FollowedUp, Texts.Blank, FinalText, Texts.Wording, ErrorReply;
    if reply.finish.Error? {
      var closed := AppendPlaceholder(s.messages, spec.placeholderText);
      ClosedBounds(spec, env, s, closed, ModelError, ErrorReply(spec, reply));
    } else if Texts.Blank(reply.clean) {
      FinalCloses(s.messages, Texts.Wording(Texts.NoAnswer));
      var text := Texts.Wording(Texts.NoAnswer);
      ClosedBounds(spec, env, s, AppendFinal(s.messages, text), EmptyFinal, text);
    }
  }

  /** A truncated response is recovered at most three times in a row; else follow-ups
      come first, and without any the reply decides how the run ends. */
  lemma SettledBounds(spec: RunSpec, env: Environment, s: RunState, reply: Reply)
    ensures var (s', next) := Settled(spec, env, s, reply);
            && NoMoreCalls(s, s') && EndsWell(s, reply, s', next)
            && (reply.finish.Length? && |s.chain| < MAX_LENGTH_RECOVERIES ==>
                (s', next) == (Recovered(spec, s, reply), Continue))
  {
    if !(reply.finish.Length? && |s.chain| < MAX_LENGTH_RECOVERIES) {
      hide FollowedUp, Concluded, EndsInReply, ClosesWith, ContentIsLast, Texts.Blank, FinalText, SaidRow;
      var allowGoal := !reply.finish.Refusal? && !reply.finish.ContentFilter?;
      FollowedUpBounds(spec, env, s, SaidRow(reply), allowGoal);
      ConcludedBounds(spec, env, FollowedUp(spec, env, s, SaidRow(reply), allowGoal).0, reply);
    }
  }

  /** One iteration asks the model at most four times: three times while all calls are
      malformed, and for a finalization, which takes an earlier blank response. */
  lemma IteratedBounds(spec: RunSpec, env: Environment, s: RunState)
    ensures var (s', next) := Iterated(spec, env, s);
            && s.providerCalls < s'.providerCalls <= s.providerCalls + (if s.emptyRetries == 0 then 3 else 4)
            && s'.emptyRetries <= s.emptyRetries + 1 && (Within(s) ==> Within(s'))
            && (next.Halt? ==> EndsInReply(s'.messages))
            && ContentIsLast(s', next)
  {
    hide Asked, ToolsDone, Settled, Texts.Blank, FinalText, Governing.Prepare;
    var (shown, ids) := Governing.Prepare(spec.governance, s.messages, s.recorded);
    var (r, used) := Asked(spec, env, s.providerCalls, shown, false);
    var asked := s.(recorded := ids, providerCalls := s.providerCalls + used);
    var content := spec.extract(r.content);
    if ExecutesTools(r) {
      ToolsDoneBounds(spec, env, asked, content, r);
    } else {
      var reply := Reply(r.finish, spec.finalize(content), r.content, r.arrearage);
      var counted := asked.(emptyRetries := asked.emptyRetries + 1);
      SettledBounds(spec, env, asked, reply);
      SettledBounds(spec, env, counted.(providerCalls := asked.providerCalls + 1),
          Retried(spec, env, asked.providerCalls, shown));
    }
  }

  lemma {:induction false} LoopedBounds(spec: RunSpec, env: Environment, s: RunState, n: nat)
    ensures var (s', next) := Looped(spec, env, s, n);
            && s'.providerCalls <= s.providerCalls + 4 * n - (if n > 0 && s.emptyRetries == 0 then 1 else 0)
            && (Within(s) ==> Within(s'))
            && (next.Halt? ==> EndsInReply(s'.messages))
            && ContentIsLast(s', next)
    decreases n
  {
    hide *;
    NothingIsSaid(s);
    if n == 0 {
      LoopedNothing(spec, env, s);
    } else {
      LoopedStep(spec, env, s, n);
      IteratedBounds(spec, env, s);
      LoopedBounds(spec, env, Iterated(spec, env, s).0, n - 1);
    }
  }

  /** A whole run asks the model at most four times per iteration, the closing request
      included, and once when there are no iterations; it recovers at most three parts
      and takes at most five rounds of follow-ups; and it ends in a reply. */
  lemma RunBoundsHold(spec: RunSpec, env: Environment, initial: seq<Message>)
    ensures var (s, result) := Ran(spec, env, initial);
            && s.providerCalls <= (if spec.maxIterations == 0 then 1 else 4 * spec.maxIterations)
            && Within(s)
            && (spec.maxIterationsText != "" ==> EndsInReply(s.messages))
            && ContentIsLast(s, Looped(spec, env, Start(initial), spec.maxIterations).1)
  {
    hide Looped, TriedDrain, EndText;
    LoopedBounds(spec, env, Start(initial), spec.maxIterations);
    var s := Looped(spec, env, Start(initial), spec.maxIterations).0;
    DrainBounds(spec, env, s);
    var drained := TriedDrain(spec, env, s, None, false).0;
    EndTextIs(spec, env, drained.providerCalls, drained.messages);
  }

  lemma DrainBounds(spec: RunSpec, env: Environment, s: RunState)
    ensures var s' := TriedDrain(spec, env, s, None, false).0;
            s'.providerCalls == s.providerCalls && s'.chain == s.chain && (Within(s) ==> Within(s'))
  {
    hide Injectable, Capped, Inject, Waiting;
  }

  lemma EndTextIs(spec: RunSpec, env: Environment, n: nat, messages: seq<Message>)
    ensures spec.maxIterationsText != "" ==> EndText(spec, env, n, messages) != ""
  {
    assert Texts.Blank("");
    hide ClosingText;
  }

  // ---- The bound is attained ----

  /** A model that answers with nameless calls twice, then with nothing, and when asked to
      finalize with a text; the first round has no finalization. */
  function Stubborn(n: nat): Response {
    if n < 2 || (n > 2 && (n - 3) % 4 < 2) then Response(ToolCalls, "", [Call("c", "")], false, false)
    else if n > 2 && (n - 3) % 4 == 3 then Response(Stop, "ok", [], false, false)
    else Response(Stop, "", [], false, false)
  }

  /** With such a model and a goal that stays active. */
  ghost predicate IsStubborn(spec: RunSpec, env: Environment) {
    && (forall n: nat, sent: seq<Message> :: env.respond(n, sent) == Stubborn(n))
    && (forall n: nat :: env.pending(n) == [] && env.goalActive(n))
    && (forall t: string :: spec.extract(t) == t && spec.finalize(t) == t)
    && spec.finalizeOnMaxIterations
  }

  lemma StubbornAsked(spec: RunSpec, env: Environment, n: nat, sent: seq<Message>)
    requires IsStubborn(spec, env) && (n == 0 || (n >= 3 && (n - 3) % 4 == 0))
    ensures Asked(spec, env, n, sent, false) == (Response(Stop, "", [], false, false), 3)
  {
    var bad := Response(ToolCalls, "", [Call("c", "")], false, false);
    assert Stubborn(n) == bad && Stubborn(n + 1) == bad;
    assert [Call("c", "")][..0] == [] && Governing.NamedCalls([Call("c", "")]) == [];
    var noted := sent + [Prompt(spec.malformedNote(""))];
    assert Asked(spec, env, n + 1, noted, true) == (env.respond(n + 2, noted + [Prompt(spec.malformedNote(""))]), 2);
  }

  lemma BlankTexts()
    ensures Texts.Blank("") && !Texts.Blank("ok")
  {
    assert Texts.LeftStrip("ok") == "ok" && Texts.RightStrip("ok") == "ok";
  }

  /** The reply of a finalization is followed by a goal continuation. */
  lemma StubbornSettles(spec: RunSpec, env: Environment, s: RunState)
    requires IsStubborn(spec, env)
    ensures var (s', next) := Settled(spec, env, s, Reply(Stop, "ok", "ok", false));
            next == Continue && s'.providerCalls == s.providerCalls && s'.emptyRetries == s.emptyRetries
  {
    BlankTexts();
    assert env.pending(s.drains) == [] && env.goalActive(s.goalChecks);
    assert Drained(env, s) == [];
    hide Inject, Texts.Blank, Injectable, Capped;
    assert Waiting(spec, env, s, Some(Plain("ok")), true) == [Prompt(spec.goalPrompt)];
  }

  lemma StubbornRetries(spec: RunSpec, env: Environment, n: nat, shown: seq<Message>)
    requires IsStubborn(spec, env) && n >= 3 && (n - 3) % 4 == 3
    ensures Retried(spec, env, n, shown) == Reply(Stop, "ok", "ok", false)
  {
    assert env.respond(n, shown + [Prompt(spec.retryPrompt)]) == Stubborn(n);
    assert spec.finalize("ok") == "ok";
  }

  lemma StubbornReplies(spec: RunSpec, env: Environment, s: RunState, shown: seq<Message>)
    requires IsStubborn(spec, env)
    requires s.emptyRetries > 0 ==> s.providerCalls >= 3 && (s.providerCalls - 3) % 4 == 3
    ensures var (s', next) := Replied(spec, env, s, shown, Reply(Stop, "", "", false));
            && next == Continue && s'.emptyRetries == s.emptyRetries + 1
            && s'.providerCalls == s.providerCalls + if s.emptyRetries == 0 then 0 else 1
  {
    BlankTexts();
    hide Settled, Texts.Blank, IsStubborn, Retried;
    if s.emptyRetries > 0 {
      StubbornRetries(spec, env, s.providerCalls, shown);
      StubbornSettles(spec, env, s.(emptyRetries := s.emptyRetries + 1, providerCalls := s.providerCalls + 1));
    }
  }

  /** Three calls in the first round, four in every other one. */
  lemma StubbornIterates(spec: RunSpec, env: Environment, s: RunState)
    requires IsStubborn(spec, env)
    requires if s.emptyRetries == 0 then s.providerCalls == 0
             else s.providerCalls >= 3 && (s.providerCalls - 3) % 4 == 0
    ensures var (s', next) := Iterated(spec, env, s);
            && next == Continue && s'.emptyRetries == s.emptyRetries + 1
            && s'.providerCalls == s.providerCalls + if s.emptyRetries == 0 then 3 else 4
  {
    var (shown, ids) := Governing.Prepare(spec.governance, s.messages, s.recorded);
    hide *;
    StubbornAsked(spec, env, s.providerCalls, shown);
    StubbornWords(spec, env);
    IteratedIsReplied(spec, env, s, Response(Stop, "", [], false, false), 3);
    StubbornReplies(spec, env, s.(recorded := ids, providerCalls := s.providerCalls + 3), shown);
  }

  lemma StubbornWords(spec: RunSpec, env: Environment)
    requires IsStubborn(spec, env)
    ensures spec.extract("") == "" && spec.finalize("") == ""
  {
  }

  /** An iteration whose response has no calls. */
  lemma IteratedIsReplied(spec: RunSpec, env: Environment, s: RunState, r: Response, used: nat)
    requires var shown := Governing.Prepare(spec.governance, s.messages, s.recorded).0;
             Asked(spec, env, s.providerCalls, shown, false) == (r, used) && r.calls == []
    ensures var (shown, ids) := Governing.Prepare(spec.governance, s.messages, s.recorded);
            Iterated(spec, env, s) ==
            Replied(spec, env, s.(recorded := ids, providerCalls := s.providerCalls + used), shown,
                    Reply(r.finish, spec.finalize(spec.extract(r.content)), r.content, r.arrearage))
  {
    hide Asked, Replied, Governing.Prepare, ToolsDone;
  }

  lemma {:induction false} StubbornLoops(spec: RunSpec, env: Environment, s: RunState, n: nat)
    requires IsStubborn(spec, env)
    requires if s.emptyRetries == 0 then s.providerCalls == 0
             else s.providerCalls >= 3 && (s.providerCalls - 3) % 4 == 0
    ensures var (s', next) := Looped(spec, env, s, n);
            && next == Continue
            && s'.providerCalls == s.providerCalls + 4 * n - if n > 0 && s.emptyRetries == 0 then 1 else 0
    decreases n
  {
    hide *;
    if n == 0 {
      LoopedNothing(spec, env, s);
    } else {
      LoopedStep(spec, env, s, n);
      StubbornIterates(spec, env, s);
      StubbornLoops(spec, env, Iterated(spec, env, s).0, n - 1);
    }
  }

  /** For every number of iterations the bound is attained. */
  lemma {:induction false} BoundIsAttained(spec: RunSpec, env: Environment, initial: seq<Message>)
    requires IsStubborn(spec, env) && spec.maxIterations > 0
    ensures Ran(spec, env, initial).0.providerCalls == 4 * spec.maxIterations
  {
    StubbornLoops(spec, env, Start(initial), spec.maxIterations);
    var s := Looped(spec, env, Start(initial), spec.maxIterations).0;
    DrainBounds(spec, env, s);
    hide Looped, TriedDrain, EndText;
  }
}
