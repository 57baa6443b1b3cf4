/** Two runs in which something goes missing, each for all texts: a closing request that
    sends compacted results in full, and a follow-up that no saved row shows. */
module RunFindings {
  import opened Transcript
  import opened Pairing
  import opened Serving
  import opened RuntimeContext
  import opened Injecting
  import opened Growth
  import opened LengthRecovery
  import opened RunSteps
  import opened RunBounds
  import opened RunLog
  import Governing
  import SessionLog
  import Texts

  // ---- A closing request with a recorded result in full ----

  function ExecCall(): Message {
    Assistant(Text(""), [Call("c", "exec")])
  }

  function ExecResult(big: string): Message {
    Tool(Text(big), "c", "exec")
  }

  /** A budget of one token, which the large result alone exceeds. */
  function TightConfig(big: string): Governing.Config {
    Governing.Config(1, 1, None, None, 1,
      ms => if ExecResult(big) in ms then 2 else 0, m => 0, (i, id, name, content) => content,
      name => Governing.CompactionText(name))
  }

  function TightSpec(big: string): RunSpec {
    RunSpec(TightConfig(big), 2, false, name => false, t => t, t => t, (id, name, content) => content, true,
      t => "", t => "", "", "", "", "", "", "", "done")
  }

  /** One tool call with a large result, then nothing more. */
  function OneCall(big: string): Environment {
    Environment(
      (n, sent) => if n == 0 then Response(ToolCalls, "", [Call("c", "exec")], false, false)
                   else Response(Stop, "", [], false, false),
      (n, c) => ToolOutcome(Text(big), None), n => [], n => false, true)
  }

  function AfterFirst(q: Message, big: string): RunState {
    Start([q]).(messages := [q, ExecCall(), ExecResult(big)], providerCalls := 1, toolRuns := 1, drains := 1,
                checkpoint := Some(SessionLog.Checkpoint(Some(ExecCall()), [ExecResult(big)], [])))
  }

  function AfterSecond(q: Message, big: string): RunState {
    AfterFirst(q, big).(recorded := {"c"}, emptyRetries := 1, providerCalls := 2)
  }

  lemma TightLeavesShort(big: string)
    ensures Governing.LeavesShortTexts(TightConfig(big)) && Governing.InputBudget(TightConfig(big)) == 1
  {
    hide Governing.CompactionText;
  }

  lemma FirstRecordsNothing(q: Message, big: string)
    requires q.User?
    ensures Governing.Prepare(TightConfig(big), [q], {}).1 == {}
  {
    var cfg := TightConfig(big);
    TightLeavesShort(big);
    hide Governing.Prepare, TightConfig, Governing.LeavesShortTexts;
    if id :| id in Governing.Prepare(cfg, [q], {}).1 {
      Governing.RecordedHasLongRow(cfg, [q], {}, id);
    }
  }

  lemma GroupIsRepaired(q: Message, big: string)
    requires q.User?
    ensures var ms := [q, ExecCall(), ExecResult(big)];
            Governing.Repaired(ms) == ms
  {
    var ms := [q, ExecCall(), ExecResult(big)];
    NothingToStrip(q, big);
    GroupIsPaired(q, ExecCall(), ExecResult(big));
    hide *;
    Governing.StripsNothing(ms);
    RepairKeepsPaired(ms);
    Governing.RepairedIsRepair(ms);
  }

  lemma NothingToStrip(q: Message, big: string)
    requires q.User?
    ensures forall m | m in [q, ExecCall(), ExecResult(big)] ::
              !Governing.IsPlaceholder(m) && (m.Assistant? ==> forall c | c in m.calls :: c.name != "")
  {
  }

  lemma GroupIsPaired(q: Message, a: Message, t: Message)
    requires q.User? && a.Assistant? && a.calls == [Call("c", "exec")] && t.Tool? && t.callId == "c" && t.name == "exec"
    ensures Paired([q, a, t])
  {
    EmptyIsPaired();
    PlainRowKeepsPaired([], q);
    assert [] + [q] == [q];
    forall id | id != "" ensures DeclCount([q] + [a] + [t], id) <= 1 {
      DeclCountAppend([q] + [a], [t], id);
      DeclCountAppend([q], [a], id);
      OneDeclaration(q, id);
      OneDeclaration(a, id);
      OneDeclaration(t, id);
      assert a.calls[..0] == [] && CallCount(a.calls, id) <= 1;
    }
    GroupKeepsPaired([q], a, [t]);
    assert [q] + [a] + [t] == [q, a, t];
  }

  lemma OneDeclaration(m: Message, id: string)
    ensures DeclCount([m], id) == Declares(m, id)
  {
    assert [m][..0] == [];
  }

  lemma EmptyIsPaired()
    ensures Paired([])
  {
  }

  /** The second request records the large result. */
  lemma SecondRecordsResult(q: Message, big: string)
    requires q.User? && |big| >= 500
    ensures Governing.Prepare(TightConfig(big), [q, ExecCall(), ExecResult(big)], {}).1 == {"c"}
  {
    var cfg, t := TightConfig(big), ExecResult(big);
    var ms := [q, ExecCall(), t];
    GroupIsRepaired(q, big);
    TightLeavesShort(big);
    assert Governing.ApplyBudget(cfg, ms) == ms;
    assert cfg.estimate(ms) == 2;
    OneCandidate(q, big);
    CompactsIt(q, big);
    hide *;
    Governing.RecordsOf(cfg, ms);
  }

  lemma CompactsIt(q: Message, big: string)
    requires q.User? && |big| >= 500
    ensures Governing.CompactLoop(TightConfig(big), [q, ExecCall(), ExecResult(big)], {},
        [Governing.Candidate(2, "c")], 2).1 == {"c"}
  {
    var cfg, t := TightConfig(big), ExecResult(big);
    TightLeavesShort(big);
    Governing.CompactionTextLength("exec");
    hide Governing.CompactionText, Governing.LeavesShortTexts, Governing.InputBudget;
    var ms, after := [q, ExecCall(), t], [q, ExecCall(), Governing.Compacted(cfg, t)];
    assert Governing.CompactAt(cfg, ms, 2) == after && t !in after;
    assert cfg.estimate(after) == 0 && Governing.CompactTarget(1) == 0;
  }

  lemma OneCandidate(q: Message, big: string)
    requires q.User? && |big| >= 500
    ensures Governing.CandidatesUpTo(TightConfig(big), [q, ExecCall(), ExecResult(big)], 3, {})
        == [Governing.Candidate(2, "c")]
  {
    var cfg, ms := TightConfig(big), [q, ExecCall(), ExecResult(big)];
    assert Governing.CandidatesUpTo(cfg, ms, 0, {}) == [];
    assert Governing.CandidatesUpTo(cfg, ms, 1, {}) == [];
    assert Governing.CandidatesUpTo(cfg, ms, 2, {}) == [];
    assert Governing.IsCandidate(cfg, ms, 2, {});
  }

  lemma NothingWaits(spec: RunSpec, env: Environment, s: RunState)
    requires env.pending(s.drains) == []
    ensures Drained(env, s) == []
    ensures TriedDrain(spec, env, s, None, false).0.messages == s.messages
    ensures FollowedUp(spec, env, s, None, false).0
         == s.(drains := if s.cycles < MAX_INJECTION_CYCLES then s.drains + 1 else s.drains)
  {
    hide Inject;
  }

  lemma FirstIteration(q: Message, big: string)
    requires q.User?
    ensures Iterated(TightSpec(big), OneCall(big), Start([q]))
         == (AfterFirst(q, big), Continue)
  {
    var spec, env, s := TightSpec(big), OneCall(big), Start([q]);
    FirstRecordsNothing(q, big);
    FirstAnswer(q, big);
    FirstToolWork(q, big);
    hide Governing.Prepare, Asked, ToolsDone;
  }

  lemma FirstAnswer(q: Message, big: string)
    ensures var shown := Governing.Prepare(TightConfig(big), [q], {}).0;
            Asked(TightSpec(big), OneCall(big), 0, shown, false)
                == (Response(ToolCalls, "", [Call("c", "exec")], false, false), 1)
  {
    hide Governing.Prepare;
    Governing.AllNamed([Call("c", "exec")]);
  }

  lemma FirstToolWork(q: Message, big: string)
    requires q.User?
    ensures ToolsDone(TightSpec(big), OneCall(big), Start([q]).(providerCalls := 1), "",
                      Response(ToolCalls, "", [Call("c", "exec")], false, false))
         == (AfterFirst(q, big), Continue)
  {
    var spec, env, s := TightSpec(big), OneCall(big), Start([q]).(providerCalls := 1);
    var grouped := Grouped(spec, env, s, ExecCall());
    assert GroupRows(spec, env, s, ExecCall()) == [ExecResult(big)];
    assert grouped.messages == [q, ExecCall(), ExecResult(big)];
    assert FirstFatal(Outcomes(env, 0, [Call("c", "exec")])) == None;
    NothingWaits(spec, env, Refreshed(spec, grouped, ExecCall(), [ExecResult(big)], false));
    hide Grouped, GroupRows, FollowedUp, FirstFatal, Outcomes;
  }

  /** The first blank reply of a run is passed over. */
  lemma BlankIsPassedOver(spec: RunSpec, env: Environment, s: RunState, shown: seq<Message>)
    requires s.emptyRetries == 0
    ensures Replied(spec, env, s, shown, Reply(Stop, "", "", false)) == (s.(emptyRetries := 1), Continue)
  {
    BlankTexts();
    hide Texts.Blank, Settled;
  }

  lemma SecondIteration(q: Message, big: string)
    requires q.User? && |big| >= 500
    ensures Iterated(TightSpec(big), OneCall(big), AfterFirst(q, big)) == (AfterSecond(q, big), Continue)
  {
    var spec, env, s := TightSpec(big), OneCall(big), AfterFirst(q, big);
    var shown := Governing.Prepare(spec.governance, s.messages, s.recorded).0;
    SecondRecordsResult(q, big);
    SecondAnswer(big, shown);
    hide Governing.Prepare, Asked, Iterated, Replied;
    IteratedIs(spec, env, s, Response(Stop, "", [], false, false), 1);
    BlankIsPassedOver(spec, env, s.(recorded := {"c"}, providerCalls := 2), shown);
  }

  lemma SecondAnswer(big: string, shown: seq<Message>)
    ensures Asked(TightSpec(big), OneCall(big), 1, shown, false) == (Response(Stop, "", [], false, false), 1)
  {
    assert Governing.NamedCalls([]) == [];
  }

  /** With a positive budget, the large result is recorded by the second request, whose
      governed copy shows it compacted; the closing request shows it in full. */
  lemma {:induction false} ClosingRequestIsUngoverned(q: Message, big: string)
    requires q.User? && |big| >= 500
    ensures var spec, env := TightSpec(big), OneCall(big);
            var cfg := spec.governance;
            var (s, next) := Looped(spec, env, Start([q]), spec.maxIterations);
            var from := TriedDrain(spec, env, s, None, false).0.messages;
            && Governing.InputBudget(cfg) > 0 && Governing.LeavesShortTexts(cfg)
            && next == Continue && s.recorded == {"c"}
            && !Governing.ShowsCompactions(cfg, ClosingRequest(spec, from), s.recorded)
  {
    var spec, env := TightSpec(big), OneCall(big);
    var s := AfterSecond(q, big);
    TwoIterations(q, big);
    TightLeavesShort(big);
    NothingWaits(spec, env, s);
    SentInFull(q, big);
    hide Looped, TriedDrain, Governing.LeavesShortTexts, Governing.InputBudget, Governing.ShowsCompactions,
      ClosingRequest;
  }

  lemma TwoIterations(q: Message, big: string)
    requires q.User? && |big| >= 500
    ensures Looped(TightSpec(big), OneCall(big), Start([q]), 2)
         == (AfterSecond(q, big), Continue)
  {
    var spec, env, ms := TightSpec(big), OneCall(big), [q, ExecCall(), ExecResult(big)];
    hide *;
    FirstIteration(q, big);
    SecondIteration(q, big);
    LoopedStep(spec, env, Start([q]), 2);
    LoopedStep(spec, env, AfterFirst(q, big), 1);
    LoopedNothing(spec, env, AfterSecond(q, big));
  }

  lemma SentInFull(q: Message, big: string)
    requires |big| >= 500
    ensures var sent := ClosingRequest(TightSpec(big), [q, ExecCall(), ExecResult(big)]);
            !Governing.ShowsCompactions(TightConfig(big), sent, {"c"})
  {
    Governing.CompactionTextLength("exec");
    hide Governing.CompactionText;
    var sent := ClosingRequest(TightSpec(big), [q, ExecCall(), ExecResult(big)]);
    assert sent[2] == ExecResult(big) && sent[2] != Governing.Compacted(TightConfig(big), sent[2]);
  }

  // ---- A follow-up that is in no saved row ----

  function Said(text: string): Message {
    User(Text(text), None, false, true)
  }

  /** The model fails once, a follow-up is waiting, and the next answer is "ok". */
  ghost predicate FailsOnce(spec: RunSpec, env: Environment, more: string) {
    && (forall sent: seq<Message> :: env.respond(0, sent) == Response(Error, "", [], false, false))
    && (forall sent: seq<Message> :: env.respond(1, sent) == Response(Stop, "ok", [], false, false))
    && env.pending(0) == [DictItem(Said(more))] && env.pending(1) == [] && !env.goalActive(0)
    && spec.extract("ok") == "ok" && spec.finalize("ok") == "ok"
  }

  lemma FollowUpIsFolded(q: string, more: string)
    requires q != ""
    ensures Inject([Said(q)], [Said(more)]) == [Said(q + "\n\n" + more)]
  {
    assert [Said(more)][..0] == [];
    assert Inject([Said(q)], []) == [Said(q)];
  }

  lemma OnlyFollowUp(env: Environment, more: string, s: RunState)
    requires env.pending(s.drains) == [DictItem(Said(more))] && s.cycles < MAX_INJECTION_CYCLES && !Texts.Blank(more)
    ensures Drained(env, s) == [Said(more)]
  {
    var items := [DictItem(Said(more))];
    assert items[..0] == [];
    hide Texts.Blank;
    assert Injectable(items) == [Said(more)];
  }

  lemma FirstFails(spec: RunSpec, env: Environment, q: string, more: string)
    requires FailsOnce(spec, env, more) && q != "" && !Texts.Blank(more)
    ensures var (s, next) := Iterated(spec, env, Start([Said(q)]));
            && next == Continue && s.messages == [Said(q + "\n\n" + more)]
            && s.providerCalls == 1 && s.drains == 1 && s.goalChecks == 0 && s.cycles == 1 && s.chain == []
  {
    var s := Start([Said(q)]);
    var (shown, ids) := Governing.Prepare(spec.governance, s.messages, s.recorded);
    FirstAnswerFails(spec, env, more, shown);
    var asked := s.(recorded := ids, providerCalls := 1);
    FailureSettles(spec, env, asked, q, more);
    hide Governing.Prepare, Asked, Settled, FailsOnce, Texts.Blank;
  }

  lemma FirstAnswerFails(spec: RunSpec, env: Environment, more: string, shown: seq<Message>)
    requires FailsOnce(spec, env, more)
    ensures Asked(spec, env, 0, shown, false) == (Response(Error, "", [], false, false), 1)
  {
    assert Governing.NamedCalls([]) == [];
  }

  lemma FailureSettles(spec: RunSpec, env: Environment, s: RunState, q: string, more: string)
    requires FailsOnce(spec, env, more) && q != "" && !Texts.Blank(more)
    requires s.messages == [Said(q)] && s.drains == 0 && s.cycles == 0
    ensures var (s', next) := Settled(spec, env, s, Reply(Error, spec.finalize(spec.extract("")), "", false));
            && next == Continue && s'.messages == [Said(q + "\n\n" + more)] && s'.providerCalls == s.providerCalls
            && s'.drains == 1 && s'.goalChecks == s.goalChecks && s'.cycles == 1 && s'.chain == []
  {
    OnlyFollowUp(env, more, s);
    FollowUpIsFolded(q, more);
    hide Inject, Texts.Blank, Drained, FailsOnce;
    assert Waiting(spec, env, s, None, true) == [Said(more)];
    assert s.messages + ReplyRow(None) == [Said(q)];
  }

  lemma ThenAnswers(spec: RunSpec, env: Environment, more: string, s: RunState)
    requires FailsOnce(spec, env, more)
    requires s.providerCalls == 1 && s.drains == 1 && s.goalChecks == 0 && s.cycles == 1 && s.chain == []
    ensures var (s', next) := Iterated(spec, env, s);
            next == Halt(Completed, "ok") && s'.messages == s.messages + [Plain("ok")]
  {
    var (shown, ids) := Governing.Prepare(spec.governance, s.messages, s.recorded);
    var r := Response(Stop, "ok", [], false, false);
    assert Governing.NamedCalls([]) == [] && Asked(spec, env, 1, shown, false) == (r, 1);
    IteratedIsReplied(spec, env, s, r, 1);
    BlankTexts();
    OkSettles(spec, env, more, s.(recorded := ids, providerCalls := 2));
    hide Governing.Prepare, Asked, Texts.Blank, FailsOnce, Settled, Iterated;
    assert spec.finalize(spec.extract("ok")) == "ok";
  }

  lemma OkSettles(spec: RunSpec, env: Environment, more: string, s: RunState)
    requires FailsOnce(spec, env, more) && s.drains == 1 && s.goalChecks == 0 && s.cycles == 1 && s.chain == []
    ensures var (s', next) := Settled(spec, env, s, Reply(Stop, "ok", "ok", false));
            next == Halt(Completed, "ok") && s'.messages == s.messages + [Plain("ok")]
  {
    BlankTexts();
    assert Injectable([]) == [] && Drained(env, s) == [];
    hide Texts.Blank, Drained, Inject;
    assert Waiting(spec, env, s, Some(Plain("ok")), true) == [];
  }

  /** The follow-up is folded into the row the run was started with. When the save boundary
      is behind that row, what is saved is the answer alone: the follow-up is lost. */
  lemma {:induction false} FoldedFollowUpIsLost(spec: RunSpec, env: Environment, cfg: SessionLog.SaveConfig,
                                                session: seq<Message>, q: string, more: string)
    requires FailsOnce(spec, env, more) && q != "" && !Texts.Blank(more)
    ensures var rows := [Said(q + "\n\n" + more), Plain("ok")];
            && Looped(spec, env, Start([Said(q)]), 2).1 == Halt(Completed, "ok")
            && Looped(spec, env, Start([Said(q)]), 2).0.messages == rows
            && SessionLog.Saved(cfg, session, rows[1..]) == session + [Plain("ok")]
    ensures !Lands(1, [Said(q)], [Said(more)])
  {
    hide *;
    FirstFails(spec, env, q, more);
    var s := Iterated(spec, env, Start([Said(q)])).0;
    ThenAnswers(spec, env, more, s);
    AnswerIsSaved(cfg, session);
    FoldDoesNotLand(q, more);
    LoopedStep(spec, env, Start([Said(q)]), 2);
    LoopedStep(spec, env, s, 1);
    var row, ok := Said(q + "\n\n" + more), Plain("ok");
    assert [row] + [ok] == [row, ok] && [row, ok][1..] == [ok];
  }

  lemma FoldDoesNotLand(q: string, more: string)
    requires q != ""
    ensures !Lands(1, [Said(q)], [Said(more)])
  {
    FollowUpIsFolded(q, more);
    hide Inject;
    var after := Inject([Said(q)], [Said(more)]);
    assert |q + "\n\n" + more| != |q|;
    assert after[..1][0] != [Said(q)][..1][0];
  }

  lemma AnswerIsSaved(cfg: SessionLog.SaveConfig, session: seq<Message>)
    ensures SessionLog.Saved(cfg, session, [Plain("ok")]) == session + [Plain("ok")]
  {
    assert [Plain("ok")][..0] == [];
    assert SessionLog.Saved(cfg, session, []) == session;
  }

  // ---- A proper reply behind a failure ----

  /** A fatal tool error with a follow-up waiting, then a truncated "a", then "b". */
  ghost predicate FailsThenAnswers(spec: RunSpec, env: Environment, more: string) {
    && (forall sent: seq<Message> ::
          env.respond(0, sent) == Response(ToolCalls, "", [Call("c", "exec")], false, false))
    && (forall sent: seq<Message> :: env.respond(1, sent) == Response(Length, "a", [], false, false))
    && (forall sent: seq<Message> :: env.respond(2, sent) == Response(Stop, "b", [], false, false))
    && env.runTool(0, Call("c", "exec")).fatal == Some("boom")
    && env.pending(0) == [DictItem(Said(more))] && env.pending(1) == [] && !env.goalActive(0)
    && forall t: string :: spec.extract(t) == t && spec.finalize(t) == t
  }

  lemma PlainAnswer(spec: RunSpec, env: Environment, n: nat, shown: seq<Message>, r: Response)
    requires env.respond(n, shown) == r && forall c | c in r.calls :: c.name != ""
    ensures Asked(spec, env, n, shown, false) == (r, 1)
  {
    Governing.AllNamed(r.calls);
  }

  lemma ToolFailsFirst(spec: RunSpec, env: Environment, q: string, more: string)
    requires FailsThenAnswers(spec, env, more) && !Texts.Blank(more)
    ensures var (s, next) := Iterated(spec, env, Start([Said(q)]));
            && next == Continue && s.reason == ToolError && s.error == Some("Error: boom") && s.chain == []
            && s.providerCalls == 1 && s.drains == 1 && s.cycles == 1 && s.goalChecks == 0
  {
    var s, call := Start([Said(q)]), Call("c", "exec");
    var r := Response(ToolCalls, "", [call], false, false);
    var (shown, ids) := Governing.Prepare(spec.governance, s.messages, s.recorded);
    PlainAnswer(spec, env, 0, shown, r);
    IteratedIs(spec, env, s, r, 1);
    hide Governing.Prepare, Asked, Iterated, Texts.Blank;
    FatalGoesOn(spec, env, s.(recorded := ids, providerCalls := 1), more, r);
  }

  lemma FatalGoesOn(spec: RunSpec, env: Environment, s: RunState, more: string, r: Response)
    requires FailsThenAnswers(spec, env, more) && !Texts.Blank(more)
    requires r.calls == [Call("c", "exec")] && s.toolRuns == 0 && s.drains == 0 && s.cycles == 0
    ensures var (s', next) := ToolsDone(spec, env, s, spec.extract(r.content), r);
            && next == Continue && s'.reason == ToolError && s'.error == Some("Error: boom") && s'.chain == []
            && s'.providerCalls == s.providerCalls && s'.drains == 1 && s'.cycles == 1 && s'.goalChecks == s.goalChecks
  {
    assert FirstFatal(Outcomes(env, 0, r.calls)) == Some("boom");
    FatalWords();
    var row := Assistant(Text(spec.extract(r.content)), r.calls);
    var grouped := Grouped(spec, env, s, row);
    ClosedGoesOn(spec, env, grouped, AppendFinal(grouped.messages, "Error: boom"), more);
    hide Outcomes, FirstFatal, GroupRows, Closed, AppendFinal, FatalText, FailsThenAnswers;
  }

  lemma FatalWords()
    ensures FatalText("boom") == "Error: boom"
  {
  }

  lemma ClosedGoesOn(spec: RunSpec, env: Environment, s: RunState, closed: seq<Message>, more: string)
    requires env.pending(s.drains) == [DictItem(Said(more))] && s.cycles < MAX_INJECTION_CYCLES && !Texts.Blank(more)
    ensures var (s', next) := Closed(spec, env, s, closed, ToolError, "Error: boom");
            && next == Continue && s'.reason == ToolError && s'.error == Some("Error: boom") && s'.chain == []
            && s'.providerCalls == s.providerCalls && s'.drains == s.drains + 1 && s'.cycles == s.cycles + 1
            && s'.goalChecks == s.goalChecks
  {
    var failed := s.(messages := closed, reason := ToolError, error := Some("Error: boom"));
    OnlyFollowUp(env, more, failed);
    hide Drained, Inject, Texts.Blank;
    assert Waiting(spec, env, failed, None, false) == [Said(more)];
  }

  lemma ThenIsTruncated(spec: RunSpec, env: Environment, more: string, s: RunState)
    requires FailsThenAnswers(spec, env, more) && s.providerCalls == 1 && s.chain == []
    ensures var (s', next) := Iterated(spec, env, s);
            && next == Continue && s'.reason == s.reason && s'.error == s.error && s'.chain == [Segment("a", "a")]
            && s'.providerCalls == 2 && s'.drains == s.drains && s'.cycles == s.cycles && s'.goalChecks == s.goalChecks
  {
    var r := Response(Length, "a", [], false, false);
    var shown := Governing.Prepare(spec.governance, s.messages, s.recorded).0;
    PlainAnswer(spec, env, 1, shown, r);
    IteratedIs(spec, env, s, r, 1);
    hide Governing.Prepare, Asked, Iterated, FollowedUp, Concluded;
  }

  lemma ThenEnds(spec: RunSpec, env: Environment, more: string, s: RunState)
    requires FailsThenAnswers(spec, env, more) && s.providerCalls == 2 && s.chain == [Segment("a", "a")]
    requires s.drains == 1 && s.cycles == 1 && s.goalChecks == 0
    ensures var (s', next) := Iterated(spec, env, s);
            && next == Halt(Completed, "ab") && s'.reason == s.reason && s'.error == s.error
            && s'.messages == s.messages + [Plain("b")]
  {
    var r := Response(Stop, "b", [], false, false);
    var (shown, ids) := Governing.Prepare(spec.governance, s.messages, s.recorded);
    PlainAnswer(spec, env, 2, shown, r);
    IteratedIs(spec, env, s, r, 1);
    LettersAreWhole();
    var asked := s.(recorded := ids, providerCalls := 3);
    assert spec.finalize(spec.extract("b")) == "b";
    assert Injectable([]) == [] && Drained(env, asked) == [];
    hide Governing.Prepare, Asked, Iterated, FinalText, Texts.Blank, Drained, FailsThenAnswers, Inject;
    assert Waiting(spec, env, asked, Some(Plain("b")), true) == [];
  }

  lemma LettersAreWhole()
    ensures !Texts.Blank("b") && FinalText([Segment("a", "a")], Segment("b", "b")) == "ab"
  {
    assert Texts.LeftStrip("b") == "b" && Texts.RightStrip("b") == "b";
    assert Texts.LeftStrip("a") == "a" && Texts.RightStrip("a") == "a";
    assert Texts.LeftStrip("ab") == "ab" && Texts.RightStrip("ab") == "ab";
    var a, b := Segment("a", "a"), Segment("b", "b");
    assert RestoreOuterWhitespace("a", "a") == "a" && RestoreOuterWhitespace("b", "b") == "b";
    assert Parts([a] + [b]) == ["a", "b"];
    assert ["a", "b"][..1] == ["a"] && ["a"][..0] == [];
    assert Texts.Concat(["a"]) == "a" && Texts.Concat(["a", "b"]) == "ab";
  }

  /** The run ends in a proper reply, and reports the tool error of before. What it answers
      is not the last row of its transcript. */
  lemma {:induction false} FailureOutlivesReply(spec: RunSpec, env: Environment, q: string, more: string)
    requires FailsThenAnswers(spec, env, more) && !Texts.Blank(more) && spec.maxIterations >= 3
    ensures var (s, result) := Ran(spec, env, [Said(q)]);
            && Looped(spec, env, Start([Said(q)]), spec.maxIterations).1 == Halt(Completed, "ab")
            && result == RunResult(ToolError, "ab", Some("Error: boom"), None)
            && EndsInReply(s.messages) && !ClosesWith(s.messages, result.content)
  {
    var n, start := spec.maxIterations, Start([Said(q)]);
    hide Looped, Iterated, FailsThenAnswers, Texts.Blank;
    ToolFailsFirst(spec, env, q, more);
    LoopedStep(spec, env, start, n);
    var first := Iterated(spec, env, start).0;
    ThenIsTruncated(spec, env, more, first);
    LoopedStep(spec, env, first, n - 1);
    var second := Iterated(spec, env, first).0;
    ThenEnds(spec, env, more, second);
    LoopedStep(spec, env, second, n - 2);
  }

  // ---- A broken start ----

  /** The model says nothing, and nothing waits. */
  ghost predicate SaysNothing(spec: RunSpec, env: Environment) {
    && (forall n: nat, sent: seq<Message> :: env.respond(n, sent) == Response(Stop, "", [], false, false))
    && (forall n: nat :: env.pending(n) == [])
    && forall t: string :: spec.extract(t) == t && spec.finalize(t) == t
  }

  /** A result whose call is no longer in the loaded history. */
  function OrphanStart(q: string): seq<Message> {
    [Tool(Text("x"), "c", "exec"), Said(q)]
  }

  lemma OrphanIsBroken(q: string)
    ensures DistinctCalls(OrphanStart(q)) && !Paired(OrphanStart(q))
  {
    var t, ms := Tool(Text("x"), "c", "exec"), OrphanStart(q);
    assert ms[..1] == [t] && [t][..0] == [] && ms[..0] == [];
    assert ms[0].Tool? && DeclaredIds(ms[..0]) == {};
    forall id | id != "" ensures DeclCount(ms, id) <= 1 { assert DeclCount([t], id) == 0; }
  }

  /** The governed request is repaired; the closing request is sent as broken as the start. */
  lemma {:induction false} BrokenStartIsSentOn(spec: RunSpec, env: Environment, q: string)
    requires SaysNothing(spec, env) && spec.maxIterations == 1
    ensures var initial := OrphanStart(q);
            var (s, next) := Looped(spec, env, Start(initial), spec.maxIterations);
            var from := TriedDrain(spec, env, s, None, false).0.messages;
            && Paired(Governing.Prepare(spec.governance, initial, {}).0)
            && next == Continue && from == initial && !Paired(ClosingRequest(spec, from))
  {
    var initial := OrphanStart(q);
    OrphanIsBroken(q);
    hide *;
    Governing.PreparedIsPaired(spec.governance, initial, {});
    NothingHappens(spec, env, initial);
    PlainRowKeepsPaired(initial, Prompt(spec.exhaustedPrompt));
    ClosingRequestIs(spec, initial);
  }

  lemma ClosingRequestIs(spec: RunSpec, messages: seq<Message>)
    ensures ClosingRequest(spec, messages) == messages + [Prompt(spec.exhaustedPrompt)]
  {
  }

  lemma NothingHappens(spec: RunSpec, env: Environment, initial: seq<Message>)
    requires SaysNothing(spec, env)
    ensures var (s, next) := Looped(spec, env, Start(initial), 1);
            next == Continue && TriedDrain(spec, env, s, None, false).0.messages == initial
  {
    var s := Start(initial);
    var (shown, ids) := Governing.Prepare(spec.governance, s.messages, s.recorded);
    var r := Response(Stop, "", [], false, false);
    PlainAnswer(spec, env, 0, shown, r);
    IteratedIs(spec, env, s, r, 1);
    BlankIsPassedOver(spec, env, s.(recorded := ids, providerCalls := 1), shown);
    hide Governing.Prepare, Asked, Iterated, Replied, TriedDrain, Looped;
    LoopedStep(spec, env, s, 1);
    var after := s.(recorded := ids, providerCalls := 1, emptyRetries := 1);
    LoopedNothing(spec, env, after);
    NothingWaits(spec, env, after);
  }

  // ---- A cancellation behind two groups ----

  function Exec(id: string): Message {
    Assistant(Text(""), [Call(id, "exec")])
  }

  function ExecRow(spec: RunSpec, id: string, content: Content): (row: Message)
    ensures row.Tool?
  {
    Tool(spec.normalizeResult(id, "exec", content), id, "exec")
  }

  /** The model calls a tool twice, each time by itself, and both calls succeed. */
  ghost predicate CallsTwice(spec: RunSpec, env: Environment, x: Content, y: Content) {
    && (forall sent: seq<Message> ::
          env.respond(0, sent) == Response(ToolCalls, "", [Call("c", "exec")], false, false))
    && (forall sent: seq<Message> ::
          env.respond(1, sent) == Response(ToolCalls, "", [Call("d", "exec")], false, false))
    && env.runTool(0, Call("c", "exec")) == ToolOutcome(x, None)
    && env.runTool(1, Call("d", "exec")) == ToolOutcome(y, None)
    && env.pending(0) == [] && env.pending(1) == [] && spec.extract("") == ""
  }

  lemma CallRound(spec: RunSpec, env: Environment, s: RunState, id: string, content: Content)
    requires env.respond(s.providerCalls, Governing.Prepare(spec.governance, s.messages, s.recorded).0)
          == Response(ToolCalls, "", [Call(id, "exec")], false, false)
    requires env.runTool(s.toolRuns, Call(id, "exec")) == ToolOutcome(content, None) && env.pending(s.drains) == []
    requires spec.extract("") == "" && s.cycles == 0
    ensures var (s', next) := Iterated(spec, env, s);
            var row := ExecRow(spec, id, content);
            && next == Continue && s'.messages == s.messages + [Exec(id)] + [row]
            && s'.checkpoint == Some(SessionLog.Checkpoint(Some(Exec(id)), [row], []))
            && s'.providerCalls == s.providerCalls + 1 && s'.toolRuns == s.toolRuns + 1 && s'.drains == s.drains + 1
            && s'.cycles == 0
  {
    var r := Response(ToolCalls, "", [Call(id, "exec")], false, false);
    hide *;
    var (shown, ids) := Governing.Prepare(spec.governance, s.messages, s.recorded);
    ExecutesCalls(r);
    PlainAnswer(spec, env, s.providerCalls, shown, r);
    IteratedIs(spec, env, s, r, 1);
    CallIsDone(spec, env, s.(recorded := ids, providerCalls := s.providerCalls + 1), id, content);
  }

  lemma ExecutesCalls(r: Response)
    requires r.calls != [] && r.finish.ToolCalls?
    ensures ExecutesTools(r)
  {
  }

  lemma CallIsDone(spec: RunSpec, env: Environment, s: RunState, id: string, content: Content)
    requires env.runTool(s.toolRuns, Call(id, "exec")) == ToolOutcome(content, None) && env.pending(s.drains) == []
    requires s.cycles == 0
    ensures var (s', next) := ToolsDone(spec, env, s, "", Response(ToolCalls, "", [Call(id, "exec")], false, false));
            var row := ExecRow(spec, id, content);
            && next == Continue && s'.messages == s.messages + [Exec(id)] + [row]
            && s'.checkpoint == Some(SessionLog.Checkpoint(Some(Exec(id)), [row], []))
            && s'.providerCalls == s.providerCalls && s'.toolRuns == s.toolRuns + 1 && s'.drains == s.drains + 1
            && s'.cycles == 0
  {
    var row := ExecRow(spec, id, content);
    assert GroupRows(spec, env, s, Exec(id)) == [row];
    assert FirstFatal(Outcomes(env, s.toolRuns, [Call(id, "exec")])) == None;
    var grouped := Grouped(spec, env, s, Exec(id));
    NothingWaits(spec, env, Refreshed(spec, grouped, Exec(id), [row], false));
    hide GroupRows, Outcomes, FirstFatal, FollowedUp, ExecRow;
  }

  /** Cancelled behind the second group, the session has that group only. */
  lemma {:induction false} CancelLosesFirstGroup(spec: RunSpec, env: Environment, q: string, x: Content, y: Content)
    requires CallsTwice(spec, env, x, y)
    ensures var (s, next) := Looped(spec, env, Start([Said(q)]), 2);
            var first, second := [Exec("c"), ExecRow(spec, "c", x)], [Exec("d"), ExecRow(spec, "d", y)];
            && next == Continue && s.messages == [Said(q)] + first + second
            && Cancelled([Said(q)], s.checkpoint) == [Said(q)] + second
  {
    hide *;
    var start := Start([Said(q)]);
    FirstRound(spec, env, q, x, y);
    var one := Iterated(spec, env, start).0;
    SecondRound(spec, env, one, x, y);
    LoopedStep(spec, env, start, 2);
    LoopedStep(spec, env, one, 1);
    LoopedNothing(spec, env, Iterated(spec, env, one).0);
    TwoGroups(Said(q), Exec("c"), ExecRow(spec, "c", x), Exec("d"), ExecRow(spec, "d", y));
    GroupIsRestored(q, ExecRow(spec, "d", y));
  }

  lemma FirstRound(spec: RunSpec, env: Environment, q: string, x: Content, y: Content)
    requires CallsTwice(spec, env, x, y)
    ensures var (s, next) := Iterated(spec, env, Start([Said(q)]));
            && next == Continue && s.messages == [Said(q)] + [Exec("c")] + [ExecRow(spec, "c", x)]
            && s.providerCalls == 1 && s.toolRuns == 1 && s.drains == 1 && s.cycles == 0
  {
    CallRound(spec, env, Start([Said(q)]), "c", x);
    hide Iterated, ExecRow;
  }

  lemma SecondRound(spec: RunSpec, env: Environment, s: RunState, x: Content, y: Content)
    requires CallsTwice(spec, env, x, y) && s.providerCalls == 1 && s.toolRuns == 1 && s.drains == 1 && s.cycles == 0
    ensures var (s', next) := Iterated(spec, env, s);
            var row := ExecRow(spec, "d", y);
            && next == Continue && s'.messages == s.messages + [Exec("d")] + [row]
            && s'.checkpoint == Some(SessionLog.Checkpoint(Some(Exec("d")), [row], []))
  {
    CallRound(spec, env, s, "d", y);
    hide Iterated, ExecRow;
  }

  lemma TwoGroups<T>(q: T, a: T, t: T, b: T, u: T)
    ensures [q] + [a] + [t] + [b] + [u] == [q] + [a, t] + [b, u]
  {
  }

  lemma GroupIsRestored(q: string, t: Message)
    requires t.Tool?
    ensures Cancelled([Said(q)], Some(SessionLog.Checkpoint(Some(Exec("d")), [t], []))) == [Said(q)] + [Exec("d"), t]
  {
    var cp := SessionLog.Checkpoint(Some(Exec("d")), [t], []);
    assert SessionLog.RestoredRows(cp) == [Exec("d"), t];
    assert Said(q) != Exec("d");
    hide SessionLog.Restored, SessionLog.RestoredRows;
    SessionLog.NewGroupIsAppended([Said(q)], cp, Exec("d"));
  }
}
