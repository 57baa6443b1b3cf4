/** The agent run as a function: one state, and what each part of an iteration makes of
    it. The model, the tools and the injection callback are arbitrary functions of the
    number of earlier uses. */
module RunSteps {
  import opened Transcript
  import opened RuntimeContext
  import opened Injecting
  import opened Growth
  import opened LengthRecovery
  import opened Serving
  import Governing
  import SessionLog
  import Texts

  const MAX_EMPTY_RETRIES := 2
  const MAX_LENGTH_RECOVERIES := 3
  const MAX_INJECTIONS_PER_TURN := 3
  const MAX_INJECTION_CYCLES := 5

  datatype Finish = ToolCalls | FunctionCall | Stop | Length | Error | Refusal | ContentFilter | OtherFinish

  /** A model response; the empty content stands for a missing one. */
  datatype Response = Response(finish: Finish, content: string, calls: seq<Call>, stateful: bool, arrearage: bool)

  datatype ToolOutcome = ToolOutcome(result: Content, fatal: Option<string>)

  /** What the injection callback may return. */
  datatype Item = NoItem | DictItem(row: Message) | ObjectItem(content: Content)

  datatype Environment = Environment(
    respond: (nat, seq<Message>) -> Response,
    runTool: (nat, Call) -> ToolOutcome,
    pending: nat -> seq<Item>,
    goalActive: nat -> bool,
    terminalFails: bool)

  /** The wording of the prompts the runner adds is a parameter. */
  datatype RunSpec = RunSpec(
    governance: Governing.Config,
    maxIterations: nat,
    concurrentTools: bool,
    concurrencySafe: string -> bool,
    extract: string -> string,
    finalize: string -> string,
    normalizeResult: (string, string, Content) -> Content,
    finalizeOnMaxIterations: bool,
    malformedNote: string -> string,
    lengthNote: string -> string,
    retryPrompt: string,
    exhaustedPrompt: string,
    goalPrompt: string,
    errorText: string,
    arrearageText: string,
    placeholderText: string,
    maxIterationsText: string)

  datatype StopReason = Completed | ToolError | ModelError | EmptyFinal | MaxIterations

  /** What the loop can report; running out of iterations is reported behind it. */
  type LoopReason = r: StopReason | !r.MaxIterations? witness Completed

  /** A halt names the branch that left the loop: Completed for a proper reply. */
  datatype Next = Continue | Halt(branch: LoopReason, content: string)

  /** A reply as the hooks made it and as the model wrote it. */
  datatype Reply = Reply(finish: Finish, clean: string, original: string, arrearage: bool)

  datatype RunResult =
    RunResult(reason: StopReason, content: string, error: Option<string>, pendingStream: Option<string>)

  /** The transcript, the recorded compactions, the truncated responses since the last
      fresh start, the counters that bound the run, the uses of the environment, what the
      run reports so far, and the checkpoint it stored last. */
  datatype RunState = RunState(
    messages: seq<Message>,
    recorded: set<string>,
    chain: seq<Segment>,
    emptyRetries: nat,
    cycles: nat,
    providerCalls: nat,
    toolRuns: nat,
    drains: nat,
    goalChecks: nat,
    reason: LoopReason,
    error: Option<string>,
    checkpoint: Option<SessionLog.Checkpoint>)

  function Start(initial: seq<Message>): RunState {
    RunState(initial, {}, [], 0, 0, 0, 0, 0, 0, Completed, None, None)
  }

  function Prompt(text: string): (m: Message)
    ensures m.User?
  {
    User(Text(text), None, false, true)
  }

  // ---- Asking the model ----

  predicate CallsTools(finish: Finish) {
    finish.ToolCalls? || finish.FunctionCall?
  }

  predicate ExecutesTools(r: Response) {
    r.calls != [] && (CallsTools(r.finish) || r.finish.Stop?)
  }

  predicate AsksAgainWhenBlank(finish: Finish) {
    !finish.Error? && !finish.Length? && !finish.Refusal? && !finish.ContentFilter?
  }

  /** The response without its nameless calls, and whether that was all of them. */
  function DropMalformed(r: Response): (Response, bool) {
    var valid := Governing.NamedCalls(r.calls);
    if |valid| == |r.calls| then (r, false)
    else (Response(if valid == [] then Stop else r.finish, r.content, valid, false, r.arrearage), valid == [])
  }

  /** The response taken for a request, and the number of calls made for it. */
  function Asked(spec: RunSpec, env: Environment, n: nat, sent: seq<Message>,
                 malformedRetry: bool): (answer: (Response, nat))
    ensures 1 <= answer.1 <= if malformedRetry then 2 else 3
    decreases !malformedRetry
  {
    var response := env.respond(n, sent);
    var (kept, allDropped) := DropMalformed(response);
    if !(allDropped && CallsTools(response.finish)) then (kept, 1)
    else
      var noted := sent + [Prompt(spec.malformedNote(response.content))];
      if malformedRetry then (env.respond(n + 1, noted), 2)
      else
        var (r, used) := Asked(spec, env, n + 1, noted, true);
        (r, used + 1)
  }

  // ---- Follow-ups ----

  function Injectable(items: seq<Item>): (rows: seq<Message>)
    ensures forall m | m in rows :: m.User? && HasContent(m.content)
  {
    if items == [] then []
    else
      var rows := Injectable(items[..|items| - 1]);
      match items[|items| - 1]
      case NoItem => rows
      case DictItem(row) => if row.User? && HasContent(row.content) then rows + [row] else rows
      case ObjectItem(content) => if HasContent(content) then rows + [User(content, None, false, true)] else rows
  }

  function Capped(rows: seq<Message>): (kept: seq<Message>)
    ensures |kept| <= MAX_INJECTIONS_PER_TURN && (rows != [] <==> kept != [])
    ensures forall m | m in kept :: m in rows
  {
    if |rows| > MAX_INJECTIONS_PER_TURN then rows[..MAX_INJECTIONS_PER_TURN] else rows
  }

  function ReplyRow(reply: Option<Message>): seq<Message> {
    if reply.Some? then [reply.value] else []
  }

  function Drained(env: Environment, s: RunState): seq<Message> {
    if s.cycles < MAX_INJECTION_CYCLES then Capped(Injectable(env.pending(s.drains))) else []
  }

  predicate AsksGoal(env: Environment, s: RunState, reply: Option<Message>, allowGoal: bool) {
    Drained(env, s) == [] && allowGoal && reply.Some?
  }

  /** The rows to inject next: waiting ones, else a goal continuation behind a reply. */
  function Waiting(spec: RunSpec, env: Environment, s: RunState, reply: Option<Message>, allowGoal: bool): seq<Message>
  {
    if AsksGoal(env, s, reply, allowGoal) && env.goalActive(s.goalChecks) then [Prompt(spec.goalPrompt)]
    else Drained(env, s)
  }

  function Counted(env: Environment, s: RunState, reply: Option<Message>, allowGoal: bool): RunState {
    s.(cycles := if Drained(env, s) != [] then s.cycles + 1 else s.cycles,
       drains := if s.cycles < MAX_INJECTION_CYCLES then s.drains + 1 else s.drains,
       goalChecks := if AsksGoal(env, s, reply, allowGoal) then s.goalChecks + 1 else s.goalChecks)
  }

  function ReplyCheckpoint(s: RunState, reply: Option<Message>): Option<SessionLog.Checkpoint> {
    if reply.Some? then Some(SessionLog.Checkpoint(reply, [], [])) else s.checkpoint
  }

  /** Append what is waiting, behind the reply if there is one. */
  function TriedDrain(spec: RunSpec, env: Environment, s: RunState, reply: Option<Message>,
                      allowGoal: bool): (RunState, bool)
  {
    var rows, counted := Waiting(spec, env, s, reply, allowGoal), Counted(env, s, reply, allowGoal);
    if rows == [] then (counted, false)
    else
      (counted.(messages := Inject(s.messages + ReplyRow(reply), rows), checkpoint := ReplyCheckpoint(s, reply)), true)
  }

  /** The same; with something injected the answer starts over. */
  function FollowedUp(spec: RunSpec, env: Environment, s: RunState, reply: Option<Message>,
                      allowGoal: bool): (RunState, bool)
  {
    var (s', proceed) := TriedDrain(spec, env, s, reply, allowGoal);
    (if proceed then s'.(chain := []) else s', proceed)
  }

  /** A run that is about to end with an error goes on when something is waiting; what it
      reports stays. */
  function Closed(spec: RunSpec, env: Environment, s: RunState, messages: seq<Message>, reason: LoopReason,
                  text: string): (RunState, Next)
  {
    var failed := s.(messages := messages, reason := reason, error := Some(text));
    var (s', proceed) := FollowedUp(spec, env, failed, None, false);
    (s', if proceed then Continue else Halt(reason, text))
  }

  // ---- Tool work ----

  function FirstFatal(outcomes: seq<ToolOutcome>): Option<string> {
    if outcomes == [] then None
    else if outcomes[0].fatal.Some? then outcomes[0].fatal
    else FirstFatal(outcomes[1..])
  }

  function Outcomes(env: Environment, n: nat, calls: seq<Call>): (outcomes: seq<ToolOutcome>)
    ensures |outcomes| == |calls|
  {
    seq(|calls|, i requires 0 <= i < |calls| => env.runTool(n + i, calls[i]))
  }

  function ResultRows(spec: RunSpec, calls: seq<Call>, outcomes: seq<ToolOutcome>): seq<Message>
    requires |calls| == |outcomes|
  {
    seq(|calls|, i requires 0 <= i < |calls| =>
      Tool(spec.normalizeResult(calls[i].id, calls[i].name, outcomes[i].result), calls[i].id, calls[i].name))
  }

  function GroupRows(spec: RunSpec, env: Environment, s: RunState, row: Message): seq<Message>
    requires row.Assistant?
  {
    ResultRows(spec, row.calls, Outcomes(env, s.toolRuns, row.calls))
  }

  /** The call row, checkpointed with all calls pending, and behind it one result per call. */
  function Grouped(spec: RunSpec, env: Environment, s: RunState, row: Message): RunState
    requires row.Assistant?
  {
    s.(messages := s.messages + [row] + GroupRows(spec, env, s, row), toolRuns := s.toolRuns + |row.calls|,
       checkpoint := Some(SessionLog.Checkpoint(Some(row), [], row.calls)))
  }

  /** After tool work: the checkpoint of a stateful response prepares the transcript again. */
  function Refreshed(spec: RunSpec, s: RunState, row: Message, results: seq<Message>, stateful: bool): RunState {
    s.(recorded := if stateful then Governing.Prepare(spec.governance, s.messages, s.recorded).1 else s.recorded,
       emptyRetries := 0, chain := [], checkpoint := Some(SessionLog.Checkpoint(Some(row), results, [])))
  }

  function FatalText(error: string): (text: string)
    ensures text != ""
  {
    "Error: " + error
  }

  /** A fatal tool error ends the run with its text; else the loop goes on. */
  function AfterTools(spec: RunSpec, env: Environment, s: RunState, row: Message, results: seq<Message>,
                      fatal: Option<string>, stateful: bool): (RunState, Next)
  {
    match fatal
    case Some(error) =>
      var text := FatalText(error);
      Closed(spec, env, s, AppendFinal(s.messages, text), ToolError, text)
    case None =>
      (FollowedUp(spec, env, Refreshed(spec, s, row, results, stateful), None, false).0, Continue)
  }

  function ToolsDone(spec: RunSpec, env: Environment, s: RunState, content: string, r: Response): (RunState, Next) {
    var row := Assistant(Text(content), r.calls);
    AfterTools(spec, env, Grouped(spec, env, s, row), row, GroupRows(spec, env, s, row),
               FirstFatal(Outcomes(env, s.toolRuns, row.calls)), r.stateful)
  }

  // ---- Replies ----

  function ErrorReply(spec: RunSpec, reply: Reply): string {
    if reply.arrearage then spec.arrearageText else if reply.clean != "" then reply.clean else spec.errorText
  }

  /** A truncated response is kept and a continuation is asked for. */
  function Recovered(spec: RunSpec, s: RunState, reply: Reply): RunState {
    s.(messages := s.messages + [Plain(reply.clean), Prompt(spec.lengthNote(reply.clean))],
       chain := s.chain + [Segment(reply.clean, reply.original)])
  }

  /** A reply without follow-ups. */
  function Concluded(spec: RunSpec, env: Environment, s: RunState, reply: Reply): (RunState, Next) {
    if reply.finish.Error? then
      Closed(spec, env, s, AppendPlaceholder(s.messages, spec.placeholderText), ModelError, ErrorReply(spec, reply))
    else if Texts.Blank(reply.clean) then
      var text := Texts.Wording(Texts.NoAnswer);
      Closed(spec, env, s, AppendFinal(s.messages, text), EmptyFinal, text)
    else
      (s.(messages := s.messages + [Plain(reply.clean)], checkpoint := ReplyCheckpoint(s, Some(Plain(reply.clean)))),
       Halt(Completed, FinalText(s.chain, Segment(reply.clean, reply.original))))
  }

  /** The reply row that follow-ups go behind: none for an error or a blank reply. */
  function SaidRow(reply: Reply): (row: Option<Message>)
    ensures row.Some? ==> row.value.Assistant? && row.value.calls == []
  {
    if reply.finish.Error? || Texts.Blank(reply.clean) then None else Some(Plain(reply.clean))
  }

  function Settled(spec: RunSpec, env: Environment, s: RunState, reply: Reply): (RunState, Next) {
    if reply.finish.Length? && |s.chain| < MAX_LENGTH_RECOVERIES then (Recovered(spec, s, reply), Continue)
    else
      var (s', proceed) :=
        FollowedUp(spec, env, s, SaidRow(reply), !reply.finish.Refusal? && !reply.finish.ContentFilter?);
      if proceed then (s', Continue) else Concluded(spec, env, s', reply)
  }

  function Retried(spec: RunSpec, env: Environment, n: nat, shown: seq<Message>): Reply {
    var r := env.respond(n, shown + [Prompt(spec.retryPrompt)]);
    Reply(r.finish, spec.finalize(r.content), r.content, r.arrearage)
  }

  // ---- The loop ----

  /** What a response that executes no tools makes of the state. */
  function Replied(spec: RunSpec, env: Environment, s: RunState, shown: seq<Message>, reply: Reply): (RunState, Next) {
    if !(AsksAgainWhenBlank(reply.finish) && Texts.Blank(reply.clean)) then Settled(spec, env, s, reply)
    else
      var counted := s.(emptyRetries := s.emptyRetries + 1);
      if counted.emptyRetries < MAX_EMPTY_RETRIES then (counted, Continue)
      else
        Settled(spec, env, counted.(providerCalls := s.providerCalls + 1), Retried(spec, env, s.providerCalls, shown))
  }

  function Iterated(spec: RunSpec, env: Environment, s: RunState): (RunState, Next) {
    var (shown, ids) := Governing.Prepare(spec.governance, s.messages, s.recorded);
    var (r, used) := Asked(spec, env, s.providerCalls, shown, false);
    var asked := s.(recorded := ids, providerCalls := s.providerCalls + used);
    var content := spec.extract(r.content);
    if ExecutesTools(r) then ToolsDone(spec, env, asked, content, r)
    else Replied(spec, env, asked, shown, Reply(r.finish, spec.finalize(content), r.content, r.arrearage))
  }

  /** At most `n` iterations. */
  function Looped(spec: RunSpec, env: Environment, s: RunState, n: nat): (RunState, Next)
    decreases n
  {
    if n == 0 then (s, Continue)
    else
      var (s', next) := Iterated(spec, env, s);
      if next.Halt? then (s', next) else Looped(spec, env, s', n - 1)
  }

  // ---- After the last iteration ----

  /** The closing request: the bare transcript and one prompt. */
  function ClosingRequest(spec: RunSpec, messages: seq<Message>): seq<Message> {
    messages + [Prompt(spec.exhaustedPrompt)]
  }

  /** Its text; empty on failure, on an error, and when tools are called. */
  function ClosingText(spec: RunSpec, env: Environment, n: nat, messages: seq<Message>): string {
    var r := env.respond(n, ClosingRequest(spec, messages));
    if env.terminalFails || r.finish.Error? || r.calls != [] then "" else spec.finalize(r.content)
  }

  function EndText(spec: RunSpec, env: Environment, n: nat, messages: seq<Message>): string {
    var said := if spec.finalizeOnMaxIterations then ClosingText(spec, env, n, messages) else "";
    if Texts.Blank(said) then spec.maxIterationsText else said
  }

  function EndResult(chain: seq<Segment>, text: string, error: Option<string>): RunResult {
    if chain == [] then RunResult(MaxIterations, text, error, None)
    else
      var tail := "\n\n" + Texts.LeftStrip(text);
      RunResult(MaxIterations, Texts.Strip(Texts.RightStrip(Texts.Concat(Parts(chain))) + tail), error, Some(tail))
  }

  function Ended(spec: RunSpec, env: Environment, s: RunState): (RunState, RunResult) {
    var drained := TriedDrain(spec, env, s, None, false).0;
    var text := EndText(spec, env, drained.providerCalls, drained.messages);
    var calls := if spec.finalizeOnMaxIterations then 1 else 0;
    (drained.(messages := AppendFinal(drained.messages, text), providerCalls := drained.providerCalls + calls),
     EndResult(drained.chain, text, drained.error))
  }

  /** The whole run. It reports what was set last, whatever branch left the loop. */
  function Ran(spec: RunSpec, env: Environment, initial: seq<Message>): (RunState, RunResult) {
    var (s, next) := Looped(spec, env, Start(initial), spec.maxIterations);
    if next.Halt? then (s, RunResult(s.reason, next.content, s.error, None)) else Ended(spec, env, s)
  }

  // ---- Small facts about the steps ----

  lemma ResultsAnswer(spec: RunSpec, calls: seq<Call>, outcomes: seq<ToolOutcome>)
    requires |calls| == |outcomes|
    ensures AnswersInOrder(calls, ResultRows(spec, calls, outcomes))
  {
  }

  lemma TwoServed(a: Message, b: Message)
    requires a.Assistant? && a.calls == [] && b.User?
    ensures Served([a, b])
  {
    ServedSingle(a);
    ServedSingle(b);
    ServedAppend([a], [b]);
    assert [a] + [b] == [a, b];
  }

  lemma OutcomesAppend(env: Environment, n: nat, a: seq<Call>, b: seq<Call>)
    ensures Outcomes(env, n, a + b) == Outcomes(env, n, a) + Outcomes(env, n + |a|, b)
  {
  }

  /** An iteration, by what the response asks for. */
  lemma IteratedIs(spec: RunSpec, env: Environment, s: RunState, r: Response, used: nat)
    requires var shown := Governing.Prepare(spec.governance, s.messages, s.recorded).0;
             (r, used) == Asked(spec, env, s.providerCalls, shown, false)
    ensures var (shown, ids) := Governing.Prepare(spec.governance, s.messages, s.recorded);
            var asked := s.(recorded := ids, providerCalls := s.providerCalls + used);
            var content := spec.extract(r.content);
            Iterated(spec, env, s) ==
            if ExecutesTools(r) then ToolsDone(spec, env, asked, content, r)
            else Replied(spec, env, asked, shown, Reply(r.finish, spec.finalize(content), r.content, r.arrearage))
  {
    hide Governing.Prepare, Asked, ToolsDone, Replied, ExecutesTools;
  }

  lemma LoopedStep(spec: RunSpec, env: Environment, s: RunState, n: nat)
    requires n > 0
    ensures Looped(spec, env, s, n) ==
            var (s', next) := Iterated(spec, env, s);
            if next.Halt? then (s', next) else Looped(spec, env, s', n - 1)
  {
    hide Iterated;
  }

  lemma EndedReason(spec: RunSpec, env: Environment, s: RunState)
    ensures Ended(spec, env, s).1.reason.MaxIterations?
  {
    hide TriedDrain, EndText;
  }

  lemma LoopedNothing(spec: RunSpec, env: Environment, s: RunState)
    ensures Looped(spec, env, s, 0) == (s, Continue)
  {
  }
}
