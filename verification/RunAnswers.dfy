/** Which result stands under which call: every call row that a run appended has the
    results of its own tool runs behind it, in call order, and no tool runs but for a
    call of the transcript. And whose words the other rows have, and what is injected. */
module RunAnswers {
  import opened Seqs
  import opened Transcript
  import opened RuntimeContext
  import opened Injecting
  import opened Growth
  import opened LengthRecovery
  import opened RunSteps
  import opened Requests
  import Governing
  import Texts

  /** Row `k` holds what the tool run `n + k`, made for call `k`, came back with. */
  ghost predicate AnswersWith(spec: RunSpec, env: Environment, n: nat, calls: seq<Call>, rows: seq<Message>) {
    && |rows| == |calls|
    && forall k | 0 <= k < |calls| ::
         var c := calls[k];
         rows[k] == Tool(spec.normalizeResult(c.id, c.name, env.runTool(n + k, c).result), c.id, c.name)
  }

  /** The row holds what the model once said, with all its calls or with those that have
      a name. */
  ghost predicate Said(spec: RunSpec, env: Environment, row: Message)
    requires row.Assistant?
  {
    exists n: nat, sent: seq<Message> :: Says(spec, env.respond(n, sent), row)
  }

  ghost predicate Says(spec: RunSpec, r: Response, row: Message)
    requires row.Assistant?
  {
    && row.content == Text(spec.extract(r.content))
    && (row.calls == r.calls || Sifted(r.calls, Nameless, Same<Call>, row.calls))
  }

  ghost predicate ReplyText(spec: RunSpec, env: Environment, t: string) {
    exists n: nat, sent: seq<Message> :: MakesReply(spec, env.respond(n, sent), t)
  }

  predicate MakesReply(spec: RunSpec, r: Response, t: string) {
    t == spec.finalize(spec.extract(r.content)) || t == spec.finalize(r.content)
  }

  ghost predicate FatalNote(env: Environment, t: string) {
    exists n: nat, c: Call :: IsFatal(env.runTool(n, c), t)
  }

  predicate IsFatal(outcome: ToolOutcome, t: string) {
    outcome.fatal.Some? && t == "Error: " + outcome.fatal.value
  }

  predicate Speaks(m: Message) {
    m.User? || (m.Assistant? && m.calls == [])
  }

  /** A user row, or a reply of the model, the text of a fatal tool error, or one of the
      fixed closing texts. */
  ghost predicate Voiced(spec: RunSpec, env: Environment, m: Message) {
    || m.User?
    || (m.Assistant? && m.calls == [] && m.content.Text?
        && (|| ReplyText(spec, env, m.content.text) || FatalNote(env, m.content.text)
            || m.content.text == spec.placeholderText || m.content.text == spec.maxIterationsText
            || m.content.text == Texts.Wording(Texts.NoAnswer)))
  }

  function CallTotal(ms: seq<Message>): nat {
    if ms == [] then 0 else CallTotal(ms[..|ms| - 1]) + Calls(ms[|ms| - 1])
  }

  function Calls(m: Message): nat {
    if m.Assistant? then |m.calls| else 0
  }

  ghost predicate AnsweredAt(spec: RunSpec, env: Environment, from: nat, ms: seq<Message>, i: nat)
    requires from <= i < |ms| && ms[i].Assistant?
  {
    var end := i + 1 + |ms[i].calls|;
    && end <= |ms| && Said(spec, env, ms[i])
    && AnswersWith(spec, env, CallTotal(ms[from..i]), ms[i].calls, ms[i + 1..end])
  }

  /** Every call row from `from` on is answered, by the tool runs that follow those of
      the call rows before it. */
  ghost predicate CallsAnswered(spec: RunSpec, env: Environment, from: nat, ms: seq<Message>) {
    && from <= |ms|
    && forall i | from <= i < |ms| && ms[i].Assistant? && ms[i].calls != [] :: AnsweredAt(spec, env, from, ms, i)
  }

  /** Every reply row from `from` on says what the model or the run had to say. */
  ghost predicate RepliesVoiced(spec: RunSpec, env: Environment, from: nat, ms: seq<Message>) {
    forall i | from <= i < |ms| && Speaks(ms[i]) :: Voiced(spec, env, ms[i])
  }

  ghost predicate AnswersOk(spec: RunSpec, env: Environment, from: nat, s: RunState) {
    && CallsAnswered(spec, env, from, s.messages) && s.toolRuns == CallTotal(s.messages[from..])
    && RepliesVoiced(spec, env, from, s.messages)
  }

  // ---- Steps without tool work ----

  /** Rows without calls are appended, and such rows may be rewritten. */
  ghost predicate Quiet(spec: RunSpec, env: Environment, before: seq<Message>, after: seq<Message>) {
    && |before| <= |after|
    && (forall i | 0 <= i < |before| ::
          after[i] == before[i] || (Speaks(before[i]) && Speaks(after[i]) && Voiced(spec, env, after[i])))
    && (forall i | |before| <= i < |after| :: Speaks(after[i]) && Voiced(spec, env, after[i]))
  }

  lemma QuietTrans(spec: RunSpec, env: Environment, a: seq<Message>, b: seq<Message>, c: seq<Message>)
    requires Quiet(spec, env, a, b) && Quiet(spec, env, b, c)
    ensures Quiet(spec, env, a, c)
  {
    hide Speaks, Voiced;
  }

  lemma {:induction false} CallTotalSame(a: seq<Message>, b: seq<Message>)
    requires |a| == |b| && forall i | 0 <= i < |a| :: Calls(a[i]) == Calls(b[i])
    ensures CallTotal(a) == CallTotal(b)
  {
    if a != [] { CallTotalSame(a[..|a| - 1], b[..|b| - 1]); }
  }

  lemma {:induction false} CallTotalAppend(a: seq<Message>, b: seq<Message>)
    ensures CallTotal(a + b) == CallTotal(a) + CallTotal(b)
  {
    if b == [] {
      assert a + b == a;
    } else {
      SplitLast(a, b);
      CallTotalAppend(a, b[..|b| - 1]);
    }
  }

  lemma {:induction false} NoCallTotal(ms: seq<Message>)
    requires forall i | 0 <= i < |ms| :: Calls(ms[i]) == 0
    ensures CallTotal(ms) == 0
  {
    if ms != [] { NoCallTotal(ms[..|ms| - 1]); }
  }

  lemma QuietCalls(spec: RunSpec, env: Environment, from: nat, before: seq<Message>, after: seq<Message>, i: nat)
    requires Quiet(spec, env, before, after) && from <= i <= |before|
    ensures CallTotal(after[from..i]) == CallTotal(before[from..i])
  {
    CallTotalSame(after[from..i], before[from..i]);
  }

  lemma QuietKeepsAnswers(spec: RunSpec, env: Environment, from: nat, before: seq<Message>, after: seq<Message>)
    requires CallsAnswered(spec, env, from, before) && Quiet(spec, env, before, after)
    ensures CallsAnswered(spec, env, from, after) && CallTotal(after[from..]) == CallTotal(before[from..])
  {
    hide Said, CallTotal, Voiced;
    forall i | from <= i < |after| && after[i].Assistant? && after[i].calls != []
      ensures AnsweredAt(spec, env, from, after, i)
    {
      assert i < |before| && before[i] == after[i] && AnsweredAt(spec, env, from, before, i);
      var end := i + 1 + |before[i].calls|;
      forall k | i < k < end ensures after[k] == before[k] {
        assert before[i + 1..end][k - i - 1].Tool?;
      }
      assert after[i + 1..end] == before[i + 1..end];
      QuietCalls(spec, env, from, before, after, i);
    }
    var n := |before|;
    QuietCalls(spec, env, from, before, after, n);
    assert after[from..] == after[from..n] + after[n..] && before[from..n] == before[from..];
    CallTotalAppend(after[from..n], after[n..]);
    NoCallTotal(after[n..]);
  }

  lemma QuietAppend(spec: RunSpec, env: Environment, ms: seq<Message>, rows: seq<Message>)
    requires forall m | m in rows :: Speaks(m) && Voiced(spec, env, m)
    ensures Quiet(spec, env, ms, ms + rows)
  {
    hide Speaks, Voiced;
  }

  lemma {:induction false} QuietInject(spec: RunSpec, env: Environment, ms: seq<Message>, rows: seq<Message>)
    requires forall m | m in rows :: m.User?
    ensures Quiet(spec, env, ms, Inject(ms, rows))
  {
    if rows != [] {
      var front, m := rows[..|rows| - 1], rows[|rows| - 1];
      assert m in rows && forall x | x in front :: x in rows;
      QuietInject(spec, env, ms, front);
      var before := Inject(ms, front);
      hide *;
      QuietMerge(spec, env, ms, rows);
      QuietTrans(spec, env, ms, before, Inject(ms, rows));
    }
  }

  lemma QuietMerge(spec: RunSpec, env: Environment, ms: seq<Message>, rows: seq<Message>)
    requires rows != [] && rows[|rows| - 1].User?
    ensures Quiet(spec, env, Inject(ms, rows[..|rows| - 1]), Inject(ms, rows))
  {
    var before, m := Inject(ms, rows[..|rows| - 1]), rows[|rows| - 1];
    UserIsVoiced(spec, env, m);
    hide Quiet, MergeRows, Mergeable, Voiced;
    if before != [] && Mergeable(before[|before| - 1], m) {
      MergedIsUser(before[|before| - 1], m);
      UserIsVoiced(spec, env, MergeRows(before[|before| - 1], m));
      QuietRewrite(spec, env, before, MergeRows(before[|before| - 1], m));
    } else {
      QuietAppend(spec, env, before, [m]);
    }
  }

  lemma QuietRewrite(spec: RunSpec, env: Environment, ms: seq<Message>, m: Message)
    requires ms != [] && Speaks(ms[|ms| - 1]) && Speaks(m) && Voiced(spec, env, m)
    ensures Quiet(spec, env, ms, ms[..|ms| - 1] + [m])
  {
    hide Voiced;
  }

  lemma UserIsVoiced(spec: RunSpec, env: Environment, m: Message)
    requires m.User?
    ensures Voiced(spec, env, m)
  {
  }

  lemma QuietFinal(spec: RunSpec, env: Environment, ms: seq<Message>, text: string)
    requires Voiced(spec, env, Plain(text))
    ensures Quiet(spec, env, ms, AppendFinal(ms, text)) && Quiet(spec, env, ms, AppendPlaceholder(ms, text))
  {
    hide Voiced;
  }

  /** The step only spoke, and ran no tool. */
  ghost predicate OnlySpoke(spec: RunSpec, env: Environment, s: RunState, s': RunState) {
    Quiet(spec, env, s.messages, s'.messages) && s'.toolRuns == s.toolRuns
  }

  lemma OnlySpokeKeeps(spec: RunSpec, env: Environment, from: nat, s: RunState, s': RunState)
    requires AnswersOk(spec, env, from, s) && OnlySpoke(spec, env, s, s')
    ensures AnswersOk(spec, env, from, s')
  {
    hide Quiet, CallsAnswered, CallTotal, RepliesVoiced;
    QuietKeepsAnswers(spec, env, from, s.messages, s'.messages);
    QuietKeepsVoices(spec, env, from, s.messages, s'.messages);
    assert CallsAnswered(spec, env, from, s'.messages);
  }

  lemma QuietKeepsVoices(spec: RunSpec, env: Environment, from: nat, before: seq<Message>, after: seq<Message>)
    requires RepliesVoiced(spec, env, from, before) && Quiet(spec, env, before, after)
    ensures RepliesVoiced(spec, env, from, after)
  {
    hide Voiced;
  }

  lemma DrainSpeaks(spec: RunSpec, env: Environment, s: RunState, reply: Option<Message>, allowGoal: bool)
    requires reply.Some? ==> Speaks(reply.value) && Voiced(spec, env, reply.value)
    ensures OnlySpoke(spec, env, s, TriedDrain(spec, env, s, reply, allowGoal).0)
    ensures OnlySpoke(spec, env, s, FollowedUp(spec, env, s, reply, allowGoal).0)
  {
    var rows := Waiting(spec, env, s, reply, allowGoal);
    var replied := s.messages + ReplyRow(reply);
    QuietAppend(spec, env, s.messages, ReplyRow(reply));
    QuietInject(spec, env, replied, rows);
    hide Waiting, Inject, Quiet, Voiced;
    QuietTrans(spec, env, s.messages, replied, Inject(replied, rows));
    QuietSelf(spec, env, s.messages);
  }

  lemma QuietSelf(spec: RunSpec, env: Environment, ms: seq<Message>)
    ensures Quiet(spec, env, ms, ms)
  {
  }

  lemma ClosedSpeaks(spec: RunSpec, env: Environment, s: RunState, messages: seq<Message>, reason: LoopReason,
                     text: string)
    requires Quiet(spec, env, s.messages, messages)
    ensures OnlySpoke(spec, env, s, Closed(spec, env, s, messages, reason, text).0)
  {
    hide Quiet, FollowedUp, Voiced;
    var failed := s.(messages := messages, reason := reason, error := Some(text));
    DrainSpeaks(spec, env, failed, None, false);
    QuietTrans(spec, env, s.messages, messages, Closed(spec, env, s, messages, reason, text).0.messages);
  }

  lemma FixedTextsAreVoiced(spec: RunSpec, env: Environment)
    ensures Voiced(spec, env, Plain(spec.placeholderText)) && Voiced(spec, env, Plain(spec.maxIterationsText))
    ensures Voiced(spec, env, Plain(Texts.Wording(Texts.NoAnswer)))
  {
    hide Texts.Wording;
  }

  lemma ReplyIsVoiced(spec: RunSpec, env: Environment, t: string)
    requires ReplyText(spec, env, t)
    ensures Voiced(spec, env, Plain(t))
  {
  }

  lemma ConcludedSpeaks(spec: RunSpec, env: Environment, s: RunState, reply: Reply)
    requires ReplyText(spec, env, reply.clean)
    ensures OnlySpoke(spec, env, s, Concluded(spec, env, s, reply).0)
  {
    var text := Texts.Wording(Texts.NoAnswer);
    FixedTextsAreVoiced(spec, env);
    ReplyIsVoiced(spec, env, reply.clean);
    hide Voiced, ReplyText;
    QuietFinal(spec, env, s.messages, text);
    QuietFinal(spec, env, s.messages, spec.placeholderText);
    QuietAppend(spec, env, s.messages, [Plain(reply.clean)]);
    hide Quiet, Closed, AppendFinal, AppendPlaceholder, Texts.Blank, Texts.Wording, FinalText, ErrorReply;
    var held := AppendPlaceholder(s.messages, spec.placeholderText);
    ClosedSpeaks(spec, env, s, held, ModelError, ErrorReply(spec, reply));
    ClosedSpeaks(spec, env, s, AppendFinal(s.messages, text), EmptyFinal, text);
  }

  lemma SettledSpeaks(spec: RunSpec, env: Environment, s: RunState, reply: Reply)
    requires ReplyText(spec, env, reply.clean)
    ensures OnlySpoke(spec, env, s, Settled(spec, env, s, reply).0)
  {
    ReplyIsVoiced(spec, env, reply.clean);
    UserIsVoiced(spec, env, Prompt(spec.lengthNote(reply.clean)));
    hide Voiced, ReplyText;
    QuietAppend(spec, env, s.messages, [Plain(reply.clean), Prompt(spec.lengthNote(reply.clean))]);
    assert SaidRow(reply).Some? ==> SaidRow(reply).value == Plain(reply.clean);
    var allowGoal := !reply.finish.Refusal? && !reply.finish.ContentFilter?;
    hide Quiet, FollowedUp, Concluded, SaidRow;
    DrainSpeaks(spec, env, s, SaidRow(reply), allowGoal);
    var s' := FollowedUp(spec, env, s, SaidRow(reply), allowGoal).0;
    ConcludedSpeaks(spec, env, s', reply);
    QuietTrans(spec, env, s.messages, s'.messages, Concluded(spec, env, s', reply).0.messages);
  }

  lemma RepliedSpeaks(spec: RunSpec, env: Environment, s: RunState, shown: seq<Message>, reply: Reply)
    requires ReplyText(spec, env, reply.clean)
    ensures OnlySpoke(spec, env, s, Replied(spec, env, s, shown, reply).0)
  {
    QuietSelf(spec, env, s.messages);
    RetriedSays(spec, env, s.providerCalls, shown);
    hide Quiet, Settled, Retried, Texts.Blank, ReplyText;
    SettledSpeaks(spec, env, s, reply);
    var asked := s.(emptyRetries := s.emptyRetries + 1, providerCalls := s.providerCalls + 1);
    SettledSpeaks(spec, env, asked, Retried(spec, env, s.providerCalls, shown));
  }

  lemma RetriedSays(spec: RunSpec, env: Environment, n: nat, shown: seq<Message>)
    ensures ReplyText(spec, env, Retried(spec, env, n, shown).clean)
  {
    var sent := shown + [Prompt(spec.retryPrompt)];
    assert MakesReply(spec, env.respond(n, sent), Retried(spec, env, n, shown).clean);
  }

  // ---- Tool work ----

  /** The rows of a group, by the tool runs they come from. */
  lemma GroupAnswersWith(spec: RunSpec, env: Environment, s: RunState, row: Message)
    requires row.Assistant?
    ensures AnswersWith(spec, env, s.toolRuns, row.calls, GroupRows(spec, env, s, row))
  {
  }

  /** Rows behind leave the earlier groups alone. */
  lemma AnsweredStays(spec: RunSpec, env: Environment, from: nat, ms: seq<Message>, more: seq<Message>, i: nat)
    requires from <= i < |ms| && ms[i].Assistant? && AnsweredAt(spec, env, from, ms, i)
    ensures AnsweredAt(spec, env, from, ms + more, i)
  {
    hide Said, AnswersWith, CallTotal;
    var end := i + 1 + |ms[i].calls|;
    assert (ms + more)[i + 1..end] == ms[i + 1..end] && (ms + more)[from..i] == ms[from..i];
  }

  lemma GroupIsAnswered(spec: RunSpec, env: Environment, from: nat, ms: seq<Message>, row: Message,
                        results: seq<Message>)
    requires from <= |ms| && row.Assistant? && Said(spec, env, row) && |results| == |row.calls|
    requires AnswersWith(spec, env, CallTotal(ms[from..]), row.calls, results)
    ensures AnsweredAt(spec, env, from, ms + ([row] + results), |ms|)
  {
    hide Said, AnswersWith, CallTotal;
    var after, n := ms + ([row] + results), |ms|;
    assert after[from..n] == ms[from..] && after[n + 1..n + 1 + |results|] == results;
  }

  lemma GroupTotal(row: Message, results: seq<Message>)
    requires row.Assistant? && forall m | m in results :: m.Tool?
    ensures CallTotal([row] + results) == |row.calls|
  {
    CallTotalAppend([row], results);
    assert forall i | 0 <= i < |results| :: results[i] in results;
    NoCallTotal(results);
    assert [row][..0] == [];
  }

  lemma GroupKeepsAnswers(spec: RunSpec, env: Environment, from: nat, ms: seq<Message>, row: Message,
                          results: seq<Message>)
    requires CallsAnswered(spec, env, from, ms) && row.Assistant? && Said(spec, env, row)
    requires AnswersWith(spec, env, CallTotal(ms[from..]), row.calls, results)
    ensures var after := ms + [row] + results;
            CallsAnswered(spec, env, from, after) && CallTotal(after[from..]) == CallTotal(ms[from..]) + |row.calls|
  {
    hide AnsweredAt, AnswersWith, CallTotal, Said;
    var after, n := ms + ([row] + results), |ms|;
    Regroup(ms, [row], results);
    AnswersAreResults(spec, env, CallTotal(ms[from..]), row.calls, results);
    GroupIsAnswered(spec, env, from, ms, row, results);
    GroupTotal(row, results);
    CallTotalAppend(ms[from..], [row] + results);
    AppendBehind(ms, [row] + results, from);
    forall i | from <= i < |after| && after[i].Assistant? && after[i].calls != []
      ensures AnsweredAt(spec, env, from, after, i)
    {
      ResultsBehind(ms, row, results, i);
      if i < n { AnsweredStays(spec, env, from, ms, [row] + results, i); }
    }
  }

  lemma AnswersAreResults(spec: RunSpec, env: Environment, n: nat, calls: seq<Call>, rows: seq<Message>)
    requires AnswersWith(spec, env, n, calls, rows)
    ensures |rows| == |calls| && forall m | m in rows :: m.Tool?
  {
  }

  lemma ResultsBehind(ms: seq<Message>, row: Message, results: seq<Message>, i: nat)
    requires i < |ms + ([row] + results)| && forall m | m in results :: m.Tool?
    ensures i < |ms| ==> (ms + ([row] + results))[i] == ms[i]
    ensures i > |ms| ==> (ms + ([row] + results))[i].Tool?
  {
    if i > |ms| { assert (ms + ([row] + results))[i] == results[i - |ms| - 1]; }
  }

  lemma AskedSays(spec: RunSpec, env: Environment, n: nat, sent: seq<Message>, malformedRetry: bool, row: Message)
    requires var r := Asked(spec, env, n, sent, malformedRetry).0;
             row == Assistant(Text(spec.extract(r.content)), r.calls)
    ensures Said(spec, env, row)
    ensures ReplyText(spec, env, spec.finalize(row.content.text))
    decreases !malformedRetry
  {
    var response := env.respond(n, sent);
    NamedCallsSift(response.calls);
    hide Sifted, Governing.NamedCalls;
    var (kept, allDropped) := DropMalformed(response);
    if !(allDropped && CallsTools(response.finish)) {
      assert Says(spec, env.respond(n, sent), row);
      assert MakesReply(spec, env.respond(n, sent), spec.finalize(row.content.text));
    } else {
      var noted := sent + [Prompt(spec.malformedNote(response.content))];
      if malformedRetry {
        assert Says(spec, env.respond(n + 1, noted), row);
        assert MakesReply(spec, env.respond(n + 1, noted), spec.finalize(row.content.text));
      } else {
        AskedSays(spec, env, n + 1, noted, true, row);
      }
    }
  }

  /** Malformed answers are asked for again twice. Only the answer to the last of these
      requests, which offers no tools, is taken as it is; no other has a nameless call. */
  lemma {:induction false} OnlyThirdIsTakenRaw(spec: RunSpec, env: Environment, n: nat, sent: seq<Message>, again: bool)
    ensures var (r, used) := Asked(spec, env, n, sent, again);
            used < (if again then 2 else 3) ==> forall c | c in r.calls :: c.name != ""
    decreases !again
  {
    var response := env.respond(n, sent);
    KeptCallsAreNamed(response);
    hide DropMalformed;
    if !again { OnlyThirdIsTakenRaw(spec, env, n + 1, sent + [Prompt(spec.malformedNote(response.content))], true); }
  }

  lemma KeptCallsAreNamed(r: Response)
    ensures forall c | c in DropMalformed(r).0.calls :: c.name != ""
  {
    NamedCallsSift(r.calls);
    NamedCallsSize(r.calls);
    SiftedNames(r.calls, Governing.NamedCalls(r.calls));
    hide Sifted, Governing.NamedCalls;
  }

  /** The fatal error that is reported is that of the first tool that had one. */
  lemma {:induction false} FatalIsFirst(outcomes: seq<ToolOutcome>)
    ensures FirstFatal(outcomes).None? <==> forall o | o in outcomes :: o.fatal.None?
    ensures FirstFatal(outcomes).Some? ==>
              exists k :: 0 <= k < |outcomes| && outcomes[k].fatal == FirstFatal(outcomes)
                          && forall j | 0 <= j < k :: outcomes[j].fatal.None?
  {
    if outcomes != [] && outcomes[0].fatal.None? {
      var rest := outcomes[1..];
      FatalIsFirst(rest);
      assert outcomes == [outcomes[0]] + rest;
      if FirstFatal(rest).Some? {
        var k :| 0 <= k < |rest| && rest[k].fatal == FirstFatal(rest) && forall j | 0 <= j < k :: rest[j].fatal.None?;
        assert outcomes[k + 1] == rest[k];
        assert forall j | 0 <= j < k + 1 :: outcomes[j].fatal.None?;
      }
    }
  }

  lemma FatalIsVoiced(spec: RunSpec, env: Environment, n: nat, calls: seq<Call>)
    ensures var fatal := FirstFatal(Outcomes(env, n, calls));
            fatal.Some? ==> Voiced(spec, env, Plain(FatalText(fatal.value)))
  {
    var outcomes := Outcomes(env, n, calls);
    FatalIsFirst(outcomes);
    if FirstFatal(outcomes).Some? {
      var k :| 0 <= k < |outcomes| && outcomes[k].fatal == FirstFatal(outcomes);
      assert IsFatal(env.runTool(n + k, calls[k]), FatalText(FirstFatal(outcomes).value));
    }
  }

  lemma GroupKeepsVoices(spec: RunSpec, env: Environment, from: nat, ms: seq<Message>, row: Message,
                         results: seq<Message>)
    requires RepliesVoiced(spec, env, from, ms) && row.Assistant? && row.calls != []
    requires forall m | m in results :: m.Tool?
    ensures RepliesVoiced(spec, env, from, ms + [row] + results)
  {
    hide Voiced;
    var after, n := ms + [row] + results, |ms|;
    assert forall i | n < i < |after| :: after[i] in results;
  }

  lemma ToolsAnswer(spec: RunSpec, env: Environment, from: nat, s: RunState, content: string, r: Response)
    requires AnswersOk(spec, env, from, s) && Said(spec, env, Assistant(Text(content), r.calls)) && r.calls != []
    ensures AnswersOk(spec, env, from, ToolsDone(spec, env, s, content, r).0)
  {
    var row := Assistant(Text(content), r.calls);
    var grouped, rows := Grouped(spec, env, s, row), GroupRows(spec, env, s, row);
    GroupAnswersWith(spec, env, s, row);
    GroupKeepsAnswers(spec, env, from, s.messages, row, rows);
    GroupKeepsVoices(spec, env, from, s.messages, row, rows);
    FatalIsVoiced(spec, env, s.toolRuns, r.calls);
    hide CallsAnswered, GroupRows, Outcomes, FirstFatal, FollowedUp, Closed, FatalText, Governing.Prepare, AppendFinal,
      CallTotal, Quiet, Said, Voiced, RepliesVoiced;
    var fatal := FirstFatal(Outcomes(env, s.toolRuns, r.calls));
    if fatal.Some? {
      var text := FatalText(fatal.value);
      QuietFinal(spec, env, grouped.messages, text);
      ClosedSpeaks(spec, env, grouped, AppendFinal(grouped.messages, text), ToolError, text);
    } else {
      DrainSpeaks(spec, env, Refreshed(spec, grouped, row, rows, r.stateful), None, false);
    }
    OnlySpokeKeeps(spec, env, from, grouped, ToolsDone(spec, env, s, content, r).0);
  }

  // ---- Runs ----

  lemma IteratedAnswers(spec: RunSpec, env: Environment, from: nat, s: RunState)
    requires AnswersOk(spec, env, from, s)
    ensures AnswersOk(spec, env, from, Iterated(spec, env, s).0)
  {
    hide Governing.Prepare, Asked, ToolsDone, Replied, Quiet, CallsAnswered, CallTotal, Said, ReplyText, RepliesVoiced;
    var (shown, ids) := Governing.Prepare(spec.governance, s.messages, s.recorded);
    var (r, used) := Asked(spec, env, s.providerCalls, shown, false);
    var asked := s.(recorded := ids, providerCalls := s.providerCalls + used);
    var content := spec.extract(r.content);
    AskedSays(spec, env, s.providerCalls, shown, false, Assistant(Text(content), r.calls));
    if ExecutesTools(r) {
      ToolsAnswer(spec, env, from, asked, content, r);
    } else {
      var reply := Reply(r.finish, spec.finalize(content), r.content, r.arrearage);
      RepliedSpeaks(spec, env, asked, shown, reply);
      OnlySpokeKeeps(spec, env, from, asked, Replied(spec, env, asked, shown, reply).0);
    }
  }

  lemma {:induction false} LoopedAnswers(spec: RunSpec, env: Environment, from: nat, s: RunState, n: nat)
    requires AnswersOk(spec, env, from, s)
    ensures AnswersOk(spec, env, from, Looped(spec, env, s, n).0)
    decreases n
  {
    hide Iterated, AnswersOk;
    if n > 0 {
      IteratedAnswers(spec, env, from, s);
      var (s', next) := Iterated(spec, env, s);
      if next.Continue? { LoopedAnswers(spec, env, from, s', n - 1); }
    }
  }

  /** The text behind the last iteration is what the model said to the closing request:
      when that was made, did not fail, brought no error and no calls, and says anything. */
  lemma ClosingWordsAre(spec: RunSpec, env: Environment, n: nat, messages: seq<Message>)
    ensures var r := env.respond(n, messages + [Prompt(spec.exhaustedPrompt)]);
            EndText(spec, env, n, messages) ==
            if spec.finalizeOnMaxIterations && !env.terminalFails && !r.finish.Error? && r.calls == []
               && Texts.Strip(spec.finalize(r.content)) != ""
            then spec.finalize(r.content) else spec.maxIterationsText
  {
    hide Texts.Blank, Texts.Strip, Texts.LeftStrip, Texts.RightStrip;
    BlankIs(spec.finalize(env.respond(n, ClosingRequest(spec, messages)).content));
    BlankIs("");
    StripNothing();
  }

  lemma BlankIs(s: string)
    ensures Texts.Blank(s) <==> Texts.Strip(s) == ""
  {
    hide Texts.Strip;
  }

  lemma StripNothing()
    ensures Texts.Strip("") == ""
  {
  }

  lemma EndTextIsVoiced(spec: RunSpec, env: Environment, n: nat, messages: seq<Message>)
    ensures var text := EndText(spec, env, n, messages); Voiced(spec, env, Plain(text))
  {
    var sent := ClosingRequest(spec, messages);
    FixedTextsAreVoiced(spec, env);
    var said := spec.finalize(env.respond(n, sent).content);
    assert MakesReply(spec, env.respond(n, sent), said);
    ReplyIsVoiced(spec, env, said);
    hide Voiced, ReplyText;
    assert Texts.Blank("");
  }

  /** In the transcript of a run every call row that it appended holds what the model
      said, and result `k` behind it is what its own call `k` came back with; the tool
      runs are counted through the call rows, one for each call. Every other row that it
      appended is a user row, a reply of the model or one of the closing texts. */
  lemma RunAnswersItsCalls(spec: RunSpec, env: Environment, initial: seq<Message>)
    ensures var s := Ran(spec, env, initial).0;
            && CallsAnswered(spec, env, |initial|, s.messages)
            && s.toolRuns == CallTotal(s.messages[|initial|..]) && RepliesVoiced(spec, env, |initial|, s.messages)
  {
    var from := |initial|;
    LoopedAnswers(spec, env, from, Start(initial), spec.maxIterations);
    hide Looped, CallsAnswered, Quiet, TriedDrain, EndText, CallTotal, AppendFinal, RepliesVoiced, Voiced;
    var (s, next) := Looped(spec, env, Start(initial), spec.maxIterations);
    if next.Continue? {
      var drained := TriedDrain(spec, env, s, None, false).0;
      var text := EndText(spec, env, drained.providerCalls, drained.messages);
      DrainSpeaks(spec, env, s, None, false);
      EndTextIsVoiced(spec, env, drained.providerCalls, drained.messages);
      QuietFinal(spec, env, drained.messages, text);
      QuietTrans(spec, env, s.messages, drained.messages, AppendFinal(drained.messages, text));
      OnlySpokeKeeps(spec, env, from, s, Ended(spec, env, s).0);
    }
  }

  // ---- Follow-ups ----

  predicate Wordless(content: Content) {
    match content
    case Absent => true
    case Text(t) => Texts.Strip(t) == ""
    case Blocks(blocks) => blocks == []
  }

  /** Nothing, a row of another role, or nothing said. */
  predicate PassedOver(item: Item) {
    match item
    case NoItem => true
    case DictItem(row) => !row.User? || Wordless(row.content)
    case ObjectItem(content) => Wordless(content)
  }

  /** A row is injected as it is, and any other object as a user row of its content. */
  predicate InjectedAs(item: Item, m: Message) {
    match item
    case NoItem => false
    case DictItem(row) => m == row
    case ObjectItem(content) => m == User(content, None, false, true)
  }

  /** The first three of what the callback returned, but for what is passed over. */
  ghost predicate TakesFirst(items: seq<Item>, rows: seq<Message>) {
    exists all :: Sifted(items, PassedOver, InjectedAs, all) && rows == if |all| > 3 then all[..3] else all
  }

  lemma {:induction false} InjectableSifts(items: seq<Item>)
    ensures Sifted(items, PassedOver, InjectedAs, Injectable(items))
  {
    hide Sifted;
    if items == [] {
      SiftedNone(PassedOver, InjectedAs);
    } else {
      var front, item := items[..|items| - 1], items[|items| - 1];
      InjectableSifts(front);
      var m := match item
        case NoItem => Prompt("")
        case DictItem(row) => row
        case ObjectItem(content) => User(content, None, false, true);
      SiftedSnoc(front, PassedOver, InjectedAs, Injectable(front), item, m);
      assert front + [item] == items;
    }
  }

  lemma TakenAreFirst(items: seq<Item>)
    ensures TakesFirst(items, Capped(Injectable(items)))
  {
    InjectableSifts(items);
  }

  /** What is injected next: the first three that are waiting, while there are injection
      cycles left; and with none of these, but only behind a reply that allows it, the
      prompt to go on with an active goal. */
  lemma WaitingAre(spec: RunSpec, env: Environment, s: RunState, reply: Option<Message>, allowGoal: bool)
    ensures var rows, taken := Waiting(spec, env, s, reply, allowGoal), Capped(Injectable(env.pending(s.drains)));
            && TakesFirst(env.pending(s.drains), taken)
            && if s.cycles < 5 && taken != [] then rows == taken
               else if allowGoal && reply.Some? && env.goalActive(s.goalChecks)
               then rows == [User(Text(spec.goalPrompt), None, false, true)] else rows == []
  {
    TakenAreFirst(env.pending(s.drains));
    hide Capped, Injectable, TakesFirst;
  }
}
