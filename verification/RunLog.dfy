/** What a run logs about itself, and what the logs guarantee: every request, every
    loop head, every injection and every checkpoint. */
module RunLog {
  import opened Transcript
  import opened Pairing
  import opened Serving
  import opened RuntimeContext
  import opened Injecting
  import opened Growth
  import opened Seqs
  import Governing
  import SessionLog

  /** One governed request: the transcript and recorded ids it was made from, the
      rows shown to the model, and the recorded ids afterwards. */
  datatype Request = Request(from: seq<Message>, before: set<string>, shown: seq<Message>, recorded: set<string>)

  /** One provider call for a governed request. */
  datatype Exchange = Exchange(request: nat, sent: seq<Message>)

  /** The provider call after the last iteration, made from the bare transcript. */
  datatype Terminal = Terminal(from: seq<Message>, sent: seq<Message>)

  datatype Injection = Injection(before: seq<Message>, rows: seq<Message>)

  /** A point at which a run can be cancelled: while the model is asked or tools run. It has
      the transcript and the checkpoint that was stored last. */
  datatype Cut = Cut(ms: seq<Message>, checkpoint: Option<SessionLog.Checkpoint>)

  datatype Log = Log(
    heads: seq<seq<Message>>,
    requests: seq<Request>,
    exchanges: seq<Exchange>,
    injections: seq<Injection>,
    checkpoints: seq<SessionLog.Checkpoint>,
    cuts: seq<Cut>)

  ghost predicate HeadsOk(initial: seq<Message>, heads: seq<seq<Message>>, ms: seq<Message>) {
    forall h | h in heads :: Grown(initial, h) && Extends(h, ms)
  }

  ghost predicate RequestOk(cfg: Governing.Config, r: Request) {
    Governing.Prepare(cfg, r.from, r.before) == (r.shown, r.recorded) && "" !in r.before
  }

  ghost predicate RequestsOk(cfg: Governing.Config, requests: seq<Request>, ms: seq<Message>, recorded: set<string>) {
    && "" !in recorded
    && (forall r | r in requests :: RequestOk(cfg, r) && Extends(r.from, ms) && r.recorded <= recorded)
    && forall j, k | 0 <= j < k < |requests| :: requests[j].recorded <= requests[k].before
  }

  /** `sent` is `shown` with user prompts behind it. */
  ghost predicate AskedOn(shown: seq<Message>, sent: seq<Message>) {
    && shown <= sent
    && forall i | |shown| <= i < |sent| :: sent[i].User?
  }

  ghost predicate ExchangesOk(requests: seq<Request>, exchanges: seq<Exchange>) {
    forall e | e in exchanges :: e.request < |requests| && AskedOn(requests[e.request].shown, e.sent)
  }

  /** The checkpointed rows stand in the transcript. */
  ghost predicate GroupAt(ms: seq<Message>, cp: SessionLog.Checkpoint, at: nat)
    requires cp.assistant.Some?
  {
    var end := at + 1 + |cp.completed|;
    end <= |ms| && ms[at] == cp.assistant.value && ms[at + 1..end] == cp.completed
  }

  /** A checkpoint has the runner's shape; behind the first `n` rows something was appended,
      and, when it has calls, its rows stand there. */
  ghost predicate Placed(n: nat, ms: seq<Message>, cp: SessionLog.Checkpoint) {
    && SessionLog.RunnerShaped(cp) && n < |ms|
    && (cp.assistant.value.calls != [] ==> exists at: nat :: n <= at && GroupAt(ms, cp, at))
  }

  ghost predicate CheckpointsOk(n: nat, checkpoints: seq<SessionLog.Checkpoint>, ms: seq<Message>) {
    forall cp | cp in checkpoints :: Placed(n, ms, cp)
  }

  ghost predicate CutOk(n: nat, cut: Cut) {
    n <= |cut.ms| && (cut.checkpoint.Some? ==> Placed(n, cut.ms, cut.checkpoint.value))
  }

  ghost predicate CutsOk(n: nat, cuts: seq<Cut>) {
    forall cut | cut in cuts :: CutOk(n, cut)
  }

  /** Each checkpoint replaces the one before. */
  function Latest(checkpoints: seq<SessionLog.Checkpoint>): Option<SessionLog.Checkpoint> {
    if checkpoints == [] then None else Some(checkpoints[|checkpoints| - 1])
  }

  /** The transcript still has the large result of every recorded id. */
  ghost predicate RecordedOk(cfg: Governing.Config, ms: seq<Message>, recorded: set<string>) {
    Governing.LeavesShortTexts(cfg) ==> forall id | id in recorded :: Governing.KeepsLongRow(cfg, ms, id)
  }

  ghost predicate InjectionOk(n: nat, j: Injection) {
    n <= |j.before| && forall m | m in j.rows :: m.User? && (HasContent(m.content) || n < |j.before|)
  }

  ghost predicate AllLand(n: nat, injections: seq<Injection>) {
    forall j | j in injections :: Lands(n, j.before, j.rows)
  }

  /** The rows a run was started with are untouched exactly when no injection was
      folded into them; a fold made the last of them heavier. */
  ghost predicate InjectionsOk(initial: seq<Message>, injections: seq<Injection>, ms: seq<Message>) {
    && |initial| <= |ms|
    && (forall j | j in injections :: InjectionOk(|initial|, j))
    && (EndsInUser(initial) ==>
          var n := |initial|;
          && ms[n - 1].User?
          && if AllLand(n, injections) then ms[..n] == initial
             else Heavier(initial[n - 1].content, ms[n - 1].content))
  }

  ghost predicate LogOk(cfg: Governing.Config, initial: seq<Message>, log: Log, ms: seq<Message>, recorded: set<string>)
  {
    && Grown(initial, ms)
    && HeadsOk(initial, log.heads, ms)
    && RequestsOk(cfg, log.requests, ms, recorded)
    && ExchangesOk(log.requests, log.exchanges)
    && InjectionsOk(initial, log.injections, ms)
    && CheckpointsOk(|initial|, log.checkpoints, ms) && CutsOk(|initial|, log.cuts)
    && RecordedOk(cfg, ms, recorded)
  }

  function NoLog(): Log {
    Log([], [], [], [], [], [])
  }

  // ---- The log through a run ----

  lemma LogStarts(cfg: Governing.Config, initial: seq<Message>)
    ensures LogOk(cfg, initial, NoLog(), initial, {})
  {
    GrownStart(initial);
  }

  lemma HeadsExtend(initial: seq<Message>, heads: seq<seq<Message>>, ms: seq<Message>, after: seq<Message>)
    requires HeadsOk(initial, heads, ms) && Extends(ms, after)
    ensures HeadsOk(initial, heads, after)
  {
    forall h | h in heads ensures Extends(h, after) { ExtendsTrans(h, ms, after); }
  }

  lemma RequestsExtend(cfg: Governing.Config, requests: seq<Request>, ms: seq<Message>, after: seq<Message>,
                       recorded: set<string>)
    requires RequestsOk(cfg, requests, ms, recorded) && Extends(ms, after)
    ensures RequestsOk(cfg, requests, after, recorded)
  {
    hide RequestOk;
    forall r | r in requests ensures Extends(r.from, after) { ExtendsTrans(r.from, ms, after); }
  }

  /** Result rows are never rewritten. */
  lemma RecordedExtend(cfg: Governing.Config, ms: seq<Message>, after: seq<Message>, recorded: set<string>)
    requires RecordedOk(cfg, ms, recorded) && Extends(ms, after)
    ensures RecordedOk(cfg, after, recorded)
  {
    hide Governing.LeavesShortTexts;
    if Governing.LeavesShortTexts(cfg) {
      forall id | id in recorded ensures Governing.KeepsLongRow(cfg, after, id) {
        assert Governing.KeepsLongRow(cfg, ms, id);
        var m :| m in ms && m.Tool? && m.callId == id && m != Governing.Compacted(cfg, m);
        ToolRowStays(ms, after, m);
      }
    }
  }

  lemma ToolRowStays(ms: seq<Message>, after: seq<Message>, m: Message)
    requires Extends(ms, after) && m in ms && m.Tool?
    ensures m in after
  {
    var i :| 0 <= i < |ms| && ms[i] == m;
    assert after[i] == m;
  }

  lemma InjectionsStay(initial: seq<Message>, injections: seq<Injection>, ms: seq<Message>, after: seq<Message>)
    requires InjectionsOk(initial, injections, ms) && |initial| <= |after|
    requires EndsInUser(initial) ==> KeepsStart(initial, ms, after)
    ensures InjectionsOk(initial, injections, after)
  {
    if EndsInUser(initial) {
      var n := |initial|;
      assert after[..n][n - 1] == ms[..n][n - 1];
    }
  }

  lemma LogGrows(cfg: Governing.Config, initial: seq<Message>, log: Log, ms: seq<Message>, recorded: set<string>,
                 after: seq<Message>)
    requires LogOk(cfg, initial, log, ms, recorded) && Grown(initial, after) && Extends(ms, after)
    requires EndsInUser(initial) ==> KeepsStart(initial, ms, after)
    ensures LogOk(cfg, initial, log, after, recorded)
  {
    GrownIsLonger(initial, after);
    hide Grown, HeadsOk, RequestsOk, ExchangesOk, InjectionsOk, CheckpointsOk, RecordedOk, Extends, CutsOk;
    HeadsExtend(initial, log.heads, ms, after);
    RequestsExtend(cfg, log.requests, ms, after, recorded);
    RecordedExtend(cfg, ms, after, recorded);
    InjectionsStay(initial, log.injections, ms, after);
    CheckpointsStay(|initial|, log.checkpoints, ms, after);
  }

  lemma CheckpointsStay(n: nat, checkpoints: seq<SessionLog.Checkpoint>, ms: seq<Message>, after: seq<Message>)
    requires CheckpointsOk(n, checkpoints, ms) && Extends(ms, after)
    ensures CheckpointsOk(n, checkpoints, after)
  {
    hide Placed, Extends;
    forall cp | cp in checkpoints ensures Placed(n, after, cp) { PlacedStays(n, ms, after, cp); }
  }

  /** Rows with calls and results are never rewritten. */
  lemma PlacedStays(n: nat, ms: seq<Message>, after: seq<Message>, cp: SessionLog.Checkpoint)
    requires Placed(n, ms, cp) && Extends(ms, after)
    ensures Placed(n, after, cp)
  {
    if cp.assistant.value.calls != [] {
      var at: nat :| n <= at && GroupAt(ms, cp, at);
      var end := at + 1 + |cp.completed|;
      forall i | at < i < end ensures after[i] == ms[i] {
        assert ms[at + 1..end][i - at - 1] == ms[i];
        assert ms[i].Tool?;
      }
      assert after[at] == ms[at];
      assert after[at + 1..end] == cp.completed;
      assert GroupAt(after, cp, at);
    }
  }

  lemma LogMeans(cfg: Governing.Config, initial: seq<Message>, log: Log, ms: seq<Message>, recorded: set<string>)
    requires LogOk(cfg, initial, log, ms, recorded)
    ensures Grown(initial, ms) && HeadsOk(initial, log.heads, ms) && RecordedOk(cfg, ms, recorded)
  {
  }

  lemma AllLandSnoc(n: nat, injections: seq<Injection>, j: Injection)
    ensures AllLand(n, injections + [j]) <==> AllLand(n, injections) && Lands(n, j.before, j.rows)
  {
    hide Lands;
    assert forall x | x in injections :: x in injections + [j];
    assert j in injections + [j];
  }

  /** A fold can be told from no fold ever after. */
  lemma InjectionsSnoc(initial: seq<Message>, injections: seq<Injection>, ms: seq<Message>, rows: seq<Message>)
    requires InjectionsOk(initial, injections, ms) && InjectionOk(|initial|, Injection(ms, rows))
    requires |ms| <= |Inject(ms, rows)|
    ensures InjectionsOk(initial, injections + [Injection(ms, rows)], Inject(ms, rows))
  {
    var n, j, after := |initial|, Injection(ms, rows), Inject(ms, rows);
    InjectionEffect(n, ms, rows);
    hide Inject, AllLand, InjectionOk, Lands, Heavier;
    AllLandSnoc(n, injections, j);
    if EndsInUser(initial) {
      StartAfter(initial, ms, after, AllLand(n, injections), Lands(n, ms, rows));
    }
  }

  /** An injection leaves the first rows alone, or makes the last of them heavier. */
  lemma InjectionEffect(n: nat, ms: seq<Message>, rows: seq<Message>)
    requires InjectionOk(n, Injection(ms, rows)) && |ms| <= |Inject(ms, rows)|
    ensures var after := Inject(ms, rows);
            if Lands(n, ms, rows) then after[..n] == ms[..n]
            else 0 < n && after[n - 1].User? && Heavier(ms[n - 1].content, after[n - 1].content)
  {
    if n < |ms| {
      LandsBehind(n, ms, rows);
      hide Inject, HasContent;
    } else {
      LandsIff(n, ms, rows);
      hide Inject, HasContent, Heavier, Mergeable;
    }
  }

  /** The start of the transcript after one more injection. */
  lemma StartAfter(initial: seq<Message>, ms: seq<Message>, after: seq<Message>, landed: bool, lands: bool)
    requires EndsInUser(initial) && |initial| <= |ms| && |initial| <= |after| && ms[|initial| - 1].User?
    requires if landed then ms[..|initial|] == initial
             else Heavier(initial[|initial| - 1].content, ms[|initial| - 1].content)
    requires if lands then after[..|initial|] == ms[..|initial|]
             else after[|initial| - 1].User? && Heavier(ms[|initial| - 1].content, after[|initial| - 1].content)
    ensures after[|initial| - 1].User?
    ensures if landed && lands then after[..|initial|] == initial
            else Heavier(initial[|initial| - 1].content, after[|initial| - 1].content)
  {
    var n := |initial|;
    if lands { assert after[..n][n - 1] == ms[..n][n - 1]; }
    if landed { assert ms[..n][n - 1] == initial[n - 1]; }
  }

  lemma LandsBehind(n: nat, ms: seq<Message>, rows: seq<Message>)
    requires n < |ms|
    ensures Lands(n, ms, rows)
  {
    assert ms == ms[..n] + ms[n..];
    InjectGrows(ms, rows);
    InjectBehind(ms[..n], ms[n..], rows);
  }

  lemma LogInjects(cfg: Governing.Config, initial: seq<Message>, log: Log, ms: seq<Message>, recorded: set<string>,
                   rows: seq<Message>)
    requires LogOk(cfg, initial, log, ms, recorded) && InjectionOk(|initial|, Injection(ms, rows))
    ensures LogOk(cfg, initial, log.(injections := log.injections + [Injection(ms, rows)]), Inject(ms, rows), recorded)
    ensures Extends(ms, Inject(ms, rows))
  {
    GrowInject(initial, ms, rows);
    InjectGrows(ms, rows);
    hide Grown, HeadsOk, RequestsOk, ExchangesOk, InjectionsOk, CheckpointsOk, RecordedOk, Extends, Inject, InjectionOk,
      CutsOk;
    CheckpointsStay(|initial|, log.checkpoints, ms, Inject(ms, rows));
    HeadsExtend(initial, log.heads, ms, Inject(ms, rows));
    RequestsExtend(cfg, log.requests, ms, Inject(ms, rows), recorded);
    RecordedExtend(cfg, ms, Inject(ms, rows), recorded);
    InjectionsSnoc(initial, log.injections, ms, rows);
  }

  lemma LogHead(cfg: Governing.Config, initial: seq<Message>, log: Log, ms: seq<Message>, recorded: set<string>)
    requires LogOk(cfg, initial, log, ms, recorded)
    ensures LogOk(cfg, initial, log.(heads := log.heads + [ms]), ms, recorded)
  {
    SelfExtends(ms);
    hide Grown, RequestsOk, ExchangesOk, InjectionsOk, CheckpointsOk, RecordedOk, Extends, CutsOk;
  }

  lemma LogRequest(cfg: Governing.Config, initial: seq<Message>, log: Log, ms: seq<Message>, recorded: set<string>,
                   r: Request)
    requires LogOk(cfg, initial, log, ms, recorded) && r.from == ms && r.before == recorded
    requires Governing.Prepare(cfg, ms, recorded) == (r.shown, r.recorded)
    ensures LogOk(cfg, initial, log.(requests := log.requests + [r]), ms, r.recorded)
  {
    hide Grown, HeadsOk, RequestsOk, ExchangesOk, InjectionsOk, CheckpointsOk, RecordedOk, Extends, Governing.Prepare;
    RequestsSnoc(cfg, log.requests, r, ms, recorded);
    ExchangesStay(log.requests, r, log.exchanges);
    RecordedGrows(cfg, ms, recorded);
  }

  lemma LogExchange(cfg: Governing.Config, initial: seq<Message>, log: Log, ms: seq<Message>, recorded: set<string>,
                    e: Exchange)
    requires LogOk(cfg, initial, log, ms, recorded)
    requires e.request < |log.requests| && AskedOn(log.requests[e.request].shown, e.sent)
    ensures LogOk(cfg, initial, log.(exchanges := log.exchanges + [e]), ms, recorded)
  {
    hide Grown, HeadsOk, RequestsOk, InjectionsOk, CheckpointsOk, RecordedOk, AskedOn;
  }

  lemma LogCheckpoint(cfg: Governing.Config, initial: seq<Message>, log: Log, ms: seq<Message>, recorded: set<string>,
                      cp: SessionLog.Checkpoint)
    requires LogOk(cfg, initial, log, ms, recorded) && Placed(|initial|, ms, cp)
    ensures LogOk(cfg, initial, log.(checkpoints := log.checkpoints + [cp]), ms, recorded)
  {
    hide Grown, HeadsOk, RequestsOk, ExchangesOk, InjectionsOk, RecordedOk, CutsOk, Placed;
  }

  lemma LogCut(cfg: Governing.Config, initial: seq<Message>, log: Log, ms: seq<Message>, recorded: set<string>,
               cut: Cut)
    requires LogOk(cfg, initial, log, ms, recorded) && CutOk(|initial|, cut)
    ensures LogOk(cfg, initial, log.(cuts := log.cuts + [cut]), ms, recorded)
  {
    hide Grown, HeadsOk, RequestsOk, ExchangesOk, InjectionsOk, RecordedOk, CheckpointsOk, CutOk;
  }

  /** At any point between two steps the latest checkpoint is in place. */
  lemma CutHere(cfg: Governing.Config, initial: seq<Message>, log: Log, ms: seq<Message>, recorded: set<string>)
    requires LogOk(cfg, initial, log, ms, recorded)
    ensures CutOk(|initial|, Cut(ms, Latest(log.checkpoints)))
  {
    GrownIsLonger(initial, ms);
    hide Grown, HeadsOk, RequestsOk, ExchangesOk, InjectionsOk, RecordedOk, Placed, CutsOk;
  }

  /** Preparing once more only adds to the record. */
  lemma LogRegoverns(cfg: Governing.Config, initial: seq<Message>, log: Log, ms: seq<Message>, recorded: set<string>)
    requires LogOk(cfg, initial, log, ms, recorded)
    ensures LogOk(cfg, initial, log, ms, Governing.Prepare(cfg, ms, recorded).1)
  {
    hide Grown, HeadsOk, RequestsOk, ExchangesOk, InjectionsOk, CheckpointsOk, RecordedOk, Extends, Governing.Prepare;
    RecordedGrows(cfg, ms, recorded);
    RequestsRecord(cfg, log.requests, ms, recorded, Governing.Prepare(cfg, ms, recorded).1);
  }

  lemma RequestsRecord(cfg: Governing.Config, requests: seq<Request>, ms: seq<Message>, recorded: set<string>,
                       more: set<string>)
    requires RequestsOk(cfg, requests, ms, recorded) && more == Governing.Prepare(cfg, ms, recorded).1
    ensures RequestsOk(cfg, requests, ms, more)
  {
    PrepareRecords(cfg, ms, recorded);
    hide Governing.Prepare, RequestOk, Extends;
  }

  lemma RecordedGrows(cfg: Governing.Config, ms: seq<Message>, recorded: set<string>)
    requires RecordedOk(cfg, ms, recorded)
    ensures RecordedOk(cfg, ms, Governing.Prepare(cfg, ms, recorded).1)
  {
    hide Governing.Prepare, Governing.LeavesShortTexts, Governing.KeepsLongRow;
    if Governing.LeavesShortTexts(cfg) {
      forall id | id in Governing.Prepare(cfg, ms, recorded).1 ensures Governing.KeepsLongRow(cfg, ms, id) {
        if id !in recorded { Governing.RecordedHasLongRow(cfg, ms, recorded, id); }
      }
    }
  }

  lemma RequestsSnoc(cfg: Governing.Config, requests: seq<Request>, r: Request, ms: seq<Message>, recorded: set<string>)
    requires RequestsOk(cfg, requests, ms, recorded) && r.from == ms && r.before == recorded
    requires Governing.Prepare(cfg, ms, recorded) == (r.shown, r.recorded)
    ensures RequestsOk(cfg, requests + [r], ms, r.recorded)
  {
    PrepareRecords(cfg, ms, recorded);
    SelfExtends(ms);
    RequestIs(cfg, r);
    hide Governing.Prepare;
    RequestsGrow(cfg, requests, r, ms, recorded);
  }

  lemma RequestsGrow(cfg: Governing.Config, requests: seq<Request>, r: Request, ms: seq<Message>, recorded: set<string>)
    requires RequestsOk(cfg, requests, ms, recorded) && RequestOk(cfg, r) && Extends(r.from, ms)
    requires r.before == recorded <= r.recorded && "" !in r.recorded
    ensures RequestsOk(cfg, requests + [r], ms, r.recorded)
  {
    hide RequestOk, Extends;
    var all := requests + [r];
    forall x | x in all ensures RequestOk(cfg, x) && Extends(x.from, ms) && x.recorded <= r.recorded {
      if x != r { assert x in requests; }
    }
    forall j, k | 0 <= j < k < |all| ensures all[j].recorded <= all[k].before {
      assert all[j] == requests[j] && requests[j] in requests;
      if k < |requests| { assert all[k] == requests[k]; }
    }
  }

  lemma RequestIs(cfg: Governing.Config, r: Request)
    requires Governing.Prepare(cfg, r.from, r.before) == (r.shown, r.recorded) && "" !in r.before
    ensures RequestOk(cfg, r)
  {
    hide Governing.Prepare;
  }

  lemma {:induction false} LoopRecords(cfg: Governing.Config, ms: seq<Message>, ids: set<string>,
                                       cands: seq<Governing.Candidate>, estimate: nat)
    requires forall c | c in cands :: c.id != ""
    ensures var ids' := Governing.CompactLoop(cfg, ms, ids, cands, estimate).1;
            ids <= ids' && ("" !in ids ==> "" !in ids')
    decreases |cands|
  {
    if cands != [] {
      var ms' := Governing.CompactAt(cfg, ms, cands[0].at);
      LoopRecords(cfg, ms, ids, cands[1..], estimate);
      LoopRecords(cfg, ms', ids + {cands[0].id}, cands[1..], cfg.estimate(ms'));
    }
  }

  /** Whatever the transcript, preparing only adds usable ids to the record. */
  lemma PrepareRecords(cfg: Governing.Config, ms: seq<Message>, ids: set<string>)
    requires "" !in ids
    ensures ids <= Governing.Prepare(cfg, ms, ids).1 && "" !in Governing.Prepare(cfg, ms, ids).1
  {
    var budgeted := Governing.ApplyBudget(cfg, Governing.Repaired(ms));
    var shown := Governing.ApplyRecorded(cfg, budgeted, ids);
    var cands := Governing.CandidatesUpTo(cfg, shown, |shown|, ids);
    Governing.CandidatesAreValid(cfg, shown, |shown|, ids);
    LoopRecords(cfg, shown, ids, cands, cfg.estimate(shown));
  }

  lemma AskedPlain(shown: seq<Message>)
    ensures AskedOn(shown, shown)
  {
  }

  lemma AskedPrompt(shown: seq<Message>, prompt: Message)
    requires prompt.User?
    ensures AskedOn(shown, shown + [prompt])
  {
  }

  lemma ExchangesStay(requests: seq<Request>, r: Request, exchanges: seq<Exchange>)
    requires ExchangesOk(requests, exchanges)
    ensures ExchangesOk(requests + [r], exchanges)
  {
  }

  // ---- The checkpoints ----

  lemma ReplyIsPlaced(n: nat, ms: seq<Message>, reply: Message)
    requires reply.Assistant? && reply.calls == [] && n < |ms|
    ensures Placed(n, ms, SessionLog.Checkpoint(Some(reply), [], []))
  {
  }

  lemma PendingIsPlaced(n: nat, before: seq<Message>, row: Message, rest: seq<Message>)
    requires row.Assistant? && n <= |before|
    ensures Placed(n, before + [row] + rest, SessionLog.Checkpoint(Some(row), [], row.calls))
  {
    var ms, cp, at := before + [row] + rest, SessionLog.Checkpoint(Some(row), [], row.calls), |before|;
    assert ms[at + 1..at + 1] == [];
    assert GroupAt(ms, cp, at);
  }

  lemma CompletedIsPlaced(n: nat, before: seq<Message>, row: Message, results: seq<Message>)
    requires row.Assistant? && AnswersInOrder(row.calls, results) && n <= |before|
    ensures Placed(n, before + [row] + results, SessionLog.Checkpoint(Some(row), results, []))
  {
    var ms, cp, at := before + [row] + results, SessionLog.Checkpoint(Some(row), results, []), |before|;
    assert row.calls[..|results|] == row.calls;
    assert ms[at + 1..at + 1 + |results|] == results;
    assert GroupAt(ms, cp, at);
  }

  // ---- Guarantees ----

  /** For distinct ids every governed request is paired and, with a positive budget,
      shows all ids recorded so far as compacted. */
  lemma {:induction false} RequestsArePaired(cfg: Governing.Config, requests: seq<Request>, ms: seq<Message>,
                                             recorded: set<string>, j: nat, k: nat)
    requires RequestsOk(cfg, requests, ms, recorded) && DistinctCalls(ms) && j <= k < |requests|
    ensures Paired(requests[k].shown)
    ensures requests[j].recorded <= requests[k].recorded <= recorded
    ensures Governing.InputBudget(cfg) > 0 ==> Governing.ShowsCompactions(cfg, requests[k].shown, requests[j].recorded)
  {
    var r := requests[k];
    assert r in requests && requests[j] in requests && RequestOk(cfg, r);
    ExtendsKeepsDistinct(r.from, ms);
    hide *;
    RequestIsPaired(cfg, r);
    EarlierRecords(cfg, requests, ms, recorded, j, k);
    ShowsFewer(cfg, r.shown, r.recorded, requests[j].recorded);
  }

  lemma RequestIsPaired(cfg: Governing.Config, r: Request)
    requires RequestOk(cfg, r) && DistinctCalls(r.from)
    ensures Paired(r.shown) && r.before <= r.recorded
    ensures Governing.InputBudget(cfg) > 0 ==> Governing.ShowsCompactions(cfg, r.shown, r.recorded)
  {
    hide Governing.Prepare, Governing.InputBudget, Governing.ShowsCompactions;
    Governing.PreparedIsPaired(cfg, r.from, r.before);
  }

  lemma EarlierRecords(cfg: Governing.Config, requests: seq<Request>, ms: seq<Message>, recorded: set<string>, j: nat,
                       k: nat)
    requires RequestsOk(cfg, requests, ms, recorded) && j <= k < |requests|
    ensures requests[j].recorded <= requests[k].recorded <= recorded
  {
    hide Extends, Governing.Prepare;
    assert requests[k] in requests && requests[j] in requests;
    PrepareRecords(cfg, requests[k].from, requests[k].before);
  }

  lemma ShowsFewer(cfg: Governing.Config, ms: seq<Message>, ids: set<string>, fewer: set<string>)
    requires fewer <= ids
    ensures Governing.ShowsCompactions(cfg, ms, ids) ==> Governing.ShowsCompactions(cfg, ms, fewer)
  {
  }

  lemma {:induction false} PromptsPairedIff(shown: seq<Message>, sent: seq<Message>)
    requires AskedOn(shown, sent)
    ensures Paired(sent) <==> Paired(shown)
    decreases |sent|
  {
    if |sent| == |shown| {
      assert sent == shown;
    } else {
      var front := sent[..|sent| - 1];
      PromptsPairedIff(shown, front);
      assert sent == front + [sent[|sent| - 1]];
      PlainRowKeepsPaired(front, sent[|sent| - 1]);
    }
  }

  /** Every provider call of an iteration sends a paired transcript, even when the
      run was started from a broken one. */
  lemma {:induction false} ExchangesArePaired(cfg: Governing.Config, requests: seq<Request>, exchanges: seq<Exchange>,
                                              ms: seq<Message>, recorded: set<string>, e: Exchange)
    requires RequestsOk(cfg, requests, ms, recorded) && ExchangesOk(requests, exchanges)
    requires DistinctCalls(ms) && e in exchanges
    ensures Paired(e.sent)
  {
    assert AskedOn(requests[e.request].shown, e.sent);
    hide RequestsOk, Paired, AskedOn, Governing.InputBudget, Governing.ShowsCompactions, DistinctCalls;
    RequestsArePaired(cfg, requests, ms, recorded, e.request, e.request);
    PromptsPairedIff(requests[e.request].shown, e.sent);
  }

  /** The terminal call sends no governed copy: with distinct usable ids it is paired exactly
      when the transcript was that the run was started with. */
  lemma TerminalIsPairedIff(initial: seq<Message>, ms: seq<Message>, t: Terminal)
    requires Grown(initial, t.from) && Extends(t.from, ms) && AskedOn(t.from, t.sent)
    requires |initial| <= |ms| && UsableCalls(ms[|initial|..]) && DistinctCalls(ms)
    ensures Paired(t.sent) <==> Paired(initial)
  {
    EarlierIsPairedIff(initial, t.from, ms);
    PromptsPairedIff(t.from, t.sent);
  }

  /** The closing request shows the recorded ids compacted exactly when none is recorded:
      it is not governed, and the transcript has the large results. */
  lemma TerminalShowsIff(cfg: Governing.Config, recorded: set<string>, t: Terminal)
    requires RecordedOk(cfg, t.from, recorded) && Governing.LeavesShortTexts(cfg) && t.from <= t.sent
    ensures Governing.ShowsCompactions(cfg, t.sent, recorded) <==> recorded == {}
  {
    hide Governing.LeavesShortTexts;
    if recorded != {} {
      var id :| id in recorded;
      assert Governing.KeepsLongRow(cfg, t.from, id);
      var m :| m in t.from && m.Tool? && m.callId == id && m != Governing.Compacted(cfg, m);
      var i :| 0 <= i < |t.from| && t.from[i] == m;
      assert t.sent[i] == m;
    }
  }

  /** At each loop head, and at return, both repairs are the identity exactly when the run
      was started with a paired transcript. */
  lemma HeadsArePairedIff(initial: seq<Message>, heads: seq<seq<Message>>, ms: seq<Message>, h: seq<Message>)
    requires HeadsOk(initial, heads, ms) && Grown(initial, ms) && (h in heads || h == ms)
    requires UsableCalls(ms[|initial|..]) && DistinctCalls(ms)
    ensures Paired(h) <==> Paired(initial)
    ensures DropOrphans(h) == h && Backfill(h) == h <==> Paired(initial)
  {
    SelfExtends(ms);
    EarlierIsPairedIff(initial, h, ms);
    DropIsIdentityIff(h);
    BackfillIsIdentityIff(h);
  }

  /** What a run appended is saved whole behind any paired session with fresh ids, and
      every call of the saved session is answered. */
  lemma RunIsSavedWhole(cfg: SessionLog.SaveConfig, initial: seq<Message>, ms: seq<Message>, session: seq<Message>)
    requires Grown(initial, ms) && Paired(session)
    requires UsableCalls(ms[|initial|..]) && DistinctCalls(session + ms[|initial|..])
    ensures var saved := SessionLog.Saved(cfg, session, ms[|initial|..]);
            && saved == session + SessionLog.SavedRows(cfg, ms[|initial|..])
            && |session| <= |saved| && SessionLog.SavedWhole(cfg, ms[|initial|..], saved[|session|..])
            && DropOrphans(saved) == saved && EveryCallAnswered(saved)
  {
    SessionLog.ServedTurnIsSavedWhole(cfg, session, ms[|initial|..]);
  }

  /** All that was injected during a run is in the rows from `skip` on, as they are
      injected into, exactly when the save boundary leaves the last initial row in, or no
      follow-up was folded into that row. */
  lemma InjectedIsSavedIff(initial: seq<Message>, injections: seq<Injection>, ms: seq<Message>, skip: nat)
    requires EndsInUser(initial) && InjectionsOk(initial, injections, ms)
    requires skip == |initial| || skip == |initial| - 1
    ensures AllLand(skip, injections) <==> skip < |initial| || ms[..|initial|] == initial
  {
    var n := |initial|;
    if skip < n {
      forall j | j in injections ensures Lands(skip, j.before, j.rows) {
        assert InjectionOk(n, j);
        LandsBehind(skip, j.before, j.rows);
      }
    } else {
      hide AllLand, InjectionOk;
      if ms[..n] == initial { assert ms[..n][n - 1] == initial[n - 1]; }
    }
  }

  /** Every checkpoint of a run, restored behind a paired history with fresh usable ids and
      names, after any part of its group had been saved: the history stays paired, with one
      result for each call of the group, exactly when saving left those rows as they are. */
  lemma CheckpointsRestore(cfg: SessionLog.SaveConfig, n: nat, checkpoints: seq<SessionLog.Checkpoint>,
                           ms: seq<Message>, cp: SessionLog.Checkpoint, base: seq<Message>, k: nat)
    requires CheckpointsOk(n, checkpoints, ms) && cp in checkpoints && SessionLog.UsableNames(cp)
    requires k <= |SessionLog.RestoredRows(cp)|
    requires Paired(base) && DistinctCalls(base + SessionLog.RestoredRows(cp))
    ensures cp.assistant.Some? && cp.assistant.value.Assistant?
    ensures var rows := SessionLog.RestoredRows(cp);
            var out := SessionLog.Restored(SessionLog.Saved(cfg, base, rows[..k]), cp);
            && (Paired(out) <==>
                  SessionLog.SavedRows(cfg, rows[..k]) == [] || SessionLog.SavedAsIs(cfg, rows[..k]))
            && (Paired(out) ==> forall c | c in cp.assistant.value.calls :: ResultCount(out, c.id) == 1)
  {
    assert Placed(n, ms, cp);
    SessionLog.GroupPrefixIsSaved(cfg, base, cp, k);
    SessionLog.RestoredGroupIsPaired(cfg, base, cp, k);
  }

  // ---- Cancelling a run ----

  /** The session after a cancellation: the checkpoint that was stored last is restored. */
  function Cancelled(session: seq<Message>, checkpoint: Option<SessionLog.Checkpoint>): seq<Message> {
    match checkpoint
    case None => session
    case Some(cp) => SessionLog.Restored(session, cp)
  }

  /** The rows that close the calls which were still running. */
  function Interruptions(checkpoint: Option<SessionLog.Checkpoint>): seq<Message> {
    match checkpoint
    case None => []
    case Some(cp) => SessionLog.Interruptions(cp.pending)
  }

  /** Nothing that the run appended is lost by a cancellation exactly when it appended
      nothing but the rows of the checkpoint that was stored last. Each checkpoint replaces
      the one before, so earlier groups, replies and follow-ups are gone. */
  lemma CancelKeepsAllIff(n: nat, cut: Cut, session: seq<Message>)
    requires CutOk(n, cut) && UsableCalls(cut.ms[n..]) && DistinctCalls(session + cut.ms[n..])
    ensures var appended := cut.ms[n..];
            Cancelled(session, cut.checkpoint) == session + appended + Interruptions(cut.checkpoint) <==>
            match cut.checkpoint
            case None => appended == []
            case Some(cp) =>
              && |appended| == 1 + |cp.completed| && appended[0] == cp.assistant.value
              && (cp.assistant.value.calls == [] ==> !SessionLog.EndsIn(session, [cp.assistant.value]))
  {
    var appended := cut.ms[n..];
    match cut.checkpoint {
      case None =>
        assert session + appended + [] == session + appended;
        assert |session + appended| == |session| ==> appended == [];
      case Some(cp) =>
        if cp.assistant.value.calls == [] {
          ReplyCancelled(session, appended, cp);
        } else {
          var at: nat :| n <= at && GroupAt(cut.ms, cp, at);
          GroupCancelled(session, cut.ms, n, cp, at);
        }
    }
  }

  lemma RestoredRowsAre(cp: SessionLog.Checkpoint)
    requires cp.assistant.Some?
    ensures SessionLog.RestoredRows(cp) == [cp.assistant.value] + cp.completed + Interruptions(Some(cp))
  {
    hide SessionLog.Interrupted;
  }

  lemma ReplyCancelled(session: seq<Message>, appended: seq<Message>, cp: SessionLog.Checkpoint)
    requires SessionLog.RunnerShaped(cp) && cp.assistant.value.calls == [] && appended != []
    ensures SessionLog.Restored(session, cp) == session + appended + Interruptions(Some(cp)) <==>
            appended == [cp.assistant.value] && !SessionLog.EndsIn(session, [cp.assistant.value])
  {
    var a := cp.assistant.value;
    RestoredRowsAre(cp);
    assert SessionLog.RestoredRows(cp) == [a] && Interruptions(Some(cp)) == [];
    hide *;
    SessionLog.RestoredReplyIs(session, cp, a);
    if !SessionLog.EndsIn(session, [a]) {
      assert session + [a] == session + appended ==> (session + [a])[|session|..] == appended;
    }
    assert session + appended + [] == session + appended;
  }

  lemma GroupCancelled(session: seq<Message>, ms: seq<Message>, n: nat, cp: SessionLog.Checkpoint, at: nat)
    requires SessionLog.RunnerShaped(cp) && cp.assistant.value.calls != [] && n <= at && GroupAt(ms, cp, at)
    requires UsableCalls(ms[n..]) && DistinctCalls(session + ms[n..])
    ensures SessionLog.Restored(session, cp) == session + ms[n..] + Interruptions(Some(cp)) <==>
            |ms[n..]| == 1 + |cp.completed| && ms[n..][0] == cp.assistant.value
  {
    var a, appended, open := cp.assistant.value, ms[n..], Interruptions(Some(cp));
    RestoredRowsAre(cp);
    GroupIsAll(ms, n, cp, at);
    assert forall c | c in a.calls :: c.id != "";
    hide *;
    RowIsFresh(session, appended, a);
    SessionLog.NewGroupIsAppended(session, cp, a);
    SameBehind(session, [a] + cp.completed, appended, open);
    Regroup(session, [a] + cp.completed, open);
  }

  /** When the group is as long as what was appended, it is what was appended. */
  lemma GroupIsAll(ms: seq<Message>, n: nat, cp: SessionLog.Checkpoint, at: nat)
    requires cp.assistant.Some? && n <= at && GroupAt(ms, cp, at)
    ensures cp.assistant.value in ms[n..] && ms[n..] != []
    ensures |ms[n..]| == 1 + |cp.completed| ==> ms[n..] == [cp.assistant.value] + cp.completed
  {
    assert ms[n..][at - n] == cp.assistant.value;
    if |ms[n..]| == 1 + |cp.completed| {
      assert ms[n..] == [ms[n]] + ms[n + 1..];
    }
  }

  lemma SameBehind<T>(s: seq<T>, x: seq<T>, y: seq<T>, z: seq<T>)
    ensures s + x + z == s + y + z <==> x == y
  {
    if s + x + z == s + y + z {
      assert |x| == |y|;
      assert (s + x + z)[|s|..|s| + |x|] == x && (s + y + z)[|s|..|s| + |y|] == y;
    }
  }

  lemma RowIsFresh(session: seq<Message>, appended: seq<Message>, a: Message)
    requires DistinctCalls(session + appended) && a in appended && a.Assistant? && a.calls != []
    requires forall c | c in a.calls :: c.id != ""
    ensures a !in session
  {
    if a in session {
      var i :| 0 <= i < |appended| && appended[i] == a;
      assert session + appended[..i] + appended[i..] == session + appended;
      SessionLog.FreshCallRow(session + appended[..i], appended[i..], a);
    }
  }
}
