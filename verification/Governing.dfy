/** What a request to the model may contain: the stages of the context governor
    as functions, and what the prepared transcript guarantees. */
module Governing {
  import opened Transcript
  import opened Pairing
  import opened Seqs
  import Texts

  const SNIP_SAFETY_BUFFER := 1024
  const MICROCOMPACT_MIN_CHARS := 500

  predicate IsCompactableTool(name: string) {
    || name == "read_file" || name == "exec" || name == "grep" || name == "find_files"
    || name == "web_search" || name == "web_fetch" || name == "list_dir" || name == "list_exec_sessions"
  }

  /** Zero stands for an unset window or block limit. Token estimates, the
      normalization of one tool result and the text that replaces a compacted one
      (CompactionText, in the source) are parameters. */
  datatype Config = Config(
    window: int,
    blockLimit: int,
    maxTokens: Option<int>,
    providerMaxTokens: Option<int>,
    inflightStart: nat,
    estimate: seq<Message> -> nat,
    rowTokens: Message -> nat,
    normalize: (nat, string, string, Content) -> Content,
    compactionText: string -> string)

  function InputBudget(cfg: Config): nat {
    if cfg.window == 0 then 0
    else
      var maxOutput :=
        if cfg.maxTokens.Some? then cfg.maxTokens.value
        else if cfg.providerMaxTokens.Some? then cfg.providerMaxTokens.value
        else 4096;
      var budget :=
        if cfg.blockLimit != 0 then cfg.blockLimit
        else cfg.window - maxOutput - SNIP_SAFETY_BUFFER;
      if budget > 0 then budget else 0
  }

  /** 85 percent of the budget, rounded down. */
  function CompactTarget(budget: nat): nat {
    budget * 85 / 100
  }

  // ---- Stripping ----

  predicate IsPlaceholder(m: Message) {
    m.Assistant? && m.calls == [] && m.content.Text? && Texts.Strip(m.content.text) == Texts.Wording(Texts.NoMessage)
  }

  function StripPlaceholders(ms: seq<Message>): seq<Message> {
    if ms == [] then []
    else
      var rest, m := StripPlaceholders(ms[..|ms| - 1]), ms[|ms| - 1];
      if IsPlaceholder(m) then rest else rest + [m]
  }

  function NamedCalls(calls: seq<Call>): seq<Call> {
    if calls == [] then []
    else
      var rest, c := NamedCalls(calls[..|calls| - 1]), calls[|calls| - 1];
      if c.name != "" then rest + [c] else rest
  }

  /** The row with its nameless calls removed; no row at all when nothing is left of it. */
  function WithNamedCalls(m: Message): seq<Message> {
    if !m.Assistant? then [m]
    else
      var kept := NamedCalls(m.calls);
      if |kept| == |m.calls| then [m]
      else if kept == [] && !m.content.Truthy() then []
      else [Assistant(m.content, kept)]
  }

  function StripMalformed(ms: seq<Message>): seq<Message> {
    if ms == [] then [] else StripMalformed(ms[..|ms| - 1]) + WithNamedCalls(ms[|ms| - 1])
  }

  // ---- Tool-result contents ----

  function Normalized(cfg: Config, i: nat, m: Message): Message {
    if m.Tool? then Tool(cfg.normalize(i, m.callId, m.name, m.content), m.callId, m.name) else m
  }

  function ApplyBudget(cfg: Config, ms: seq<Message>): seq<Message> {
    seq(|ms|, i requires 0 <= i < |ms| => Normalized(cfg, i, ms[i]))
  }

  function CompactionText(name: string): string {
    "Error: The previous " + name + " result was compacted to fit context "
    + "because it was too large. " + "Do not repeat the same call unchanged. "
    + "Retry with a narrower path, query, " + "range, or result limit, "
    + "use another tool, or tell the user " + "the task cannot fit in the available context."
  }

  function Compacted(cfg: Config, m: Message): Message
    requires m.Tool?
  {
    Tool(Text(cfg.compactionText(m.name)), m.callId, m.name)
  }

  function CompactAt(cfg: Config, ms: seq<Message>, at: nat): seq<Message> {
    if at < |ms| && ms[at].Tool? then ms[at := Compacted(cfg, ms[at])] else ms
  }

  function Recorded(cfg: Config, m: Message, ids: set<string>): Message {
    if m.Tool? && m.callId != "" && m.callId in ids then Compacted(cfg, m) else m
  }

  function ApplyRecorded(cfg: Config, ms: seq<Message>, ids: set<string>): seq<Message> {
    seq(|ms|, i requires 0 <= i < |ms| => Recorded(cfg, ms[i], ids))
  }

  datatype Candidate = Candidate(at: nat, id: string)

  predicate IsCandidate(cfg: Config, ms: seq<Message>, i: nat, ids: set<string>)
    requires i < |ms|
  {
    var m := ms[i];
    && i >= cfg.inflightStart
    && m.Tool? && IsCompactableTool(m.name)
    && m.callId != "" && m.callId !in ids
    && m.content.Text? && |m.content.text| >= MICROCOMPACT_MIN_CHARS
  }

  function CandidatesUpTo(cfg: Config, ms: seq<Message>, n: nat, ids: set<string>): seq<Candidate>
    requires n <= |ms|
  {
    if n == 0 then []
    else CandidatesUpTo(cfg, ms, n - 1, ids)
         + if IsCandidate(cfg, ms, n - 1, ids) then [Candidate(n - 1, ms[n - 1].callId)] else []
  }

  ghost predicate ValidCandidates(ms: seq<Message>, cands: seq<Candidate>) {
    forall c | c in cands :: c.at < |ms| && ms[c.at].Tool? && ms[c.at].callId == c.id != ""
  }

  lemma {:induction false} CandidatesAreValid(cfg: Config, ms: seq<Message>, n: nat, ids: set<string>)
    requires n <= |ms|
    ensures var cs := CandidatesUpTo(cfg, ms, n, ids);
            && ValidCandidates(ms, cs)
            && (forall c | c in cs :: c.at < n && IsCandidate(cfg, ms, c.at, ids))
            && (forall i | 0 <= i < n && IsCandidate(cfg, ms, i, ids) :: Candidate(i, ms[i].callId) in cs)
  {
    if n > 0 {
      CandidatesAreValid(cfg, ms, n - 1, ids);
    }
  }

  /** The compaction loop: oldest candidate first, until the estimate reaches the
      target; the newest one is spared when the budget already holds. */
  function CompactLoop(cfg: Config, ms: seq<Message>, ids: set<string>, cands: seq<Candidate>, estimate: nat)
    : (seq<Message>, set<string>)
    decreases |cands|
  {
    var budget := InputBudget(cfg);
    if cands == [] then (ms, ids)
    else if |cands| == 1 && estimate <= budget then (ms, ids)
    else if cands[0].id in ids then CompactLoop(cfg, ms, ids, cands[1..], estimate)
    else
      var ms' := CompactAt(cfg, ms, cands[0].at);
      var ids' := ids + {cands[0].id};
      var estimate' := cfg.estimate(ms');
      if estimate' <= CompactTarget(budget) then (ms', ids')
      else CompactLoop(cfg, ms', ids', cands[1..], estimate')
  }

  function CompactOverflow(cfg: Config, ms: seq<Message>, ids: set<string>): (seq<Message>, set<string>) {
    var budget := InputBudget(cfg);
    if budget <= 0 then (ms, ids)
    else
      var shown := ApplyRecorded(cfg, ms, ids);
      if cfg.estimate(shown) <= budget then (shown, ids)
      else
        var cands := CandidatesUpTo(cfg, shown, |shown|, ids);
        CompactLoop(cfg, shown, ids, cands, cfg.estimate(shown))
  }

  // ---- Snipping ----

  function Systems(ms: seq<Message>): seq<Message> {
    if ms == [] then []
    else
      var rest, m := Systems(ms[..|ms| - 1]), ms[|ms| - 1];
      if m.System? then rest + [m] else rest
  }

  function Others(ms: seq<Message>): seq<Message> {
    if ms == [] then []
    else
      var rest, m := Others(ms[..|ms| - 1]), ms[|ms| - 1];
      if m.System? then rest else rest + [m]
  }

  function TotalTokens(cfg: Config, ms: seq<Message>): nat {
    if ms == [] then 0 else cfg.rowTokens(ms[0]) + TotalTokens(cfg, ms[1..])
  }

  /** Walk back from row `n`, with the rows from `n` on kept and costing `used`. */
  function SnipStart(cfg: Config, ms: seq<Message>, n: nat, used: nat, room: nat): (start: nat)
    requires n <= |ms|
    ensures start <= n
  {
    if n == 0 then 0
    else
      var cost := cfg.rowTokens(ms[n - 1]);
      if n < |ms| && used + cost > room then n
      else SnipStart(cfg, ms, n - 1, used + cost, room)
  }

  /** Index of the first user row, or the length. */
  function FirstUser(ms: seq<Message>): (i: nat)
    ensures i <= |ms|
    ensures i < |ms| ==> ms[i].User?
    ensures forall k | 0 <= k < i :: !ms[k].User?
  {
    if ms == [] then 0 else if ms[0].User? then 0 else 1 + FirstUser(ms[1..])
  }

  /** Index of the last user row, or the length. */
  function LastUser(ms: seq<Message>): (i: nat)
    ensures i <= |ms|
    ensures i < |ms| ==> ms[i].User?
    ensures forall k | i < k < |ms| :: !ms[k].User?
    ensures i == |ms| ==> forall k | 0 <= k < |ms| :: !ms[k].User?
  {
    if ms == [] then 0
    else if ms[|ms| - 1].User? then |ms| - 1
    else
      var i := LastUser(ms[..|ms| - 1]);
      if i == |ms| - 1 then |ms| else i
  }

  /** One past the last tool row whose call is not declared since the previous such row. */
  function LegalStart(ms: seq<Message>): (start: nat)
    ensures start <= |ms|
  {
    if ms == [] then 0
    else
      var before, m := ms[..|ms| - 1], ms[|ms| - 1];
      var start := LegalStart(before);
      if m.Tool? && m.callId != "" && m.callId !in DeclaredIds(before[start..]) then |ms| else start
  }

  /** Where the replayed tail of `rest` starts when the rows from `kept` on fit. */
  function TailStart(rest: seq<Message>, kept: nat): (start: nat)
    requires kept <= |rest|
    ensures start <= |rest|
  {
    var user := FirstUser(rest[kept..]);
    var last := LastUser(rest);
    if kept + user < |rest| then kept + user
    else if last < |rest| then last
    else kept
  }

  /** What is left of the other rows beside the system rows. */
  function Recent(cfg: Config, systems: seq<Message>, rest: seq<Message>): seq<Message>
    requires rest != []
  {
    var fixed := Max(TotalTokens(cfg, systems), cfg.estimate(systems));
    var room := Max(0, InputBudget(cfg) - fixed);
    var tail := rest[TailStart(rest, SnipStart(cfg, rest, |rest|, 0, room))..];
    tail[LegalStart(tail)..]
  }

  function Snip(cfg: Config, ms: seq<Message>): seq<Message> {
    var budget := InputBudget(cfg);
    if ms == [] || cfg.window == 0 || budget <= 0 || cfg.estimate(ms) <= budget then ms
    else
      var systems, rest := Systems(ms), Others(ms);
      if rest == [] then ms else systems + Recent(cfg, systems, rest)
  }

  // ---- The whole preparation ----

  function Repaired(ms: seq<Message>): seq<Message> {
    Repair(StripMalformed(StripPlaceholders(ms)))
  }

  function Prepare(cfg: Config, ms: seq<Message>, ids: set<string>): (seq<Message>, set<string>) {
    var (shown, ids') := CompactOverflow(cfg, ApplyBudget(cfg, Repaired(ms)), ids);
    (Repair(Snip(cfg, shown)), ids')
  }

  // ---- Declarations through the stages ----

  lemma {:induction false} StripPlaceholdersDeclares(ms: seq<Message>, id: string)
    ensures DeclCount(StripPlaceholders(ms), id) == DeclCount(ms, id)
  {
    if ms != [] {
      var front, m := ms[..|ms| - 1], ms[|ms| - 1];
      StripPlaceholdersDeclares(front, id);
      if !IsPlaceholder(m) { SplitLast(StripPlaceholders(front), [m]); }
    }
  }

  lemma {:induction false} NamedCallsCount(calls: seq<Call>, id: string)
    ensures CallCount(NamedCalls(calls), id) <= CallCount(calls, id)
  {
    if calls != [] {
      var front, c := calls[..|calls| - 1], calls[|calls| - 1];
      NamedCallsCount(front, id);
      if c.name != "" { SplitLast(NamedCalls(front), [c]); }
    }
  }

  lemma {:induction false} AllNamed(calls: seq<Call>)
    requires forall c | c in calls :: c.name != ""
    ensures NamedCalls(calls) == calls
  {
    if calls != [] {
      assert calls[|calls| - 1] in calls;
      AllNamed(calls[..|calls| - 1]);
      assert calls == calls[..|calls| - 1] + [calls[|calls| - 1]];
    }
  }

  predicate NoneStripped(m: Message) {
    !IsPlaceholder(m) && (m.Assistant? ==> forall c | c in m.calls :: c.name != "")
  }

  /** Without placeholders and nameless calls there is nothing to strip. */
  lemma {:induction false} StripsNothing(ms: seq<Message>)
    requires forall m | m in ms :: NoneStripped(m)
    ensures StripPlaceholders(ms) == ms && StripMalformed(ms) == ms
  {
    if ms != [] {
      var front, m := ms[..|ms| - 1], ms[|ms| - 1];
      assert NoneStripped(m) by { assert m in ms; }
      StripsNothing(front) by { assert forall x | x in front :: x in ms; }
      StripsNotOne(m);
      hide IsPlaceholder, WithNamedCalls, NoneStripped;
      assert ms == front + [m];
    }
  }

  lemma StripsNotOne(m: Message)
    requires NoneStripped(m)
    ensures !IsPlaceholder(m) && WithNamedCalls(m) == [m]
  {
    hide IsPlaceholder;
    if m.Assistant? { AllNamed(m.calls); }
  }

  lemma RepairedIsRepair(ms: seq<Message>)
    ensures Repaired(ms) == Repair(StripMalformed(StripPlaceholders(ms)))
  {
  }

  /** The ids recorded for a transcript that is in order and fits no further rule. */
  lemma RecordsOf(cfg: Config, ms: seq<Message>)
    requires Repaired(ms) == ms && ApplyBudget(cfg, ms) == ms && InputBudget(cfg) > 0
    ensures Prepare(cfg, ms, {}).1 ==
            if cfg.estimate(ms) <= InputBudget(cfg) then {}
            else CompactLoop(cfg, ms, {}, CandidatesUpTo(cfg, ms, |ms|, {}), cfg.estimate(ms)).1
  {
    hide Repaired, ApplyBudget, InputBudget, CompactLoop, CandidatesUpTo;
    assert ApplyRecorded(cfg, ms, {}) == ms;
  }

  lemma {:induction false} StripMalformedDeclares(ms: seq<Message>, id: string)
    ensures DeclCount(StripMalformed(ms), id) <= DeclCount(ms, id)
  {
    if ms != [] {
      var front, m := ms[..|ms| - 1], ms[|ms| - 1];
      StripMalformedDeclares(front, id);
      DeclCountAppend(StripMalformed(front), WithNamedCalls(m), id);
      if m.Assistant? { NamedCallsCount(m.calls, id); }
    }
  }

  lemma {:induction false} RepairedIsPaired(ms: seq<Message>)
    requires DistinctCalls(ms)
    ensures Paired(Repaired(ms)) && DistinctCalls(Repaired(ms))
  {
    var a := StripMalformed(StripPlaceholders(ms));
    forall id | id != "" ensures DeclCount(a, id) <= 1 {
      StripPlaceholdersDeclares(ms, id);
      StripMalformedDeclares(StripPlaceholders(ms), id);
    }
    RepairPairsDistinct(a);
  }

  /** `b` is `a` with other contents in some tool rows. */
  ghost predicate OnlyContents(a: seq<Message>, b: seq<Message>) {
    && |a| == |b|
    && forall i | 0 <= i < |a| ::
         if a[i].Tool? then b[i].Tool? && b[i].callId == a[i].callId && b[i].name == a[i].name else b[i] == a[i]
  }

  lemma {:induction false} OnlyContentsCounts(a: seq<Message>, b: seq<Message>)
    requires OnlyContents(a, b)
    ensures forall id :: DeclCount(a, id) == DeclCount(b, id) && ResultCount(a, id) == ResultCount(b, id)
    ensures DeclaredIds(a) == DeclaredIds(b)
  {
    if a != [] {
      OnlyContentsCounts(a[..|a| - 1], b[..|b| - 1]);
    }
  }

  lemma {:induction false} OnlyContentsPaired(a: seq<Message>, b: seq<Message>)
    requires OnlyContents(a, b)
    ensures Paired(a) ==> Paired(b)
    ensures DistinctCalls(a) ==> DistinctCalls(b)
  {
    OnlyContentsCounts(a, b);
    forall id ensures id in ResultIds(a) <==> id in ResultIds(b) {
      AnsweredIffCounted(a, id);
      AnsweredIffCounted(b, id);
    }
    if ResultsFollowCalls(a) {
      forall i | 0 <= i < |b| && b[i].Tool? ensures b[i].callId in DeclaredIds(b[..i]) {
        OnlyContentsCounts(a[..i], b[..i]);
        assert a[i].Tool?;
      }
    }
  }

  // ---- In-flight compaction ----

  /** The first `k` candidates compacted. */
  function AfterCompacting(cfg: Config, ms: seq<Message>, cands: seq<Candidate>, k: nat): seq<Message>
    requires k <= |cands|
  {
    if k == 0 then ms else CompactAt(cfg, AfterCompacting(cfg, ms, cands, k - 1), cands[k - 1].at)
  }

  lemma {:induction false} CompactingOnlyContents(cfg: Config, ms: seq<Message>, cands: seq<Candidate>, k: nat)
    requires k <= |cands|
    ensures OnlyContents(ms, AfterCompacting(cfg, ms, cands, k))
  {
    if k > 0 { CompactingOnlyContents(cfg, ms, cands, k - 1); }
  }

  function IdsOf(cands: seq<Candidate>): set<string> {
    set c | c in cands :: c.id
  }

  ghost predicate FreshCandidates(cands: seq<Candidate>, ids: set<string>) {
    && (forall c | c in cands :: c.id !in ids)
    && forall i, j | 0 <= i < j < |cands| :: cands[i].id != cands[j].id
  }

  /** Stopping after `k` candidates is right: everything is compacted, or the
      target is met, or the budget holds with only the newest candidate left. */
  ghost predicate StopsAt(cfg: Config, ms: seq<Message>, cands: seq<Candidate>, k: nat)
    requires k <= |cands|
  {
    var now := cfg.estimate(AfterCompacting(cfg, ms, cands, k));
    || k == |cands|
    || (k > 0 && now <= CompactTarget(InputBudget(cfg)))
    || (k == |cands| - 1 && now <= InputBudget(cfg))
  }

  /** What the loop returns from its `j`-th candidate on. */
  ghost function LoopAt(cfg: Config, ms: seq<Message>, ids: set<string>, cands: seq<Candidate>, j: nat)
    : (seq<Message>, set<string>)
    requires j <= |cands|
  {
    var now := AfterCompacting(cfg, ms, cands, j);
    CompactLoop(cfg, now, ids + IdsOf(cands[..j]), cands[j..], cfg.estimate(now))
  }

  lemma LoopStep(cfg: Config, ms: seq<Message>, ids: set<string>, cands: seq<Candidate>, j: nat)
    requires FreshCandidates(cands, ids) && j < |cands|
    requires !(j == |cands| - 1 && cfg.estimate(AfterCompacting(cfg, ms, cands, j)) <= InputBudget(cfg))
    ensures LoopAt(cfg, ms, ids, cands, j) ==
            if cfg.estimate(AfterCompacting(cfg, ms, cands, j + 1)) <= CompactTarget(InputBudget(cfg))
            then (AfterCompacting(cfg, ms, cands, j + 1), ids + IdsOf(cands[..j + 1]))
            else LoopAt(cfg, ms, ids, cands, j + 1)
  {
    var c, todo := cands[j], cands[j..];
    assert c in cands && todo[0] == c && todo[1..] == cands[j + 1..];
    assert c.id !in ids + IdsOf(cands[..j]);
    assert cands[..j + 1] == cands[..j] + [c];
    assert ids + IdsOf(cands[..j]) + {c.id} == ids + IdsOf(cands[..j + 1]);
  }

  lemma LoopEnds(cfg: Config, ms: seq<Message>, ids: set<string>, cands: seq<Candidate>, j: nat)
    requires j <= |cands|
    requires j == |cands| || (j == |cands| - 1 && cfg.estimate(AfterCompacting(cfg, ms, cands, j)) <= InputBudget(cfg))
    ensures LoopAt(cfg, ms, ids, cands, j) == (AfterCompacting(cfg, ms, cands, j), ids + IdsOf(cands[..j]))
  {
  }

  lemma {:induction false} CompactLoopFrom(cfg: Config, ms: seq<Message>, ids: set<string>, cands: seq<Candidate>,
                                           j: nat)
    returns (k: nat)
    requires FreshCandidates(cands, ids) && j <= |cands|
    requires j > 0 ==> cfg.estimate(AfterCompacting(cfg, ms, cands, j)) > CompactTarget(InputBudget(cfg))
    ensures j <= k <= |cands| && StopsAt(cfg, ms, cands, k)
    ensures forall i | j <= i < k :: !StopsAt(cfg, ms, cands, i)
    ensures LoopAt(cfg, ms, ids, cands, j) == (AfterCompacting(cfg, ms, cands, k), ids + IdsOf(cands[..k]))
    decreases |cands| - j
  {
    hide LoopAt, CompactLoop, AfterCompacting, InputBudget, CompactTarget, IdsOf, FreshCandidates;
    k := j;
    if StopsAt(cfg, ms, cands, j) {
      LoopEnds(cfg, ms, ids, cands, j);
    } else {
      LoopStep(cfg, ms, ids, cands, j);
      if cfg.estimate(AfterCompacting(cfg, ms, cands, j + 1)) <= CompactTarget(InputBudget(cfg)) {
        k := j + 1;
      } else {
        k := CompactLoopFrom(cfg, ms, ids, cands, j + 1);
      }
    }
  }

  /** The loop compacts the oldest candidates, and as few of them as it may: it
      stops at the first point where stopping is right. */
  lemma CompactLoopIsMinimal(cfg: Config, ms: seq<Message>, ids: set<string>, cands: seq<Candidate>) returns (k: nat)
    requires FreshCandidates(cands, ids)
    ensures k <= |cands| && StopsAt(cfg, ms, cands, k)
    ensures forall i | 0 <= i < k :: !StopsAt(cfg, ms, cands, i)
    ensures CompactLoop(cfg, ms, ids, cands, cfg.estimate(ms))
         == (AfterCompacting(cfg, ms, cands, k), ids + IdsOf(cands[..k]))
  {
    k := CompactLoopFrom(cfg, ms, ids, cands, 0);
    assert cands[0..] == cands;
    assert ids + IdsOf(cands[..0]) == ids;
  }

  /** One result per id makes the candidate ids fresh and distinct. */
  lemma {:induction false} CandidatesAreFresh(cfg: Config, ms: seq<Message>, n: nat, ids: set<string>)
    requires n <= |ms| && OneResultEach(ms)
    ensures FreshCandidates(CandidatesUpTo(cfg, ms, n, ids), ids)
  {
    if n > 0 {
      CandidatesAreFresh(cfg, ms, n - 1, ids);
      CandidatesAreValid(cfg, ms, n - 1, ids);
      var cs := CandidatesUpTo(cfg, ms, n - 1, ids);
      if IsCandidate(cfg, ms, n - 1, ids) {
        forall i | 0 <= i < |cs| ensures cs[i].id != ms[n - 1].callId {
          assert cs[i] in cs;
          if cs[i].id == ms[n - 1].callId { TwoRowsCountTwo(ms, cs[i].at, n - 1); }
        }
      }
    }
  }

  /** Every row of a recorded id shows the compaction text. */
  ghost predicate ShowsCompactions(cfg: Config, ms: seq<Message>, ids: set<string>) {
    forall i | 0 <= i < |ms| && ms[i].Tool? && ms[i].callId in ids :: ms[i] == Compacted(cfg, ms[i])
  }

  lemma {:induction false} AfterCompactingShows(cfg: Config, ms: seq<Message>, ids: set<string>, cands: seq<Candidate>,
                                                k: nat)
    requires ValidCandidates(ms, cands) && k <= |cands| && OneResultEach(ms)
    requires ShowsCompactions(cfg, ms, ids)
    ensures ShowsCompactions(cfg, AfterCompacting(cfg, ms, cands, k), ids + IdsOf(cands[..k]))
  {
    hide *;
    if k == 0 {
      NothingCompacted(cfg, ms, cands);
      assert ids + {} == ids;
    } else {
      AfterCompactingShows(cfg, ms, ids, cands, k - 1);
      var c, before := cands[k - 1], AfterCompacting(cfg, ms, cands, k - 1);
      BeforeCompacting(cfg, ms, cands, k);
      IdsOfSnoc(cands, k);
      assert ids + IdsOf(cands[..k]) == ids + IdsOf(cands[..k - 1]) + {c.id};
      CompactOneShows(cfg, before, ids + IdsOf(cands[..k - 1]), c);
    }
  }

  lemma NothingCompacted(cfg: Config, ms: seq<Message>, cands: seq<Candidate>)
    ensures AfterCompacting(cfg, ms, cands, 0) == ms && IdsOf(cands[..0]) == {}
  {
  }

  lemma IdsOfSnoc(cands: seq<Candidate>, k: nat)
    requires 0 < k <= |cands|
    ensures IdsOf(cands[..k]) == IdsOf(cands[..k - 1]) + {cands[k - 1].id}
  {
    assert cands[..k] == cands[..k - 1] + [cands[k - 1]];
  }

  lemma BeforeCompacting(cfg: Config, ms: seq<Message>, cands: seq<Candidate>, k: nat)
    requires ValidCandidates(ms, cands) && 0 < k <= |cands| && OneResultEach(ms)
    ensures var c, before := cands[k - 1], AfterCompacting(cfg, ms, cands, k - 1);
            && c.at < |before| && before[c.at].Tool? && before[c.at].callId == c.id != "" && OneResultEach(before)
            && AfterCompacting(cfg, ms, cands, k) == CompactAt(cfg, before, c.at)
  {
    assert cands[k - 1] in cands;
    CompactingOnlyContents(cfg, ms, cands, k - 1);
    OnlyContentsOneResult(ms, AfterCompacting(cfg, ms, cands, k - 1));
  }

  lemma OnlyContentsOneResult(a: seq<Message>, b: seq<Message>)
    requires OnlyContents(a, b) && OneResultEach(a)
    ensures OneResultEach(b)
  {
    OnlyContentsCounts(a, b);
    hide ResultCount;
    forall id | id != "" ensures ResultCount(b, id) <= 1 { assert ResultCount(a, id) <= 1; }
  }

  lemma CompactOneShows(cfg: Config, ms: seq<Message>, ids: set<string>, c: Candidate)
    requires c.at < |ms| && ms[c.at].Tool? && ms[c.at].callId == c.id != ""
    requires OneResultEach(ms) && ShowsCompactions(cfg, ms, ids)
    ensures ShowsCompactions(cfg, CompactAt(cfg, ms, c.at), ids + {c.id})
  {
    var out := CompactAt(cfg, ms, c.at);
    forall i | 0 <= i < |out| && out[i].Tool? && out[i].callId in ids + {c.id}
      ensures out[i] == Compacted(cfg, out[i])
    {
      if i != c.at && ms[i].callId == c.id {
        TwoRowsCountTwo(ms, if i < c.at then i else c.at, if i < c.at then c.at else i);
      }
    }
  }

  /** The overflow stage touches only contents, only adds to the recorded ids, and
      with one result per id shows every recorded id compacted. */
  lemma {:induction false} CompactOverflowShows(cfg: Config, ms: seq<Message>, ids: set<string>)
    requires OneResultEach(ms) && "" !in ids
    ensures var (out, ids') := CompactOverflow(cfg, ms, ids);
            && OnlyContents(ms, out) && ids <= ids' && "" !in ids'
            && (InputBudget(cfg) > 0 ==> ShowsCompactions(cfg, out, ids'))
  {
    if InputBudget(cfg) > 0 {
      var shown := ApplyRecorded(cfg, ms, ids);
      assert OnlyContents(ms, shown);
      assert ShowsCompactions(cfg, shown, ids);
      if cfg.estimate(shown) > InputBudget(cfg) {
        OnlyContentsCounts(ms, shown);
        var cands := CandidatesUpTo(cfg, shown, |shown|, ids);
        CandidatesAreValid(cfg, shown, |shown|, ids);
        CandidatesAreFresh(cfg, shown, |shown|, ids);
        var k := CompactLoopIsMinimal(cfg, shown, ids, cands);
        CompactingOnlyContents(cfg, shown, cands, k);
        AfterCompactingShows(cfg, shown, ids, cands, k);
        forall c | c in cands[..k] ensures c.id != "" { assert c in cands; }
      }
    }
  }

  // ---- Snipping ----

  lemma {:induction false} OthersCount(ms: seq<Message>, id: string)
    ensures DeclCount(Others(ms), id) == DeclCount(ms, id) && ResultCount(Others(ms), id) == ResultCount(ms, id)
  {
    if ms != [] {
      var front, m := ms[..|ms| - 1], ms[|ms| - 1];
      OthersCount(front, id);
      if !m.System? {
        SplitLast(Others(front), [m]);
      }
    }
  }

  lemma {:induction false} OthersDeclare(ms: seq<Message>)
    ensures DeclaredIds(Others(ms)) == DeclaredIds(ms)
  {
    if ms != [] {
      var front, m := ms[..|ms| - 1], ms[|ms| - 1];
      OthersDeclare(front);
      if !m.System? { SplitLast(Others(front), [m]); }
    }
  }

  lemma {:induction false} OthersFollow(ms: seq<Message>)
    requires ResultsFollowCalls(ms)
    ensures ResultsFollowCalls(Others(ms))
  {
    if ms != [] {
      var front, m := ms[..|ms| - 1], ms[|ms| - 1];
      assert ms == front + [m];
      FollowSnoc(front, m);
      hide ResultsFollowCalls, DeclaredIds;
      OthersFollow(front);
      OthersDeclare(front);
      FollowSnoc(Others(front), m);
    }
  }

  lemma {:induction false} SystemsDeclareNothing(ms: seq<Message>)
    requires forall m | m in ms :: m.System?
    ensures DeclaredIds(ms) == {}
  {
    if ms != [] {
      assert ms[|ms| - 1] in ms;
      SystemsDeclareNothing(ms[..|ms| - 1]);
    }
  }

  lemma {:induction false} SystemsAreSystems(ms: seq<Message>)
    ensures forall m | m in Systems(ms) :: m.System?
  {
    if ms != [] { SystemsAreSystems(ms[..|ms| - 1]); }
  }

  /** A snipped transcript is the input, or its system rows and a tail of the rest. */
  lemma SnipShape(cfg: Config, ms: seq<Message>) returns (s: nat)
    ensures s <= |Others(ms)|
    ensures Snip(cfg, ms) == ms || Snip(cfg, ms) == Systems(ms) + Others(ms)[s..]
  {
    hide InputBudget, Systems, Others, TotalTokens, SnipStart, TailStart, LegalStart;
    s := 0;
    if Snip(cfg, ms) != ms {
      var systems, rest := Systems(ms), Others(ms);
      var fixed := Max(TotalTokens(cfg, systems), cfg.estimate(systems));
      var room := Max(0, InputBudget(cfg) - fixed);
      var from := TailStart(rest, SnipStart(cfg, rest, |rest|, 0, room));
      var tail := rest[from..];
      s := from + LegalStart(tail);
      assert tail[LegalStart(tail)..] == rest[s..];
    }
  }

  lemma NotDeclaredTwice(head: seq<Message>, tail: seq<Message>, id: string)
    requires DistinctCalls(head + tail) && id in DeclaredIds(tail)
    ensures id !in DeclaredIds(head)
  {
    DeclaredIffCounted(tail, id);
    DeclaredIffCounted(head, id);
    DeclCountAppend(head, tail, id);
  }

  /** An id declared in the tail is answered in the tail, behind its call. */
  lemma {:induction false} AnswerInTail(rest: seq<Message>, s: nat, id: string) returns (j: nat)
    requires s <= |rest| && ResultsFollowCalls(rest) && EveryCallAnswered(rest) && DistinctCalls(rest)
    requires id in DeclaredIds(rest[s..])
    ensures s <= j < |rest| && rest[j].Tool? && rest[j].callId == id && id in DeclaredIds(rest[s..j])
  {
    hide *;
    assert rest == rest[..s] + rest[s..];
    NotDeclaredTwice(rest[..s], rest[s..], id);
    DeclaredAppend(rest[..s], rest[s..]);
    j := AnswerOf(rest, id);
    if j < s {
      assert rest[..s] == rest[..j] + rest[j..s];
      DeclaredAppend(rest[..j], rest[j..s]);
    } else {
      assert rest[..j] == rest[..s] + rest[s..j];
      DeclaredAppend(rest[..s], rest[s..j]);
    }
  }

  lemma AnswerOf(ms: seq<Message>, id: string) returns (j: nat)
    requires ResultsFollowCalls(ms) && EveryCallAnswered(ms) && id in DeclaredIds(ms)
    ensures j < |ms| && ms[j].Tool? && ms[j].callId == id && id in DeclaredIds(ms[..j])
  {
    hide DeclaredIds;
    assert id in ResultIds(ms);
    j :| 0 <= j < |ms| && ms[j].Tool? && ms[j].callId == id;
  }

  lemma {:induction false} AnswersLieInTail(systems: seq<Message>, rest: seq<Message>, s: nat)
    requires DeclaredIds(systems) == {}
    requires s <= |rest| && ResultsFollowCalls(rest) && EveryCallAnswered(rest) && DistinctCalls(rest)
    ensures EveryCallAnswered(DropOrphans(systems + rest[s..]))
  {
    var z := systems + rest[s..];
    DropKeepsDeclarations(z);
    DeclaredAppend(systems, rest[s..]);
    forall id | id in DeclaredIds(z) ensures id in ResultIds(DropOrphans(z)) {
      var j := AnswerInTail(rest, s, id);
      var i := |systems| + j - s;
      assert z[i] == rest[j] && z[..i] == systems + rest[s..j];
      DeclaredAppend(systems, rest[s..j]);
      DropKeepsAnAnswer(z, i);
    }
  }

  /** Cutting a perfectly paired transcript with distinct ids never cuts a result
      away from its call: the second back-fill has nothing to insert. */
  lemma {:induction false} SnippedNeedsNoBackfill(cfg: Config, ms: seq<Message>)
    requires Paired(ms) && DistinctCalls(ms)
    ensures Repair(Snip(cfg, ms)) == DropOrphans(Snip(cfg, ms))
    ensures Paired(Repair(Snip(cfg, ms)))
  {
    var s := SnipShape(cfg, ms);
    var out := Snip(cfg, ms);
    if out == ms {
      RepairKeepsPaired(ms);
    } else {
      OthersDeclare(ms);
      OthersFollow(ms);
      SystemsAreSystems(ms);
      SystemsDeclareNothing(Systems(ms));
      forall id ensures DeclCount(Others(ms), id) == DeclCount(ms, id) { OthersCount(ms, id); }
      forall id | id in DeclaredIds(Others(ms)) ensures id in ResultIds(Others(ms)) {
        OthersCount(ms, id);
        AnsweredIffCounted(ms, id);
        AnsweredIffCounted(Others(ms), id);
      }
      AnswersLieInTail(Systems(ms), Others(ms), s);
      DropLeavesNoOrphan(out);
      BackfillIsIdentityIff(DropOrphans(out));
    }
  }

  /** Backward scan: the kept suffix fits (or is the last row alone) and one more
      row would not fit. */
  lemma {:induction false} SnipStartIsTight(cfg: Config, ms: seq<Message>, n: nat, used: nat, room: nat)
    requires n <= |ms| && used == TotalTokens(cfg, ms[n..])
    requires n < |ms| - 1 ==> used <= room
    ensures var s := SnipStart(cfg, ms, n, used, room);
            && (s < |ms| - 1 ==> TotalTokens(cfg, ms[s..]) <= room)
            && (0 < s ==> s < |ms| && TotalTokens(cfg, ms[s - 1..]) > room)
            && (ms != [] ==> s < |ms|)
    decreases n
  {
    assert ms[|ms|..] == [];
    assert used == TotalFrom(cfg, ms, n);
    SnipStopsTight(cfg, ms, n, used, room);
    hide TotalTokens, SnipStart;
  }

  function TotalFrom(cfg: Config, ms: seq<Message>, i: nat): nat
    requires i <= |ms|
  {
    TotalTokens(cfg, ms[i..])
  }

  lemma {:induction false} SnipStopsTight(cfg: Config, ms: seq<Message>, n: nat, used: nat, room: nat)
    requires n <= |ms| && used == TotalFrom(cfg, ms, n)
    requires n < |ms| - 1 ==> used <= room
    ensures var s := SnipStart(cfg, ms, n, used, room);
            && (s < |ms| - 1 ==> TotalFrom(cfg, ms, s) <= room)
            && (0 < s ==> s < |ms| && TotalFrom(cfg, ms, s - 1) > room)
            && (ms != [] ==> s < |ms|)
    decreases n
  {
    if n > 0 {
      TotalStep(cfg, ms, n - 1);
      assert TotalFrom(cfg, ms, n - 1) == used + cfg.rowTokens(ms[n - 1]);
      hide TotalFrom;
      if !(n < |ms| && used + cfg.rowTokens(ms[n - 1]) > room) {
        SnipStopsTight(cfg, ms, n - 1, used + cfg.rowTokens(ms[n - 1]), room);
      }
    }
  }

  lemma TotalStep(cfg: Config, ms: seq<Message>, i: nat)
    requires i < |ms|
    ensures TotalTokens(cfg, ms[i..]) == cfg.rowTokens(ms[i]) + TotalTokens(cfg, ms[i + 1..])
  {
    assert ms[i..][1..] == ms[i + 1..];
  }

  /** Every tool row with a usable id has its call declared earlier in `ms`. */
  ghost predicate OrphanFree(ms: seq<Message>) {
    forall i | 0 <= i < |ms| && ms[i].Tool? && ms[i].callId != "" :: ms[i].callId in DeclaredIds(ms[..i])
  }

  lemma {:induction false} OrphanFreeSnoc(a: seq<Message>, m: Message)
    ensures OrphanFree(a + [m]) <==> OrphanFree(a) && (m.Tool? && m.callId != "" ==> m.callId in DeclaredIds(a))
  {
    var t := a + [m];
    forall i | 0 <= i < |a| ensures t[i] == a[i] && t[..i] == a[..i] {}
    assert t[|a|] == m && t[..|a|] == a;
    if OrphanFree(t) {
      forall i | 0 <= i < |a| && a[i].Tool? && a[i].callId != "" ensures a[i].callId in DeclaredIds(a[..i]) {
        assert t[i].Tool?;
      }
    }
  }

  /** The legal start is the least start whose tail is orphan free. */
  lemma {:induction false} LegalStartIsLeast(ms: seq<Message>)
    ensures OrphanFree(ms[LegalStart(ms)..])
    ensures forall s | 0 <= s < LegalStart(ms) :: !OrphanFree(ms[s..])
  {
    if ms != [] {
      var n := |ms| - 1;
      var before, m := ms[..n], ms[n];
      LegalStartIsLeast(before);
      var start := LegalStart(before);
      forall s | 0 <= s <= n
        ensures OrphanFree(ms[s..]) <==>
                OrphanFree(before[s..]) && (m.Tool? && m.callId != "" ==> m.callId in DeclaredIds(before[s..]))
        ensures s >= start ==> DeclaredIds(before[s..]) <= DeclaredIds(before[start..])
      {
        assert ms[s..] == before[s..] + [m];
        OrphanFreeSnoc(before[s..], m);
        if s >= start {
          assert before[start..] == before[start..s] + before[s..];
          DeclaredAppend(before[start..s], before[s..]);
        }
      }
    }
  }

  lemma CompactionTextLength(name: string)
    ensures |CompactionText(name)| == |name| + 261
  {
  }

  /** A compacted result is below the compaction threshold, so even an unrecorded
      one is no candidate again. */
  lemma CompactedIsNoCandidate(cfg: Config, ms: seq<Message>, i: nat, ids: set<string>)
    requires i < |ms| && ms[i].Tool? && cfg.compactionText(ms[i].name) == CompactionText(ms[i].name)
    requires ms[i] == Compacted(cfg, ms[i])
    ensures !IsCandidate(cfg, ms, i, ids)
  {
    if IsCompactableTool(ms[i].name) { CompactableNameIsShort(ms[i].name); }
    CompactionTextLength(ms[i].name);
    hide CompactionText, IsCompactableTool;
  }

  lemma CompactableNameIsShort(name: string)
    requires IsCompactableTool(name)
    ensures |name| <= 18
  {
  }

  // ---- Guarantees of the prepared transcript ----

  lemma {:induction false} ShownRowsStayShown(cfg: Config, ms: seq<Message>, ids: set<string>, out: seq<Message>)
    requires ShowsCompactions(cfg, ms, ids) && forall m | m in out :: m in ms
    ensures ShowsCompactions(cfg, out, ids)
  {
    forall i | 0 <= i < |out| && out[i].Tool? && out[i].callId in ids ensures out[i] == Compacted(cfg, out[i]) {
      assert out[i] in ms;
    }
  }

  lemma {:induction false} DropKeepsRows(ms: seq<Message>)
    ensures forall m | m in DropOrphans(ms) :: m in ms
  {
    if ms != [] { DropKeepsRows(ms[..|ms| - 1]); }
  }

  lemma {:induction false} PartsAreRows(ms: seq<Message>)
    ensures forall m | m in Systems(ms) + Others(ms) :: m in ms
  {
    if ms != [] {
      var front := ms[..|ms| - 1];
      PartsAreRows(front);
      forall m | m in Systems(ms) + Others(ms) ensures m in ms {
        assert m in Systems(front) + Others(front) || m == ms[|ms| - 1];
      }
    }
  }

  /** For distinct call ids the request is perfectly paired, whatever was snipped
      and compacted; the recorded ids only grow; and with a positive budget every
      recorded id is shown compacted. */
  lemma {:induction false} PreparedIsPaired(cfg: Config, ms: seq<Message>, ids: set<string>)
    requires DistinctCalls(ms) && "" !in ids
    ensures var (out, ids') := Prepare(cfg, ms, ids);
            && Paired(out)
            && ids <= ids' && "" !in ids'
            && (InputBudget(cfg) > 0 ==> ShowsCompactions(cfg, out, ids'))
  {
    hide Repaired, CompactOverflow, InputBudget, ShowsCompactions, Paired, DistinctCalls, Repair, Snip;
    var repaired := Repaired(ms);
    RepairedIsPaired(ms);
    var budgeted := ApplyBudget(cfg, repaired);
    assert OnlyContents(repaired, budgeted);
    OnlyContentsPaired(repaired, budgeted);
    CompactOverflowShows(cfg, budgeted, ids);
    var (shown, ids') := CompactOverflow(cfg, budgeted, ids);
    OnlyContentsPaired(budgeted, shown);
    SnippedNeedsNoBackfill(cfg, shown);
    SnippedRowsAreRows(cfg, shown);
    if InputBudget(cfg) > 0 { ShownRowsStayShown(cfg, shown, ids', Repair(Snip(cfg, shown))); }
  }

  lemma {:induction false} SnippedRowsAreRows(cfg: Config, ms: seq<Message>)
    ensures forall m | m in DropOrphans(Snip(cfg, ms)) :: m in ms
  {
    var snipped := Snip(cfg, ms);
    DropKeepsRows(snipped);
    var s := SnipShape(cfg, ms);
    PartsAreRows(ms);
    hide *;
    forall m | m in snipped ensures m in ms {
      if m in Systems(ms) + Others(ms)[s..] { assert m in Systems(ms) + Others(ms); }
    }
  }

  // ---- System rows survive ----

  lemma {:induction false} SystemsAppend(a: seq<Message>, b: seq<Message>)
    ensures Systems(a + b) == Systems(a) + Systems(b)
  {
    if b == [] {
      assert a + b == a;
    } else {
      SplitLast(a, b);
      SystemsAppend(a, b[..|b| - 1]);
    }
  }

  lemma {:induction false} NoSystems(ms: seq<Message>)
    requires forall m | m in ms :: !m.System?
    ensures Systems(ms) == []
  {
    if ms != [] {
      assert ms[|ms| - 1] in ms;
      NoSystems(ms[..|ms| - 1]);
    }
  }

  lemma {:induction false} AllSystems(ms: seq<Message>)
    requires forall m | m in ms :: m.System?
    ensures Systems(ms) == ms
  {
    if ms != [] {
      assert ms[|ms| - 1] in ms;
      AllSystems(ms[..|ms| - 1]);
    }
  }

  lemma {:induction false} StripPlaceholdersKeepsSystems(ms: seq<Message>)
    ensures Systems(StripPlaceholders(ms)) == Systems(ms)
  {
    if ms != [] {
      var front, m := ms[..|ms| - 1], ms[|ms| - 1];
      StripPlaceholdersKeepsSystems(front);
      SystemsAppend(StripPlaceholders(front), [m]);
      SystemsAppend(front, [m]);
    }
  }

  lemma {:induction false} StripMalformedKeepsSystems(ms: seq<Message>)
    ensures Systems(StripMalformed(ms)) == Systems(ms)
  {
    if ms != [] {
      var front, m := ms[..|ms| - 1], ms[|ms| - 1];
      StripMalformedKeepsSystems(front);
      SystemsAppend(StripMalformed(front), WithNamedCalls(m));
      if !m.System? { NoSystems(WithNamedCalls(m)); }
    }
  }

  lemma {:induction false} DropKeepsSystems(ms: seq<Message>)
    ensures Systems(DropOrphans(ms)) == Systems(ms)
  {
    if ms != [] {
      var front, m := ms[..|ms| - 1], ms[|ms| - 1];
      DropKeepsSystems(front);
      if Keeps(front, DropOrphans(front), m) { SplitLast(DropOrphans(front), [m]); }
    }
  }

  lemma {:induction false} FillKeepsSystems(ms: seq<Message>, due: seq<Message>, answered: set<string>)
    requires forall m | m in due :: m.Tool?
    ensures Systems(Fill(ms, due, answered)) == Systems(ms)
  {
    NoSystems(due);
    if ms != [] {
      var m, rest := ms[0], ms[1..];
      assert ms == [m] + rest;
      SystemsAppend([m], rest);
      if m.Tool? {
        FillKeepsSystems(rest, due, answered);
        SystemsAppend([m], Fill(rest, due, answered));
      } else {
        var owed := OwedBy(m, answered);
        if m.Assistant? { OwedShape(m.calls, answered); }
        FillKeepsSystems(rest, owed, answered);
        SystemsAppend(due + [m], Fill(rest, owed, answered));
        SystemsAppend(due, [m]);
      }
    }
  }

  lemma {:induction false} ContentsKeepSystems(a: seq<Message>, b: seq<Message>)
    requires OnlyContents(a, b)
    ensures Systems(a) == Systems(b)
  {
    if a != [] { ContentsKeepSystems(a[..|a| - 1], b[..|b| - 1]); }
  }

  lemma {:induction false} OthersAreNotSystems(ms: seq<Message>)
    ensures forall m | m in Others(ms) :: !m.System?
  {
    if ms != [] { OthersAreNotSystems(ms[..|ms| - 1]); }
  }

  lemma RepairKeepsSystems(ms: seq<Message>)
    ensures Systems(Repair(ms)) == Systems(ms)
  {
    DropKeepsSystems(ms);
    FillKeepsSystems(DropOrphans(ms), [], ResultIds(DropOrphans(ms)));
  }

  /** The loop changes contents only, whatever candidates it is given. */
  lemma {:induction false} LoopOnlyContents(cfg: Config, ms: seq<Message>, ids: set<string>, cands: seq<Candidate>,
                                            estimate: nat)
    ensures OnlyContents(ms, CompactLoop(cfg, ms, ids, cands, estimate).0)
    decreases |cands|
  {
    if cands != [] {
      var ms' := CompactAt(cfg, ms, cands[0].at);
      assert OnlyContents(ms, ms');
      LoopOnlyContents(cfg, ms, ids, cands[1..], estimate);
      LoopOnlyContents(cfg, ms', ids + {cands[0].id}, cands[1..], cfg.estimate(ms'));
    }
  }

  lemma OverflowOnlyContents(cfg: Config, ms: seq<Message>, ids: set<string>)
    ensures OnlyContents(ms, CompactOverflow(cfg, ms, ids).0)
  {
    hide InputBudget;
    if InputBudget(cfg) > 0 {
      var shown := ApplyRecorded(cfg, ms, ids);
      assert OnlyContents(ms, shown);
      LoopOnlyContents(cfg, shown, ids, CandidatesUpTo(cfg, shown, |shown|, ids), cfg.estimate(shown));
    }
  }

  lemma SnipKeepsSystems(cfg: Config, ms: seq<Message>)
    ensures Systems(Snip(cfg, ms)) == Systems(ms)
  {
    var s := SnipShape(cfg, ms);
    hide Snip;
    if Snip(cfg, ms) != ms {
      SystemsAppend(Systems(ms), Others(ms)[s..]);
      OthersAreNotSystems(ms);
      NoSystems(Others(ms)[s..]);
      SystemsAreSystems(ms);
      AllSystems(Systems(ms));
    }
  }

  /** No stage loses, changes or reorders a system row, in whatever transcript. */
  lemma {:induction false} PreparedKeepsSystems(cfg: Config, ms: seq<Message>, ids: set<string>)
    ensures Systems(Prepare(cfg, ms, ids).0) == Systems(ms)
  {
    StripPlaceholdersKeepsSystems(ms);
    StripMalformedKeepsSystems(StripPlaceholders(ms));
    RepairKeepsSystems(StripMalformed(StripPlaceholders(ms)));
    var repaired := Repaired(ms);
    var budgeted := ApplyBudget(cfg, repaired);
    assert OnlyContents(repaired, budgeted);
    ContentsKeepSystems(repaired, budgeted);
    var shown := CompactOverflow(cfg, budgeted, ids).0;
    hide CompactOverflow, Snip, Repaired, Repair, ApplyBudget;
    OverflowOnlyContents(cfg, budgeted, ids);
    ContentsKeepSystems(budgeted, shown);
    SnipKeepsSystems(cfg, shown);
    RepairKeepsSystems(Snip(cfg, shown));
  }

  // ---- Which rows are recorded ----

  /** The compaction text is the source's, and no text under 300 characters (as it and
      the back-fill text are) is made a large one by normalization. */
  ghost predicate LeavesShortTexts(cfg: Config) {
    && (forall name: string :: cfg.compactionText(name) == CompactionText(name))
    && forall i: nat, id: string, name: string, t: string | |t| < 300 ::
         var out := cfg.normalize(i, id, name, Text(t));
         out.Text? ==> |out.text| < MICROCOMPACT_MIN_CHARS
  }

  /** The transcript itself still has the large result of a recorded id. */
  ghost predicate KeepsLongRow(cfg: Config, ms: seq<Message>, id: string) {
    exists m :: m in ms && m.Tool? && m.callId == id && m != Compacted(cfg, m)
  }

  lemma {:induction false} StrippedRows(ms: seq<Message>)
    ensures forall m | m in StripPlaceholders(ms) :: m in ms
    ensures forall m | m in StripMalformed(ms) && m.Tool? :: m in ms
  {
    if ms != [] {
      StrippedRows(ms[..|ms| - 1]);
    }
  }

  lemma {:induction false} FilledRows(ms: seq<Message>, due: seq<Message>, d: set<string>, answered: set<string>)
    requires AllOwed(due, d, answered)
    ensures forall m | m in Fill(ms, due, answered) :: m in ms || m.content == Text(Texts.Wording(Texts.NoToolResult))
  {
    hide Texts.Wording;
    if ms != [] {
      var m, rest := ms[0], ms[1..];
      if m.Tool? {
        FilledRows(rest, due, d, answered);
      } else {
        var d' := if m.Assistant? then CallIdSet(m.calls) else {};
        if m.Assistant? { OwedShape(m.calls, answered); }
        assert AllOwed(OwedBy(m, answered), d', answered);
        FilledRows(rest, OwedBy(m, answered), d', answered);
      }
    }
  }

  lemma RepairedToolRows(ms: seq<Message>)
    ensures forall m | m in Repaired(ms) && m.Tool? :: m in ms || m.content == Text(Texts.Wording(Texts.NoToolResult))
  {
    var a := StripPlaceholders(ms);
    StrippedRows(ms);
    StrippedRows(a);
    var kept := DropOrphans(StripMalformed(a));
    DropKeepsRows(StripMalformed(a));
    hide *;
    assert AllOwed([], {}, ResultIds(kept)) by { NothingOwedYet(ResultIds(kept)); }
    FilledRows(kept, [], {}, ResultIds(kept));
    RepairedIs(ms);
  }

  lemma NothingOwedYet(answered: set<string>)
    ensures AllOwed([], {}, answered)
  {
  }

  lemma RepairedIs(ms: seq<Message>)
    ensures var kept := DropOrphans(StripMalformed(StripPlaceholders(ms)));
            Repaired(ms) == Fill(kept, [], ResultIds(kept))
  {
  }

  lemma {:induction false} LoopAddsCandidates(cfg: Config, ms: seq<Message>, ids: set<string>, cands: seq<Candidate>,
                                              estimate: nat)
    ensures CompactLoop(cfg, ms, ids, cands, estimate).1 <= ids + IdsOf(cands)
    decreases |cands|
  {
    if cands != [] {
      var ms' := CompactAt(cfg, ms, cands[0].at);
      LoopAddsCandidates(cfg, ms, ids, cands[1..], estimate);
      LoopAddsCandidates(cfg, ms', ids + {cands[0].id}, cands[1..], cfg.estimate(ms'));
      assert cands[0] in cands && forall c | c in cands[1..] :: c in cands;
    }
  }

  /** A candidate stands for a large result of the transcript that was prepared. */
  lemma CandidateHasLongRow(cfg: Config, ms: seq<Message>, ids: set<string>, c: Candidate)
    requires LeavesShortTexts(cfg)
    requires var shown := ApplyRecorded(cfg, ApplyBudget(cfg, Repaired(ms)), ids);
             c.at < |shown| && IsCandidate(cfg, shown, c.at, ids) && c.id == shown[c.at].callId
    ensures KeepsLongRow(cfg, ms, c.id)
  {
    var repaired := Repaired(ms);
    RepairedToolRows(ms);
    hide Repaired;
    var row := repaired[c.at];
    assert row in repaired && row.Tool? && row.callId == c.id;
    LongIsNotShort(cfg, ids, c.at, row);
  }

  /** A row that is still large after normalization is neither a compacted one nor a
      back-filled one. */
  lemma LongIsNotShort(cfg: Config, ids: set<string>, i: nat, row: Message)
    requires LeavesShortTexts(cfg) && row.Tool?
    requires var m := Normalized(cfg, i, row);
             IsCompactableTool(m.name) && m.content.Text? && |m.content.text| >= MICROCOMPACT_MIN_CHARS
    ensures row != Compacted(cfg, row) && row.content != Text(Texts.Wording(Texts.NoToolResult))
  {
    CompactableNameIsShort(row.name);
    CompactionTextLength(row.name);
    NoResultTextLength();
    hide CompactionText, IsCompactableTool, Texts.Wording;
  }

  lemma NoResultTextLength()
    ensures |Texts.Wording(Texts.NoToolResult)| < 300
  {
  }

  /** Every newly recorded id stands for a large result in the transcript. */
  lemma RecordedHasLongRow(cfg: Config, ms: seq<Message>, ids: set<string>, id: string)
    requires LeavesShortTexts(cfg) && id in Prepare(cfg, ms, ids).1 && id !in ids
    ensures KeepsLongRow(cfg, ms, id)
  {
    var budgeted := ApplyBudget(cfg, Repaired(ms));
    var shown := ApplyRecorded(cfg, budgeted, ids);
    var cands := CandidatesUpTo(cfg, shown, |shown|, ids);
    assert (InputBudget(cfg) > 0) && Prepare(cfg, ms, ids).1
        == CompactLoop(cfg, shown, ids, cands, cfg.estimate(shown)).1;
    LoopAddsCandidates(cfg, shown, ids, cands, cfg.estimate(shown));
    CandidatesAreValid(cfg, shown, |shown|, ids);
    var c :| c in cands && c.id == id;
    CandidateHasLongRow(cfg, ms, ids, c);
  }
}
