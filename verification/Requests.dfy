/** What a request holds of the transcript it was made from: what the stripping stages
    take away and what they leave, where its results come from, and what a snip keeps. */
module Requests {
  import opened Seqs
  import opened Transcript
  import opened Pairing
  import opened Governing
  import Texts

  predicate Nameless(c: Call) {
    c.name == ""
  }

  predicate AllNameless(calls: seq<Call>) {
    forall c | c in calls :: Nameless(c)
  }

  /** An assistant row of nameless calls only, without content. */
  predicate LosesAll(m: Message) {
    m.Assistant? && m.calls != [] && AllNameless(m.calls) && !m.content.Truthy()
  }

  /** An assistant row keeps its content and its named calls, in order; any other
      row is left alone. */
  ghost predicate KeepsNamed(m: Message, r: Message) {
    if m.Assistant? then r.Assistant? && r.content == m.content && Sifted(m.calls, Nameless, Same<Call>, r.calls)
    else r == m
  }

  predicate ReadsAsNote(content: Content) {
    match content
    case Text(t) => Texts.Strip(t) == Texts.Wording(Texts.NoMessage)
    case _ => false
  }

  /** A note that an assistant turn was left out, without calls. */
  predicate OmissionNote(m: Message) {
    m.Assistant? && m.calls == [] && ReadsAsNote(m.content)
  }

  predicate CallsAreNamed(ms: seq<Message>) {
    forall m | m in ms && m.Assistant? :: forall c | c in m.calls :: c.name != ""
  }

  lemma {:induction false} NamedCallsSift(calls: seq<Call>)
    ensures Sifted(calls, Nameless, Same<Call>, NamedCalls(calls))
  {
    hide Sifted;
    if calls == [] {
      SiftedNone<Call, Call>(Nameless, Same);
    } else {
      var front, c := calls[..|calls| - 1], calls[|calls| - 1];
      NamedCallsSift(front);
      SiftedSnoc(front, Nameless, Same<Call>, NamedCalls(front), c, c);
      assert calls == front + [c];
    }
  }

  lemma NamedCallsSnoc(front: seq<Call>, c: Call)
    ensures NamedCalls(front + [c]) == NamedCalls(front) + if Nameless(c) then [] else [c]
    ensures AllNameless(front + [c]) <==> AllNameless(front) && Nameless(c)
  {
    assert (front + [c])[..|front|] == front;
    assert forall x :: x in front + [c] <==> x in front || x == c;
  }

  lemma {:induction false} NamedCallsSize(calls: seq<Call>)
    ensures NamedCalls(calls) == [] <==> AllNameless(calls)
    ensures |NamedCalls(calls)| <= |calls|
    ensures |NamedCalls(calls)| == |calls| ==> NamedCalls(calls) == calls
  {
    if calls != [] {
      var front, c := calls[..|calls| - 1], calls[|calls| - 1];
      NamedCallsSize(front);
      NamedCallsSnoc(front, c);
      hide *;
      assert calls == front + [c];
    }
  }

  lemma WithNamedCallsKeeps(m: Message)
    ensures LosesAll(m) ==> WithNamedCalls(m) == []
    ensures !LosesAll(m) ==> |WithNamedCalls(m)| == 1 && KeepsNamed(m, WithNamedCalls(m)[0])
  {
    if m.Assistant? {
      NamedCallsSift(m.calls);
      NamedCallsSize(m.calls);
    }
    hide Sifted;
  }

  /** Stripping removes the rows that lose all they have, and no other; of the rest
      only the nameless calls are gone. */
  lemma {:induction false} StripMalformedSifts(ms: seq<Message>)
    ensures Sifted(ms, LosesAll, KeepsNamed, StripMalformed(ms))
  {
    hide LosesAll, KeepsNamed, WithNamedCalls, Sifted;
    if ms == [] {
      SiftedNone(LosesAll, KeepsNamed);
    } else {
      var front, m := ms[..|ms| - 1], ms[|ms| - 1];
      StripMalformedSifts(front);
      WithNamedCallsKeeps(m);
      SiftedSnoc(front, LosesAll, KeepsNamed, StripMalformed(front), m,
                 if LosesAll(m) then m else WithNamedCalls(m)[0]);
        assert ms == front + [m];
      assert StripMalformed(front) + [] == StripMalformed(front);
      assert !LosesAll(m) ==> WithNamedCalls(m) == [WithNamedCalls(m)[0]];
    }
  }

  /** The other stage removes the omission notes and nothing else. */
  lemma {:induction false} StripPlaceholdersSifts(ms: seq<Message>)
    ensures Sifted(ms, OmissionNote, Same<Message>, StripPlaceholders(ms))
  {
    hide Sifted, Texts.Strip, Texts.Wording;
    if ms == [] {
      SiftedNone<Message, Message>(OmissionNote, Same);
    } else {
      var front, m := ms[..|ms| - 1], ms[|ms| - 1];
      StripPlaceholdersSifts(front);
      SiftedSnoc(front, OmissionNote, Same<Message>, StripPlaceholders(front), m, m);
      assert ms == front + [m];
    }
  }

  lemma {:induction false} SiftedNames(calls: seq<Call>, kept: seq<Call>)
    requires Sifted(calls, Nameless, Same<Call>, kept)
    ensures forall c | c in kept :: c.name != ""
  {
    forall c | c in kept ensures c.name != "" {
      var k :| 0 <= k < |kept| && kept[k] == c;
      var i := SiftedFrom(calls, Nameless, Same<Call>, kept, k);
    }
  }

  lemma StrippedCallsAreNamed(ms: seq<Message>)
    ensures CallsAreNamed(StripMalformed(ms))
  {
    var out := StripMalformed(ms);
    StripMalformedSifts(ms);
    hide StripMalformed, Sifted;
    forall m, c | m in out && m.Assistant? && c in m.calls ensures c.name != "" {
      var k :| 0 <= k < |out| && out[k] == m;
      var i := SiftedFrom(ms, LosesAll, KeepsNamed, out, k);
      SiftedNames(ms[i].calls, m.calls);
    }
  }

  // ---- The turns of a request ----

  /** The rows that are no results. */
  function Turns(ms: seq<Message>): seq<Message> {
    if ms == [] then []
    else
      var rest, m := Turns(ms[..|ms| - 1]), ms[|ms| - 1];
      if m.Tool? then rest else rest + [m]
  }

  lemma {:induction false} TurnsAppend(a: seq<Message>, b: seq<Message>)
    ensures Turns(a + b) == Turns(a) + Turns(b)
  {
    if b == [] {
      assert a + b == a;
    } else {
      SplitLast(a, b);
      TurnsAppend(a, b[..|b| - 1]);
    }
  }

  lemma {:induction false} NoTurns(ms: seq<Message>)
    requires forall m | m in ms :: m.Tool?
    ensures Turns(ms) == []
  {
    if ms != [] {
      assert ms[|ms| - 1] in ms;
      NoTurns(ms[..|ms| - 1]);
    }
  }

  lemma {:induction false} DropKeepsTurns(ms: seq<Message>)
    ensures Turns(DropOrphans(ms)) == Turns(ms)
  {
    if ms != [] {
      var front, m := ms[..|ms| - 1], ms[|ms| - 1];
      DropKeepsTurns(front);
      if Keeps(front, DropOrphans(front), m) { SplitLast(DropOrphans(front), [m]); }
    }
  }

  lemma {:induction false} FillKeepsTurns(ms: seq<Message>, due: seq<Message>, answered: set<string>)
    requires forall m | m in due :: m.Tool?
    ensures Turns(Fill(ms, due, answered)) == Turns(ms)
  {
    NoTurns(due);
    if ms != [] {
      var m, rest := ms[0], ms[1..];
      assert ms == [m] + rest;
      TurnsAppend([m], rest);
      if m.Tool? {
        FillKeepsTurns(rest, due, answered);
        TurnsAppend([m], Fill(rest, due, answered));
      } else {
        var owed := OwedBy(m, answered);
        if m.Assistant? { OwedShape(m.calls, answered); }
        FillKeepsTurns(rest, owed, answered);
        TurnsAppend(due + [m], Fill(rest, owed, answered));
        TurnsAppend(due, [m]);
      }
    }
  }

  lemma RepairKeepsTurns(ms: seq<Message>)
    ensures Turns(Repair(ms)) == Turns(ms)
  {
    DropKeepsTurns(ms);
    FillKeepsTurns(DropOrphans(ms), [], ResultIds(DropOrphans(ms)));
  }

  lemma {:induction false} ContentsKeepAllTurns(a: seq<Message>, b: seq<Message>)
    requires OnlyContents(a, b)
    ensures Turns(a) == Turns(b)
  {
    if a != [] { ContentsKeepAllTurns(a[..|a| - 1], b[..|b| - 1]); }
  }

  lemma {:induction false} OtherTurns(ms: seq<Message>)
    ensures Turns(Others(ms)) == Others(Turns(ms)) && Systems(Turns(ms)) == Systems(ms)
  {
    if ms != [] {
      var front, m := ms[..|ms| - 1], ms[|ms| - 1];
      OtherTurns(front);
      if !m.System? { SplitLast(Others(front), [m]); }
      if !m.Tool? { SplitLast(Turns(front), [m]); }
    }
  }

  lemma SystemsAreTurns(ms: seq<Message>)
    ensures Turns(Systems(ms)) == Systems(ms)
  {
    SystemsAreSystems(ms);
    TurnsOnly(Systems(ms));
  }

  lemma {:induction false} TurnsOnly(ms: seq<Message>)
    requires forall m | m in ms :: !m.Tool?
    ensures Turns(ms) == ms
  {
    if ms != [] {
      assert ms[|ms| - 1] in ms;
      TurnsOnly(ms[..|ms| - 1]);
    }
  }

  /** A snip leaves all turns, or the system rows and a tail of the other turns. */
  lemma SnippedKeepsTurns(cfg: Config, ms: seq<Message>) returns (t: nat)
    ensures t <= |Others(Turns(ms))|
    ensures || Turns(Snip(cfg, ms)) == Turns(ms)
            || Turns(Snip(cfg, ms)) == Systems(ms) + Others(Turns(ms))[t..]
  {
    hide *;
    t := 0;
    var s := SnipShape(cfg, ms);
    if Snip(cfg, ms) != ms {
      var rest := Others(ms);
      assert rest == rest[..s] + rest[s..];
      TurnsAppend(rest[..s], rest[s..]);
      OtherTurns(ms);
      t := |Turns(rest[..s])|;
      TurnsAppend(Systems(ms), rest[s..]);
      SystemsAreTurns(ms);
    }
  }

  /** The turns of a request, in order: all that the stripping left, or the system
      rows and a tail of the others. Only results are inserted, changed or dropped. */
  lemma PreparedKeepsTurns(cfg: Config, ms: seq<Message>, ids: set<string>) returns (t: nat)
    ensures var out, left := Prepare(cfg, ms, ids).0, Turns(StripMalformed(StripPlaceholders(ms)));
            && t <= |Others(left)|
            && (Turns(out) == left || Turns(out) == Systems(ms) + Others(left)[t..])
  {
    var stripped := StripMalformed(StripPlaceholders(ms));
    StripPlaceholdersKeepsSystems(ms);
    StripMalformedKeepsSystems(StripPlaceholders(ms));
    RepairKeepsTurns(stripped);
    RepairKeepsSystems(stripped);
    RepairedIsRepair(ms);
    var repaired := Repaired(ms);
    var budgeted := ApplyBudget(cfg, repaired);
    assert OnlyContents(repaired, budgeted);
    ContentsKeepAllTurns(repaired, budgeted);
    ContentsKeepSystems(repaired, budgeted);
    hide CompactOverflow, Snip, Repaired, Repair, ApplyBudget, OnlyContents, StripMalformed, StripPlaceholders, Turns,
      Systems, Others;
    OverflowOnlyContents(cfg, budgeted, ids);
    var shown := CompactOverflow(cfg, budgeted, ids).0;
    ContentsKeepAllTurns(budgeted, shown);
    ContentsKeepSystems(budgeted, shown);
    t := SnippedKeepsTurns(cfg, shown);
    RepairKeepsTurns(Snip(cfg, shown));
  }

  // ---- No nameless call goes out ----

  lemma {:induction false} TurnRows(ms: seq<Message>)
    ensures forall m :: m in Turns(ms) <==> m in ms && !m.Tool?
  {
    if ms != [] {
      TurnRows(ms[..|ms| - 1]);
      assert ms == ms[..|ms| - 1] + [ms[|ms| - 1]];
    }
  }

  lemma PreparedTurns(cfg: Config, ms: seq<Message>, ids: set<string>, r: Message)
    requires r in Prepare(cfg, ms, ids).0 && r.Assistant?
    ensures r in StripMalformed(StripPlaceholders(ms))
  {
    var stripped := StripMalformed(StripPlaceholders(ms));
    var t := PreparedKeepsTurns(cfg, ms, ids);
    SystemsAreSystems(ms);
    PartsAreRows(Turns(stripped));
    TurnRows(Prepare(cfg, ms, ids).0);
    TurnRows(stripped);
    hide *;
    assert r in Turns(stripped) || r in Others(Turns(stripped))[t..];
    assert r in Others(Turns(stripped))[t..] ==> r in Systems(Turns(stripped)) + Others(Turns(stripped));
  }

  /** No request holds a nameless call, and each of its assistant rows is one of the
      transcript, no omission note there, with its content and its named calls. */
  lemma PreparedCallsAreNamed(cfg: Config, ms: seq<Message>, ids: set<string>)
    ensures CallsAreNamed(Prepare(cfg, ms, ids).0)
    ensures forall r | r in Prepare(cfg, ms, ids).0 && r.Assistant? ::
              exists m :: m in ms && !OmissionNote(m) && !LosesAll(m) && KeepsNamed(m, r)
  {
    var noted := StripPlaceholders(ms);
    StrippedCallsAreNamed(noted);
    hide Prepare, StripMalformed, StripPlaceholders, OmissionNote, LosesAll, KeepsNamed;
    forall r, c | r in Prepare(cfg, ms, ids).0 && r.Assistant? && c in r.calls ensures c.name != "" {
      PreparedTurns(cfg, ms, ids, r);
    }
    forall r | r in Prepare(cfg, ms, ids).0 && r.Assistant?
      ensures exists m :: m in ms && !OmissionNote(m) && !LosesAll(m) && KeepsNamed(m, r)
    {
      PreparedTurns(cfg, ms, ids, r);
      var m := StrippedFrom(ms, r);
    }
  }

  lemma StrippedFrom(ms: seq<Message>, r: Message) returns (m: Message)
    requires r in StripMalformed(StripPlaceholders(ms))
    ensures m in ms && !OmissionNote(m) && !LosesAll(m) && KeepsNamed(m, r)
  {
    var noted := StripPlaceholders(ms);
    var out := StripMalformed(noted);
    StripMalformedSifts(noted);
    StripPlaceholdersSifts(ms);
    hide StripMalformed, StripPlaceholders, OmissionNote, LosesAll, KeepsNamed, Sifted;
    var k :| 0 <= k < |out| && out[k] == r;
    var j := SiftedFrom(noted, LosesAll, KeepsNamed, out, k);
    var i := SiftedFrom(ms, OmissionNote, Same<Message>, noted, j);
    m := ms[i];
    assert m == noted[j];
  }

  predicate HiddenNote(m: Message) {
    m.Assistant? && ReadsAsNote(m.content) && m.calls != [] && AllNameless(m.calls)
  }

  /** The first stage cannot see a note that the second one lays bare: one is left
      exactly when a note came with calls and none of them had a name. */
  lemma NoteIsLeftIff(ms: seq<Message>)
    ensures (exists r :: r in StripMalformed(StripPlaceholders(ms)) && OmissionNote(r))
       <==> exists m :: m in ms && HiddenNote(m)
  {
    var noted := StripPlaceholders(ms);
    var out := StripMalformed(noted);
    hide StripPlaceholders, StripMalformed, Sifted, ReadsAsNote, KeepsNamed;
    if r :| r in out && OmissionNote(r) {
      var m := StrippedFrom(ms, r);
      OnlyNameless(m, r);
      assert HiddenNote(m);
    }
    if m :| m in ms && HiddenNote(m) {
      StripPlaceholdersSifts(ms);
      StripMalformedSifts(noted);
      NoteIsTruthy(m);
      var i :| 0 <= i < |ms| && ms[i] == m;
      var j := SiftedTo(ms, OmissionNote, Same<Message>, noted, i);
      var k := SiftedTo(noted, LosesAll, KeepsNamed, out, j);
      OnlyNameless(m, out[k]);
      assert OmissionNote(out[k]);
    }
  }

  lemma NoteIsTruthy(m: Message)
    requires ReadsAsNote(m.content)
    ensures m.content.Truthy()
  {
    hide Texts.Wording;
  }

  lemma OnlyNameless(m: Message, r: Message)
    requires KeepsNamed(m, r) && (m.Assistant? || r.Assistant?)
    ensures m.Assistant? && r.Assistant? && r.content == m.content
    ensures r.calls == [] <==> AllNameless(m.calls)
  {
    hide Sifted;
    if r.calls == [] {
      forall c | c in m.calls ensures Nameless(c) {
        var i :| 0 <= i < |m.calls| && m.calls[i] == c;
        if !Nameless(c) { var k := SiftedTo(m.calls, Nameless, Same<Call>, r.calls, i); }
      }
    } else {
      var i := SiftedFrom(m.calls, Nameless, Same<Call>, r.calls, 0);
      assert m.calls[i] in m.calls;
    }
  }

  // ---- The results of a request ----

  /** What a result of the transcript, or one that was filled in, looks like after
      normalization. */
  ghost predicate NormalizedResult(cfg: Config, ms: seq<Message>, m: Message)
    requires m.Tool?
  {
    exists i: nat, c: Content ::
      && m.content == cfg.normalize(i, m.callId, m.name, c)
      && (Tool(c, m.callId, m.name) in ms || c == Text(Texts.Wording(Texts.NoToolResult)))
  }

  ghost predicate ResultShown(cfg: Config, ms: seq<Message>, m: Message)
    requires m.Tool?
  {
    || NormalizedResult(cfg, ms, m)
    || m.content == Text(cfg.compactionText(m.name))
    || m.content == Text(Texts.Wording(Texts.NoToolResult))
  }

  /** Each row is as it was, or a result that was compacted. */
  ghost predicate CompactsRows(cfg: Config, a: seq<Message>, b: seq<Message>) {
    && |a| == |b|
    && forall i | 0 <= i < |a| :: b[i] == a[i] || (a[i].Tool? && b[i] == Compacted(cfg, a[i]))
  }

  lemma CompactsTrans(cfg: Config, a: seq<Message>, b: seq<Message>, c: seq<Message>)
    requires CompactsRows(cfg, a, b) && CompactsRows(cfg, b, c)
    ensures CompactsRows(cfg, a, c)
  {
  }

  lemma {:induction false} LoopCompactsRows(cfg: Config, ms: seq<Message>, ids: set<string>, cands: seq<Candidate>,
                                            estimate: nat)
    ensures CompactsRows(cfg, ms, CompactLoop(cfg, ms, ids, cands, estimate).0)
    decreases |cands|
  {
    if cands != [] {
      var ms' := CompactAt(cfg, ms, cands[0].at);
      assert CompactsRows(cfg, ms, ms');
      LoopCompactsRows(cfg, ms, ids, cands[1..], estimate);
      LoopCompactsRows(cfg, ms', ids + {cands[0].id}, cands[1..], cfg.estimate(ms'));
      CompactsTrans(cfg, ms, ms', CompactLoop(cfg, ms', ids + {cands[0].id}, cands[1..], cfg.estimate(ms')).0);
      hide CompactsRows, CompactAt;
    }
  }

  lemma OverflowCompactsRows(cfg: Config, ms: seq<Message>, ids: set<string>)
    ensures CompactsRows(cfg, ms, CompactOverflow(cfg, ms, ids).0)
  {
    hide InputBudget;
    var shown := ApplyRecorded(cfg, ms, ids);
    assert CompactsRows(cfg, ms, shown) && CompactsRows(cfg, ms, ms);
    var cands := CandidatesUpTo(cfg, shown, |shown|, ids);
    LoopCompactsRows(cfg, shown, ids, cands, cfg.estimate(shown));
    CompactsTrans(cfg, ms, shown, CompactLoop(cfg, shown, ids, cands, cfg.estimate(shown)).0);
    hide CompactsRows;
  }

  lemma BudgetedResults(cfg: Config, ms: seq<Message>, m: Message)
    requires m in ApplyBudget(cfg, Repaired(ms)) && m.Tool?
    ensures NormalizedResult(cfg, ms, m)
  {
    var repaired := Repaired(ms);
    RepairedToolRows(ms);
    hide Repaired, Texts.Wording;
    var i: nat :| i < |repaired| && m == Normalized(cfg, i, repaired[i]);
    var row := repaired[i];
    assert row in repaired && row == Tool(row.content, m.callId, m.name);
    assert m.content == cfg.normalize(i, m.callId, m.name, row.content);
  }

  lemma RepairedResults(ms: seq<Message>)
    ensures forall m | m in Repair(ms) && m.Tool? :: m in ms || m.content == Text(Texts.Wording(Texts.NoToolResult))
  {
    var kept := DropOrphans(ms);
    DropKeepsRows(ms);
    NothingOwedYet(ResultIds(kept));
    FilledRows(kept, [], {}, ResultIds(kept));
    hide Texts.Wording;
  }

  /** Every result of a request is one of the transcript, normalized, or it is compacted,
      or it stands for one that is missing. */
  lemma PreparedResultsAre(cfg: Config, ms: seq<Message>, ids: set<string>)
    ensures forall m | m in Prepare(cfg, ms, ids).0 && m.Tool? :: ResultShown(cfg, ms, m)
  {
    var budgeted := ApplyBudget(cfg, Repaired(ms));
    OverflowCompactsRows(cfg, budgeted, ids);
    var shown := CompactOverflow(cfg, budgeted, ids).0;
    var s := SnipShape(cfg, shown);
    PartsAreRows(shown);
    RepairedResults(Snip(cfg, shown));
    hide CompactOverflow, Snip, Repaired, Repair, ApplyBudget, NormalizedResult, Texts.Wording, Systems, Others;
    forall m | m in Prepare(cfg, ms, ids).0 && m.Tool? ensures ResultShown(cfg, ms, m) {
      if m in Snip(cfg, shown) {
        assert m in shown by {
          if m in Others(shown)[s..] || m in Systems(shown) { assert m in Systems(shown) + Others(shown); }
        }
        var i :| 0 <= i < |shown| && shown[i] == m;
        if m == budgeted[i] { BudgetedResults(cfg, ms, m); }
      }
    }
  }

  // ---- What a snip keeps ----

  /** The tail starts at the first user row that fits, or else at the last one there is,
      or else at the first row that fits. */
  ghost predicate TailFrom(rest: seq<Message>, kept: nat, start: nat) {
    if exists i :: kept <= i < |rest| && rest[i].User? then
      kept <= start < |rest| && rest[start].User? && forall i | kept <= i < start :: !rest[i].User?
    else if exists i :: 0 <= i < |rest| && rest[i].User? then
      start < |rest| && rest[start].User? && forall i | start < i < |rest| :: !rest[i].User?
    else start == kept
  }

  /** What fits beside the system rows: as many rows from the end as do, but at least one. */
  ghost predicate FitsFrom(cfg: Config, systems: seq<Message>, rest: seq<Message>, kept: nat)
    requires kept < |rest|
  {
    var fixed := Max(TotalTokens(cfg, systems), cfg.estimate(systems));
    && (kept < |rest| - 1 ==> fixed + TotalTokens(cfg, rest[kept..]) <= Max(fixed, InputBudget(cfg)))
    && (kept > 0 ==> fixed + TotalTokens(cfg, rest[kept - 1..]) > InputBudget(cfg))
  }

  lemma TailStartsFrom(rest: seq<Message>, kept: nat)
    requires kept < |rest|
    ensures TailFrom(rest, kept, TailStart(rest, kept))
  {
    var user, last := FirstUser(rest[kept..]), LastUser(rest);
    if kept + user < |rest| {
      assert rest[kept + user] == rest[kept..][user];
      forall i | kept <= i < kept + user ensures !rest[i].User? { assert rest[i] == rest[kept..][i - kept]; }
    } else {
      forall i | kept <= i < |rest| ensures !rest[i].User? { assert rest[i] == rest[kept..][i - kept]; }
    }
    hide FirstUser, LastUser;
  }

  lemma SnipIs(cfg: Config, ms: seq<Message>)
    requires cfg.window != 0 && InputBudget(cfg) > 0 && cfg.estimate(ms) > InputBudget(cfg) && Others(ms) != []
    ensures Snip(cfg, ms) == Systems(ms) + Recent(cfg, Systems(ms), Others(ms))
  {
    if ms == [] { NoOthers(); }
    hide InputBudget, Systems, Others, Recent;
  }

  lemma NoOthers()
    ensures Others([]) == []
  {
  }

  function Room(cfg: Config, systems: seq<Message>): nat {
    Max(0, InputBudget(cfg) - Max(TotalTokens(cfg, systems), cfg.estimate(systems)))
  }

  lemma RecentIs(cfg: Config, systems: seq<Message>, rest: seq<Message>)
    requires rest != []
    ensures var tail := rest[TailStart(rest, SnipStart(cfg, rest, |rest|, 0, Room(cfg, systems)))..];
            Recent(cfg, systems, rest) == tail[LegalStart(tail)..]
  {
    hide InputBudget, TotalTokens, SnipStart, TailStart, LegalStart;
  }

  lemma KeptFits(cfg: Config, systems: seq<Message>, rest: seq<Message>) returns (kept: nat)
    requires rest != []
    ensures kept < |rest| && FitsFrom(cfg, systems, rest, kept)
    ensures kept == SnipStart(cfg, rest, |rest|, 0, Room(cfg, systems))
  {
    assert rest[|rest|..] == [];
    SnipStartIsTight(cfg, rest, |rest|, 0, Room(cfg, systems));
    hide InputBudget, TotalTokens, SnipStart;
    kept := SnipStart(cfg, rest, |rest|, 0, Room(cfg, systems));
  }

  /** A transcript over the budget is cut down to its system rows and, of the others, a
      tail without orphans of what fits. */
  lemma SnipKeeps(cfg: Config, ms: seq<Message>) returns (kept: nat, start: nat)
    requires cfg.window != 0 && InputBudget(cfg) > 0 && cfg.estimate(ms) > InputBudget(cfg) && Others(ms) != []
    ensures kept < |Others(ms)| && FitsFrom(cfg, Systems(ms), Others(ms), kept)
    ensures start <= |Others(ms)| && TailFrom(Others(ms), kept, start)
    ensures var tail := Others(ms)[start..]; Snip(cfg, ms) == Systems(ms) + tail[LegalStart(tail)..]
  {
    hide *;
    SnipIs(cfg, ms);
    kept := KeptFits(cfg, Systems(ms), Others(ms));
    RecentIs(cfg, Systems(ms), Others(ms));
    TailStartsFrom(Others(ms), kept);
    start := TailStart(Others(ms), kept);
  }
}
