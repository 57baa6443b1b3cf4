/** The context governor as it runs: lists of mutable rows, copied before they are
    changed. No method may modify a row it was given (only the caller's id set),
    and each is proved against its stage in Governing. */
module Governor {
  import opened Seqs
  import opened Transcript
  import opened Pairing
  import opened Insertion
  import opened Governing
  import opened Requests

  /** One message object; its content can be replaced in place. */
  class Row {
    var msg: Message

    constructor (msg: Message)
      ensures this.msg == msg
    {
      this.msg := msg;
    }
  }

  /** The run-wide set of compacted tool-call ids, owned by the caller. */
  class IdSet {
    var ids: set<string>

    constructor ()
      ensures ids == {}
    {
      ids := {};
    }
  }

  ghost function Msgs(rows: seq<Row>): (ms: seq<Message>)
    reads rows
    ensures |ms| == |rows| && forall i | 0 <= i < |rows| :: ms[i] == rows[i].msg
  {
    seq(|rows|, i requires 0 <= i < |rows| reads rows => rows[i].msg)
  }

  lemma MsgsAppend(rows: seq<Row>, r: Row)
    ensures Msgs(rows + [r]) == Msgs(rows) + [r.msg]
  {
  }

  lemma MsgsCut(rows: seq<Row>, i: nat)
    requires i <= |rows|
    ensures Msgs(rows[..i]) == Msgs(rows)[..i] && Msgs(rows[i..]) == Msgs(rows)[i..]
  {
  }

  lemma StripMalformedStep(ms: seq<Message>, i: nat)
    requires i < |ms|
    ensures StripMalformed(ms[..i + 1]) == StripMalformed(ms[..i]) + WithNamedCalls(ms[i])
  {
    assert ms[..i + 1][..i] == ms[..i];
  }

  lemma DropStep(ms: seq<Message>, i: nat)
    requires i < |ms|
    ensures var kept, m := DropOrphans(ms[..i]), ms[i];
            && DropOrphans(ms[..i + 1]) == (if Keeps(ms[..i], kept, m) then kept + [m] else kept)
            && DeclaredIds(ms[..i + 1]) == DeclaredIds(ms[..i]) + (if m.Assistant? then CallIdSet(m.calls) else {})
            && ResultIds(kept + [m]) == ResultIds(kept) + (if m.Tool? && m.callId != "" then {m.callId} else {})
  {
    var kept, m := DropOrphans(ms[..i]), ms[i];
    assert ms[..i + 1][..i] == ms[..i];
    ResultIdsAppend(kept, [m]);
    ResultIdsSingle(m);
  }

  lemma KeepsByIds(ms: seq<Message>, kept: seq<Message>, m: Message)
    ensures Keeps(ms, kept, m) <==>
              !m.Tool? || (m.callId != "" && m.callId in DeclaredIds(ms) && m.callId !in ResultIds(kept))
  {
    DeclaredIffCounted(ms, "");
  }

  lemma ResultIdsSingle(m: Message)
    ensures ResultIds([m]) == if m.Tool? && m.callId != "" then {m.callId} else {}
  {
    assert m in [m];
  }

  lemma RowGapsStep(ms: seq<Message>, i: nat)
    requires i < |ms|
    ensures AllGaps(ms[i..], i) == RowGaps(ms[i], i) + AllGaps(ms[i + 1..], i + 1)
    ensures ResultIds(ms[..i + 1])
         == if ms[i].Tool? && ms[i].callId != "" then ResultIds(ms[..i]) + {ms[i].callId} else ResultIds(ms[..i])
  {
    assert ms[i..][0] == ms[i] && ms[i..][1..] == ms[i + 1..];
    assert ms[..i + 1] == ms[..i] + [ms[i]];
    ResultIdsAppend(ms[..i], [ms[i]]);
    ResultIdsSingle(ms[i]);
  }

  ghost predicate Distinct(rows: seq<Row>) {
    forall j, k | 0 <= j < k < |rows| :: rows[j] != rows[k]
  }

  /** Fresh copies of all rows. */
  method CopyRows(rows: seq<Row>) returns (out: seq<Row>)
    ensures Msgs(out) == Msgs(rows)
    ensures Distinct(out) && forall k | 0 <= k < |out| :: fresh(out[k])
  {
    out := [];
    for i := 0 to |rows|
      invariant |out| == i && forall k | 0 <= k < i :: out[k].msg == rows[k].msg
      invariant forall k | 0 <= k < |out| :: fresh(out[k])
      invariant forall k, l | 0 <= k < l < i :: out[k] != out[l]
    {
      var r := new Row(rows[i].msg);
      out := out + [r];
    }
  }

  /** One more row, or a fresh copy of it. */
  method AppendRow(rows: seq<Row>, r: Row, copied: bool) returns (out: seq<Row>)
    ensures Msgs(out) == Msgs(rows) + [r.msg]
  {
    var next := r;
    if copied {
      next := new Row(r.msg);
    }
    MsgsAppend(rows, next);
    out := rows + [next];
  }

  method StripPlaceholderAssistantMessages(rows: seq<Row>) returns (out: seq<Row>)
    ensures Msgs(out) == StripPlaceholders(Msgs(rows))
    ensures Sifted(Msgs(rows), OmissionNote, Same<Message>, Msgs(out))
  {
    hide Sifted, OmissionNote, IsPlaceholder;
    ghost var ms := Msgs(rows);
    StripPlaceholdersSifts(ms);
    out := [];
    for i := 0 to |rows|
      invariant Msgs(out) == StripPlaceholders(ms[..i])
    {
      assert ms[..i + 1][..i] == ms[..i];
      if !IsPlaceholder(rows[i].msg) {
        out := out + [rows[i]];
      }
    }
    assert ms[..|rows|] == ms;
  }

  method StripMalformedToolCalls(rows: seq<Row>) returns (out: seq<Row>)
    ensures Msgs(out) == StripMalformed(Msgs(rows))
    ensures CallsAreNamed(Msgs(out)) && Sifted(Msgs(rows), LosesAll, KeepsNamed, Msgs(out))
  {
    hide StripMalformed, Sifted, CallsAreNamed, LosesAll, KeepsNamed;
    ghost var ms := Msgs(rows);
    StripMalformedSifts(ms);
    StrippedCallsAreNamed(ms);
    var changed := false;
    out := [];
    assert StripMalformed(ms[..0]) == [] by { StripMalformedEmpty(); }
    for i := 0 to |rows|
      invariant Msgs(out) == StripMalformed(ms[..i])
    {
      StripMalformedStep(ms, i);
      var m := rows[i].msg;
      var kept := if m.Assistant? then NamedCalls(m.calls) else [];
      if !m.Assistant? || |kept| == |m.calls| {
        MsgsAppend(out, rows[i]);
        out := out + [rows[i]];
      } else {
        if !changed {
          out := CopyRows(out);
          changed := true;
        }
        if kept != [] || m.content.Truthy() {
          var repaired := new Row(Assistant(m.content, kept));
          MsgsAppend(out, repaired);
          out := out + [repaired];
        }
      }
    }
    assert ms[..|rows|] == ms;
  }

  lemma StripMalformedEmpty()
    ensures StripMalformed([]) == []
  {
  }

  method DropOrphanToolResults(rows: seq<Row>) returns (out: seq<Row>)
    ensures Msgs(out) == DropOrphans(Msgs(rows))
  {
    ghost var ms := Msgs(rows);
    var declared: set<string>, fulfilled: set<string> := {}, {};
    var changed := false;
    out := [];
    assert ms[..0] == [] && DropOrphans([]) == [] && DeclaredIds([]) == {} && ResultIds([]) == {};
    hide *;
    for i := 0 to |rows|
      invariant Msgs(out) == DropOrphans(ms[..i])
      invariant declared == DeclaredIds(ms[..i]) && fulfilled == ResultIds(DropOrphans(ms[..i]))
    {
      var m := rows[i].msg;
      DropStep(ms, i);
      KeepsByIds(ms[..i], DropOrphans(ms[..i]), m);
      if m.Assistant? {
        declared := declared + CallIdSet(m.calls);
      }
      if m.Tool? && (m.callId == "" || m.callId !in declared || m.callId in fulfilled) {
        if !changed {
          out := CopyRows(out);
          changed := true;
        }
      } else {
        if m.Tool? {
          fulfilled := fulfilled + {m.callId};
        }
        out := AppendRow(out, rows[i], changed);
      }
    }
    assert ms[..|rows|] == ms;
  }

  /** The declared calls of the transcript, with their row indices, and the ids
      that have a result. */
  method CollectGaps(rows: seq<Row>) returns (declared: seq<Gap>, fulfilled: set<string>)
    ensures declared == AllGaps(Msgs(rows), 0) && fulfilled == ResultIds(Msgs(rows))
  {
    ghost var ms := Msgs(rows);
    declared, fulfilled := [], {};
    GapsStart(ms);
    hide *;
    for i := 0 to |rows|
      invariant declared + AllGaps(ms[i..], i) == AllGaps(ms, 0)
      invariant fulfilled == ResultIds(ms[..i])
    {
      var m := rows[i].msg;
      RowGapsStep(ms, i);
      Regroup(declared, RowGaps(m, i), AllGaps(ms[i + 1..], i + 1));
      if m.Assistant? {
        declared := declared + RowGaps(m, i);
      } else {
        NoGaps(m, i, declared);
        if m.Tool? && m.callId != "" {
          fulfilled := fulfilled + {m.callId};
        }
      }
    }
  }

  lemma GapsStart(ms: seq<Message>)
    ensures [] + AllGaps(ms[0..], 0) == AllGaps(ms, 0) && ResultIds(ms[..0]) == {}
    ensures forall declared: seq<Gap> :: declared + AllGaps(ms[|ms|..], |ms|) == declared
    ensures ms[..|ms|] == ms
  {
    assert ms[0..] == ms && ms[..0] == [] && ms[|ms|..] == [];
  }

  lemma NoGaps(m: Message, i: nat, declared: seq<Gap>)
    requires !m.Assistant?
    ensures declared + RowGaps(m, i) == declared
  {
  }

  method BackfillMissingToolResults(rows: seq<Row>) returns (out: seq<Row>)
    ensures Msgs(out) == Backfill(Msgs(rows))
  {
    hide *;
    ghost var ms := Msgs(rows);
    var declared, fulfilled := CollectGaps(rows);
    var missing := Unanswered(declared, fulfilled);
    InsertionIsBackfill(ms);
    out := rows;
    var offset := 0;
    assert missing[0..] == missing;
    while offset < |missing|
      invariant 0 <= offset <= |missing|
      invariant InsertAll(Msgs(out), missing[offset..], offset) == Backfill(ms)
    {
      var g := missing[offset];
      var insertAt := EndOfToolRun(out, g.at + 1 + offset);
      assert missing[offset..] == [g] + missing[offset + 1..];
      InsertAllStep(Msgs(out), Call(g.id, g.name), g.at, missing[offset + 1..], offset);
      var filler := new Row(Synthetic(Call(g.id, g.name)));
      MsgsInsert(out, insertAt, filler);
      out := InsertAt(out, insertAt, filler);
      offset := offset + 1;
    }
    assert missing[offset..] == [];
    InsertAllDone(Msgs(out), offset);
  }

  lemma InsertAllDone(ms: seq<Message>, offset: nat)
    ensures InsertAll(ms, [], offset) == ms
  {
  }

  method EndOfToolRun(rows: seq<Row>, start: nat) returns (e: nat)
    ensures e == RunEnd(Msgs(rows), start)
  {
    e := start;
    while e < |rows| && rows[e].msg.Tool?
      invariant RunEnd(Msgs(rows), e) == RunEnd(Msgs(rows), start)
      decreases |rows| - e
    {
      e := e + 1;
    }
  }

  lemma MsgsInsert(rows: seq<Row>, at: nat, r: Row)
    ensures Msgs(InsertAt(rows, at, r)) == InsertAt(Msgs(rows), at, r.msg)
  {
    hide Msgs;
    if at <= |rows| {
      MsgsCut(rows, at);
      MsgsAppend(rows[..at], r);
      MsgsConcat(rows[..at] + [r], rows[at..]);
    } else {
      MsgsAppend(rows, r);
    }
  }

  method ApplyToolResultBudget(cfg: Config, rows: seq<Row>) returns (out: seq<Row>)
    ensures Msgs(out) == ApplyBudget(cfg, Msgs(rows))
  {
    ghost var ms := Msgs(rows);
    var copied := false;
    out := rows;
    for i := 0 to |rows|
      invariant |out| == |rows| && (!copied ==> out == rows)
      invariant copied ==> Distinct(out) && forall k | 0 <= k < |out| :: fresh(out[k])
      invariant forall k | 0 <= k < |rows| :: out[k].msg == if k < i then Normalized(cfg, k, ms[k]) else ms[k]
    {
      var m := rows[i].msg;
      if m.Tool? {
        var normalized := cfg.normalize(i, m.callId, m.name, m.content);
        if normalized != m.content {
          if !copied {
            out := CopyRows(rows);
            copied := true;
          }
          out[i].msg := Tool(normalized, m.callId, m.name);
        }
      }
    }
  }

  method ApplyRecordedCompactions(cfg: Config, rows: seq<Row>, compacted: IdSet) returns (out: seq<Row>, copied: bool)
    ensures Msgs(out) == ApplyRecorded(cfg, Msgs(rows), compacted.ids)
    ensures !copied ==> out == rows
    ensures copied ==> Distinct(out) && forall k | 0 <= k < |out| :: fresh(out[k])
  {
    ghost var ms := Msgs(rows);
    copied := false;
    out := rows;
    for i := 0 to |rows|
      invariant |out| == |rows| && (!copied ==> out == rows)
      invariant copied ==> Distinct(out) && forall k | 0 <= k < |out| :: fresh(out[k])
      invariant forall k | 0 <= k < |rows| :: out[k].msg == if k < i then Recorded(cfg, ms[k], compacted.ids) else ms[k]
    {
      var m := rows[i].msg;
      if m.Tool? && m.callId != "" && m.callId in compacted.ids && m != Compacted(cfg, m) {
        if !copied {
          out := CopyRows(rows);
          copied := true;
        }
        out[i].msg := Compacted(cfg, m);
      }
    }
  }

  method InflightCompactionCandidates(cfg: Config, rows: seq<Row>, compacted: IdSet) returns (cands: seq<Candidate>)
    ensures cands == CandidatesUpTo(cfg, Msgs(rows), |rows|, compacted.ids)
  {
    cands := [];
    for i := 0 to |rows|
      invariant cands == CandidatesUpTo(cfg, Msgs(rows), i, compacted.ids)
    {
      var m := rows[i].msg;
      if && i >= cfg.inflightStart
         && m.Tool? && IsCompactableTool(m.name)
         && m.callId != "" && m.callId !in compacted.ids
         && m.content.Text? && |m.content.text| >= MICROCOMPACT_MIN_CHARS
      {
        cands := cands + [Candidate(i, m.callId)];
      }
    }
  }

  /** Needs the messages, not the row objects. */
  method Snapshot(rows: seq<Row>) returns (ms: seq<Message>)
    ensures ms == Msgs(rows)
  {
    ms := [];
    for i := 0 to |rows|
      invariant ms == Msgs(rows)[..i]
    {
      ms := ms + [rows[i].msg];
    }
  }

  method CompactInflightOverflow(cfg: Config, rows: seq<Row>, compacted: IdSet) returns (out: seq<Row>)
    modifies compacted
    ensures (Msgs(out), compacted.ids) == CompactOverflow(cfg, Msgs(rows), old(compacted.ids))
  {
    var budget := InputBudget(cfg);
    if budget <= 0 {
      return rows;
    }
    var copied: bool;
    out, copied := ApplyRecordedCompactions(cfg, rows, compacted);
    var shown := Snapshot(out);
    var estimate := cfg.estimate(shown);
    if estimate <= budget {
      return;
    }
    var cands := InflightCompactionCandidates(cfg, out, compacted);
    out := CompactCandidates(cfg, out, copied, cands, estimate, compacted);
  }

  /** The compaction loop; `mine` says the rows are already private copies. */
  method CompactCandidates(cfg: Config, rows: seq<Row>, mine: bool, cands: seq<Candidate>, now: nat, compacted: IdSet)
    returns (out: seq<Row>)
    requires now == cfg.estimate(Msgs(rows))
    requires mine ==> forall j, k | 0 <= j < k < |rows| :: rows[j] != rows[k]
    modifies compacted, if mine then (set r | r in rows) else {}
    ensures (Msgs(out), compacted.ids) == CompactLoop(cfg, old(Msgs(rows)), old(compacted.ids), cands, now)
  {
    hide CompactLoop, CompactTarget, InputBudget, CompactAt, Compacted;
    var budget, target := InputBudget(cfg), CompactTarget(InputBudget(cfg));
    var copied, estimate := mine, now;
    out := rows;
    var n := 0;
    assert cands[0..] == cands;
    while n < |cands|
      invariant 0 <= n <= |cands|
      invariant copied ==> Distinct(out)
      invariant copied && !mine ==> forall k | 0 <= k < |out| :: fresh(out[k])
      invariant mine ==> copied
      invariant mine || !copied ==> out == rows
      invariant CompactLoop(cfg, Msgs(out), compacted.ids, cands[n..], estimate)
             == CompactLoop(cfg, old(Msgs(rows)), old(compacted.ids), cands, now)
    {
      var c := cands[n];
      CompactLoopUnfold(cfg, Msgs(out), compacted.ids, cands, n, estimate);
      if n == |cands| - 1 && estimate <= budget {
        return;
      }
      if c.id !in compacted.ids {
        if !copied {
          out := CopyRows(out);
          copied := true;
        }
        compacted.ids := compacted.ids + {c.id};
        CompactToolResultAt(cfg, out, c.at);
        var shown := Snapshot(out);
        estimate := cfg.estimate(shown);
        if estimate <= target {
          return;
        }
      }
      n := n + 1;
    }
    assert cands[n..] == [];
    CompactLoopEmpty(cfg, Msgs(out), compacted.ids, estimate);
  }

  lemma CompactLoopEmpty(cfg: Config, ms: seq<Message>, ids: set<string>, estimate: nat)
    ensures CompactLoop(cfg, ms, ids, [], estimate) == (ms, ids)
  {
  }

  lemma CompactLoopUnfold(cfg: Config, ms: seq<Message>, ids: set<string>, cands: seq<Candidate>, n: nat, estimate: nat)
    requires n < |cands|
    ensures CompactLoop(cfg, ms, ids, cands[n..], estimate) ==
            if n == |cands| - 1 && estimate <= InputBudget(cfg) then (ms, ids)
            else if cands[n].id in ids then CompactLoop(cfg, ms, ids, cands[n + 1..], estimate)
            else
              var ms' := CompactAt(cfg, ms, cands[n].at);
              var ids', estimate' := ids + {cands[n].id}, cfg.estimate(ms');
              if estimate' <= CompactTarget(InputBudget(cfg)) then (ms', ids')
              else CompactLoop(cfg, ms', ids', cands[n + 1..], estimate')
  {
    assert cands[n..][0] == cands[n] && cands[n..][1..] == cands[n + 1..];
  }

  method CompactToolResultAt(cfg: Config, rows: seq<Row>, at: nat)
    requires forall j, k | 0 <= j < k < |rows| :: rows[j] != rows[k]
    modifies rows
    ensures Msgs(rows) == CompactAt(cfg, old(Msgs(rows)), at)
  {
    if at < |rows| && rows[at].msg.Tool? {
      rows[at].msg := Compacted(cfg, rows[at].msg);
    }
  }

  // ---- Snipping ----

  lemma SystemsStep(ms: seq<Message>, i: nat)
    requires i < |ms|
    ensures Systems(ms[..i + 1]) == if ms[i].System? then Systems(ms[..i]) + [ms[i]] else Systems(ms[..i])
    ensures Others(ms[..i + 1]) == if ms[i].System? then Others(ms[..i]) else Others(ms[..i]) + [ms[i]]
  {
    assert ms[..i + 1][..i] == ms[..i];
  }

  /** Copies of the system rows and of the other rows, in order. */
  method SplitSystems(rows: seq<Row>) returns (systems: seq<Row>, rest: seq<Row>)
    ensures Msgs(systems) == Systems(Msgs(rows)) && Msgs(rest) == Others(Msgs(rows))
  {
    ghost var ms := Msgs(rows);
    systems, rest := [], [];
    assert ms[..0] == [] && Systems([]) == [] && Others([]) == [];
    hide Systems, Others;
    for i := 0 to |rows|
      invariant Msgs(systems) == Systems(ms[..i]) && Msgs(rest) == Others(ms[..i])
    {
      SystemsStep(ms, i);
      var copy := new Row(rows[i].msg);
      if rows[i].msg.System? {
        MsgsAppend(systems, copy);
        systems := systems + [copy];
      } else {
        MsgsAppend(rest, copy);
        rest := rest + [copy];
      }
    }
    assert ms[..|rows|] == ms;
  }

  method SumTokens(cfg: Config, rows: seq<Row>) returns (total: nat)
    ensures total == TotalTokens(cfg, Msgs(rows))
  {
    ghost var ms := Msgs(rows);
    total := 0;
    assert ms[0..] == ms;
    for i := 0 to |rows|
      invariant total + TotalTokens(cfg, ms[i..]) == TotalTokens(cfg, ms)
    {
      TotalStep(cfg, ms, i);
      total := total + cfg.rowTokens(rows[i].msg);
    }
    assert ms[|rows|..] == [];
  }

  /** The backward scan that keeps recent rows while they fit. */
  method KeepFrom(cfg: Config, rows: seq<Row>, room: nat) returns (start: nat)
    ensures start <= |rows| && start == SnipStart(cfg, Msgs(rows), |rows|, 0, room)
  {
    start := |rows|;
    var used: nat := 0;
    while start > 0
      invariant start <= |rows|
      invariant SnipStart(cfg, Msgs(rows), start, used, room) == SnipStart(cfg, Msgs(rows), |rows|, 0, room)
    {
      var cost := cfg.rowTokens(rows[start - 1].msg);
      if start < |rows| && used + cost > room {
        return;
      }
      used := used + cost;
      start := start - 1;
    }
  }

  lemma {:induction false} FirstUserIs(ms: seq<Message>, i: nat)
    requires i <= |ms| && (forall k | 0 <= k < i :: !ms[k].User?) && (i < |ms| ==> ms[i].User?)
    ensures FirstUser(ms) == i
  {
  }

  lemma {:induction false} LastUserIs(ms: seq<Message>, i: nat)
    requires i <= |ms| && (i < |ms| ==> ms[i].User?)
    requires forall k | (if i == |ms| then 0 else i + 1) <= k < |ms| :: !ms[k].User?
    ensures LastUser(ms) == i
  {
  }

  function UserTailOf(ms: seq<Message>, last: bool): seq<Message> {
    ms[(if last then LastUser(ms) else FirstUser(ms))..]
  }

  /** The tail from the first user row, or from the last one; empty without one. */
  method UserTail(rows: seq<Row>, last: bool) returns (tail: seq<Row>)
    ensures Msgs(tail) == UserTailOf(Msgs(rows), last)
  {
    ghost var ms := Msgs(rows);
    if last {
      var i := |rows|;
      while i > 0
        invariant 0 <= i <= |rows| && forall k | i <= k < |rows| :: !ms[k].User?
      {
        i := i - 1;
        if rows[i].msg.User? {
          LastUserIs(ms, i);
          return rows[i..];
        }
      }
      LastUserIs(ms, |rows|);
    } else {
      for i := 0 to |rows|
        invariant forall k | 0 <= k < i :: !ms[k].User?
      {
        if rows[i].msg.User? {
          FirstUserIs(ms, i);
          return rows[i..];
        }
      }
      FirstUserIs(ms, |rows|);
    }
    tail := [];
  }

  lemma LegalStep(ms: seq<Message>, i: nat)
    requires i < |ms|
    ensures var start, m := LegalStart(ms[..i]), ms[i];
            && LegalStart(ms[..i + 1])
               == (if m.Tool? && m.callId != "" && m.callId !in DeclaredIds(ms[start..i]) then i + 1 else start)
            && DeclaredIds(ms[start..i + 1])
               == DeclaredIds(ms[start..i]) + (if m.Assistant? then CallIdSet(m.calls) else {})
  {
    var start := LegalStart(ms[..i]);
    assert ms[..i + 1][..i] == ms[..i] && ms[..i][start..] == ms[start..i];
    assert ms[start..i + 1] == ms[start..i] + [ms[i]];
    DeclaredAppend(ms[start..i], [ms[i]]);
    DeclaredSingle(ms[i]);
  }

  method FindLegalMessageStart(rows: seq<Row>) returns (start: nat)
    ensures start == LegalStart(Msgs(rows))
  {
    ghost var ms := Msgs(rows);
    var declared: set<string> := {};
    start := 0;
    assert ms[..0] == [] && ms[0..0] == [];
    for i := 0 to |rows|
      invariant start == LegalStart(ms[..i]) <= i
      invariant declared == DeclaredIds(ms[start..i])
    {
      LegalStep(ms, i);
      var m := rows[i].msg;
      if m.Assistant? {
        declared := declared + CallIdSet(m.calls);
      } else if m.Tool? && m.callId != "" && m.callId !in declared {
        start := i + 1;
        declared := {};
        assert ms[i + 1..i + 1] == [];
      }
    }
    assert ms[..|rows|] == ms;
  }

  method LegalHistoryTail(rest: seq<Row>, kept: nat) returns (tail: seq<Row>)
    requires kept < |rest|
    ensures Msgs(tail) == var ms := Msgs(rest); var t := ms[TailStart(ms, kept)..]; t[LegalStart(t)..]
  {
    ghost var ms := Msgs(rest);
    hide UserTailOf, TailStart, LegalStart;
    MsgsCut(rest, kept);
    tail := UserTail(rest[kept..], false);
    if tail == [] {
      tail := UserTail(rest, true);
    }
    if tail == [] {
      tail := rest[kept..];
    }
    TailIs(ms, kept);
    assert Msgs(tail) == ms[TailStart(ms, kept)..];
    var start := FindLegalMessageStart(tail);
    MsgsCut(tail, start);
    tail := tail[start..];
  }

  lemma TailIs(ms: seq<Message>, kept: nat)
    requires kept < |ms|
    ensures var first, last := UserTailOf(ms[kept..], false), UserTailOf(ms, true);
            ms[TailStart(ms, kept)..] == if first != [] then first else if last != [] then last else ms[kept..]
  {
    hide FirstUser, LastUser;
  }

  lemma SnipLeavesARow(cfg: Config, ms: seq<Message>, room: nat)
    requires ms != []
    ensures SnipStart(cfg, ms, |ms|, 0, room) < |ms|
  {
    assert ms[|ms|..] == [];
    SnipStartIsTight(cfg, ms, |ms|, 0, room);
  }

  lemma MsgsConcat(a: seq<Row>, b: seq<Row>)
    ensures Msgs(a + b) == Msgs(a) + Msgs(b)
  {
  }

  method SnipHistory(cfg: Config, rows: seq<Row>) returns (out: seq<Row>)
    ensures Msgs(out) == Snip(cfg, Msgs(rows))
  {
    hide InputBudget, Systems, Others, Recent, Msgs;
    if rows == [] || cfg.window == 0 {
      return rows;
    }
    var budget := InputBudget(cfg);
    if budget <= 0 {
      return rows;
    }
    var ms := Snapshot(rows);
    if cfg.estimate(ms) <= budget {
      return rows;
    }
    var systems, rest := SplitSystems(rows);
    if rest == [] {
      return rows;
    }
    var tail := RecentTail(cfg, systems, rest);
    MsgsConcat(systems, tail);
    out := systems + tail;
  }

  method RecentTail(cfg: Config, systems: seq<Row>, rest: seq<Row>) returns (tail: seq<Row>)
    requires rest != []
    ensures Msgs(tail) == Recent(cfg, Msgs(systems), Msgs(rest))
  {
    hide InputBudget, TotalTokens, SnipStart, TailStart, LegalStart, Msgs;
    var systemTokens := SumTokens(cfg, systems);
    var systemMsgs := Snapshot(systems);
    var room := Max(0, InputBudget(cfg) - Max(systemTokens, cfg.estimate(systemMsgs)));
    var kept := KeepFrom(cfg, rest, room);
    SnipLeavesARow(cfg, Msgs(rest), room);
    tail := LegalHistoryTail(rest, kept);
  }

  // ---- The whole preparation ----

  method RepairRows(rows: seq<Row>) returns (out: seq<Row>)
    ensures Msgs(out) == Repair(Msgs(rows))
  {
    hide DropOrphans, Backfill, Msgs;
    out := DropOrphanToolResults(rows);
    out := BackfillMissingToolResults(out);
  }

  /** The request copy. The caller's rows are untouched (they are not in the
      modifies clause); only its set of compacted ids may grow. */
  method PrepareForModel(cfg: Config, rows: seq<Row>, compacted: IdSet) returns (out: seq<Row>)
    modifies compacted
    ensures (Msgs(out), compacted.ids) == Prepare(cfg, Msgs(rows), old(compacted.ids))
    ensures Msgs(rows) == old(Msgs(rows))
    ensures CallsAreNamed(Msgs(out))
  {
    hide StripPlaceholders, StripMalformed, Repair, ApplyBudget, CompactOverflow, Snip, Msgs, CallsAreNamed, Sifted;
    PreparedCallsAreNamed(cfg, Msgs(rows), compacted.ids);
    out := StripPlaceholderAssistantMessages(rows);
    out := StripMalformedToolCalls(out);
    out := RepairRows(out);
    out := ApplyToolResultBudget(cfg, out);
    out := CompactInflightOverflow(cfg, out, compacted);
    out := SnipHistory(cfg, out);
    out := RepairRows(out);
  }
}
