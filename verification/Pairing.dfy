/** The two transcript repairs of the context governor as functions, and what
    they guarantee: dropping orphan results, back-filling missing ones. */
module Pairing {
  import opened Transcript
  import Texts

  // ---- Dropping orphan results ----

  /** A tool row is kept when its id is usable, declared by an earlier row, and
      not already answered by a kept row. */
  predicate Keeps(before: seq<Message>, kept: seq<Message>, m: Message) {
    m.Tool? ==> m.callId in DeclaredIds(before) && m.callId !in ResultIds(kept)
  }

  function DropOrphans(ms: seq<Message>): seq<Message> {
    if ms == [] then []
    else
      var before, m := ms[..|ms| - 1], ms[|ms| - 1];
      var kept := DropOrphans(before);
      if Keeps(before, kept, m) then kept + [m] else kept
  }

  lemma {:induction false} DropKeepsCount(ms: seq<Message>, id: string)
    ensures DeclCount(DropOrphans(ms), id) == DeclCount(ms, id)
  {
    if ms != [] {
      var before, m := ms[..|ms| - 1], ms[|ms| - 1];
      DropKeepsCount(before, id);
      if Keeps(before, DropOrphans(before), m) { SplitLast(DropOrphans(before), [m]); }
    }
  }

  lemma {:induction false} DropKeepsDeclarations(ms: seq<Message>)
    ensures DeclaredIds(DropOrphans(ms)) == DeclaredIds(ms)
  {
    if ms != [] {
      var before, m := ms[..|ms| - 1], ms[|ms| - 1];
      DropKeepsDeclarations(before);
      if Keeps(before, DropOrphans(before), m) { SplitLast(DropOrphans(before), [m]); }
    }
  }

  lemma {:induction false} FollowSnoc(a: seq<Message>, m: Message)
    ensures ResultsFollowCalls(a + [m]) <==>
            ResultsFollowCalls(a) && (m.Tool? ==> m.callId in DeclaredIds(a))
  {
    var s := a + [m];
    forall i | 0 <= i < |a| ensures s[i] == a[i] && s[..i] == a[..i] {}
    assert s[|a|] == m && s[..|a|] == a;
    if ResultsFollowCalls(s) {
      assert forall i :: 0 <= i < |a| && a[i].Tool? ==> s[i].callId in DeclaredIds(s[..i]);
    }
  }

  /** What is kept is always grounded and answered at most once. */
  lemma {:induction false} DropLeavesNoOrphan(ms: seq<Message>)
    ensures ResultsFollowCalls(DropOrphans(ms))
    ensures OneResultEach(DropOrphans(ms))
  {
    if ms != [] {
      var before, m := ms[..|ms| - 1], ms[|ms| - 1];
      DropLeavesNoOrphan(before);
      var kept := DropOrphans(before);
      if Keeps(before, kept, m) {
        DropKeepsDeclarations(before);
        FollowSnoc(kept, m);
        forall id | id != "" ensures ResultCount(kept + [m], id) <= 1 {
          ResultCountAppend(kept, [m], id);
          AnsweredIffCounted(kept, id);
        }
      }
    }
  }

  /** The repair changes nothing exactly when nothing is wrong. */
  lemma {:induction false} DropIsIdentityIff(ms: seq<Message>)
    ensures DropOrphans(ms) == ms <==> ResultsFollowCalls(ms) && OneResultEach(ms)
  {
    if DropOrphans(ms) == ms {
      DropLeavesNoOrphan(ms);
    }
    if ResultsFollowCalls(ms) && OneResultEach(ms) && ms != [] {
      var before, m := ms[..|ms| - 1], ms[|ms| - 1];
      assert ms == before + [m];
      FollowSnoc(before, m);
      forall id | id != "" ensures ResultCount(before, id) <= 1 {
        ResultCountAppend(before, [m], id);
      }
      DropIsIdentityIff(before);
      if m.Tool? {
        ResultCountAppend(before, [m], m.callId);
        AnsweredIffCounted(before, m.callId);
        DeclaredIffCounted(before, m.callId);
      }
    }
  }

  /** Every declared-before id that has a row somewhere keeps one of its rows. */
  lemma {:induction false} DropKeepsAnAnswer(ms: seq<Message>, i: nat)
    requires i < |ms| && ms[i].Tool? && ms[i].callId in DeclaredIds(ms[..i])
    ensures ms[i].callId in ResultIds(DropOrphans(ms))
  {
    var before, m := ms[..|ms| - 1], ms[|ms| - 1];
    var kept := DropOrphans(before);
    DeclaredIffCounted(ms[..i], ms[i].callId);
    if i == |ms| - 1 {
      assert before == ms[..i];
      if Keeps(before, kept, m) { assert m in kept + [m]; }
    } else {
      assert before[..i] == ms[..i];
      DropKeepsAnAnswer(before, i);
      ResultIdsAppend(kept, [m]);
    }
  }

  /** What a batch repair does to rows appended to a clean transcript: it leaves
      the transcript alone. */
  lemma {:induction false} DropExtendsClean(a: seq<Message>, b: seq<Message>)
    requires DropOrphans(a) == a
    ensures a <= DropOrphans(a + b)
  {
    if b == [] {
      assert a + b == a;
    } else {
      SplitLast(a, b);
      DropExtendsClean(a, b[..|b| - 1]);
    }
  }

  // ---- Back-filling missing results ----

  function Synthetic(c: Call): Message {
    Tool(Text(Texts.Wording(Texts.NoToolResult)), c.id, c.name)
  }

  /** The rows owed to one assistant row, in call order. */
  function Owed(calls: seq<Call>, answered: set<string>): seq<Message> {
    if calls == [] then []
    else (if calls[0].id != "" && calls[0].id !in answered then [Synthetic(calls[0])] else [])
         + Owed(calls[1..], answered)
  }

  function OwedBy(m: Message, answered: set<string>): seq<Message> {
    if m.Assistant? then Owed(m.calls, answered) else []
  }

  /** After each assistant row and the tool rows directly behind it, add the rows
      still owed to it; `due` is what the row before this point is owed. */
  function Fill(ms: seq<Message>, due: seq<Message>, answered: set<string>): seq<Message> {
    if ms == [] then due
    else if ms[0].Tool? then [ms[0]] + Fill(ms[1..], due, answered)
    else due + [ms[0]] + Fill(ms[1..], OwedBy(ms[0], answered), answered)
  }

  function Backfill(ms: seq<Message>): seq<Message> {
    Fill(ms, [], ResultIds(ms))
  }

  ghost predicate AllOwed(due: seq<Message>, declared: set<string>, answered: set<string>) {
    forall m | m in due ::
      m.Tool? && m.content == Text(Texts.Wording(Texts.NoToolResult)) && m.callId in declared && m.callId !in answered
          && m.callId != ""
  }

  lemma {:induction false} OwedShape(calls: seq<Call>, answered: set<string>)
    ensures AllOwed(Owed(calls, answered), CallIdSet(calls), answered)
    ensures forall c | c in calls && c.id != "" && c.id !in answered :: c.id in ResultIds(Owed(calls, answered))
  {
    if calls != [] {
      OwedShape(calls[1..], answered);
      var c := calls[0];
      assert calls == [c] + calls[1..];
      var first := if c.id != "" && c.id !in answered then [Synthetic(c)] else [];
      ResultIdsAppend(first, Owed(calls[1..], answered));
      if first != [] { assert Synthetic(c) in first; }
    }
  }

  lemma {:induction false} OwedCount(calls: seq<Call>, answered: set<string>, id: string)
    requires id != ""
    ensures ResultCount(Owed(calls, answered), id) == if id in answered then 0 else CallCount(calls, id)
  {
    if calls != [] {
      OwedCount(calls[1..], answered, id);
      var c := calls[0];
      var first := if c.id != "" && c.id !in answered then [Synthetic(c)] else [];
      assert calls == [c] + calls[1..];
      CallCountAppend([c], calls[1..], id);
      ResultCountAppend(first, Owed(calls[1..], answered), id);
      assert CallCount([c], id) == if c.id == id then 1 else 0;
      assert ResultCount(first, id) == if first != [] && c.id == id then 1 else 0;
    }
  }

  lemma {:induction false} TwoRowsCountTwo(ms: seq<Message>, i: nat, j: nat)
    requires i < j < |ms| && ms[i].Tool? && ms[j].Tool? && ms[i].callId == ms[j].callId
    ensures ResultCount(ms, ms[i].callId) >= 2
  {
    var id := ms[i].callId;
    assert ms == ms[..j] + [ms[j]] + ms[j + 1..];
    ResultCountAppend(ms[..j] + [ms[j]], ms[j + 1..], id);
    ResultCountAppend(ms[..j], [ms[j]], id);
    RowCounts(ms[..j], i);
  }

  lemma {:induction false} RowCounts(ms: seq<Message>, i: nat)
    requires i < |ms| && ms[i].Tool?
    ensures ResultCount(ms, ms[i].callId) >= 1
  {
    if i < |ms| - 1 {
      assert ms[..|ms| - 1][i] == ms[i];
      RowCounts(ms[..|ms| - 1], i);
    }
  }

  /** Back-filling changes no declaration and adds one row per missing declaration. */
  lemma {:induction false} FillCounts(ms: seq<Message>, due: seq<Message>, answered: set<string>, id: string)
    requires id != ""
    requires forall m | m in due :: m.Tool?
    ensures DeclCount(Fill(ms, due, answered), id) == DeclCount(ms, id)
    ensures ResultCount(Fill(ms, due, answered), id)
         == ResultCount(due, id) + ResultCount(ms, id) + if id in answered then 0 else DeclCount(ms, id)
  {
    ToolsDeclareNothing(due, id);
    if ms == [] {
      assert DeclCount(ms, id) == 0 && ResultCount(ms, id) == 0;
    } else {
      hide DeclCount, ResultCount, OwedBy;
      var m, rest := ms[0], ms[1..];
      assert ms == [] + [m] + rest;
      CountsAround([], m, rest, id);
      if m.Tool? {
        FillCounts(rest, due, answered, id);
        assert [m] + Fill(rest, due, answered) == [] + [m] + Fill(rest, due, answered);
        CountsAround([], m, Fill(rest, due, answered), id);
        ToolsDeclareNothing([m], id);
      } else {
        var owed := OwedBy(m, answered);
        OwedCounts(m, answered, id);
        FillCounts(rest, owed, answered, id);
        CountsAround(due, m, Fill(rest, owed, answered), id);
      }
    }
  }

  lemma CountsAround(a: seq<Message>, m: Message, b: seq<Message>, id: string)
    ensures DeclCount(a + [m] + b, id) == DeclCount(a, id) + DeclCount([m], id) + DeclCount(b, id)
    ensures ResultCount(a + [m] + b, id) == ResultCount(a, id) + ResultCount([m], id) + ResultCount(b, id)
  {
    DeclCountAppend(a + [m], b, id);
    ResultCountAppend(a + [m], b, id);
    DeclCountAppend(a, [m], id);
    ResultCountAppend(a, [m], id);
  }

  /** What a row that is no result owes for an id. */
  lemma OwedCounts(m: Message, answered: set<string>, id: string)
    requires !m.Tool? && id != ""
    ensures forall x | x in OwedBy(m, answered) :: x.Tool?
    ensures ResultCount([m], id) == 0
    ensures ResultCount(OwedBy(m, answered), id) == if id in answered then 0 else DeclCount([m], id)
  {
    if m.Assistant? {
      OwedShape(m.calls, answered);
      OwedCount(m.calls, answered, id);
    }
  }

  lemma {:induction false} ToolsDeclareNothing(due: seq<Message>, id: string)
    requires forall m | m in due :: m.Tool?
    ensures DeclCount(due, id) == 0 && DeclaredIds(due) == {}
  {
    if due != [] {
      assert due[|due| - 1] in due;
      ToolsDeclareNothing(due[..|due| - 1], id);
    }
  }

  /** `ms` is grounded when `declared` has been declared before it. */
  ghost predicate FollowsFrom(declared: set<string>, ms: seq<Message>) {
    forall i | 0 <= i < |ms| && ms[i].Tool? :: ms[i].callId in declared + DeclaredIds(ms[..i])
  }

  lemma {:induction false} FollowsAppend(d: set<string>, a: seq<Message>, b: seq<Message>)
    ensures FollowsFrom(d, a + b) <==> FollowsFrom(d, a) && FollowsFrom(d + DeclaredIds(a), b)
  {
    var s := a + b;
    forall i | 0 <= i < |a| ensures s[i] == a[i] && s[..i] == a[..i] {}
    forall j | 0 <= j < |b|
      ensures s[|a| + j] == b[j] && DeclaredIds(s[..|a| + j]) == DeclaredIds(a) + DeclaredIds(b[..j])
    {
      assert s[..|a| + j] == a + b[..j];
      DeclaredAppend(a, b[..j]);
    }
    if FollowsFrom(d, s) {
      assert forall i :: 0 <= i < |a| && a[i].Tool? ==> s[i].callId in d + DeclaredIds(s[..i]);
      assert forall j :: 0 <= j < |b| && b[j].Tool? ==> s[|a| + j].callId in d + DeclaredIds(s[..|a| + j]);
    }
    if FollowsFrom(d, a) && FollowsFrom(d + DeclaredIds(a), b) {
      forall i | 0 <= i < |s| && s[i].Tool? ensures s[i].callId in d + DeclaredIds(s[..i]) {
        if i >= |a| { assert s[i] == b[i - |a|]; assert s[|a| + (i - |a|)] == b[i - |a|]; }
      }
    }
  }

  lemma {:induction false} FillKeepsOrder(d: set<string>, ms: seq<Message>, due: seq<Message>, answered: set<string>)
    requires FollowsFrom(d, ms) && AllOwed(due, d, answered)
    ensures FollowsFrom(d, Fill(ms, due, answered))
    decreases ms
  {
    if ms != [] {
      var m, rest := ms[0], ms[1..];
      assert ms == [m] + rest;
      FollowsAppend(d, [m], rest);
      var d' := d + DeclaredIds([m]);
      if m.Tool? {
        assert DeclaredIds([m]) == {} && d' == d;
        FillKeepsOrder(d, rest, due, answered);
        FollowsAppend(d, [m], Fill(rest, due, answered));
      } else {
        var owed := OwedBy(m, answered);
        if m.Assistant? { OwedShape(m.calls, answered); }
        assert AllOwed(owed, d', answered);
        FillKeepsOrder(d', rest, owed, answered);
        ToolsDeclareNothing(due, "");
        DeclaredAppend(due, [m]);
        FollowsAppend(d, due + [m], Fill(rest, owed, answered));
        FollowsAppend(d, due, [m]);
      }
    }
  }

  /** The back-filled transcript answers every declared id. */
  lemma {:induction false} BackfillAnswersAll(ms: seq<Message>)
    ensures EveryCallAnswered(Backfill(ms))
    ensures ResultIds(ms) <= ResultIds(Backfill(ms))
  {
    var a, out := ResultIds(ms), Backfill(ms);
    forall id | id in DeclaredIds(out) + a ensures id in ResultIds(out) {
      DeclaredIffCounted(out, id);
      AnsweredIffCounted(ms, id);
      AnsweredIffCounted(out, id);
      if id != "" { FillCounts(ms, [], a, id); }
    }
  }

  lemma {:induction false} FillNothingOwed(ms: seq<Message>, answered: set<string>)
    requires DeclaredIds(ms) <= answered
    ensures Fill(ms, [], answered) == ms
  {
    if ms != [] {
      var m, rest := ms[0], ms[1..];
      assert ms == [m] + rest;
      hide *;
      RowOwedNothing(m, rest, answered);
      FillNothingOwed(rest, answered);
      FillStep(m, rest, answered);
    }
  }

  lemma RowOwedNothing(m: Message, rest: seq<Message>, answered: set<string>)
    requires DeclaredIds([m] + rest) <= answered
    ensures OwedBy(m, answered) == [] && DeclaredIds(rest) <= answered
  {
    DeclaredAppend([m], rest);
    DeclaredSingle(m);
    if m.Assistant? { NothingOwed(m.calls, answered); }
  }

  lemma FillStep(m: Message, rest: seq<Message>, answered: set<string>)
    requires OwedBy(m, answered) == []
    ensures Fill([m] + rest, [], answered) == [m] + Fill(rest, [], answered)
  {
    assert ([m] + rest)[1..] == rest;
    assert [] + [m] == [m];
  }

  lemma DeclaredSingle(m: Message)
    ensures DeclaredIds([m]) == if m.Assistant? then CallIdSet(m.calls) else {}
  {
    assert [m][..0] == [];
  }

  lemma {:induction false} NothingOwed(calls: seq<Call>, answered: set<string>)
    requires CallIdSet(calls) <= answered
    ensures Owed(calls, answered) == []
  {
    if calls != [] {
      assert calls == [calls[0]] + calls[1..];
      assert calls[0].id != "" ==> calls[0].id in CallIdSet(calls);
      forall x | x in CallIdSet(calls[1..]) ensures x in CallIdSet(calls) {}
      NothingOwed(calls[1..], answered);
    }
  }

  /** Back-filling changes nothing exactly when every declared id is answered. */
  lemma {:induction false} BackfillIsIdentityIff(ms: seq<Message>)
    ensures Backfill(ms) == ms <==> EveryCallAnswered(ms)
  {
    if EveryCallAnswered(ms) {
      FillNothingOwed(ms, ResultIds(ms));
    }
    if Backfill(ms) == ms {
      BackfillAnswersAll(ms);
    }
  }

  /** The rows of `ms` without the tool rows whose usable id is not in `answered`. */
  /** A row that says that the result of a call of the transcript is missing. */
  ghost predicate StandsIn(ms: seq<Message>, m: Message) {
    exists a, c :: a in ms && a.Assistant? && c in a.calls && NotesMissing(c, m)
  }

  predicate NotesMissing(c: Call, m: Message) {
    m.Tool? && m.content == Text(Texts.Wording(Texts.NoToolResult)) && m.callId == c.id && m.name == c.name
  }

  lemma {:induction false} OwedNames(calls: seq<Call>, answered: set<string>)
    ensures forall m | m in Owed(calls, answered) :: exists c :: c in calls && NotesMissing(c, m)
  {
    hide Texts.Wording;
    if calls != [] {
      var c := calls[0];
      OwedNames(calls[1..], answered);
      assert NotesMissing(c, Synthetic(c)) && calls == [c] + calls[1..];
      hide NotesMissing;
      forall m | m in Owed(calls, answered) ensures exists c :: c in calls && NotesMissing(c, m) {
        if m in Owed(calls[1..], answered) {
          var d :| d in calls[1..] && NotesMissing(d, m);
          assert d in calls;
        } else {
          assert m == Synthetic(c) && c in calls;
        }
      }
    }
  }

  lemma {:induction false} FilledStandIn(all: seq<Message>, ms: seq<Message>, due: seq<Message>, answered: set<string>)
    requires (forall m | m in due :: StandsIn(all, m)) && forall m | m in ms :: m in all
    ensures forall m | m in Fill(ms, due, answered) :: m in ms || StandsIn(all, m)
  {
    if ms != [] {
      var m, rest := ms[0], ms[1..];
      assert m in ms && forall x | x in rest :: x in ms;
      if m.Tool? {
        hide StandsIn;
        FilledStandIn(all, rest, due, answered);
      } else {
        var owed := OwedBy(m, answered);
        if m.Assistant? { OwedNames(m.calls, answered); }
        assert forall x | x in owed :: StandsIn(all, x) by { hide NotesMissing; }
        hide StandsIn, OwedBy;
        FilledStandIn(all, rest, owed, answered);
      }
    }
  }

  /** Every inserted row has the id and the name of a call of the transcript. */
  lemma BackfillStandsIn(ms: seq<Message>)
    ensures forall m | m in Backfill(ms) :: m in ms || StandsIn(ms, m)
  {
    hide StandsIn;
    FilledStandIn(ms, ms, [], ResultIds(ms));
  }

  function Without(ms: seq<Message>, answered: set<string>): seq<Message> {
    if ms == [] then []
    else (if ms[0].Tool? && ms[0].callId != "" && ms[0].callId !in answered then [] else [ms[0]])
         + Without(ms[1..], answered)
  }

  lemma {:induction false} WithoutAppend(a: seq<Message>, b: seq<Message>, answered: set<string>)
    ensures Without(a + b, answered) == Without(a, answered) + Without(b, answered)
  {
    if a == [] {
      assert a + b == b;
    } else {
      assert (a + b)[0] == a[0] && (a + b)[1..] == a[1..] + b;
      WithoutAppend(a[1..], b, answered);
    }
  }

  lemma {:induction false} WithoutOwed(due: seq<Message>, declared: set<string>, answered: set<string>)
    requires AllOwed(due, declared, answered)
    ensures Without(due, answered) == []
  {
    if due != [] {
      assert due[0] in due;
      WithoutOwed(due[1..], declared, answered);
    }
  }

  lemma {:induction false} FillErased(ms: seq<Message>, due: seq<Message>, d: set<string>, answered: set<string>)
    requires AllOwed(due, d, answered) && ResultIds(ms) <= answered
    ensures Without(Fill(ms, due, answered), answered) == ms
  {
    WithoutOwed(due, d, answered);
    if ms != [] {
      var m, rest := ms[0], ms[1..];
      assert ms == [m] + rest;
      KeptAlone(m, rest, answered);
      if m.Tool? {
        FillErased(rest, due, d, answered);
        WithoutAppend([m], Fill(rest, due, answered), answered);
      } else {
        var owed := OwedBy(m, answered);
        var d' := if m.Assistant? then CallIdSet(m.calls) else {};
        if m.Assistant? { OwedShape(m.calls, answered); }
        assert AllOwed(owed, d', answered);
        assert Fill(ms, due, answered) == due + [m] + Fill(rest, owed, answered);
        hide *;
        FillErased(rest, owed, d', answered);
        WithoutAppend(due + [m], Fill(rest, owed, answered), answered);
        WithoutAppend(due, [m], answered);
        assert [] + [m] == [m];
      }
    }
  }

  lemma KeptAlone(m: Message, rest: seq<Message>, answered: set<string>)
    requires ResultIds([m] + rest) <= answered
    ensures Without([m], answered) == [m] && ResultIds(rest) <= answered
  {
    ResultIdsAppend([m], rest);
    assert m.Tool? && m.callId != "" ==> m.callId in ResultIds([m]);
  }

  /** Back-filling only inserts: deleting the rows of ids that had no result gives
      the input back. */
  lemma {:induction false} BackfillOnlyInserts(ms: seq<Message>)
    ensures Without(Backfill(ms), ResultIds(ms)) == ms
  {
    FillErased(ms, [], {}, ResultIds(ms));
  }

  // ---- Drop, then back-fill ----

  function Repair(ms: seq<Message>): seq<Message> {
    Backfill(DropOrphans(ms))
  }

  /** When is the repaired transcript perfectly paired? It always answers every
      call after the call; an id gets two results exactly when it is declared
      twice and no row of it survives the drop. */
  lemma {:induction false} RepairPairsIff(ms: seq<Message>)
    ensures ResultsFollowCalls(Repair(ms)) && EveryCallAnswered(Repair(ms))
    ensures OneResultEach(Repair(ms)) <==>
            forall id | id != "" && DeclCount(ms, id) >= 2 :: id in ResultIds(DropOrphans(ms))
  {
    var kept := DropOrphans(ms);
    var a, out := ResultIds(kept), Repair(ms);
    DropLeavesNoOrphan(ms);
    DropKeepsDeclarations(ms);
    assert FollowsFrom({}, kept);
    FillKeepsOrder({}, kept, [], a);
    forall i | 0 <= i < |out| && out[i].Tool? ensures out[i].callId in DeclaredIds(out[..i]) {
      assert {} + DeclaredIds(out[..i]) == DeclaredIds(out[..i]);
    }
    BackfillAnswersAll(kept);
    forall id | id != ""
      ensures ResultCount(out, id) == if id in a then 1 else DeclCount(ms, id)
    {
      FillCounts(kept, [], a, id);
      DropKeepsCount(ms, id);
      AnsweredIffCounted(kept, id);
    }
    if OneResultEach(out) {
      forall id | id != "" && DeclCount(ms, id) >= 2 ensures id in a {
        assert ResultCount(out, id) <= 1;
      }
    }
  }

  /** With distinct call ids the repaired transcript is perfectly paired. */
  lemma {:induction false} RepairPairsDistinct(ms: seq<Message>)
    requires DistinctCalls(ms)
    ensures Paired(Repair(ms))
    ensures DistinctCalls(Repair(ms))
  {
    RepairPairsIff(ms);
    forall id | id != "" ensures DeclCount(Repair(ms), id) <= 1 {
      DropKeepsCount(ms, id);
      FillCounts(DropOrphans(ms), [], ResultIds(DropOrphans(ms)), id);
    }
  }

  /** Repairing twice is repairing once exactly when the first repair left no id
      with two results. */
  lemma {:induction false} RepairIdempotentIff(ms: seq<Message>)
    ensures Repair(Repair(ms)) == Repair(ms) <==> OneResultEach(Repair(ms))
  {
    var out := Repair(ms);
    RepairPairsIff(ms);
    DropIsIdentityIff(out);
    if OneResultEach(out) {
      BackfillIsIdentityIff(out);
    } else {
      // Every declared id still has a row after the second drop, so nothing is added back.
      var again := DropOrphans(out);
      DropLeavesNoOrphan(out);
      DropKeepsDeclarations(out);
      forall id | id in DeclaredIds(again) ensures id in ResultIds(again) {
        assert id in ResultIds(out);
        var m :| m in out && m.Tool? && m.callId == id;
        var i :| 0 <= i < |out| && out[i] == m;
        DropKeepsAnAnswer(out, i);
      }
      BackfillIsIdentityIff(again);
    }
  }

  /** The repair is the identity on a perfectly paired transcript. */
  lemma RepairKeepsPaired(ms: seq<Message>)
    requires Paired(ms)
    ensures DropOrphans(ms) == ms && Backfill(ms) == ms && Repair(ms) == ms
  {
    DropIsIdentityIff(ms);
    BackfillIsIdentityIff(ms);
  }

  /** Without distinct ids the pairing really breaks: one id, declared twice and
      never answered, is given two results. */
  lemma {:induction false} TwiceDeclaredIsFilledTwice()
    ensures var a := Assistant(Text(""), [Call("c", "exec")]);
            !DistinctCalls([a, a]) && ResultCount(Repair([a, a]), "c") == 2
  {
    var c := Call("c", "exec");
    var a := Assistant(Text(""), [c]);
    var ms := [a, a];
    var r := ResultIds(ms);
    assert DeclCount(ms, "c") == 2 by {
      assert ms == [a] + [a];
      DeclCountAppend([a], [a], "c");
      assert CallCount([c], "c") == 1;
    }
    assert DropOrphans(ms) == ms by {
      assert ms[..1] == [a];
      assert DropOrphans([a]) == [a];
    }
    assert "c" !in r;
    FillCounts(ms, [], r, "c");
    assert ResultCount(ms, "c") == 0 by {
      ResultCountAppend([a], [a], "c");
      assert ms == [a] + [a];
    }
  }
}
