/** Persisting a turn into the session, and materializing the checkpoint of an
    interrupted one. */
module SessionLog {
  import opened Transcript
  import opened Pairing
  import opened Serving
  import opened Seqs
  import Texts

  /** Shortening and sanitizing of persisted contents are parameters. */
  datatype SaveConfig = SaveConfig(maxChars: nat, truncate: string -> string,
                                   sanitize: (seq<Block>, bool) -> seq<Block>)

  function SavedResult(cfg: SaveConfig, content: Content): Content {
    match content
    case Absent => Absent
    case Text(t) => if |t| > cfg.maxChars then Text(cfg.truncate(t)) else content
    case Blocks(b) =>
      var filtered := cfg.sanitize(b, true);
      Blocks(if filtered == [] then [TextBlock(Texts.Wording(Texts.NotPersisted))] else filtered)
  }

  /** The persisted form of a row; None for a row that is skipped. */
  function SavedRow(cfg: SaveConfig, m: Message): Option<Message> {
    match m
    case System(_) => Some(m)
    case Assistant(content, calls) => if !content.Truthy() && calls == [] then None else Some(m)
    case Tool(content, id, name) => Some(Tool(SavedResult(cfg, content), id, name))
    case User(content, marker, hidden, mergeable) =>
      if content.Blocks? then
        var filtered := cfg.sanitize(content.blocks, false);
        if filtered == [] then None else Some(User(Blocks(filtered), marker, hidden, mergeable))
      else Some(m)
  }

  /** Saving row by row: a result is kept when it would be kept behind what has
      been saved so far. */
  function Saved(cfg: SaveConfig, session: seq<Message>, rows: seq<Message>): seq<Message> {
    if rows == [] then session
    else
      var sofar, m := Saved(cfg, session, rows[..|rows| - 1]), rows[|rows| - 1];
      if !Keeps(sofar, sofar, m) then sofar
      else match SavedRow(cfg, m) { case None => sofar case Some(r) => sofar + [r] }
  }

  /** The persisted forms of all rows. */
  function SavedRows(cfg: SaveConfig, rows: seq<Message>): seq<Message> {
    if rows == [] then []
    else
      var front := SavedRows(cfg, rows[..|rows| - 1]);
      match SavedRow(cfg, rows[|rows| - 1]) { case None => front case Some(r) => front + [r] }
  }

  lemma SavedRowKeepsIds(cfg: SaveConfig, m: Message)
    ensures var r := SavedRow(cfg, m);
            && (r.None? ==> !m.Tool? && DeclaredIds([m]) == {})
            && (r.Some? ==> DeclaredIds([r.value]) == DeclaredIds([m]) && ResultIds([r.value]) == ResultIds([m])
                            && (r.value.Tool? <==> m.Tool?) && (m.Tool? ==> r.value.callId == m.callId))
  {
    DeclaredSingle(m);
    assert m in [m];
    match SavedRow(cfg, m) {
      case None =>
      case Some(r) => DeclaredSingle(r); assert r in [r];
    }
  }

  lemma {:induction false} SavedRowsKeepIds(cfg: SaveConfig, rows: seq<Message>)
    ensures DeclaredIds(SavedRows(cfg, rows)) == DeclaredIds(rows)
    ensures ResultIds(SavedRows(cfg, rows)) == ResultIds(rows)
  {
    if rows != [] {
      var front, m := rows[..|rows| - 1], rows[|rows| - 1];
      assert rows == front + [m];
      SavedRowsKeepIds(cfg, front);
      SavedRowKeepsIds(cfg, m);
      DeclaredAppend(front, [m]);
      ResultIdsAppend(front, [m]);
      if SavedRow(cfg, m).Some? {
        var r := SavedRow(cfg, m).value;
        DeclaredAppend(SavedRows(cfg, front), [r]);
        ResultIdsAppend(SavedRows(cfg, front), [r]);
      } else {
        assert ResultIds([m]) == {};
      }
    }
  }

  lemma {:induction false} DropPrefix(session: seq<Message>, rows: seq<Message>)
    ensures DropOrphans(session) <= DropOrphans(session + rows)
  {
    if rows == [] {
      assert session + rows == session;
    } else {
      SplitLast(session, rows);
      DropPrefix(session, rows[..|rows| - 1]);
    }
  }

  /** The rows that a batch repair of session and new rows keeps of the new ones. */
  function BatchNew(session: seq<Message>, rows: seq<Message>): seq<Message> {
    DropPrefix(session, rows);
    DropOrphans(session + rows)[|DropOrphans(session)|..]
  }

  /** Saving row by row persists what the batch repair keeps of the new rows. */
  ghost predicate SavesAsBatch(cfg: SaveConfig, session: seq<Message>, rows: seq<Message>) {
    Saved(cfg, session, rows) == session + SavedRows(cfg, BatchNew(session, rows))
  }

  lemma {:induction false} SavingFollowsBatch(cfg: SaveConfig, session: seq<Message>, rows: seq<Message>)
    requires ResultIds(session) == ResultIds(DropOrphans(session))
    ensures SavesAsBatch(cfg, session, rows)
  {
    if rows == [] {
      assert session + rows == session && BatchNew(session, rows) == [];
    } else {
      var front, m := rows[..|rows| - 1], rows[|rows| - 1];
      SavingFollowsBatch(cfg, session, front);
      hide Saved, SavedRows, BatchNew, ResultIds, DropOrphans;
      SavingStep(cfg, session, front, m);
      assert rows == front + [m];
    }
  }

  lemma SavingStep(cfg: SaveConfig, session: seq<Message>, front: seq<Message>, m: Message)
    requires ResultIds(session) == ResultIds(DropOrphans(session))
    requires Saved(cfg, session, front) == session + SavedRows(cfg, BatchNew(session, front))
    ensures Saved(cfg, session, front + [m]) == session + SavedRows(cfg, BatchNew(session, front + [m]))
  {
    hide *;
    var added := BatchNew(session, front);
    BatchSnoc(session, front, m);
    SavedSameIds(cfg, session, front, added);
    var sofar := session + SavedRows(cfg, added);
    KeepsSame(session + front, sofar, DropOrphans(session) + added, sofar, m);
    SavedSnoc(cfg, session, front, m);
    SavedRowsSnoc(cfg, added, m);
    Regroup(session, SavedRows(cfg, added), SavedRows(cfg, [m]));
    assert added + [] == added;
  }

  lemma BatchSnoc(session: seq<Message>, front: seq<Message>, m: Message)
    ensures DropOrphans(session + front) == DropOrphans(session) + BatchNew(session, front)
    ensures BatchNew(session, front + [m]) == BatchNew(session, front)
            + if Keeps(session + front, DropOrphans(session) + BatchNew(session, front), m) then [m] else []
  {
    DropPrefix(session, front);
    DropPrefix(session, front + [m]);
    SplitLast(session, front + [m]);
    assert (front + [m])[..|front|] == front;
    hide Keeps;
  }

  lemma KeepsSame(before: seq<Message>, before': seq<Message>, kept: seq<Message>, kept': seq<Message>, m: Message)
    requires DeclaredIds(before) == DeclaredIds(before') && ResultIds(kept) == ResultIds(kept')
    ensures Keeps(before, kept, m) <==> Keeps(before', kept', m)
  {
  }

  lemma SavedSnoc(cfg: SaveConfig, session: seq<Message>, front: seq<Message>, m: Message)
    ensures var sofar := Saved(cfg, session, front);
            Saved(cfg, session, front + [m]) == if Keeps(sofar, sofar, m) then sofar + SavedRows(cfg, [m]) else sofar
  {
    assert (front + [m])[..|front|] == front && [m][..0] == [];
    hide Keeps, SavedRow;
  }

  lemma SavedRowsSnoc(cfg: SaveConfig, front: seq<Message>, m: Message)
    ensures SavedRows(cfg, front + [m]) == SavedRows(cfg, front) + SavedRows(cfg, [m])
  {
    assert (front + [m])[..|front|] == front && [m][..0] == [];
    hide SavedRow;
  }

  lemma SavedSameIds(cfg: SaveConfig, session: seq<Message>, front: seq<Message>, added: seq<Message>)
    requires DropOrphans(session + front) == DropOrphans(session) + added
    requires ResultIds(session) == ResultIds(DropOrphans(session))
    ensures DeclaredIds(session + SavedRows(cfg, added)) == DeclaredIds(session + front)
    ensures ResultIds(session + SavedRows(cfg, added)) == ResultIds(DropOrphans(session) + added)
  {
    DropKeepsDeclarations(session + front);
    DropKeepsDeclarations(session);
    SavedRowsKeepIds(cfg, added);
    DeclaredAppend(DropOrphans(session), added);
    DeclaredAppend(session, SavedRows(cfg, added));
    ResultIdsAppend(DropOrphans(session), added);
    ResultIdsAppend(session, SavedRows(cfg, added));
  }

  /** An id of which the session has rows, but none that the repair keeps: a new call of
      that id keeps its result in the batch and loses it in the row-by-row save. */
  lemma {:induction false} LostResultBlocks(cfg: SaveConfig, session: seq<Message>, id: string)
    requires id in ResultIds(session) && id !in ResultIds(DropOrphans(session))
    ensures var a, t := Assistant(Text(""), [Call(id, "exec")]), Tool(Text("x"), id, "exec");
            BatchNew(session, [a, t]) == [a, t] && Saved(cfg, session, [a, t]) == session + [a]
  {
    var a, t := Assistant(Text(""), [Call(id, "exec")]), Tool(Text("x"), id, "exec");
    var kept := DropOrphans(session);
    assert [a, t][..1] == [a] && [a][..0] == [];
    CallRowDeclares(session, a, id);
    ResultIdsAppend(session, [a]);
    ResultIdsAppend(kept, [a]);
    assert Saved(cfg, session, []) == session && Saved(cfg, session, [a]) == session + [a];
    assert !Keeps(session + [a], session + [a], t);
    SplitLast(session, [a]);
    SplitLast(session, [a, t]);
    assert session + [] == session;
    assert DropOrphans(session + [a]) == kept + [a];
    assert Keeps(session + [a], kept + [a], t);
    DropPrefix(session, [a, t]);
    assert DropOrphans(session + [a, t]) == kept + [a] + [t];
  }

  lemma {:induction false} DroppedResultIds(ms: seq<Message>)
    ensures ResultIds(DropOrphans(ms)) <= ResultIds(ms)
  {
    if ms != [] {
      var front, m := ms[..|ms| - 1], ms[|ms| - 1];
      DroppedResultIds(front);
      assert ms == front + [m];
      ResultIdsAppend(front, [m]);
      ResultIdsAppend(DropOrphans(front), [m]);
    }
  }

  lemma CallRowDeclares(session: seq<Message>, a: Message, id: string)
    requires a.Assistant? && a.calls == [Call(id, "exec")] && id != ""
    ensures id in DeclaredIds(session + [a]) && ResultIds([a]) == {}
  {
    DeclaredAppend(session, [a]);
    DeclaredSingle(a);
    assert a.calls[0] in a.calls;
  }

  lemma BothAreSaved(cfg: SaveConfig, id: string)
    ensures var a, t := Assistant(Text(""), [Call(id, "exec")]), Tool(Text("x"), id, "exec");
            |SavedRows(cfg, [a, t])| == 2
  {
    var a, t := Assistant(Text(""), [Call(id, "exec")]), Tool(Text("x"), id, "exec");
    assert [a, t][..1] == [a] && [a][..0] == [];
    assert SavedRows(cfg, []) == [] && |SavedRows(cfg, [a])| == 1;
  }

  /** For all turns, saving row by row is the batch repair exactly when every id that has
      a result in the session keeps one in the repaired session. */
  lemma SavingIsBatchRepairIff(cfg: SaveConfig, session: seq<Message>)
    ensures (forall rows :: SavesAsBatch(cfg, session, rows)) <==> ResultIds(session) == ResultIds(DropOrphans(session))
  {
    if ResultIds(session) == ResultIds(DropOrphans(session)) {
      forall rows ensures SavesAsBatch(cfg, session, rows) { SavingFollowsBatch(cfg, session, rows); }
    } else {
      DroppedResultIds(session);
      var id :| id in ResultIds(session) && id !in ResultIds(DropOrphans(session));
      var rows := [Assistant(Text(""), [Call(id, "exec")]), Tool(Text("x"), id, "exec")];
      LostResultBlocks(cfg, session, id);
      BothAreSaved(cfg, id);
      assert !SavesAsBatch(cfg, session, rows);
    }
  }

  /** On a session without orphans the two agree on every turn, and the session itself
      stays in front. */
  lemma SavingIsBatchRepair(cfg: SaveConfig, session: seq<Message>, rows: seq<Message>)
    requires DropOrphans(session) == session
    ensures session <= DropOrphans(session + rows)
    ensures Saved(cfg, session, rows) == session + SavedRows(cfg, DropOrphans(session + rows)[|session|..])
  {
    SavingFollowsBatch(cfg, session, rows);
    DropPrefix(session, rows);
  }

  /** The saved session is a fixed point of the repair exactly when it was one before. */
  lemma {:induction false} SavedIsCleanIff(cfg: SaveConfig, session: seq<Message>, rows: seq<Message>)
    ensures DropOrphans(Saved(cfg, session, rows)) == Saved(cfg, session, rows) <==> DropOrphans(session) == session
    ensures session <= Saved(cfg, session, rows)
  {
    if rows != [] {
      var front, m := rows[..|rows| - 1], rows[|rows| - 1];
      SavedIsCleanIff(cfg, session, front);
      var sofar := Saved(cfg, session, front);
      if Keeps(sofar, sofar, m) && SavedRow(cfg, m).Some? {
        var r := SavedRow(cfg, m).value;
        SavedRowKeepsIds(cfg, m);
        assert (sofar + [r])[..|sofar|] == sofar;
        DropShortens(sofar);
      }
    }
  }

  lemma {:induction false} DropShortens(ms: seq<Message>)
    ensures |DropOrphans(ms)| <= |ms|
  {
    if ms != [] { DropShortens(ms[..|ms| - 1]); }
  }

  /** An orphan already in the session costs a later, proper result; a result that is
      merely there twice costs nothing. */
  lemma {:induction false} OrphanBlocksLaterResult(cfg: SaveConfig)
    ensures var t, a := Tool(Text("x"), "c", "exec"), Assistant(Text(""), [Call("c", "exec")]);
            && !SavesAsBatch(cfg, [t], [a, t])
            && DropOrphans([a, t, t]) != [a, t, t] && forall rows :: SavesAsBatch(cfg, [a, t, t], rows)
  {
    var t, a := Tool(Text("x"), "c", "exec"), Assistant(Text(""), [Call("c", "exec")]);
    assert [t][..0] == [] && DropOrphans([t]) == [];
    assert t in [t] && "c" in ResultIds([t]);
    LostResultBlocks(cfg, [t], "c");
    BothAreSaved(cfg, "c");
    DoubledIsNoOrphan(t, a);
    SavingIsBatchRepairIff(cfg, [a, t, t]);
  }

  lemma DoubledIsNoOrphan(t: Message, a: Message)
    requires t.Tool? && a.Assistant? && a.calls == [Call("c", "exec")] && t.callId == "c"
    ensures DropOrphans([a, t, t]) == [a, t] && ResultIds([a, t, t]) == ResultIds(DropOrphans([a, t, t]))
  {
    assert [a, t, t][..2] == [a, t] && [a, t][..1] == [a] && [a][..0] == [];
    CallRowDeclares([], a, "c");
    assert [] + [a] == [a];
    DeclaredAppend([a], [t]);
    assert [a] + [t] == [a, t];
    assert DropOrphans([a]) == [a];
    assert Keeps([a], [a], t);
    assert t in [a, t] && !Keeps([a, t], [a, t], t);
  }

  // ---- What is saved ----

  predicate NoContent(content: Content) {
    content == Absent || content == Text("") || content == Blocks([])
  }

  /** Rows that are never saved: an assistant row without content and calls, and a user
      row of blocks that are all filtered away. */
  predicate Skipped(cfg: SaveConfig, m: Message) {
    || (m.Assistant? && NoContent(m.content) && m.calls == [])
    || (m.User? && m.content.Blocks? && cfg.sanitize(m.content.blocks, false) == [])
  }

  /** What is saved of a result's content: a text unless it is too long, and blocks as
      far as they pass, with a note when none does. */
  predicate PersistsContent(cfg: SaveConfig, content: Content, saved: Content) {
    && (content.Text? && |content.text| > cfg.maxChars ==> saved == Text(cfg.truncate(content.text)))
    && (content.Blocks? ==> saved.Blocks? && saved.blocks != [])
    && (content.Blocks? && cfg.sanitize(content.blocks, true) != [] ==>
          saved.blocks == cfg.sanitize(content.blocks, true))
    && (content.Blocks? && cfg.sanitize(content.blocks, true) == [] ==>
          saved.blocks == [TextBlock(Texts.Wording(Texts.NotPersisted))])
    && (!content.Blocks? && !(content.Text? && |content.text| > cfg.maxChars) ==> saved == content)
  }

  /** `r` is what is saved of `m`: a result keeps its id and name, a user row of blocks
      those that pass, and every other row is saved unchanged. */
  predicate Persists(cfg: SaveConfig, m: Message, r: Message) {
    match m
    case Tool(content, id, name) =>
      r.Tool? && r.callId == id && r.name == name && PersistsContent(cfg, content, r.content)
    case User(Blocks(blocks), marker, hidden, mergeable) =>
      r == User(Blocks(cfg.sanitize(blocks, false)), marker, hidden, mergeable)
    case _ => r == m
  }

  /** Whether row `i` is saved when the rows `at` are: a result exactly when its call was
      declared before it and it is the first result of that id. */
  ghost predicate SavedHere(cfg: SaveConfig, session: seq<Message>, rows: seq<Message>, at: seq<nat>, i: nat)
    requires i < |rows|
  {
    var m := rows[i];
    if m.Tool? then
      && m.callId in DeclaredIds(session + rows[..i]) && m.callId !in ResultIds(session)
      && forall j | j in at && j < i && rows[j].Tool? :: rows[j].callId != m.callId
    else !Skipped(cfg, m)
  }

  /** `out` is the session and, in turn order, what is saved of the rows at `at`. */
  ghost predicate SavedAt(cfg: SaveConfig, session: seq<Message>, rows: seq<Message>, at: seq<nat>, out: seq<Message>) {
    && session <= out && |out| == |session| + |at|
    && (forall k | 0 <= k < |at| :: at[k] < |rows| && Persists(cfg, rows[at[k]], out[|session| + k]))
    && (forall j, k | 0 <= j < k < |at| :: at[j] < at[k])
    && (forall i | 0 <= i < |rows| :: i in at <==> SavedHere(cfg, session, rows, at, i))
  }

  ghost predicate SavedTurn(cfg: SaveConfig, session: seq<Message>, rows: seq<Message>, out: seq<Message>) {
    exists at :: SavedAt(cfg, session, rows, at, out)
  }

  lemma SavedRowPersists(cfg: SaveConfig, m: Message)
    ensures var r := SavedRow(cfg, m);
            if r.None? then Skipped(cfg, m) else !Skipped(cfg, m) && Persists(cfg, m, r.value)
  {
    hide Texts.Wording;
  }

  lemma {:induction false} SavedDeclares(cfg: SaveConfig, session: seq<Message>, rows: seq<Message>)
    ensures DeclaredIds(Saved(cfg, session, rows)) == DeclaredIds(session + rows)
  {
    hide *;
    if rows == [] {
      SavedNothing(cfg, session);
      assert session + rows == session;
    } else {
      var front, m := rows[..|rows| - 1], rows[|rows| - 1];
      SavedDeclares(cfg, session, front);
      SavedDeclaresStep(cfg, session, front, m);
      assert front + [m] == rows;
    }
  }

  lemma SavedDeclaresStep(cfg: SaveConfig, session: seq<Message>, front: seq<Message>, m: Message)
    requires DeclaredIds(Saved(cfg, session, front)) == DeclaredIds(session + front)
    ensures DeclaredIds(Saved(cfg, session, front + [m])) == DeclaredIds(session + (front + [m]))
  {
    var sofar := Saved(cfg, session, front);
    assert !m.Tool? ==> Keeps(sofar, sofar, m);
    DeclaredSingle(m);
    hide *;
    SavedSnoc(cfg, session, front, m);
    SavedRowsKeepIds(cfg, [m]);
    DeclaredAppend(sofar, SavedRows(cfg, [m]));
    DeclaredAppend(session + front, [m]);
    Regroup(session, front, [m]);
  }

  /** The results behind the session are those of the saved rows. */
  lemma SavedResults(cfg: SaveConfig, session: seq<Message>, rows: seq<Message>, at: seq<nat>, out: seq<Message>,
                     id: string)
    requires SavedAt(cfg, session, rows, at, out) && id != ""
    ensures id in ResultIds(out) <==>
            id in ResultIds(session) || exists j :: j in at && rows[j].Tool? && rows[j].callId == id
  {
    hide SavedHere, PersistsContent;
    var added := out[|session|..];
    assert out == session + added;
    ResultIdsAppend(session, added);
    if id in ResultIds(added) {
      var m :| m in added && m.Tool? && m.callId == id;
      var k :| 0 <= k < |added| && added[k] == m;
      assert Persists(cfg, rows[at[k]], out[|session| + k]) && at[k] in at;
    }
    if j :| j in at && rows[j].Tool? && rows[j].callId == id {
      var k :| 0 <= k < |at| && at[k] == j;
      assert Persists(cfg, rows[at[k]], out[|session| + k]) && added[k] == out[|session| + k];
      assert added[k] in added;
    }
  }

  /** Saving a turn: which rows are saved, as what, and that they come in turn order. */
  lemma {:induction false} SavesInOrder(cfg: SaveConfig, session: seq<Message>, rows: seq<Message>)
    returns (at: seq<nat>)
    ensures SavedAt(cfg, session, rows, at, Saved(cfg, session, rows))
  {
    at := [];
    if rows != [] {
      var front, m := rows[..|rows| - 1], rows[|rows| - 1];
      at := SavesInOrder(cfg, session, front);
      var sofar := Saved(cfg, session, front);
      SavedDeclares(cfg, session, front);
      SavedRowPersists(cfg, m);
      DeclaredIffCounted(sofar, "");
      if m.Tool? && m.callId != "" { SavedResults(cfg, session, front, at, sofar, m.callId); }
      hide Persists, Skipped, SavedRow, SavedAt;
      assert front + [m] == rows && rows[..|front|] == front;
      assert Keeps(sofar, sofar, m) && SavedRow(cfg, m).Some? <==> SavedHere(cfg, session, rows, at, |front|);
      if Keeps(sofar, sofar, m) && SavedRow(cfg, m).Some? {
        SavedAtSnoc(cfg, session, front, at, sofar, m, SavedRow(cfg, m).value);
        at := at + [|front|];
      } else {
        SavedAtSnoc(cfg, session, front, at, sofar, m, m);
      }
    }
  }

  lemma SavedAtSnoc(cfg: SaveConfig, session: seq<Message>, front: seq<Message>, at: seq<nat>, sofar: seq<Message>,
                    m: Message, r: Message)
    requires SavedAt(cfg, session, front, at, sofar)
    ensures !SavedHere(cfg, session, front + [m], at, |front|) ==> SavedAt(cfg, session, front + [m], at, sofar)
    ensures SavedHere(cfg, session, front + [m], at, |front|) && Persists(cfg, m, r) ==>
              SavedAt(cfg, session, front + [m], at + [|front|], sofar + [r])
  {
    hide Skipped, Persists;
    var rows, more := front + [m], at + [|front|];
    assert forall j | j in at :: j < |front|;
    assert forall j :: j in more <==> j in at || j == |front|;
    forall i | 0 <= i <= |front|
      ensures SavedHere(cfg, session, rows, more, i) == SavedHere(cfg, session, rows, at, i)
      ensures i < |front| ==> SavedHere(cfg, session, rows, at, i) == SavedHere(cfg, session, front, at, i)
    {
      if i < |front| { assert rows[..i] == front[..i]; }
    }
  }

  /** Every row but the skipped ones is saved, in order. */
  ghost predicate WholeAt(cfg: SaveConfig, rows: seq<Message>, at: seq<nat>, saved: seq<Message>) {
    && |saved| == |at|
    && (forall k | 0 <= k < |at| :: at[k] < |rows| && Persists(cfg, rows[at[k]], saved[k]))
    && (forall j, k | 0 <= j < k < |at| :: at[j] < at[k])
    && (forall i | 0 <= i < |rows| :: i in at <==> !Skipped(cfg, rows[i]))
  }

  ghost predicate SavedWhole(cfg: SaveConfig, rows: seq<Message>, saved: seq<Message>) {
    exists at :: WholeAt(cfg, rows, at, saved)
  }

  lemma PairedIsSavedWhole(cfg: SaveConfig, session: seq<Message>, rows: seq<Message>)
    requires ResultsFollowCalls(session + rows) && OneResultEach(session + rows)
    ensures session <= Saved(cfg, session, rows) && SavedWhole(cfg, rows, Saved(cfg, session, rows)[|session|..])
  {
    var at := SavesInOrder(cfg, session, rows);
    var out, all := Saved(cfg, session, rows), session + rows;
    hide Saved, Skipped, Persists, OneResultEach;
    forall i | 0 <= i < |rows| && rows[i].Tool? ensures SavedHere(cfg, session, rows, at, i) {
      FirstResult(session, rows, i);
    }
    assert WholeAt(cfg, rows, at, out[|session|..]) by {
      assert forall i | 0 <= i < |rows| && rows[i].Tool? :: !Skipped(cfg, rows[i]) by { ResultsAreNotSkipped(cfg); }
    }
  }

  lemma ResultsAreNotSkipped(cfg: SaveConfig)
    ensures forall m: Message | m.Tool? :: !Skipped(cfg, m)
  {
  }

  lemma FirstResult(session: seq<Message>, rows: seq<Message>, i: nat)
    requires ResultsFollowCalls(session + rows) && OneResultEach(session + rows) && i < |rows| && rows[i].Tool?
    ensures rows[i].callId in DeclaredIds(session + rows[..i]) && rows[i].callId !in ResultIds(session)
    ensures forall j | 0 <= j < i && rows[j].Tool? :: rows[j].callId != rows[i].callId
  {
    var all, n := session + rows, |session|;
    assert all[n + i] == rows[i] && all[..n + i] == session + rows[..i];
    DeclaredIffCounted(session + rows[..i], "");
    hide DeclaredIds, ResultCount;
    if m :| m in session && m.Tool? && m.callId == rows[i].callId {
      var k :| 0 <= k < n && session[k] == m;
      assert all[k] == m;
      TwoRowsCountTwo(all, k, n + i);
    }
    forall j | 0 <= j < i && rows[j].Tool? ensures rows[j].callId != rows[i].callId {
      assert all[n + j] == rows[j];
      if rows[j].callId == rows[i].callId { TwoRowsCountTwo(all, n + j, n + i); }
    }
  }

  /** A runner-shaped turn with fresh usable ids is saved whole and leaves a paired
      session paired. */
  lemma {:induction false} ServedTurnIsSavedWhole(cfg: SaveConfig, session: seq<Message>, rows: seq<Message>)
    requires Paired(session) && Served(rows) && UsableCalls(rows) && DistinctCalls(session + rows)
    ensures Saved(cfg, session, rows) == session + SavedRows(cfg, rows)
    ensures session <= Saved(cfg, session, rows) && SavedWhole(cfg, rows, Saved(cfg, session, rows)[|session|..])
    ensures DropOrphans(Saved(cfg, session, rows)) == Saved(cfg, session, rows)
    ensures EveryCallAnswered(Saved(cfg, session, rows))
  {
    hide SavedWhole, Saved;
    ServedKeepsPaired(session, rows);
    PairedIsSavedWhole(cfg, session, rows);
    RepairKeepsPaired(session + rows);
    RepairKeepsPaired(session);
    SavingIsBatchRepair(cfg, session, rows);
    SavedIsCleanIff(cfg, session, rows);
    SavedRowsKeepIds(cfg, rows);
    assert (session + rows)[|session|..] == rows;
    DeclaredAppend(session, rows);
    DeclaredAppend(session, SavedRows(cfg, rows));
    ResultIdsAppend(session, rows);
    ResultIdsAppend(session, SavedRows(cfg, rows));
  }

  // ---- Checkpoints ----

  datatype Checkpoint = Checkpoint(assistant: Option<Message>, completed: seq<Message>, pending: seq<Call>)

  function Interrupted(c: Call): Message {
    Tool(Text(Texts.Wording(Texts.ToolInterrupted)), c.id, if c.name != "" then c.name else "tool")
  }

  function Interruptions(pending: seq<Call>): seq<Message> {
    seq(|pending|, i requires 0 <= i < |pending| => Interrupted(pending[i]))
  }

  /** The rows the checkpoint stands for. */
  function RestoredRows(cp: Checkpoint): seq<Message> {
    (if cp.assistant.Some? then [cp.assistant.value] else []) + cp.completed + Interruptions(cp.pending)
  }

  predicate Overlaps(session: seq<Message>, rows: seq<Message>, size: nat) {
    size <= |session| && size <= |rows| && session[|session| - size..] == rows[..size]
  }

  /** The longest overlap of at most `size` rows between the end of the session and
      the start of the restored rows. */
  function OverlapUpTo(session: seq<Message>, rows: seq<Message>, size: nat): (overlap: nat)
    requires size <= |session| && size <= |rows|
    ensures overlap <= size && Overlaps(session, rows, overlap)
    ensures forall k | overlap < k <= size :: !Overlaps(session, rows, k)
  {
    if size == 0 then 0 else if Overlaps(session, rows, size) then size else OverlapUpTo(session, rows, size - 1)
  }

  function Overlap(session: seq<Message>, rows: seq<Message>): nat {
    OverlapUpTo(session, rows, if |session| <= |rows| then |session| else |rows|)
  }

  function Restored(session: seq<Message>, cp: Checkpoint): seq<Message> {
    session + RestoredRows(cp)[Overlap(session, RestoredRows(cp))..]
  }

  ghost predicate EndsIn(ms: seq<Message>, rows: seq<Message>) {
    |rows| <= |ms| && ms[|ms| - |rows|..] == rows
  }

  /** For each pending call, in order, a result that says that it was interrupted. */
  predicate ClosesAll(pending: seq<Call>, rows: seq<Message>) {
    && |rows| == |pending|
    && forall i | 0 <= i < |pending| ::
         var c := pending[i];
         && rows[i].Tool? && rows[i].content == Text(Texts.Wording(Texts.ToolInterrupted)) && rows[i].callId == c.id
         && (c.name != "" ==> rows[i].name == c.name) && (c.name == "" ==> rows[i].name == "tool")
  }

  /** The rows are the call row, the results that were there, and one for each pending call. */
  ghost predicate StandsFor(cp: Checkpoint, rows: seq<Message>) {
    exists closed ::
      && ClosesAll(cp.pending, closed)
      && rows == (if cp.assistant.Some? then [cp.assistant.value] else []) + cp.completed + closed
  }

  lemma RestoredRowsStand(cp: Checkpoint)
    ensures StandsFor(cp, RestoredRows(cp))
  {
    assert ClosesAll(cp.pending, Interruptions(cp.pending)) by { hide Texts.Wording; }
    hide Interruptions, ClosesAll;
  }

  /** The restored history ends with the whole group; nothing shorter could have
      been appended to make it so; and restoring again adds nothing. */
  lemma RestoreIsLeast(session: seq<Message>, cp: Checkpoint)
    ensures StandsFor(cp, RestoredRows(cp))
    ensures EndsIn(Restored(session, cp), RestoredRows(cp))
    ensures forall x: seq<Message> | EndsIn(session + x, RestoredRows(cp)) ::
              |session + x| >= |Restored(session, cp)|
    ensures Restored(Restored(session, cp), cp) == Restored(session, cp)
  {
    var rows, out := RestoredRows(cp), Restored(session, cp);
    RestoredEnds(session, cp);
    RestoredRowsStand(cp);
    hide RestoredRows, Restored, Overlap, StandsFor;
    forall x: seq<Message> | EndsIn(session + x, rows) ensures |session + x| >= |out| {
      if |x| < |rows| { ShorterOverlaps(session, x, rows); }
    }
    hide *;
    RestoresOnce(out, cp);
  }

  lemma RestoredEnds(session: seq<Message>, cp: Checkpoint)
    ensures var rows := RestoredRows(cp);
            var n := Overlap(session, rows);
            && EndsIn(Restored(session, cp), rows)
            && |Restored(session, cp)| == |session| + |rows| - n
            && forall k: nat | n < k :: !Overlaps(session, rows, k)
  {
    hide RestoredRows;
    var rows := RestoredRows(cp);
    Unoverlapped(session, rows, Overlap(session, rows));
  }

  lemma Unoverlapped(session: seq<Message>, rows: seq<Message>, n: nat)
    requires Overlaps(session, rows, n)
    ensures EndsIn(session + rows[n..], rows)
  {
    assert session + rows[n..] == session[..|session| - n] + (rows[..n] + rows[n..]);
    assert rows == rows[..n] + rows[n..];
  }

  lemma RestoresOnce(session: seq<Message>, cp: Checkpoint)
    requires EndsIn(session, RestoredRows(cp))
    ensures Restored(session, cp) == session
  {
    hide RestoredRows;
    var rows := RestoredRows(cp);
    assert Overlaps(session, rows, |rows|);
    assert session + rows[|rows|..] == session;
  }

  lemma ShorterOverlaps(session: seq<Message>, x: seq<Message>, rows: seq<Message>)
    requires EndsIn(session + x, rows) && |x| < |rows|
    ensures Overlaps(session, rows, |rows| - |x|)
  {
    var k, whole := |rows| - |x|, session + x;
    assert whole[|whole| - |rows|..] == session[|session| - k..] + x;
    assert (session[|session| - k..] + x)[..k] == session[|session| - k..];
  }

  /** What the runner checkpoints: its assistant row, and for each of its calls, in
      order, either the result or the call as pending. */
  ghost predicate RunnerShaped(cp: Checkpoint) {
    && cp.assistant.Some? && cp.assistant.value.Assistant?
    && var calls := cp.assistant.value.calls;
       && |cp.completed| + |cp.pending| == |calls|
       && AnswersInOrder(calls[..|cp.completed|], cp.completed)
       && cp.pending == calls[|cp.completed|..]
  }

  ghost predicate UsableNames(cp: Checkpoint) {
    cp.assistant.Some? && cp.assistant.value.Assistant? ==>
      forall c | c in cp.assistant.value.calls :: c.id != "" && c.name != ""
  }

  lemma RunnerShapedIsServed(cp: Checkpoint)
    requires RunnerShaped(cp) && UsableNames(cp)
    ensures Served(RestoredRows(cp)) && UsableCalls(RestoredRows(cp))
    ensures RestoredRows(cp)[0] == cp.assistant.value
    ensures forall i | 0 < i < |RestoredRows(cp)| :: RestoredRows(cp)[i].Tool?
  {
    hide Texts.Wording;
    var a, rows := cp.assistant.value, RestoredRows(cp);
    var answers := cp.completed + Interruptions(cp.pending);
    assert rows == [a] + answers;
    forall i | 0 <= i < |a.calls|
      ensures answers[i].Tool? && answers[i].callId == a.calls[i].id && answers[i].name == a.calls[i].name
    {
      assert a.calls[i] in a.calls;
      if i < |cp.completed| {
        assert a.calls[..|cp.completed|][i] == a.calls[i];
      } else {
        assert cp.pending[i - |cp.completed|] == a.calls[i];
      }
    }
    ServedGroup(a, answers);
    forall i | 0 < i < |rows| ensures rows[i].Tool? { assert rows[i] == answers[i - 1]; }
  }

  /** One call row, then only results. */
  ghost predicate IsGroup(rows: seq<Message>) {
    rows != [] && !rows[0].Tool? && forall i | 0 < i < |rows| :: rows[i].Tool?
  }

  /** The group's first row cannot be among its results. */
  lemma NoLongerOverlap(base: seq<Message>, rows: seq<Message>, k: nat, n: nat)
    requires IsGroup(rows) && 0 < k < n && k <= |rows|
    ensures !Overlaps(base + rows[..k], rows, n)
  {
    var session := base + rows[..k];
    if n <= |session| && n <= |rows| {
      var i := |session| - n;
      assert session[i..][n - k] == rows[0];
      assert rows[..n][n - k].Tool?;
    }
  }

  /** The overlap is what had reached the session, or, when nothing had, a group start
      with which the session happens to end. */
  lemma OverlapIsExactIff(base: seq<Message>, rows: seq<Message>, k: nat)
    requires IsGroup(rows) && k <= |rows|
    ensures Overlap(base + rows[..k], rows) >= k
    ensures Overlap(base + rows[..k], rows) == k <==> k > 0 || forall n | 0 < n <= |rows| :: !EndsIn(base, rows[..n])
  {
    var session := base + rows[..k];
    assert session[|session| - k..] == rows[..k];
    assert Overlaps(session, rows, k);
    var n := Overlap(session, rows);
    if k > 0 {
      if n > k { NoLongerOverlap(base, rows, k, n); }
    } else {
      assert session == base;
      forall m: nat | 0 < m <= |rows| ensures EndsIn(base, rows[..m]) <==> Overlaps(base, rows, m) {}
      if n > 0 { assert EndsIn(base, rows[..n]); }
    }
  }

  lemma GroupOf(cp: Checkpoint)
    requires RunnerShaped(cp) && UsableNames(cp)
    ensures IsGroup(RestoredRows(cp))
  {
    RunnerShapedIsServed(cp);
  }

  /** The session does not happen to end with a start of the group. */
  ghost predicate NotStarted(base: seq<Message>, rows: seq<Message>) {
    forall n | 0 < n <= |rows| :: !EndsIn(base, rows[..n])
  }

  /** When the rows that had reached the session are those of the group, restoring completes
      the group; unless none had and the session ends with a start of the group all the
      same, which is then taken for it. */
  lemma PrefixIsCompletedIff(base: seq<Message>, cp: Checkpoint, k: nat)
    requires RunnerShaped(cp) && UsableNames(cp) && k <= |RestoredRows(cp)|
    ensures Restored(base + RestoredRows(cp)[..k], cp) == base + RestoredRows(cp) <==>
            k > 0 || NotStarted(base, RestoredRows(cp))
  {
    var rows := RestoredRows(cp);
    var n := Overlap(base + rows[..k], rows);
    GroupOf(cp);
    OverlapIsExactIff(base, rows, k);
    RestoredIs(base + rows[..k], cp);
    hide RestoredRows, Overlap, Restored, EndsIn, RunnerShaped, UsableNames, IsGroup;
    if n == k {
      Rejoin(base, rows, k);
    } else {
      assert |base + rows[..k] + rows[n..]| < |base + rows|;
    }
  }

  /** No row is skipped, shortened or filtered when it is saved. */
  ghost predicate SavedAsIs(cfg: SaveConfig, rows: seq<Message>) {
    forall m | m in rows :: SavedRow(cfg, m) == Some(m)
  }

  lemma {:induction false} SavedAsIsIff(cfg: SaveConfig, rows: seq<Message>)
    ensures |SavedRows(cfg, rows)| <= |rows|
    ensures SavedRows(cfg, rows) == rows <==> SavedAsIs(cfg, rows)
  {
    if rows != [] {
      var front, m := rows[..|rows| - 1], rows[|rows| - 1];
      SavedAsIsIff(cfg, front);
      hide SavedRow;
      assert rows == front + [m] && m in rows;
      assert forall x | x in front :: x in rows;
      if SavedRows(cfg, rows) == rows && SavedRow(cfg, m).Some? {
        assert rows[..|front|] == SavedRows(cfg, front);
      }
    }
  }

  /** The persisted forms of a prefix of a group: nothing, for a reply without text, or as
      many rows, of which the first is the call row itself. */
  lemma {:induction false} SavedPrefixIs(cfg: SaveConfig, rows: seq<Message>, k: nat)
    requires IsGroup(rows) && rows[0].Assistant? && k <= |rows|
    requires |rows| > 1 ==> rows[0].calls != []
    ensures var saved := SavedRows(cfg, rows[..k]);
            saved == [] || (|saved| == k && saved[0] == rows[0]
                            && forall i | 0 < i < k :: saved[i].Tool? && saved[i].callId == rows[i].callId)
    ensures k > 1 ==> SavedRows(cfg, rows[..k]) != []
    ensures |SavedRows(cfg, rows[..k])| == 1 ==> SavedRows(cfg, rows[..k]) == rows[..k]
  {
    if k > 0 {
      assert rows[..k][..k - 1] == rows[..k - 1];
      SavedPrefixIs(cfg, rows, k - 1);
    }
  }

  lemma GroupHasCalls(cp: Checkpoint)
    requires RunnerShaped(cp) && UsableNames(cp)
    ensures var rows := RestoredRows(cp);
            && IsGroup(rows) && rows[0] == cp.assistant.value && |rows| == 1 + |rows[0].calls|
            && forall i | 0 < i < |rows| :: rows[i].callId == rows[0].calls[i - 1].id
  {
    RunnerShapedIsServed(cp);
    hide Interrupted;
    var rows := RestoredRows(cp);
    assert AnswersInOrder(rows[0].calls, rows[1..1 + |rows[0].calls|]);
    forall i | 0 < i < |rows| ensures rows[i].callId == rows[0].calls[i - 1].id {
      assert rows[1..1 + |rows[0].calls|][i - 1] == rows[i];
    }
  }

  /** However much of the group had been saved, restoring completes exactly the group if and
      only if the saved rows are the group's own, or none was saved and the session does not
      end with a start of the group. */
  lemma RestoreCompletesGroup(cfg: SaveConfig, base: seq<Message>, cp: Checkpoint, k: nat)
    requires RunnerShaped(cp) && UsableNames(cp) && k <= |RestoredRows(cp)|
    ensures var rows, saved := RestoredRows(cp), SavedRows(cfg, RestoredRows(cp)[..k]);
            Restored(base + saved, cp) == base + rows <==>
            if saved == [] then NotStarted(base, rows) else SavedAsIs(cfg, rows[..k])
  {
    var rows, saved := RestoredRows(cp), SavedRows(cfg, RestoredRows(cp)[..k]);
    GroupHasCalls(cp);
    SavedPrefixIs(cfg, rows, k);
    SavedAsIsIff(cfg, rows[..k]);
    PrefixIsCompletedIff(base, cp, if saved == [] then 0 else k);
    assert base + saved == if saved == [] then base + rows[..0] else base + saved;
    RestoredIs(base + saved, cp);
    hide RestoredRows, Overlap, Restored, EndsIn, RunnerShaped, UsableNames, IsGroup, SavedRows, SavedAsIs, NotStarted;
    if saved != [] && saved != rows[..k] {
      OtherRowsStay(base, saved, rows, k, Overlap(base + saved, rows));
    }
  }

  /** Rows that are not the group's own stay in front of what is appended. */
  lemma OtherRowsStay(base: seq<Message>, saved: seq<Message>, rows: seq<Message>, k: nat, n: nat)
    requires k <= |rows| && n <= |rows| && |saved| == k
    ensures base + saved + rows[n..] == base + rows ==> saved == rows[..k]
  {
    if base + saved + rows[n..] == base + rows {
      assert (base + saved + rows[n..])[|base|..|base| + k] == saved;
      assert (base + rows)[|base|..|base| + k] == rows[..k];
    }
  }

  /** So a repeated final reply is swallowed. */
  lemma {:induction false} RepeatedReplyIsSwallowed(base: seq<Message>, a: Message)
    requires base != [] && base[|base| - 1] == a && a.Assistant? && a.calls == []
    ensures var cp := Checkpoint(Some(a), [], []);
            RunnerShaped(cp) && Restored(base, cp) == base
  {
    var cp := Checkpoint(Some(a), [], []);
    var rows := RestoredRows(cp);
    assert rows == [a] && base + rows[..0] == base;
    assert EndsIn(base, rows[..1]);
    GroupOf(cp);
    OverlapIsExactIff(base, rows, 0);
    assert rows[1..] == [] && Overlap(base, rows) == 1;
    RestoredIs(base, cp);
  }

  lemma RestoredReplyIs(session: seq<Message>, cp: Checkpoint, a: Message)
    requires RestoredRows(cp) == [a]
    ensures Restored(session, cp) == if EndsIn(session, [a]) then session else session + [a]
  {
    RestoredIs(session, cp);
    hide RestoredRows, Restored;
    assert [a][..1] == [a];
    assert EndsIn(session, [a]) <==> Overlaps(session, [a], 1);
  }

  lemma NewGroupIsAppended(session: seq<Message>, cp: Checkpoint, a: Message)
    requires cp.assistant == Some(a) && a !in session
    ensures Restored(session, cp) == session + RestoredRows(cp)
  {
    var rows := RestoredRows(cp);
    assert rows != [] && rows[0] == a;
    RestoredIs(session, cp);
    hide RestoredRows, Restored;
    OverlapStartsInside(session, rows);
    assert rows[0..] == rows;
  }

  lemma OverlapStartsInside(session: seq<Message>, rows: seq<Message>)
    ensures Overlap(session, rows) > 0 ==> rows != [] && rows[0] in session
  {
    var n := Overlap(session, rows);
    if n > 0 { assert session[|session| - n..][0] == rows[..n][0]; }
  }

  lemma RestoredIs(session: seq<Message>, cp: Checkpoint)
    ensures Restored(session, cp) == session + RestoredRows(cp)[Overlap(session, RestoredRows(cp))..]
  {
    hide RestoredRows, Overlap;
  }

  /** Behind the group's own rows, or none of them, restoring keeps a paired history with
      fresh ids paired and leaves every call of the group with exactly one result. */
  lemma {:induction false} PrefixStaysPaired(base: seq<Message>, cp: Checkpoint, k: nat)
    requires RunnerShaped(cp) && UsableNames(cp) && k <= |RestoredRows(cp)|
    requires Paired(base) && DistinctCalls(base + RestoredRows(cp))
    ensures var out := Restored(base + RestoredRows(cp)[..k], cp);
            && Paired(out)
            && forall c | c in cp.assistant.value.calls :: ResultCount(out, c.id) == 1
  {
    var a, rows := cp.assistant.value, RestoredRows(cp);
    RunnerShapedIsServed(cp);
    PrefixIsCompletedIff(base, cp, k);
    var out := Restored(base + rows[..k], cp);
    if out == base + rows {
      ServedKeepsPaired(base, rows);
      forall c | c in a.calls ensures ResultCount(out, c.id) == 1 {
        assert a in base + rows;
        AnsweredOnce(base + rows, a, c);
      }
    } else {
      var n :| 0 < n <= |rows| && EndsIn(base, rows[..n]);
      assert rows[..n][0] == a && base[|base| - n] == a;
      FreshCallRow(base, rows, a);
      assert rows == [a];
      assert base + rows[..0] == base && rows[..1] == rows;
      RepeatedReplyIsSwallowed(base, a);
      assert RestoredRows(Checkpoint(Some(a), [], [])) == rows;
      SameRows(base, cp, Checkpoint(Some(a), [], []));
    }
  }

  /** However much of a group with fresh ids had been saved, restoring keeps a paired history
      paired, with one result for each call, if and only if the saved rows are the group's
      own; if not, the whole group is appended a second time. */
  lemma {:induction false} RestoredGroupIsPaired(cfg: SaveConfig, base: seq<Message>, cp: Checkpoint, k: nat)
    requires RunnerShaped(cp) && UsableNames(cp) && k <= |RestoredRows(cp)|
    requires Paired(base) && DistinctCalls(base + RestoredRows(cp))
    ensures var rows, saved := RestoredRows(cp), SavedRows(cfg, RestoredRows(cp)[..k]);
            var out := Restored(base + saved, cp);
            && (Paired(out) <==> saved == [] || SavedAsIs(cfg, rows[..k]))
            && (Paired(out) ==> forall c | c in cp.assistant.value.calls :: ResultCount(out, c.id) == 1)
            && (!Paired(out) ==> out == base + saved + rows)
  {
    var rows, saved := RestoredRows(cp), SavedRows(cfg, RestoredRows(cp)[..k]);
    SavedAsIsIff(cfg, rows[..k]);
    hide *;
    if saved == [] {
      PrefixStaysPaired(base, cp, 0);
      assert rows[..0] == [];
    } else if saved == rows[..k] {
      PrefixStaysPaired(base, cp, k);
    } else {
      GroupComesTwice(cfg, base, cp, k);
    }
  }

  lemma GroupComesTwice(cfg: SaveConfig, base: seq<Message>, cp: Checkpoint, k: nat)
    requires RunnerShaped(cp) && UsableNames(cp) && k <= |RestoredRows(cp)| && DistinctCalls(base + RestoredRows(cp))
    requires var saved := SavedRows(cfg, RestoredRows(cp)[..k]); saved != [] && saved != RestoredRows(cp)[..k]
    ensures var rows, saved := RestoredRows(cp), SavedRows(cfg, RestoredRows(cp)[..k]);
            Restored(base + saved, cp) == base + saved + rows && !Paired(base + saved + rows)
  {
    var a, rows, saved := cp.assistant.value, RestoredRows(cp), SavedRows(cfg, RestoredRows(cp)[..k]);
    GroupHasCalls(cp);
    SavedPrefixIs(cfg, rows, k);
    hide RestoredRows, SavedRows, Restored, RunnerShaped, DistinctCalls, Paired;
    NoOverlap(base, saved, rows, k);
    RestoredIs(base + saved, cp);
    assert rows[0..] == rows;
    ResultsTwice(base, saved, rows, a.calls[0].id);
  }

  /** Saving keeps every row of a prefix of such a group. */
  lemma GroupPrefixIsSaved(cfg: SaveConfig, base: seq<Message>, cp: Checkpoint, k: nat)
    requires RunnerShaped(cp) && UsableNames(cp) && k <= |RestoredRows(cp)|
    requires Paired(base) && DistinctCalls(base + RestoredRows(cp))
    ensures Saved(cfg, base, RestoredRows(cp)[..k]) == base + SavedRows(cfg, RestoredRows(cp)[..k])
  {
    var rows := RestoredRows(cp);
    RunnerShapedIsServed(cp);
    hide *;
    ServedKeepsPaired(base, rows);
    Rejoin(base, rows, k);
    PrefixOfPairedIsClean(base + rows[..k], rows[k..]);
    PrefixOfPairedIsClean(base, rows);
    SavingIsBatchRepair(cfg, base, rows[..k]);
    assert (base + rows[..k])[|base|..] == rows[..k];
  }

  lemma PrefixOfPairedIsClean(a: seq<Message>, b: seq<Message>)
    requires Paired(a + b)
    ensures DropOrphans(a) == a
  {
    DropIsIdentityIff(a + b);
    DropIsIdentityIff(a);
    forall id | id != "" ensures ResultCount(a, id) <= 1 { ResultCountAppend(a, b, id); }
    forall i | 0 <= i < |a| ensures (a + b)[i] == a[i] && (a + b)[..i] == a[..i] {}
  }

  /** Neither the saved rows nor earlier ones are taken for the group. */
  lemma NoOverlap(base: seq<Message>, saved: seq<Message>, rows: seq<Message>, k: nat)
    requires IsGroup(rows) && rows[0].Assistant? && 1 < k <= |rows| && rows[0].calls != []
    requires |saved| == k && saved != rows[..k] && forall i | 0 < i < k :: saved[i].Tool?
    requires DistinctCalls(base + rows) && forall c | c in rows[0].calls :: c.id != ""
    ensures Overlap(base + saved, rows) == 0
  {
    hide DistinctCalls;
    var session, n := base + saved, Overlap(base + saved, rows);
    assert session[|base|..] == saved;
    if n > 0 {
      var at := |session| - n;
      assert session[at..][0] == rows[..n][0];
      assert session[at] == rows[0];
      if at < |base| {
        assert rows[0] in base;
        FreshCallRow(base, rows, rows[0]);
      }
    }
  }

  lemma ResultsTwice(base: seq<Message>, saved: seq<Message>, rows: seq<Message>, id: string)
    requires id != "" && |saved| > 1 && |rows| > 1
    requires saved[1].Tool? && rows[1].Tool? && saved[1].callId == rows[1].callId == id
    ensures !Paired(base + saved + rows)
  {
    var out, i, j := base + saved + rows, |base| + 1, |base| + |saved| + 1;
    assert out[i] == saved[1] && out[j] == rows[1];
    TwoRowsCountTwo(out, i, j);
  }

  /** So a result that was shortened when it was saved makes restoring append its group a
      second time. */
  lemma {:induction false} LongResultIsRestoredTwice(cfg: SaveConfig, big: string)
    requires |big| > cfg.maxChars && cfg.truncate(big) != big
    ensures var a, t := Assistant(Text(""), [Call("c", "exec")]), Tool(Text(big), "c", "exec");
            var short := Tool(Text(cfg.truncate(big)), "c", "exec");
            var cp := Checkpoint(Some(a), [t], []);
            && RunnerShaped(cp) && SavedRows(cfg, [a, t]) == [a, short]
            && Restored(SavedRows(cfg, [a, t]), cp) == [a, short, a, t] && !Paired([a, short, a, t])
  {
    var a, t := Assistant(Text(""), [Call("c", "exec")]), Tool(Text(big), "c", "exec");
    var short := Tool(Text(cfg.truncate(big)), "c", "exec");
    var cp, rows := Checkpoint(Some(a), [t], []), [a, t];
    LongResultIsShortened(cfg, a, big);
    OneResultIsShaped(a, t);
    OneCallIsDistinct(a, t);
    hide *;
    assert rows[..2] == rows && [] + rows == rows && [] + [a, short] == [a, short];
    GroupComesTwice(cfg, [], cp, 2);
    assert [a, short] + [a, t] == [a, short, a, t];
  }

  lemma LongResultIsShortened(cfg: SaveConfig, a: Message, big: string)
    requires |big| > cfg.maxChars && a.Assistant? && a.calls != []
    ensures SavedRows(cfg, [a, Tool(Text(big), "c", "exec")]) == [a, Tool(Text(cfg.truncate(big)), "c", "exec")]
  {
    assert [a, Tool(Text(big), "c", "exec")][..1] == [a] && [a][..0] == [];
    assert SavedRows(cfg, [a]) == [a];
  }

  lemma OneResultIsShaped(a: Message, t: Message)
    requires a.Assistant? && a.calls == [Call("c", "exec")] && t.Tool? && t.callId == "c" && t.name == "exec"
    ensures var cp := Checkpoint(Some(a), [t], []);
            RunnerShaped(cp) && UsableNames(cp) && RestoredRows(cp) == [a, t]
  {
    assert a.calls[..1] == a.calls && a.calls[1..] == [];
    hide Interrupted;
  }

  lemma OneCallIsDistinct(a: Message, t: Message)
    requires a.Assistant? && a.calls == [Call("c", "exec")] && t.Tool?
    ensures DistinctCalls([a, t])
  {
    assert [a, t][..1] == [a] && [a][..0] == [] && a.calls[..0] == [];
    forall id | id != "" ensures DeclCount([a, t], id) <= 1 {
      assert CallCount(a.calls, id) <= 1 && DeclCount([a], id) == CallCount(a.calls, id);
    }
  }

  lemma SameRows(session: seq<Message>, cp: Checkpoint, other: Checkpoint)
    requires RestoredRows(cp) == RestoredRows(other)
    ensures Restored(session, cp) == Restored(session, other)
  {
  }

  /** A call row that is already in the history declares nothing fresh. */
  lemma FreshCallRow(base: seq<Message>, rows: seq<Message>, a: Message)
    requires a in base && rows != [] && rows[0] == a && a.Assistant? && DistinctCalls(base + rows)
    requires forall c | c in a.calls :: c.id != ""
    ensures a.calls == []
  {
    if a.calls != [] {
      var id := a.calls[0].id;
      var i :| 0 <= i < |base| && base[i] == a;
      assert a.calls[0] in a.calls && id in CallIdSet(a.calls);
      assert base == base[..i] + ([a] + base[i + 1..]) && rows == [a] + rows[1..];
      DeclaredAppend(base[..i], [a] + base[i + 1..]);
      DeclaredAppend([a], base[i + 1..]);
      DeclaredAppend([a], rows[1..]);
      DeclaredSingle(a);
      DeclaredIffCounted(base, id);
      DeclaredIffCounted(rows, id);
      DeclCountAppend(base, rows, id);
    }
  }

  lemma AnsweredOnce(ms: seq<Message>, a: Message, c: Call)
    requires Paired(ms) && a in ms && a.Assistant? && c in a.calls && c.id != ""
    ensures ResultCount(ms, c.id) == 1
  {
    var i :| 0 <= i < |ms| && ms[i] == a;
    assert ms == ms[..i] + ([a] + ms[i + 1..]);
    DeclaredAppend(ms[..i], [a] + ms[i + 1..]);
    DeclaredAppend([a], ms[i + 1..]);
    DeclaredSingle(a);
    AnsweredIffCounted(ms, c.id);
  }

  // ---- The session object ----

  lemma SavedStep(cfg: SaveConfig, session: seq<Message>, rows: seq<Message>, i: nat)
    requires i < |rows|
    ensures var sofar, m := Saved(cfg, session, rows[..i]), rows[i];
            && Saved(cfg, session, rows[..i + 1]) ==
                 (if !Keeps(sofar, sofar, m) then sofar
                  else match SavedRow(cfg, m) { case None => sofar case Some(r) => sofar + [r] })
            && "" !in DeclaredIds(sofar)
            && forall r | SavedRow(cfg, m) == Some(r) ::
                 && DeclaredIds(sofar + [r]) == DeclaredIds(sofar) + (if m.Assistant? then CallIdSet(m.calls) else {})
                 && ResultIds(sofar + [r]) == ResultIds(sofar) + (if m.Tool? && m.callId != "" then {m.callId} else {})
  {
    var sofar, m := Saved(cfg, session, rows[..i]), rows[i];
    assert rows[..i + 1][..i] == rows[..i];
    DeclaredIffCounted(sofar, "");
    SavedRowKeepsIds(cfg, m);
    DeclaredSingle(m);
    if SavedRow(cfg, m).Some? {
      var r := SavedRow(cfg, m).value;
      DeclaredAppend(sofar, [r]);
      ResultIdsAppend(sofar, [r]);
      assert r in [r] && m in [m];
    }
  }

  class Session {
    var messages: seq<Message>
    var checkpoint: Option<Checkpoint>
    var pendingUserTurn: bool

    constructor (messages: seq<Message>)
      ensures this.messages == messages && checkpoint == None && !pendingUserTurn
    {
      this.messages := messages;
      checkpoint := None;
      pendingUserTurn := false;
    }

    method SaveTurn(cfg: SaveConfig, rows: seq<Message>, skip: nat)
      modifies this`messages
      ensures messages == Saved(cfg, old(messages), if skip <= |rows| then rows[skip..] else [])
      ensures SavedTurn(cfg, old(messages), if skip <= |rows| then rows[skip..] else [], messages)
    {
      hide Saved, SavedRow, SavedAt, DeclaredIds, ResultIds, CallIdSet;
      var todo := if skip <= |rows| then rows[skip..] else [];
      ghost var at := SavesInOrder(cfg, messages, todo);
      ghost var session := messages;
      var declared, fulfilled := DeclaredIds(messages), ResultIds(messages);
      assert todo[..0] == [] && Saved(cfg, session, []) == session by { SavedNothing(cfg, session); }
      for i := 0 to |todo|
        invariant messages == Saved(cfg, session, todo[..i])
        invariant declared == DeclaredIds(messages) && fulfilled == ResultIds(messages)
      {
        var m := todo[i];
        SavedStep(cfg, session, todo, i);
        if m.Tool? && (m.callId == "" || m.callId !in declared || m.callId in fulfilled) {
          continue;
        }
        var saved := SavedRow(cfg, m);
        if saved.Some? {
          if m.Tool? {
            fulfilled := fulfilled + {m.callId};
          } else if m.Assistant? {
            declared := declared + CallIdSet(m.calls);
          }
          messages := messages + [saved.value];
        }
      }
      assert todo[..|todo|] == todo;
    }

    /** Materialize an unfinished turn; the checkpoint is consumed. */
    method RestoreRuntimeCheckpoint() returns (restored: bool)
      modifies this
      ensures restored == old(checkpoint).Some?
      ensures restored ==> messages == Restored(old(messages), old(checkpoint).value)
                           && checkpoint == None && !pendingUserTurn
      ensures !restored ==> messages == old(messages) && checkpoint == None && pendingUserTurn == old(pendingUserTurn)
    {
      if checkpoint.None? {
        return false;
      }
      hide RestoredRows, Restored, Overlaps;
      RestoredIs(messages, checkpoint.value);
      var rows := RestoredRows(checkpoint.value);
      var most := if |messages| <= |rows| then |messages| else |rows|;
      var size: nat := most;
      while size > 0 && !Overlaps(messages, rows, size)
        invariant size <= most && OverlapUpTo(messages, rows, size) == OverlapUpTo(messages, rows, most)
      {
        size := size - 1;
      }
      messages := messages + rows[size..];
      pendingUserTurn := false;
      checkpoint := None;
      return true;
    }

    /** Close a turn of which only the user row was persisted. */
    method RestorePendingUserTurn() returns (closed: bool)
      modifies this`messages, this`pendingUserTurn
      ensures closed == old(pendingUserTurn) && !pendingUserTurn
      ensures messages == if closed && old(messages) != [] && old(messages)[|old(messages)| - 1].User?
                          then old(messages) + [Plain(Texts.Wording(Texts.TurnInterrupted))] else old(messages)
      ensures Paired(messages) <==> Paired(old(messages))
    {
      if !pendingUserTurn {
        return false;
      }
      if messages != [] && messages[|messages| - 1].User? {
        PlainRowKeepsPaired(messages, Plain(Texts.Wording(Texts.TurnInterrupted)));
        messages := messages + [Plain(Texts.Wording(Texts.TurnInterrupted))];
      }
      pendingUserTurn := false;
      return true;
    }
  }

  lemma SavedNothing(cfg: SaveConfig, session: seq<Message>)
    ensures Saved(cfg, session, []) == session
  {
  }
}
