/** Transcripts in which every assistant row with calls is followed at once by one
    result per call, in call order: the shape the runner appends. */
module Serving {
  import opened Transcript
  import opened Pairing

  ghost predicate AnswersInOrder(calls: seq<Call>, rows: seq<Message>) {
    && |rows| == |calls|
    && forall i | 0 <= i < |calls| :: rows[i].Tool? && rows[i].callId == calls[i].id && rows[i].name == calls[i].name
  }

  ghost predicate Served(ms: seq<Message>)
    decreases |ms|
  {
    if ms == [] then true
    else if ms[0].Tool? then false
    else if ms[0].Assistant? then
      var n := |ms[0].calls|;
      1 + n <= |ms| && AnswersInOrder(ms[0].calls, ms[1..1 + n]) && Served(ms[1 + n..])
    else Served(ms[1..])
  }

  /** Every declared id is usable. */
  ghost predicate UsableCalls(ms: seq<Message>) {
    forall m | m in ms && m.Assistant? :: forall c | c in m.calls :: c.id != ""
  }

  lemma {:induction false} ServedAppend(a: seq<Message>, b: seq<Message>)
    requires Served(a) && Served(b)
    ensures Served(a + b)
    decreases |a|
  {
    if a == [] {
      assert a + b == b;
    } else {
      var n := if a[0].Assistant? then 1 + |a[0].calls| else 1;
      assert (a + b)[0] == a[0] && (a + b)[n..] == a[n..] + b && (a + b)[1..n] == a[1..n];
      ServedAppend(a[n..], b);
    }
  }

  /** A last row that is no result can be taken off. */
  lemma {:induction false} ServedFront(ms: seq<Message>)
    requires Served(ms) && ms != [] && !ms[|ms| - 1].Tool?
    ensures Served(ms[..|ms| - 1])
    decreases |ms|
  {
    var n := if ms[0].Assistant? then 1 + |ms[0].calls| else 1;
    var front := ms[..|ms| - 1];
    if n < |ms| {
      assert ms[n..][|ms[n..]| - 1] == ms[|ms| - 1];
      ServedFront(ms[n..]);
      assert front[0] == ms[0] && front[n..] == ms[n..][..|ms[n..]| - 1] && front[1..n] == ms[1..n];
    }
  }

  lemma ServedSingle(m: Message)
    requires !m.Tool? && (m.Assistant? ==> m.calls == [])
    ensures Served([m])
  {
    assert [m][1..] == [];
    assert [m][1..1] == [];
  }

  lemma ServedGroup(m: Message, rows: seq<Message>)
    requires m.Assistant? && AnswersInOrder(m.calls, rows)
    ensures Served([m] + rows)
  {
    var ms := [m] + rows;
    assert ms[1..1 + |rows|] == rows && ms[1 + |rows|..] == [];
  }

  lemma {:induction false} AnswerCounts(calls: seq<Call>, rows: seq<Message>, id: string)
    requires AnswersInOrder(calls, rows)
    ensures ResultCount(rows, id) == CallCount(calls, id) && DeclCount(rows, id) == 0
  {
    if calls != [] {
      AnswerCounts(calls[..|calls| - 1], rows[..|rows| - 1], id);
    }
  }

  lemma {:induction false} AnswersFollow(base: seq<Message>, m: Message, rows: seq<Message>)
    requires ResultsFollowCalls(base) && m.Assistant?
    requires forall r | r in rows :: r.Tool? && r.callId in CallIdSet(m.calls)
    ensures ResultsFollowCalls(base + [m] + rows)
    ensures DeclaredIds(base + [m] + rows) == DeclaredIds(base) + CallIdSet(m.calls)
  {
    DeclaredAppend(base, [m]);
    DeclaredSingle(m);
    FollowSnoc(base, m);
    hide ResultsFollowCalls, DeclaredIds, CallIdSet;
    if rows == [] {
      assert base + [m] + rows == base + [m];
    } else {
      var front, r := rows[..|rows| - 1], rows[|rows| - 1];
      assert r in rows;
      AnswersFollow(base, m, front);
      FollowSnoc(base + [m] + front, r);
      assert base + [m] + rows == base + [m] + front + [r];
      DeclaredAppend(base + [m] + front, [r]);
      DeclaredSingle(r);
    }
  }

  /** A served group with fresh ids keeps a paired transcript paired. */
  lemma {:induction false} GroupKeepsPaired(base: seq<Message>, m: Message, rows: seq<Message>)
    requires Paired(base) && m.Assistant? && AnswersInOrder(m.calls, rows)
    requires DistinctCalls(base + [m] + rows) && forall c | c in m.calls :: c.id != ""
    ensures Paired(base + [m] + rows)
  {
    var out := base + [m] + rows;
    forall r | r in rows ensures r.Tool? && r.callId in CallIdSet(m.calls) {
      var i :| 0 <= i < |rows| && rows[i] == r;
      assert m.calls[i] in m.calls;
    }
    AnswersFollow(base, m, rows);
    forall id | id != ""
      ensures ResultCount(out, id) <= 1 && (id in DeclaredIds(out) ==> ResultCount(out, id) > 0)
    {
      GroupCounts(base, m, rows, id);
      DeclaredIffCounted(base, id);
      AnsweredIffCounted(base, id);
      DeclaredIffCounted(out, id);
      if ResultCount(base, id) > 0 { AnsweredIsDeclared(base, id); }
    }
    forall id | id in DeclaredIds(out) ensures id in ResultIds(out) {
      DeclaredIffCounted(out, id);
      AnsweredIffCounted(out, id);
    }
  }

  lemma GroupCounts(base: seq<Message>, m: Message, rows: seq<Message>, id: string)
    requires m.Assistant? && AnswersInOrder(m.calls, rows)
    ensures ResultCount(base + [m] + rows, id) == ResultCount(base, id) + CallCount(m.calls, id)
    ensures DeclCount(base + [m] + rows, id) == DeclCount(base, id) + CallCount(m.calls, id)
  {
    ResultCountAppend(base + [m], rows, id);
    ResultCountAppend(base, [m], id);
    DeclCountAppend(base + [m], rows, id);
    DeclCountAppend(base, [m], id);
    AnswerCounts(m.calls, rows, id);
    assert [m][..0] == [];
  }

  lemma AnsweredIsDeclared(ms: seq<Message>, id: string)
    requires ResultsFollowCalls(ms) && id in ResultIds(ms)
    ensures id in DeclaredIds(ms)
  {
    var i :| 0 <= i < |ms| && ms[i].Tool? && ms[i].callId == id;
    assert ms == ms[..i] + ms[i..];
    DeclaredAppend(ms[..i], ms[i..]);
  }

  lemma PlainRowKeepsPaired(base: seq<Message>, m: Message)
    requires !m.Tool? && (m.Assistant? ==> m.calls == [])
    ensures Paired(base) <==> Paired(base + [m])
  {
    FollowSnoc(base, m);
    DeclaredAppend(base, [m]);
    DeclaredSingle(m);
    ResultIdsAppend(base, [m]);
    forall id ensures ResultCount(base + [m], id) == ResultCount(base, id) { ResultCountAppend(base, [m], id); }
    if OneResultEach(base + [m]) {
      forall id | id != "" ensures ResultCount(base, id) <= 1 { assert ResultCount(base + [m], id) <= 1; }
    }
  }

  /** The first row of served rows, its results, and the served rest. */
  lemma ServedHead(tail: seq<Message>) returns (n: nat)
    requires Served(tail) && UsableCalls(tail) && tail != []
    ensures 0 < n <= |tail| && tail == [tail[0]] + tail[1..n] + tail[n..]
    ensures Served(tail[n..]) && UsableCalls(tail[n..]) && UnitOk(tail[0], tail[1..n])
  {
    var m := tail[0];
    n := if m.Assistant? then 1 + |m.calls| else 1;
    assert m in tail;
    assert UsableCalls(tail[n..]) by { forall x | x in tail[n..] ensures x in tail {} }
  }

  /** A call row with its results, or a row without calls by itself. */
  ghost predicate UnitOk(m: Message, rows: seq<Message>) {
    && !m.Tool?
    && if m.Assistant? then AnswersInOrder(m.calls, rows) && forall c | c in m.calls :: c.id != "" else rows == []
  }

  lemma UnitKeepsPaired(base: seq<Message>, m: Message, rows: seq<Message>)
    requires Paired(base) && UnitOk(m, rows) && DistinctCalls(base + [m] + rows)
    ensures Paired(base + [m] + rows)
  {
    if m.Assistant? {
      GroupKeepsPaired(base, m, rows);
    } else {
      PlainRowKeepsPaired(base, m);
      assert base + [m] + rows == base + [m];
    }
  }

  lemma PrefixIsDistinct(a: seq<Message>, b: seq<Message>)
    requires DistinctCalls(a + b)
    ensures DistinctCalls(a)
  {
    hide DeclCount;
    forall id | id != "" ensures DeclCount(a, id) <= 1 {
      DeclCountAppend(a, b, id);
      assert DeclCount(a + b, id) <= 1;
    }
  }

  /** Served rows with distinct usable ids keep a paired transcript paired. */
  lemma {:induction false} ServedKeepsPaired(base: seq<Message>, tail: seq<Message>)
    requires Paired(base) && Served(tail) && UsableCalls(tail) && DistinctCalls(base + tail)
    ensures Paired(base + tail)
    decreases |tail|
  {
    hide *;
    if tail == [] {
      assert base + tail == base;
    } else {
      var n := ServedHead(tail);
      var after := base + [tail[0]] + tail[1..n];
      assert base + tail == after + tail[n..];
      PrefixIsDistinct(after, tail[n..]);
      UnitKeepsPaired(base, tail[0], tail[1..n]);
      ServedKeepsPaired(after, tail[n..]);
    }
  }

  /** Served rows answer only their own calls. */
  lemma {:induction false} ServedAnswersOwn(tail: seq<Message>)
    requires Served(tail) && UsableCalls(tail)
    ensures ResultIds(tail) <= DeclaredIds(tail)
    decreases |tail|
  {
    if tail != [] {
      var n := ServedHead(tail);
      var m, rows, rest := tail[0], tail[1..n], tail[n..];
      ServedAnswersOwn(rest);
      UnitAnswersOwn(m, rows);
      hide *;
      ResultIdsAppend([m] + rows, rest);
      DeclaredAppend([m] + rows, rest);
    }
  }

  lemma UnitAnswersOwn(m: Message, rows: seq<Message>)
    requires UnitOk(m, rows)
    ensures ResultIds([m] + rows) <= DeclaredIds([m] + rows)
  {
    DeclaredAppend([m], rows);
    DeclaredSingle(m);
    forall id | id in ResultIds([m] + rows) ensures id in DeclaredIds([m]) {
      var r :| r in [m] + rows && r.Tool? && r.callId == id;
      var i :| 0 <= i < |rows| && rows[i] == r;
      assert m.calls[i] in m.calls;
    }
  }

  /** And take nothing away: what is paired with them was paired before. */
  lemma {:induction false} PairedBeforeServed(base: seq<Message>, tail: seq<Message>)
    requires Paired(base + tail) && Served(tail) && UsableCalls(tail) && DistinctCalls(base + tail)
    ensures Paired(base)
  {
    ServedAnswersOwn(tail);
    ResultIdsAppend(base, tail);
    DeclaredAppend(base, tail);
    hide DeclaredIds, ResultIds, Served, UsableCalls, ResultCount, DeclCount;
    forall i | 0 <= i < |base| ensures (base + tail)[i] == base[i] && (base + tail)[..i] == base[..i] {}
    forall id | id != "" ensures ResultCount(base, id) <= 1 {
      ResultCountAppend(base, tail, id);
      assert ResultCount(base + tail, id) <= 1;
    }
    forall id | id in DeclaredIds(base) ensures id in ResultIds(base) {
      DeclaredIffCounted(base, id);
      DeclaredIffCounted(tail, id);
      DeclCountAppend(base, tail, id);
      assert id != "" ==> DeclCount(base + tail, id) <= 1;
    }
  }
}
