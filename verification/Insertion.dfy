/** The in-place insertion of back-filled rows: a list of gaps is filled one by one
    at a running offset, and the result is the recursive back-fill. */
module Insertion {
  import opened Seqs
  import opened Transcript
  import opened Pairing
  import Texts

  /** A declared call: the index of its assistant row, its id and its name. */
  datatype Gap = Gap(at: nat, id: string, name: string)

  function CallGaps(calls: seq<Call>, at: nat): seq<Gap> {
    if calls == [] then []
    else (if calls[0].id != "" then [Gap(at, calls[0].id, calls[0].name)] else []) + CallGaps(calls[1..], at)
  }

  function RowGaps(m: Message, at: nat): seq<Gap> {
    if m.Assistant? then CallGaps(m.calls, at) else []
  }

  /** All declared calls of `ms`, whose first row has index `at`. */
  function AllGaps(ms: seq<Message>, at: nat): seq<Gap> {
    if ms == [] then [] else RowGaps(ms[0], at) + AllGaps(ms[1..], at + 1)
  }

  function Unanswered(gaps: seq<Gap>, answered: set<string>): seq<Gap> {
    if gaps == [] then []
    else (if gaps[0].id !in answered then [gaps[0]] else []) + Unanswered(gaps[1..], answered)
  }

  /** The end of the run of tool rows that starts at `at`. */
  function RunEnd(ms: seq<Message>, at: nat): (e: nat)
    ensures at <= e && (at <= |ms| ==> e <= |ms|)
    decreases |ms| - at
  {
    if at < |ms| && ms[at].Tool? then RunEnd(ms, at + 1) else at
  }

  /** List insertion; an index past the end appends. */
  function InsertAt<T>(s: seq<T>, at: nat, x: T): seq<T> {
    if at <= |s| then s[..at] + [x] + s[at..] else s + [x]
  }

  /** The insertion loop. */
  function InsertAll(ms: seq<Message>, missing: seq<Gap>, offset: nat): seq<Message>
    decreases missing
  {
    if missing == [] then ms
    else
      var g := missing[0];
      InsertAll(InsertAt(ms, RunEnd(ms, g.at + 1 + offset), Synthetic(Call(g.id, g.name))), missing[1..], offset + 1)
  }

  lemma {:induction false} UnansweredAppend(a: seq<Gap>, b: seq<Gap>, answered: set<string>)
    ensures Unanswered(a + b, answered) == Unanswered(a, answered) + Unanswered(b, answered)
  {
    if a == [] {
      assert a + b == b;
    } else {
      assert (a + b)[0] == a[0] && (a + b)[1..] == a[1..] + b;
      UnansweredAppend(a[1..], b, answered);
    }
  }

  lemma {:induction false} RunEndIs(ms: seq<Message>, at: nat, e: nat)
    requires at <= e <= |ms|
    requires forall k | at <= k < e :: ms[k].Tool?
    requires e == |ms| || !ms[e].Tool?
    ensures RunEnd(ms, at) == e
    decreases e - at
  {
    if at < e { RunEndIs(ms, at + 1, e); }
  }

  ghost predicate AllTools(ms: seq<Message>) {
    forall m | m in ms :: m.Tool?
  }

  ghost predicate ToolsFrom(ms: seq<Message>, p: nat) {
    forall k | p <= k < |ms| :: ms[k].Tool?
  }

  ghost predicate StartsNewRow(ms: seq<Message>) {
    ms == [] || !ms[0].Tool?
  }

  /** The owed rows go behind the run of tool rows. */
  lemma {:induction false} FillRun(run: seq<Message>, rest: seq<Message>, due: seq<Message>, answered: set<string>)
    requires AllTools(run) && StartsNewRow(rest)
    ensures Fill(run + rest, due, answered) == run + (due + Fill(rest, [], answered))
  {
    var tail := due + Fill(rest, [], answered);
    if run == [] {
      assert run + rest == rest && run + tail == tail;
      if rest == [] {
        assert tail == due;
      } else {
        var more := Fill(rest[1..], OwedBy(rest[0], answered), answered);
        assert [] + [rest[0]] == [rest[0]];
        Regroup(due, [rest[0]], more);
      }
    } else {
      var x, run' := run[0], run[1..];
      assert x in run && run == [x] + run';
      assert (run + rest)[0] == x && (run + rest)[1..] == run' + rest;
      FillRun(run', rest, due, answered);
      Regroup([x], run', tail);
    }
  }

  /** An insertion that starts inside the run of tool rows ending `head` lands at
      the end of `head`. */
  lemma InsertOne(head: seq<Message>, p: nat, rest: seq<Message>, x: Message)
    requires p <= |head| && StartsNewRow(rest)
    requires ToolsFrom(head, p)
    ensures InsertAt(head + rest, RunEnd(head + rest, p), x) == head + [x] + rest
  {
    var ms := head + rest;
    forall k | p <= k < |head| ensures ms[k].Tool? { assert ms[k] == head[k]; }
    if rest != [] { assert ms[|head|] == rest[0]; }
    RunEndIs(ms, p, |head|);
    assert ms[..|head|] == head && ms[|head|..] == rest;
  }

  /** All insertions for the assistant row with index `at`, whose tool rows end `head`. */
  lemma {:induction false} InsertForRow(head: seq<Message>, todo: seq<Call>, rest: seq<Message>, more: seq<Gap>,
                                        at: nat, offset: nat, answered: set<string>)
    requires at + 1 + offset <= |head| && StartsNewRow(rest)
    requires ToolsFrom(head, at + 1 + offset)
    ensures InsertAll(head + rest, Unanswered(CallGaps(todo, at), answered) + more, offset)
         == InsertAll(head + Owed(todo, answered) + rest, more, offset + |Owed(todo, answered)|)
    decreases |todo|
  {
    hide *;
    if todo == [] {
      NothingTodo(at, answered);
      assert Unanswered(CallGaps(todo, at), answered) + more == more;
      assert head + Owed(todo, answered) == head;
    } else {
      var c, later := todo[0], todo[1..];
      GapsStep(todo, at, answered);
      if c.id != "" && c.id !in answered {
        InsertOneOf(head, todo, rest, more, at, offset, answered);
        StillTools(head, at + 1 + offset, c);
        InsertForRow(head + [Synthetic(c)], later, rest, more, at, offset + 1, answered);
        OwedStep(todo, answered);
        Regroup(head, [Synthetic(c)], Owed(later, answered));
      } else {
        InsertForRow(head, later, rest, more, at, offset, answered);
      }
    }
  }

  lemma NothingTodo(at: nat, answered: set<string>)
    ensures Unanswered(CallGaps([], at), answered) == [] && Owed([], answered) == []
  {
  }

  lemma GapsStep(todo: seq<Call>, at: nat, answered: set<string>)
    requires todo != []
    ensures var c, later := todo[0], Unanswered(CallGaps(todo[1..], at), answered);
            Unanswered(CallGaps(todo, at), answered)
            == if c.id != "" && c.id !in answered then [Gap(at, c.id, c.name)] + later else later
    ensures todo[0].id == "" || todo[0].id in answered ==> Owed(todo, answered) == Owed(todo[1..], answered)
  {
    var c := todo[0];
    var first := if c.id != "" then [Gap(at, c.id, c.name)] else [];
    UnansweredAppend(first, CallGaps(todo[1..], at), answered);
  }

  lemma OwedStep(todo: seq<Call>, answered: set<string>)
    requires todo != [] && todo[0].id != "" && todo[0].id !in answered
    ensures Owed(todo, answered) == [Synthetic(todo[0])] + Owed(todo[1..], answered)
  {
    hide Synthetic;
  }

  lemma StillTools(head: seq<Message>, p: nat, c: Call)
    requires ToolsFrom(head, p) && p <= |head|
    ensures ToolsFrom(head + [Synthetic(c)], p + 1)
  {
    hide Texts.Wording;
  }

  lemma InsertAllStep(ms: seq<Message>, c: Call, at: nat, later: seq<Gap>, offset: nat)
    ensures InsertAll(ms, [Gap(at, c.id, c.name)] + later, offset)
         == InsertAll(InsertAt(ms, RunEnd(ms, at + 1 + offset), Synthetic(c)), later, offset + 1)
  {
    var missing := [Gap(at, c.id, c.name)] + later;
    assert missing[0] == Gap(at, c.id, c.name) && missing[1..] == later;
  }

  lemma InsertOneOf(head: seq<Message>, todo: seq<Call>, rest: seq<Message>, more: seq<Gap>,
                    at: nat, offset: nat, answered: set<string>)
    requires at + 1 + offset <= |head| && StartsNewRow(rest)
    requires ToolsFrom(head, at + 1 + offset)
    requires todo != [] && todo[0].id != "" && todo[0].id !in answered
    ensures InsertAll(head + rest, Unanswered(CallGaps(todo, at), answered) + more, offset)
         == InsertAll(head + [Synthetic(todo[0])] + rest,
                      Unanswered(CallGaps(todo[1..], at), answered) + more, offset + 1)
  {
    GapsStep(todo, at, answered);
    hide *;
    var c, gaps := todo[0], Unanswered(CallGaps(todo[1..], at), answered);
    Regroup([Gap(at, c.id, c.name)], gaps, more);
    InsertAllStep(head + rest, c, at, gaps + more, offset);
    InsertOne(head, at + 1 + offset, rest, Synthetic(c));
  }

  lemma {:induction false} ToolsHaveNoGaps(run: seq<Message>, rest: seq<Message>, at: nat)
    requires AllTools(run)
    ensures AllGaps(run + rest, at) == AllGaps(rest, at + |run|)
  {
    if run == [] {
      assert run + rest == rest;
    } else {
      assert run[0] in run;
      assert (run + rest)[0] == run[0] && (run + rest)[1..] == run[1..] + rest;
      ToolsHaveNoGaps(run[1..], rest, at + 1);
    }
  }

  /** With the rows before index `at` done, the loop fills the rest. */
  lemma {:induction false} InsertAllFills(front: seq<Message>, ms: seq<Message>, at: nat, offset: nat,
                                          answered: set<string>)
    requires |front| == at + offset
    ensures InsertAll(front + ms, Unanswered(AllGaps(ms, at), answered), offset) == front + Fill(ms, [], answered)
    decreases |ms|, 0
  {
    if ms != [] {
      var m, rest := ms[0], ms[1..];
      assert ms == [m] + rest;
      Regroup(front, [m], rest);
      UnansweredAppend(RowGaps(m, at), AllGaps(rest, at + 1), answered);
      if !m.Assistant? {
        var tail := Fill(rest, [], answered);
        InsertAllFills(front + [m], rest, at + 1, offset, answered);
        assert [] + Unanswered(AllGaps(rest, at + 1), answered) == Unanswered(AllGaps(rest, at + 1), answered);
        assert [] + [m] == [m];
        Regroup(front, [m], tail);
      } else {
        FillsAssistant(front, m, rest, at, offset, answered);
      }
    }
  }

  lemma {:induction false} FillsAssistant(front: seq<Message>, m: Message, rest: seq<Message>, at: nat, offset: nat,
                                          answered: set<string>)
    requires |front| == at + offset && m.Assistant?
    ensures InsertAll(front + [m] + rest,
                      Unanswered(RowGaps(m, at), answered) + Unanswered(AllGaps(rest, at + 1), answered), offset)
         == front + Fill([m] + rest, [], answered)
    decreases |rest|, 3
  {
    hide *;
    var run, later := TakeRun(rest);
    var head := front + [m] + run;
    HeadEndsInTools(front, m, run);
    var own, next := Unanswered(RowGaps(m, at), answered), at + 1 + |run|;
    calc {
      InsertAll(front + [m] + rest, own + Unanswered(AllGaps(rest, at + 1), answered), offset);
    == { Regroup(front + [m], run, later); ToolsHaveNoGaps(run, later, at + 1); }
      InsertAll(head + later, own + Unanswered(AllGaps(later, next), answered), offset);
    == { InsertsForAssistant(head, m, later, at, offset, next, answered); }
      head + Owed(m.calls, answered) + Fill(later, [], answered);
    == { FillBehind(front, m, run, later, answered); }
      front + Fill([m] + rest, [], answered);
    }
  }

  lemma FillBehind(front: seq<Message>, m: Message, run: seq<Message>, later: seq<Message>, answered: set<string>)
    requires m.Assistant? && AllTools(run) && StartsNewRow(later)
    ensures front + Fill([m] + (run + later), [], answered)
         == front + [m] + run + Owed(m.calls, answered) + Fill(later, [], answered)
  {
    FillAssistant(m, run, later, answered);
    hide *;
    RegroupFive(front, [m], run, Owed(m.calls, answered), Fill(later, [], answered));
  }

  lemma HeadEndsInTools(front: seq<Message>, m: Message, run: seq<Message>)
    requires AllTools(run)
    ensures ToolsFrom(front + [m] + run, |front| + 1)
  {
    var head := front + [m] + run;
    forall k | |front| + 1 <= k < |head| ensures head[k].Tool? {
      assert head[k] == run[k - |front| - 1] && head[k] in run;
    }
  }

  lemma RegroupFive<T>(a: seq<T>, b: seq<T>, c: seq<T>, d: seq<T>, e: seq<T>)
    ensures a + (b + (c + (d + e))) == a + b + c + d + e
  {
  }

  lemma RowGapsAre(m: Message, at: nat)
    requires m.Assistant?
    ensures RowGaps(m, at) == CallGaps(m.calls, at)
  {
  }

  /** The gaps of the row and of the rows behind its run. */
  lemma {:induction false} InsertsForAssistant(head: seq<Message>, m: Message, later: seq<Message>,
                                               at: nat, offset: nat, next: nat, answered: set<string>)
    requires m.Assistant? && StartsNewRow(later) && at + 1 + offset <= |head| == next + offset
    requires ToolsFrom(head, at + 1 + offset)
    ensures InsertAll(head + later,
                      Unanswered(RowGaps(m, at), answered) + Unanswered(AllGaps(later, next), answered), offset)
         == head + Owed(m.calls, answered) + Fill(later, [], answered)
    decreases |later|, 1
  {
    hide *;
    var owed := Owed(m.calls, answered);
    RowGapsAre(m, at);
    InsertForRow(head, m.calls, later, Unanswered(AllGaps(later, next), answered), at, offset, answered);
    InsertAllFills(head + owed, later, next, offset + |owed|, answered);
  }

  lemma FillAssistant(m: Message, run: seq<Message>, later: seq<Message>, answered: set<string>)
    requires m.Assistant? && AllTools(run) && StartsNewRow(later)
    ensures Fill([m] + (run + later), [], answered)
         == [m] + (run + (Owed(m.calls, answered) + Fill(later, [], answered)))
  {
    FillRun(run, later, Owed(m.calls, answered), answered);
    var ms := [m] + (run + later);
    assert ms[0] == m && ms[1..] == run + later && [] + [m] == [m];
  }

  lemma {:induction false} RunEndStops(ms: seq<Message>, at: nat)
    requires at <= |ms|
    ensures var e := RunEnd(ms, at); e <= |ms| && (forall k | at <= k < e :: ms[k].Tool?) && (e == |ms| || !ms[e].Tool?)
    decreases |ms| - at
  {
    if at < |ms| && ms[at].Tool? { RunEndStops(ms, at + 1); }
  }

  lemma TakeRun(ms: seq<Message>) returns (run: seq<Message>, later: seq<Message>)
    ensures ms == run + later && AllTools(run) && StartsNewRow(later)
  {
    RunEndStops(ms, 0);
    run, later := ms[..RunEnd(ms, 0)], ms[RunEnd(ms, 0)..];
  }

  /** Filling the gaps one by one at a running offset is the back-fill. */
  lemma InsertionIsBackfill(ms: seq<Message>)
    ensures InsertAll(ms, Unanswered(AllGaps(ms, 0), ResultIds(ms)), 0) == Backfill(ms)
  {
    assert [] + ms == ms;
    InsertAllFills([], ms, 0, 0, ResultIds(ms));
    assert [] + Fill(ms, [], ResultIds(ms)) == Backfill(ms);
  }
}
