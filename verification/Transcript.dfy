/** The message rows that every part of the agent runtime passes around, and the
    two counts on which call/result pairing rests: how often an id is declared by
    an assistant row and how often it is answered by a tool row. */
module Transcript {
  datatype Option<+T> = None | Some(value: T)

  datatype Block = TextBlock(text: string) | OtherBlock(data: string)

  /** The `content` field: absent, a string, or a list of content blocks. */
  datatype Content = Absent | Text(text: string) | Blocks(blocks: seq<Block>)
  {
    /** Python truthiness of the field. */
    predicate Truthy() {
      match this
      case Absent => false
      case Text(t) => t != ""
      case Blocks(b) => b != []
    }
  }

  /** A persisted tool call. The empty id stands for a missing one and the empty
      name for a missing or non-string one; an entry that is not an object is
      Call("", ""). */
  datatype Call = Call(id: string, name: string)

  /** The durable record that lets attached runtime context be removed again. */
  datatype Marker = Marker(version: int, sources: seq<string>, suffix: Option<string>, blocks: Option<seq<Block>>)

  datatype Message =
    | System(content: Content)
    | User(content: Content, marker: Option<Marker>, hidden: bool, mergeable: bool)
    | Assistant(content: Content, calls: seq<Call>)
    | Tool(content: Content, callId: string, name: string)

  function Plain(text: string): Message {
    Assistant(Text(text), [])
  }

  function CallCount(calls: seq<Call>, id: string): nat {
    if calls == [] then 0
    else CallCount(calls[..|calls| - 1], id) + if calls[|calls| - 1].id == id then 1 else 0
  }

  function CallIdSet(calls: seq<Call>): set<string> {
    set c | c in calls && c.id != "" :: c.id
  }

  function Declares(m: Message, id: string): nat {
    if m.Assistant? then CallCount(m.calls, id) else 0
  }

  function Answers(m: Message, id: string): nat {
    if m.Tool? && m.callId == id then 1 else 0
  }

  /** How often `id` is declared by the assistant rows of `ms`. */
  function DeclCount(ms: seq<Message>, id: string): nat {
    if ms == [] then 0 else DeclCount(ms[..|ms| - 1], id) + Declares(ms[|ms| - 1], id)
  }

  /** How many tool rows of `ms` answer `id`. */
  function ResultCount(ms: seq<Message>, id: string): nat {
    if ms == [] then 0 else ResultCount(ms[..|ms| - 1], id) + Answers(ms[|ms| - 1], id)
  }

  /** The usable ids declared in `ms`, as the source's `declared` sets collect them. */
  function DeclaredIds(ms: seq<Message>): set<string> {
    if ms == [] then {}
    else DeclaredIds(ms[..|ms| - 1])
         + if ms[|ms| - 1].Assistant? then CallIdSet(ms[|ms| - 1].calls) else {}
  }

  /** The usable ids answered in `ms`, as the source's `fulfilled` sets collect them. */
  function ResultIds(ms: seq<Message>): set<string> {
    set m | m in ms && m.Tool? && m.callId != "" :: m.callId
  }

  /** Every usable call id is declared once. */
  ghost predicate DistinctCalls(ms: seq<Message>) {
    forall id | id != "" :: DeclCount(ms, id) <= 1
  }

  /** Every tool result has a usable id declared by an earlier assistant row. */
  ghost predicate ResultsFollowCalls(ms: seq<Message>) {
    forall i | 0 <= i < |ms| && ms[i].Tool? :: ms[i].callId in DeclaredIds(ms[..i])
  }

  /** No usable id has two results. */
  ghost predicate OneResultEach(ms: seq<Message>) {
    forall id | id != "" :: ResultCount(ms, id) <= 1
  }

  /** Every usable declared id has a result. */
  ghost predicate EveryCallAnswered(ms: seq<Message>) {
    DeclaredIds(ms) <= ResultIds(ms)
  }

  /** What upstream providers demand of a transcript. */
  ghost predicate Paired(ms: seq<Message>) {
    ResultsFollowCalls(ms) && OneResultEach(ms) && EveryCallAnswered(ms)
  }

  // ---- Counting over concatenation ----

  lemma SplitLast<T>(a: seq<T>, b: seq<T>)
    requires b != []
    ensures (a + b)[..|a + b| - 1] == a + b[..|b| - 1]
    ensures (a + b)[|a + b| - 1] == b[|b| - 1]
  {
  }

  lemma CallCountAppend(a: seq<Call>, b: seq<Call>, id: string)
    ensures CallCount(a + b, id) == CallCount(a, id) + CallCount(b, id)
  {
    if b == [] {
      assert a + b == a;
    } else {
      SplitLast(a, b);
      CallCountAppend(a, b[..|b| - 1], id);
    }
  }

  lemma CallCountMember(calls: seq<Call>, id: string)
    ensures CallCount(calls, id) > 0 <==> exists c :: c in calls && c.id == id
  {
    if calls != [] {
      var n := |calls| - 1;
      CallCountMember(calls[..n], id);
      assert calls == calls[..n] + [calls[n]];
    }
  }

  lemma {:induction false} DeclCountAppend(a: seq<Message>, b: seq<Message>, id: string)
    ensures DeclCount(a + b, id) == DeclCount(a, id) + DeclCount(b, id)
  {
    if b == [] {
      assert a + b == a;
    } else {
      SplitLast(a, b);
      DeclCountAppend(a, b[..|b| - 1], id);
    }
  }

  lemma {:induction false} ResultCountAppend(a: seq<Message>, b: seq<Message>, id: string)
    ensures ResultCount(a + b, id) == ResultCount(a, id) + ResultCount(b, id)
  {
    if b == [] {
      assert a + b == a;
    } else {
      SplitLast(a, b);
      ResultCountAppend(a, b[..|b| - 1], id);
    }
  }

  lemma {:induction false} DeclaredAppend(a: seq<Message>, b: seq<Message>)
    ensures DeclaredIds(a + b) == DeclaredIds(a) + DeclaredIds(b)
  {
    if b == [] {
      assert a + b == a;
    } else {
      SplitLast(a, b);
      DeclaredAppend(a, b[..|b| - 1]);
    }
  }

  lemma ResultIdsAppend(a: seq<Message>, b: seq<Message>)
    ensures ResultIds(a + b) == ResultIds(a) + ResultIds(b)
  {
  }

  lemma {:induction false} DeclaredIffCounted(ms: seq<Message>, id: string)
    ensures id in DeclaredIds(ms) <==> id != "" && DeclCount(ms, id) > 0
  {
    if ms != [] {
      DeclaredIffCounted(ms[..|ms| - 1], id);
      var m := ms[|ms| - 1];
      if m.Assistant? {
        CallCountMember(m.calls, id);
      }
    }
  }

  lemma {:induction false} AnsweredIffCounted(ms: seq<Message>, id: string)
    ensures id in ResultIds(ms) <==> id != "" && ResultCount(ms, id) > 0
  {
    if ms != [] {
      var n := |ms| - 1;
      AnsweredIffCounted(ms[..n], id);
      assert ms == ms[..n] + [ms[n]];
      ResultIdsAppend(ms[..n], [ms[n]]);
      assert id in ResultIds([ms[n]]) <==> id != "" && Answers(ms[n], id) > 0 by {
        if Answers(ms[n], id) > 0 { assert ms[n] in [ms[n]]; }
      }
    } else {
      assert ResultIds(ms) == {};
    }
  }
}
