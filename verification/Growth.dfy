/** How one run may change its transcript: rows are appended in served groups, and
    only the last row is ever replaced, by a row of the same kind. */
module Growth {
  import opened Transcript
  import opened Pairing
  import opened Serving
  import opened RuntimeContext

  /** A user row, or an assistant row without calls: a row that may be rewritten. */
  ghost predicate SameKind(a: Message, b: Message) {
    a == b || (a.User? && b.User?) || (a.Assistant? && b.Assistant? && a.calls == [] && b.calls == [])
  }

  ghost predicate Extends(before: seq<Message>, after: seq<Message>) {
    && |before| <= |after|
    && (forall i | 0 <= i < |before| - 1 :: after[i] == before[i])
    && (before != [] ==> SameKind(before[|before| - 1], after[|before| - 1]))
  }

  /** A transcript grown from `initial`: it extends it by served rows. */
  ghost predicate Grown(initial: seq<Message>, ms: seq<Message>) {
    Extends(initial, ms) && Served(ms[|initial|..])
  }

  predicate EndsInUser(ms: seq<Message>) {
    ms != [] && ms[|ms| - 1].User?
  }

  /** The rows a run was started with stay as they are. */
  ghost predicate KeepsStart(initial: seq<Message>, ms: seq<Message>, after: seq<Message>) {
    |initial| <= |ms| && |initial| <= |after| && after[..|initial|] == ms[..|initial|]
  }

  lemma ExtendsTrans(a: seq<Message>, b: seq<Message>, c: seq<Message>)
    requires Extends(a, b) && Extends(b, c)
    ensures Extends(a, c)
  {
  }

  lemma GrownStart(ms: seq<Message>)
    ensures Grown(ms, ms)
  {
    assert ms[|ms|..] == [];
  }

  lemma SelfExtends(ms: seq<Message>)
    ensures Extends(ms, ms)
  {
  }

  /** Appending served rows. */
  lemma GrowAppend(initial: seq<Message>, ms: seq<Message>, rows: seq<Message>)
    requires Grown(initial, ms) && Served(rows)
    ensures Grown(initial, ms + rows) && Extends(ms, ms + rows) && KeepsStart(initial, ms, ms + rows)
  {
    GrownIsLonger(initial, ms);
    hide Extends, Served;
    AppendExtends(ms, rows);
    ExtendsTrans(initial, ms, ms + rows);
    ServedAppend(ms[|initial|..], rows);
    AppendBehind(ms, rows, |initial|);
  }

  lemma AppendBehind<T>(s: seq<T>, t: seq<T>, n: nat)
    requires n <= |s|
    ensures (s + t)[n..] == s[n..] + t && (s + t)[..n] == s[..n]
  {
  }

  lemma GrownIsLonger(initial: seq<Message>, ms: seq<Message>)
    requires Grown(initial, ms)
    ensures |initial| <= |ms|
  {
  }

  lemma AppendExtends(ms: seq<Message>, rows: seq<Message>)
    ensures Extends(ms, ms + rows)
  {
  }

  /** Rewriting the last row within its kind. */
  lemma GrowReplace(initial: seq<Message>, ms: seq<Message>, m: Message)
    requires Grown(initial, ms) && ms != [] && SameKind(ms[|ms| - 1], m) && !m.Tool? && (m.Assistant? ==> m.calls == [])
    ensures Grown(initial, ms[..|ms| - 1] + [m]) && Extends(ms, ms[..|ms| - 1] + [m])
  {
    var out, n := ms[..|ms| - 1] + [m], |initial|;
    if |ms| > n {
      var tail := ms[n..];
      assert tail[|tail| - 1] == ms[|ms| - 1];
      ServedFront(tail);
      assert out[n..] == tail[..|tail| - 1] + [m];
      ServedSingle(m);
      ServedAppend(tail[..|tail| - 1], [m]);
    } else {
      assert out[n..] == [];
    }
  }

  lemma GrowPlain(initial: seq<Message>, ms: seq<Message>, m: Message)
    requires Grown(initial, ms) && !m.Tool? && (m.Assistant? ==> m.calls == [])
    ensures Grown(initial, ms + [m]) && Extends(ms, ms + [m]) && KeepsStart(initial, ms, ms + [m])
  {
    ServedSingle(m);
    GrowAppend(initial, ms, [m]);
  }

  lemma {:induction false} GrowInject(initial: seq<Message>, ms: seq<Message>, injections: seq<Message>)
    requires Grown(initial, ms) && forall m | m in injections :: m.User?
    ensures Grown(initial, Inject(ms, injections)) && Extends(ms, Inject(ms, injections))
  {
    if injections != [] {
      var front, m := injections[..|injections| - 1], injections[|injections| - 1];
      assert m in injections && forall x | x in front :: x in injections;
      GrowInject(initial, ms, front);
      hide Grown, MergeRows, Extends, Mergeable;
      var before := Inject(ms, front);
      if before != [] && Mergeable(before[|before| - 1], m) {
        MergedIsUser(before[|before| - 1], m);
        GrowReplace(initial, before, MergeRows(before[|before| - 1], m));
        ExtendsTrans(ms, before, Inject(ms, injections));
      } else {
        GrowPlain(initial, before, m);
        ExtendsTrans(ms, before, Inject(ms, injections));
      }
    }
  }

  lemma MergedIsUser(left: Message, right: Message)
    requires Mergeable(left, right)
    ensures left.User? && right.User? && MergeRows(left, right).User? && SameKind(left, MergeRows(left, right))
  {
  }

  /** A closing row: rewrite a last assistant row without calls, else append. */
  function AppendFinal(ms: seq<Message>, text: string): seq<Message> {
    if text == "" then ms
    else if ms != [] && ms[|ms| - 1].Assistant? && ms[|ms| - 1].calls == [] then
      if ms[|ms| - 1].content == Text(text) then ms else ms[..|ms| - 1] + [Plain(text)]
    else ms + [Plain(text)]
  }

  lemma GrowFinal(initial: seq<Message>, ms: seq<Message>, text: string)
    requires Grown(initial, ms)
    ensures Grown(initial, AppendFinal(ms, text)) && Extends(ms, AppendFinal(ms, text))
    ensures EndsInUser(initial) ==> KeepsStart(initial, ms, AppendFinal(ms, text))
    ensures text != "" ==> ClosesWith(AppendFinal(ms, text), text)
  {
    if text != "" {
      if EndsInReply(ms) {
        GrowReplace(initial, ms, Plain(text));
      } else {
        GrowPlain(initial, ms, Plain(text));
      }
    }
  }

  predicate EndsInReply(ms: seq<Message>) {
    ms != [] && ms[|ms| - 1].Assistant? && ms[|ms| - 1].calls == []
  }

  /** The transcript ends with this text as a reply. */
  predicate ClosesWith(ms: seq<Message>, text: string) {
    EndsInReply(ms) && ms[|ms| - 1].content == Text(text)
  }

  /** The row that stands for a reply lost to a model error. */
  function AppendPlaceholder(ms: seq<Message>, text: string): seq<Message> {
    if EndsInReply(ms) then ms else ms + [Plain(text)]
  }

  lemma GrowPlaceholder(initial: seq<Message>, ms: seq<Message>, text: string)
    requires Grown(initial, ms)
    ensures Grown(initial, AppendPlaceholder(ms, text)) && Extends(ms, AppendPlaceholder(ms, text))
    ensures KeepsStart(initial, ms, AppendPlaceholder(ms, text))
    ensures EndsInReply(AppendPlaceholder(ms, text))
  {
    if !EndsInReply(ms) { GrowPlain(initial, ms, Plain(text)); }
  }

  // ---- What growth preserves ----

  lemma {:induction false} ExtendsKeepsCalls(before: seq<Message>, after: seq<Message>, id: string)
    requires Extends(before, after)
    ensures DeclCount(before, id) <= DeclCount(after, id)
  {
    var n := |before|;
    assert after == after[..n] + after[n..];
    DeclCountAppend(after[..n], after[n..], id);
    if n > 0 {
      assert after[..n][..n - 1] == before[..n - 1];
    }
  }

  /** Distinct ids in the end mean distinct ids all along. */
  lemma ExtendsKeepsDistinct(before: seq<Message>, after: seq<Message>)
    requires Extends(before, after) && DistinctCalls(after)
    ensures DistinctCalls(before)
  {
    forall id | id != "" ensures DeclCount(before, id) <= 1 {
      ExtendsKeepsCalls(before, after, id);
      assert DeclCount(after, id) <= 1;
    }
  }

  lemma RewrittenStaysPaired(before: seq<Message>, after: seq<Message>)
    requires Paired(before) && Extends(before, after) && |before| == |after|
    ensures Paired(after)
  {
    if before != [] {
      var n := |before| - 1;
      assert before == before[..n] + [before[n]] && after == before[..n] + [after[n]];
      if before[n] != after[n] {
        PlainRowKeepsPaired(before[..n], before[n]);
        PlainRowKeepsPaired(before[..n], after[n]);
      }
    }
  }

  lemma RewrittenIsPairedIff(before: seq<Message>, after: seq<Message>)
    requires Extends(before, after) && |before| == |after|
    ensures Paired(before) <==> Paired(after)
  {
    assert Extends(after, before);
    hide Paired, Extends;
    if Paired(before) { RewrittenStaysPaired(before, after); }
    if Paired(after) { RewrittenStaysPaired(after, before); }
  }

  /** A transcript grown with usable, distinct ids is paired exactly when it was at the start. */
  lemma GrownIsPairedIff(initial: seq<Message>, ms: seq<Message>)
    requires Grown(initial, ms) && UsableCalls(ms[|initial|..]) && DistinctCalls(ms)
    ensures Paired(ms) <==> Paired(initial)
  {
    var base, tail := ms[..|initial|], ms[|initial|..];
    assert Extends(initial, base) && Served(tail);
    assert ms == base + tail;
    hide *;
    RewrittenIsPairedIff(initial, base);
    if Paired(base) { ServedKeepsPaired(base, tail); }
    if Paired(ms) { PairedBeforeServed(base, tail); }
  }

  lemma ExtendsKeepsUsable(initial: seq<Message>, before: seq<Message>, after: seq<Message>)
    requires |initial| <= |before| && Extends(before, after) && UsableCalls(after[|initial|..])
    ensures UsableCalls(before[|initial|..])
  {
    var n, tail := |initial|, after[|initial|..];
    forall m | m in before[n..] && m.Assistant? ensures forall c | c in m.calls :: c.id != "" {
      var i :| n <= i < |before| && before[i] == m;
      assert after[i] == m || m.calls == [];
      assert after[i] in tail;
    }
  }

  /** The same at every earlier point of the growth. */
  lemma EarlierIsPairedIff(initial: seq<Message>, before: seq<Message>, after: seq<Message>)
    requires Grown(initial, before) && Extends(before, after)
    requires |initial| <= |after| && UsableCalls(after[|initial|..]) && DistinctCalls(after)
    ensures Paired(before) <==> Paired(initial)
  {
    ExtendsKeepsUsable(initial, before, after);
    ExtendsKeepsDistinct(before, after);
    GrownIsPairedIff(initial, before);
  }
}
