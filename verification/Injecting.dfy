/** Where injected rows end up: behind the rows a run was started with, or folded into
    the last of them. */
module Injecting {
  import opened Transcript
  import opened RuntimeContext
  import Texts

  predicate HasContent(content: Content) {
    match content
    case Absent => false
    case Text(t) => !Texts.Blank(t)
    case Blocks(b) => b != []
  }

  // ---- A fold makes its row heavier ----

  function Kind(content: Content): nat {
    match content
    case Absent => 0
    case Text(_) => 1
    case Blocks(_) => 2
  }

  function Size(content: Content): nat {
    match content
    case Absent => 0
    case Text(t) => |t|
    case Blocks(b) => |b|
  }

  ghost predicate Heavier(a: Content, b: Content) {
    Kind(a) < Kind(b) || (Kind(a) == Kind(b) && Size(a) < Size(b))
  }

  /** What detaching takes from a content: the parts it gives back account for its size. */
  lemma DetachSizes(content: Content, marker: Marker)
    requires Detach(content, marker).Some?
    ensures var d := Detach(content, marker).value;
            if content.Text? then
              && d.clean.Text? && |d.blocks| == 1 && d.blocks[0].TextBlock? && d.blocks[0].text != ""
              && |content.text| <= |d.clean.text| + 2 + |d.blocks[0].text|
            else
              content.Blocks? && d.clean.Blocks? && d.blocks != []
              && |content.blocks| == |d.clean.blocks| + |d.blocks|
  {
  }

  lemma RowParts(m: Message)
    requires m.User? && DetachRow(m).Some?
    ensures var d := DetachRow(m).value;
            && Kind(d.clean) == Kind(m.content)
            && (d.blocks == [] ==> d.clean == m.content)
            && (m.content.Text? && d.blocks != [] ==>
                  && |d.blocks| == 1 && d.blocks[0].TextBlock? && d.blocks[0].text != ""
                  && |m.content.text| <= |d.clean.text| + 2 + |d.blocks[0].text|)
            && (m.content.Blocks? ==> |m.content.blocks| == |d.clean.blocks| + |d.blocks|)
            && (m.content.Absent? ==> d.blocks == [])
  {
    if m.marker.Some? { DetachSizes(m.content, m.marker.value); }
  }

  /** Two texts, each with at most one context text behind it. */
  lemma TextsGrow(left: Message, right: Message)
    requires left.User? && right.User? && left.content.Text? && right.content.Text? && right.content.text != ""
    requires DetachRow(left).Some? && DetachRow(right).Some?
    ensures Heavier(left.content, MergeRows(left, right).content)
  {
    RowParts(left);
    RowParts(right);
    var l, r := DetachRow(left).value, DetachRow(right).value;
    var visible := WithSuffix(l.clean.text, r.clean.text);
    var context := l.blocks + r.blocks;
    SuffixSize(l.clean.text, r.clean.text);
    if context == [] {
      assert l.blocks == [] && r.blocks == [];
      assert MergeRows(left, right).content == Text(visible);
      hide *;
      TextIsHeavier(left.content, MergeRows(left, right).content);
    } else {
      assert AllText(context);
      var suffix := ContextText(context);
      assert MergeRows(left, right).content == Text(WithSuffix(visible, suffix));
      ContextSize(l.blocks, r.blocks);
      hide *;
      SuffixSize(visible, suffix);
      TextIsHeavier(left.content, MergeRows(left, right).content);
    }
  }

  lemma SuffixSize(text: string, suffix: string)
    ensures |WithSuffix(text, suffix)| == if text == "" then |suffix| else |text| + 2 + |suffix|
  {
  }

  lemma TextIsHeavier(a: Content, b: Content)
    requires a.Text? && b.Text? && |a.text| < |b.text|
    ensures Heavier(a, b)
  {
  }

  /** The joined context is longer than either part. */
  lemma ContextSize(l: seq<Block>, r: seq<Block>)
    requires |l| <= 1 && |r| <= 1 && l + r != [] && AllText(l) && AllText(r)
    ensures AllText(l + r)
    ensures var n := |ContextText(l + r)|;
            if l == [] then n == |r[0].text|
            else if r == [] then n == |l[0].text|
            else n == |l[0].text| + 2 + |r[0].text|
  {
    var texts := TextsOf(l + r);
    if l != [] && r != [] {
      assert texts == [l[0].text, r[0].text] && texts[..1] == [l[0].text];
      assert Texts.Join(texts[..1], Separator()) == l[0].text;
      assert ContextText(l + r) == l[0].text + Separator() + r[0].text;
    }
  }

  /** Folding a row with content into another one makes that one heavier, so the fold
      always shows and is never undone. */
  lemma MergeIsHeavier(left: Message, right: Message)
    requires left.User? && right.User? && HasContent(right.content)
    ensures Heavier(left.content, MergeRows(left, right).content)
  {
    BlankHasNoText();
    if DetachRow(left).Some? && DetachRow(right).Some? {
      if left.content.Text? && right.content.Text? {
        hide DetachRow, MergeRows, Heavier;
        TextsGrow(left, right);
      } else {
        BlocksGrow(left, right);
      }
    } else {
      hide DetachRow;
    }
  }

  lemma BlocksGrow(left: Message, right: Message)
    requires left.User? && right.User? && HasContent(right.content)
    requires DetachRow(left).Some? && DetachRow(right).Some? && !(left.content.Text? && right.content.Text?)
    ensures Heavier(left.content, MergeRows(left, right).content)
  {
    RowParts(left);
    RowParts(right);
    hide DetachRow, Texts.Blank;
  }

  lemma BlankHasNoText()
    ensures Texts.Blank("")
  {
  }

  // ---- Injection beside or into the kept rows ----

  /** The first `n` rows stay as they were, and the rows from `n` on are what injecting
      into them gives: nothing injected ends up outside of them. */
  ghost predicate Lands(n: nat, ms: seq<Message>, rows: seq<Message>) {
    && n <= |ms| && n <= |Inject(ms, rows)|
    && Inject(ms, rows)[..n] == ms[..n]
    && Inject(ms, rows)[n..] == Inject(ms[n..], rows)
  }

  lemma {:induction false} InjectGrows(ms: seq<Message>, rows: seq<Message>)
    ensures |ms| <= |Inject(ms, rows)| && (ms != [] ==> Inject(ms, rows)[..|ms| - 1] == ms[..|ms| - 1])
    ensures rows != [] ==> Inject(ms, rows) != []
  {
    if rows != [] { InjectGrows(ms, rows[..|rows| - 1]); }
  }

  lemma InjectOneBehind(kept: seq<Message>, tail: seq<Message>, m: Message)
    requires tail != [] || kept == [] || !Mergeable(kept[|kept| - 1], m)
    ensures InjectOne(kept + tail, m) == kept + InjectOne(tail, m)
  {
    hide Mergeable, MergeRows;
    var ms := kept + tail;
    if tail == [] {
      assert ms == kept;
    } else {
      assert ms[|ms| - 1] == tail[|tail| - 1] && ms[..|ms| - 1] == kept + tail[..|tail| - 1];
    }
  }

  /** Injection behind the first `n` rows leaves them alone. */
  lemma {:induction false} InjectBehind(kept: seq<Message>, tail: seq<Message>, rows: seq<Message>)
    requires tail != [] || kept == [] || rows == [] || !Mergeable(kept[|kept| - 1], rows[0])
    ensures Inject(kept + tail, rows) == kept + Inject(tail, rows)
  {
    if rows != [] {
      var front, m := rows[..|rows| - 1], rows[|rows| - 1];
      InjectBehind(kept, tail, front);
      InjectGrows(tail, front);
      assert front == [] ==> m == rows[0];
      assert Inject(tail, front) == [] ==> tail == [] && front == [];
      hide Mergeable, InjectOne;
      InjectOneBehind(kept, Inject(tail, front), m);
    }
  }

  /** A first row folded into the last kept one makes that one heavier. */
  lemma {:induction false} InjectFolds(ms: seq<Message>, rows: seq<Message>)
    requires ms != [] && rows != [] && Mergeable(ms[|ms| - 1], rows[0])
    requires forall m | m in rows :: m.User? && HasContent(m.content)
    ensures var out, n := Inject(ms, rows), |ms|;
            n <= |out| && out[n - 1].User? && Heavier(ms[n - 1].content, out[n - 1].content)
    decreases |rows|
  {
    var front, m := rows[..|rows| - 1], rows[|rows| - 1];
    assert m in rows && rows[0] in rows;
    InjectGrows(ms, front);
    if front == [] {
      assert Inject(ms, front) == ms && m == rows[0];
      hide Heavier;
      MergeIsHeavier(ms[|ms| - 1], m);
    } else {
      assert forall x | x in front :: x in rows;
      InjectFolds(ms, front);
      var before := Inject(ms, front);
      if Mergeable(before[|before| - 1], m) {
        MergeIsHeavier(before[|before| - 1], m);
      }
    }
  }

  /** Exactly when does all that is injected stay outside the first `n` rows? */
  lemma {:induction false} LandsIff(n: nat, ms: seq<Message>, rows: seq<Message>)
    requires n <= |ms| && forall m | m in rows :: m.User? && HasContent(m.content)
    ensures Lands(n, ms, rows) <==>
            !(n > 0 && n == |ms| && rows != [] && Mergeable(ms[n - 1], rows[0]))
    ensures !Lands(n, ms, rows) ==>
              0 < n <= |Inject(ms, rows)| && Inject(ms, rows)[n - 1].User?
              && Heavier(ms[n - 1].content, Inject(ms, rows)[n - 1].content)
  {
    InjectGrows(ms, rows);
    if n > 0 && n == |ms| && rows != [] && Mergeable(ms[n - 1], rows[0]) {
      InjectFolds(ms, rows);
      assert Inject(ms, rows)[..n][n - 1] != ms[..n][n - 1];
    } else {
      assert ms == ms[..n] + ms[n..];
      InjectBehind(ms[..n], ms[n..], rows);
    }
  }
}
