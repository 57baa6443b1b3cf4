/** Runtime context appended to a user prompt, the marker that allows its exact
    removal, and the merging of user messages that carry such context. */
module RuntimeContext {
  import opened Transcript
  import opened Texts

  datatype ContextBlock = ContextBlock(source: string, content: string)

  datatype Detached = Detached(clean: Content, sources: seq<string>, blocks: seq<Block>)

  function Separator(): string {
    "\n\n"
  }

  function Rendered(blocks: seq<ContextBlock>): seq<string> {
    seq(|blocks|, i requires 0 <= i < |blocks| => blocks[i].content)
  }

  function Sources(blocks: seq<ContextBlock>): seq<string> {
    seq(|blocks|, i requires 0 <= i < |blocks| => blocks[i].source)
  }

  function TextBlocks(texts: seq<string>): seq<Block> {
    seq(|texts|, i requires 0 <= i < |texts| => TextBlock(texts[i]))
  }

  predicate AllText(blocks: seq<Block>) {
    forall b | b in blocks :: b.TextBlock?
  }

  function TextsOf(blocks: seq<Block>): seq<string>
    requires AllText(blocks)
  {
    seq(|blocks|, i requires 0 <= i < |blocks| => blocks[i].text)
  }

  function UsableSources(sources: seq<string>): seq<string> {
    if sources == [] then []
    else UsableSources(sources[..|sources| - 1]) + if sources[|sources| - 1] != "" then [sources[|sources| - 1]] else []
  }

  /** Text plus a suffix, on its own when the text is empty. */
  function WithSuffix(text: string, suffix: string): string {
    if text != "" then text + Separator() + suffix else suffix
  }

  predicate EndsWith(s: string, suffix: string) {
    |suffix| <= |s| && s[|s| - |suffix|..] == suffix
  }

  function Append(content: Content, blocks: seq<ContextBlock>): (Content, Option<Marker>) {
    if blocks == [] then (content, None)
    else if content.Blocks? then
      var extra := TextBlocks(Rendered(blocks));
      (Blocks(content.blocks + extra), Some(Marker(1, Sources(blocks), None, Some(extra))))
    else
      var text := if content.Text? then content.text else "";
      var suffix := Join(Rendered(blocks), Separator());
      (Text(WithSuffix(text, suffix)), Some(Marker(1, Sources(blocks), Some(suffix), None)))
  }

  function Detach(content: Content, marker: Marker): Option<Detached> {
    if marker.version != 1 then None
    else
      var sources := UsableSources(marker.sources);
      if content.Text? && marker.suffix.Some? && marker.suffix.value != "" then
        var text, suffix := content.text, marker.suffix.value;
        if text == suffix then Some(Detached(Text(""), sources, [TextBlock(suffix)]))
        else if EndsWith(text, Separator() + suffix) then
          Some(Detached(Text(text[..|text| - |suffix| - 2]), sources, [TextBlock(suffix)]))
        else None
      else if content.Blocks? && marker.blocks.Some? && marker.blocks.value != [] then
        var all, expected := content.blocks, marker.blocks.value;
        if |expected| <= |all| && all[|all| - |expected|..] == expected then
          Some(Detached(Blocks(all[..|all| - |expected|]), sources, expected))
        else None
      else None
  }

  function Reattach(content: Content, sources: seq<string>, blocks: seq<Block>): (Content, Marker) {
    if content.Text? && AllText(blocks) then
      var suffix := Join(TextsOf(blocks), Separator());
      (Text(WithSuffix(content.text, suffix)), Marker(1, sources, Some(suffix), None))
    else
      (Blocks(AsBlocks(content) + blocks), Marker(1, sources, None, Some(blocks)))
  }

  function AsBlocks(content: Content): seq<Block> {
    match content
    case Absent => []
    case Text(t) => [TextBlock(t)]
    case Blocks(b) => b
  }

  /** The content shown to a user. */
  function PublicContent(content: Content, marker: Option<Marker>): Content {
    if marker.None? || marker.value.version != 1 then content
    else
      var mk := marker.value;
      if content.Text? && mk.suffix.Some? && mk.suffix.value != "" then
        if content.text == mk.suffix.value then Text("")
        else if EndsWith(content.text, Separator() + mk.suffix.value)
        then Text(content.text[..|content.text| - (|mk.suffix.value| + 2)])
        else content
      else if content.Blocks? && mk.blocks.Some? && mk.blocks.value != [] then
        var n := |mk.blocks.value|;
        if n <= |content.blocks| && content.blocks[|content.blocks| - n..] == mk.blocks.value
        then Blocks(content.blocks[..|content.blocks| - n])
        else content
      else content
  }

  // ---- Round trips ----

  /** What the content shows once it has been handled as text. */
  function Shown(content: Content): Content {
    if content.Absent? then Text("") else content
  }

  lemma WithSuffixEnds(text: string, suffix: string)
    requires suffix != ""
    ensures var whole := WithSuffix(text, suffix);
            if text == "" then whole == suffix
            else && whole != suffix && EndsWith(whole, Separator() + suffix)
                 && whole[..|whole| - |suffix| - 2] == text
  {
    if text != "" {
      var whole := WithSuffix(text, suffix);
      assert whole == text + (Separator() + suffix);
      assert |whole| == |text| + 2 + |suffix|;
    }
  }

  lemma SuffixDetaches(text: string, suffix: string, sources: seq<string>)
    ensures var d := Detach(Text(WithSuffix(text, suffix)), Marker(1, sources, Some(suffix), None));
            d == if suffix != "" then Some(Detached(Text(text), UsableSources(sources), [TextBlock(suffix)])) else None
  {
    if suffix != "" { WithSuffixEnds(text, suffix); }
  }

  lemma BlocksDetach(visible: seq<Block>, extra: seq<Block>, sources: seq<string>)
    requires extra != []
    ensures Detach(Blocks(visible + extra), Marker(1, sources, None, Some(extra)))
         == Some(Detached(Blocks(visible), UsableSources(sources), extra))
  {
    var all := visible + extra;
    assert all[|all| - |extra|..] == extra && all[..|all| - |extra|] == visible;
  }

  /** The context is all of the given blocks, in order: one by one behind blocks, and
      joined by an empty line behind a text. */
  ghost predicate IsContext(content: Content, blocks: seq<ContextBlock>, context: seq<Block>) {
    if content.Blocks? then
      |context| == |blocks| && forall i | 0 <= i < |blocks| :: context[i] == TextBlock(blocks[i].content)
    else
      exists parts :: PartsOf(blocks, parts) && context == [TextBlock(Join(parts, "\n\n"))]
  }

  predicate PartsOf(blocks: seq<ContextBlock>, parts: seq<string>) {
    |parts| == |blocks| && forall i | 0 <= i < |blocks| :: parts[i] == blocks[i].content
  }

  /** Detaching after appending gives the visible content and the context back exactly,
      for block lists always and for text exactly when some context text is left to find. */
  lemma DetachAfterAppend(content: Content, blocks: seq<ContextBlock>)
    requires blocks != []
    ensures var (merged, marker) := Append(content, blocks);
            && marker.Some?
            && (Detach(merged, marker.value).Some? <==> content.Blocks? || Join(Rendered(blocks), Separator()) != "")
            && (Detach(merged, marker.value).Some? ==>
                  var d := Detach(merged, marker.value).value;
                  && d.clean == Shown(content) && d.sources == UsableSources(Sources(blocks))
                  && IsContext(content, blocks, d.blocks))
  {
    var texts := Rendered(blocks);
    assert PartsOf(blocks, texts);
    if content.Blocks? {
      BlocksDetach(content.blocks, TextBlocks(texts), Sources(blocks));
    } else {
      SuffixDetaches(if content.Text? then content.text else "", Join(texts, Separator()), Sources(blocks));
    }
  }

  /** Normalized blocks have non-empty contents; then appending is always undone. */
  lemma NormalizedBlocksDetach(content: Content, blocks: seq<ContextBlock>)
    requires blocks != [] && forall b | b in blocks :: b.content != ""
    ensures var (merged, marker) := Append(content, blocks);
            marker.Some? && Detach(merged, marker.value).Some?
            && Detach(merged, marker.value).value.clean == Shown(content)
            && IsContext(content, blocks, Detach(merged, marker.value).value.blocks)
  {
    DetachAfterAppend(content, blocks);
    var texts := Rendered(blocks);
    assert blocks[|blocks| - 1] in blocks && texts[|texts| - 1] != "";
  }

  /** The same for reattached blocks; several text blocks come back as one. */
  lemma DetachAfterReattach(content: Content, sources: seq<string>, blocks: seq<Block>)
    requires blocks != []
    ensures var (merged, marker) := Reattach(content, sources, blocks);
            var d := Detach(merged, marker);
            if content.Text? && AllText(blocks) then
              var suffix := Join(TextsOf(blocks), Separator());
              d == if suffix != "" then Some(Detached(content, UsableSources(sources), [TextBlock(suffix)])) else None
            else d == Some(Detached(Blocks(AsBlocks(content)), UsableSources(sources), blocks))
  {
    if content.Text? && AllText(blocks) {
      SuffixDetaches(content.text, Join(TextsOf(blocks), Separator()), sources);
    } else {
      BlocksDetach(AsBlocks(content), blocks, sources);
    }
  }

  /** The public view removes exactly what detaching removes, and nothing when the
      marker does not match. */
  lemma PublicIsDetached(content: Content, marker: Marker)
    ensures PublicContent(content, Some(marker))
         == match Detach(content, marker) { case Some(d) => d.clean case None => content }
  {
  }

  // ---- Merging user messages ----

  function MergeContent(left: Content, right: Content): Content {
    if left.Text? && right.Text? then Text(WithSuffix(left.text, right.text))
    else Blocks(AsBlocks(left) + AsBlocks(right))
  }

  function DetachRow(m: Message): Option<Detached>
    requires m.User?
  {
    if m.marker.Some? then Detach(m.content, m.marker.value) else Some(Detached(m.content, [], []))
  }

  predicate Mergeable(last: Message, injection: Message) {
    last.User? && injection.User? && !last.hidden && !injection.hidden && last.mergeable
  }

  function MergeRows(left: Message, right: Message): Message
    requires left.User? && right.User?
  {
    var l, r := DetachRow(left), DetachRow(right);
    if l.Some? && r.Some? then
      var visible := MergeContent(l.value.clean, r.value.clean);
      var context := l.value.blocks + r.value.blocks;
      if context == [] then User(visible, left.marker, left.hidden, left.mergeable)
      else
        var (merged, marker) := Reattach(visible, l.value.sources + r.value.sources, context);
        User(merged, Some(marker), left.hidden, left.mergeable && right.mergeable)
    else User(MergeContent(left.content, right.content), left.marker, left.hidden, left.mergeable)
  }

  /** Append an injected row, or fold it into a mergeable last row. */
  function InjectOne(ms: seq<Message>, m: Message): seq<Message> {
    if ms != [] && Mergeable(ms[|ms| - 1], m)
    then ms[..|ms| - 1] + [MergeRows(ms[|ms| - 1], m)]
    else ms + [m]
  }

  function Inject(ms: seq<Message>, injections: seq<Message>): seq<Message> {
    if injections == [] then ms
    else InjectOne(Inject(ms, injections[..|injections| - 1]), injections[|injections| - 1])
  }

  ghost predicate ValidMarker(m: Message) {
    m.User? && DetachRow(m).Some?
  }

  function View(m: Message): Content
    requires m.User?
  {
    PublicContent(m.content, m.marker)
  }

  function ContextOf(m: Message): seq<Block>
    requires m.User?
  {
    match DetachRow(m) case Some(d) => d.blocks case None => []
  }

  lemma ViewIsClean(m: Message)
    requires ValidMarker(m)
    ensures View(m) == DetachRow(m).value.clean
    ensures View(m).Text? && ContextOf(m) != [] ==>
              exists s :: s != "" && ContextOf(m) == [TextBlock(s)]
  {
    if m.marker.Some? {
      PublicIsDetached(m.content, m.marker.value);
      if m.content.Text? {
        assert m.marker.value.suffix.value != "" && ContextOf(m) == [TextBlock(m.marker.value.suffix.value)];
      }
    }
  }

  /** Merging two rows merges what the user sees and keeps both contexts in order:
      as they are for block lists, joined into one text for text. */
  lemma MergeCommutesWithView(left: Message, right: Message)
    requires ValidMarker(left) && ValidMarker(right)
    ensures var m := MergeRows(left, right);
            && ValidMarker(m)
            && View(m) == MergeContent(View(left), View(right))
            && ContextOf(m) ==
                 var context := ContextOf(left) + ContextOf(right);
                 if View(m).Text? && context != [] && AllText(context)
                 then [TextBlock(Join(TextsOf(context), Separator()))] else context
  {
    var m := MergeRows(left, right);
    ViewIsClean(left);
    ViewIsClean(right);
    var visible := MergeContent(View(left), View(right));
    var context := ContextOf(left) + ContextOf(right);
    if context == [] {
      assert ContextOf(left) == [] && ContextOf(right) == [];
      NoContextNoMarker(left);
      assert m.marker.None?;
    } else {
      if visible.Text? { ContextIsText(left, right); }
      ReattachedRowShows(m, visible, DetachRow(left).value.sources + DetachRow(right).value.sources, context);
      hide Reattach, Detach, PublicContent, MergeContent, TextsOf, Join;
    }
  }

  /** Behind text there is at most one context text each, and it is not empty. */
  lemma ContextIsText(left: Message, right: Message)
    requires ValidMarker(left) && ValidMarker(right) && View(left).Text? && View(right).Text?
    requires ContextOf(left) + ContextOf(right) != []
    ensures var context := ContextOf(left) + ContextOf(right);
            AllText(context) && Join(TextsOf(context), Separator()) != ""
  {
    ViewIsClean(left);
    ViewIsClean(right);
    hide Detach, PublicContent;
    var texts := TextsOf(ContextOf(left) + ContextOf(right));
    assert texts[|texts| - 1] != "";
  }

  /** A row with reattached context shows the content, and has the context. */
  lemma ReattachedRowShows(m: Message, content: Content, sources: seq<string>, blocks: seq<Block>)
    requires m.User? && m.marker.Some? && blocks != []
    requires Reattach(content, sources, blocks) == (m.content, m.marker.value)
    requires content.Text? ==> AllText(blocks) && Join(TextsOf(blocks), Separator()) != ""
    requires content.Text? || content.Blocks?
    ensures ValidMarker(m) && View(m) == content
    ensures ContextOf(m) == if content.Text? then [TextBlock(Join(TextsOf(blocks), Separator()))] else blocks
  {
    DetachAfterReattach(content, sources, blocks);
    PublicIsDetached(m.content, m.marker.value);
    hide Reattach, Detach, PublicContent, TextsOf, Join;
  }

  lemma NoContextNoMarker(m: Message)
    requires ValidMarker(m) && ContextOf(m) == []
    ensures m.marker.None?
  {
  }

  function FoldView(view: Content, rows: seq<Message>): Content
    requires forall m | m in rows :: m.User?
  {
    if rows == [] then view
    else MergeContent(FoldView(view, rows[..|rows| - 1]), View(rows[|rows| - 1]))
  }

  function AllContext(rows: seq<Message>): seq<Block>
    requires forall m | m in rows :: m.User?
  {
    if rows == [] then [] else AllContext(rows[..|rows| - 1]) + ContextOf(rows[|rows| - 1])
  }

  function MergeAll(first: Message, rows: seq<Message>): (m: Message)
    requires first.User? && forall m | m in rows :: m.User?
    ensures m.User?
  {
    if rows == [] then first else MergeRows(MergeAll(first, rows[..|rows| - 1]), rows[|rows| - 1])
  }

  /** All the context text of a row, when it is text only. */
  function ContextText(blocks: seq<Block>): string
    requires AllText(blocks)
  {
    Join(TextsOf(blocks), Separator())
  }

  /** Context blocks as they read: neighbouring texts joined into one. */
  function Reading(blocks: seq<Block>): seq<Block> {
    if blocks == [] then []
    else
      var front, b := Reading(blocks[..|blocks| - 1]), blocks[|blocks| - 1];
      if front != [] && front[|front| - 1].TextBlock? && b.TextBlock?
      then front[..|front| - 1] + [TextBlock(front[|front| - 1].text + Separator() + b.text)]
      else front + [b]
  }

  lemma {:induction false} ReadingExtends(a: seq<Block>, b: seq<Block>, more: seq<Block>)
    requires Reading(a) == Reading(b)
    ensures Reading(a + more) == Reading(b + more)
  {
    if more == [] {
      assert a + more == a && b + more == b;
    } else {
      SplitLast(a, more);
      SplitLast(b, more);
      ReadingExtends(a, b, more[..|more| - 1]);
    }
  }

  /** Text-only context reads as its joined text. */
  lemma {:induction false} TextReading(blocks: seq<Block>)
    requires AllText(blocks) && blocks != []
    ensures Reading(blocks) == [TextBlock(ContextText(blocks))]
  {
    var front, b := blocks[..|blocks| - 1], blocks[|blocks| - 1];
    assert b in blocks;
    if front == [] {
      assert TextsOf(blocks) == [b.text];
    } else {
      TextReading(front);
      assert TextsOf(blocks)[..|front|] == TextsOf(front);
      JoinStep(TextsOf(blocks));
    }
  }

  lemma JoinStep(texts: seq<string>)
    requires |texts| > 1
    ensures Texts.Join(texts, Separator())
         == Texts.Join(texts[..|texts| - 1], Separator()) + Separator() + texts[|texts| - 1]
  {
  }

  lemma MergeReadsOn(left: Message, right: Message, earlier: seq<Block>)
    requires ValidMarker(left) && ValidMarker(right) && Reading(ContextOf(left)) == Reading(earlier)
    ensures Reading(ContextOf(MergeRows(left, right))) == Reading(earlier + ContextOf(right))
  {
    MergeCommutesWithView(left, right);
    var now, more := ContextOf(left), ContextOf(right);
    ReadingExtends(now, earlier, more);
    hide MergeRows, ContextOf, View, ValidMarker;
    if now + more != [] && AllText(now + more) {
      TextReading(now + more);
      TextReading([TextBlock(ContextText(now + more))]);
      assert TextsOf([TextBlock(ContextText(now + more))]) == [ContextText(now + more)];
    }
  }

  ghost predicate AllValid(rows: seq<Message>) {
    forall m | m in rows :: ValidMarker(m)
  }

  lemma ValidFront(rows: seq<Message>)
    requires AllValid(rows) && rows != []
    ensures AllValid(rows[..|rows| - 1]) && ValidMarker(rows[|rows| - 1])
    ensures forall m | m in rows[..|rows| - 1] :: m.User?
    ensures rows[|rows| - 1].User?
  {
    assert rows[|rows| - 1] in rows;
  }

  /** Folding any number of injected rows into one shows the user the fold of what
      each of them showed. */
  lemma {:induction false} FoldShowsAll(first: Message, rows: seq<Message>)
    requires ValidMarker(first) && AllValid(rows)
    ensures first.User? && forall m | m in rows :: m.User?
    ensures ValidMarker(MergeAll(first, rows))
    ensures View(MergeAll(first, rows)) == FoldView(View(first), rows)
  {
    if rows != [] {
      ValidFront(rows);
      FoldShowsAll(first, rows[..|rows| - 1]);
      MergeCommutesWithView(MergeAll(first, rows[..|rows| - 1]), rows[|rows| - 1]);
    }
  }

  /** And it keeps all context blocks, in order, up to the joining of neighbouring texts. */
  lemma {:induction false} FoldKeepsContext(first: Message, rows: seq<Message>)
    requires ValidMarker(first) && AllValid(rows)
    ensures first.User? && forall m | m in rows :: m.User?
    ensures Reading(ContextOf(MergeAll(first, rows))) == Reading(ContextOf(first) + AllContext(rows))
  {
    if rows == [] {
      assert ContextOf(first) + AllContext(rows) == ContextOf(first);
    } else {
      var front, last := rows[..|rows| - 1], rows[|rows| - 1];
      ValidFront(rows);
      FoldShowsAll(first, front);
      FoldKeepsContext(first, front);
      var before := MergeAll(first, front);
      assert MergeAll(first, rows) == MergeRows(before, last);
      ContextStep(first, rows);
      hide *;
      MergeReadsOn(before, last, ContextOf(first) + AllContext(front));
    }
  }

  lemma ContextStep(first: Message, rows: seq<Message>)
    requires rows != [] && first.User? && forall m | m in rows :: m.User?
    ensures rows[|rows| - 1].User? && forall m | m in rows[..|rows| - 1] :: m.User?
    ensures ContextOf(first) + AllContext(rows)
         == ContextOf(first) + AllContext(rows[..|rows| - 1]) + ContextOf(rows[|rows| - 1])
  {
    hide ContextOf;
    assert rows[|rows| - 1] in rows;
  }

  /** Injection into a mergeable user row is that fold. */
  lemma {:induction false} InjectIsFold(ms: seq<Message>, injections: seq<Message>)
    requires ms != [] && ms[|ms| - 1].User? && !ms[|ms| - 1].hidden && ms[|ms| - 1].mergeable
    requires forall m | m in injections :: m.User? && !m.hidden && m.mergeable
    ensures var last := ms[|ms| - 1];
            && Inject(ms, injections) == ms[..|ms| - 1] + [MergeAll(last, injections)]
            && !MergeAll(last, injections).hidden && MergeAll(last, injections).mergeable
  {
    if injections == [] {
      assert ms == ms[..|ms| - 1] + [ms[|ms| - 1]];
    } else {
      var front, m := injections[..|injections| - 1], injections[|injections| - 1];
      assert m in injections && forall x | x in front :: x in injections;
      InjectIsFold(ms, front);
      var before := Inject(ms, front);
      assert before[..|before| - 1] == ms[..|ms| - 1];
    }
  }
}
