/** One turn's streamed reply: text goes to the current segment, and an end that is
    not merged into the next segment moves on to a new one. */
module Streaming {
  import opened Transcript
  import opened Outbound

  function Digit(d: nat): char
    requires d < 10
  {
    ['0', '1', '2', '3', '4', '5', '6', '7', '8', '9'][d]
  }

  function Decimal(n: nat): (s: string)
    ensures s != "" && (|s| == 1 <==> n < 10)
  {
    if n < 10 then [Digit(n)] else Decimal(n / 10) + [Digit(n % 10)]
  }

  lemma {:induction false} DecimalInjective(a: nat, b: nat)
    requires Decimal(a) == Decimal(b)
    ensures a == b
    decreases a
  {
    var s, t := Decimal(a), Decimal(b);
    assert s[|s| - 1] == Digit(a % 10) && t[|t| - 1] == Digit(b % 10);
    if a >= 10 && b >= 10 {
      assert s[..|s| - 1] == Decimal(a / 10) && t[..|t| - 1] == Decimal(b / 10);
      DecimalInjective(a / 10, b / 10);
    }
  }

  function StreamId(base: string, segment: nat): string {
    base + ":" + Decimal(segment)
  }

  /** Segments never share an id. */
  lemma {:induction false} StreamIdInjective(base: string, i: nat, j: nat)
    requires StreamId(base, i) == StreamId(base, j)
    ensures i == j
  {
    var n := |base + ":"|;
    assert StreamId(base, i)[n..] == Decimal(i) && StreamId(base, j)[n..] == Decimal(j);
    DecimalInjective(i, j);
  }

  /** The stream of segment `k` of a delivery. */
  function SegmentKey(channel: string, chat: string, base: string, k: nat): StreamKey {
    StreamKey(channel, chat, Some(StreamId(base, k)))
  }

  /** What the log says of stream `key`. */
  ghost predicate Carries(log: seq<OutMessage>, key: StreamKey, text: string, ends: nat) {
    StreamText(Den(log), key) == text && FinalEnds(Den(log), key) == ends
  }

  lemma CarriesMore(log: seq<OutMessage>, key: StreamKey, text: string, ends: nat, m: OutMessage)
    requires Carries(log, key, text, ends) && OfStream(m)
    ensures if KeyOf(m) == key
            then Carries(log + [m], key, text + m.content, ends + if m.event.End? && !m.event.mergeNext then 1 else 0)
            else Carries(log + [m], key, text, ends)
  {
    DenSnoc(log, m);
    AtomsAre(m, key);
    hide Den, Atoms, StreamText, FinalEnds;
    StreamTextAppend(Den(log), Atoms(m), key);
    FinalEndsAppend(Den(log), Atoms(m), key);
    assert text + "" == text;
  }

  /** The whole state of a delivery's streams: `texts[k]` was published while segment
      `k` was current, and `owners[i]` is the segment of the i-th message. */
  datatype Ledger = Ledger(log: seq<OutMessage>, texts: seq<string>, owners: seq<nat>)

  ghost predicate SegmentIs(channel: string, chat: string, base: string, g: Ledger, segment: nat, k: nat) {
    Carries(g.log, SegmentKey(channel, chat, base, k), if k < |g.texts| then g.texts[k] else "",
            if k < segment then 1 else 0)
  }

  predicate IsFinal(m: OutMessage) {
    m.event.End? && !m.event.mergeNext
  }

  /** Messages come segment by segment, and nothing follows a final end within its
      segment; a closed delivery has said nothing in its current segment. */
  ghost predicate InOrder(g: Ledger, segment: nat, isOpen: bool) {
    && |g.owners| == |g.log|
    && (forall i | 0 <= i < |g.owners| :: g.owners[i] <= segment && (!isOpen ==> g.owners[i] < segment))
    && (forall i, j | 0 <= i < j < |g.owners| :: g.owners[i] <= g.owners[j])
    && (forall i, j | 0 <= i < j < |g.owners| && IsFinal(g.log[i]) :: g.owners[i] < g.owners[j])
    && (forall i | 0 <= i < |g.owners| && IsFinal(g.log[i]) :: g.owners[i] < segment)
  }

  ghost predicate Sorted(channel: string, chat: string, base: string, g: Ledger, segment: nat) {
    && |g.texts| == segment + 1
    && (forall i | 0 <= i < |g.log| && i < |g.owners| ::
          OfStream(g.log[i]) && KeyOf(g.log[i]) == SegmentKey(channel, chat, base, g.owners[i]))
    && forall k: nat :: SegmentIs(channel, chat, base, g, segment, k)
  }

  lemma SegmentsDiffer(channel: string, chat: string, base: string, j: nat, k: nat)
    ensures SegmentKey(channel, chat, base, j) == SegmentKey(channel, chat, base, k) <==> j == k
  {
    if StreamId(base, j) == StreamId(base, k) { StreamIdInjective(base, j, k); }
  }

  /** The ledger after one more message in the current segment. */
  function Published(g: Ledger, segment: nat, m: OutMessage): Ledger
    requires segment < |g.texts|
  {
    var texts := g.texts[segment := g.texts[segment] + m.content];
    Ledger(g.log + [m], if IsFinal(m) then texts + [""] else texts, g.owners + [segment])
  }

  function SegmentAfter(segment: nat, m: OutMessage): nat {
    if IsFinal(m) then segment + 1 else segment
  }

  lemma SegmentPublished(channel: string, chat: string, base: string, g: Ledger, segment: nat, m: OutMessage, k: nat)
    requires |g.texts| == segment + 1 && SegmentIs(channel, chat, base, g, segment, k)
    requires OfStream(m) && KeyOf(m) == SegmentKey(channel, chat, base, segment)
    ensures SegmentIs(channel, chat, base, Published(g, segment, m), SegmentAfter(segment, m), k)
  {
    SegmentsDiffer(channel, chat, base, segment, k);
    hide Carries, StreamId;
    CarriesMore(g.log, SegmentKey(channel, chat, base, k), if k < |g.texts| then g.texts[k] else "",
      if k < segment then 1 else 0, m);
  }

  /** Publishing adds to the current segment only; a final end moves on to the next one. */
  lemma PublishedSorted(channel: string, chat: string, base: string, g: Ledger, segment: nat, m: OutMessage)
    requires Sorted(channel, chat, base, g, segment) && |g.owners| == |g.log|
    requires OfStream(m) && KeyOf(m) == SegmentKey(channel, chat, base, segment)
    ensures Sorted(channel, chat, base, Published(g, segment, m), SegmentAfter(segment, m))
  {
    hide SegmentIs, StreamId, SegmentKey;
    forall k: nat ensures SegmentIs(channel, chat, base, Published(g, segment, m), SegmentAfter(segment, m), k) {
      assert SegmentIs(channel, chat, base, g, segment, k);
      SegmentPublished(channel, chat, base, g, segment, m, k);
    }
  }

  lemma PublishedInOrder(g: Ledger, segment: nat, isOpen: bool, m: OutMessage)
    requires InOrder(g, segment, isOpen) && segment < |g.texts|
    ensures InOrder(Published(g, segment, m), SegmentAfter(segment, m), !IsFinal(m))
  {
  }

  lemma NothingAdded(texts: seq<string>, k: nat)
    requires k < |texts|
    ensures texts[k := texts[k] + ""] == texts
  {
    assert texts[k] + "" == texts[k];
  }

  /** The ledger after an end: nothing is said in the segment, and a final end starts the next. */
  lemma EndKeepsOrder(channel: string, chat: string, base: string, g: Ledger, segment: nat, isOpen: bool, m: OutMessage)
    requires Sorted(channel, chat, base, g, segment) && InOrder(g, segment, isOpen)
    requires m.event.End? && m.content == "" && m.channel == channel && m.chat == chat
    requires m.event.sid == Some(StreamId(base, segment))
    ensures var texts := g.texts + if m.event.mergeNext then [] else [""];
            var next := Ledger(g.log + [m], texts, g.owners + [segment]);
            var segment' := segment + if m.event.mergeNext then 0 else 1;
            Sorted(channel, chat, base, next, segment') && InOrder(next, segment', m.event.mergeNext)
  {
    hide Carries, SegmentIs, StreamId;
    PublishedSorted(channel, chat, base, g, segment, m);
    PublishedInOrder(g, segment, isOpen, m);
    EndPublished(g, segment, m);
    hide Sorted, InOrder, Published;
  }

  lemma EndPublished(g: Ledger, segment: nat, m: OutMessage)
    requires m.event.End? && m.content == "" && segment < |g.texts|
    ensures IsFinal(m) <==> !m.event.mergeNext
    ensures SegmentAfter(segment, m) == segment + if m.event.mergeNext then 0 else 1
    ensures Published(g, segment, m)
         == Ledger(g.log + [m], g.texts + if m.event.mergeNext then [] else [""], g.owners + [segment])
  {
    NothingAdded(g.texts, segment);
    assert g.texts + [] == g.texts;
  }

  class TurnDelivery {
    const channel: string
    const chat: string
    const base: string
    var segment: nat
    var isOpen: bool
    var published: seq<OutMessage>
    ghost var texts: seq<string>
    ghost var owners: seq<nat>

    ghost predicate Valid()
      reads this
    {
      && Sorted(channel, chat, base, Ledger(published, texts, owners), segment)
      && InOrder(Ledger(published, texts, owners), segment, isOpen)
    }

    constructor (channel: string, chat: string, base: string)
      ensures Valid() && this.channel == channel && this.chat == chat && this.base == base
      ensures published == [] && segment == 0 && !isOpen && texts == [""]
    {
      this.channel, this.chat, this.base := channel, chat, base;
      segment, isOpen, published := 0, false, [];
      texts, owners := [""], [];
    }

    method PublishStream(delta: string)
      requires Valid()
      modifies this
      ensures Valid() && segment == old(segment) && isOpen
      ensures |old(texts)| == old(segment) + 1 && texts == old(texts)[segment := old(texts)[segment] + delta]
      ensures published == old(published)
                           + [OutMessage(channel, chat, delta, Delta(Some(StreamId(base, segment))), "", "")]
    {
      var m := OutMessage(channel, chat, delta, Delta(Some(StreamId(base, segment))), "", "");
      PublishedSorted(channel, chat, base, Ledger(published, texts, owners), segment, m);
      PublishedInOrder(Ledger(published, texts, owners), segment, isOpen, m);
      assert |texts| == segment + 1;
      hide Sorted, InOrder, StreamId;
      published := published + [m];
      texts := texts[segment := texts[segment] + delta];
      owners := owners + [segment];
      isOpen := true;
    }

    method PublishStreamEnd(resuming: bool, mergeNext: bool)
      requires Valid()
      modifies this
      ensures Valid() && isOpen == mergeNext
      ensures segment == old(segment) + if mergeNext then 0 else 1
      ensures texts == old(texts) + if mergeNext then [] else [""]
      ensures var end := End(Some(StreamId(base, old(segment))), resuming, mergeNext);
              published == old(published) + [OutMessage(channel, chat, "", end, "", "")]
    {
      hide Sorted, InOrder, StreamId;
      var m := OutMessage(channel, chat, "", End(Some(StreamId(base, segment)), resuming, mergeNext), "", "");
      EndKeepsOrder(channel, chat, base, Ledger(published, texts, owners), segment, isOpen, m);
      published := published + [m];
      owners := owners + [segment];
      isOpen := mergeNext;
      if !mergeNext {
        segment := segment + 1;
        texts := texts + [""];
      } else {
        assert texts + [] == texts;
      }
    }

    /** After an abort every segment that was spoken in has been closed. */
    method AbortStream()
      requires Valid()
      modifies this
      ensures Valid() && !isOpen
      ensures var end := End(Some(StreamId(base, old(segment))), false, false);
              published == old(published) + if old(isOpen) then [OutMessage(channel, chat, "", end, "", "")] else []
      ensures forall i | 0 <= i < |published| :: i < |owners| && owners[i] < segment
    {
      if isOpen {
        PublishStreamEnd(false, false);
      } else {
        assert published + [] == published;
      }
    }
  }

  /** End to end: when all messages of a delivery's streams have been dispatched,
      whatever else was dispatched and however deltas were merged, the channel got
      for each segment the text published while it was current, and exactly one
      final end if the segment is past. */
  lemma EndToEnd(cfg: DispatchConfig, v: Delivered, done: seq<OutMessage>,
                 channel: string, chat: string, base: string, g: Ledger, segment: nat, k: nat)
    requires Sorted(channel, chat, base, g, segment) && channel in cfg.channels
    requires MeansFifo(cfg, v, done)
    requires StreamOf(done, SegmentKey(channel, chat, base, k)) == StreamOf(g.log, SegmentKey(channel, chat, base, k))
    ensures Carries(v.sent, SegmentKey(channel, chat, base, k), if k < |g.texts| then g.texts[k] else "",
                    if k < segment then 1 else 0)
  {
    assert SegmentIs(channel, chat, base, g, segment, k);
    hide MeansFifo, StreamOf;
    DispatchKeepsStreams(cfg, v, done, g.log, SegmentKey(channel, chat, base, k));
  }
}
