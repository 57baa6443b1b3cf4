/** The outbound dispatcher, which merges runs of stream deltas, against a plain
    dispatcher that takes one message at a time. */
module Outbound {
  import opened Seqs
  import opened Transcript

  datatype Event =
    | Delta(sid: Option<string>)
    | End(sid: Option<string>, resuming: bool, mergeNext: bool)
    | Reasoning
    | Progress(toolHint: bool)
    | RetryWait
    | RuntimeModel
    | StreamedResponse
    | Regular

  /** `origin` and `id` are the metadata ids that duplicate suppression reads; empty when missing. */
  datatype OutMessage = OutMessage(channel: string, chat: string, content: string, event: Event, origin: string,
                                   id: string)

  datatype DispatchConfig = DispatchConfig(
    channels: set<string>,
    showsReasoning: string -> bool,
    sendsProgress: (string, bool) -> bool,
    fingerprint: string -> string)

  type Prints = map<(string, string, string), string>

  // ---- The plain dispatcher ----

  /** What reached the channels, and the fingerprints of replies by source message. */
  datatype Delivered = Delivered(sent: seq<OutMessage>, prints: Prints)

  predicate Filtered(cfg: DispatchConfig, m: OutMessage) {
    || m.channel !in cfg.channels
    || (m.event.Reasoning? && !cfg.showsReasoning(m.channel))
    || (m.event.Progress? && !cfg.sendsProgress(m.channel, m.event.toolHint))
    || m.event.RetryWait?
  }

  /** Kinds that are never suppressed as duplicates. */
  predicate Exempt(e: Event) {
    e.Delta? || e.End? || e.StreamedResponse? || e.Progress? || e.Reasoning?
  }

  predicate Duplicate(cfg: DispatchConfig, prints: Prints, m: OutMessage) {
    var p, key := cfg.fingerprint(m.content), (m.channel, m.chat, m.origin);
    p != "" && m.origin != "" && key in prints && prints[key] == p
  }

  function Noted(cfg: DispatchConfig, prints: Prints, m: OutMessage): Prints {
    var p := cfg.fingerprint(m.content);
    if p == "" then prints
    else
      var prints' := if m.origin != "" then prints[(m.channel, m.chat, m.origin) := p] else prints;
      if m.id != "" then prints'[(m.channel, m.chat, m.id) := p] else prints'
  }

  /** One message, taken on its own. */
  function Handle(cfg: DispatchConfig, v: Delivered, m: OutMessage): Delivered {
    if Filtered(cfg, m) then v
    else if Exempt(m.event) then Delivered(v.sent + [m], v.prints)
    else if Duplicate(cfg, v.prints, m) then v
    else Delivered(v.sent + [m], Noted(cfg, v.prints, m))
  }

  /** All messages in queue order, one at a time. */
  function Fifo(cfg: DispatchConfig, ms: seq<OutMessage>): Delivered {
    if ms == [] then Delivered([], map[]) else Handle(cfg, Fifo(cfg, ms[..|ms| - 1]), ms[|ms| - 1])
  }

  // ---- What is sent ----

  /** The message is for a known channel that wants its kind. */
  predicate Passes(cfg: DispatchConfig, m: OutMessage) {
    && m.channel in cfg.channels
    && match m.event
       case Reasoning => cfg.showsReasoning(m.channel)
       case Progress(toolHint) => cfg.sendsProgress(m.channel, toolHint)
       case RetryWait => false
       case _ => true
  }

  /** The kinds that are compared with what was said before. */
  predicate Compared(e: Event) {
    e.Regular? || e.RuntimeModel?
  }

  /** A message that answers or is the message `key` names, with text to compare. */
  predicate NotesUnder(cfg: DispatchConfig, m: OutMessage, key: (string, string, string)) {
    && Compared(m.event) && cfg.fingerprint(m.content) != ""
    && m.channel == key.0 && m.chat == key.1 && key.2 != "" && (m.origin == key.2 || m.id == key.2)
  }

  predicate LastNote(cfg: DispatchConfig, sent: seq<OutMessage>, key: (string, string, string), j: nat) {
    && j < |sent| && NotesUnder(cfg, sent[j], key)
    && forall l | j < l < |sent| :: !NotesUnder(cfg, sent[l], key)
  }

  /** The last that was sent under `key` has this fingerprint. */
  ghost predicate LastPrint(cfg: DispatchConfig, sent: seq<OutMessage>, key: (string, string, string), p: string) {
    exists j: nat :: LastNote(cfg, sent, key, j) && cfg.fingerprint(sent[j].content) == p
  }

  /** The message says once more what was last said to its source message. */
  ghost predicate Repeats(cfg: DispatchConfig, sent: seq<OutMessage>, m: OutMessage) {
    && Compared(m.event) && m.origin != "" && cfg.fingerprint(m.content) != ""
    && LastPrint(cfg, sent, (m.channel, m.chat, m.origin), cfg.fingerprint(m.content))
  }

  ghost predicate IsSent(cfg: DispatchConfig, sent: seq<OutMessage>, m: OutMessage) {
    Passes(cfg, m) && !Repeats(cfg, sent, m)
  }

  /** The fingerprints that are kept are those of what was sent last. */
  ghost predicate PrintsAre(cfg: DispatchConfig, sent: seq<OutMessage>, prints: Prints) {
    forall key, p :: key in prints && prints[key] == p <==> LastPrint(cfg, sent, key, p)
  }

  lemma LastPrintSnoc(cfg: DispatchConfig, sent: seq<OutMessage>, m: OutMessage, key: (string, string, string),
                      p: string)
    ensures LastPrint(cfg, sent + [m], key, p) <==>
            if NotesUnder(cfg, m, key) then cfg.fingerprint(m.content) == p else LastPrint(cfg, sent, key, p)
  {
    hide NotesUnder;
    var more, n := sent + [m], |sent|;
    assert more[n] == m && forall l | 0 <= l < n :: more[l] == sent[l];
    if NotesUnder(cfg, m, key) {
      assert LastNote(cfg, more, key, n);
    } else {
      if j: nat :| LastNote(cfg, sent, key, j) && cfg.fingerprint(sent[j].content) == p {
        assert LastNote(cfg, more, key, j);
      }
      if j: nat :| LastNote(cfg, more, key, j) && cfg.fingerprint(more[j].content) == p {
        assert LastNote(cfg, sent, key, j);
      }
    }
  }

  lemma NotedPrints(cfg: DispatchConfig, prints: Prints, m: OutMessage, key: (string, string, string))
    ensures var prints' := if Compared(m.event) then Noted(cfg, prints, m) else prints;
            if NotesUnder(cfg, m, key) then key in prints' && prints'[key] == cfg.fingerprint(m.content)
            else (key in prints' <==> key in prints) && (key in prints ==> prints'[key] == prints[key])
  {
    assert (m.channel, m.chat, m.origin) == key <==> m.channel == key.0 && m.chat == key.1 && m.origin == key.2;
    assert (m.channel, m.chat, m.id) == key <==> m.channel == key.0 && m.chat == key.1 && m.id == key.2;
  }

  lemma DuplicateIff(cfg: DispatchConfig, sent: seq<OutMessage>, prints: Prints, m: OutMessage)
    requires PrintsAre(cfg, sent, prints) && Compared(m.event)
    ensures Duplicate(cfg, prints, m) <==> Repeats(cfg, sent, m)
  {
    hide LastPrint;
    var key, p := (m.channel, m.chat, m.origin), cfg.fingerprint(m.content);
    assert key in prints && prints[key] == p <==> LastPrint(cfg, sent, key, p);
  }

  /** Handling a message sends it exactly when it passes and does not repeat. */
  lemma HandleSends(cfg: DispatchConfig, v: Delivered, m: OutMessage)
    requires PrintsAre(cfg, v.sent, v.prints)
    ensures var v' := Handle(cfg, v, m);
            && v'.sent == (if IsSent(cfg, v.sent, m) then v.sent + [m] else v.sent)
            && PrintsAre(cfg, v'.sent, v'.prints)
  {
    var v' := Handle(cfg, v, m);
    assert Filtered(cfg, m) <==> !Passes(cfg, m);
    assert Passes(cfg, m) ==> (Compared(m.event) <==> !Exempt(m.event));
    if Compared(m.event) { DuplicateIff(cfg, v.sent, v.prints, m); }
    hide Passes, Filtered, Exempt, Duplicate, LastPrint, NotesUnder, Noted;
    if IsSent(cfg, v.sent, m) {
      forall k, p ensures k in v'.prints && v'.prints[k] == p <==> LastPrint(cfg, v'.sent, k, p) {
        LastPrintSnoc(cfg, v.sent, m, k, p);
        NotedPrints(cfg, v.prints, m, k);
        assert k in v.prints && v.prints[k] == p <==> LastPrint(cfg, v.sent, k, p);
      }
    }
  }

  /** The first `k` of the places are those before `i`. */
  predicate SentBefore(at: seq<nat>, i: nat, k: nat) {
    k <= |at| && (forall j | 0 <= j < k :: at[j] < i) && forall j | k <= j < |at| :: at[j] >= i
  }

  /** Message `i` is among the sent ones exactly when it passes and does not repeat what
      was sent before it. */
  ghost predicate SentIff(cfg: DispatchConfig, ms: seq<OutMessage>, at: seq<nat>, sent: seq<OutMessage>, i: nat, k: nat)
    requires i < |ms| && |sent| == |at| && SentBefore(at, i, k)
  {
    i in at <==> IsSent(cfg, sent[..k], ms[i])
  }

  /** Of the messages those at `at` are sent, in queue order, and no other. */
  ghost predicate SendsAt(cfg: DispatchConfig, ms: seq<OutMessage>, at: seq<nat>, sent: seq<OutMessage>) {
    && |sent| == |at|
    && (forall k | 0 <= k < |at| :: at[k] < |ms| && sent[k] == ms[at[k]])
    && (forall j, k | 0 <= j < k < |at| :: at[j] < at[k])
    && forall i: nat, k: nat | i < |ms| && SentBefore(at, i, k) :: SentIff(cfg, ms, at, sent, i, k)
  }

  /** Plain dispatch, without its bookkeeping. */
  lemma {:induction false} FifoSendsIff(cfg: DispatchConfig, ms: seq<OutMessage>) returns (at: seq<nat>)
    ensures SendsAt(cfg, ms, at, Fifo(cfg, ms).sent)
    ensures PrintsAre(cfg, Fifo(cfg, ms).sent, Fifo(cfg, ms).prints)
  {
    hide SendsAt, PrintsAre, IsSent, Handle;
    at := [];
    if ms == [] {
      NothingSent(cfg);
    } else {
      var front, m := ms[..|ms| - 1], ms[|ms| - 1];
      at := FifoSendsIff(cfg, front);
      var v := Fifo(cfg, front);
      HandleSends(cfg, v, m);
      SendsSnoc(cfg, front, at, v.sent, m);
      assert front + [m] == ms;
      if IsSent(cfg, v.sent, m) { at := at + [|front|]; }
    }
  }

  lemma NothingSent(cfg: DispatchConfig)
    ensures SendsAt(cfg, [], [], []) && PrintsAre(cfg, [], map[])
  {
  }

  /** All places of `n` messages are before the next one. */
  lemma BeforeNext(at: seq<nat>, n: nat, i: nat, k: nat)
    requires (forall j | 0 <= j < |at| :: at[j] < n) && i <= n
    ensures SentBefore(at + [n], i, k) ==> k <= |at| && SentBefore(at, i, k)
    ensures i == n && SentBefore(at, i, k) ==> k == |at|
  {
    assert (at + [n])[|at|] == n;
    assert forall j | 0 <= j < |at| :: (at + [n])[j] == at[j];
    if k < |at| { assert at[k] < n; }
  }

  lemma SendsSnoc(cfg: DispatchConfig, ms: seq<OutMessage>, at: seq<nat>, sent: seq<OutMessage>, m: OutMessage)
    requires SendsAt(cfg, ms, at, sent)
    ensures if IsSent(cfg, sent, m) then SendsAt(cfg, ms + [m], at + [|ms|], sent + [m])
            else SendsAt(cfg, ms + [m], at, sent)
  {
    hide IsSent, SentBefore, SentIff;
    var n, all, goes := |ms|, ms + [m], IsSent(cfg, sent, m);
    var at', sent' := if goes then at + [n] else at, if goes then sent + [m] else sent;
    forall i: nat, k: nat | i <= n && SentBefore(at', i, k) ensures SentIff(cfg, all, at', sent', i, k) {
      SentStays(cfg, ms, at, sent, m, i, k);
    }
    assert forall k | 0 <= k < |at'| :: at'[k] <= n && sent'[k] == all[at'[k]];
  }

  /** One more message changes nothing for those before it. */
  lemma SentStays(cfg: DispatchConfig, ms: seq<OutMessage>, at: seq<nat>, sent: seq<OutMessage>, m: OutMessage, i: nat,
                  k: nat)
    requires |sent| == |at| && (forall j | 0 <= j < |at| :: at[j] < |ms|) && i <= |ms|
    requires i < |ms| && SentBefore(at, i, k) ==> SentIff(cfg, ms, at, sent, i, k)
    requires SentBefore(if IsSent(cfg, sent, m) then at + [|ms|] else at, i, k)
    ensures if IsSent(cfg, sent, m) then SentIff(cfg, ms + [m], at + [|ms|], sent + [m], i, k)
            else SentIff(cfg, ms + [m], at, sent, i, k)
  {
    var n := |ms|;
    BeforeNext(at, n, i, k);
    assert k <= |at|;
    hide IsSent, SentBefore;
    assert (sent + [m])[..k] == sent[..k];
    if i == n { assert sent[..k] == sent; }
  }

  // ---- What messages mean to a channel ----

  datatype StreamKey = StreamKey(channel: string, chat: string, sid: Option<string>)

  datatype Atom =
    | Chr(key: StreamKey, c: char)
    | EndMark(key: StreamKey, resuming: bool, mergeNext: bool)
    | Other(m: OutMessage)

  predicate OfStream(m: OutMessage) {
    m.event.Delta? || m.event.End?
  }

  function KeyOf(m: OutMessage): StreamKey
    requires OfStream(m)
  {
    StreamKey(m.channel, m.chat, m.event.sid)
  }

  function Chars(key: StreamKey, s: string): seq<Atom> {
    seq(|s|, i requires 0 <= i < |s| => Chr(key, s[i]))
  }

  function Atoms(m: OutMessage): seq<Atom> {
    match m.event
    case Delta(_) => Chars(KeyOf(m), m.content)
    case End(_, resuming, mergeNext) => Chars(KeyOf(m), m.content) + [EndMark(KeyOf(m), resuming, mergeNext)]
    case _ => [Other(m)]
  }

  /** A delta is its characters, an end its characters and a mark, the rest itself. */
  function Den(ms: seq<OutMessage>): seq<Atom> {
    if ms == [] then [] else Den(ms[..|ms| - 1]) + Atoms(ms[|ms| - 1])
  }

  lemma DenSnoc(ms: seq<OutMessage>, m: OutMessage)
    ensures Den(ms + [m]) == Den(ms) + Atoms(m)
  {
    assert (ms + [m])[..|ms|] == ms;
  }

  lemma FifoSnoc(cfg: DispatchConfig, ms: seq<OutMessage>, m: OutMessage)
    ensures Fifo(cfg, ms + [m]) == Handle(cfg, Fifo(cfg, ms), m)
  {
    assert (ms + [m])[..|ms|] == ms;
  }

  // ---- Coalescing ----

  predicate Merges(first: OutMessage, m: OutMessage)
    requires OfStream(first)
  {
    OfStream(m) && KeyOf(m) == KeyOf(first) && (m.event.Delta? || m.content != "")
  }

  function MergeOne(merged: OutMessage, m: OutMessage): OutMessage {
    OutMessage(merged.channel, merged.chat, merged.content + m.content, m.event, merged.origin, merged.id)
  }

  /** Two messages of one stream mean the same apart and merged. */
  lemma MergeMeansBoth(merged: OutMessage, m: OutMessage)
    requires merged.event.Delta? && OfStream(m) && KeyOf(m) == KeyOf(merged)
    ensures Atoms(MergeOne(merged, m)) == Atoms(merged) + Atoms(m)
    ensures OfStream(MergeOne(merged, m)) && KeyOf(MergeOne(merged, m)) == KeyOf(merged)
  {
    var key := KeyOf(m);
    assert Chars(key, merged.content + m.content) == Chars(key, merged.content) + Chars(key, m.content);
  }

  /** What has gone to the channels means what plain dispatch of `done` would have
      sent; `at` is a delta taken from the queue and not yet sent. */
  ghost predicate MeansFifo(cfg: DispatchConfig, v: Delivered, done: seq<OutMessage>) {
    var plain := Fifo(cfg, done);
    Den(v.sent) == Den(plain.sent) && v.prints == plain.prints
  }

  lemma HandleMeans(cfg: DispatchConfig, v: Delivered, done: seq<OutMessage>, m: OutMessage)
    requires MeansFifo(cfg, v, done)
    ensures MeansFifo(cfg, Handle(cfg, v, m), done + [m])
  {
    FifoSnoc(cfg, done, m);
    hide Fifo, Handle, Den;
    HandleSame(cfg, v, Fifo(cfg, done), m);
  }

  lemma HandleSame(cfg: DispatchConfig, v: Delivered, w: Delivered, m: OutMessage)
    requires Den(v.sent) == Den(w.sent) && v.prints == w.prints
    ensures Den(Handle(cfg, v, m).sent) == Den(Handle(cfg, w, m).sent)
    ensures Handle(cfg, v, m).prints == Handle(cfg, w, m).prints
  {
    hide Den, Atoms, Noted, Duplicate;
    DenSnoc(v.sent, m);
    DenSnoc(w.sent, m);
  }

  /** Handling the merge of a delta and a run of its stream is handling them apart. */
  ghost predicate MergedRun(merged: OutMessage, run: seq<OutMessage>) {
    && run != [] && OfStream(merged)
    && (forall m | m in run :: OfStream(m) && KeyOf(m) == KeyOf(merged))
    && Atoms(merged) == Den(run)
  }

  lemma SingleRun(first: OutMessage)
    requires first.event.Delta?
    ensures MergedRun(first, [first])
  {
    assert [first][..0] == [];
    assert [] + Atoms(first) == Atoms(first);
  }

  lemma RunExtends(merged: OutMessage, run: seq<OutMessage>, m: OutMessage)
    requires MergedRun(merged, run) && merged.event.Delta? && OfStream(m) && KeyOf(m) == KeyOf(merged)
    ensures MergedRun(MergeOne(merged, m), run + [m])
  {
    MergeMeansBoth(merged, m);
    DenSnoc(run, m);
  }

  /** A stream message is sent unless its channel is unknown. */
  lemma StreamHandled(cfg: DispatchConfig, v: Delivered, m: OutMessage)
    requires OfStream(m)
    ensures var v' := Handle(cfg, v, m);
            && v'.prints == v.prints
            && Den(v'.sent) == if m.channel in cfg.channels then Den(v.sent) + Atoms(m) else Den(v.sent)
  {
    DenSnoc(v.sent, m);
  }

  ghost predicate RunDelivered(cfg: DispatchConfig, done: seq<OutMessage>, run: seq<OutMessage>, key: StreamKey) {
    var before, after := Fifo(cfg, done), Fifo(cfg, done + run);
    && after.prints == before.prints
    && Den(after.sent) == if key.channel in cfg.channels then Den(before.sent) + Den(run) else Den(before.sent)
  }

  lemma NothingDelivered(cfg: DispatchConfig, done: seq<OutMessage>, key: StreamKey)
    ensures RunDelivered(cfg, done, [], key)
  {
    assert done + [] == done;
    assert Den(Fifo(cfg, done).sent) + Den([]) == Den(Fifo(cfg, done).sent);
  }

  lemma OneMoreDelivered(cfg: DispatchConfig, done: seq<OutMessage>, front: seq<OutMessage>, m: OutMessage)
    requires OfStream(m) && RunDelivered(cfg, done, front, KeyOf(m))
    ensures RunDelivered(cfg, done, front + [m], KeyOf(m))
  {
    hide Fifo, Den, Handle, Atoms;
    assert done + (front + [m]) == done + front + [m];
    FifoSnoc(cfg, done + front, m);
    StreamHandled(cfg, Fifo(cfg, done + front), m);
    DenSnoc(front, m);
    Regroup(Den(Fifo(cfg, done).sent), Den(front), Atoms(m));
  }

  lemma {:induction false} FifoRun(cfg: DispatchConfig, done: seq<OutMessage>, run: seq<OutMessage>, key: StreamKey)
    requires forall m | m in run :: OfStream(m) && KeyOf(m) == key
    ensures RunDelivered(cfg, done, run, key)
  {
    hide RunDelivered;
    if run == [] {
      NothingDelivered(cfg, done, key);
    } else {
      var front, m := run[..|run| - 1], run[|run| - 1];
      assert m in run && forall x | x in front :: x in run;
      FifoRun(cfg, done, front, key);
      OneMoreDelivered(cfg, done, front, m);
      assert run == front + [m];
    }
  }

  lemma MergedMeansRun(cfg: DispatchConfig, v: Delivered, done: seq<OutMessage>, merged: OutMessage,
                       run: seq<OutMessage>)
    requires MeansFifo(cfg, v, done) && MergedRun(merged, run)
    ensures MeansFifo(cfg, Handle(cfg, v, merged), done + run)
  {
    FifoRun(cfg, done, run, KeyOf(merged));
    DenSnoc(v.sent, merged);
  }

  lemma MergesMeans(first: OutMessage, merged: OutMessage, run: seq<OutMessage>, m: OutMessage)
    requires OfStream(first) && Merges(first, m) && MergedRun(merged, run)
    requires merged.event.Delta? && KeyOf(merged) == KeyOf(first)
    ensures MergedRun(MergeOne(merged, m), run + [m])
    ensures m.event.Delta? ==> MergeOne(merged, m).event.Delta? && KeyOf(MergeOne(merged, m)) == KeyOf(first)
  {
    hide MergedRun;
    RunExtends(merged, run, m);
  }

  lemma TakesNext<T>(first: T, waiting: seq<T>, n: nat)
    requires n < |waiting|
    ensures waiting[n..][0] == waiting[n] && waiting[n..][1..] == waiting[n + 1..]
    ensures [first] + waiting[..n] + [waiting[n]] == [first] + waiting[..n + 1]
    ensures waiting[n..] == [waiting[n]] + waiting[n + 1..]
  {
  }

  lemma Consumed<T>(first: T, waiting: seq<T>, n: nat, extra: seq<T>, left: seq<T>)
    requires n <= |waiting| && waiting[n..] == extra + left
    ensures [first] + waiting == [first] + waiting[..n] + extra + left
  {
    assert waiting == waiting[..n] + waiting[n..];
  }

  class ChannelManager {
    const cfg: DispatchConfig
    var queue: seq<OutMessage>
    var pending: seq<OutMessage>
    var sent: seq<OutMessage>
    var prints: Prints
    ghost var arrived: seq<OutMessage>
    ghost var done: seq<OutMessage>

    /** Messages are done, or wait at the head in `pending` (at most one), or behind
        it in the queue; and the channels got what plain dispatch would have sent. */
    ghost predicate Valid()
      reads this
    {
      && |pending| <= 1
      && arrived == done + pending + queue
      && MeansFifo(cfg, Delivered(sent, prints), done) && PrintsAre(cfg, sent, prints)
    }

    constructor (cfg: DispatchConfig)
      ensures Valid() && this.cfg == cfg && arrived == []
    {
      this.cfg := cfg;
      queue, pending, sent, prints := [], [], [], map[];
      arrived, done := [], [];
    }

    method Publish(m: OutMessage)
      requires Valid()
      modifies this`queue, this`arrived
      ensures Valid() && arrived == old(arrived) + [m]
    {
      queue := queue + [m];
      arrived := arrived + [m];
    }

    /** Merge the stream run behind a delta that has just been taken. */
    method CoalesceStreamDeltas(first: OutMessage)
      returns (merged: OutMessage, extra: seq<OutMessage>, ghost run: seq<OutMessage>)
      requires first.event.Delta?
      modifies this`queue
      ensures MergedRun(merged, run)
      ensures [first] + old(queue) == run + extra + queue && |extra| <= 1
    {
      SingleRun(first);
      hide *;
      merged, extra, run := first, [], [first];
      ghost var waiting, n := queue, 0;
      assert waiting[0..] == waiting && [first] + waiting[..0] == [first];
      while queue != []
        invariant MergedRun(merged, run) && merged.event.Delta? && KeyOf(merged) == KeyOf(first)
        invariant n <= |waiting| && queue == waiting[n..] && run == [first] + waiting[..n] && extra == []
        decreases |queue|
      {
        var next := queue[0];
        queue := queue[1..];
        TakesNext(first, waiting, n);
        if Merges(first, next) {
          MergesMeans(first, merged, run, next);
          merged := MergeOne(merged, next);
          run := run + [next];
          n := n + 1;
          if next.event.End? {
            break;
          }
        } else {
          extra := [next];
          break;
        }
      }
      Consumed(first, waiting, n, extra, queue);
    }

    method ShouldSuppressOutbound(m: OutMessage) returns (suppress: bool)
      modifies this`prints
      ensures suppress == (!Exempt(m.event) && Duplicate(cfg, old(prints), m))
      ensures prints == if Exempt(m.event) || suppress then old(prints) else Noted(cfg, old(prints), m)
      ensures Compared(m.event) && old(PrintsAre(cfg, sent, prints)) ==> (suppress <==> Repeats(cfg, sent, m))
    {
      if Compared(m.event) && PrintsAre(cfg, sent, prints) { DuplicateIff(cfg, sent, prints, m); }
      hide PrintsAre, Repeats;
      if Exempt(m.event) {
        return false;
      }
      var p := cfg.fingerprint(m.content);
      if p == "" {
        return false;
      }
      if m.origin != "" {
        var key := (m.channel, m.chat, m.origin);
        if key in prints && prints[key] == p {
          return true;
        }
        prints := prints[key := p];
      }
      if m.id != "" {
        prints := prints[(m.channel, m.chat, m.id) := p];
      }
      return false;
    }

    /** Filter one message or hand it to its channel. */
    method Deliver(m: OutMessage)
      modifies this`sent, this`prints
      ensures Delivered(sent, prints) == Handle(cfg, old(Delivered(sent, prints)), m)
      ensures old(PrintsAre(cfg, sent, prints)) ==>
                && sent == (if IsSent(cfg, old(sent), m) then old(sent) + [m] else old(sent))
                && PrintsAre(cfg, sent, prints)
    {
      if PrintsAre(cfg, sent, prints) { HandleSends(cfg, Delivered(sent, prints), m); }
      hide Noted, Duplicate, PrintsAre, IsSent, Repeats;
      if m.event.Reasoning? {
        if m.channel in cfg.channels && cfg.showsReasoning(m.channel) {
          sent := sent + [m];
        }
        return;
      }
      if m.event.Progress? && !cfg.sendsProgress(m.channel, m.event.toolHint) {
        return;
      }
      if m.event.RetryWait? {
        return;
      }
      if m.event.RuntimeModel? && m.channel == "websocket" && "websocket" !in cfg.channels {
        return;
      }
      if m.channel in cfg.channels {
        var suppress := ShouldSuppressOutbound(m);
        if !suppress {
          sent := sent + [m];
        }
      }
    }

    method TakeNext() returns (m: OutMessage)
      requires Valid() && pending + queue != []
      modifies this`queue, this`pending
      ensures pending == [] && arrived == done + ([m] + queue)
    {
      if pending != [] {
        m := pending[0];
        pending := pending[1..];
      } else {
        m := queue[0];
        queue := queue[1..];
      }
    }

    /** One round of the dispatcher. A delta passes the filters, so it may be merged first. */
    method DispatchOne()
      requires Valid() && pending + queue != []
      modifies this`queue, this`pending, this`sent, this`prints, this`done
      ensures Valid() && arrived == old(arrived) && |old(done)| < |done|
    {
      hide MeansFifo, MergedRun, Handle, PrintsAre, IsSent;
      var m := TakeNext();
      ghost var before, run := Delivered(sent, prints), [m];
      ghost var waiting := queue;
      HandleMeans(cfg, before, done, m);
      if m.event.Delta? {
        var merged, extra;
        merged, extra, run := CoalesceStreamDeltas(m);
        pending := extra;
        MergedMeansRun(cfg, before, done, merged, run);
        m := merged;
        RunIsNonEmpty(merged, run);
      } else {
        assert [m] + queue == run + pending + queue;
      }
      Deliver(m);
      RejoinAll(done, run, pending, queue);
      done := done + run;
    }

    method PublishAll(late: seq<OutMessage>)
      requires Valid()
      modifies this`queue, this`arrived
      ensures Valid() && arrived == old(arrived) + late
    {
      for k := 0 to |late|
        invariant Valid() && arrived == old(arrived) + late[..k]
      {
        Publish(late[k]);
      }
    }

    /** One round behind newly published messages. */
    method Round(late: seq<OutMessage>)
      requires Valid()
      modifies this
      ensures Valid() && arrived == old(arrived) + late
      ensures |old(done)| < |done| || (done == arrived && done == old(done))
    {
      hide MeansFifo;
      PublishAll(late);
      if pending + queue != [] {
        DispatchOne();
      }
    }

    /** Any number of rounds, with any messages published before each of them. A round with
        something waiting gets at least one message done, so after enough quiet rounds
        everything that arrived is done, and means what plain dispatch of it sends. */
    method DispatchOutbound(rounds: nat, arrivals: nat -> seq<OutMessage>)
      requires Valid()
      modifies this
      ensures Valid() && arrived == old(arrived) + PublishedIn(rounds, arrivals)
      ensures |done| >= QuietRounds(rounds, arrivals) || done == arrived
      ensures QuietRounds(rounds, arrivals) >= |arrived| ==> MeansFifo(cfg, Delivered(sent, prints), arrived)
    {
      hide MeansFifo, PrintsAre;
      assert old(arrived) + [] == old(arrived);
      for i := 0 to rounds
        invariant Valid() && arrived == old(arrived) + PublishedIn(i, arrivals)
        invariant |done| >= QuietRounds(i, arrivals) || done == arrived
      {
        hide Valid;
        Regroup(old(arrived), PublishedIn(i, arrivals), arrivals(i));
        Round(arrivals(i));
      }
      AllDone();
    }

    lemma AllDone()
      requires Valid()
      ensures |done| >= |arrived| ==> done == arrived
      ensures done == arrived ==> MeansFifo(cfg, Delivered(sent, prints), arrived)
    {
      hide MeansFifo;
      if |done| >= |arrived| { assert done + pending + queue == done; }
    }
  }

  /** How many of the last rounds nothing was published in. */
  function QuietRounds(rounds: nat, arrivals: nat -> seq<OutMessage>): nat {
    if rounds == 0 || arrivals(rounds - 1) != [] then 0 else 1 + QuietRounds(rounds - 1, arrivals)
  }

  function PublishedIn(rounds: nat, arrivals: nat -> seq<OutMessage>): seq<OutMessage> {
    if rounds == 0 then [] else PublishedIn(rounds - 1, arrivals) + arrivals(rounds - 1)
  }

  lemma RunIsNonEmpty(merged: OutMessage, run: seq<OutMessage>)
    requires MergedRun(merged, run)
    ensures run != []
  {
  }

  lemma RejoinAll<T>(a: seq<T>, b: seq<T>, c: seq<T>, d: seq<T>)
    ensures a + (b + c + d) == a + b + c + d
  {
  }

  // ---- What one stream receives ----

  /** The text of a stream. */
  function StreamText(atoms: seq<Atom>, key: StreamKey): string {
    if atoms == [] then ""
    else
      var front, a := StreamText(atoms[..|atoms| - 1], key), atoms[|atoms| - 1];
      if a.Chr? && a.key == key then front + [a.c] else front
  }

  /** How often a stream is closed for good. */
  function FinalEnds(atoms: seq<Atom>, key: StreamKey): nat {
    if atoms == [] then 0
    else
      var a := atoms[|atoms| - 1];
      FinalEnds(atoms[..|atoms| - 1], key) + if a.EndMark? && a.key == key && !a.mergeNext then 1 else 0
  }

  lemma {:induction false} StreamTextAppend(a: seq<Atom>, b: seq<Atom>, key: StreamKey)
    ensures StreamText(a + b, key) == StreamText(a, key) + StreamText(b, key)
  {
    if b == [] {
      assert a + b == a;
    } else {
      SplitLast(a, b);
      StreamTextAppend(a, b[..|b| - 1], key);
    }
  }

  lemma {:induction false} FinalEndsAppend(a: seq<Atom>, b: seq<Atom>, key: StreamKey)
    ensures FinalEnds(a + b, key) == FinalEnds(a, key) + FinalEnds(b, key)
  {
    if b == [] {
      assert a + b == a;
    } else {
      SplitLast(a, b);
      FinalEndsAppend(a, b[..|b| - 1], key);
    }
  }

  lemma {:induction false} CharsAre(key: StreamKey, s: string, other: StreamKey)
    ensures StreamText(Chars(key, s), other) == if key == other then s else ""
    ensures FinalEnds(Chars(key, s), other) == 0
  {
    if s != "" {
      var front := s[..|s| - 1];
      CharsAre(key, front, other);
      assert Chars(key, s)[..|s| - 1] == Chars(key, front);
      assert s == front + [s[|s| - 1]];
    }
  }

  lemma AtomsAre(m: OutMessage, key: StreamKey)
    ensures var mine := OfStream(m) && KeyOf(m) == key;
            && StreamText(Atoms(m), key) == (if mine then m.content else "")
            && FinalEnds(Atoms(m), key) == (if mine && m.event.End? && !m.event.mergeNext then 1 else 0)
  {
    if OfStream(m) {
      CharsAre(KeyOf(m), m.content, key);
      if m.event.End? {
        var e := [EndMark(KeyOf(m), m.event.resuming, m.event.mergeNext)];
        assert e[..0] == [];
        StreamTextAppend(Chars(KeyOf(m), m.content), e, key);
        FinalEndsAppend(Chars(KeyOf(m), m.content), e, key);
      }
    } else {
      assert [Other(m)][..0] == [];
    }
  }

  lemma HandledForStream(cfg: DispatchConfig, v: Delivered, m: OutMessage, key: StreamKey)
    requires key.channel in cfg.channels
    ensures var v' := Handle(cfg, v, m);
            && StreamText(Den(v'.sent), key) == StreamText(Den(v.sent), key) + StreamText(Atoms(m), key)
            && FinalEnds(Den(v'.sent), key) == FinalEnds(Den(v.sent), key) + FinalEnds(Atoms(m), key)
  {
    AtomsAre(m, key);
    DenSnoc(v.sent, m);
    hide Den, Atoms, StreamText, FinalEnds;
    StreamTextAppend(Den(v.sent), Atoms(m), key);
    FinalEndsAppend(Den(v.sent), Atoms(m), key);
    assert StreamText(Den(v.sent), key) + "" == StreamText(Den(v.sent), key);
  }

  /** Plain dispatch delivers every stream of a known channel in full. */
  lemma {:induction false} FifoKeepsStreams(cfg: DispatchConfig, ms: seq<OutMessage>, key: StreamKey)
    requires key.channel in cfg.channels
    ensures StreamText(Den(Fifo(cfg, ms).sent), key) == StreamText(Den(ms), key)
    ensures FinalEnds(Den(Fifo(cfg, ms).sent), key) == FinalEnds(Den(ms), key)
  {
    if ms != [] {
      var front, m := ms[..|ms| - 1], ms[|ms| - 1];
      var v := Fifo(cfg, front);
      FifoKeepsStreams(cfg, front, key);
      assert ms == front + [m];
      FifoSnoc(cfg, front, m);
      HandledForStream(cfg, v, m, key);
      DenSnoc(front, m);
      hide *;
      StreamTextAppend(Den(front), Atoms(m), key);
      FinalEndsAppend(Den(front), Atoms(m), key);
    }
  }

  /** The messages of one stream. */
  function StreamOf(ms: seq<OutMessage>, key: StreamKey): seq<OutMessage> {
    if ms == [] then []
    else
      var front, m := StreamOf(ms[..|ms| - 1], key), ms[|ms| - 1];
      if OfStream(m) && KeyOf(m) == key then front + [m] else front
  }

  lemma {:induction false} StreamOfMeansAll(ms: seq<OutMessage>, key: StreamKey)
    ensures StreamText(Den(ms), key) == StreamText(Den(StreamOf(ms, key)), key)
    ensures FinalEnds(Den(ms), key) == FinalEnds(Den(StreamOf(ms, key)), key)
  {
    if ms != [] {
      var front, m := ms[..|ms| - 1], ms[|ms| - 1];
      StreamOfMeansAll(front, key);
      AtomsAre(m, key);
      StreamTextAppend(Den(front), Atoms(m), key);
      FinalEndsAppend(Den(front), Atoms(m), key);
      var kept := StreamOf(front, key);
      DenSnoc(kept, m);
      StreamTextAppend(Den(kept), Atoms(m), key);
      FinalEndsAppend(Den(kept), Atoms(m), key);
    }
  }

  /** Whatever the coalescing dispatcher sent for `done` gives each stream of a
      known channel the text and the final ends that were published for it. */
  lemma DispatchKeepsStreams(cfg: DispatchConfig, v: Delivered, done: seq<OutMessage>, published: seq<OutMessage>,
                             key: StreamKey)
    requires MeansFifo(cfg, v, done) && key.channel in cfg.channels
    requires StreamOf(done, key) == StreamOf(published, key)
    ensures StreamText(Den(v.sent), key) == StreamText(Den(published), key)
    ensures FinalEnds(Den(v.sent), key) == FinalEnds(Den(published), key)
  {
    FifoKeepsStreams(cfg, done, key);
    StreamOfMeansAll(done, key);
    StreamOfMeansAll(published, key);
  }

  // ---- What else the channels receive ----

  /** The messages that are no part of a stream. */
  function Singles(ms: seq<OutMessage>): seq<OutMessage> {
    if ms == [] then []
    else
      var front, m := Singles(ms[..|ms| - 1]), ms[|ms| - 1];
      if OfStream(m) then front else front + [m]
  }

  function SinglesIn(atoms: seq<Atom>): seq<OutMessage> {
    if atoms == [] then []
    else
      var front, a := SinglesIn(atoms[..|atoms| - 1]), atoms[|atoms| - 1];
      if a.Other? then front + [a.m] else front
  }

  lemma {:induction false} SinglesAppend(a: seq<Atom>, b: seq<Atom>)
    ensures SinglesIn(a + b) == SinglesIn(a) + SinglesIn(b)
  {
    if b == [] {
      assert a + b == a;
    } else {
      SplitLast(a, b);
      SinglesAppend(a, b[..|b| - 1]);
    }
  }

  lemma {:induction false} StreamsHaveNoSingles(atoms: seq<Atom>)
    requires forall a | a in atoms :: !a.Other?
    ensures SinglesIn(atoms) == []
  {
    if atoms != [] {
      assert atoms[|atoms| - 1] in atoms;
      StreamsHaveNoSingles(atoms[..|atoms| - 1]);
    }
  }

  lemma {:induction false} SinglesMean(ms: seq<OutMessage>)
    ensures SinglesIn(Den(ms)) == Singles(ms)
  {
    if ms != [] {
      var front, m := ms[..|ms| - 1], ms[|ms| - 1];
      SinglesMean(front);
      SinglesAppend(Den(front), Atoms(m));
      if OfStream(m) {
        StreamsHaveNoSingles(Atoms(m));
      } else {
        assert [Other(m)][..0] == [];
      }
    }
  }

  /** Of the messages that are no part of a stream the channels got, in queue order, those
      that pass and do not repeat what was last said to the same source message. */
  lemma DispatchSendsIff(cfg: DispatchConfig, v: Delivered, done: seq<OutMessage>)
    returns (at: seq<nat>, plain: seq<OutMessage>)
    requires MeansFifo(cfg, v, done)
    ensures SendsAt(cfg, done, at, plain) && Singles(v.sent) == Singles(plain)
  {
    plain := Fifo(cfg, done).sent;
    at := FifoSendsIff(cfg, done);
    SinglesMean(v.sent);
    SinglesMean(plain);
  }
}
