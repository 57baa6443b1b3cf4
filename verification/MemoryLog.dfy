/** The history log that feeds Dream: cursor allocation with its fast path, bounded
    compaction, and batches of unprocessed entries. */
module MemoryLog {
  import opened Seqs
  import opened Transcript

  /** One line of the file. A missing or unusable cursor is None; `wellFormed` says
      that the rest of the record is as it should be. */
  datatype Entry = Entry(cursor: Option<nat>, wellFormed: bool, content: string)

  predicate Readable(e: Entry) {
    e.cursor.Some? && e.wellFormed
  }

  /** The largest cursor among readable entries, 0 without one. */
  function MaxCursor(entries: seq<Entry>): nat {
    if entries == [] then 0
    else
      var rest, e := MaxCursor(entries[..|entries| - 1]), entries[|entries| - 1];
      if Readable(e) && e.cursor.value > rest then e.cursor.value else rest
  }

  /** Readable entries behind a cursor, in file order. */
  function Unprocessed(entries: seq<Entry>, since: nat): seq<Entry> {
    if entries == [] then []
    else
      var rest, e := Unprocessed(entries[..|entries| - 1], since), entries[|entries| - 1];
      if Readable(e) && e.cursor.value > since then rest + [e] else rest
  }

  /** The next cursor from the counter file and the tail, each None when unusable. */
  function NextFrom(counter: Option<nat>, tail: Option<nat>, entries: seq<Entry>): nat {
    var last := if tail.Some? then tail.value else MaxCursor(entries);
    (if counter.Some? then Max(counter.value, last) else last) + 1
  }

  /** Index of the first entry with a cursor behind `since`, or the length. */
  function FirstBehind(entries: seq<Entry>, since: nat): (i: nat)
    ensures i <= |entries|
    ensures forall k | 0 <= k < i :: entries[k].cursor.Some? ==> entries[k].cursor.value <= since
    ensures i < |entries| ==> entries[i].cursor.Some? && entries[i].cursor.value > since
  {
    if entries == [] then 0
    else if entries[0].cursor.Some? && entries[0].cursor.value > since then 0
    else 1 + FirstBehind(entries[1..], since)
  }

  function CompactedLog(entries: seq<Entry>, dream: nat, limit: int): seq<Entry> {
    if limit <= 0 || |entries| <= limit then entries
    else
      var first := FirstBehind(entries, dream);
      entries[(if |entries| - limit <= first then |entries| - limit else first)..]
  }

  lemma {:induction false} UnprocessedAppend(a: seq<Entry>, b: seq<Entry>, since: nat)
    ensures Unprocessed(a + b, since) == Unprocessed(a, since) + Unprocessed(b, since)
  {
    if b == [] {
      assert a + b == a;
    } else {
      SplitLast(a, b);
      UnprocessedAppend(a, b[..|b| - 1], since);
    }
  }

  function NotPending(since: nat): Entry -> bool {
    (e: Entry) => !(e.wellFormed && e.cursor.Some? && e.cursor.value > since)
  }

  /** Pending are the entries that can be read and have a cursor behind `since`. */
  lemma {:induction false} UnprocessedSifts(entries: seq<Entry>, since: nat)
    ensures Sifted(entries, NotPending(since), Same<Entry>, Unprocessed(entries, since))
  {
    hide Sifted;
    if entries == [] {
      SiftedNone<Entry, Entry>(NotPending(since), Same);
    } else {
      var front, e := entries[..|entries| - 1], entries[|entries| - 1];
      UnprocessedSifts(front, since);
      SiftedSnoc(front, NotPending(since), Same<Entry>, Unprocessed(front, since), e, e);
      assert entries == front + [e];
    }
  }

  lemma {:induction false} NothingBehind(entries: seq<Entry>, since: nat)
    requires forall e | e in entries && e.cursor.Some? :: e.cursor.value <= since
    ensures Unprocessed(entries, since) == []
  {
    if entries != [] {
      assert entries[|entries| - 1] in entries;
      NothingBehind(entries[..|entries| - 1], since);
    }
  }

  /** Compaction keeps a suffix: of length `limit`, or longer when more is pending.
      Whatever is in the file, no pending entry is lost. */
  lemma {:induction false} CompactionKeepsPending(entries: seq<Entry>, dream: nat, limit: int)
    ensures var out := CompactedLog(entries, dream, limit);
            && |out| <= |entries| && out == entries[|entries| - |out|..]
            && |out| == (if limit <= 0 || |entries| <= limit then |entries|
                         else Max(limit, |entries| - FirstBehind(entries, dream)))
            && Unprocessed(out, dream) == Unprocessed(entries, dream)
  {
    var out := CompactedLog(entries, dream, limit);
    var k := |entries| - |out|;
    assert out == entries[k..] && (k > 0 ==> k <= FirstBehind(entries, dream));
    hide *;
    if k > 0 { DroppedAreProcessed(entries, dream, k); }
  }

  lemma DroppedAreProcessed(entries: seq<Entry>, dream: nat, k: nat)
    requires k <= FirstBehind(entries, dream)
    ensures Unprocessed(entries[k..], dream) == Unprocessed(entries, dream)
  {
    hide *;
    DroppedAreBehind(entries, dream, k);
    NothingBehind(entries[..k], dream);
    UnprocessedAppend(entries[..k], entries[k..], dream);
    assert entries == entries[..k] + entries[k..];
    assert [] + Unprocessed(entries[k..], dream) == Unprocessed(entries[k..], dream);
  }

  lemma DroppedAreBehind(entries: seq<Entry>, dream: nat, k: nat)
    requires k <= FirstBehind(entries, dream)
    ensures forall e | e in entries[..k] && e.cursor.Some? :: e.cursor.value <= dream
  {
    hide FirstBehind;
    forall e | e in entries[..k] && e.cursor.Some? ensures e.cursor.value <= dream {
      var i :| 0 <= i < k && entries[i] == e;
    }
  }

  // ---- The entries ever written ----

  /** Numbered 1, 2, 3, ... and well formed. */
  ghost predicate Numbered(written: seq<Entry>) {
    forall i | 0 <= i < |written| :: written[i].cursor == Some(i + 1) && written[i].wellFormed
  }

  lemma {:induction false} MaxOfTail(written: seq<Entry>, k: nat)
    requires Numbered(written) && k <= |written|
    ensures MaxCursor(written[k..]) == if k < |written| then |written| else 0
  {
    if k < |written| {
      var front := written[..|written| - 1];
      assert written[k..][..|written| - k - 1] == front[k..];
      MaxOfTail(front, k);
    }
  }

  lemma {:induction false} UnprocessedTail(written: seq<Entry>, k: nat, since: nat)
    requires Numbered(written) && k <= since <= |written|
    ensures Unprocessed(written[k..], since) == written[since..]
  {
    if since == |written| {
      forall e | e in written[k..] && e.cursor.Some? ensures e.cursor.value <= since {}
      NothingBehind(written[k..], since);
    } else {
      var n := |written| - 1;
      var front := written[..n];
      assert written[k..][..n - k] == front[k..];
      assert written[since..] == front[since..] + [written[n]];
      UnprocessedTail(front, k, since);
    }
  }

  /** With a counter that lost nothing it should not have, the fast path and the full
      scan agree, and give one more than the largest cursor ever written. */
  lemma NextIsFresh(written: seq<Entry>, k: nat, counter: Option<nat>, tail: Option<nat>)
    requires Numbered(written) && k <= |written| && (k == |written| ==> written == [])
    requires counter.Some? ==> counter.value <= |written|
    requires tail.Some? ==> k < |written| && tail == written[|written| - 1].cursor
    ensures NextFrom(counter, tail, written[k..]) == |written| + 1
  {
    MaxOfTail(written, k);
  }

  /** The file is what compaction left of the written entries, and only processed ones
      are gone. */
  ghost predicate InFile(written: seq<Entry>, entries: seq<Entry>, dream: nat) {
    && |entries| <= |written| && entries == written[|written| - |entries|..]
    && |written| - |entries| <= dream <= |written|
    && (written != [] ==> entries != [])
  }

  lemma CompactedInFile(written: seq<Entry>, entries: seq<Entry>, dream: nat, limit: int)
    requires Numbered(written) && InFile(written, entries, dream)
    ensures InFile(written, CompactedLog(entries, dream, limit), dream)
  {
    BehindIsNear(written, entries, dream);
    var keep := CompactedIs(entries, dream, limit);
    SuffixInFile(written, |written| - |entries|, keep, dream);
    hide *;
  }

  lemma CompactedIs(entries: seq<Entry>, dream: nat, limit: int) returns (keep: nat)
    ensures keep <= |entries| && keep <= FirstBehind(entries, dream) && (keep > 0 ==> keep < |entries|)
    ensures CompactedLog(entries, dream, limit) == entries[keep..]
  {
    hide FirstBehind;
    if limit <= 0 || |entries| <= limit {
      keep := 0;
    } else {
      var first := FirstBehind(entries, dream);
      keep := if |entries| - limit <= first then |entries| - limit else first;
    }
  }

  lemma SuffixInFile(written: seq<Entry>, gone: nat, keep: nat, dream: nat)
    requires gone + keep <= dream <= |written| && (written != [] ==> gone + keep < |written|)
    ensures InFile(written, written[gone..][keep..], dream)
  {
    SuffixTwice(written, gone, keep);
  }

  /** Nothing in front of the first pending entry is pending. */
  lemma BehindIsNear(written: seq<Entry>, entries: seq<Entry>, dream: nat)
    requires Numbered(written) && InFile(written, entries, dream)
    ensures |written| - |entries| + FirstBehind(entries, dream) <= dream
  {
    var gone, first := |written| - |entries|, FirstBehind(entries, dream);
    hide FirstBehind;
    if first > 0 { assert entries[first - 1] == written[gone + first - 1]; }
  }

  lemma SuffixTwice<T>(s: seq<T>, i: nat, j: nat)
    requires i + j <= |s|
    ensures s[i..][j..] == s[i + j..]
  {
  }

  // ---- The store ----

  datatype Batch = Batch(entries: seq<Entry>, last: nat)

  datatype Operation =
    | Append(content: string, tailReadable: bool, crash: bool)
    | LoseCounter
    | Compact(limit: int)
    | Build(maxEntries: nat)
    | Advance

  class MemoryStore {
    var entries: seq<Entry>
    var counter: Option<nat>
    var dreamCursor: nat
    ghost var written: seq<Entry>
    ghost var completed: seq<seq<Entry>>
    ghost var current: Option<Batch>

    /** The completed batches are the entries up to the Dream cursor. */
    ghost predicate Valid()
      reads this
    {
      && Numbered(written)
      && InFile(written, entries, dreamCursor)
      && (counter.Some? ==> counter.value <= |written|)
      && Flatten(completed) == written[..dreamCursor]
      && (current.Some? ==>
            var b := current.value;
            dreamCursor < b.last <= |written| && b.entries == written[dreamCursor..b.last])
    }

    constructor ()
      ensures Valid() && written == [] && completed == [] && dreamCursor == 0
    {
      entries, counter, dreamCursor := [], None, 0;
      written, completed, current := [], [], None;
    }

    method ScanMax() returns (most: nat)
      ensures most == MaxCursor(entries)
    {
      most := 0;
      for i := 0 to |entries|
        invariant most == MaxCursor(entries[..i])
      {
        assert entries[..i + 1][..i] == entries[..i];
        if Readable(entries[i]) && entries[i].cursor.value > most {
          most := entries[i].cursor.value;
        }
      }
      assert entries[..|entries|] == entries;
    }

    /** The tail read finds the true last entry, or nothing. */
    method ReadLastEntry(tailReadable: bool) returns (last: Option<Entry>)
      ensures last == if tailReadable && entries != [] then Some(entries[|entries| - 1]) else None
    {
      last := if tailReadable && entries != [] then Some(entries[|entries| - 1]) else None;
    }

    method NextCursor(tailReadable: bool) returns (next: nat)
      requires Valid()
      ensures next == |written| + 1
    {
      var last := ReadLastEntry(tailReadable);
      var lastCursor := if last.Some? then last.value.cursor else None;
      NextIsFresh(written, |written| - |entries|, counter, lastCursor);
      if counter.Some? {
        if lastCursor.Some? {
          return Max(counter.value, lastCursor.value) + 1;
        }
        var most := ScanMax();
        return Max(counter.value, most) + 1;
      }
      if lastCursor.Some? {
        return lastCursor.value + 1;
      }
      var most := ScanMax();
      next := most + 1;
    }

    /** A crash after the history write leaves the counter behind. */
    method AppendHistory(content: string, tailReadable: bool, crash: bool) returns (cursor: nat)
      requires Valid()
      modifies this`entries, this`counter, this`written
      ensures Valid() && cursor == |old(written)| + 1
      ensures written == old(written) + [Entry(Some(cursor), true, content)]
      ensures entries == old(entries) + [Entry(Some(cursor), true, content)]
      ensures counter == if crash then old(counter) else Some(cursor)
    {
      cursor := NextCursor(tailReadable);
      var e := Entry(Some(cursor), true, content);
      AppendKeeps(written, e, |written| - |entries|, dreamCursor);
      hide Flatten;
      entries := entries + [e];
      written := written + [e];
      if !crash {
        counter := Some(cursor);
      }
    }

    method LoseCursorCounter()
      requires Valid()
      modifies this`counter
      ensures Valid() && counter == None
    {
      counter := None;
    }

    method FirstUnprocessed() returns (first: nat)
      ensures first == FirstBehind(entries, dreamCursor)
    {
      first := 0;
      assert entries[0..] == entries;
      while first < |entries| && !(entries[first].cursor.Some? && entries[first].cursor.value > dreamCursor)
        invariant 0 <= first <= |entries| && FirstBehind(entries, dreamCursor)
            == first + FirstBehind(entries[first..], dreamCursor)
      {
        assert entries[first..][1..] == entries[first + 1..];
        first := first + 1;
      }
    }

    /** Keep the newest entries, and every entry Dream has not seen. */
    method CompactHistory(limit: int)
      requires Valid()
      modifies this`entries
      ensures Valid() && entries == CompactedLog(old(entries), dreamCursor, limit)
    {
      if limit <= 0 || |entries| <= limit {
        return;
      }
      var first := FirstUnprocessed();
      var keepFrom := if |entries| - limit <= first then |entries| - limit else first;
      CompactedInFile(written, entries, dreamCursor, limit);
      hide Flatten, FirstBehind, Numbered, InFile;
      entries := entries[keepFrom..];
    }

    /** The oldest entries Dream has not seen, and the cursor to advance to. */
    method BuildDreamPrompt(maxEntries: nat) returns (batch: Option<Batch>)
      requires Valid() && maxEntries > 0
      modifies this`current
      ensures Valid() && current == batch
      ensures batch == None <==> dreamCursor == |written|
      ensures batch.Some? ==> 0 < |batch.value.entries| <= maxEntries
                              && batch.value.entries[|batch.value.entries| - 1].cursor == Some(batch.value.last)
                              && (batch.value.last < |written| ==> |batch.value.entries| == maxEntries)
    {
      hide Flatten, Numbered, Unprocessed;
      UnprocessedTail(written, |written| - |entries|, dreamCursor);
      var pending := Unprocessed(entries, dreamCursor);
      if pending == [] {
        current := None;
        return None;
      }
      var chosen := if |pending| > maxEntries then pending[..maxEntries] else pending;
      ChosenIs(written, dreamCursor, |chosen|);
      assert chosen == written[dreamCursor..dreamCursor + |chosen|];
      batch := Some(Batch(chosen, chosen[|chosen| - 1].cursor.value));
      current := batch;
    }

    /** A batch is done: advance to the cursor that was returned with it. */
    method SetLastDreamCursor(cursor: nat)
      requires Valid() && current.Some? && cursor == current.value.last
      modifies this`dreamCursor, this`completed, this`current
      ensures Valid() && current == None
      ensures completed == old(completed) + [old(current).value.entries] && dreamCursor == cursor
    {
      ghost var b := current.value;
      FlattenSnoc(completed, b.entries);
      hide Flatten;
      assert written[..dreamCursor] + written[dreamCursor..b.last] == written[..b.last];
      completed := completed + [b.entries];
      current := None;
      dreamCursor := cursor;
    }

    /** Any sequence of operations. Every entry ever written is in exactly one
        completed batch, or in the file behind the Dream cursor, in order. */
    method Run(operations: seq<Operation>)
      requires Valid()
      modifies this
      ensures Valid() && old(written) <= written && old(completed) <= completed
      ensures Flatten(completed) + Unprocessed(entries, dreamCursor) == written
    {
      hide Flatten, Numbered, Unprocessed;
      var last: Option<nat> := None;
      for i := 0 to |operations|
        invariant Valid() && old(written) <= written && old(completed) <= completed
        invariant last.Some? ==> current.Some? && current.value.last == last.value
      {
        match operations[i] {
          case Append(content, tailReadable, crash) =>
            var cursor := AppendHistory(content, tailReadable, crash);
          case LoseCounter =>
            LoseCursorCounter();
          case Compact(limit) =>
            CompactHistory(limit);
          case Build(maxEntries) =>
            if maxEntries > 0 {
              var batch := BuildDreamPrompt(maxEntries);
              last := if batch.Some? then Some(batch.value.last) else None;
            }
          case Advance =>
            if last.Some? {
              SetLastDreamCursor(last.value);
              last := None;
            }
        }
      }
      UnprocessedTail(written, |written| - |entries|, dreamCursor);
    }
  }

  lemma ChosenIs(written: seq<Entry>, dream: nat, n: nat)
    requires Numbered(written) && 0 < n <= |written| - dream
    ensures written[dream..][..n] == written[dream..dream + n]
    ensures n == |written| - dream ==> written[dream..] == written[dream..dream + n]
    ensures written[dream..dream + n][n - 1].cursor == Some(dream + n)
  {
  }

  lemma AppendKeeps(written: seq<Entry>, e: Entry, k: nat, n: nat)
    requires k <= |written| && n <= |written|
    ensures (written + [e])[k..] == written[k..] + [e] && (written + [e])[..n] == written[..n]
    ensures forall a, b | 0 <= a <= b <= |written| :: (written + [e])[a..b] == written[a..b]
  {
  }
}
