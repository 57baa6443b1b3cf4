/** Archiving the old part of a growing session transcript, chunk by chunk, into
    the history log. */
module Consolidation {
  import opened Seqs
  import opened Transcript
  import Governing
  import opened Serving
  import opened Insertion
  import MemoryLog

  const MAX_CONSOLIDATION_ROUNDS := 5

  /** Token estimates, channel deliveries, the summarizing model and the rows that are
      appended to the session while it works are parameters. A failed summary (None)
      is archived raw. */
  datatype Environment = Environment(
    rowTokens: Message -> nat,
    delivered: Message -> bool,
    estimate: (seq<Message>, nat) -> int,
    summary: (nat, seq<Message>) -> Option<string>,
    rawText: seq<Message> -> string,
    meanwhile: nat -> seq<Message>)

  // ---- Boundaries ----

  function Tokens(env: Environment, ms: seq<Message>): nat {
    if ms == [] then 0 else Tokens(env, ms[..|ms| - 1]) + env.rowTokens(ms[|ms| - 1])
  }

  ghost predicate UserAt(ms: seq<Message>, start: nat, i: nat) {
    start < i < |ms| && ms[i].User?
  }

  /** The tokens removed by cutting at `i`. */
  ghost function Removed(env: Environment, ms: seq<Message>, start: nat, i: nat): nat
    requires start <= i <= |ms|
  {
    Tokens(env, ms[start..i])
  }

  /** A cut at a user row: the first that removes enough, or else the last one. */
  ghost predicate IsBoundary(env: Environment, ms: seq<Message>, start: nat, wanted: int, cut: nat) {
    && UserAt(ms, start, cut)
    && (forall i: nat | UserAt(ms, start, i) && i < cut :: Removed(env, ms, start, i) < wanted)
    && (Removed(env, ms, start, cut) >= wanted || forall i: nat | UserAt(ms, start, i) :: i <= cut)
  }

  method PickConsolidationBoundary(env: Environment, ms: seq<Message>, start: nat, wanted: int)
    returns (boundary: Option<(nat, nat)>)
    ensures boundary.None? <==> wanted <= 0 || forall i: nat :: !UserAt(ms, start, i)
    ensures boundary.Some? ==>
              var (cut, removed) := boundary.value;
              IsBoundary(env, ms, start, wanted, cut) && removed == Removed(env, ms, start, cut)
  {
    boundary := None;
    if start >= |ms| || wanted <= 0 {
      return;
    }
    var removed: nat := 0;
    assert ms[start..start] == [];
    for i := start to |ms|
      invariant removed == Removed(env, ms, start, i)
      invariant forall k: nat | UserAt(ms, start, k) && k < i :: Removed(env, ms, start, k) < wanted
      invariant boundary.None? ==> forall k: nat | k < i :: !UserAt(ms, start, k)
      invariant boundary.Some? ==>
                  var (cut, tokens) := boundary.value;
                  UserAt(ms, start, cut) && cut < i && tokens == Removed(env, ms, start, cut)
                  && forall k: nat | UserAt(ms, start, k) && k < i :: k <= cut
    {
      if i > start && ms[i].User? {
        assert UserAt(ms, start, i);
        boundary := Some((i, removed));
        if removed >= wanted {
          return;
        }
      }
      assert ms[start..i + 1][..i - start] == ms[start..i];
      removed := removed + env.rowTokens(ms[i]);
    }
  }

  /** The last user row before `n`, or `n` when there is none. */
  function LastUserBefore(ms: seq<Message>, n: nat): (i: nat)
    requires n <= |ms|
    ensures i <= n && (i < n ==> ms[i].User?)
    ensures forall k | i < k < n :: !ms[k].User?
    ensures i == n ==> forall k | 0 <= k < n :: !ms[k].User?
  {
    if n == 0 then 0
    else if ms[n - 1].User? then n - 1
    else
      var i := LastUserBefore(ms, n - 1);
      if i == n - 1 then n else i
  }

  /** Where a replay window of `limit` rows starts, extended back to a user row. */
  function RecentStart(env: Environment, ms: seq<Message>, limit: int): (start: nat)
    ensures start <= |ms|
  {
    if limit <= 0 then |ms|
    else
      var start: nat := if |ms| > limit then |ms| - limit else 0;
      if |ms| <= limit || Governing.LastUser(ms[start..]) < |ms| - start then start
      else
        var user := LastUserBefore(ms, start);
        if user == start then start
        else if user > 0 && env.delivered(ms[user - 1]) then user - 1
        else user
  }

  /** Where the rows still visible to a replay of `limit` rows begin, counted from
      the first row of the unarchived tail. */
  function VisibleStart(env: Environment, tail: seq<Message>, limit: int): (start: nat)
    ensures start <= |tail|
  {
    var recent := RecentStart(env, tail, limit);
    var sliced := tail[recent..];
    var user := Governing.FirstUser(sliced);
    var from := if user == |sliced| then 0 else if user > 0 && env.delivered(sliced[user - 1]) then user - 1 else user;
    recent + from + Governing.LegalStart(sliced[from..])
  }

  function ReplayOverflowBoundary(env: Environment, ms: seq<Message>, start: nat, limit: int): (cut: Option<nat>)
    requires start <= |ms|
    ensures cut.Some? ==> start < cut.value <= |ms|
  {
    if limit <= 0 || |ms| - start <= limit then None
    else
      var visible := start + VisibleStart(env, ms[start..], limit);
      if visible == |ms| then Some(|ms|)
      else if visible <= start then None
      else Some(visible)
  }

  /** What stays visible behind a replay cut has no result without its call. */
  lemma VisibleIsOrphanFree(env: Environment, ms: seq<Message>, start: nat, limit: int, cut: nat)
    requires start <= cut <= |ms| && ReplayOverflowBoundary(env, ms, start, limit) == Some(cut)
    ensures Governing.OrphanFree(ms[cut..])
  {
    hide *;
    var tail := ms[start..];
    ReplayCutIs(env, ms, start, limit);
    VisibleTailIsOrphanFree(env, tail, limit);
    assert tail[cut - start..] == ms[cut..];
  }

  lemma ReplayCutIs(env: Environment, ms: seq<Message>, start: nat, limit: int)
    requires start <= |ms| && ReplayOverflowBoundary(env, ms, start, limit).Some?
    ensures ReplayOverflowBoundary(env, ms, start, limit).value == start + VisibleStart(env, ms[start..], limit)
  {
    hide VisibleStart;
  }

  lemma VisibleTailIsOrphanFree(env: Environment, tail: seq<Message>, limit: int)
    ensures Governing.OrphanFree(tail[VisibleStart(env, tail, limit)..])
  {
    hide RecentStart, Governing.OrphanFree, Governing.LegalStart, Governing.FirstUser;
    var recent := RecentStart(env, tail, limit);
    var sliced := tail[recent..];
    var user := Governing.FirstUser(sliced);
    var from := if user == |sliced| then 0 else if user > 0 && env.delivered(sliced[user - 1]) then user - 1 else user;
    var legal := Governing.LegalStart(sliced[from..]);
    Governing.LegalStartIsLeast(sliced[from..]);
    assert sliced[from..][legal..] == tail[recent + from + legal..];
  }

  predicate FirstUserAt(tail: seq<Message>, first: nat, a: nat) {
    first <= a < |tail| && tail[a].User? && forall i | first <= i < a :: !tail[i].User?
  }

  predicate LastUserAt(tail: seq<Message>, first: nat, a: nat) {
    a < first && a < |tail| && tail[a].User? && forall i | a < i < |tail| :: !tail[i].User?
  }

  /** The row, or a delivery right before it. */
  function WithDelivery(env: Environment, tail: seq<Message>, low: nat, a: nat): nat
    requires a < |tail|
  {
    if a > low && env.delivered(tail[a - 1]) then a - 1 else a
  }

  /** Where the replay window of a tail starts: at the first user row from `first` on, or
      else at the last one before it, each with a delivery right before it; or else,
      without any user row, at `first`. */
  ghost predicate StartsWindow(env: Environment, tail: seq<Message>, first: nat, w: nat) {
    || (exists a: nat :: FirstUserAt(tail, first, a) && w == WithDelivery(env, tail, first, a))
    || (exists a: nat :: LastUserAt(tail, first, a) && w == WithDelivery(env, tail, 0, a))
    || (w == first && forall i | 0 <= i < |tail| :: !tail[i].User?)
  }

  /** The rows from `from` on, row by row. */
  lemma TailAt(tail: seq<Message>, from: nat)
    requires from <= |tail|
    ensures |tail[from..]| == |tail| - from && forall i | from <= i < |tail| :: tail[from..][i - from] == tail[i]
  {
  }

  /** The visible start by where its window starts. */
  lemma WindowIs(env: Environment, tail: seq<Message>, limit: int, recent: nat, w: nat)
    requires recent == RecentStart(env, tail, limit) <= w <= |tail|
    requires var sliced := tail[recent..];
             var user := Governing.FirstUser(sliced);
             w == recent + if user == |sliced| then 0
                           else if user > 0 && env.delivered(sliced[user - 1]) then user - 1 else user
    ensures VisibleStart(env, tail, limit) == w + Governing.LegalStart(tail[w..])
  {
    hide RecentStart, Governing.LegalStart, Governing.FirstUser;
    assert tail[recent..][w - recent..] == tail[w..];
  }

  lemma FirstUserBehind(tail: seq<Message>, first: nat, i: nat)
    requires first <= i < |tail| && tail[i].User?
    ensures FirstUserAt(tail, first, first + Governing.FirstUser(tail[first..]))
  {
    TailAt(tail, first);
    var user := Governing.FirstUser(tail[first..]);
    assert tail[first..][i - first].User?;
    hide Governing.FirstUser;
    forall k | first <= k < first + user ensures !tail[k].User? { assert tail[k] == tail[first..][k - first]; }
  }

  lemma RecentStartInside(env: Environment, tail: seq<Message>, limit: int, i: nat)
    requires 0 < limit < |tail| && |tail| - limit <= i < |tail| && tail[i].User?
    ensures RecentStart(env, tail, limit) == |tail| - limit
  {
    hide Governing.LastUser;
    var first: nat := |tail| - limit;
    TailAt(tail, first);
    assert tail[first..][i - first].User?;
  }

  lemma WindowInside(env: Environment, tail: seq<Message>, limit: int, i: nat) returns (w: nat)
    requires 0 < limit < |tail| && |tail| - limit <= i < |tail| && tail[i].User?
    ensures w <= |tail| && StartsWindow(env, tail, |tail| - limit, w)
    ensures VisibleStart(env, tail, limit) == w + Governing.LegalStart(tail[w..])
  {
    hide RecentStart, VisibleStart, Governing.FirstUser, Governing.LegalStart, Governing.LastUser;
    var first: nat := |tail| - limit;
    FirstUserBehind(tail, first, i);
    RecentStartInside(env, tail, limit, i);
    w := WithDelivery(env, tail, first, first + Governing.FirstUser(tail[first..]));
    WindowIs(env, tail, limit, first, w);
  }

  lemma WindowOutside(env: Environment, tail: seq<Message>, limit: int) returns (w: nat)
    requires 0 < limit < |tail| && forall i | |tail| - limit <= i < |tail| :: !tail[i].User?
    ensures w <= |tail| && StartsWindow(env, tail, |tail| - limit, w)
    ensures VisibleStart(env, tail, limit) == w + Governing.LegalStart(tail[w..])
  {
    var first: nat := |tail| - limit;
    TailAt(tail, first);
    assert Governing.LastUser(tail[first..]) == limit;
    w := RecentStart(env, tail, limit);
    var a := LastUserBefore(tail, first);
    TailAt(tail, w);
    hide VisibleStart, Governing.FirstUser, Governing.LegalStart, Governing.LastUser, LastUserBefore;
    assert w == if a == first then first else WithDelivery(env, tail, 0, a);
    if a < first {
      assert LastUserAt(tail, first, a);
      assert tail[w..][a - w].User?;
    }
    hide RecentStart, LastUserAt;
    WindowIs(env, tail, limit, w, w);
  }

  lemma ReplayBoundaryIs(env: Environment, ms: seq<Message>, start: nat, limit: int)
    requires start <= |ms| && 0 < limit < |ms| - start
    ensures var visible := start + VisibleStart(env, ms[start..], limit);
            ReplayOverflowBoundary(env, ms, start, limit) == if visible > start then Some(visible) else None
  {
    hide VisibleStart;
  }

  /** The replay cut: none when nothing is in front of the window. */
  lemma ReplayCutStarts(env: Environment, ms: seq<Message>, start: nat, limit: int) returns (w: nat)
    requires start <= |ms| && 0 < limit < |ms| - start
    ensures var tail := ms[start..];
            && w <= |tail| && StartsWindow(env, tail, |tail| - limit, w)
            && var visible := start + w + Governing.LegalStart(tail[w..]);
               ReplayOverflowBoundary(env, ms, start, limit) == if visible > start then Some(visible) else None
  {
    hide *;
    var tail := ms[start..];
    ReplayBoundaryIs(env, ms, start, limit);
    if i :| |tail| - limit <= i < |tail| && tail[i].User? {
      w := WindowInside(env, tail, limit, i);
    } else {
      w := WindowOutside(env, tail, limit);
    }
  }

  lemma UserStartsGroup(ms: seq<Message>, i: nat)
    requires Served(ms) && 0 < i < |ms| && ms[i].User?
    ensures ms[0].Assistant? ==> i >= 1 + |ms[0].calls|
  {
    if ms[0].Assistant? {
      var rows := ms[1..1 + |ms[0].calls|];
      forall k | 1 <= k <= |rows| ensures ms[k].Tool? { assert rows[k - 1] == ms[k]; }
    }
  }

  /** A cut at a user row splits no group of calls and results. */
  lemma {:induction false} ServedCut(ms: seq<Message>, i: nat)
    requires Served(ms) && i < |ms| && ms[i].User?
    ensures Served(ms[..i]) && Served(ms[i..])
    decreases |ms|
  {
    if i > 0 {
      var n := if ms[0].Assistant? then 1 + |ms[0].calls| else 1;
      UserStartsGroup(ms, i);
      var rest := ms[n..];
      assert rest[i - n] == ms[i];
      ServedCut(rest, i - n);
      assert ms[i..] == rest[i - n..];
      assert ms[..i][0] == ms[0] && ms[..i][n..] == rest[..i - n] && ms[..i][1..n] == ms[1..n];
    }
  }

  // ---- The chunks ----

  /** The chunks, none empty, tile the transcript up to `last`; what is stored is a prefix
      that covers them. */
  ghost predicate Tiles(chunks: seq<seq<Message>>, stored: seq<Message>, ms: seq<Message>, last: nat) {
    && last <= |stored| && stored <= ms
    && Flatten(chunks) == ms[..last]
    && forall c | c in chunks :: c != []
  }

  lemma TilesAppended(chunks: seq<seq<Message>>, stored: seq<Message>, ms: seq<Message>, rows: seq<Message>, last: nat)
    requires Tiles(chunks, stored, ms, last)
    ensures Tiles(chunks, stored, ms + rows, last)
  {
    hide Flatten;
    assert (ms + rows)[..last] == ms[..last];
  }

  lemma TilesStored(chunks: seq<seq<Message>>, stored: seq<Message>, ms: seq<Message>, last: nat)
    requires Tiles(chunks, stored, ms, last)
    ensures Tiles(chunks, stored, stored, last) && Tiles(chunks, ms, ms, last)
  {
    hide Flatten;
    assert stored[..last] == ms[..last];
  }

  lemma TilesArchived(chunks: seq<seq<Message>>, ms: seq<Message>, last: nat, end: nat)
    requires Tiles(chunks, ms, ms, last) && last < end <= |ms|
    ensures Tiles(chunks + [ms[last..end]], ms, ms, end)
  {
    FlattenSnoc(chunks, ms[last..end]);
    hide Flatten;
    assert ms[..last] + ms[last..end] == ms[..end];
  }

  // ---- The session ----

  datatype Operation =
    | Append(rows: seq<Message>)
    | Save
    | ByTokens(window: int, budget: int, target: int, replayLimit: int)
    | Idle

  /** Why token consolidation stopped: it is off; the prompt fits or cannot be estimated;
      no user row is left to cut at; the last summary failed; all rounds are used. */
  datatype Stop = Off | Fits | NoUserRow | SummaryFailed | RoundsUsed

  /** Each archived chunk has its summary, or its raw text when none could be made, as a
      history entry. */
  ghost predicate EntriesHold(env: Environment, chunks: seq<seq<Message>>, cursors: seq<nat>,
                              written: seq<MemoryLog.Entry>)
  {
    && |cursors| == |chunks|
    && (forall i, j | 0 <= i < j < |cursors| :: cursors[i] < cursors[j])
    && (forall i | 0 <= i < |cursors| :: 0 < cursors[i] <= |written|)
    && forall i | 0 <= i < |cursors| :: EntryHolds(env, i, chunks[i], written[cursors[i] - 1].content)
  }

  predicate EntryHolds(env: Environment, i: nat, chunk: seq<Message>, content: string) {
    match env.summary(i, chunk)
    case Some(summary) => content == summary
    case None => content == env.rawText(chunk)
  }

  lemma EntriesSnoc(env: Environment, chunks: seq<seq<Message>>, cursors: seq<nat>, written: seq<MemoryLog.Entry>,
                    chunk: seq<Message>, e: MemoryLog.Entry)
    requires EntriesHold(env, chunks, cursors, written) && EntryHolds(env, |chunks|, chunk, e.content)
    ensures EntriesHold(env, chunks + [chunk], cursors + [|written| + 1], written + [e])
  {
    hide EntryHolds;
  }

  class Consolidator {
    const env: Environment
    const store: MemoryLog.MemoryStore
    var messages: seq<Message>
    var lastConsolidated: nat
    var stored: seq<Message>
    ghost var chunks: seq<seq<Message>>
    ghost var cursors: seq<nat>
    ghost var tokenCuts: seq<nat>

    var archives: nat

    /** The archived chunks tile the transcript up to `lastConsolidated`, and each has its
        own entry in the history log. */
    ghost predicate Valid()
      reads this, store
    {
      && store.Valid()
      && Tiles(chunks, stored, messages, lastConsolidated)
      && |chunks| == archives && EntriesHold(env, chunks, cursors, store.written)
      && (forall c | c in tokenCuts :: c < |stored| && stored[c].User?)
    }

    constructor (env: Environment, store: MemoryLog.MemoryStore, messages: seq<Message>)
      requires store.Valid()
      ensures Valid() && this.env == env && this.store == store
      ensures this.messages == messages && lastConsolidated == 0 && chunks == []
    {
      this.env, this.store, this.messages, this.stored := env, store, messages, messages;
      lastConsolidated, archives := 0, 0;
      chunks, cursors, tokenCuts := [], [], [];
    }

    method AppendMessages(rows: seq<Message>)
      requires Valid()
      modifies this`messages
      ensures Valid() && messages == old(messages) + rows
    {
      TilesAppended(chunks, stored, messages, rows, lastConsolidated);
      hide Tiles, MemoryLog.MemoryStore.Valid;
      messages := messages + rows;
    }

    method SaveSession()
      requires Valid()
      modifies this`stored
      ensures Valid() && stored == messages
    {
      TilesStored(chunks, stored, messages, lastConsolidated);
      hide Tiles, MemoryLog.MemoryStore.Valid;
      stored := messages;
    }

    /** The session as it was last stored; what was only in memory is gone. */
    method Reload()
      requires Valid()
      modifies this`messages
      ensures Valid() && messages == stored
    {
      TilesStored(chunks, stored, messages, lastConsolidated);
      hide Tiles, MemoryLog.MemoryStore.Valid;
      messages := stored;
    }

    /** Archive the rows up to `end`. Rows may be appended while the summary is made;
        progress is made only through the captured ones. */
    method ArchiveUpTo(end: nat) returns (summary: Option<string>)
      requires Valid() && lastConsolidated < end <= |messages|
      modifies this`messages, this`stored, this`lastConsolidated, this`archives, this`chunks, this`cursors, store
      ensures Valid() && lastConsolidated == end
      ensures old(messages) <= messages && stored == messages
      ensures chunks == old(chunks) + [old(messages)[old(lastConsolidated)..end]]
      ensures summary == env.summary(|old(chunks)|, chunks[|chunks| - 1])
      ensures |store.written| == |old(store.written)| + 1 && cursors == old(cursors) + [|store.written|]
      ensures store.written[|old(store.written)|].content
           == match summary { case Some(text) => text case None => env.rawText(chunks[|chunks| - 1]) }
    {
      hide Flatten, MemoryLog.MemoryStore.Valid, EntriesHold;
      var chunk := messages[lastConsolidated..end];
      summary := env.summary(archives, chunk);
      AppendMessages(env.meanwhile(archives));
      SaveSession();
      var text := if summary.Some? then summary.value else env.rawText(chunk);
      var cursor := store.AppendHistory(text, true, false);
      TilesArchived(chunks, messages, lastConsolidated, end);
      EntriesSnoc(env, chunks, cursors, old(store.written), chunk, store.written[|old(store.written)|]);
      assert messages[lastConsolidated..end] == chunk;
      archives := archives + 1;
      chunks := chunks + [chunk];
      cursors := cursors + [cursor];
      lastConsolidated := end;
    }

    method ConsolidateReplayOverflow(limit: int) returns (summary: Option<string>)
      requires Valid()
      modifies this`messages, this`stored, this`lastConsolidated, this`archives, this`chunks, this`cursors, store
      ensures Valid() && old(messages) <= messages && old(stored) <= stored
      ensures old(lastConsolidated) <= lastConsolidated && old(chunks) <= chunks
      ensures var cut := ReplayOverflowBoundary(env, old(messages), old(lastConsolidated), limit);
              if cut.Some? then lastConsolidated == cut.value && |chunks| == |old(chunks)| + 1
              else lastConsolidated == old(lastConsolidated) && chunks == old(chunks)
    {
      hide Flatten, ReplayOverflowBoundary, MemoryLog.MemoryStore.Valid;
      var cut := ReplayOverflowBoundary(env, messages, lastConsolidated, limit);
      if cut.None? {
        return None;
      }
      summary := ArchiveUpTo(cut.value);
    }

    /** Why the rounds stopped, and what then holds. */
    ghost predicate Stopped(stop: Stop, budget: int, target: int)
      reads this
    {
      var estimated := env.estimate(messages, lastConsolidated);
      match stop
      case Off => false
      case Fits => estimated <= 0 || estimated < budget || estimated <= target
      case NoUserRow => estimated > target && forall i: nat :: !UserAt(messages, lastConsolidated, i)
      case SummaryFailed => chunks != [] && env.summary(|chunks| - 1, chunks[|chunks| - 1]).None?
      case RoundsUsed => estimated > 0
    }

    /** Token rounds: cut at user rows until the estimate reaches the target. */
    method MaybeConsolidateByTokens(window: int, budget: int, target: int, replayLimit: int) returns (ghost stop: Stop)
      requires Valid()
      modifies this, store
      ensures Valid() && old(messages) <= messages && old(stored) <= stored
      ensures old(lastConsolidated) <= lastConsolidated && old(chunks) <= chunks
      ensures if window <= 0 || old(messages) == [] then stop.Off? && chunks == old(chunks)
              else Stopped(stop, budget, target)
      ensures stop.RoundsUsed? ==> |chunks| >= |old(chunks)| + MAX_CONSOLIDATION_ROUNDS
      ensures |chunks| <= |old(chunks)| + 1 + MAX_CONSOLIDATION_ROUNDS
    {
      hide Flatten, ReplayOverflowBoundary, IsBoundary, Valid;
      if window <= 0 || messages == [] {
        return Off;
      }
      var summary := ConsolidateReplayOverflow(replayLimit);
      var estimated := env.estimate(messages, lastConsolidated);
      if estimated <= 0 || estimated < budget {
        return Fits;
      }
      ghost var first := |chunks|;
      for round := 0 to MAX_CONSOLIDATION_ROUNDS
        invariant Valid() && old(messages) <= messages && old(stored) <= stored
        invariant old(lastConsolidated) <= lastConsolidated && old(chunks) <= chunks
        invariant |old(chunks)| <= first <= |old(chunks)| + 1 && |chunks| == first + round
        invariant estimated == env.estimate(messages, lastConsolidated) && estimated > 0
      {
        if estimated <= target {
          return Fits;
        }
        var more := TokenRound(if estimated - target > 1 then estimated - target else 1);
        if !more {
          return if |chunks| == first + round then NoUserRow else SummaryFailed;
        }
        estimated := env.estimate(messages, lastConsolidated);
        if estimated <= 0 {
          return Fits;
        }
      }
      stop := RoundsUsed;
    }

    /** One round; nothing is archived exactly when there is no user row to cut at, and
        the rounds go on exactly when a summary was made. */
    method TokenRound(wanted: int) returns (more: bool)
      requires Valid() && wanted > 0
      modifies this, store
      ensures Valid() && old(messages) <= messages && old(stored) <= stored && old(chunks) <= chunks
      ensures |chunks| == |old(chunks)| <==> forall i: nat :: !UserAt(old(messages), old(lastConsolidated), i)
      ensures if |chunks| == |old(chunks)| then
                lastConsolidated == old(lastConsolidated) && messages == old(messages) && !more
              else
                && IsBoundary(env, old(messages), old(lastConsolidated), wanted, lastConsolidated)
                && old(lastConsolidated) < lastConsolidated
                && chunks == old(chunks) + [old(messages)[old(lastConsolidated)..lastConsolidated]]
                && more == env.summary(|chunks| - 1, chunks[|chunks| - 1]).Some?
                && tokenCuts == old(tokenCuts) + [lastConsolidated]
    {
      var boundary := PickConsolidationBoundary(env, messages, lastConsolidated, wanted);
      if boundary.None? {
        return false;
      }
      var end := boundary.value.0;
      assert UserAt(messages, lastConsolidated, end);
      assert messages[end].User? && lastConsolidated < end < |messages|;
      hide *;
      var summary := CutAt(end);
      more := summary.Some?;
    }

    method CutAt(end: nat) returns (summary: Option<string>)
      requires Valid() && lastConsolidated < end < |messages| && messages[end].User?
      modifies this, store
      ensures Valid() && lastConsolidated == end && old(messages) <= messages && old(stored) <= stored
      ensures chunks == old(chunks) + [old(messages)[old(lastConsolidated)..end]]
      ensures summary == env.summary(|old(chunks)|, chunks[|chunks| - 1])
      ensures tokenCuts == old(tokenCuts) + [end]
    {
      StoredIsPrefix();
      hide *;
      ghost var before := messages;
      summary := ArchiveUpTo(end);
      assert stored[end] == before[end];
      NoteCut(end);
    }

    lemma StoredIsPrefix()
      requires Valid()
      ensures stored <= messages && lastConsolidated <= |stored|
    {
    }

    ghost method NoteCut(end: nat)
      requires Valid() && end < |stored| && stored[end].User?
      modifies this`tokenCuts
      ensures Valid() && tokenCuts == old(tokenCuts) + [end]
    {
      hide Flatten, MemoryLog.MemoryStore.Valid;
      tokenCuts := tokenCuts + [end];
    }

    /** Archive the whole tail of the session as it was stored. */
    method CompactIdleSession()
      requires Valid()
      modifies this, store
      ensures Valid() && old(stored) <= messages && old(stored) <= stored && lastConsolidated == |old(stored)|
      ensures old(chunks) <= chunks && |chunks| <= |old(chunks)| + 1
    {
      StoredIsPrefix();
      hide Flatten, Valid;
      Reload();
      if lastConsolidated == |messages| {
        return;
      }
      var summary := ArchiveUpTo(|messages|);
    }

    /** Any mix of consolidations, appended rows and saves. Each row below the index is in
        exactly one archived chunk, in order; chunks and index only grow, and so does what
        is stored. */
    method Run(operations: seq<Operation>)
      requires Valid()
      modifies this, store
      ensures Valid() && Flatten(chunks) == messages[..lastConsolidated]
      ensures old(chunks) <= chunks && old(lastConsolidated) <= lastConsolidated && old(stored) <= stored
      ensures EntriesHold(env, chunks, cursors, store.written)
    {
      StoredIsPrefix();
      for i := 0 to |operations|
        invariant Valid() && old(lastConsolidated) <= lastConsolidated <= |stored| && stored <= messages
        invariant old(chunks) <= chunks && old(stored) <= stored
      {
        hide Flatten, Valid;
        match operations[i] {
          case Append(rows) => AppendMessages(rows);
          case Save => SaveSession();
          case ByTokens(window, budget, target, limit) =>
            ghost var stop := MaybeConsolidateByTokens(window, budget, target, limit);
          case Idle => CompactIdleSession();
        }
        StoredIsPrefix();
      }
    }
  }

  /** A token cut splits no run of results: each call row before the cut has all the
      results that directly follow it before the cut, whatever the transcript; and both
      sides of a served transcript are served. */
  lemma TokenCutKeepsGroups(env: Environment, ms: seq<Message>, start: nat, wanted: int, cut: nat)
    requires start <= |ms| && IsBoundary(env, ms, start, wanted, cut)
    ensures forall at: nat | start < at <= cut :: RunEnd(ms, at) <= cut
    ensures Served(ms[start..]) ==> Served(ms[start..cut]) && Served(ms[cut..])
  {
    forall at: nat | start < at <= cut ensures RunEnd(ms, at) <= cut { RunStopsAt(ms, at, cut); }
    if Served(ms[start..]) {
      var tail := ms[start..];
      ServedCut(tail, cut - start);
      assert tail[..cut - start] == ms[start..cut] && tail[cut - start..] == ms[cut..];
    }
  }

  lemma {:induction false} RunStopsAt(ms: seq<Message>, at: nat, cut: nat)
    requires at <= cut < |ms| && !ms[cut].Tool?
    ensures RunEnd(ms, at) <= cut
    decreases cut - at
  {
    if at < cut { RunStopsAt(ms, at + 1, cut); }
  }
}
