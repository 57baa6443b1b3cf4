/** Splitting the calls of one response into batches that may run at the same time. */
module ToolBatches {
  import opened Transcript
  import opened Seqs

  ghost predicate AllSafe(safe: string -> bool, calls: seq<Call>) {
    forall c | c in calls :: safe(c.name)
  }

  /** Batches are single calls or runs of concurrency-safe ones, and such runs are
      as long as they can be. */
  ghost predicate Batched(concurrent: bool, safe: string -> bool, batches: seq<seq<Call>>) {
    && (forall b | b in batches :: b != [])
    && (forall b | b in batches && |b| > 1 :: concurrent && AllSafe(safe, b))
    && (concurrent ==>
          forall i | 0 <= i < |batches| - 1 :: !(AllSafe(safe, batches[i]) && AllSafe(safe, batches[i + 1])))
  }

  lemma BatchedSnoc(concurrent: bool, safe: string -> bool, batches: seq<seq<Call>>, b: seq<Call>)
    requires Batched(concurrent, safe, batches) && b != []
    requires |b| > 1 ==> concurrent && AllSafe(safe, b)
    requires concurrent && batches != [] ==> !AllSafe(safe, batches[|batches| - 1]) || !AllSafe(safe, b)
    ensures Batched(concurrent, safe, batches + [b])
  {
    var out := batches + [b];
    forall i | 0 <= i < |out| - 1 && concurrent ensures !(AllSafe(safe, out[i]) && AllSafe(safe, out[i + 1])) {
      if i < |batches| - 1 { assert out[i] == batches[i] && out[i + 1] == batches[i + 1]; }
    }
  }

  method PartitionToolBatches(concurrent: bool, safe: string -> bool, calls: seq<Call>)
    returns (batches: seq<seq<Call>>)
    ensures Flatten(batches) == calls
    ensures Batched(concurrent, safe, batches)
  {
    hide Flatten, Batched;
    batches := [];
    NoBatches(concurrent, safe);
    if !concurrent {
      for i := 0 to |calls|
        invariant Flatten(batches) == calls[..i] && Batched(concurrent, safe, batches)
      {
        FlattenSnoc(batches, [calls[i]]);
        BatchedSnoc(concurrent, safe, batches, [calls[i]]);
        batches := batches + [[calls[i]]];
      }
      return;
    }
    var current: seq<Call> := [];
    for i := 0 to |calls|
      invariant Flatten(batches) + current == calls[..i] && Batched(concurrent, safe, batches)
      invariant AllSafe(safe, current)
      invariant batches != [] ==> !AllSafe(safe, batches[|batches| - 1])
    {
      var c := calls[i];
      Regroup(Flatten(batches), current, [c]);
      assert calls[..i + 1] == calls[..i] + [c];
      if safe(c.name) {
        current := current + [c];
        continue;
      }
      if current != [] {
        FlattenSnoc(batches, current);
        BatchedSnoc(concurrent, safe, batches, current);
        batches := batches + [current];
        current := [];
      }
      assert c in [c];
      FlattenSnoc(batches, [c]);
      BatchedSnoc(concurrent, safe, batches, [c]);
      batches := batches + [[c]];
    }
    if current != [] {
      FlattenSnoc(batches, current);
      BatchedSnoc(concurrent, safe, batches, current);
      batches := batches + [current];
    }
  }

  lemma NoBatches(concurrent: bool, safe: string -> bool)
    ensures Flatten<Call>([]) == [] && Batched(concurrent, safe, [])
  {
  }
}
