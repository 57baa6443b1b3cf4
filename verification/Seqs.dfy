/** Stock facts about sequences of sequences and about regrouping concatenations. */
module Seqs {
  function Flatten<T>(parts: seq<seq<T>>): seq<T> {
    if parts == [] then [] else Flatten(parts[..|parts| - 1]) + parts[|parts| - 1]
  }

  lemma FlattenSnoc<T>(parts: seq<seq<T>>, part: seq<T>)
    ensures Flatten(parts + [part]) == Flatten(parts) + part
  {
    assert (parts + [part])[..|parts|] == parts;
  }

  lemma Regroup<T>(a: seq<T>, b: seq<T>, c: seq<T>)
    ensures a + (b + c) == a + b + c
  {
  }

  /** Cutting a sequence in two and joining it behind another one. */
  lemma Rejoin<T>(base: seq<T>, s: seq<T>, k: nat)
    requires k <= |s|
    ensures base + s[..k] + s[k..] == base + s
  {
    assert s == s[..k] + s[k..];
  }

  /** The places `at` of `s`, from the front on: those of the entries that are not `gone`. */
  ghost predicate Places<T(!new)>(at: seq<nat>, s: seq<T>, gone: T -> bool) {
    && (forall k | 0 <= k < |at| :: at[k] < |s| && !gone(s[at[k]]))
    && (forall j, k | 0 <= j < k < |at| :: at[j] < at[k])
    && (forall i | 0 <= i < |s| && !gone(s[i]) :: i in at)
  }

  predicate Same<T(==)>(a: T, b: T) {
    a == b
  }

  ghost predicate SiftedAt<T(!new), U(!new)>(at: seq<nat>, s: seq<T>, gone: T -> bool, kept: (T, U) -> bool,
                                             out: seq<U>)
  {
    Places(at, s, gone) && |at| == |out| && forall k | 0 <= k < |out| :: kept(s[at[k]], out[k])
  }

  /** Nothing but the `gone` entries of `s` is missing in `out`; each of the others
      has one entry there, `kept` as the relation says, and they come in order. */
  ghost predicate Sifted<T(!new), U(!new)>(s: seq<T>, gone: T -> bool, kept: (T, U) -> bool, out: seq<U>) {
    exists at :: SiftedAt(at, s, gone, kept, out)
  }

  lemma SiftedNone<T(!new), U(!new)>(gone: T -> bool, kept: (T, U) -> bool)
    ensures Sifted([], gone, kept, [])
  {
    assert SiftedAt([], [], gone, kept, []);
  }

  lemma PlacesSnoc<T(!new)>(at: seq<nat>, s: seq<T>, gone: T -> bool, x: T)
    requires Places(at, s, gone) && !gone(x)
    ensures Places(at + [|s|], s + [x], gone)
  {
    var more := at + [|s|];
    assert more[|at|] == |s|;
    forall i | 0 <= i < |s + [x]| && !gone((s + [x])[i]) ensures i in more {
      if i < |s| { assert i in at; }
    }
  }

  /** One more entry, gone or kept as `y`. */
  lemma SiftedSnoc<T(!new), U(!new)>(s: seq<T>, gone: T -> bool, kept: (T, U) -> bool, out: seq<U>, x: T, y: U)
    requires Sifted(s, gone, kept, out)
    ensures gone(x) ==> Sifted(s + [x], gone, kept, out)
    ensures !gone(x) && kept(x, y) ==> Sifted(s + [x], gone, kept, out + [y])
  {
    var at: seq<nat> :| SiftedAt(at, s, gone, kept, out);
    if gone(x) {
      assert SiftedAt(at, s + [x], gone, kept, out);
    } else if kept(x, y) {
      var last: nat := |s|;
      var more: seq<nat> := at + [last];
      PlacesSnoc(at, s, gone, x);
      assert SiftedAt(more, s + [x], gone, kept, out + [y]);
    }
  }

  /** An entry of the sifted sequence comes from one that is not gone. */
  lemma SiftedFrom<T(!new), U(!new)>(s: seq<T>, gone: T -> bool, kept: (T, U) -> bool, out: seq<U>, k: nat)
    returns (i: nat)
    requires Sifted(s, gone, kept, out) && k < |out|
    ensures i < |s| && !gone(s[i]) && kept(s[i], out[k])
  {
    var at: seq<nat> :| SiftedAt(at, s, gone, kept, out);
    i := at[k];
  }

  /** Every entry that is not gone has its entry in the sifted sequence. */
  lemma SiftedTo<T(!new), U(!new)>(s: seq<T>, gone: T -> bool, kept: (T, U) -> bool, out: seq<U>, i: nat)
    returns (k: nat)
    requires Sifted(s, gone, kept, out) && i < |s| && !gone(s[i])
    ensures k < |out| && kept(s[i], out[k])
  {
    var at: seq<nat> :| SiftedAt(at, s, gone, kept, out);
    assert i in at;
    k :| 0 <= k < |at| && at[k] == i;
  }

  function Max(a: int, b: int): (m: int)
    ensures m >= a && m >= b
  {
    if a >= b then a else b
  }
}
