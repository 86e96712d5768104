/** Pure definitions shared by both certificate ledger variants: the
    amounts a split hands out and the ownership map the expiry sweep
    produces. Both variants run the same split arithmetic and the same
    sweep loop; each ledger class proves its loops against these. */
module Certificates {
  import opened Types

  /** A certificate record (`SubNFT` in both ledgers): its parent
      (`root`) and its value. */
  datatype SubNft = SubNft(root: int, amount: U32)

  /** The amounts of the certificates a split creates, in creation order:
      one per requested part, then the remainder when it is positive. */
  function ChildAmounts(parts: seq<U32>, parentAmount: U32): seq<U32>
    requires Sum(parts) <= parentAmount
  {
    parts + Remainder(parentAmount - Sum(parts))
  }

  /** The remainder certificate's amount, when there is anything left. */
  function Remainder(rest: U32): seq<U32>
  {
    if rest > 0 then [rest] else []
  }

  /** The split conserves value: the children's amounts add up to the
      parent's, the requested parts come first and unchanged, and there is
      exactly one extra (positive) certificate iff the parts fall short. */
  lemma {:induction false} SplitConservesAmount(parts: seq<U32>, parentAmount: U32)
    requires Sum(parts) <= parentAmount
    ensures Sum(ChildAmounts(parts, parentAmount)) == parentAmount
    ensures |ChildAmounts(parts, parentAmount)| == |parts| + (if Sum(parts) < parentAmount then 1 else 0)
    ensures ChildAmounts(parts, parentAmount)[..|parts|] == parts
    ensures Sum(parts) < parentAmount ==>
      ChildAmounts(parts, parentAmount)[|parts|] == parentAmount - Sum(parts) > 0
  {
    var rest := parentAmount - Sum(parts);
    var tail := Remainder(rest);
    SumAppend(parts, tail);
    assert Sum(tail) == rest by {
      if rest > 0 {
        assert tail[..0] == [];
      }
    }
    assert (parts + tail)[..|parts|] == parts;
  }

  /** The owners of a split's children: the escrow owner for each
      requested part, then the splitting owner for the remainder. */
  function ChildOwners<A>(parts: nat, escrow: A, holder: A, remainder: bool): seq<A>
  {
    Repeat(parts, escrow) + (if remainder then [holder] else [])
  }

  function Repeat<T>(n: nat, v: T): seq<T>
  {
    seq(n, _ => v)
  }

  /** Writing the requested children and then the remainder child leaves
      the flags and owners of all the children written in one run. */
  lemma ChildrenStored<A>(dis: map<int, bool>, own: map<int, A>, first: int, parts: seq<U32>, parentAmount: U32,
                          escrow: A, holder: A)
    requires Sum(parts) <= parentAmount
    ensures Stored(Stored(dis, first, Repeat(|parts|, false)), first + |parts|,
                   Repeat(|Remainder(parentAmount - Sum(parts))|, false)) ==
            Stored(dis, first, Repeat(|ChildAmounts(parts, parentAmount)|, false))
    ensures Stored(Stored(own, first, Repeat(|parts|, escrow)), first + |parts|,
                   Repeat(|Remainder(parentAmount - Sum(parts))|, holder)) ==
            Stored(own, first, ChildOwners(|parts|, escrow, holder, Sum(parts) < parentAmount))
    ensures Consecutive(first, |parts|) + Consecutive(first + |parts|, |Remainder(parentAmount - Sum(parts))|) ==
            Consecutive(first, |ChildAmounts(parts, parentAmount)|)
  {
    var n := |Remainder(parentAmount - Sum(parts))|;
    assert Repeat(|parts| + n, false) == Repeat(|parts|, false) + Repeat(n, false);
    assert ChildOwners(|parts|, escrow, holder, Sum(parts) < parentAmount) == Repeat(|parts|, escrow) + Repeat(n, holder);
    StoredAppend(dis, first, Repeat(|parts|, false), Repeat(n, false));
    StoredAppend(own, first, Repeat(|parts|, escrow), Repeat(n, holder));
    ConsecutiveAppend(first, |parts|, n);
  }

  /** The records of a split's children, all with parent `parent`. */
  function ChildRecords(parent: int, amounts: seq<U32>): seq<SubNft>
  {
    seq(|amounts|, k requires 0 <= k < |amounts| => SubNft(parent, amounts[k]))
  }

  /** Writing the records of the requested children and then that of the
      remainder child leaves the records of all the children written in
      one run. */
  lemma ChildRecordsStored(sub: map<int, SubNft>, first: int, parent: int, parts: seq<U32>, parentAmount: U32)
    requires Sum(parts) <= parentAmount
    ensures Stored(Stored(sub, first, ChildRecords(parent, parts)), first + |parts|,
                   ChildRecords(parent, Remainder(parentAmount - Sum(parts)))) ==
            Stored(sub, first, ChildRecords(parent, ChildAmounts(parts, parentAmount)))
  {
    var rest := Remainder(parentAmount - Sum(parts));
    assert ChildRecords(parent, parts + rest) == ChildRecords(parent, parts) + ChildRecords(parent, rest);
    StoredAppend(sub, first, ChildRecords(parent, parts), ChildRecords(parent, rest));
  }

  /** A strictly increasing list of ids. */
  ghost predicate Ascending(s: seq<int>)
  {
    forall k, l :: 0 <= k < l < |s| ==> s[k] < s[l]
  }

  /** `n` consecutive ids starting at `first`, as the split allocates them
      from the supply counter, one id after the other. */
  function Consecutive(first: int, n: nat): seq<int>
  {
    if n == 0 then [] else Consecutive(first, n - 1) + [first + n - 1]
  }

  /** The ids allocated are `first`, `first + 1`, ..., in increasing order. */
  lemma {:induction false} ConsecutiveAt(first: int, n: nat)
    ensures |Consecutive(first, n)| == n
    ensures forall k :: 0 <= k < n ==> Consecutive(first, n)[k] == first + k
    ensures Ascending(Consecutive(first, n))
  {
    if n > 0 {
      ConsecutiveAt(first, n - 1);
    }
  }

  /** Allocating `m` more ids after `n` consecutive ones. */
  lemma {:induction false} ConsecutiveAppend(first: int, n: nat, m: nat)
    ensures Consecutive(first, n + m) == Consecutive(first, n) + Consecutive(first + n, m)
  {
    if m > 0 {
      ConsecutiveAppend(first, n, m - 1);
    }
  }

  /** `vals` stored under the consecutive keys `first`, `first + 1`, ...:
      what a loop that writes one fresh id per iteration leaves behind. */
  function Block<V>(first: int, vals: seq<V>): map<int, V>
  {
    map k | first <= k < first + |vals| :: At(vals, first, k)
  }

  /** The element of `vals` stored under key `k` by `Block(first, vals)`. */
  function At<V>(vals: seq<V>, first: int, k: int): V
    requires first <= k < first + |vals|
  {
    vals[k - first]
  }

  /** Extending a block by one value under the next key. */
  lemma BlockSnoc<V>(m: map<int, V>, first: int, vals: seq<V>, v: V)
    ensures (m + Block(first, vals))[first + |vals| := v] == m + Block(first, vals + [v])
  {
  }

  /** `vals` written one at a time under the keys `first`, `first + 1`,
      ...: the state a loop that stores one fresh id per iteration has
      reached once it has written them all. */
  function Stored<V>(m: map<int, V>, first: int, vals: seq<V>): map<int, V>
  {
    StoredFirst(m, first, vals, |vals|)
  }

  /** The same loop after its first `n` iterations. */
  function StoredFirst<V>(m: map<int, V>, first: int, vals: seq<V>, n: nat): map<int, V>
    requires n <= |vals|
  {
    if n == 0 then m else StoredFirst(m, first, vals, n - 1)[first + n - 1 := vals[n - 1]]
  }

  /** Writing nothing, and writing a single value. */
  lemma StoredShort<V>(m: map<int, V>, first: int, v: V)
    ensures Stored(m, first, []) == m
    ensures Stored(m, first, [v]) == m[first := v]
  {
    assert StoredFirst(m, first, [v], 0) == m;
  }

  /** The first `n` iterations only read the first `n` values. */
  lemma {:induction false} StoredFirstAgree<V>(m: map<int, V>, first: int, a: seq<V>, b: seq<V>, n: nat)
    requires n <= |a| && n <= |b| && a[..n] == b[..n]
    ensures StoredFirst(m, first, a, n) == StoredFirst(m, first, b, n)
  {
    if n > 0 {
      assert a[n - 1] == a[..n][n - 1] == b[..n][n - 1] == b[n - 1];
      assert a[..n - 1] == a[..n][..n - 1] == b[..n][..n - 1] == b[..n - 1];
      StoredFirstAgree(m, first, a, b, n - 1);
    }
  }

  /** Writing two runs of values one after the other. */
  lemma {:induction false} StoredAppend<V>(m: map<int, V>, first: int, a: seq<V>, b: seq<V>)
    ensures Stored(m, first, a + b) == Stored(Stored(m, first, a), first + |a|, b)
  {
    StoredAppendFirst(m, first, a, b, |b|);
  }

  lemma {:induction false} StoredAppendFirst<V>(m: map<int, V>, first: int, a: seq<V>, b: seq<V>, j: nat)
    requires j <= |b|
    ensures StoredFirst(m, first, a + b, |a| + j) == StoredFirst(Stored(m, first, a), first + |a|, b, j)
  {
    if j == 0 {
      assert (a + b)[..|a|] == a[..|a|];
      StoredFirstAgree(m, first, a + b, a, |a|);
    } else {
      StoredAppendFirst(m, first, a, b, j - 1);
      assert (a + b)[|a| + j - 1] == b[j - 1];
    }
  }

  /** Writing the values one at a time leaves the same map as storing the
      whole block at once. */
  lemma {:induction false} StoredIsBlock<V>(m: map<int, V>, first: int, vals: seq<V>)
    ensures Stored(m, first, vals) == m + Block(first, vals)
  {
    StoredFirstIsBlock(m, first, vals, |vals|);
    assert vals[..|vals|] == vals;
  }

  lemma {:induction false} StoredFirstIsBlock<V>(m: map<int, V>, first: int, vals: seq<V>, n: nat)
    requires n <= |vals|
    ensures StoredFirst(m, first, vals, n) == m + Block(first, vals[..n])
  {
    if n == 0 {
      assert Block(first, vals[..0]) == map[];
    } else {
      StoredFirstIsBlock(m, first, vals, n - 1);
      BlockSnoc(m, first, vals[..n - 1], vals[n - 1]);
      assert vals[..n - 1] + [vals[n - 1]] == vals[..n];
    }
  }

  /** What such a loop leaves under each key: `vals[k - first]` in the
      written range, and the earlier map's entry (or nothing) elsewhere. */
  lemma {:induction false} StoredAt<V>(m: map<int, V>, first: int, vals: seq<V>, k: int)
    ensures first <= k < first + |vals| ==> k in Stored(m, first, vals) && Stored(m, first, vals)[k] == vals[k - first]
    ensures !(first <= k < first + |vals|) ==>
      (k in Stored(m, first, vals) <==> k in m) && (k in m ==> Stored(m, first, vals)[k] == m[k])
  {
    StoredIsBlock(m, first, vals);
  }

  /** A flag map in which no flag is cleared and no key disappears. */
  ghost predicate OnlyRises(before: map<int, bool>, after: map<int, bool>)
  {
    forall i :: i in before ==> i in after && (before[i] ==> after[i])
  }

  /** Storing fresh flags above every existing key and then raising one
      flag clears nothing. */
  lemma {:induction false} StoredRaiseOnlyRises(m: map<int, bool>, first: int, vals: seq<bool>, id: int)
    requires forall k :: k in m ==> k < first
    ensures OnlyRises(m, Stored(m, first, vals)[id := true])
  {
    forall i | i in m
      ensures i in Stored(m, first, vals)[id := true] && (m[i] ==> Stored(m, first, vals)[id := true][i])
    {
      StoredAt(m, first, vals, i);
    }
  }

  /** The ownership map after the expiry sweep: every id in `1..supply`
      held in escrow (owned by `escrow`, the ledger's own address) is
      handed to `to`, the root certificate's owner. */
  function Reclaim<V(==)>(owners: map<int, V>, supply: int, escrow: V, to: V): (r: map<int, V>)
    ensures r.Keys == owners.Keys
    ensures 0 in owners ==> r[0] == owners[0]
    ensures forall i :: i in owners && owners[i] != escrow ==> r[i] == owners[i]
    ensures forall i :: i in owners && !(1 <= i < supply) ==> r[i] == owners[i]
    ensures forall i :: i in owners && 1 <= i < supply && owners[i] == escrow ==> r[i] == to
  {
    map i | i in owners :: if 1 <= i < supply && owners[i] == escrow then to else owners[i]
  }

  /** The sweep loop's step: extending the swept range by one id changes
      at most that id. */
  lemma ReclaimStep<V>(owners: map<int, V>, i: int, escrow: V, to: V)
    requires 1 <= i && i in owners
    ensures Reclaim(owners, i + 1, escrow, to) ==
      if owners[i] == escrow then Reclaim(owners, i, escrow, to)[i := to] else Reclaim(owners, i, escrow, to)
  {
  }

  /** An empty sweep range leaves the map as it is. */
  lemma ReclaimEmptyRange<V>(owners: map<int, V>, supply: int, escrow: V, to: V)
    requires supply <= 1
    ensures Reclaim(owners, supply, escrow, to) == owners
  {
  }

  /** After the sweep nothing in `1..supply` is left in escrow, unless the
      root owner is the escrow address itself. */
  lemma ReclaimLeavesNoEscrow<V>(owners: map<int, V>, supply: int, escrow: V, to: V)
    requires to != escrow
    ensures forall i :: i in owners && 1 <= i < supply ==> Reclaim(owners, supply, escrow, to)[i] != escrow
  {
  }

  /** Sweeping twice is sweeping once. */
  lemma ReclaimIdempotent<V>(owners: map<int, V>, supply: int, escrow: V, to: V)
    ensures Reclaim(Reclaim(owners, supply, escrow, to), supply, escrow, to) == Reclaim(owners, supply, escrow, to)
  {
  }
}
