/** Splitting a listing between workers that never talk to each other: apply_shard. */
module Partition {
  import opened Types
  import opened Counting
  import opened Sorting
  import opened Lpt
  import opened Shards
  import opened ShardTiling
  import opened ShardLoads

  // ---- the order of names

  /** Strings by their characters, a prefix first. */
  predicate StringLe(a: string, b: string) {
    if a == [] then true
    else if b == [] then false
    else if a[0] != b[0] then a[0] < b[0]
    else StringLe(a[1..], b[1..])
  }

  lemma {:induction false} StringTotal(a: string, b: string)
    ensures StringLe(a, b) || StringLe(b, a)
    ensures StringLe(a, b) && StringLe(b, a) ==> a == b
    ensures StringLe(a, a)
  {
    if a != [] {
      StringTotal(a[1..], a[1..]);
      if b != [] {
        StringTotal(a[1..], b[1..]);
        assert a == [a[0]] + a[1..] && b == [b[0]] + b[1..];
      }
    }
  }

  lemma {:induction false} StringTrans(a: string, b: string, c: string)
    requires StringLe(a, b) && StringLe(b, c)
    ensures StringLe(a, c)
  {
    if a != [] {
      if a[0] == b[0] == c[0] {
        StringTrans(a[1..], b[1..], c[1..]);
      }
    }
  }

  /** Name order: a beginning comes before what it begins, and otherwise the first difference decides. */
  lemma {:induction false} StringLeIs(a: string, b: string)
    ensures StringLe(a, b) <==> a <= b || exists i :: 0 <= i < |a| && i < |b| && a[..i] == b[..i] && a[i] < b[i]
  {
    if a != [] && b != [] {
      StringLeIs(a[1..], b[1..]);
      if a[0] != b[0] {
        if a[0] < b[0] {
          assert a[..0] == b[..0];
        } else {
          forall i | 0 <= i < |a| && i < |b| && a[..i] == b[..i]
            ensures i == 0
          {
            SamePrefixHead(a, b, i);
          }
        }
      } else {
        SameHead(a, b);
      }
    }
  }

  lemma SamePrefixHead(a: string, b: string, i: nat)
    requires i <= |a| && i <= |b| && a[..i] == b[..i]
    ensures i > 0 ==> a[0] == b[0]
  {
    if i > 0 {
      assert a[..i][0] == b[..i][0];
    }
  }

  lemma SameHead(a: string, b: string)
    requires a != [] && b != [] && a[0] == b[0]
    ensures a <= b <==> a[1..] <= b[1..]
    ensures (exists i :: 0 <= i < |a| && i < |b| && a[..i] == b[..i] && a[i] < b[i])
            <==> exists i :: 0 <= i < |a[1..]| && i < |b[1..]| && a[1..][..i] == b[1..][..i] && a[1..][i] < b[1..][i]
  {
    assert a == [a[0]] + a[1..] && b == [b[0]] + b[1..];
    if i :| 0 <= i < |a| && i < |b| && a[..i] == b[..i] && a[i] < b[i] {
      assert a[1..][..i - 1] == a[..i][1..] && b[1..][..i - 1] == b[..i][1..];
      assert a[1..][i - 1] < b[1..][i - 1];
    }
    if i :| 0 <= i < |a[1..]| && i < |b[1..]| && a[1..][..i] == b[1..][..i] && a[1..][i] < b[1..][i] {
      assert a[..i + 1] == [a[0]] + a[1..][..i] && b[..i + 1] == [b[0]] + b[1..][..i];
      assert a[i + 1] < b[i + 1];
    }
  }

  /** Larger first; equal sizes by name. */
  predicate BlobLe(x: Blob, y: Blob) {
    x.Size() > y.Size() || (x.Size() == y.Size() && StringLe(x.name, y.name))
  }

  function BlobOrder(): (Blob, Blob) -> bool { (x: Blob, y: Blob) => BlobLe(x, y) }

  lemma BlobOrderIs()
    ensures TotalOrder(BlobOrder())
  {
    forall x: Blob, y: Blob
      ensures BlobLe(x, y) || BlobLe(y, x)
    {
      StringTotal(x.name, y.name);
    }
    forall x: Blob, y: Blob, z: Blob | BlobLe(x, y) && BlobLe(y, z)
      ensures BlobLe(x, z)
    {
      if x.Size() == y.Size() == z.Size() {
        StringTrans(x.name, y.name, z.name);
      }
    }
  }

  function Item(items: seq<Blob>, i: nat): Blob {
    if i < |items| then items[i] else Blob([], None)
  }

  function ItemOrder(items: seq<Blob>): (nat, nat) -> bool {
    (a: nat, b: nat) => BlobLe(Item(items, a), Item(items, b))
  }

  lemma ItemOrderIs(items: seq<Blob>)
    ensures TotalOrder(ItemOrder(items))
  {
    BlobOrderIs();
    forall a: nat, b: nat
      ensures ItemOrder(items)(a, b) || ItemOrder(items)(b, a)
    {
      assert BlobOrder()(Item(items, a), Item(items, b)) || BlobOrder()(Item(items, b), Item(items, a));
    }
    forall a: nat, b: nat, c: nat | ItemOrder(items)(a, b) && ItemOrder(items)(b, c)
      ensures ItemOrder(items)(a, c)
    {
      assert BlobOrder()(Item(items, a), Item(items, b)) && BlobOrder()(Item(items, b), Item(items, c));
    }
  }

  // ---- who owns what

  /** The order in which apply_shard hands the items out. */
  function HandOut(items: seq<Blob>): seq<nat> {
    Sort(Upto(|items|), ItemOrder(items))
  }

  function Handed(items: seq<Blob>, order: seq<nat>): (r: seq<Blob>)
    ensures |r| == |order| && forall t | 0 <= t < |r| :: r[t] == Item(items, order[t])
  {
    seq(|order|, t requires 0 <= t < |order| => Item(items, order[t]))
  }

  /** The owner table after the items in `order` have been handed out. */
  function OwnerTable(items: seq<Blob>, order: seq<nat>, count: nat): (r: seq<nat>)
    requires count > 0
    ensures |r| == |items| && forall i | 0 <= i < |r| :: r[i] < count
  {
    if order == [] then seq(|items|, _ => 0)
    else
      var n := |order| - 1;
      var r := OwnerTable(items, order[..n], count);
      if order[n] >= |r| then r
      else r[order[n] := LeastLoaded(Loads(Sizes(Handed(items, order[..n])), count))]
  }

  function OwnerOf(items: seq<Blob>, count: nat): (r: seq<nat>)
    requires count > 0
    ensures |r| == |items| && forall i | 0 <= i < |r| :: r[i] < count
  {
    OwnerTable(items, HandOut(items), count)
  }

  /** The positions with a given owner, in listing order. */
  function Positions(owner: seq<nat>, idx: nat): (r: seq<nat>)
    ensures forall t | 0 <= t < |r| :: r[t] < |owner| && owner[r[t]] == idx
    ensures forall t, u | 0 <= t < u < |r| :: r[t] < r[u]
    ensures forall i | 0 <= i < |owner| && owner[i] == idx :: i in r
  {
    if owner == [] then []
    else
      var n := |owner| - 1;
      var before := Positions(owner[..n], idx);
      if owner[n] == idx then before + [n] else before
  }

  function Keep(items: seq<Blob>, owner: seq<nat>, idx: nat): (r: seq<Blob>)
    requires |owner| == |items|
  {
    var at := Positions(owner, idx);
    seq(|at|, t requires 0 <= t < |at| => items[at[t]])
  }

  /** What worker `idx` of `count` is left with. */
  function Kept(items: seq<Blob>, idx: nat, count: nat): seq<Blob> {
    if count <= 1 then items else Keep(items, OwnerOf(items, count), idx)
  }

  // ---- the loops

  lemma HandOutIs(items: seq<Blob>)
    ensures var order := HandOut(items);
            && multiset(order) == multiset(Upto(|items|)) && |order| == |items|
            && Sorted(order, ItemOrder(items))
            && (forall t | 0 <= t < |order| :: order[t] < |items|)
            && (forall i: nat | i < |items| :: i in order)
            && (forall t, u | 0 <= t < u < |order| :: order[t] != order[u])
  {
    hide Sort, Sorted;
    ItemOrderIs(items);
    SortIs(Upto(|items|), ItemOrder(items));
    PermutationHits(HandOut(items), |items|);
  }

  lemma HandNext(items: seq<Blob>, order: seq<nat>, count: nat, t: nat)
    requires count > 0 && t < |order| && order[t] < |items|
    ensures var loads := Loads(Sizes(Handed(items, order[..t])), count);
            var bin := LeastLoaded(loads);
            && OwnerTable(items, order[..t + 1], count) == OwnerTable(items, order[..t], count)[order[t] := bin]
            && Loads(Sizes(Handed(items, order[..t + 1])), count) == loads[bin := SatAdd(loads[bin], items[order[t]].Size())]
  {
    assert order[..t + 1][..t] == order[..t];
    assert Sizes(Handed(items, order[..t + 1]))[..t] == Sizes(Handed(items, order[..t]));
  }

  lemma NothingHanded(items: seq<Blob>, order: seq<nat>, count: nat)
    requires count > 0
    ensures Loads(Sizes(Handed(items, order[..0])), count) == seq(count, _ => 0)
  {
  }

  /** The packing loop of apply_shard. */
  method AssignItems(items: seq<Blob>, count: nat) returns (owner: array<nat>)
    requires count > 1
    ensures owner[..] == OwnerOf(items, count)
  {
    hide Loads, LeastLoaded, HandOut, Sorted;
    var order := HandOut(items);
    HandOutIs(items);
    var binLoads := new nat[count](_ => 0);
    owner := new nat[|items|](_ => 0);
    NothingHanded(items, order, count);
    var t := 0;
    assert binLoads[..] == Loads(Sizes(Handed(items, order[..0])), count);
    while t < |order|
      invariant 0 <= t <= |order|
      invariant binLoads[..] == Loads(Sizes(Handed(items, order[..t])), count)
      invariant owner[..] == OwnerTable(items, order[..t], count)
    {
      var bin := LeastLoaded(binLoads[..]);
      HandNext(items, order, count, t);
      binLoads[bin] := SatAdd(binLoads[bin], items[order[t]].Size());
      owner[order[t]] := bin;
      t := t + 1;
    }
    assert order[..t] == order;
  }

  /** apply_shard: without a shard, or with one worker, the listing stays as it is. */
  method ApplyShard(items: seq<Blob>, shard: Option<(nat, nat)>) returns (kept: seq<Blob>)
    ensures kept == if shard.None? then items else Kept(items, shard.value.0, shard.value.1)
  {
    if shard.None? || shard.value.1 <= 1 {
      return items;
    }
    hide OwnerOf, Keep;
    var (idx, count) := shard.value;
    var owner := AssignItems(items, count);
    kept := Retain(items, owner, idx);
  }

  /** items.retain, with the owner table at its side. */
  method Retain(items: seq<Blob>, owner: array<nat>, idx: nat) returns (kept: seq<Blob>)
    requires owner.Length == |items|
    ensures kept == Keep(items, owner[..], idx)
  {
    kept := [];
    var i := 0;
    while i < |items|
      invariant 0 <= i <= |items|
      invariant kept == Keep(items[..i], owner[..i], idx)
    {
      assert owner[..i + 1][..i] == owner[..i] && items[..i + 1][..i] == items[..i];
      if owner[i] == idx {
        kept := kept + [items[i]];
      }
      i := i + 1;
    }
    assert owner[..i] == owner[..] && items[..i] == items;
  }

  // ---- a partition

  /** Every position belongs to exactly one worker, and each worker sees its positions in listing order. */
  lemma EachItemOnce(items: seq<Blob>, count: nat, i: nat)
    requires count > 1 && i < |items|
    ensures var owner := OwnerOf(items, count);
            && owner[i] < count && i in Positions(owner, owner[i])
            && (forall idx: nat | idx != owner[i] :: i !in Positions(owner, idx))
            && (forall idx: nat, t | 0 <= t < |Positions(owner, idx)| ::
                  t < |Kept(items, idx, count)| && Kept(items, idx, count)[t] == items[Positions(owner, idx)[t]])
  {
    hide OwnerTable, HandOut, Positions;
    var owner := OwnerOf(items, count);
    forall idx: nat
      ensures i in Positions(owner, idx) <==> idx == owner[i]
      ensures Kept(items, idx, count) == Keep(items, owner, idx)
    {
      PositionsTell(owner, idx, i);
    }
  }

  lemma PositionsTell(owner: seq<nat>, idx: nat, i: nat)
    requires i < |owner|
    ensures i in Positions(owner, idx) <==> idx == owner[i]
  {
    hide Positions;
  }

  /** How often worker `idx` holds x. */
  function Holds(items: seq<Blob>, owner: seq<nat>, idx: nat, x: Blob): nat
    requires |owner| == |items|
  {
    multiset(Keep(items, owner, idx))[x]
  }

  function Shares(items: seq<Blob>, owner: seq<nat>, count: nat, x: Blob): (r: seq<int>)
    requires |owner| == |items|
    ensures |r| == count && forall idx | 0 <= idx < count :: r[idx] == Holds(items, owner, idx, x)
  {
    seq(count, idx requires 0 <= idx => Holds(items, owner, idx, x))
  }

  /** All workers together hold the listing, each item as often as it is listed. */
  lemma WorkersShare(items: seq<Blob>, count: nat, x: Blob)
    requires count > 1
    ensures forall idx: nat :: Holds(items, OwnerOf(items, count), idx, x) == multiset(Kept(items, idx, count))[x]
    ensures Sum(Shares(items, OwnerOf(items, count), count, x)) == multiset(items)[x]
  {
    hide Keep, OwnerTable, HandOut;
    SharesAddUp(items, OwnerOf(items, count), count, x);
  }

  lemma {:induction false} SharesAddUp(items: seq<Blob>, owner: seq<nat>, count: nat, x: Blob)
    requires |owner| == |items| && forall i | 0 <= i < |owner| :: owner[i] < count
    ensures Sum(Shares(items, owner, count, x)) == multiset(items)[x]
  {
    hide Holds, Sum;
    if items == [] {
      NothingHeld(owner, x);
      SumZero(Shares(items, owner, count, x));
    } else {
      var n := |items| - 1;
      SharesAddUp(items[..n], owner[..n], count, x);
      var before := Shares(items[..n], owner[..n], count, x);
      var hit := if items[n] == x then 1 else 0;
      LastCounts(items, x);
      forall idx: nat | idx < count
        ensures Holds(items, owner, idx, x) == before[idx] + if idx == owner[n] then hit else 0
      {
        ShareLast(items, owner, idx, x);
      }
      assert Shares(items, owner, count, x) == before[owner[n] := before[owner[n]] + hit];
      SumUpdate(before, owner[n], before[owner[n]] + hit);
    }
  }

  lemma NothingHeld(owner: seq<nat>, x: Blob)
    requires owner == []
    ensures forall idx: nat :: Holds([], owner, idx, x) == 0
  {
  }

  lemma LastCounts(items: seq<Blob>, x: Blob)
    requires items != []
    ensures var n := |items| - 1;
            multiset(items)[x] == multiset(items[..n])[x] + if items[n] == x then 1 else 0
  {
    assert items == items[..|items| - 1] + [items[|items| - 1]];
  }

  lemma KeepLast(items: seq<Blob>, owner: seq<nat>, idx: nat)
    requires |owner| == |items| > 0
    ensures var n := |items| - 1;
            Keep(items, owner, idx) == Keep(items[..n], owner[..n], idx) + if owner[n] == idx then [items[n]] else []
  {
  }

  lemma ShareLast(items: seq<Blob>, owner: seq<nat>, idx: nat, x: Blob)
    requires |owner| == |items| > 0
    ensures var n := |items| - 1;
            Holds(items, owner, idx, x)
            == Holds(items[..n], owner[..n], idx, x) + if owner[n] == idx && items[n] == x then 1 else 0
  {
    KeepLast(items, owner, idx);
  }

  // ---- no matter how the listing is permuted

  /** The owner of the t-th item handed out is the bin of the t-th job. */
  lemma {:induction false} OwnerTableIs(items: seq<Blob>, order: seq<nat>, count: nat)
    requires count > 0
    requires forall t | 0 <= t < |order| :: order[t] < |items|
    requires forall t, u | 0 <= t < u < |order| :: order[t] != order[u]
    ensures forall t | 0 <= t < |order| :: OwnerTable(items, order, count)[order[t]] == Bins(Sizes(Handed(items, order)), count)[t]
  {
    if order != [] {
      OwnerTableIs(items, order[..|order| - 1], count);
      forall t | 0 <= t < |order|
        ensures OwnerTable(items, order, count)[order[t]] == Bins(Sizes(Handed(items, order)), count)[t]
      {
        OwnerTableAt(items, order, count, t);
      }
    }
  }

  lemma OwnerTableAt(items: seq<Blob>, order: seq<nat>, count: nat, t: nat)
    requires count > 0 && t < |order|
    requires forall u | 0 <= u < |order| :: order[u] < |items|
    requires forall u, v | 0 <= u < v < |order| :: order[u] != order[v]
    requires forall u | 0 <= u < |order| - 1 ::
               OwnerTable(items, order[..|order| - 1], count)[order[u]] == Bins(Sizes(Handed(items, order[..|order| - 1])), count)[u]
    ensures OwnerTable(items, order, count)[order[t]] == Bins(Sizes(Handed(items, order)), count)[t]
  {
    hide Loads, LeastLoaded;
    assert Sizes(Handed(items, order))[..|order| - 1] == Sizes(Handed(items, order[..|order| - 1]));
    hide Sizes, Handed;
  }

  /** The items in the order they are handed out. */
  function SortedItems(items: seq<Blob>): (r: seq<Blob>)
    ensures |r| == |items|
  { 
    Handed(items, HandOut(items))
  }

  predicate Names(items: seq<Blob>) {
    forall i, j | 0 <= i < j < |items| :: items[i].name != items[j].name
  }

  lemma {:induction false} HandedMultiset(items: seq<Blob>, order: seq<nat>, x: Blob)
    requires forall t | 0 <= t < |order| :: order[t] < |items|
    ensures multiset(Handed(items, order))[x] == SumOf(order, Matches(items, x))
  {
    if order != [] {
      var n := |order| - 1;
      HandedMultiset(items, order[..n], x);
      assert Handed(items, order) == Handed(items, order[..n]) + [items[order[n]]];
    }
  }

  function Matches(items: seq<Blob>, x: Blob): nat -> int {
    (i: nat) => if Item(items, i) == x then 1 else 0
  }

  lemma SortedItemsIs(items: seq<Blob>)
    ensures multiset(SortedItems(items)) == multiset(items)
    ensures Sorted(SortedItems(items), BlobOrder())
  {
    var order := HandOut(items);
    HandOutIs(items);
    hide HandOut, SumOf, Matches;
    assert Handed(items, Upto(|items|)) == items;
    forall x: Blob
      ensures multiset(SortedItems(items))[x] == multiset(items)[x]
    {
      HandedMultiset(items, order, x);
      HandedMultiset(items, Upto(|items|), x);
      SumOfPermuted(order, Upto(|items|), Matches(items, x));
    }
    forall t, u | 0 <= t < u < |order|
      ensures BlobOrder()(SortedItems(items)[t], SortedItems(items)[u])
    {
      assert ItemOrder(items)(order[t], order[u]);
    }
  }

  /** Two listings of the same distinctly named items are handed out in the same order. */
  lemma SameHandOut(a: seq<Blob>, b: seq<Blob>)
    requires multiset(a) == multiset(b) && Names(a)
    ensures SortedItems(a) == SortedItems(b)
  {
    hide SortedItems;
    SortedItemsIs(a);
    SortedItemsIs(b);
    SameMembers(SortedItems(a), a);
    forall x, y | x in SortedItems(a) && y in SortedItems(a) && BlobOrder()(x, y) && BlobOrder()(y, x)
      ensures x == y
    {
      StringTotal(x.name, y.name);
      var i :| 0 <= i < |a| && a[i] == x;
      var j :| 0 <= j < |a| && a[j] == y;
    }
    SortedOnce(SortedItems(a), SortedItems(b), BlobOrder());
  }

  /** An item is kept exactly by the worker its place in the hand-out says. */
  lemma KeptByPlace(items: seq<Blob>, idx: nat, count: nat, x: Blob)
    requires count > 1 && Names(items)
    ensures x in Kept(items, idx, count)
            <==> exists t :: 0 <= t < |items| && SortedItems(items)[t] == x && Bins(Sizes(SortedItems(items)), count)[t] == idx
  {
    hide SortedItems, Bins, Keep, OwnerOf;
    assert Kept(items, idx, count) == Keep(items, OwnerOf(items, count), idx);
    if x in Kept(items, idx, count) {
      var t := KeptHasPlace(items, idx, count, x);
    }
    if t :| 0 <= t < |items| && SortedItems(items)[t] == x && Bins(Sizes(SortedItems(items)), count)[t] == idx {
      PlaceIsKept(items, idx, count, t);
    }
  }

  /** The t-th item handed out, and its owner. */
  lemma HandedAt(items: seq<Blob>, count: nat, t: nat)
    requires count > 1 && t < |items|
    ensures |HandOut(items)| == |items| && HandOut(items)[t] < |items|
    ensures SortedItems(items)[t] == items[HandOut(items)[t]]
    ensures Bins(Sizes(SortedItems(items)), count)[t] == OwnerOf(items, count)[HandOut(items)[t]]
  {
    HandOutIs(items);
    OwnerTableIs(items, HandOut(items), count);
    hide HandOut, OwnerTable, Bins, Sizes, Sorted;
  }

  lemma KeptHasPlace(items: seq<Blob>, idx: nat, count: nat, x: Blob) returns (t: nat)
    requires count > 1 && x in Keep(items, OwnerOf(items, count), idx)
    ensures t < |items| && SortedItems(items)[t] == x && Bins(Sizes(SortedItems(items)), count)[t] == idx
  {
    var i := KeptPosition(items, OwnerOf(items, count), idx, x);
    HandOutIs(items);
    hide HandOut, OwnerOf, Bins, SortedItems, Keep, Sizes, Sorted;
    assert i in HandOut(items);
    t :| 0 <= t < |items| && HandOut(items)[t] == i;
    HandedAt(items, count, t);
  }

  lemma KeptPosition(items: seq<Blob>, owner: seq<nat>, idx: nat, x: Blob) returns (i: nat)
    requires |owner| == |items| && x in Keep(items, owner, idx)
    ensures i < |items| && items[i] == x && owner[i] == idx
  {
    hide Positions;
    var at := Positions(owner, idx);
    var k :| 0 <= k < |at| && items[at[k]] == x;
    i := at[k];
  }

  lemma PlaceIsKept(items: seq<Blob>, idx: nat, count: nat, t: nat)
    requires count > 1 && t < |items| && Bins(Sizes(SortedItems(items)), count)[t] == idx
    ensures SortedItems(items)[t] in Keep(items, OwnerOf(items, count), idx)
  {
    HandedAt(items, count, t);
    hide HandOut, OwnerOf, Bins, SortedItems, Sizes, Positions;
    var owner := OwnerOf(items, count);
    var i := HandOut(items)[t];
    PositionsTell(owner, idx, i);
    var k :| 0 <= k < |Positions(owner, idx)| && Positions(owner, idx)[k] == i;
    assert Keep(items, owner, idx)[k] == items[i];
  }

  /** Workers that see the listing in different orders still agree on who takes what. */
  lemma OrderDoesNotMatter(a: seq<Blob>, b: seq<Blob>, idx: nat, count: nat, x: Blob)
    requires count > 1 && multiset(a) == multiset(b) && Names(a)
    ensures x in Kept(a, idx, count) <==> x in Kept(b, idx, count)
  {
    hide Kept, SortedItems, Bins;
    SameHandOut(a, b);
    SameMembers(a, b);
    assert Names(b) by { NamesPermuted(a, b); }
    KeptByPlace(a, idx, count, x);
    KeptByPlace(b, idx, count, x);
  }

  lemma NamesPermuted(a: seq<Blob>, b: seq<Blob>)
    requires multiset(a) == multiset(b) && Names(a)
    ensures Names(b)
  {
    SameMembers(b, a);
    forall i, j | 0 <= i < j < |b|
      ensures b[i].name != b[j].name
    {
      var x, y := b[i], b[j];
      assert x in b && y in b;
      var k :| 0 <= k < |a| && a[k] == x;
      var l :| 0 <= l < |a| && a[l] == y;
      if k == l {
        OnceNamed(a, k);
        Twice(b, i, j);
      }
    }
  }

  lemma {:induction false} OnceNamed(a: seq<Blob>, k: nat)
    requires Names(a) && k < |a|
    ensures multiset(a)[a[k]] == 1
  {
    TakeOut(a, k);
    var rest := a[..k] + a[k + 1..];
    forall j | 0 <= j < |rest|
      ensures rest[j] != a[k]
    {
      var m := if j < k then j else j + 1;
      assert rest[j] == a[m] && a[m].name != a[k].name;
    }
    assert a[k] !in multiset(rest);
  }
}
