/** The file-level owners of owners::compute, and exactly when apply_shard gives the same ones. */
module FileOwners {
  import opened Types
  import opened Counting
  import opened Sorting
  import opened Lpt
  import opened Shards
  import opened ShardTiling
  import opened ShardLoads
  import opened Partition

  /** The file-level owners: the owner of each file's one shard. */
  function Compute(entries: seq<Blob>, count: nat): (r: seq<nat>)
    ensures |r| == |entries|
  {
    WholeFiles(Sizes(entries));
    PlanIs(Sizes(entries), count, 0);
    Owners(Plan(Sizes(entries), count, 0))
  }

  lemma {:induction false} WholeFiles(sizes: seq<nat>)
    ensures |RawShards(sizes, 0)| == |sizes|
    ensures forall i | 0 <= i < |sizes| :: RawShards(sizes, 0)[i] == ShardSpec(i, 0, 0, sizes[i], 0)
  {
    if sizes != [] {
      WholeFiles(sizes[..|sizes| - 1]);
    }
  }

  /** Entries of equal, positive size stand in name order. */
  predicate TiesInNameOrder(entries: seq<Blob>) {
    forall i, j | 0 <= i < j < |entries| && entries[i].Size() == entries[j].Size() > 0 ::
      StringLe(entries[i].name, entries[j].name)
  }

  // ---- the two orders

  /** An order in which both planners may place the entries: a permutation, larger sizes first. */
  ghost predicate LargestFirst(sizes: seq<nat>, order: seq<nat>) {
    && multiset(order) == multiset(Upto(|sizes|))
    && Descending(Picked(sizes, order))
  }

  function Positive(sizes: seq<nat>): nat -> bool { (i: nat) => i < |sizes| && sizes[i] > 0 }

  /** How many entries are not empty. */
  function Filled(sizes: seq<nat>): nat { Count(Upto(|sizes|), Positive(sizes)) }

  /** The planner's order of the shards of whole files. */
  function ByIndex(entries: seq<Blob>): seq<nat> { LptOrder(RawShards(Sizes(entries), 0)) }

  lemma ByIndexIs(entries: seq<Blob>)
    ensures LargestFirst(Sizes(entries), ByIndex(entries))
    ensures Sorted(ByIndex(entries), IndexLe(RawShards(Sizes(entries), 0)))
    ensures Distinct(ByIndex(entries), IndexLe(RawShards(Sizes(entries), 0)))
  {
    var raw := RawShards(Sizes(entries), 0);
    var order := LptOrder(raw);
    WholeFiles(Sizes(entries));
    LptOrderIs(raw);
    hide RawShards, LptOrder, Sizes, Picked, Sorted;
    forall t: nat, u: nat | t < u < |order|
      ensures Picked(Sizes(entries), order)[t] >= Picked(Sizes(entries), order)[u]
    {
      IndexDescends(entries, raw, order, t, u);
    }
  }

  lemma IndexDescends(entries: seq<Blob>, raw: seq<ShardSpec>, order: seq<nat>, t: nat, u: nat)
    requires t < u < |order| && Sorted(order, IndexLe(raw)) && order[t] < |raw| && order[u] < |raw| == |entries|
    requires raw[order[t]].byteLen == Sizes(entries)[order[t]] && raw[order[u]].byteLen == Sizes(entries)[order[u]]
    ensures Picked(Sizes(entries), order)[t] >= Picked(Sizes(entries), order)[u]
  {
    hide Sizes;
    assert IndexLe(raw)(order[t], order[u]);
  }

  lemma ByNameIs(entries: seq<Blob>)
    ensures LargestFirst(Sizes(entries), HandOut(entries))
  {
    var order := HandOut(entries);
    HandOutIs(entries);
    hide HandOut;
    forall t, u | 0 <= t < u < |order|
      ensures Picked(Sizes(entries), order)[t] >= Picked(Sizes(entries), order)[u]
    {
      assert ItemOrder(entries)(order[t], order[u]);
    }
  }

  lemma {:induction false} PositiveFirst(sizes: seq<nat>, order: seq<nat>)
    requires Descending(Picked(sizes, order)) && forall t | 0 <= t < |order| :: order[t] < |sizes|
    ensures forall t | 0 <= t < |order| :: sizes[order[t]] > 0 <==> t < Count(order, Positive(sizes))
  {
    if order != [] {
      var n := |order| - 1;
      CountLast(order, Positive(sizes));
      CountBound(order[..n], Positive(sizes));
      hide Count;
      if sizes[order[n]] > 0 {
        AllPositive(sizes, order);
      } else {
        PickedInit(sizes, order);
        PositiveFirst(sizes, order[..n]);
        hide Picked, Descending;
        assert forall t | 0 <= t < n :: order[..n][t] == order[t];
      }
    }
  }

  /** When the last in a descending order is not empty, none is. */
  lemma AllPositive(sizes: seq<nat>, order: seq<nat>)
    requires order != [] && Descending(Picked(sizes, order)) && forall t | 0 <= t < |order| :: order[t] < |sizes|
    requires sizes[order[|order| - 1]] > 0
    ensures Count(order, Positive(sizes)) == |order| && forall t | 0 <= t < |order| :: sizes[order[t]] > 0
  {
    hide Picked, Descending, Count;
    forall t: nat | t < |order|
      ensures Positive(sizes)(order[t])
    {
      NotBelowLast(sizes, order, t);
    }
    CountBound(order, Positive(sizes));
  }

  lemma NotBelowLast(sizes: seq<nat>, order: seq<nat>, t: nat)
    requires t < |order| && Descending(Picked(sizes, order))
    requires order[t] < |sizes| && order[|order| - 1] < |sizes|
    ensures sizes[order[t]] >= sizes[order[|order| - 1]]
  {
    var q := Picked(sizes, order);
    assert q[t] == sizes[order[t]] && q[|order| - 1] == sizes[order[|order| - 1]];
    hide Picked;
  }

  lemma PickedInit(sizes: seq<nat>, order: seq<nat>)
    requires order != [] && Descending(Picked(sizes, order))
    ensures Descending(Picked(sizes, order[..|order| - 1]))
  {
    assert Picked(sizes, order[..|order| - 1]) == Picked(sizes, order)[..|order| - 1];
  }

  /** In either order the entries that are not empty come first. */
  lemma FilledFirst(sizes: seq<nat>, order: seq<nat>)
    requires LargestFirst(sizes, order)
    ensures |order| == |sizes| && Filled(sizes) <= |sizes|
    ensures forall t | 0 <= t < |order| :: order[t] < |sizes| && (sizes[order[t]] > 0 <==> t < Filled(sizes))
    ensures forall i: nat | i < |sizes| :: i in order
    ensures forall t, u | 0 <= t < u < |order| :: order[t] != order[u]
  {
    hide Descending;
    PermutationHits(order, |sizes|);
    PositiveFirst(sizes, order);
    CountPermuted(order, Upto(|sizes|), Positive(sizes));
    CountBound(Upto(|sizes|), Positive(sizes));
  }

  lemma FilledMembers(sizes: seq<nat>, order: seq<nat>, x: nat)
    requires LargestFirst(sizes, order)
    ensures Filled(sizes) <= |order|
    ensures multiset(order[..Filled(sizes)])[x] == if Positive(sizes)(x) then 1 else 0
  {
    FilledFirst(sizes, order);
    hide LargestFirst, Filled;
    var q := order[..Filled(sizes)];
    DistinctOnce(q, x);
    if Positive(sizes)(x) {
      assert x in order;
      var t :| 0 <= t < |order| && order[t] == x;
      assert q[t] == x;
    }
  }

  lemma SameFilled(sizes: seq<nat>, p: seq<nat>, q: seq<nat>)
    requires LargestFirst(sizes, p) && LargestFirst(sizes, q)
    ensures Filled(sizes) <= |p| == |q| == |sizes|
    ensures multiset(p[..Filled(sizes)]) == multiset(q[..Filled(sizes)])
  {
    hide LargestFirst, Filled;
    FilledFirst(sizes, p);
    FilledFirst(sizes, q);
    forall x
      ensures multiset(p[..Filled(sizes)])[x] == multiset(q[..Filled(sizes)])[x]
    {
      FilledMembers(sizes, p, x);
      FilledMembers(sizes, q, x);
    }
  }

  /** Both planners see the same sizes in the same order. */
  lemma SameSizes(sizes: seq<nat>, p: seq<nat>, q: seq<nat>)
    requires LargestFirst(sizes, p) && LargestFirst(sizes, q) && p[..Min(|p|, Filled(sizes))] == q[..Min(|q|, Filled(sizes))]
    ensures Picked(sizes, p) == Picked(sizes, q)
  {
    FilledFirst(sizes, p);
    FilledFirst(sizes, q);
    hide LargestFirst, Filled;
    var k := Filled(sizes);
    forall t | 0 <= t < |sizes|
      ensures Picked(sizes, p)[t] == Picked(sizes, q)[t]
    {
      if t < k {
        assert p[..k][t] == q[..k][t];
      }
    }
  }

  // ---- owners in these orders

  lemma SizesByIndex(entries: seq<Blob>)
    ensures |RawShards(Sizes(entries), 0)| == |entries| == |ByIndex(entries)|
    ensures forall t | 0 <= t < |entries| :: ByIndex(entries)[t] < |entries|
    ensures forall t, u | 0 <= t < u < |entries| :: ByIndex(entries)[t] != ByIndex(entries)[u]
    ensures SizesIn(RawShards(Sizes(entries), 0), ByIndex(entries)) == Picked(Sizes(entries), ByIndex(entries))
  {
    WholeFiles(Sizes(entries));
    LptOrderIs(RawShards(Sizes(entries), 0));
    hide RawShards, LptOrder, Sorted, IndexLe;
  }

  lemma OwnerByIndex(entries: seq<Blob>, count: nat, t: nat)
    requires count > 1 && t < |entries|
    ensures |Compute(entries, count)| == |entries| == |ByIndex(entries)| && ByIndex(entries)[t] < |entries|
    ensures Compute(entries, count)[ByIndex(entries)[t]] == Bins(Picked(Sizes(entries), ByIndex(entries)), count)[t]
  {
    hide ByIndex, RawShards, Compute, Bins, Assigned, Picked, SizesIn, Sizes;
    SizesByIndex(entries);
    AssignedBins(RawShards(Sizes(entries), 0), ByIndex(entries), count);
    ComputeIs(entries, count);
  }

  lemma OwnersByIndex(entries: seq<Blob>, count: nat)
    requires count > 1
    ensures |Compute(entries, count)| == |entries| == |ByIndex(entries)|
    ensures forall t | 0 <= t < |entries| ::
              ByIndex(entries)[t] < |entries|
              && Compute(entries, count)[ByIndex(entries)[t]] == Bins(Picked(Sizes(entries), ByIndex(entries)), count)[t]
  {
    hide ByIndex, RawShards, Compute, Bins, Picked, Sizes;
    SizesByIndex(entries);
    forall t | 0 <= t < |entries|
      ensures Compute(entries, count)[ByIndex(entries)[t]] == Bins(Picked(Sizes(entries), ByIndex(entries)), count)[t]
    {
      OwnerByIndex(entries, count, t);
    }
  }

  lemma ComputeIs(entries: seq<Blob>, count: nat)
    requires count > 1
    ensures var plan := Assigned(RawShards(Sizes(entries), 0), ByIndex(entries), count);
            |plan| == |entries| && forall i | 0 <= i < |entries| :: Compute(entries, count)[i] == plan[i].ownerRank
  {
    WholeFiles(Sizes(entries));
    hide RawShards, LptOrder, Assigned, Sizes;
  }

  lemma OwnersByName(entries: seq<Blob>, count: nat)
    requires count > 1
    ensures |OwnerOf(entries, count)| == |entries| == |HandOut(entries)|
    ensures forall t | 0 <= t < |entries| ::
              HandOut(entries)[t] < |entries|
              && OwnerOf(entries, count)[HandOut(entries)[t]] == Bins(Picked(Sizes(entries), HandOut(entries)), count)[t]
  {
    var order := HandOut(entries);
    HandOutIs(entries);
    OwnerTableIs(entries, order, count);
    hide HandOut, Bins, OwnerTable;
    assert Sizes(Handed(entries, order)) == Picked(Sizes(entries), order);
  }

  // ---- ties in name order are enough

  lemma TieOrder(entries: seq<Blob>, a: nat, b: nat)
    requires TiesInNameOrder(entries) && a < |entries| && b < |entries| && entries[b].Size() > 0
    requires Lex(ItemOrder(entries))(a, b)
    ensures IndexLe(RawShards(Sizes(entries), 0))(a, b)
  {
    WholeFiles(Sizes(entries));
    hide RawShards;
  }

  lemma FilledByIndex(entries: seq<Blob>)
    requires TiesInNameOrder(entries)
    ensures Filled(Sizes(entries)) <= |HandOut(entries)|
    ensures Sorted(HandOut(entries)[..Filled(Sizes(entries))], IndexLe(RawShards(Sizes(entries), 0)))
  {
    var order, k := HandOut(entries), Filled(Sizes(entries));
    ByNameIs(entries);
    FilledFirst(Sizes(entries), order);
    ItemOrderIs(entries);
    SortStable(|entries|, ItemOrder(entries));
    hide RawShards, Sort, TotalOrder, IndexLe, TiesInNameOrder, Lex, Filled, LargestFirst;
    assert order == Sort(Upto(|entries|), ItemOrder(entries));
    forall t, u | 0 <= t < u < k
      ensures IndexLe(RawShards(Sizes(entries), 0))(order[t], order[u])
    {
      assert Lex(ItemOrder(entries))(order[t], order[u]);
      assert Sizes(entries)[order[u]] > 0;
      TieOrder(entries, order[t], order[u]);
    }
  }

  lemma PrefixSorted<T(!new)>(s: seq<T>, k: nat, le: (T, T) -> bool)
    requires Sorted(s, le) && Distinct(s, le) && k <= |s|
    ensures Sorted(s[..k], le) && Distinct(s[..k], le)
  {
    assert forall x | x in s[..k] :: x in s;
  }

  /** The entries that are not empty are placed in the same order by both. */
  lemma SameFront(entries: seq<Blob>)
    requires TiesInNameOrder(entries)
    ensures Filled(Sizes(entries)) <= |ByIndex(entries)| == |HandOut(entries)|
    ensures ByIndex(entries)[..Filled(Sizes(entries))] == HandOut(entries)[..Filled(Sizes(entries))]
  {
    hide ByIndex, HandOut, LargestFirst, Filled, TiesInNameOrder, RawShards, Sorted, Distinct, IndexLe;
    var k := Filled(Sizes(entries));
    ByIndexIs(entries);
    ByNameIs(entries);
    SameFilled(Sizes(entries), ByIndex(entries), HandOut(entries));
    FilledByIndex(entries);
    PrefixSorted(ByIndex(entries), k, IndexLe(RawShards(Sizes(entries), 0)));
    SortedOnce(ByIndex(entries)[..k], HandOut(entries)[..k], IndexLe(RawShards(Sizes(entries), 0)));
  }

  /** When entries of equal, positive size are listed in name order, both planners give every entry the same owner. */
  lemma ComputeAgrees(entries: seq<Blob>, count: nat)
    requires count > 1 && TiesInNameOrder(entries)
    ensures Compute(entries, count) == OwnerOf(entries, count)
  {
    hide ByIndex, HandOut, LargestFirst, Filled, TiesInNameOrder, RawShards, Sorted, Distinct, IndexLe, Compute, OwnerOf, Bins, Picked, Sizes;
    var sizes, p, q := Sizes(entries), ByIndex(entries), HandOut(entries);
    SameFront(entries);
    ByIndexIs(entries);
    ByNameIs(entries);
    SameSizes(sizes, p, q);
    OwnersByIndex(entries, count);
    OwnersByName(entries, count);
    forall i: nat | i < |entries|
      ensures Compute(entries, count)[i] == OwnerOf(entries, count)[i]
    {
      var t := PlaceIn(sizes, p, i);
      var u := PlaceIn(sizes, q, i);
      SamePlace(sizes, p, q, count, t, u);
    }
  }

  lemma PlaceIn(sizes: seq<nat>, order: seq<nat>, i: nat) returns (t: nat)
    requires LargestFirst(sizes, order) && i < |sizes|
    ensures t < |order| && order[t] == i
  {
    hide LargestFirst, Filled;
    FilledFirst(sizes, order);
    assert i in order;
    t :| 0 <= t < |order| && order[t] == i;
  }

  /** An entry's places in the two orders belong to the same bin. */
  lemma SamePlace(sizes: seq<nat>, p: seq<nat>, q: seq<nat>, count: nat, t: nat, u: nat)
    requires LargestFirst(sizes, p) && LargestFirst(sizes, q) && count > 1 && t < |p| && u < |q| && p[t] == q[u]
    requires Picked(sizes, p) == Picked(sizes, q)
    requires p[..Min(|p|, Filled(sizes))] == q[..Min(|q|, Filled(sizes))]
    ensures Bins(Picked(sizes, p), count)[t] == Bins(Picked(sizes, q), count)[u]
  {
    var k := Filled(sizes);
    FilledFirst(sizes, p);
    FilledFirst(sizes, q);
    hide LargestFirst, Filled, Bins, Loads, LeastLoaded;
    if t < k {
      assert q[t] == q[..k][t] == p[..k][t] == p[t];
      assert t == u;
    } else {
      var jobs := Picked(sizes, p);
      BinsAt(jobs, count, t);
      BinsAt(jobs, count, u);
      EmptyJobs(jobs, count, k, t);
      EmptyJobs(jobs, count, k, u);
    }
  }

  // ---- and needed

  /** Entries that are not empty each get a worker of their own, in the order they are placed. */
  lemma PlaceIsOwner(sizes: seq<nat>, order: seq<nat>, t: nat)
    requires LargestFirst(sizes, order) && t < |order| && order[t] < |sizes| && sizes[order[t]] > 0
    ensures |order| == |sizes| && Bins(Picked(sizes, order), |sizes|)[t] == t
  {
    FilledFirst(sizes, order);
    hide LargestFirst, Filled, Bins;
    OwnBin(Picked(sizes, order), |sizes|, t);
  }

  lemma IndexPlace(entries: seq<Blob>, i: nat) returns (t: nat)
    requires i < |entries| && |entries| > 1 && entries[i].Size() > 0
    ensures t < |entries| == |ByIndex(entries)| && ByIndex(entries)[t] == i && Compute(entries, |entries|)[i] == t
  {
    hide ByIndex, LargestFirst, Filled, RawShards, Compute, Bins, Distinct, Sorted;
    ByIndexIs(entries);
    OwnersByIndex(entries, |entries|);
    FilledFirst(Sizes(entries), ByIndex(entries));
    assert i in ByIndex(entries);
    t :| 0 <= t < |entries| && ByIndex(entries)[t] == i;
    PlaceIsOwner(Sizes(entries), ByIndex(entries), t);
  }

  lemma NamePlace(entries: seq<Blob>, i: nat) returns (t: nat)
    requires i < |entries| && |entries| > 1 && entries[i].Size() > 0
    ensures t < |entries| == |HandOut(entries)| && HandOut(entries)[t] == i && OwnerOf(entries, |entries|)[i] == t
  {
    hide HandOut, LargestFirst, Filled, OwnerOf, Bins;
    ByNameIs(entries);
    OwnersByName(entries, |entries|);
    FilledFirst(Sizes(entries), HandOut(entries));
    assert i in HandOut(entries);
    t :| 0 <= t < |entries| && HandOut(entries)[t] == i;
    PlaceIsOwner(Sizes(entries), HandOut(entries), t);
  }

  lemma LaterByIndex(entries: seq<Blob>, i: nat, j: nat)
    requires i < j < |entries| && entries[i].Size() == entries[j].Size() > 0
    ensures Compute(entries, |entries|)[i] < Compute(entries, |entries|)[j]
  {
    hide ByIndex, LargestFirst, RawShards, Compute, Distinct;
    var t := IndexPlace(entries, i);
    var u := IndexPlace(entries, j);
    ByIndexIs(entries);
    WholeFiles(Sizes(entries));
  }

  lemma EarlierByName(entries: seq<Blob>, i: nat, j: nat)
    requires i < |entries| && j < |entries| && i != j && entries[i].Size() == entries[j].Size() > 0
    requires !StringLe(entries[i].name, entries[j].name)
    ensures |entries| > 1 && OwnerOf(entries, |entries|)[i] > OwnerOf(entries, |entries|)[j]
  {
    hide HandOut, OwnerOf;
    var v := NamePlace(entries, i);
    var w := NamePlace(entries, j);
    HandOutIs(entries);
  }

  /** With a worker for every entry, a tie out of name order separates the two planners. */
  lemma TieSeparates(entries: seq<Blob>, i: nat, j: nat)
    requires i < j < |entries| && entries[i].Size() == entries[j].Size() > 0
    requires !StringLe(entries[i].name, entries[j].name)
    ensures Compute(entries, |entries|) != OwnerOf(entries, |entries|)
  {
    hide Compute, OwnerOf;
    LaterByIndex(entries, i, j);
    EarlierByName(entries, i, j);
  }

  /**
    The two planners agree on a listing for every number of workers exactly when its entries of equal, positive size
    are listed in name order. Empty entries never matter.
  */
  lemma AgreeIff(entries: seq<Blob>)
    ensures (forall count: nat | count > 1 :: Compute(entries, count) == OwnerOf(entries, count)) <==> TiesInNameOrder(entries)
  {
    hide Compute, OwnerOf;
    if TiesInNameOrder(entries) {
      forall count: nat | count > 1
        ensures Compute(entries, count) == OwnerOf(entries, count)
      {
        ComputeAgrees(entries, count);
      }
    } else {
      var i, j :| 0 <= i < j < |entries| && entries[i].Size() == entries[j].Size() > 0
                  && !StringLe(entries[i].name, entries[j].name);
      TieSeparates(entries, i, j);
    }
  }

  /** The shortest listing on which they differ. */
  lemma ComputeCanDiffer() returns (entries: seq<Blob>)
    ensures |entries| == 2 && Names(entries) && !TiesInNameOrder(entries)
    ensures Compute(entries, 2) != OwnerOf(entries, 2)
  {
    hide Compute, OwnerOf;
    var one := Some(Props(Some(1), None));
    entries := [Blob("b", one), Blob("a", one)];
    assert !StringLe("b", "a");
    TieSeparates(entries, 0, 1);
  }

  // ---- how the items of a listing are shared out among workers

  /**
    apply_shard hands the items out largest first, equal ones by name, equal names in listing order, each to the worker
    with the fewest bytes so far. There is only one such order.
  */
  lemma ItemsHandedOut(entries: seq<Blob>, count: nat) returns (order: seq<nat>)
    requires count > 1
    ensures |order| == |entries| && (forall i: nat | i < |entries| :: i in order)
    ensures forall t | 0 <= t < |order| :: order[t] < |entries|
    ensures forall t, u | 0 <= t < u < |order| ::
              var x, y := entries[order[t]], entries[order[u]];
              || x.Size() > y.Size()
              || (x.Size() == y.Size() && x.name != y.name && StringLe(x.name, y.name))
              || (x.Size() == y.Size() && x.name == y.name && order[t] < order[u])
    ensures forall t | 0 <= t < |order| ::
              OwnerOf(entries, count)[order[t]] == Bins(Picked(Sizes(entries), order), count)[t]
  {
    hide HandOut, OwnerOf, Bins, Picked, Sizes, Sort, Sorted, ItemOrder;
    order := HandOut(entries);
    HandOutIs(entries);
    OwnersByName(entries, count);
    HandOutStable(entries);
    forall t: nat, u: nat | t < u < |order|
      ensures var x, y := entries[order[t]], entries[order[u]];
              || x.Size() > y.Size()
              || (x.Size() == y.Size() && x.name != y.name && StringLe(x.name, y.name))
              || (x.Size() == y.Size() && x.name == y.name && order[t] < order[u])
    {
      ItemBefore(entries, order, t, u);
    }
  }

  lemma HandOutStable(entries: seq<Blob>)
    ensures Sorted(HandOut(entries), Lex(ItemOrder(entries)))
  {
    hide Sort, Sorted, Lex, ItemOrder;
    ItemOrderIs(entries);
    SortStable(|entries|, ItemOrder(entries));
  }

  lemma ItemBefore(entries: seq<Blob>, order: seq<nat>, t: nat, u: nat)
    requires t < u < |order| && Sorted(order, Lex(ItemOrder(entries))) && order[t] < |entries| && order[u] < |entries|
    requires order[t] != order[u]
    ensures var x, y := entries[order[t]], entries[order[u]];
            || x.Size() > y.Size()
            || (x.Size() == y.Size() && x.name != y.name && StringLe(x.name, y.name))
            || (x.Size() == y.Size() && x.name == y.name && order[t] < order[u])
  {
    assert Lex(ItemOrder(entries))(order[t], order[u]);
    StringTotal(entries[order[t]].name, entries[order[u]].name);
  }

  /** The bytes of a worker's items. */
  function WorkerLoad(entries: seq<Blob>, count: nat, b: nat): nat
    requires count > 0
  {
    Load(Sizes(entries), OwnerOf(entries, count), b)
  }

  lemma WorkerLoadIs(entries: seq<Blob>, count: nat, b: nat)
    requires count > 1 && b < count && Sum(Sizes(entries)) <= U64_MAX
    ensures var jobs := Picked(Sizes(entries), HandOut(entries));
            Sum(jobs) == Sum(Sizes(entries)) && WorkerLoad(entries, count, b) == Loads(jobs, count)[b]
  {
    hide HandOut, OwnerOf, Bins, Load, Loads, Sum, Sort, Sorted, ItemOrder;
    var order, sizes, owners := HandOut(entries), Sizes(entries), OwnerOf(entries, count);
    HandOutIs(entries);
    OwnersByName(entries, count);
    assert Bins(Picked(sizes, order), count) == Picked(owners, order);
    SumPermuted(sizes, order);
    LoadPermuted(sizes, owners, b, order);
    LoadsExact(Picked(sizes, order), count);
  }

  /** No worker gets more than (4/3 - 1/(3m)) times what the busiest worker of any other assignment would. */
  lemma WorkersNearBest(entries: seq<Blob>, count: nat, best: seq<nat>, T: nat, b: nat)
    requires count > 1 && b < count && Sum(Sizes(entries)) <= U64_MAX && Fits(Sizes(entries), best, count, T)
    ensures 3 * count * WorkerLoad(entries, count, b) <= (4 * count - 1) * T
  {
    hide HandOut, OwnerOf, Load, Loads, Sum, WorkerLoad, Sizes, LargestFirst, Picked, Descending;
    var order, sizes := HandOut(entries), Sizes(entries);
    HandOutIs(entries);
    WorkerLoadIs(entries, count, b);
    ByNameIs(entries);
    HandedDescends(entries);
    FitsInOrder(sizes, best, count, T, order);
    GrahamBound(Picked(sizes, order), count, Picked(best, order), T, b);
  }

  lemma HandedDescends(entries: seq<Blob>)
    ensures Descending(Picked(Sizes(entries), HandOut(entries)))
  {
    hide Descending, HandOut;
    ByNameIs(entries);
  }

  lemma FitsInOrder(sizes: seq<nat>, best: seq<nat>, count: nat, T: nat, order: seq<nat>)
    requires Fits(sizes, best, count, T) && multiset(order) == multiset(Upto(|sizes|))
    ensures Fits(Picked(sizes, order), Picked(best, order), count, T)
  {
    hide Load;
    PermutationHits(order, |sizes|);
    forall b: nat | b < count
      ensures Load(Picked(sizes, order), Picked(best, order), b) <= T
    {
      LoadPermuted(sizes, best, b, order);
      assert Load(sizes, best, b) <= T;
    }
  }

  /** Two workers never differ by more than the largest item. */
  lemma WorkersSpread(entries: seq<Blob>, count: nat, largest: nat, b: nat, c: nat)
    requires count > 1 && b < count && c < count && Sum(Sizes(entries)) <= U64_MAX
    requires forall i | 0 <= i < |entries| :: entries[i].Size() <= largest
    ensures WorkerLoad(entries, count, b) - WorkerLoad(entries, count, c) <= largest
  {
    hide HandOut, OwnerOf, Load, Loads, Sum, WorkerLoad, Sort, Sorted, ItemOrder;
    HandOutIs(entries);
    WorkerLoadIs(entries, count, b);
    WorkerLoadIs(entries, count, c);
    SpreadBound(Picked(Sizes(entries), HandOut(entries)), count, largest, b, c);
  }
}
