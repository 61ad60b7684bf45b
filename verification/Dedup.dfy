/** Create/delete deduplication of a batch of retry messages. */
module Dedup {
  import opened Base

  datatype CEType = Create | Delete | Cancel

  /** A parsed CloudEvent; `tag` stands for its message handle and payload. */
  datatype Item = Item(tag: nat, resourceId: Id, ceType: CEType)

  datatype Entry = Entry(creates: seq<nat>, deletes: seq<nat>)

  // ------------------------------------------------------------ specification

  ghost predicate Has(items: seq<Item>, id: Id, ceType: CEType) {
    exists i :: 0 <= i < |items| && items[i].resourceId == id && items[i].ceType == ceType
  }

  /** The id has both a create and a delete in the batch. */
  ghost predicate Paired(items: seq<Item>, id: Id) {
    Has(items, id, Create) && Has(items, id, Delete)
  }

  ghost predicate Deduped(items: seq<Item>, i: nat)
    requires i < |items|
  {
    !items[i].ceType.Cancel? && Paired(items, items[i].resourceId)
  }

  ghost predicate Increasing(s: seq<nat>) {
    forall i, j :: 0 <= i < j < |s| ==> s[i] < s[j]
  }

  /** `out` is `items` without the deduplicated ones, in the original order. */
  ghost predicate Survivors(items: seq<Item>, out: seq<Item>, kept: seq<nat>) {
    && |out| == |kept| && Increasing(kept)
    && (forall k :: 0 <= k < |kept| ==> kept[k] < |items| && out[k] == items[kept[k]])
    && (forall i :: 0 <= i < |items| ==> (i in kept <==> !Deduped(items, i)))
  }

  /** The output of a deduplication contains no pair, so doing it again changes nothing. */
  lemma NothingLeftToDedup(items: seq<Item>, out: seq<Item>, kept: seq<nat>)
    requires Survivors(items, out, kept)
    ensures forall id :: !Paired(out, id)
    ensures forall again, kept2 :: Survivors(out, again, kept2) ==> again == out
  {
    forall id ensures !Paired(out, id) {
      if Paired(out, id) {
        var a :| 0 <= a < |out| && out[a].resourceId == id && out[a].ceType == Create;
        var b :| 0 <= b < |out| && out[b].resourceId == id && out[b].ceType == Delete;
        assert kept[a] in kept && items[kept[a]] == out[a] && items[kept[b]] == out[b];
        assert Deduped(items, kept[a]);
      }
    }
    forall again, kept2 | Survivors(out, again, kept2) ensures again == out {
      AllIndices(kept2, |out|);
    }
  }

  /** An increasing sequence holding every index below `n` is `0, 1, ..., n - 1`. */
  lemma {:induction false} AllIndices(s: seq<nat>, n: nat)
    requires Increasing(s)
    requires forall k :: 0 <= k < |s| ==> s[k] < n
    requires forall i :: 0 <= i < n ==> i in s
    ensures |s| == n && forall k :: 0 <= k < n ==> s[k] == k
  {
    if s == [] {
      assert n == 0 || 0 in s;
    } else {
      var last := |s| - 1;
      assert s[last] < n;
      assert n - 1 in s;
      var k :| 0 <= k < |s| && s[k] == n - 1;
      assert s[k] <= s[last];
      var rest := s[..last];
      forall i | 0 <= i < n - 1 ensures i in rest {
        assert i in s;
        var j :| 0 <= j < |s| && s[j] == i;
        assert rest[j] == i;
      }
      AllIndices(rest, n - 1);
    }
  }

  // ----------------------------------------------------------------- the loops

  /** The positions of one id's messages of one type in the first `n` items. */
  function Positions(items: seq<Item>, n: nat, id: Id, ceType: CEType): seq<nat>
    requires n <= |items|
  {
    if n == 0 then []
    else if items[n - 1].resourceId == id && items[n - 1].ceType == ceType then
      Positions(items, n - 1, id, ceType) + [n - 1]
    else Positions(items, n - 1, id, ceType)
  }

  lemma {:induction false} PositionsExact(items: seq<Item>, n: nat, id: Id, ceType: CEType)
    requires n <= |items|
    ensures var at := Positions(items, n, id, ceType);
            && Increasing(at)
            && (forall i :: i in at <==> 0 <= i < n && items[i].resourceId == id && items[i].ceType == ceType)
  {
    if n > 0 {
      PositionsExact(items, n - 1, id, ceType);
      var before := Positions(items, n - 1, id, ceType);
      forall k | 0 <= k < |before| ensures before[k] < n - 1 {
        assert before[k] in before;
      }
    }
  }

  function EntryOf(items: seq<Item>, n: nat, id: Id): Entry
    requires n <= |items|
  {
    Entry(Positions(items, n, id, Create), Positions(items, n, id, Delete))
  }

  /** The first loop: collect the positions of each id's creates and deletes. */
  method BuildIndex(items: seq<Item>) returns (dedupMap: map<Id, Entry>)
    ensures forall id :: id in dedupMap <==> exists i :: 0 <= i < |items| && items[i].resourceId == id
    ensures forall id :: id in dedupMap ==> dedupMap[id] == EntryOf(items, |items|, id)
  {
    dedupMap := map[];
    for i := 0 to |items|
      invariant forall id :: id in dedupMap <==> exists j :: 0 <= j < i && items[j].resourceId == id
      invariant forall id :: id in dedupMap ==> dedupMap[id] == EntryOf(items, i, id)
    {
      var item := items[i];
      if item.resourceId !in dedupMap {
        PositionsExact(items, i, item.resourceId, Create);
        PositionsExact(items, i, item.resourceId, Delete);
        NothingIn(Positions(items, i, item.resourceId, Create));
        NothingIn(Positions(items, i, item.resourceId, Delete));
      }
      var e := if item.resourceId in dedupMap then dedupMap[item.resourceId] else Entry([], []);
      match item.ceType {
        case Create => e := e.(creates := e.creates + [i]);
        case Delete => e := e.(deletes := e.deletes + [i]);
        case Cancel =>
      }
      dedupMap := dedupMap[item.resourceId := e];
    }
  }

  lemma NothingIn(s: seq<nat>)
    ensures (forall i :: i !in s) ==> s == []
  {
    if s != [] {
      assert s[0] in s;
    }
  }

  /** `acked` lists, once each, the deduplicated positions of the ids in `visited`. */
  ghost predicate AckedSoFar(items: seq<Item>, visited: set<Id>, acked: seq<nat>, notified: seq<Id>) {
    && Distinct(acked) && Distinct(notified)
    && (forall i :: i in acked <==> 0 <= i < |items| && items[i].resourceId in visited && Deduped(items, i))
    && (forall id :: id in notified <==> id in visited && Paired(items, id))
  }

  lemma PairedByPositions(items: seq<Item>, id: Id)
    ensures Paired(items, id) <==>
            Positions(items, |items|, id, Create) != [] && Positions(items, |items|, id, Delete) != []
  {
    PositionsExact(items, |items|, id, Create);
    PositionsExact(items, |items|, id, Delete);
    var (creates, deletes) := (Positions(items, |items|, id, Create), Positions(items, |items|, id, Delete));
    if creates != [] && deletes != [] {
      assert creates[0] in creates && deletes[0] in deletes;
    }
    if Paired(items, id) {
      var a :| 0 <= a < |items| && items[a].resourceId == id && items[a].ceType == Create;
      var b :| 0 <= b < |items| && items[b].resourceId == id && items[b].ceType == Delete;
      assert a in creates && b in deletes;
    }
  }

  /** Acking an id's creates and then its deletes extends the list by exactly its positions. */
  lemma OneIdMore(items: seq<Item>, visited: set<Id>, acked: seq<nat>, notified: seq<Id>, id: Id)
    requires AckedSoFar(items, visited, acked, notified) && id !in visited
    ensures var e := EntryOf(items, |items|, id);
            if Paired(items, id)
            then AckedSoFar(items, visited + {id}, acked + e.creates + e.deletes, notified + [id])
            else AckedSoFar(items, visited + {id}, acked, notified)
  {
    if Paired(items, id) {
      PositionsExact(items, |items|, id, Create);
      PositionsExact(items, |items|, id, Delete);
      var e := EntryOf(items, |items|, id);
      var more := acked + e.creates + e.deletes;
      assert forall i :: i in more <==> i in acked || i in e.creates || i in e.deletes;
      DistinctConcat(acked, e.creates);
      DistinctConcat(acked + e.creates, e.deletes);
      DistinctConcat(notified, [id]);
      assert forall x :: x in notified + [id] <==> x in notified || x == id;
    }
  }

  lemma DistinctConcat<T>(a: seq<T>, b: seq<T>)
    requires Distinct(a) && Distinct(b) && forall x :: x in a ==> x !in b
    ensures Distinct(a + b)
  {
    forall i, j | 0 <= i < j < |a + b| ensures (a + b)[i] != (a + b)[j] {
      if i < |a| <= j {
        assert a[i] in a && b[j - |a|] in b;
      }
    }
  }

  /** The second loop: ack every message of a paired id, and publish one deletion
      acknowledgement per paired id. */
  method AckPairs(items: seq<Item>, dedupMap: map<Id, Entry>) returns (acked: seq<nat>, notified: seq<Id>)
    requires forall id :: id in dedupMap ==> dedupMap[id] == EntryOf(items, |items|, id)
    ensures AckedSoFar(items, dedupMap.Keys, acked, notified)
  {
    acked, notified := [], [];
    var todo := dedupMap.Keys;
    while todo != {}
      invariant todo <= dedupMap.Keys
      invariant AckedSoFar(items, dedupMap.Keys - todo, acked, notified)
      decreases |todo|
    {
      var resId :| resId in todo;
      var e := dedupMap[resId];
      PairedByPositions(items, resId);
      OneIdMore(items, dedupMap.Keys - todo, acked, notified, resId);
      if |e.creates| > 0 && |e.deletes| > 0 {
        acked := acked + e.creates + e.deletes;
        notified := notified + [resId];
      }
      assert dedupMap.Keys - todo + {resId} == dedupMap.Keys - (todo - {resId});
      todo := todo - {resId};
    }
    assert dedupMap.Keys - todo == dedupMap.Keys;
  }

  /** The third loop: keep the rest in order. */
  method KeepRest(items: seq<Item>, acked: seq<nat>) returns (surviving: seq<Item>, ghost kept: seq<nat>)
    requires forall i :: i in acked <==> 0 <= i < |items| && Deduped(items, i)
    ensures Survivors(items, surviving, kept)
  {
    surviving, kept := [], [];
    for i := 0 to |items|
      invariant |surviving| == |kept| && Increasing(kept)
      invariant forall k :: 0 <= k < |kept| ==> kept[k] < i && surviving[k] == items[kept[k]]
      invariant forall j :: 0 <= j < i ==> (j in kept <==> !Deduped(items, j))
    {
      if i !in acked {
        ghost var before := kept;
        surviving := surviving + [items[i]];
        kept := kept + [i];
        assert forall j :: j in kept <==> j in before || j == i;
      }
    }
  }

  /** Deduplication of a batch: what survives, which positions were acked, and the ids
      for which a deletion acknowledgement was published. */
  method DedupCreateDeletePairs(items: seq<Item>)
    returns (surviving: seq<Item>, acked: seq<nat>, notified: seq<Id>, ghost kept: seq<nat>)
    ensures Survivors(items, surviving, kept)
    ensures Distinct(acked) && forall i :: i in acked <==> 0 <= i < |items| && Deduped(items, i)
    ensures Distinct(notified) && forall id :: id in notified <==> Paired(items, id)
  {
    var dedupMap := BuildIndex(items);
    acked, notified := AckPairs(items, dedupMap);
    assert forall i :: i in acked <==> 0 <= i < |items| && Deduped(items, i);
    surviving, kept := KeepRest(items, acked);
  }
}
