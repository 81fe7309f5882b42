/**
 * The two Azure tables the pipeline uses, `weatherdata` and `gdddata`, as in-memory values.
 * A table maps a PartitionKey to that partition's entities by RowKey; a partition that is
 * absent holds no entity. Every stored property besides the two keys is a number.
 */
module AzureTables {
  import opened Wrappers
  import opened Text
  import opened Ordering

  /** The properties of an entity other than PartitionKey and RowKey. */
  type Attributes = map<Text, real>

  type Table = map<Text, map<Text, Attributes>>

  /** An entity as queries return it and as `upsert_entity` receives it. */
  datatype Entity = Entity(partitionKey: Text, rowKey: Text, props: Attributes)

  /** The entities of partition `p` by RowKey. */
  function Partition(t: Table, p: Text): map<Text, Attributes>
  {
    if p in t then t[p] else map[]
  }

  /** `entity.get(name)`: the property if the entity has it. */
  function Get(props: Attributes, name: Text): Option<real>
  {
    if name in props then Some(props[name]) else None
  }

  /** `e` is the entity the table holds under e's two keys. */
  predicate Stored(t: Table, e: Entity)
  {
    e.rowKey in Partition(t, e.partitionKey) && Partition(t, e.partitionKey)[e.rowKey] == e.props
  }

  function RowKeys(es: seq<Entity>): (ks: seq<Text>)
    ensures |ks| == |es|
    ensures forall i :: 0 <= i < |es| ==> ks[i] == es[i].rowKey
  {
    seq(|es|, i requires 0 <= i < |es| => es[i].rowKey)
  }

  /**
   * `query_entities("PartitionKey eq 'p'")`: every entity of partition `p`, once each,
   * in ascending RowKey order, which is the order Azure Table Storage returns them in.
   */
  function PartitionEntities(t: Table, p: Text): (es: seq<Entity>)
    ensures KeysAscending(es)
    ensures |es| == |Partition(t, p).Keys|
    ensures forall i :: 0 <= i < |es| ==> es[i].partitionKey == p && Stored(t, es[i])
    ensures forall k :: k in Partition(t, p) <==> k in RowKeys(es)
  {
    var ks := SortedKeys(Partition(t, p).Keys);
    var es := Listing(t, p, ks);
    ListingFacts(t, p, ks);
    es
  }

  /** The entities of partition `p` under the keys `ks`, in the order of `ks`. */
  function Listing(t: Table, p: Text, ks: seq<Text>): (es: seq<Entity>)
    requires forall k :: k in ks ==> k in Partition(t, p)
  {
    seq(|ks|, i requires 0 <= i < |ks| => Entity(p, ks[i], Partition(t, p)[ks[i]]))
  }

  lemma ListingFacts(t: Table, p: Text, ks: seq<Text>)
    requires Ascending(ks)
    requires forall k :: k in ks <==> k in Partition(t, p)
    ensures RowKeys(Listing(t, p, ks)) == ks
    ensures KeysAscending(Listing(t, p, ks))
    ensures forall i :: 0 <= i < |ks| ==> Listing(t, p, ks)[i].partitionKey == p && Stored(t, Listing(t, p, ks)[i])
  {
    var es := Listing(t, p, ks);
    assert RowKeys(es) == ks;
  }

  /** Partition after partition, in ascending PartitionKey order. */
  function Concat(t: Table, ps: seq<Text>): (es: seq<Entity>)
    ensures forall i :: 0 <= i < |es| ==> es[i].partitionKey in ps && Stored(t, es[i])
    ensures forall p, k :: p in ps && k in Partition(t, p) ==> Entity(p, k, Partition(t, p)[k]) in es
  {
    if ps == [] then []
    else
      var head := PartitionEntities(t, ps[0]);
      var rest := Concat(t, ps[1..]);
      ConcatStep(t, ps, head, rest);
      ConcatCovers(t, ps, head, rest);
      head + rest
  }

  /** Every entity of partition `p` is in the partition's listing. */
  lemma PartitionListed(t: Table, p: Text, k: Text)
    requires k in Partition(t, p)
    ensures Entity(p, k, Partition(t, p)[k]) in PartitionEntities(t, p)
  {
    var es := PartitionEntities(t, p);
    var i :| 0 <= i < |es| && RowKeys(es)[i] == k;
    assert es[i] == Entity(p, k, Partition(t, p)[k]);
  }

  /** The first partition's listing followed by a listing covering the rest covers every partition. */
  lemma ConcatCovers(t: Table, ps: seq<Text>, head: seq<Entity>, rest: seq<Entity>)
    requires ps != [] && head == PartitionEntities(t, ps[0])
    requires forall p, k :: p in ps[1..] && k in Partition(t, p) ==> Entity(p, k, Partition(t, p)[k]) in rest
    ensures forall p, k :: p in ps && k in Partition(t, p) ==> Entity(p, k, Partition(t, p)[k]) in head + rest
  {
    forall p, k | p in ps && k in Partition(t, p) ensures Entity(p, k, Partition(t, p)[k]) in head + rest {
      if p == ps[0] {
        PartitionListed(t, p, k);
      } else {
        assert p in ps[1..];
      }
    }
  }

  /** The first partition's entities followed by those of the remaining partitions. */
  lemma ConcatStep(t: Table, ps: seq<Text>, head: seq<Entity>, rest: seq<Entity>)
    requires ps != []
    requires forall i :: 0 <= i < |head| ==> head[i].partitionKey == ps[0] && Stored(t, head[i])
    requires forall i :: 0 <= i < |rest| ==> rest[i].partitionKey in ps[1..] && Stored(t, rest[i])
    ensures forall i :: 0 <= i < |head + rest| ==> (head + rest)[i].partitionKey in ps && Stored(t, (head + rest)[i])
  {
    forall i | 0 <= i < |head + rest| ensures (head + rest)[i].partitionKey in ps && Stored(t, (head + rest)[i]) {
      if i >= |head| {
        assert (head + rest)[i] == rest[i - |head|];
        assert rest[i - |head|].partitionKey in ps[1..];
      }
    }
  }

  /** `query_entities("")`: every entity of every partition, and nothing else. */
  function AllEntities(t: Table): (es: seq<Entity>)
    ensures forall i :: 0 <= i < |es| ==> Stored(t, es[i])
    ensures forall p, k :: p in t && k in t[p] ==> Entity(p, k, t[p][k]) in es
  {
    var ps := SortedKeys(t.Keys);
    var es := Concat(t, ps);
    assert forall p, k :: p in t && k in t[p] ==> p in ps && Partition(t, p)[k] == t[p][k];
    es
  }

  /** `RowKey ge 'lo'` (when given) and `RowKey le 'hi'` (when given), compared as text. */
  predicate InRange(key: Text, lo: Option<Text>, hi: Option<Text>)
  {
    (lo.None? || LexLe(lo.value, key)) && (hi.None? || LexLe(key, hi.value))
  }

  /** The entities whose RowKey passes the range filter, in their original order. */
  function KeyRange(es: seq<Entity>, lo: Option<Text>, hi: Option<Text>): (r: seq<Entity>)
    ensures |r| <= |es|
    ensures forall i :: 0 <= i < |r| ==> InRange(r[i].rowKey, lo, hi) && r[i] in es
    ensures forall i :: 0 <= i < |es| && InRange(es[i].rowKey, lo, hi) ==> es[i] in r
  {
    if es == [] then []
    else
      var rest := KeyRange(es[1..], lo, hi);
      assert forall i :: 1 <= i < |es| ==> es[i] == es[1..][i - 1];
      if InRange(es[0].rowKey, lo, hi) then [es[0]] + rest else rest
  }

  /** A key of the listing that passes the range filter is a key of the filtered listing. */
  lemma KeyRangeListsKey(es: seq<Entity>, lo: Option<Text>, hi: Option<Text>, k: Text)
    requires k in RowKeys(es) && InRange(k, lo, hi)
    ensures k in RowKeys(KeyRange(es, lo, hi))
  {
    var r := KeyRange(es, lo, hi);
    var j :| 0 <= j < |es| && RowKeys(es)[j] == k;
    var i :| 0 <= i < |r| && r[i] == es[j];
    assert RowKeys(r)[i] == k;
  }

  /** Strictly ascending row keys, as the entities of one partition come back. */
  predicate KeysAscending(es: seq<Entity>)
  {
    forall i, j :: 0 <= i < j < |es| ==> LexLt(es[i].rowKey, es[j].rowKey)
  }

  /** Filtering keeps ascending row keys ascending. */
  lemma {:induction false} KeyRangeAscending(es: seq<Entity>, lo: Option<Text>, hi: Option<Text>)
    requires KeysAscending(es)
    ensures KeysAscending(KeyRange(es, lo, hi))
  {
    if es != [] {
      var tail := es[1..];
      KeyRangeAscending(tail, lo, hi);
      var rest := KeyRange(tail, lo, hi);
      forall j | 0 <= j < |rest| ensures LexLt(es[0].rowKey, rest[j].rowKey) {
        var k :| 0 <= k < |tail| && tail[k] == rest[j];
        assert es[k + 1] == rest[j];
      }
      KeysAscendingCons(es[0], rest);
    }
  }

  lemma KeysAscendingCons(e: Entity, rest: seq<Entity>)
    requires KeysAscending(rest)
    requires forall j :: 0 <= j < |rest| ==> LexLt(e.rowKey, rest[j].rowKey)
    ensures KeysAscending([e] + rest)
  {
    var r := [e] + rest;
    forall i, j | 0 <= i < j < |r| ensures LexLt(r[i].rowKey, r[j].rowKey) {
      assert r[j] == rest[j - 1];
      if i > 0 {
        assert r[i] == rest[i - 1];
      }
    }
  }

  /**
   * `upsert_entity(e)` in its default merge mode: the properties `e` carries replace the
   * same-named ones, every other property of a stored entity is kept, and a new entity is
   * created when there is none under the two keys.
   */
  function Upsert(t: Table, e: Entity): (r: Table)
    ensures e.rowKey in Partition(r, e.partitionKey)
    ensures forall name :: name in e.props ==>
      name in Partition(r, e.partitionKey)[e.rowKey] && Partition(r, e.partitionKey)[e.rowKey][name] == e.props[name]
    ensures forall q :: q != e.partitionKey ==> Partition(r, q) == Partition(t, q)
  {
    var part := Partition(t, e.partitionKey);
    var merged := if e.rowKey in part then part[e.rowKey] + e.props else e.props;
    t[e.partitionKey := part[e.rowKey := merged]]
  }

  /** After a merge upsert each property reads as `e` wrote it, or as it was before. */
  lemma UpsertReads(t: Table, e: Entity, p: Text, k: Text, name: Text)
    ensures k in Partition(Upsert(t, e), p) <==> k in Partition(t, p) || (p == e.partitionKey && k == e.rowKey)
    ensures k in Partition(Upsert(t, e), p) ==>
      Get(Partition(Upsert(t, e), p)[k], name) ==
        if p == e.partitionKey && k == e.rowKey && name in e.props then Some(e.props[name])
        else if k in Partition(t, p) then Get(Partition(t, p)[k], name)
        else None
  {
  }

  /** The upserts of `save_weather_data_list`, applied in list order. */
  function UpsertAll(t: Table, es: seq<Entity>): Table
  {
    if es == [] then t else Upsert(UpsertAll(t, es[..|es| - 1]), es[|es| - 1])
  }

  /** Entities under keys that no upserted entity carries are left as they were. */
  lemma {:induction false} UpsertAllFrame(t: Table, es: seq<Entity>, p: Text, k: Text)
    requires forall i :: 0 <= i < |es| ==> es[i].partitionKey != p || es[i].rowKey != k
    ensures k in Partition(UpsertAll(t, es), p) <==> k in Partition(t, p)
    ensures k in Partition(t, p) ==> Partition(UpsertAll(t, es), p)[k] == Partition(t, p)[k]
  {
    if es != [] {
      UpsertAllFrame(t, es[..|es| - 1], p, k);
    }
  }
}
