/** The insertion-ordered, timestamped map behind `unauthenticated_servers` and `requests`. */
module TimedMaps {
  import opened Common

  datatype Entry<K, V> = Entry(key: K, value: V, time: nat)

  ghost predicate DistinctKeys<K(!new), V>(es: seq<Entry<K, V>>) {
    forall i, j :: 0 <= i < j < |es| ==> es[i].key != es[j].key
  }

  ghost predicate Sorted<K(!new), V>(es: seq<Entry<K, V>>) {
    forall i, j :: 0 <= i < j < |es| ==> es[i].time <= es[j].time
  }

  /** No entry is stamped later than `now`: `Instant::now()` never goes back. */
  ghost predicate StampedBy<K(!new), V>(es: seq<Entry<K, V>>, now: nat) {
    forall i :: 0 <= i < |es| ==> es[i].time <= now
  }

  /** The node that the hash index finds for `key`; |es| if there is none. */
  function IndexOf<K(==, !new), V>(es: seq<Entry<K, V>>, key: K): (r: nat)
    ensures r <= |es|
    ensures r < |es| ==> es[r].key == key
    ensures forall i :: 0 <= i < r ==> es[i].key != key
  {
    if es == [] then 0
    else if es[0].key == key then 0
    else 1 + IndexOf(es[1..], key)
  }

  ghost predicate Has<K(!new), V>(es: seq<Entry<K, V>>, key: K) { IndexOf(es, key) < |es| }

  /** The plain map the entries stand for. */
  ghost function AsMap<K(!new), V>(es: seq<Entry<K, V>>): (m: map<K, V>)
    ensures forall k :: k in m <==> Has(es, k)
    ensures forall k :: k in m ==> Has(es, k) && m[k] == es[IndexOf(es, k)].value
  {
    var keys := set i | 0 <= i < |es| :: es[i].key;
    assert forall k :: Has(es, k) ==> k == es[IndexOf(es, k)].key;
    map k | k in keys && Has(es, k) :: es[IndexOf(es, k)].value
  }

  /** With distinct keys, the index finds exactly the node it is asked for. */
  lemma IndexOfKey<K(!new), V>(es: seq<Entry<K, V>>, key: K, i: nat)
    requires DistinctKeys(es) && i < |es| && es[i].key == key
    ensures IndexOf(es, key) == i
  {}

  /** Unlinks the node of `key`, keeping the order of the others. */
  function Without<K(==, !new), V>(es: seq<Entry<K, V>>, key: K): seq<Entry<K, V>> {
    var n := IndexOf(es, key);
    if n == |es| then es else es[..n] + es[n + 1..]
  }

  function Find<K(==, !new), V>(es: seq<Entry<K, V>>, key: K): (r: Option<V>)
    ensures r == if key in AsMap(es) then Some(AsMap(es)[key]) else None
  {
    var n := IndexOf(es, key);
    if n == |es| then None else Some(es[n].value)
  }

  /** Where each survivor of a removal stood before. */
  function Shift(removed: nat, i: nat): nat { if i < removed then i else i + 1 }

  /** The survivors of a removal are the entries of the other keys, in the order they had. */
  lemma WithoutKeepsOrder<K(!new), V>(es: seq<Entry<K, V>>, key: K)
    requires DistinctKeys(es)
    ensures var r, n := Without(es, key), IndexOf(es, key);
      && |r| == (if n < |es| then |es| - 1 else |es|)
      && (forall i :: 0 <= i < |r| ==> r[i] == es[Shift(n, i)] && r[i].key != key)
      && DistinctKeys(r) && (Sorted(es) ==> Sorted(r))
  {
    var r, n := Without(es, key), IndexOf(es, key);
    forall i | 0 <= i < |r| ensures r[i] == es[Shift(n, i)] && r[i].key != key {}
  }

  lemma WithoutFinds<K(!new), V>(es: seq<Entry<K, V>>, key: K, k: K)
    requires DistinctKeys(es) && k != key && Has(es, k)
    ensures Has(Without(es, key), k) && Without(es, key)[IndexOf(Without(es, key), k)] == es[IndexOf(es, k)]
  {
    var r, n, j := Without(es, key), IndexOf(es, key), IndexOf(es, k);
    WithoutKeepsOrder(es, key);
    hide IndexOf, DistinctKeys, Sorted;
    var i := if j < n then j else j - 1;
    assert r[i] == es[j];
    hide Without;
    IndexOfKey(r, k, i);
  }

  lemma WithoutFound<K(!new), V>(es: seq<Entry<K, V>>, key: K, k: K)
    requires DistinctKeys(es) && Has(Without(es, key), k)
    ensures k != key && Has(es, k)
  {
    WithoutKeepsOrder(es, key);
    hide Without, IndexOf, DistinctKeys, Sorted;
    IndexOfKey(es, k, Shift(IndexOf(es, key), IndexOf(Without(es, key), k)));
  }

  lemma WithoutLookup<K(!new), V>(es: seq<Entry<K, V>>, key: K, k: K)
    requires DistinctKeys(es)
    ensures var r := Without(es, key);
      && (Has(r, k) <==> k != key && Has(es, k))
      && (Has(r, k) ==> r[IndexOf(r, k)] == es[IndexOf(es, k)])
  {
    hide Without, IndexOf, DistinctKeys;
    if Has(Without(es, key), k) {
      WithoutFound(es, key, k);
    }
    if k != key && Has(es, k) {
      WithoutFinds(es, key, k);
    }
  }

  lemma WithoutRemoves<K(!new), V>(es: seq<Entry<K, V>>, key: K)
    requires DistinctKeys(es)
    ensures AsMap(Without(es, key)) == AsMap(es) - {key}
  {
    hide Without, IndexOf, Has;
    forall k {
      WithoutLookup(es, key, k);
    }
  }

  /** What `LinkedHashMap::insert` does: an existing key is unlinked and put back last. */
  function Inserted<K(==, !new), V>(es: seq<Entry<K, V>>, key: K, value: V, now: nat): seq<Entry<K, V>> {
    Without(es, key) + [Entry(key, value, now)]
  }

  lemma InsertedKeepsOrder<K(!new), V>(es: seq<Entry<K, V>>, key: K, value: V, now: nat)
    requires DistinctKeys(es) && Sorted(es) && StampedBy(es, now)
    ensures var r := Inserted(es, key, value, now); DistinctKeys(r) && Sorted(r) && StampedBy(r, now)
  {
    WithoutKeepsOrder(es, key);
  }

  lemma InsertedLookup<K(!new), V>(es: seq<Entry<K, V>>, key: K, value: V, now: nat, k: K)
    requires DistinctKeys(es) && DistinctKeys(Inserted(es, key, value, now))
    ensures var r := Inserted(es, key, value, now);
      && (Has(r, k) <==> k == key || Has(es, k))
      && (Has(r, k) ==> r[IndexOf(r, k)].value == if k == key then value else es[IndexOf(es, k)].value)
  {
    var rest, r := Without(es, key), Inserted(es, key, value, now);
    WithoutLookup(es, key, k);
    hide Without, IndexOf;
    assert forall j :: 0 <= j < |rest| ==> r[j] == rest[j];
    if k == key {
      IndexOfKey(r, key, |rest|);
    } else if Has(rest, k) {
      IndexOfKey(r, k, IndexOf(rest, k));
    }
  }

  lemma InsertedUpdates<K(!new), V>(es: seq<Entry<K, V>>, key: K, value: V, now: nat)
    requires DistinctKeys(es) && DistinctKeys(Inserted(es, key, value, now))
    ensures AsMap(Inserted(es, key, value, now)) == AsMap(es)[key := value]
  {
    hide Inserted, IndexOf, Has;
    forall k {
      InsertedLookup(es, key, value, now, k);
    }
  }

  lemma AsMapOfTail<K(!new), V>(es: seq<Entry<K, V>>)
    requires |es| > 0 && DistinctKeys(es)
    ensures AsMap(es[1..]) == AsMap(es) - {es[0].key}
  {}

  class TimedHashMap<K(==, !new), V> {
    var entries: seq<Entry<K, V>>

    ghost predicate Valid()
      reads this
    {
      DistinctKeys(entries) && Sorted(entries)
    }

    constructor ()
      ensures Valid() && entries == []
    {
      entries := [];
    }

    method ContainsKey(key: K) returns (found: bool)
      requires Valid()
      ensures found <==> key in AsMap(entries)
    {
      found := Find(entries, key).Some?;
    }

    method Insert(key: K, value: V, now: nat)
      requires Valid() && StampedBy(entries, now)
      modifies this
      ensures Valid() && StampedBy(entries, now)
      ensures entries == Inserted(old(entries), key, value, now)
      ensures AsMap(entries) == AsMap(old(entries))[key := value]
      ensures entries[|entries| - 1] == Entry(key, value, now)
    {
      InsertedKeepsOrder(entries, key, value, now);
      InsertedUpdates(entries, key, value, now);
      entries := Inserted(entries, key, value, now);
    }

    method Remove(key: K) returns (r: Option<V>)
      requires Valid()
      modifies this
      ensures Valid() && entries == Without(old(entries), key)
      ensures AsMap(entries) == AsMap(old(entries)) - {key}
      ensures r == if key in AsMap(old(entries)) then Some(AsMap(old(entries))[key]) else None
    {
      WithoutKeepsOrder(entries, key);
      WithoutRemoves(entries, key);
      r := Find(entries, key);
      entries := Without(entries, key);
    }

    /** All keys, oldest insertion first. */
    method Keys() returns (ks: seq<K>)
      requires Valid()
      ensures |ks| == |entries| && forall i :: 0 <= i < |ks| ==> ks[i] == entries[i].key
    {
      ks := seq(|entries|, i requires 0 <= i < |entries| reads this => entries[i].key);
    }

    method FrontWithTime() returns (r: Option<Entry<K, V>>)
      requires Valid()
      ensures r == if entries == [] then None else Some(entries[0])
      ensures r.Some? ==> forall i :: 0 <= i < |entries| ==> r.value.time <= entries[i].time
    {
      r := if entries == [] then None else Some(entries[0]);
    }

    method PopFront() returns (r: Option<Entry<K, V>>)
      requires Valid()
      modifies this
      ensures Valid()
      ensures old(entries) == [] ==> r == None && entries == []
      ensures old(entries) != [] ==>
        && r == Some(old(entries)[0]) && entries == old(entries)[1..]
        && AsMap(entries) == AsMap(old(entries)) - {r.value.key}
    {
      if entries == [] {
        r := None;
      } else {
        AsMapOfTail(entries);
        r := Some(entries[0]);
        entries := entries[1..];
      }
    }
  }

  // ---------------------------------------------------------------------------------------------
  // Every sequence of operations
  // ---------------------------------------------------------------------------------------------

  datatype Op<K, V> = Insert(key: K, value: V, now: nat) | Remove(key: K) | PopFront

  /** The map after `ops`, starting empty. */
  function Run<K(==, !new), V>(ops: seq<Op<K, V>>): seq<Entry<K, V>> {
    if ops == [] then []
    else
      var es := Run(ops[..|ops| - 1]);
      match ops[|ops| - 1]
      case Insert(key, value, now) => Inserted(es, key, value, now)
      case Remove(key) => Without(es, key)
      case PopFront => if es == [] then es else es[1..]
  }

  ghost predicate ClockOrdered<K(!new), V>(ops: seq<Op<K, V>>) {
    forall i, j :: 0 <= i < j < |ops| && ops[i].Insert? && ops[j].Insert? ==> ops[i].now <= ops[j].now
  }

  /** Index of the last insertion of `key`, or -1: defined on the operations alone. */
  ghost function LastInsert<K(!new), V>(ops: seq<Op<K, V>>, key: K): (r: int)
    ensures -1 <= r < |ops|
    ensures r >= 0 ==> ops[r].Insert? && ops[r].key == key
    ensures forall i :: r < i < |ops| && ops[i].Insert? ==> ops[i].key != key
  {
    if ops == [] then -1
    else if ops[|ops| - 1].Insert? && ops[|ops| - 1].key == key then |ops| - 1
    else LastInsert(ops[..|ops| - 1], key)
  }

  /** The entries are the last insertions of their keys, listed in the order those happened. */
  ghost predicate OrderedByLastInsert<K(!new), V>(ops: seq<Op<K, V>>, es: seq<Entry<K, V>>) {
    && (forall i :: 0 <= i < |es| ==>
         var n := LastInsert(ops, es[i].key);
         n >= 0 && ops[n] == Insert(es[i].key, es[i].value, es[i].time))
    && (forall i, j :: 0 <= i < j < |es| ==> LastInsert(ops, es[i].key) < LastInsert(ops, es[j].key))
  }

  lemma OrderedIsSortedAndDistinct<K(!new), V>(ops: seq<Op<K, V>>, es: seq<Entry<K, V>>)
    requires ClockOrdered(ops) && OrderedByLastInsert(ops, es)
    ensures DistinctKeys(es) && Sorted(es)
  {
    forall i, j | 0 <= i < j < |es| ensures es[i].key != es[j].key && es[i].time <= es[j].time {
      var m, n := LastInsert(ops, es[i].key), LastInsert(ops, es[j].key);
      assert ops[m].now <= ops[n].now;
    }
  }

  lemma LastInsertOfExtension<K(!new), V>(init: seq<Op<K, V>>, op: Op<K, V>, key: K)
    ensures LastInsert(init + [op], key) ==
      if op.Insert? && op.key == key then |init| else LastInsert(init, key)
  {
    assert (init + [op])[..|init|] == init;
  }

  lemma ExtendOrdered<K(!new), V>(init: seq<Op<K, V>>, op: Op<K, V>, es: seq<Entry<K, V>>)
    requires OrderedByLastInsert(init, es)
    requires op.Insert? ==> forall i :: 0 <= i < |es| ==> es[i].key != op.key
    ensures OrderedByLastInsert(init + [op], es)
  {
    forall i | 0 <= i < |es| ensures LastInsert(init + [op], es[i].key) == LastInsert(init, es[i].key) {
      LastInsertOfExtension(init, op, es[i].key);
    }
  }

  lemma WithoutOrdered<K(!new), V>(init: seq<Op<K, V>>, op: Op<K, V>, es: seq<Entry<K, V>>, key: K)
    requires DistinctKeys(es) && OrderedByLastInsert(init, es)
    requires op.Insert? ==> op.key == key
    ensures OrderedByLastInsert(init + [op], Without(es, key))
  {
    WithoutKeepsOrder(es, key);
    var r := Without(es, key);
    assert OrderedByLastInsert(init, r);
    ExtendOrdered(init, op, r);
  }

  /** Re-insertion refreshes the stamp and moves the entry to the back, whatever came before. */
  lemma {:induction false} RunKeepsInsertionOrder<K(!new), V>(ops: seq<Op<K, V>>)
    requires ClockOrdered(ops)
    ensures DistinctKeys(Run(ops)) && Sorted(Run(ops)) && OrderedByLastInsert(ops, Run(ops))
  {
    if ops != [] {
      var init, op := ops[..|ops| - 1], ops[|ops| - 1];
      var es := Run(init);
      assert ops == init + [op];
      RunKeepsInsertionOrder(init);
      hide DistinctKeys, Sorted, OrderedByLastInsert, LastInsert, Without;
      match op
      case Insert(key, value, now) =>
        WithoutOrdered(init, op, es, key);
        WithoutKeepsOrder(es, key);
        AppendOrdered(ops, Without(es, key), Entry(key, value, now));
      case Remove(key) =>
        WithoutOrdered(init, op, es, key);
      case PopFront =>
        TailOrdered(init, es);
        ExtendOrdered(init, op, Run(ops));
      OrderedIsSortedAndDistinct(ops, Run(ops));
    }
  }

  lemma TailOrdered<K(!new), V>(ops: seq<Op<K, V>>, es: seq<Entry<K, V>>)
    requires OrderedByLastInsert(ops, es)
    ensures es != [] ==> OrderedByLastInsert(ops, es[1..])
  {
    hide LastInsert;
  }

  lemma AppendOrdered<K(!new), V>(ops: seq<Op<K, V>>, es: seq<Entry<K, V>>, e: Entry<K, V>)
    requires OrderedByLastInsert(ops, es)
    requires forall i :: 0 <= i < |es| ==> es[i].key != e.key
    requires |ops| > 0 && ops[|ops| - 1] == Insert(e.key, e.value, e.time)
    ensures OrderedByLastInsert(ops, es + [e])
  {
    var n := LastInsert(ops, e.key);
    forall i | 0 <= i < |es| ensures LastInsert(ops, es[i].key) < n {
      var m := LastInsert(ops, es[i].key);
      assert ops[m].key == es[i].key;
    }
  }

  ghost function RunMap<K(!new), V>(ops: seq<Op<K, V>>): map<K, V> {
    if ops == [] then map[]
    else
      var m, es := RunMap(ops[..|ops| - 1]), Run(ops[..|ops| - 1]);
      match ops[|ops| - 1]
      case Insert(key, value, now) => m[key := value]
      case Remove(key) => m - {key}
      case PopFront => if es == [] then m else m - {es[0].key}
  }

  /** The ordered map refines a plain map over every sequence of operations. */
  lemma {:induction false} RunRefinesMap<K(!new), V>(ops: seq<Op<K, V>>)
    requires ClockOrdered(ops)
    ensures DistinctKeys(Run(ops)) && AsMap(Run(ops)) == RunMap(ops)
  {
    RunKeepsInsertionOrder(ops);
    if ops != [] {
      var init := ops[..|ops| - 1];
      var es := Run(init);
      RunRefinesMap(init);
      RunKeepsInsertionOrder(init);
      match ops[|ops| - 1]
      case Insert(key, value, now) =>
        InsertedUpdates(es, key, value, now);
      case Remove(key) => WithoutRemoves(es, key);
      case PopFront => if es != [] { AsMapOfTail(es); }
    }
  }
}
