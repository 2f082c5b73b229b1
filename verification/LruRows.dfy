/** The two views of the generation-purged LRU cache: the rows of its eviction list, stale ones
    included, and the plain most-recent-first list a caller observes. */
module LruRows {
  import opened Wrappers

  // What a caller can see of one entry.
  datatype Item<K, V> = Item(key: K, value: V, expires: int)

  // One element of the eviction list.
  datatype Row<K, V> = Row(item: Item<K, V>, generation: int)

  // ---- A plain LRU list, most recent first ----

  predicate HasKey<K(==), V>(items: seq<Item<K, V>>, key: K) { exists i :: 0 <= i < |items| && items[i].key == key }

  function Drop<K(==), V>(items: seq<Item<K, V>>, key: K): seq<Item<K, V>> {
    if items == [] then [] else
      (if items[0].key == key then [] else [items[0]]) + Drop(items[1..], key)
  }

  function Lookup<K(==), V>(items: seq<Item<K, V>>, key: K): (r: Option<Item<K, V>>)
    ensures r.Some? <==> HasKey(items, key)
    ensures r.Some? ==> r.value.key == key && r.value in items
  {
    if items == [] then None else
      if items[0].key == key then Some(items[0]) else
        var r := Lookup(items[1..], key);
        assert r.Some? ==> exists i :: 1 <= i < |items| && items[i] == items[1..][i - 1] && items[i].key == key;
        assert HasKey(items, key) ==> HasKey(items[1..], key) by {
          if HasKey(items, key) {
            var i :| 0 <= i < |items| && items[i].key == key;
            assert items[1..][i - 1].key == key;
          }
        }
        r
  }

  function Truncate<T>(s: seq<T>, n: nat): seq<T> { if n < |s| then s[..n] else s }

  function ListSet<K(==), V>(items: seq<Item<K, V>>, size: nat, x: Item<K, V>): seq<Item<K, V>> {
    Truncate([x] + Drop(items, x.key), size)
  }

  // 0 is no expiry.
  predicate Expired<K, V>(x: Item<K, V>, now: int) { x.expires != 0 && x.expires < now }

  function ListGet<K(==), V>(items: seq<Item<K, V>>, key: K, now: int): (seq<Item<K, V>>, Option<V>) {
    match Lookup(items, key)
    case None => (items, None)
    case Some(x) => if Expired(x, now) then (Drop(items, key), None) else ([x] + Drop(items, key), Some(x.value))
  }

  function KeysOf<K, V>(items: seq<Item<K, V>>): seq<K> {
    seq(|items|, i requires 0 <= i < |items| => items[i].key)
  }

  function Reversed<T>(s: seq<T>): (r: seq<T>)
    ensures |r| == |s| && forall i :: 0 <= i < |s| ==> r[i] == s[|s| - 1 - i]
  {
    seq(|s|, i requires 0 <= i < |s| => s[|s| - 1 - i])
  }

  ghost predicate Distinct<K, V>(items: seq<Item<K, V>>) {
    forall i, j :: 0 <= i < j < |items| ==> items[i].key != items[j].key
  }

  lemma {:induction false} DropGone<K, V>(items: seq<Item<K, V>>, key: K)
    ensures !HasKey(Drop(items, key), key)
    ensures forall i :: 0 <= i < |Drop(items, key)| ==> Drop(items, key)[i] in items && Drop(items, key)[i].key != key
    ensures |Drop(items, key)| <= |items|
  {
    if items != [] { DropGone(items[1..], key); }
  }

  lemma {:induction false} DropDistinct<K, V>(items: seq<Item<K, V>>, key: K)
    requires Distinct(items)
    ensures Distinct(Drop(items, key)) && |Drop(items, key)| == |items| - if HasKey(items, key) then 1 else 0
  {
    if items != [] {
      assert forall i, j :: 0 <= i < j < |items[1..]| ==>
        items[1..][i] == items[i + 1] && items[1..][j] == items[j + 1];
      assert Distinct(items[1..]);
      DropDistinct(items[1..], key);
      DropGone(items[1..], key);
      if items[0].key == key {
        assert !HasKey(items[1..], key);
      } else {
        assert HasKey(items, key) <==> HasKey(items[1..], key) by {
          if HasKey(items, key) {
            var i :| 0 <= i < |items| && items[i].key == key;
            assert items[1..][i - 1].key == key;
          }
        }
        var d := Drop(items[1..], key);
        forall i | 0 <= i < |d| ensures d[i].key != items[0].key {
          var j :| 0 <= j < |items[1..]| && items[1..][j] == d[i];
          assert items[j + 1] == d[i];
        }
      }
    }
  }

  /** Reading a key right after setting it returns what was set, and the list stays within its size,
      without a key twice. */
  lemma SetThenGet<K, V>(items: seq<Item<K, V>>, size: nat, x: Item<K, V>, now: int)
    requires Distinct(items) && |items| <= size
    ensures Distinct(ListSet(items, size, x)) && |ListSet(items, size, x)| <= size
    ensures 0 < size && !Expired(x, now) ==> ListGet(ListSet(items, size, x), x.key, now).1 == Some(x.value)
  {
    DropDistinct(items, x.key);
    DropGone(items, x.key);
    var d := Drop(items, x.key);
    var s := ListSet(items, size, x);
    if 0 < size { assert s[0] == x; }
  }

  // ---- The rows behind it ----

  function IfLive<K, V>(row: Row<K, V>, gen: int): seq<Item<K, V>> {
    if row.generation == gen then [row.item] else []
  }

  // The entries of the current generation, in order.
  function Live<K, V>(rows: seq<Row<K, V>>, gen: int): seq<Item<K, V>> {
    if rows == [] then [] else IfLive(rows[0], gen) + Live(rows[1..], gen)
  }

  function DropRow<K(==), V>(rows: seq<Row<K, V>>, key: K): seq<Row<K, V>> {
    if rows == [] then [] else
      (if rows[0].item.key == key then [] else [rows[0]]) + DropRow(rows[1..], key)
  }

  // Generations never increase from front to back, and none is ahead of the current one.
  ghost predicate Aged<K, V>(rows: seq<Row<K, V>>, gen: int) {
    (forall i :: 0 <= i < |rows| ==> rows[i].generation <= gen)
    && forall i, j :: 0 <= i < j < |rows| ==> rows[j].generation <= rows[i].generation
  }

  ghost predicate UniqueKeys<K, V>(rows: seq<Row<K, V>>) {
    forall i, j :: 0 <= i < j < |rows| ==> rows[i].item.key != rows[j].item.key
  }

  lemma LiveUnfolds<K, V>(rows: seq<Row<K, V>>, gen: int)
    ensures rows == [] ==> Live(rows, gen) == []
    ensures rows != [] ==> Live(rows, gen) == IfLive(rows[0], gen) + Live(rows[1..], gen)
  {
  }

  lemma {:induction false} LiveAppend<K, V>(a: seq<Row<K, V>>, b: seq<Row<K, V>>, gen: int)
    ensures Live(a + b, gen) == Live(a, gen) + Live(b, gen)
  {
    hide Live, IfLive;
    LiveUnfolds(a, gen);
    LiveUnfolds(a + b, gen);
    if a == [] {
      assert a + b == b;
    } else {
      assert (a + b)[1..] == a[1..] + b;
      LiveAppend(a[1..], b, gen);
    }
  }

  lemma {:induction false} LiveOfDrop<K, V>(rows: seq<Row<K, V>>, gen: int, key: K)
    ensures Live(DropRow(rows, key), gen) == Drop(Live(rows, gen), key)
  {
    if rows != [] {
      LiveOfDrop(rows[1..], gen, key);
      var head := if rows[0].item.key == key then [] else [rows[0]];
      LiveAppend(head, DropRow(rows[1..], key), gen);
      if rows[0].generation == gen {
        assert Live(rows, gen)[1..] == Live(rows[1..], gen);
      } else {
        assert Live(rows, gen) == Live(rows[1..], gen) && Live(head, gen) == [];
      }
    }
  }

  // Live entries come before stale ones.
  lemma {:induction false} LiveIsPrefix<K, V>(rows: seq<Row<K, V>>, gen: int)
    requires Aged(rows, gen)
    ensures |Live(rows, gen)| <= |rows|
    ensures forall i :: 0 <= i < |rows| ==> (rows[i].generation == gen <==> i < |Live(rows, gen)|)
    ensures forall i :: 0 <= i < |Live(rows, gen)| ==> Live(rows, gen)[i] == rows[i].item
  {
    if rows != [] {
      assert forall i :: 0 <= i < |rows[1..]| ==> rows[1..][i] == rows[i + 1];
      LiveIsPrefix(rows[1..], gen);
      forall i | 1 <= i < |rows| ensures rows[i].generation == gen <==> i < |Live(rows, gen)| {
        assert rows[i] == rows[1..][i - 1];
      }
    }
  }

  /** Raising the generation empties the observable list without touching the rows. */
  lemma PurgeEmpties<K, V>(rows: seq<Row<K, V>>, gen: int)
    requires Aged(rows, gen)
    ensures Live(rows, gen + 1) == [] && Aged(rows, gen + 1)
  {
    LiveIsPrefix(rows, gen + 1);
    if rows != [] { assert rows[0].generation != gen + 1; }
  }

  /** Evicting the back row of an overfull list drops a stale entry if there is one, and the least
      recent live entry otherwise: the observable list is cut to the size, nothing more. */
  lemma EvictionIsTruncation<K, V>(rows: seq<Row<K, V>>, gen: int, size: nat)
    requires Aged(rows, gen) && |rows| == size + 1
    ensures Live(rows[..size], gen) == Truncate(Live(rows, gen), size) && Aged(rows[..size], gen)
  {
    assert rows == rows[..size] + [rows[size]];
    LiveAppend(rows[..size], [rows[size]], gen);
    LiveIsPrefix(rows, gen);
    LiveIsPrefix(rows[..size], gen);
  }

  lemma {:induction false} DropRowMembers<K, V>(rows: seq<Row<K, V>>, key: K)
    ensures forall i :: 0 <= i < |DropRow(rows, key)| ==>
      DropRow(rows, key)[i] in rows && DropRow(rows, key)[i].item.key != key
  {
    if rows != [] { DropRowMembers(rows[1..], key); }
  }

  lemma TailKeeps<K, V>(rows: seq<Row<K, V>>, gen: int)
    requires Aged(rows, gen) && UniqueKeys(rows) && rows != []
    ensures Aged(rows[1..], gen) && UniqueKeys(rows[1..]) && rows[0].generation <= gen
    ensures forall r :: r in rows[1..] ==> r.generation <= rows[0].generation && r.item.key != rows[0].item.key
  {
  }

  // Dropping rows keeps the order of the rest.
  lemma {:induction false} DropRowKeeps<K, V>(rows: seq<Row<K, V>>, gen: int, key: K)
    requires Aged(rows, gen) && UniqueKeys(rows)
    ensures Aged(DropRow(rows, key), gen) && UniqueKeys(DropRow(rows, key))
  {
    hide Aged, UniqueKeys;
    if rows == [] {
      assert DropRow(rows, key) == rows;
    } else {
      TailKeeps(rows, gen);
      DropRowKeeps(rows[1..], gen, key);
      DropRowMembers(rows[1..], key);
      ConsKeeps(rows[0], DropRow(rows[1..], key), gen);
      assert [] + DropRow(rows[1..], key) == DropRow(rows[1..], key);
    }
  }

  lemma ConsKeeps<K, V>(r: Row<K, V>, d: seq<Row<K, V>>, gen: int)
    requires Aged(d, gen) && UniqueKeys(d) && r.generation <= gen
    requires forall i :: 0 <= i < |d| ==> d[i].generation <= r.generation && d[i].item.key != r.item.key
    ensures Aged([r] + d, gen) && UniqueKeys([r] + d)
  {
  }

  lemma LiveFront<K, V>(x: Item<K, V>, d: seq<Row<K, V>>, gen: int)
    ensures Live([Row(x, gen)] + d, gen) == [x] + Live(d, gen)
  {
    assert ([Row(x, gen)] + d)[1..] == d;
  }

  // A refreshed or new entry goes to the front with the current generation.
  lemma FrontKeeps<K, V>(rows: seq<Row<K, V>>, gen: int, x: Item<K, V>)
    requires Aged(rows, gen) && UniqueKeys(rows)
    ensures var rows' := [Row(x, gen)] + DropRow(rows, x.key);
      Aged(rows', gen) && UniqueKeys(rows') && Live(rows', gen) == [x] + Drop(Live(rows, gen), x.key)
  {
    hide Live, Drop, DropRow;
    var d := DropRow(rows, x.key);
    DropRowKeeps(rows, gen, x.key);
    DropRowMembers(rows, x.key);
    LiveOfDrop(rows, gen, x.key);
    LiveFront(x, d, gen);
    ConsKeeps(Row(x, gen), d, gen);
  }

  lemma {:induction false} DropAbsent<K, V>(items: seq<Item<K, V>>, key: K)
    requires !HasKey(items, key)
    ensures Drop(items, key) == items
  {
    if items != [] {
      assert items[0].key != key;
      assert forall i :: 0 <= i < |items[1..]| ==> items[1..][i] == items[i + 1];
      DropAbsent(items[1..], key);
    }
  }
}
