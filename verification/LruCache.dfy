/** The LRU cache as a mutable object: an eviction list of entry objects, an index into it, and a
    generation counter that purges in constant time. Every operation is proved to act on the
    observable list as a plain LRU list would. */
module LruCache {
  import opened LruRows
  import opened Wrappers

  type Instant = t: int | 0 < t witness 1

  class Entry<K, V> {
    const key: K
    var value: V
    var expires: int
    var generation: int

    constructor (key: K, value: V, expires: int, generation: int)
      ensures this.key == key && this.value == value && this.expires == expires && this.generation == generation
    {
      this.key, this.value, this.expires, this.generation := key, value, expires, generation;
    }

    function ToRow(): Row<K, V>
      reads this
    {
      Row(Item(key, value, expires), generation)
    }
  }

  function Rows<K, V>(list: seq<Entry<K, V>>): (rows: seq<Row<K, V>>)
    reads list
    ensures |rows| == |list| && forall i :: 0 <= i < |list| ==> rows[i] == list[i].ToRow()
  {
    if list == [] then [] else [list[0].ToRow()] + Rows(list[1..])
  }

  // list.Remove on an element of the list.
  function Without<T(==)>(s: seq<T>, e: T): (r: seq<T>)
    ensures forall x :: x in r ==> x in s
  {
    if s == [] then [] else if s[0] == e then s[1..] else [s[0]] + Without(s[1..], e)
  }

  ghost predicate DistinctEntries<T>(s: seq<T>) {
    forall i, j :: 0 <= i < j < |s| ==> s[i] != s[j]
  }

  lemma {:induction false} WithoutDistinct<T>(s: seq<T>, e: T)
    requires DistinctEntries(s) && e in s
    ensures DistinctEntries(Without(s, e)) && |Without(s, e)| == |s| - 1
    ensures forall x :: x in Without(s, e) <==> x in s && x != e
  {
    if s[0] != e {
      WithoutDistinct(s[1..], e);
      assert forall x :: x in s <==> x == s[0] || x in s[1..];
      var w := Without(s[1..], e);
      forall i | 0 <= i < |w| ensures w[i] != s[0] { assert w[i] in w; }
    }
  }

  // Removing an element removes the row of its key, keys being unique.
  lemma {:induction false} RowsWithout<K, V>(list: seq<Entry<K, V>>, e: Entry<K, V>)
    requires e in list && UniqueKeys(Rows(list))
    ensures Rows(Without(list, e)) == DropRow(Rows(list), e.key)
  {
    var rows := Rows(list);
    assert rows[1..] == Rows(list[1..]);
    TailKeeps'(rows);
    if list[0] == e {
      DropRowAbsent(rows[1..], e.key);
    } else {
      RowsWithout(list[1..], e);
      var k :| 0 <= k < |list[1..]| && list[1..][k] == e;
      assert rows[k + 1].item.key == e.key;
    }
  }

  lemma TailKeeps'<K, V>(rows: seq<Row<K, V>>)
    requires UniqueKeys(rows) && rows != []
    ensures UniqueKeys(rows[1..]) && forall i :: 0 <= i < |rows[1..]| ==> rows[1..][i].item.key != rows[0].item.key
  {
  }

  lemma {:induction false} DropRowAbsent<K, V>(rows: seq<Row<K, V>>, key: K)
    requires forall i :: 0 <= i < |rows| ==> rows[i].item.key != key
    ensures DropRow(rows, key) == rows
  {
    if rows != [] {
      assert forall i :: 0 <= i < |rows[1..]| ==> rows[1..][i] == rows[i + 1];
      DropRowAbsent(rows[1..], key);
    }
  }

  lemma {:induction false} DropLastRow<K, V>(rows: seq<Row<K, V>>)
    requires UniqueKeys(rows) && rows != []
    ensures DropRow(rows, rows[|rows| - 1].item.key) == rows[..|rows| - 1]
  {
    var last := rows[|rows| - 1];
    TailKeeps'(rows);
    if |rows| == 1 {
      assert DropRow(rows[1..], last.item.key) == [];
    } else {
      DropLastRow(rows[1..]);
      assert rows[1..][|rows| - 2] == last;
      assert rows[..|rows| - 1] == [rows[0]] + rows[1..][..|rows| - 2];
    }
  }

  // The row with this key is live iff its generation is the current one.
  lemma {:induction false} LiveHasKey<K, V>(rows: seq<Row<K, V>>, gen: int, i: int)
    requires UniqueKeys(rows) && 0 <= i < |rows|
    ensures HasKey(Live(rows, gen), rows[i].item.key) <==> rows[i].generation == gen
    ensures rows[i].generation == gen ==> Lookup(Live(rows, gen), rows[i].item.key) == Some(rows[i].item)
  {
    var key := rows[i].item.key;
    TailKeeps'(rows);
    var l := Live(rows[1..], gen);
    if i == 0 {
      LiveLacksKey(rows[1..], gen, key);
      if rows[0].generation == gen { assert Live(rows, gen)[0] == rows[0].item; }
      else { assert Live(rows, gen) == l; }
    } else {
      LiveHasKey(rows[1..], gen, i - 1);
      if rows[0].generation == gen {
        assert Live(rows, gen)[1..] == l && Live(rows, gen)[0].key != key;
        ConsHasKey(rows[0].item, l, key);
      } else {
        assert Live(rows, gen) == l;
      }
    }
  }

  lemma ConsHasKey<K, V>(x: Item<K, V>, l: seq<Item<K, V>>, key: K)
    requires x.key != key
    ensures HasKey([x] + l, key) <==> HasKey(l, key)
  {
    if HasKey([x] + l, key) {
      var i :| 0 <= i < |[x] + l| && ([x] + l)[i].key == key;
      assert l[i - 1].key == key;
    }
    if HasKey(l, key) {
      var i :| 0 <= i < |l| && l[i].key == key;
      assert ([x] + l)[i + 1].key == key;
    }
  }

  lemma {:induction false} LiveLacksKey<K, V>(rows: seq<Row<K, V>>, gen: int, key: K)
    requires forall i :: 0 <= i < |rows| ==> rows[i].item.key != key
    ensures !HasKey(Live(rows, gen), key)
  {
    if rows != [] {
      assert forall i :: 0 <= i < |rows[1..]| ==> rows[1..][i] == rows[i + 1];
      LiveLacksKey(rows[1..], gen, key);
      if rows[0].generation == gen { ConsHasKey(rows[0].item, Live(rows[1..], gen), key); }
      else { assert Live(rows, gen) == Live(rows[1..], gen); }
    }
  }

  lemma LiveDistinct<K, V>(rows: seq<Row<K, V>>, gen: int)
    requires UniqueKeys(rows) && Aged(rows, gen)
    ensures Distinct(Live(rows, gen))
  {
    LiveIsPrefix(rows, gen);
  }

  lemma {:induction false} AbsentDrop<K, V>(rows: seq<Row<K, V>>, gen: int, key: K)
    requires forall i :: 0 <= i < |rows| ==> rows[i].item.key != key
    ensures Drop(Live(rows, gen), key) == Live(rows, gen)
  {
    LiveLacksKey(rows, gen, key);
    DropAbsent(Live(rows, gen), key);
  }

  // ---- The index ----

  // The index and the list hold the same entries.
  ghost predicate Indexed<K, V>(list: seq<Entry<K, V>>, items: map<K, Entry<K, V>>) {
    && DistinctEntries(list)
    && (forall i :: 0 <= i < |list| ==> list[i].key in items && items[list[i].key] == list[i])
    && (forall k :: k in items ==> items[k] in list && items[k].key == k)
  }

  lemma IndexedUnique<K, V>(list: seq<Entry<K, V>>, items: map<K, Entry<K, V>>)
    requires Indexed(list, items)
    ensures UniqueKeys(Rows(list))
    ensures forall i :: 0 <= i < |list| ==> Rows(list)[i].item.key in items
  {
  }

  lemma IndexedWithout<K, V>(list: seq<Entry<K, V>>, items: map<K, Entry<K, V>>, e: Entry<K, V>)
    requires Indexed(list, items) && e in list
    ensures Indexed(Without(list, e), items - {e.key}) && |Without(list, e)| == |list| - 1
  {
    WithoutDistinct(list, e);
    var w := Without(list, e);
    forall i | 0 <= i < |w| ensures w[i].key in items - {e.key} && items[w[i].key] == w[i] { assert w[i] in w; }
  }

  lemma IndexedFront<K, V>(list: seq<Entry<K, V>>, items: map<K, Entry<K, V>>, e: Entry<K, V>)
    requires Indexed(list, items) && e in list
    ensures Indexed([e] + Without(list, e), items) && |[e] + Without(list, e)| == |list| && e !in Without(list, e)
  {
    WithoutDistinct(list, e);
    var w := Without(list, e);
    forall i | 0 <= i < |w| ensures w[i] != e && w[i].key in items && items[w[i].key] == w[i] { assert w[i] in w; }
    forall k | k in items ensures items[k] in [e] + w {
      if items[k] != e { assert items[k] in w; }
    }
  }

  lemma IndexedInsert<K, V>(list: seq<Entry<K, V>>, items: map<K, Entry<K, V>>, e: Entry<K, V>)
    requires Indexed(list, items) && e.key !in items
    ensures Indexed([e] + list, items[e.key := e])
  {
    var items' := items[e.key := e];
    forall k | k in items' ensures items'[k] in [e] + list {
      if k != e.key { assert items[k] in list; }
    }
  }

  lemma RowsFront<K, V>(list: seq<Entry<K, V>>, e: Entry<K, V>)
    ensures Rows([e] + list) == [e.ToRow()] + Rows(list)
  {
    assert ([e] + list)[1..] == list;
  }

  // What happens to the observable list when the row of a present key moves to the front.
  lemma FrontOfPresent<K, V>(rows: seq<Row<K, V>>, gen: int, i: int, x: Item<K, V>)
    requires Aged(rows, gen) && UniqueKeys(rows) && 0 <= i < |rows| && rows[i].item.key == x.key
    ensures var rows' := [Row(x, gen)] + DropRow(rows, x.key);
      && Aged(rows', gen) && Live(rows', gen) == [x] + Drop(Live(rows, gen), x.key)
      && |Live(rows', gen)| == |Live(rows, gen)| + (if rows[i].generation == gen then 0 else 1)
  {
    hide Live, Drop, DropRow, Aged, UniqueKeys;
    FrontKeeps(rows, gen, x);
    LiveHasKey(rows, gen, i);
    LiveDistinct(rows, gen);
    DropDistinct(Live(rows, gen), x.key);
  }

  lemma DropOfPresent<K, V>(rows: seq<Row<K, V>>, gen: int, i: int)
    requires Aged(rows, gen) && UniqueKeys(rows) && 0 <= i < |rows|
    ensures var key := rows[i].item.key;
      && Aged(DropRow(rows, key), gen) && Live(DropRow(rows, key), gen) == Drop(Live(rows, gen), key)
      && |Live(DropRow(rows, key), gen)| == |Live(rows, gen)| - (if rows[i].generation == gen then 1 else 0)
      && (rows[i].generation != gen ==> Drop(Live(rows, gen), key) == Live(rows, gen))
      && (rows[i].generation != gen ==> Lookup(Live(rows, gen), key) == None)
      && (rows[i].generation == gen ==> Lookup(Live(rows, gen), key) == Some(rows[i].item))
  {
    hide Live, Drop, DropRow, Aged, UniqueKeys;
    var key := rows[i].item.key;
    DropRowKeeps(rows, gen, key);
    LiveOfDrop(rows, gen, key);
    LiveHasKey(rows, gen, i);
    LiveDistinct(rows, gen);
    DropDistinct(Live(rows, gen), key);
    if rows[i].generation != gen { DropAbsent(Live(rows, gen), key); }
  }

  lemma FrontOfAbsent<K, V>(rows: seq<Row<K, V>>, gen: int, x: Item<K, V>, size: nat)
    requires Aged(rows, gen) && UniqueKeys(rows) && |rows| <= size
    requires forall i :: 0 <= i < |rows| ==> rows[i].item.key != x.key
    ensures var rows' := [Row(x, gen)] + rows;
      && Aged(rows', gen) && UniqueKeys(rows') && |Live(rows', gen)| == |Live(rows, gen)| + 1
      && ListSet(Live(rows, gen), size, x) == Truncate(Live(rows', gen), size)
  {
    hide Live, Drop, DropRow, Aged, UniqueKeys;
    DropRowAbsent(rows, x.key);
    AbsentDrop(rows, gen, x.key);
    FrontKeeps(rows, gen, x);
  }

  class LRU<K(==, 0), V> {
    const size: nat
    var evictList: seq<Entry<K, V>>
    var items: map<K, Entry<K, V>>
    var currentGeneration: int
    var len: int

    // What callers observe: the entries of the current generation, most recent first.
    function View(): seq<Item<K, V>>
      reads this, evictList
    {
      Live(Rows(evictList), currentGeneration)
    }

    // All but the bound on the list, which an insertion may exceed by one for a moment.
    ghost predicate Sound()
      reads this, evictList
    {
      Indexed(evictList, items) && Aged(Rows(evictList), currentGeneration) && len == |View()|
    }

    ghost predicate Valid()
      reads this, evictList
    {
      Sound() && |evictList| <= size
    }

    constructor (size: nat)
      ensures Valid() && this.size == size && View() == []
    {
      this.size := size;
      evictList, items, currentGeneration, len := [], map[], 0, 0;
    }

    // Constant time: the entries stay in the list, one generation behind.
    method Purge()
      requires Valid()
      modifies this
      ensures Valid() && evictList == old(evictList)
      ensures View() == []
    {
      hide Live, Rows, Indexed, Aged;
      PurgeEmpties(Rows(evictList), currentGeneration);
      len := 0;
      currentGeneration := currentGeneration + 1;
    }

    method RemoveElement(e: Entry<K, V>)
      requires Sound() && e in evictList
      modifies this
      ensures Sound() && |evictList| == old(|evictList|) - 1 && forall x :: x in evictList ==> x in old(evictList)
      ensures currentGeneration == old(currentGeneration)
      ensures Rows(evictList) == DropRow(old(Rows(evictList)), e.key)
      ensures View() == Drop(old(View()), e.key)
    {
      hide Live, Drop, DropRow, Rows, Indexed, Aged, UniqueKeys, Without;
      ghost var i :| 0 <= i < |evictList| && evictList[i] == e;
      IndexedUnique(evictList, items);
      RowsWithout(evictList, e);
      IndexedWithout(evictList, items, e);
      DropOfPresent(Rows(evictList), currentGeneration, i);
      evictList := Without(evictList, e);
      if e.generation == currentGeneration { len := len - 1; }
      items := items - {e.key};
    }

    // The entry goes to the front with its new value, in the current generation.
    method Refresh(e: Entry<K, V>, value: V, expires: int)
      requires Valid() && e in evictList
      modifies this, e
      ensures Valid() && forall x :: x in evictList ==> x in old(evictList)
      ensures View() == [Item(e.key, value, expires)] + Drop(old(View()), e.key)
    {
      hide Live, Drop, DropRow, Rows, Indexed, Aged, UniqueKeys, Without;
      ghost var i :| 0 <= i < |evictList| && evictList[i] == e;
      IndexedUnique(evictList, items);
      RowsWithout(evictList, e);
      IndexedFront(evictList, items, e);
      FrontOfPresent(Rows(evictList), currentGeneration, i, Item(e.key, value, expires));
      ghost var rest := Without(evictList, e);
      evictList := [e] + Without(evictList, e);
      e.value := value;
      e.expires := expires;
      if e.generation != currentGeneration {
        e.generation := currentGeneration;
        len := len + 1;
      }
      assert Rows(rest) == old(Rows(Without(evictList, e)));
      RowsFront(rest, e);
    }

    // A new entry goes to the front; when the list is overfull, the one at the back goes.
    method Insert(key: K, value: V, expires: int)
      requires Valid() && key !in items
      modifies this
      ensures Valid() && forall x :: x in evictList ==> x in old(evictList) || fresh(x)
      ensures View() == ListSet(old(View()), size, Item(key, value, expires))
    {
      hide Live, Drop, DropRow, Rows, Indexed, Aged, UniqueKeys, Without, ListSet;
      ghost var x, rows := Item(key, value, expires), Rows(evictList);
      IndexedUnique(evictList, items);
      FrontOfAbsent(rows, currentGeneration, x, size);
      var e := new Entry(key, value, expires, currentGeneration);
      IndexedInsert(evictList, items, e);
      RowsFront(evictList, e);
      evictList := [e] + evictList;
      items := items[key := e];
      len := len + 1;
      ghost var rows1 := Rows(evictList);
      if size < |evictList| {
        var back := evictList[|evictList| - 1];
        DropLastRow(rows1);
        EvictionIsTruncation(rows1, currentGeneration, size);
        RemoveElement(back);
      } else {
        LiveIsPrefix(rows1, currentGeneration);
      }
    }

    method SetWithExpiry(key: K, value: V, ttl: int, now: Instant)
      requires Valid()
      modifies this, evictList
      ensures Valid() && forall x :: x in evictList ==> x in old(evictList) || fresh(x)
      ensures View() == ListSet(old(View()), size, Item(key, value, if 0 < ttl then now + ttl else 0))
    {
      hide Live, Drop, Rows, Aged, UniqueKeys;
      var expires := 0;
      if 0 < ttl { expires := now + ttl; }
      if key in items {
        Refresh(items[key], value, expires);
        LiveIsPrefix(Rows(evictList), currentGeneration);
      } else {
        Insert(key, value, expires);
      }
    }

    method MoveToFront(e: Entry<K, V>)
      requires Valid() && e in evictList && e.generation == currentGeneration
      modifies this
      ensures Valid() && forall x :: x in evictList ==> x in old(evictList)
      ensures View() == [Item(e.key, e.value, e.expires)] + Drop(old(View()), e.key)
    {
      hide Live, Drop, DropRow, Rows, Indexed, Aged, UniqueKeys, Without;
      ghost var i :| 0 <= i < |evictList| && evictList[i] == e;
      IndexedUnique(evictList, items);
      RowsWithout(evictList, e);
      IndexedFront(evictList, items, e);
      FrontOfPresent(Rows(evictList), currentGeneration, i, Item(e.key, e.value, e.expires));
      RowsFront(Without(evictList, e), e);
      evictList := [e] + Without(evictList, e);
    }

    method Get(key: K, now: Instant) returns (r: Option<V>)
      requires Valid()
      modifies this
      ensures Valid() && forall x :: x in evictList ==> x in old(evictList)
      ensures (View(), r) == ListGet(old(View()), key, now)
    {
      hide Live, Drop, DropRow, Rows, Aged, UniqueKeys, Lookup;
      IndexedUnique(evictList, items);
      if key in items {
        var e := items[key];
        ghost var i :| 0 <= i < |evictList| && evictList[i] == e;
        DropOfPresent(Rows(evictList), currentGeneration, i);
        if e.generation != currentGeneration || (e.expires != 0 && e.expires < now) {
          RemoveElement(e);
          return None;
        }
        MoveToFront(e);
        return Some(e.value);
      }
      LiveLacksKey(Rows(evictList), currentGeneration, key);
      return None;
    }

    method Remove(key: K)
      requires Valid()
      modifies this
      ensures Valid() && forall x :: x in evictList ==> x in old(evictList)
      ensures View() == Drop(old(View()), key)
    {
      hide Live, Drop, DropRow, Rows, Aged, UniqueKeys;
      if key in items {
        RemoveElement(items[key]);
      } else {
        AbsentDrop(Rows(evictList), currentGeneration, key);
      }
    }

    method Len() returns (n: int)
      requires Valid()
      ensures n == |View()|
    {
      n := len;
    }

    // Exactly len slots, filled from the back of the list, each written once.
    method Keys() returns (keys: array<K>)
      requires Valid()
      ensures fresh(keys) && keys[..] == Reversed(KeysOf(View()))
    {
      hide Live, Indexed, Aged;
      ghost var rows, live := Rows(evictList), View();
      LiveIsPrefix(rows, currentGeneration);
      keys := new K[len];
      var i := 0;
      var ent := |evictList| - 1;
      while 0 <= ent
        invariant -1 <= ent < |evictList| && 0 <= i <= len
        invariant i == if ent + 1 < len then len - (ent + 1) else 0
        invariant forall j :: 0 <= j < i ==> keys[j] == live[len - 1 - j].key
      {
        var e := evictList[ent];
        assert rows[ent] == e.ToRow();
        if e.generation == currentGeneration {
          keys[i] := e.key;
          i := i + 1;
        }
        ent := ent - 1;
      }
      assert i == len;
    }
  }
}
