/** Least recently used goes first: over runs of sets, reads and removals, exactly when an item is still there. */
module LruRuns {
  import opened Wrappers
  import opened LruRows

  datatype Use<K, V> = Put(item: Item<K, V>) | Read(key: K, now: int) | Forget(key: K) | Empty

  function Do<K(==), V>(items: seq<Item<K, V>>, size: nat, use: Use<K, V>): seq<Item<K, V>> {
    match use
    case Put(x) => ListSet(items, size, x)
    case Read(key, now) => ListGet(items, key, now).0
    case Forget(key) => Drop(items, key)
    case Empty => []
  }

  function Run<K(==), V>(items: seq<Item<K, V>>, size: nat, uses: seq<Use<K, V>>): seq<Item<K, V>>
    decreases |uses|
  {
    if uses == [] then items else Run(Do(items, size, uses[0]), size, uses[1..])
  }

  predicate Names<K(==), V>(use: Use<K, V>, key: K) {
    match use
    case Put(x) => x.key == key
    case Read(k, _) => k == key
    case Forget(k) => k == key
    case Empty => true
  }

  // An item lasts up to its time, or for ever when it has none.
  predicate Lasts<K, V>(x: Item<K, V>, now: int) { x.expires == 0 || now <= x.expires }

  predicate Holds<K(==), V(==)>(items: seq<Item<K, V>>, key: K, now: int) {
    exists i :: 0 <= i < |items| && items[i].key == key && Lasts(items[i], now)
  }

  // The keys used since, and not removed again: a set, or a read that finds something, uses a key.
  function Ahead<K(==), V(==)>(items: seq<Item<K, V>>, use: Use<K, V>, since: set<K>): set<K> {
    match use
    case Put(x) => since + {x.key}
    case Read(key, now) => if Holds(items, key, now) then since + {key} else since - {key}
    case Forget(key) => since - {key}
    case Empty => {}
  }

  // Whether at some time as many others were used as there is room for.
  predicate Crowded<K(==), V(==)>(items: seq<Item<K, V>>, size: nat, uses: seq<Use<K, V>>, since: set<K>)
    decreases |uses|
  {
    |since| >= size
    || (uses != [] && Crowded(Do(items, size, uses[0]), size, uses[1..], Ahead(items, uses[0], since)))
  }

  // ---- Where an item is ----

  ghost function KeySet<K, V>(items: seq<Item<K, V>>): set<K> { set x | x in items :: x.key }

  lemma KeysJoin<K, V>(a: seq<Item<K, V>>, b: seq<Item<K, V>>)
    ensures KeySet(a + b) == KeySet(a) + KeySet(b)
  {
    assert forall x :: x in a + b <==> x in a || x in b;
  }

  lemma KeyOfOne<K, V>(x: Item<K, V>)
    ensures KeySet([x]) == {x.key}
  {
    assert x in [x];
  }

  // The keys ahead of a position.
  ghost function KeysUpTo<K, V>(items: seq<Item<K, V>>, p: nat): set<K>
    requires p <= |items|
  {
    KeySet(items[..p])
  }

  lemma {:induction false} CountKeys<K, V>(items: seq<Item<K, V>>, p: nat)
    requires Distinct(items) && p <= |items|
    ensures |KeysUpTo(items, p)| == p
  {
    hide Distinct, KeySet;
    if p == 0 {
      NoKeys<K, V>();
      assert items[..0] == [];
    } else {
      CountKeys(items, p - 1);
      assert items[..p] == items[..p - 1] + [items[p - 1]];
      KeysJoin(items[..p - 1], [items[p - 1]]);
      KeyOfOne(items[p - 1]);
      NotAhead(items, p - 1);
    }
  }

  lemma NotAhead<K, V>(items: seq<Item<K, V>>, p: nat)
    requires Distinct(items) && p < |items|
    ensures items[p].key !in KeysUpTo(items, p)
  {
  }

  lemma KeysBehind<K, V>(x: Item<K, V>, items: seq<Item<K, V>>, p: nat)
    requires p <= |items|
    ensures KeysUpTo([x] + items, p + 1) == {x.key} + KeysUpTo(items, p)
  {
    assert ([x] + items)[..p + 1] == [x] + items[..p];
    KeysJoin([x], items[..p]);
    KeyOfOne(x);
  }

  lemma TailDistinct<K, V>(items: seq<Item<K, V>>)
    requires Distinct(items) && items != []
    ensures Distinct(items[1..]) && items[0].key !in KeySet(items[1..])
  {
  }

  // Dropping a key leaves the others in order.
  lemma {:induction false} DropMoves<K, V>(items: seq<Item<K, V>>, key: K, p: nat) returns (q: nat)
    requires Distinct(items) && p < |items| && items[p].key != key
    ensures q < |Drop(items, key)| && Drop(items, key)[q] == items[p]
    ensures KeysUpTo(Drop(items, key), q) == KeysUpTo(items, p) - {key}
  {
    hide Distinct, KeySet;
    var x, rest, dropped := items[0], items[1..], Drop(items[1..], key);
    assert items == [x] + rest;
    if p == 0 {
      q := 0;
      NoKeys<K, V>();
      assert items[..0] == [] && Drop(items, key)[..0] == [];
    } else {
      TailDistinct(items);
      q := DropMoves(rest, key, p - 1);
      KeysBehind(x, rest, p - 1);
      if x.key == key {
        assert Drop(items, key) == dropped;
        AheadOnly(rest, p - 1);
      } else {
        assert Drop(items, key) == [x] + dropped;
        KeysBehind(x, dropped, q);
        q := q + 1;
      }
    }
  }

  lemma NoKeys<K, V>()
    ensures KeySet<K, V>([]) == {}
  {
  }

  lemma AheadOnly<K, V>(items: seq<Item<K, V>>, p: nat)
    requires p <= |items|
    ensures KeysUpTo(items, p) <= KeySet(items)
  {
  }

  lemma FrontMoves<K, V>(items: seq<Item<K, V>>, x: Item<K, V>, p: nat) returns (q: nat)
    requires Distinct(items) && p < |items| && items[p].key != x.key
    ensures var moved := [x] + Drop(items, x.key);
      && q < |moved| && moved[q] == items[p] && KeysUpTo(moved, q) == KeysUpTo(items, p) + {x.key}
  {
    hide Distinct, KeysUpTo;
    var r := DropMoves(items, x.key, p);
    KeysBehind(x, Drop(items, x.key), r);
    q := r + 1;
  }

  lemma FrontDistinct<K, V>(items: seq<Item<K, V>>, x: Item<K, V>)
    requires Distinct(items)
    ensures Distinct([x] + Drop(items, x.key))
    ensures |[x] + Drop(items, x.key)| == |items| + if HasKey(items, x.key) then 0 else 1
  {
    DropDistinct(items, x.key);
    DropGone(items, x.key);
  }

  lemma HeldIsFound<K, V>(items: seq<Item<K, V>>, key: K, now: int)
    requires Distinct(items)
    ensures Holds(items, key, now) <==> Lookup(items, key).Some? && !Expired(Lookup(items, key).value, now)
  {
    if Holds(items, key, now) {
      var i :| 0 <= i < |items| && items[i].key == key && Lasts(items[i], now);
      assert HasKey(items, key);
      var j :| 0 <= j < |items| && items[j] == Lookup(items, key).value;
    }
  }

  // One use of another key: the item moves behind the keys used since, or off the end.
  lemma OneUse<K, V>(items: seq<Item<K, V>>, size: nat, use: Use<K, V>, p: nat) returns (q: nat)
    requires Distinct(items) && |items| <= size && p < |items| && !Names(use, items[p].key)
    ensures var after, ahead := Do(items, size, use), Ahead(items, use, KeysUpTo(items, p));
      && Distinct(after) && |after| <= size
      && (if |ahead| < size then q < |after| && after[q] == items[p] && KeysUpTo(after, q) == ahead
          else !HasKey(after, items[p].key))
  {
    hide Drop, Lookup, KeysUpTo;
    CountKeys(items, p);
    match use {
      case Put(x) =>
        q := FrontMoves(items, x, p);
        FrontDistinct(items, x);
        CountKeys([x] + Drop(items, x.key), q);
        Truncated([x] + Drop(items, x.key), size, q);
      case Forget(key) =>
        q := DropMoves(items, key, p);
        DropDistinct(items, key);
        CountKeys(Drop(items, key), q);
      case Read(key, now) =>
        HeldIsFound(items, key, now);
        q := DropMoves(items, key, p);
        DropDistinct(items, key);
        CountKeys(Drop(items, key), q);
        if Holds(items, key, now) {
          var x := Lookup(items, key).value;
          q := FrontMoves(items, x, p);
          FrontDistinct(items, x);
          CountKeys([x] + Drop(items, x.key), q);
        } else if !HasKey(items, key) {
          DropAbsent(items, key);
        }
    }
  }

  lemma Truncated<K, V>(items: seq<Item<K, V>>, size: nat, q: nat)
    requires Distinct(items) && q < |items|
    ensures var cut := Truncate(items, size);
      && Distinct(cut) && |cut| <= size
      && (if q < size then q < |cut| && cut[q] == items[q] && KeysUpTo(cut, q) == KeysUpTo(items, q)
          else !HasKey(cut, items[q].key))
  {
    if q < size { assert Truncate(items, size)[..q] == items[..q]; }
  }

  // A key that is gone comes back by a set alone.
  lemma StaysGone<K, V>(items: seq<Item<K, V>>, size: nat, use: Use<K, V>, key: K)
    requires Distinct(items) && !HasKey(items, key) && !Names(use, key)
    ensures !HasKey(Do(items, size, use), key)
  {
    match use
    case Put(x) => DropGone(items, x.key);
    case Forget(k) => DropGone(items, k);
    case Read(k, now) => DropGone(items, k);
  }

  lemma DoKeeps<K, V>(items: seq<Item<K, V>>, size: nat, use: Use<K, V>)
    requires Distinct(items) && |items| <= size
    ensures Distinct(Do(items, size, use)) && |Do(items, size, use)| <= size
  {
    match use
    case Put(x) => FrontDistinct(items, x);
    case Forget(k) => DropDistinct(items, k);
    case Empty =>
    case Read(k, now) =>
      DropDistinct(items, k);
      if Lookup(items, k).Some? { FrontDistinct(items, Lookup(items, k).value); }
  }

  lemma {:induction false} GoneForGood<K, V>(items: seq<Item<K, V>>, size: nat, uses: seq<Use<K, V>>, key: K)
    requires Distinct(items) && |items| <= size && !HasKey(items, key) && forall u :: u in uses ==> !Names(u, key)
    ensures !HasKey(Run(items, size, uses), key)
    decreases |uses|
  {
    hide Do, HasKey;
    if uses != [] {
      assert uses[0] in uses && forall u :: u in uses[1..] ==> u in uses;
      StaysGone(items, size, uses[0], key);
      DoKeeps(items, size, uses[0]);
      GoneForGood(Do(items, size, uses[0]), size, uses[1..], key);
    }
  }

  /** While its own key is not used, an item stays exactly as long as there is room for it behind the keys that were
      ahead of it at first or have been used since. */
  lemma {:induction false} StaysWhileRoom<K, V>(items: seq<Item<K, V>>, size: nat, uses: seq<Use<K, V>>, p: nat)
    requires Distinct(items) && |items| <= size && p < |items|
    requires forall u :: u in uses ==> !Names(u, items[p].key)
    ensures var after := Run(items, size, uses);
      && Distinct(after)
      && if Crowded(items, size, uses, KeysUpTo(items, p)) then !HasKey(after, items[p].key)
         else exists q :: 0 <= q < |after| && after[q] == items[p]
    decreases |uses|
  {
    hide Do, Ahead, KeysUpTo, Names;
    CountKeys(items, p);
    if uses != [] {
      assert uses[0] in uses && forall u :: u in uses[1..] ==> u in uses;
      var next := Do(items, size, uses[0]);
      var q := OneUse(items, size, uses[0], p);
      if |Ahead(items, uses[0], KeysUpTo(items, p))| < size {
        StaysWhileRoom(next, size, uses[1..], q);
      } else {
        assert Crowded(next, size, uses[1..], Ahead(items, uses[0], KeysUpTo(items, p)));
        GoneForGood(next, size, uses[1..], items[p].key);
        RunDistinct(next, size, uses[1..]);
      }
    } else {
      assert Run(items, size, uses)[p] == items[p];
    }
  }

  lemma {:induction false} RunDistinct<K, V>(items: seq<Item<K, V>>, size: nat, uses: seq<Use<K, V>>)
    requires Distinct(items) && |items| <= size
    ensures Distinct(Run(items, size, uses)) && |Run(items, size, uses)| <= size
    decreases |uses|
  {
    hide Do;
    if uses != [] {
      DoKeeps(items, size, uses[0]);
      RunDistinct(Do(items, size, uses[0]), size, uses[1..]);
    }
  }

  // A set, or a read that finds the item, puts it in front of all others.
  predicate Uses<K(==), V(==)>(items: seq<Item<K, V>>, use: Use<K, V>, x: Item<K, V>) {
    use == Put(x) || (use.Read? && use.key == x.key && x in items && Lasts(x, use.now))
  }

  lemma UsedIsFirst<K, V>(items: seq<Item<K, V>>, size: nat, use: Use<K, V>, x: Item<K, V>)
    requires Distinct(items) && |items| <= size && 0 < size && Uses(items, use, x)
    ensures var after := Do(items, size, use);
      Distinct(after) && 0 < |after| <= size && after[0] == x && KeysUpTo(after, 0) == {}
  {
    DoKeeps(items, size, use);
    if use != Put(x) {
      var i :| 0 <= i < |items| && items[i] == x;
      assert HasKey(items, x.key);
      var j :| 0 <= j < |items| && items[j] == Lookup(items, x.key).value;
    }
  }

  /** What is read: once an item was set or read, and while its key is not used again, a read returns its value
      exactly until it expires or as many other keys have been used since as the cache has room for. */
  lemma UsedIsRead<K, V>(items: seq<Item<K, V>>, size: nat, use: Use<K, V>, x: Item<K, V>, uses: seq<Use<K, V>>,
                         now: int)
    requires Distinct(items) && |items| <= size && 0 < size && Uses(items, use, x)
    requires forall u :: u in uses ==> !Names(u, x.key)
    ensures var first := Do(items, size, use);
      ListGet(Run(first, size, uses), x.key, now).1 ==
        if !Crowded(first, size, uses, {}) && (x.expires == 0 || now <= x.expires) then Some(x.value) else None
  {
    hide Do, Names, Uses, Crowded;
    var first := Do(items, size, use);
    UsedIsFirst(items, size, use, x);
    StaysWhileRoom(first, size, uses, 0);
    var after := Run(first, size, uses);
    if !Crowded(first, size, uses, {}) {
      var q :| 0 <= q < |after| && after[q] == x;
      assert HasKey(after, x.key);
      var j :| 0 <= j < |after| && after[j] == Lookup(after, x.key).value;
    }
  }
}
