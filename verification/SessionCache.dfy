/** Clearing one user's sessions from the local cache: a loop that reads and removes entries of the
    very list it took its keys from. */
module SessionCache {
  import opened LruRows
  import opened LruCache
  import opened Wrappers

  datatype Session = Session(id: nat, userId: nat)

  lemma {:induction false} DropMembers<K, V>(items: seq<Item<K, V>>, key: K, x: Item<K, V>)
    ensures x in Drop(items, key) <==> x in items && x.key != key
  {
    if items != [] { DropMembers(items[1..], key, x); }
  }

  // The sessions a clearing for `userId` at time `now` leaves.
  predicate Stays<K>(x: Item<K, Session>, userId: nat, now: int) { x.value.userId != userId && !Expired(x, now) }

  ghost predicate Processed<K(!new)>(before: seq<Item<K, Session>>, k: K, userId: nat, now: int,
                                     after: seq<Item<K, Session>>) {
    forall x :: x in after <==> x in before && (x.key == k ==> Stays(x, userId, now))
  }

  // Reading key k, then removing it if it holds the user's session: k stays only if its item does.
  lemma OneKeyCleared<K(!new)>(items: seq<Item<K, Session>>, k: K, userId: nat, now: int, items': seq<Item<K, Session>>)
    requires Distinct(items)
    requires var (items1, r) := ListGet(items, k, now);
      items' == if r.Some? && r.value.userId == userId then Drop(items1, k) else items1
    ensures Processed(items, k, userId, now, items')
  {
    var (items1, r) := ListGet(items, k, now);
    forall x ensures x in items' <==> x in items && (x.key == k ==> Stays(x, userId, now)) {
      DropMembers(items, k, x);
      DropMembers(items1, k, x);
      match Lookup(items, k) {
        case None =>
        case Some(y) =>
          if x in items && x.key == k { assert x == y; }
      }
    }
  }

  lemma DistinctView<K(0), V>(cache: LRU<K, V>)
    requires cache.Valid()
    ensures Distinct(cache.View())
  {
    hide Indexed, Live;
    IndexedUnique(cache.evictList, cache.items);
    LiveDistinct(Rows(cache.evictList), cache.currentGeneration);
  }

  lemma KeysCover<K, V>(items: seq<Item<K, V>>)
    ensures forall x :: x in items ==> x.key in Reversed(KeysOf(items))
  {
    forall x | x in items ensures x.key in Reversed(KeysOf(items)) {
      var i :| 0 <= i < |items| && items[i] == x;
      assert Reversed(KeysOf(items))[|items| - 1 - i] == x.key;
    }
  }

  // What is left after the keys in `done` have been processed.
  ghost predicate Cleared<K(!new)>(now': seq<Item<K, Session>>, start: seq<Item<K, Session>>, done: seq<K>,
                                   userId: nat, now: int) {
    forall x :: x in now' <==> x in start && (x.key in done ==> Stays(x, userId, now))
  }

  lemma OneMoreCleared<K(!new)>(before: seq<Item<K, Session>>, k: K, userId: nat, now: int,
                                after: seq<Item<K, Session>>, start: seq<Item<K, Session>>, done: seq<K>)
    requires Cleared(before, start, done, userId, now)
    requires Processed(before, k, userId, now, after)
    ensures Cleared(after, start, done + [k], userId, now)
  {
  }

  /** Afterwards the cache holds exactly the unexpired sessions of the other users. */
  method ClearLocalSessions<K(==, 0, !new)>(cache: LRU<K, Session>, userId: nat, now: Instant)
    requires cache.Valid()
    modifies cache
    ensures cache.Valid()
    ensures forall x :: x in cache.View() <==> x in old(cache.View()) && Stays(x, userId, now)
  {
    hide LRU.Valid, LRU.View, ListGet, Reversed, KeysOf;
    var keys := cache.Keys();
    ghost var all, start := keys[..], cache.View();
    KeysCover(start);
    for i := 0 to keys.Length
      invariant cache.Valid() && keys[..] == all
      invariant Cleared(cache.View(), start, all[..i], userId, now)
    {
      ghost var before := cache.View();
      DistinctView(cache);
      var session := cache.Get(keys[i], now);
      if session.Some? && session.value.userId == userId {
        cache.Remove(keys[i]);
      }
      OneKeyCleared(before, keys[i], userId, now, cache.View());
      OneMoreCleared(before, keys[i], userId, now, cache.View(), start, all[..i]);
      assert all[..i + 1] == all[..i] + [keys[i]];
    }
    assert all[..keys.Length] == all;
  }
}
