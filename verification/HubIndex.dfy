/** The connection index of a web-socket hub: a slice of connections per user, and each connection's
    slot in it, updated in place. Slices share their backing array with every copy of their header,
    as Go slices do. */
module HubIndex {
  type UserId = nat
  // A connection stands for the pointer to it: two connections of a user differ in their serial.
  datatype WebConn = WebConn(userId: UserId, serial: nat)

  // A slice header: a backing array and how many of its slots the slice shows.
  datatype Slice = Slice(arr: array<WebConn>, len: nat)

  ghost predicate Shows(s: Slice, row: seq<WebConn>)
    reads s.arr
  {
    s.len <= s.arr.Length && s.arr[..s.len] == row
  }

  // The slot i takes over the last connection, and the slice shrinks by one.
  function SwapRemove<T>(s: seq<T>, i: nat): seq<T>
    requires i < |s|
  {
    s[i := s[|s| - 1]][..|s| - 1]
  }

  ghost predicate NoRepeats<T>(s: seq<T>) { forall i, j :: 0 <= i < j < |s| ==> s[i] != s[j] }

  lemma SwapRemoveMembers<T>(s: seq<T>, i: nat)
    requires NoRepeats(s) && i < |s|
    ensures NoRepeats(SwapRemove(s, i))
    ensures forall x :: x in SwapRemove(s, i) <==> x in s && x != s[i]
  {
    var r := SwapRemove(s, i);
    forall x | x in s && x != s[i] ensures x in r {
      var k :| 0 <= k < |s| && s[k] == x;
      if k == |s| - 1 { assert r[i] == x; } else { assert r[k] == x; }
    }
  }

  // ---- The index as values ----

  type Slots = map<UserId, seq<WebConn>>

  function Of(slots: Slots, u: UserId): (row: seq<WebConn>)
    ensures u in slots ==> row == slots[u]
    ensures row != [] ==> u in slots
  {
    if u in slots then slots[u] else []
  }

  // The two maps are inverse to each other.
  ghost predicate Inverse(slots: Slots, pos: map<WebConn, nat>) {
    && (forall u, i :: u in slots && 0 <= i < |slots[u]| ==>
          slots[u][i].userId == u && slots[u][i] in pos && pos[slots[u][i]] == i)
    && (forall c :: c in pos ==> c.userId in slots && pos[c] < |slots[c.userId]| && slots[c.userId][pos[c]] == c)
  }

  // A user's slots hold each of that user's connections once, and nothing else.
  lemma RowOf(slots: Slots, pos: map<WebConn, nat>, u: UserId)
    requires Inverse(slots, pos) && u in slots
    ensures NoRepeats(slots[u])
    ensures forall k :: 0 <= k < |slots[u]| ==> slots[u][k] in pos && slots[u][k].userId == u && pos[slots[u][k]] == k
    ensures forall c :: c in pos && c.userId == u ==> pos[c] < |slots[u]| && slots[u][pos[c]] == c
  {
  }

  lemma RowExists(slots: Slots, pos: map<WebConn, nat>)
    requires Inverse(slots, pos)
    ensures forall c :: c in pos ==> c.userId in slots
  {
  }

  lemma AddKeepsInverse(slots: Slots, pos: map<WebConn, nat>, wc: WebConn)
    requires Inverse(slots, pos) && wc !in pos
    ensures Inverse(slots[wc.userId := Of(slots, wc.userId) + [wc]], pos[wc := |Of(slots, wc.userId)|])
  {
  }

  // Removing the last connection of a slice included: its new slot is written, then forgotten.
  lemma RemoveKeepsInverse(slots: Slots, pos: map<WebConn, nat>, wc: WebConn, last: WebConn)
    requires Inverse(slots, pos) && wc in pos && last == slots[wc.userId][|slots[wc.userId]| - 1]
    ensures Inverse(slots[wc.userId := SwapRemove(slots[wc.userId], pos[wc])], pos[last := pos[wc]] - {wc})
  {
    var s, i := slots[wc.userId], pos[wc];
    var slots': Slots, pos': map<WebConn, nat> := slots[wc.userId := SwapRemove(s, i)], pos[last := i] - {wc};
    forall u: UserId, k: nat | u in slots' && 0 <= k < |slots'[u]|
      ensures slots'[u][k].userId == u && slots'[u][k] in pos' && pos'[slots'[u][k]] == k
    {
      assert u in slots;
      if u == wc.userId && k == i { assert slots'[u][k] == last; } else { assert slots'[u][k] == slots[u][k]; }
    }
  }

  // Each slice stays within an array of its own and shows the connections it should.
  ghost predicate Backed(byUserId: map<UserId, Slice>, shown: Slots, owner: map<array<WebConn>, UserId>)
    reads owner.Keys
  {
    && shown.Keys == byUserId.Keys
    && (forall u :: u in byUserId ==> byUserId[u].arr in owner && owner[byUserId[u].arr] == u)
    && (forall u :: u in byUserId ==> Shows(byUserId[u], shown[u]))
  }

  // The same for every user but u.
  ghost predicate OthersBacked(byUserId: map<UserId, Slice>, shown: Slots, owner: map<array<WebConn>, UserId>,
                               u: UserId)
    reads set a | a in owner.Keys && owner[a] != u
  {
    && shown.Keys == byUserId.Keys
    && (forall v :: v in byUserId && v != u ==> byUserId[v].arr in owner && owner[byUserId[v].arr] == v)
    && (forall v :: v in byUserId && v != u ==> Shows(byUserId[v], shown[v]))
  }

  lemma Unback(byUserId: map<UserId, Slice>, shown: Slots, owner: map<array<WebConn>, UserId>, u: UserId)
    requires Backed(byUserId, shown, owner)
    ensures OthersBacked(byUserId, shown, owner, u) && (u in shown <==> u in byUserId)
    ensures u in byUserId ==> byUserId[u].arr in owner && owner[byUserId[u].arr] == u && Shows(byUserId[u], shown[u])
  {
  }

  lemma Reback(byUserId: map<UserId, Slice>, shown: Slots, owner: map<array<WebConn>, UserId>,
               u: UserId, r: Slice, row: seq<WebConn>)
    requires OthersBacked(byUserId, shown, owner, u) && Shows(r, row)
    requires r.arr in owner ==> owner[r.arr] == u
    ensures Backed(byUserId[u := r], shown[u := row], owner[r.arr := u])
  {
  }

  class HubConnectionIndex {
    var byUserId: map<UserId, Slice>
    var byConnection: map<WebConn, nat>
    ghost var shown: Slots           // the connections each user's slice shows, in slot order
    ghost var owner: map<array<WebConn>, UserId>  // whose every backing array is

    ghost predicate Valid()
      reads this, owner.Keys
    {
      Backed(byUserId, shown, owner) && Inverse(shown, byConnection)
    }

    constructor ()
      ensures Valid() && shown == map[] && byConnection == map[] && owner == map[]
    {
      byUserId, byConnection, shown, owner := map[], map[], map[], map[];
    }

    predicate Has(wc: WebConn)
      reads this
    {
      wc in byConnection
    }

    // append: in place while the backing array has room, into a new array otherwise.
    method Append(s: Slice, ghost row: seq<WebConn>, wc: WebConn) returns (r: Slice)
      requires Shows(s, row)
      modifies s.arr
      ensures r.len == |row| + 1 && Shows(r, row + [wc])
      ensures r.arr == s.arr || fresh(r.arr)
    {
      if s.len < s.arr.Length {
        s.arr[s.len] := wc;
        r := Slice(s.arr, s.len + 1);
      } else {
        var bigger := new WebConn[2 * s.len + 1](_ => wc);
        forall i | 0 <= i < s.len { bigger[i] := s.arr[i]; }
        bigger[s.len] := wc;
        r := Slice(bigger, s.len + 1);
      }
    }

    // The last connection takes slot i, in place, and the slice is shortened.
    method Overwrite(s: Slice, ghost row: seq<WebConn>, i: nat) returns (last: WebConn, r: Slice)
      requires Shows(s, row) && i < |row|
      modifies s.arr
      ensures last == row[|row| - 1] && r.arr == s.arr && Shows(r, SwapRemove(row, i))
      ensures forall k :: 0 <= k < s.arr.Length && k != i ==> s.arr[k] == old(s.arr[k])
    {
      last := s.arr[s.len - 1];
      s.arr[i] := last;
      r := Slice(s.arr, s.len - 1);
    }

    method Add(wc: WebConn)
      requires Valid() && !Has(wc)
      modifies this, owner.Keys
      ensures Valid() && fresh(owner.Keys - old(owner.Keys))
      ensures byConnection == old(byConnection)[wc := |Of(old(shown), wc.userId)|]
      ensures shown == old(shown)[wc.userId := Of(old(shown), wc.userId) + [wc]]
    {
      hide Inverse, Backed, OthersBacked, Shows;
      Unback(byUserId, shown, owner, wc.userId);
      AddKeepsInverse(shown, byConnection, wc);
      ghost var row := Of(shown, wc.userId);
      var s: Slice;
      if wc.userId in byUserId {
        s := byUserId[wc.userId];
      } else {
        s := Empty();
      }
      var r := Append(s, row, wc);
      Reback(byUserId, shown, owner, wc.userId, r, row + [wc]);
      byUserId := byUserId[wc.userId := r];
      byConnection := byConnection[wc := r.len - 1];
      shown := shown[wc.userId := row + [wc]];
      owner := owner[r.arr := wc.userId];
    }

    method Empty() returns (s: Slice)
      ensures Shows(s, []) && fresh(s.arr)
    {
      var arr := new WebConn[0];
      s := Slice(arr, 0);
    }

    method Remove(wc: WebConn)
      requires Valid()
      modifies this, if wc in byConnection && wc.userId in byUserId then {byUserId[wc.userId].arr} else {}
      ensures Valid() && owner == old(owner)
      ensures byConnection.Keys == old(byConnection.Keys) - {wc}
      ensures wc !in old(byConnection) ==> shown == old(shown) && byUserId == old(byUserId)
      ensures wc in old(byConnection) ==>
        shown == old(shown)[wc.userId := SwapRemove(old(shown)[wc.userId], old(byConnection)[wc])]
      ensures forall u :: u in old(byUserId) ==> u in byUserId && byUserId[u].arr == old(byUserId)[u].arr
      // the one slot written is the removed connection's own
      ensures wc in old(byConnection) ==> forall i ::
        0 <= i < byUserId[wc.userId].arr.Length && i != old(byConnection)[wc] ==>
        byUserId[wc.userId].arr[i] == old(byUserId[wc.userId].arr[i])
      // and nobody moves to a later slot
      ensures forall c :: c in byConnection ==> byConnection[c] <= old(byConnection)[c]
    {
      hide Inverse, Backed, OthersBacked, Shows, SwapRemove;
      if wc !in byConnection { return; }
      RemovableSlot(shown, byConnection, wc);
      Unback(byUserId, shown, owner, wc.userId);
      var userConnIndex := byConnection[wc];
      var last, r := Overwrite(byUserId[wc.userId], shown[wc.userId], userConnIndex);
      RemoveKeepsInverse(shown, byConnection, wc, last);
      Reback(byUserId, shown, owner, wc.userId, r, SwapRemove(shown[wc.userId], userConnIndex));
      assert owner[r.arr := wc.userId] == owner;
      byUserId := byUserId[wc.userId := r];
      byConnection := byConnection[last := userConnIndex];
      byConnection := byConnection - {wc};
      shown := shown[wc.userId := SwapRemove(shown[wc.userId], userConnIndex)];
    }
  }

  // The slot of a registered connection, and the connection in the last slot.
  lemma RemovableSlot(slots: Slots, pos: map<WebConn, nat>, wc: WebConn)
    requires Inverse(slots, pos) && wc in pos
    ensures wc.userId in slots && pos[wc] < |slots[wc.userId]| && slots[wc.userId][pos[wc]] == wc
    ensures var last := slots[wc.userId][|slots[wc.userId]| - 1];
      last.userId == wc.userId && last in pos && pos[last] == |slots[wc.userId]| - 1
  {
  }
}
