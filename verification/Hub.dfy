/** The event loop of a web-socket hub: every request is served to its end before the next one is taken,
    over an index that is changed while it is being walked. */
module Hub {
  import opened HubIndex
  import opened HubState

  lemma ShowsAll(s: Slice, row: seq<WebConn>)
    requires Shows(s, row)
    ensures s.len == |row| <= s.arr.Length && forall k :: 0 <= k < |row| ==> s.arr[k] == row[k]
  {
  }

  lemma EnrolledSane(st: State, wc: WebConn, authenticated: bool)
    requires Sane(st) && wc !in st.queues
    ensures wc !in st.closed && wc !in st.registered && Sane(Enrolled(st, wc, authenticated))
  {
  }

  lemma LeftSane(st: State, wc: WebConn)
    requires Sane(st)
    ensures Sane(st.(registered := st.registered - {wc}))
  {
  }

  lemma SaneAnyway(st: State)
    requires Sane(st)
    ensures forall hungUp, stopped :: Sane(State(st.registered, st.queues, st.closed, st.cached, hungUp, stopped))
  {
  }

  class Hub {
    const index: HubConnectionIndex
    var queues: map<WebConn, seq<Message>>
    var closed: set<WebConn>
    var cached: set<WebConn>
    var hungUp: set<WebConn>
    var stopped: bool

    ghost function View(): State
      reads this, index
    {
      State(index.byConnection.Keys, queues, closed, cached, hungUp, stopped)
    }

    ghost predicate Valid()
      reads this, index, index.owner.Keys
    {
      index.Valid() && Sane(View())
    }

    constructor ()
      ensures Valid() && fresh(index) && View() == NEW_HUB && index.owner == map[]
    {
      index := new HubConnectionIndex();
      queues, closed, cached, hungUp, stopped := map[], {}, {}, {}, false;
    }

    // A send on a closed channel, or closing one twice, would panic.
    method Close(wc: WebConn)
      requires wc !in closed
      modifies this`closed
      ensures closed == old(closed) + {wc}
    {
      closed := closed + {wc};
    }

    method Send(wc: WebConn, msg: Message)
      requires wc in queues && wc !in closed && |queues[wc]| < SEND_QUEUE_SIZE
      modifies this`queues
      ensures queues == old(queues)[wc := old(queues)[wc] + [msg]]
    {
      queues := queues[wc := queues[wc] + [msg]];
    }

    method Register(wc: WebConn, authenticated: bool)
      requires Valid() && wc !in queues
      modifies this, index, index.owner.Keys
      ensures Valid() && fresh(index.owner.Keys - old(index.owner.Keys))
      ensures View() == Enrolled(old(View()), wc, authenticated)
    {
      hide Inverse, Backed, HubIndex.Of, Sane, Hello;
      EnrolledSane(View(), wc, authenticated);
      queues, cached := queues[wc := []], cached + {wc};
      index.Add(wc);
      assert index.byConnection.Keys == old(index.byConnection.Keys) + {wc};
      if authenticated {
        Send(wc, Hello(wc));
      }
      assert [] + [Hello(wc)] == [Hello(wc)];
      assert queues == old(queues)[wc := if authenticated then [Hello(wc)] else []];
    }

    method Unregister(wc: WebConn)
      requires Valid()
      modifies this, index, index.owner.Keys
      ensures Valid() && index.owner == old(index.owner)
      ensures View() == old(View()).(registered := old(View()).registered - {wc})
    {
      hide Inverse, Backed, OthersBacked, Shows, SwapRemove, Sane;
      LeftSane(View(), wc);
      Unback(index.byUserId, index.shown, index.owner, wc.userId);
      index.Remove(wc);
    }

    ghost predicate SameArrays(was: map<UserId, Slice>)
      reads index
    {
      forall u :: u in was ==> u in index.byUserId && index.byUserId[u].arr == was[u].arr
    }

    // Visiting a connection writes no slot but its own, and moves nobody to a later slot.
    twostate predicate OnlyOwnSlot(wc: WebConn)
      reads index, index.owner.Keys
    {
      && index.owner == old(index.owner) && SameArrays(old(index.byUserId))
      && (forall c :: c in index.byConnection ==>
            c in old(index.byConnection) && index.byConnection[c] <= old(index.byConnection)[c])
      && (forall a, i :: a in index.owner.Keys && 0 <= i < a.Length ==>
            || (wc in old(index.byConnection) && i == old(index.byConnection)[wc] && index.owner[a] == wc.userId)
            || a[i] == old(a[i]))
    }

    method Offer(wc: WebConn, msg: Message)
      requires Valid() && index.Has(wc)
      modifies this, index, index.owner.Keys
      ensures Valid() && View() == Offered(old(View()), wc, msg) && OnlyOwnSlot(wc)
    {
      hide Inverse, Backed, OthersBacked, Shows, SwapRemove;
      RemovableSlot(index.shown, index.byConnection, wc);
      Unback(index.byUserId, index.shown, index.owner, wc.userId);
      if |queues[wc]| < SEND_QUEUE_SIZE {
        Send(wc, msg);
      } else {
        Close(wc);
        index.Remove(wc);
      }
    }

    method Direct(wc: WebConn, msg: Message)
      requires Valid()
      modifies this, index, index.owner.Keys
      ensures Valid() && index.owner == old(index.owner)
      ensures View() == if wc in old(View()).registered then Offered(old(View()), wc, msg) else old(View())
    {
      if !index.Has(wc) { return; }
      Offer(wc, msg);
    }

    // The broadcast closure: a candidate that is still in the index is offered what it should have, in the
    // room that its pump has made meanwhile.
    method Visit(wc: WebConn, msg: Message, now: Walk)
      requires Valid()
      modifies this, index, index.owner.Keys
      ensures Valid() && OnlyOwnSlot(wc)
      ensures View() == if wc in old(View()).registered then Visited(old(View()), wc, msg, now) else old(View())
    {
      hide Inverse, Backed, OthersBacked, Shows;
      if !index.Has(wc) { return; }
      queues := queues[wc := Rest(queues[wc], wc, now)];
      if ShouldSend(wc, msg, now) {
        Offer(wc, msg);
      }
    }

    // The range over a user's slice fixes its array and length once, and reads each slot when it gets there.
    method BroadcastToUser(msg: Message, now: Walk)
      requires Valid() && msg.Event? && msg.to.userId != NOBODY
      modifies this, index, index.owner.Keys
      ensures Valid() && index.owner == old(index.owner)
      ensures View() == Spread(old(View()), msg, now, Audience(old(View()), msg))
    {
      hide Inverse, Backed, OthersBacked, Shows, SwapRemove, Spread, Visited, Before;
      var u := msg.to.userId;
      ghost var start, slots, place := View(), index.shown, index.byConnection;
      SpreadToNobody(start, msg, now);
      Unback(index.byUserId, slots, index.owner, u);
      BeforeAll(slots, place, u);
      assert Audience(start, msg) == ConnectionsOf(place, u);
      if u !in index.byUserId { return; }
      var candidates := index.byUserId[u];
      ShowsAll(candidates, slots[u]);
      var i := 0;
      while i < candidates.len
        invariant 0 <= i <= candidates.len
        invariant Valid() && index.owner == old(index.owner)
        invariant u in index.byUserId && index.byUserId[u].arr == candidates.arr
        invariant forall k :: i <= k < candidates.len ==> candidates.arr[k] == slots[u][k]
        invariant forall c :: c in index.byConnection ==> c in place && index.byConnection[c] <= place[c]
        invariant View() == Spread(start, msg, now, Before(place, u, i))
      {
        var wc := candidates.arr[i];
        BeforeNext(slots, place, u, i);
        SpreadToOneMore(start, msg, now, Before(place, u, i), wc);
        Visit(wc, msg, now);
        i := i + 1;
      }
    }

    // The range over the map visits its entries in any order, while visits delete entries from it.
    method BroadcastToAll(msg: Message, now: Walk)
      requires Valid() && msg.Event? && msg.to.userId == NOBODY
      modifies this, index, index.owner.Keys
      ensures Valid() && index.owner == old(index.owner)
      ensures View() == Spread(old(View()), msg, now, Audience(old(View()), msg))
    {
      hide Inverse, Backed, OthersBacked, Shows, SwapRemove, Spread, Visited;
      ghost var start := View();
      ghost var done := {};
      SpreadToNobody(start, msg, now);
      var candidates := index.byConnection.Keys;
      assert Audience(start, msg) == candidates;
      while candidates != {}
        invariant Valid() && index.owner == old(index.owner)
        invariant done + candidates == start.registered && done !! candidates
        invariant View() == Spread(start, msg, now, done)
        decreases candidates
      {
        var wc :| wc in candidates;
        SpreadToOneMore(start, msg, now, done, wc);
        Visit(wc, msg, now);
        candidates, done := candidates - {wc}, done + {wc};
      }
      assert done == start.registered;
    }

    // Forgets the cached session of each of a user's connections, which must then ask for it again.
    method InvalidateUser(u: UserId)
      requires Valid()
      modifies this`cached
      ensures Valid()
      ensures View() == old(View()).(cached := old(cached) - set c | c in index.byConnection.Keys && c.userId == u)
    {
      hide Inverse, Backed, OthersBacked, Shows, SwapRemove, Before;
      ghost var slots, place := index.shown, index.byConnection;
      Unback(index.byUserId, slots, index.owner, u);
      BeforeAll(slots, place, u);
      assert ConnectionsOf(place, u) == set c | c in index.byConnection.Keys && c.userId == u;
      if u !in index.byUserId {
        assert cached == cached - {};
        return;
      }
      var connections := index.byUserId[u];
      ShowsAll(connections, slots[u]);
      var i := 0;
      while i < connections.len
        invariant 0 <= i <= connections.len
        invariant Valid() && cached == old(cached) - Before(place, u, i)
      {
        var wc := connections.arr[i];
        BeforeNext(slots, place, u, i);
        cached := cached - {wc};
        i := i + 1;
      }
    }

    // Hangs every connection up; the loop then ends.
    method Stop()
      requires Valid()
      modifies this`hungUp, this`stopped
      ensures Valid() && View() == old(View()).(hungUp := old(hungUp) + index.byConnection.Keys, stopped := true)
    {
      hide Inverse, Backed, Sane;
      ghost var all, done := index.byConnection.Keys, {};
      SaneAnyway(View());
      var left := index.byConnection.Keys;
      while left != {}
        invariant done + left == all && hungUp == old(hungUp) + done
        decreases left
      {
        var wc :| wc in left;
        hungUp := hungUp + {wc};
        left, done := left - {wc}, done + {wc};
      }
      stopped := true;
      assert done == all;
    }

    method Take(wc: WebConn)
      requires Valid()
      modifies this`queues
      ensures Valid() && View() == if wc in old(queues) && old(queues)[wc] != [] then
        old(View()).(queues := old(queues)[wc := old(queues)[wc][1..]]) else old(View())
    {
      if wc in queues && queues[wc] != [] {
        queues := queues[wc := queues[wc][1..]];
      }
    }

    // One turn of the loop, or of a pump beside it.
    method Turn(r: Request)
      requires Valid() && Served(View(), r)
      modifies this, index, index.owner.Keys
      ensures Valid() && fresh(index.owner.Keys - old(index.owner.Keys))
      ensures View() == Serve(old(View()), r)
    {
      hide Inverse, Backed, Spread, Offered, Enrolled, Audience, Sane;
      match r
      case Register(wc, authenticated) => Register(wc, authenticated);
      case Unregister(wc) => Unregister(wc);
      case Invalidate(u) => InvalidateUser(u);
      case Direct(wc, msg) => Direct(wc, msg);
      case Stop => Stop();
      case Take(wc) => Take(wc);
      case Publish(msg, now) =>
        if msg.to.userId != NOBODY {
          BroadcastToUser(msg, now);
        } else {
          BroadcastToAll(msg, now);
        }
    }

    method Start(rs: seq<Request>)
      requires Valid() && Runnable(View(), rs)
      modifies this, index, index.owner.Keys
      ensures Valid() && View() == Run(old(View()), rs)
    {
      hide Inverse, Backed, Serve, Sane, Served;
      var i := 0;
      while i < |rs|
        invariant 0 <= i <= |rs|
        invariant Valid() && fresh(index.owner.Keys - old(index.owner.Keys))
        invariant Runnable(View(), rs[i..]) && Run(View(), rs[i..]) == Run(old(View()), rs)
      {
        assert rs[i..][0] == rs[i] && rs[i..][1..] == rs[i + 1..];
        Turn(rs[i]);
        i := i + 1;
      }
    }
  }

  // The connections of a user, and those of them whose slot comes before the i-th.
  ghost function ConnectionsOf(pos: map<WebConn, nat>, u: UserId): set<WebConn> {
    set c | c in pos && c.userId == u
  }

  ghost function Before(pos: map<WebConn, nat>, u: UserId, i: nat): (s: set<WebConn>)
    ensures s <= pos.Keys
  {
    set c | c in pos && c.userId == u && pos[c] < i
  }

  lemma BeforeNext(slots: Slots, pos: map<WebConn, nat>, u: UserId, i: nat)
    requires Inverse(slots, pos) && u in slots && i < |slots[u]|
    ensures slots[u][i].userId == u && slots[u][i] in pos && pos[slots[u][i]] == i && slots[u][i] !in Before(pos, u, i)
    ensures Before(pos, u, i + 1) == Before(pos, u, i) + {slots[u][i]}
  {
    RowOf(slots, pos, u);
  }

  lemma BeforeAll(slots: Slots, pos: map<WebConn, nat>, u: UserId)
    requires Inverse(slots, pos)
    ensures Before(pos, u, 0) == {}
    ensures if u in slots then Before(pos, u, |slots[u]|) == ConnectionsOf(pos, u) else ConnectionsOf(pos, u) == {}
  {
    if u in slots {
      RowOf(slots, pos, u);
    } else {
      RowExists(slots, pos);
    }
  }
}
