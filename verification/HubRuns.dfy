/** What a run of the event loop comes to for one connection: how it enters and leaves the index, when its session is
    forgotten, when it is hung up, and what room in its channel decides. */
module HubRuns {
  import opened HubIndex
  import opened HubState

  lemma OneLeaves(st: State, r: Request, c: WebConn)
    requires Sane(st) && Served(st, r)
    ensures var after := Serve(st, r);
      && (c in st.queues || (r.Register? && r.wc == c) <==> c in after.queues)
      && (c in after.registered <==>
            || (r.Register? && r.wc == c)
            || (c in st.registered && r != Unregister(c) && c !in after.closed))
  {
    ServeCloses(st, r, c);
    if r.Publish? { AudienceIsEnough(st, r.msg, r.now); }
  }

  lemma Registered(st: State, c: WebConn)
    requires Sane(st) && c in st.registered
    ensures c in st.queues && c !in st.closed
  {
  }

  /** A registered connection stays in the index until it is unregistered or its full channel is closed, and
      leaves it then. */
  lemma {:induction false} LeavesByRequest(st: State, rs: seq<Request>, c: WebConn)
    requires Runnable(st, rs) && c in st.registered
    ensures c in Run(st, rs).registered <==> Unregister(c) !in rs && c !in Run(st, rs).closed
    decreases |rs|
  {
    hide Serve, Served, Sane;
    Registered(st, c);
    if rs != [] {
      var next := Serve(st, rs[0]);
      OneLeaves(st, rs[0], c);
      if c in next.registered {
        LeavesByRequest(next, rs[1..], c);
        if rs[0].Register? { NotAgain(st, rs[0], c); }
      } else {
        GoneForGood(next, rs[1..], c);
        if rs[0] == Unregister(c) { assert Unregister(c) in rs; }
      }
    }
  }

  lemma NotAgain(st: State, r: Request, c: WebConn)
    requires Served(st, r) && c in st.queues
    ensures r != Register(c, true) && r != Register(c, false)
  {
  }

  /** After a request to unregister it, a connection is in no later index, nothing is due to it, and its channel
      is never closed. */
  lemma UnregisterIsFinal(st: State, rs: seq<Request>, c: WebConn)
    requires c in st.registered && Runnable(st, [Unregister(c)] + rs)
    ensures var all := [Unregister(c)] + rs;
      && c !in Run(st, all).registered && c !in Run(st, all).closed && AllDue(st, all, c) == []
  {
    hide Sane;
    var all := [Unregister(c)] + rs;
    assert all[0] == Unregister(c) && all[1..] == rs;
    Registered(st, c);
    UnregisterOnly(st, c);
    GoneForGood(Serve(st, Unregister(c)), rs, c);
  }

  // It takes the connection out of the index, and does nothing else.
  lemma UnregisterOnly(st: State, c: WebConn)
    requires Sane(st) && Served(st, Unregister(c))
    ensures var after := Serve(st, Unregister(c));
      && (forall d :: d in after.registered <==> d in st.registered && d != c)
      && after.queues == st.queues && after.closed == st.closed && after.cached == st.cached
      && after.hungUp == st.hungUp && after.stopped == st.stopped && Due(st, Unregister(c), c) == []
  {
  }

  /** A new connection is in the index with an open channel that holds the greeting if its session is valid. */
  lemma RegisterEnters(st: State, c: WebConn, authenticated: bool)
    requires Sane(st) && Served(st, Register(c, authenticated))
    ensures var after := Serve(st, Register(c, authenticated));
      && c in after.registered && c in after.cached && c !in after.closed && c in after.queues
      && (if authenticated then |after.queues[c]| == 1 && after.queues[c][0].Event?
                                && after.queues[c][0].to.userId == c.userId
          else after.queues[c] == [])
      && (forall d :: d != c ==>
            && (d in after.registered <==> d in st.registered) && (d in after.queues <==> d in st.queues)
            && (d in st.queues ==> after.queues[d] == st.queues[d]))
  {
  }

  // ---- Cached sessions ----

  // Whether some invalidation of the user was served while the connection was in the index.
  ghost predicate Forgotten(st: State, rs: seq<Request>, c: WebConn)
    requires Runnable(st, rs)
    decreases |rs|
  {
    rs != [] && ((rs[0] == Invalidate(c.userId) && c in st.registered) || Forgotten(Serve(st, rs[0]), rs[1..], c))
  }

  lemma OneForgets(st: State, r: Request, c: WebConn)
    requires Sane(st) && Served(st, r) && c in st.queues
    ensures c in Serve(st, r).cached <==> c in st.cached && !(r == Invalidate(c.userId) && c in st.registered)
    ensures c in Serve(st, r).queues
  {
  }

  /** A connection keeps its cached session exactly until its user's sessions are invalidated while it is in the
      index. */
  lemma {:induction false} CachedUntilInvalidated(st: State, rs: seq<Request>, c: WebConn)
    requires Runnable(st, rs) && c in st.queues
    ensures c in Run(st, rs).cached <==> c in st.cached && !Forgotten(st, rs, c)
    decreases |rs|
  {
    hide Serve, Served, Sane;
    if rs != [] {
      OneForgets(st, rs[0], c);
      CachedUntilInvalidated(Serve(st, rs[0]), rs[1..], c);
    }
  }

  // ---- Stopping ----

  lemma OneStops(st: State, r: Request, c: WebConn)
    requires Sane(st) && Served(st, r)
    ensures var after := Serve(st, r);
      && (after.stopped <==> st.stopped || r.Stop?)
      && (c in after.hungUp <==> c in st.hungUp || (r.Stop? && c in st.registered))
      && (st.stopped ==> r.Take? && after.registered == st.registered)
  {
  }

  /** A hub that is stopped serves nobody but the pumps that empty its channels, and has hung up exactly the
      connections that are in its index. */
  lemma {:induction false} StopHangsUp(st: State, rs: seq<Request>, c: WebConn)
    requires Runnable(st, rs) && (c in st.hungUp <==> st.stopped && c in st.registered)
    ensures var after := Run(st, rs);
      && (c in after.hungUp <==> after.stopped && c in after.registered)
      && (after.stopped <==> st.stopped || exists i :: 0 <= i < |rs| && rs[i].Stop?)
      && forall i, j :: 0 <= i < j < |rs| && rs[i].Stop? ==> rs[j].Take?
    decreases |rs|
  {
    hide Serve, Served, Sane;
    if rs != [] {
      var next := Serve(st, rs[0]);
      OneStops(st, rs[0], c);
      if rs[0].Stop? { StopKeepsIndex(st, rs[0], c); }
      StopHangsUp(next, rs[1..], c);
      assert forall i :: 1 <= i < |rs| ==> rs[i] == rs[1..][i - 1];
      if next.stopped { OnlyTakes(next, rs[1..]); }
      if exists i :: 0 <= i < |rs| && rs[i].Stop? {
        var i :| 0 <= i < |rs| && rs[i].Stop?;
        if i > 0 { assert rs[1..][i - 1].Stop?; }
      }
    }
  }

  lemma StopKeepsIndex(st: State, r: Request, c: WebConn)
    requires Sane(st) && Served(st, r) && r.Stop?
    ensures c in Serve(st, r).registered <==> c in st.registered
  {
  }

  lemma {:induction false} OnlyTakes(st: State, rs: seq<Request>)
    requires Runnable(st, rs) && st.stopped
    ensures forall i :: 0 <= i < |rs| ==> rs[i].Take?
    decreases |rs|
  {
    hide Serve, Sane;
    if rs != [] {
      OneStops(st, rs[0], WebConn(0, 0));
      OnlyTakes(Serve(st, rs[0]), rs[1..]);
      assert forall i :: 1 <= i < |rs| ==> rs[i] == rs[1..][i - 1];
    }
  }

  // ---- Room ----

  // What of the channel is left when a request sends to it.
  function Waiting(st: State, r: Request, c: WebConn): seq<Message> {
    var q := if c in st.queues then st.queues[c] else [];
    if !r.Publish? || c !in r.now.taken then q
    else if r.now.taken[c] <= |q| then q[r.now.taken[c]..] else []
  }

  /** A message that should be sent goes behind what waits in the channel when fewer than 256 messages do; and
      otherwise the channel is closed, with them in it, and the connection forgotten. */
  lemma RoomDecides(st: State, r: Request, c: WebConn)
    requires Sane(st) && Served(st, r) && Sends(st, r, c)
    ensures var q, after := Waiting(st, r, c), Serve(st, r);
      && c in after.queues
      && (if |q| < 256 then after.queues[c] == q + [r.msg] && c in after.registered && c !in after.closed
          else after.queues[c] == q && c !in after.registered && c in after.closed)
  {
    if r.Publish? { AudienceIsEnough(st, r.msg, r.now); }
  }
}
