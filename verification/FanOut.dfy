/** From publishing an event anywhere in the cluster to the channel of a connection: the steps of the cluster
    put together with the event loop of one hub. */
module FanOut {
  import opened HubIndex
  import opened HubState
  import C = Cluster

  function Carried(msg: Message): C.Event
    requires msg.Event?
  {
    C.Event(msg.id, msg.to.userId)
  }

  predicate Carries(r: Request, e: C.Event) { r.Publish? && r.msg.Event? && Carried(r.msg) == e }

  // The events that a hub takes from its broadcast queue, in order.
  function Taken(rs: seq<Request>): seq<C.Event> {
    if rs == [] then []
    else (if rs[0].Publish? && rs[0].msg.Event? then [Carried(rs[0].msg)] else []) + Taken(rs[1..])
  }

  // How many of the messages carry an event.
  function Copies(ms: seq<Message>, e: C.Event): nat {
    if ms == [] then 0 else (if ms[0].Event? && Carried(ms[0]) == e then 1 else 0) + Copies(ms[1..], e)
  }

  lemma {:induction false} CopiesJoin(a: seq<Message>, b: seq<Message>, e: C.Event)
    ensures Copies(a + b, e) == Copies(a, e) + Copies(b, e)
  {
    if a == [] {
      assert a + b == b;
    } else {
      assert (a + b)[1..] == a[1..] + b;
      CopiesJoin(a[1..], b, e);
    }
  }

  // How often the hub takes an event while the connection is not there for it: not registered, without a
  // valid session, not its addressee, or with a full channel.
  ghost function Missed(st: State, rs: seq<Request>, c: WebConn, e: C.Event): nat
    requires Runnable(st, rs)
    decreases |rs|
  {
    if rs == [] then 0
    else
      (if Carries(rs[0], e) && (!Sends(st, rs[0], c) || Full(Found(st, rs[0], c))) then 1 else 0)
      + Missed(Serve(st, rs[0]), rs[1..], c, e)
  }

  // Copies that come by another way: as the greeting, or sent to this connection alone.
  ghost function Besides(st: State, rs: seq<Request>, c: WebConn, e: C.Event): nat
    requires Runnable(st, rs)
    decreases |rs|
  {
    if rs == [] then 0
    else (if rs[0].Publish? then 0 else Copies(Due(st, rs[0], c), e)) + Besides(Serve(st, rs[0]), rs[1..], c, e)
  }

  lemma OneRequest(st: State, r: Request, c: WebConn, e: C.Event)
    requires Sane(st) && Served(st, r)
    ensures var missed := if Carries(r, e) && (!Sends(st, r, c) || Full(Found(st, r, c))) then 1 else 0;
      Copies(Due(st, r, c), e) + missed == (if r.Publish? then 0 else Copies(Due(st, r, c), e)) + C.Times(Taken([r]), e)
  {
    assert Taken([r][1..]) == [];
    if r.Publish? {
      assert Copies([], e) == 0;
      var one := [r.msg];
      assert one[1..] == [];
    }
  }

  lemma {:induction false} DueAsTaken(st: State, rs: seq<Request>, c: WebConn, e: C.Event)
    requires Runnable(st, rs)
    ensures Copies(AllDue(st, rs, c), e) + Missed(st, rs, c, e) == Besides(st, rs, c, e) + C.Times(Taken(rs), e)
    decreases |rs|
  {
    hide Serve, Served, Sane, Due, Sends, Found, Carries, Copies, C.Times;
    if rs == [] {
      NoCopies(e);
    } else {
      var next := Serve(st, rs[0]);
      OneRequest(st, rs[0], c, e);
      DueAsTaken(next, rs[1..], c, e);
      CopiesJoin(Due(st, rs[0], c), AllDue(next, rs[1..], c), e);
      assert [rs[0]][1..] == [] && Taken([rs[0]]) + Taken(rs[1..]) == Taken(rs);
      C.TimesJoin(Taken([rs[0]]), Taken(rs[1..]), e);
    }
  }

  lemma NoCopies(e: C.Event)
    ensures Copies([], e) == 0 && C.Times([], e) == 0
  {
  }

  // What a connection got of a run: what its pump has received, and what its channel still holds.
  ghost function Got(st: State, rs: seq<Request>, c: WebConn): seq<Message>
    requires Runnable(st, rs)
  {
    AllReceived(st, rs, c) + Queue(Run(st, rs), c)
  }

  /** Over any run of a hub, a connection gets each event once for each time the hub takes it, less the
      times it is missed, besides the copies it held before or got by another way. */
  lemma DeliveredAsTaken(st: State, rs: seq<Request>, c: WebConn, e: C.Event)
    requires Runnable(st, rs)
    ensures Copies(Got(st, rs, c), e) + Missed(st, rs, c, e) ==
      Copies(Queue(st, c), e) + Besides(st, rs, c, e) + C.Times(Taken(rs), e)
  {
    hide Runnable, Run, AllReceived, AllDue, Queue, Missed, Besides, Copies, C.Times;
    RunDelivers(st, rs, c);
    DueAsTaken(st, rs, c, e);
    CopiesJoin(Queue(st, c), AllDue(st, rs, c), e);
  }

  // Registered and such that it should have the event whenever that is taken, unless its channel was closed before.
  ghost predicate Listening(st: State, rs: seq<Request>, c: WebConn, e: C.Event)
    requires Runnable(st, rs)
    decreases |rs|
  {
    rs != [] ==>
      && (Carries(rs[0], e) ==> c in st.closed || Sends(st, rs[0], c))
      && Listening(Serve(st, rs[0]), rs[1..], c, e)
  }

  // Who should have an event: for one user, their connections with a valid session; for everybody, all that
  // have a valid session but the omitted ones, and those outside the team if it is for a team.
  lemma WhoListens(st: State, r: Request, c: WebConn, e: C.Event)
    requires Carries(r, e) && c in st.registered
    ensures e.userId == c.userId != NOBODY ==> (Sends(st, r, c) <==> c in r.now.valid)
    ensures e.userId == NOBODY ==>
      var to := r.msg.to;
      (Sends(st, r, c) <==>
        && c in r.now.valid && c.userId !in to.omitUsers
        && (to.teamId == 0 || (c in r.now.teams && to.teamId in r.now.teams[c])))
    ensures e.userId != NOBODY && e.userId != c.userId ==> !Sends(st, r, c)
  {
  }

  lemma StillOpen(st: State, r: Request, c: WebConn)
    requires Sane(st) && Served(st, r) && c !in Serve(st, r).closed
    ensures c !in st.closed && !(Sends(st, r, c) && Full(Found(st, r, c)))
  {
    hide Serve, Sends, Found;
    ServeCloses(st, r, c);
  }

  lemma {:induction false} ListenerMissesNothing(st: State, rs: seq<Request>, c: WebConn, e: C.Event)
    requires Runnable(st, rs) && Listening(st, rs, c, e)
    ensures c in Run(st, rs).closed || Missed(st, rs, c, e) == 0
    ensures c in st.closed ==> c in Run(st, rs).closed
    decreases |rs|
  {
    hide Serve, Served, Sane, Found;
    if rs != [] {
      var next := Serve(st, rs[0]);
      ListenerMissesNothing(next, rs[1..], c, e);
      if c !in next.closed {
        StillOpen(st, rs[0], c);
      } else {
        assert c in Run(st, rs).closed;
      }
      ServeCloses(st, rs[0], c);
    }
  }

  /** An event for a user or for everybody, published on any servers: once nothing is on its way and the hub of
      a connection's user on a server has taken its queue, the connection has got the event once for each time
      it was published, less the times it was missed; and a connection that listened when the event was taken
      missed none, unless its channel filled up and was closed. */
  lemma EventReachesConnection(cfg: C.Config, steps: seq<C.Step>, s: nat, st: State, rs: seq<Request>, c: WebConn,
                               e: C.Event)
    requires cfg.Valid() && s < |cfg.hubs| && (e.userId == NOBODY || e.userId == c.userId)
    requires C.Possible(cfg, C.Silence(cfg), steps) && C.Quiet(C.Run(cfg, C.Silence(cfg), steps))
    requires C.Sized(cfg, C.Run(cfg, C.Silence(cfg), steps)) && Runnable(st, rs)
    requires Taken(rs) == C.Run(cfg, C.Silence(cfg), steps).hubs[s][cfg.HubFor(s, c.userId)]
    ensures var published := Copies(Queue(st, c), e) + Besides(st, rs, c, e) + C.Published(steps, C.Broadcast(e));
      && Copies(Got(st, rs, c), e) + Missed(st, rs, c, e) == published
      && (Listening(st, rs, c, e) ==> c in Run(st, rs).closed || Copies(Got(st, rs, c), e) == published)
  {
    hide C.Possible, C.Run, C.Quiet, Runnable, Run, Listening, Missed, Besides, Copies, Got, Taken, Queue;
    DeliveredAsTaken(st, rs, c, e);
    C.FanOutOnce(cfg, steps, s, cfg.HubFor(s, c.userId), C.Broadcast(e));
    if Listening(st, rs, c, e) { ListenerMissesNothing(st, rs, c, e); }
  }

  lemma CopiesOfOne(m: Message, e: C.Event)
    ensures Copies([m], e) == if m.Event? && Carried(m) == e then 1 else 0
  {
    assert [m][1..] == [];
  }

  lemma {:induction false} NothingBesides(st: State, rs: seq<Request>, c: WebConn, e: C.Event)
    requires Runnable(st, rs) && e.id != 0
    requires forall r :: r in rs && r.Direct? && r.wc == c && r.msg.Event? ==> Carried(r.msg) != e
    ensures Besides(st, rs, c, e) == 0
    decreases |rs|
  {
    hide Serve, Served, Sane, Found;
    if rs != [] {
      assert rs[0] in rs;
      CopiesOfOne(Hello(c), e);
      if rs[0].Direct? { CopiesOfOne(rs[0].msg, e); }
      NothingBesides(Serve(st, rs[0]), rs[1..], c, e);
    }
  }

  /** From the start of a hub, events of their own id and not sent to single connections: a connection that
      listened got the event exactly as often as it was published, or its channel was closed. */
  lemma EventReachesOnce(cfg: C.Config, steps: seq<C.Step>, s: nat, rs: seq<Request>, c: WebConn, e: C.Event)
    requires cfg.Valid() && s < |cfg.hubs| && (e.userId == NOBODY || e.userId == c.userId) && e.id != 0
    requires C.Possible(cfg, C.Silence(cfg), steps) && C.Quiet(C.Run(cfg, C.Silence(cfg), steps))
    requires C.Sized(cfg, C.Run(cfg, C.Silence(cfg), steps))
    requires Runnable(NEW_HUB, rs) && Listening(NEW_HUB, rs, c, e)
    requires forall r :: r in rs && r.Direct? && r.wc == c && r.msg.Event? ==> Carried(r.msg) != e
    requires Taken(rs) == C.Run(cfg, C.Silence(cfg), steps).hubs[s][cfg.HubFor(s, c.userId)]
    ensures c in Run(NEW_HUB, rs).closed || Copies(Got(NEW_HUB, rs, c), e) == C.Published(steps, C.Broadcast(e))
  {
    hide C.Possible, C.Run, C.Quiet, Runnable, Run, Listening, Missed, Besides, Copies, Got, Taken;
    NothingBesides(NEW_HUB, rs, c, e);
    NoCopies(e);
    EventReachesConnection(cfg, steps, s, NEW_HUB, rs, c, e);
  }
}
