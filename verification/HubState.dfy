/** What a web-socket hub holds, as values, and what each request to its event loop does to it. */
module HubState {
  import opened HubIndex

  const NOBODY: UserId := 0
  const SEND_QUEUE_SIZE := 256

  // Whom an event is for: one user, or everybody but some, or the members of a team.
  datatype Broadcast = Broadcast(userId: UserId, omitUsers: set<UserId>, teamId: nat)

  datatype Message =
    | Event(id: nat, inbox: bool, to: Broadcast)
    | Response(id: nat)

  // What a walk over the connections meets at each of them: whether its session is valid, its teams, and how
  // many messages its pump has taken since the walk began. What a pump takes after its connection was
  // visited is taken as well after the walk.
  datatype Walk = Walk(valid: set<WebConn>, teams: map<WebConn, set<nat>>, taken: map<WebConn, nat>)

  // The connections in the index, the buffered send channel of every connection made so far, the channels
  // closed, the connections that hold a cached session, and those hung up when the hub stopped.
  datatype State = State(registered: set<WebConn>, queues: map<WebConn, seq<Message>>, closed: set<WebConn>,
                         cached: set<WebConn>, hungUp: set<WebConn>, stopped: bool)

  const NEW_HUB := State({}, map[], {}, {}, {}, false)

  datatype Request =
    | Register(wc: WebConn, authenticated: bool)
    | Unregister(wc: WebConn)
    | Invalidate(userId: UserId)
    | Direct(wc: WebConn, msg: Message)
    | Publish(msg: Message, now: Walk)
    | Stop
    | Take(wc: WebConn)  // the write pump receives one message; the pumps run beside the loop

  predicate ShouldSend(wc: WebConn, msg: Message, now: Walk) {
    && msg.Event?
    && wc in now.valid
    && if msg.to.userId != NOBODY then
         wc.userId == msg.to.userId
       else
         wc.userId !in msg.to.omitUsers && (msg.to.teamId == 0 || (wc in now.teams && msg.to.teamId in now.teams[wc]))
  }

  function Hello(wc: WebConn): Message { Event(0, false, Broadcast(wc.userId, {}, 0)) }

  ghost predicate Sane(st: State) {
    && st.registered <= st.queues.Keys && st.closed <= st.queues.Keys
    && st.registered !! st.closed
    && forall c :: c in st.queues ==> |st.queues[c]| <= SEND_QUEUE_SIZE
  }

  predicate Full(q: seq<Message>) { |q| >= SEND_QUEUE_SIZE }

  // How much of a queue the pump has taken when the walk reaches the connection, and what is left.
  function Gone(q: seq<Message>, c: WebConn, now: Walk): (n: nat)
    ensures n <= |q|
  {
    if c !in now.taken then 0 else if now.taken[c] <= |q| then now.taken[c] else |q|
  }

  function Rest(q: seq<Message>, c: WebConn, now: Walk): seq<Message> { q[Gone(q, c, now)..] }

  // A non-blocking send to a registered connection: a full channel is closed and forgotten instead.
  function Offered(st: State, c: WebConn, msg: Message): State
    requires c in st.queues
  {
    if Full(st.queues[c]) then st.(registered := st.registered - {c}, closed := st.closed + {c})
    else st.(queues := st.queues[c := st.queues[c] + [msg]])
  }

  function Visited(st: State, c: WebConn, msg: Message, now: Walk): State
    requires c in st.queues
  {
    var drained := st.(queues := st.queues[c := Rest(st.queues[c], c, now)]);
    if ShouldSend(c, msg, now) then Offered(drained, c, msg) else drained
  }

  // The event offered, all at once and once each, to the connections of an audience that should have it.
  ghost function Spread(st: State, msg: Message, now: Walk, audience: set<WebConn>): State
    requires audience <= st.queues.Keys
  {
    var losers := set c | c in audience && ShouldSend(c, msg, now) && Full(Rest(st.queues[c], c, now));
    st.(registered := st.registered - losers, closed := st.closed + losers,
        queues := map c | c in st.queues ::
          if c !in audience then st.queues[c]
          else if ShouldSend(c, msg, now) && !Full(Rest(st.queues[c], c, now)) then Rest(st.queues[c], c, now) + [msg]
          else Rest(st.queues[c], c, now))
  }

  lemma SpreadToNobody(st: State, msg: Message, now: Walk)
    ensures Spread(st, msg, now, {}) == st
  {
    var r := Spread(st, msg, now, {});
    assert r.queues == st.queues && r.registered == st.registered && r.closed == st.closed;
  }

  // Visiting one more connection, whatever the order of the visits.
  lemma SpreadToOneMore(st: State, msg: Message, now: Walk, done: set<WebConn>, c: WebConn)
    requires done <= st.queues.Keys && c in st.queues && c !in done && c in st.registered
    ensures var before := Spread(st, msg, now, done);
      && c in before.registered && c in before.queues && before.queues[c] == st.queues[c]
      && (c in before.closed <==> c in st.closed)
      && Spread(st, msg, now, done + {c}) == Visited(before, c, msg, now)
  {
    var before, after := Spread(st, msg, now, done), Spread(st, msg, now, done + {c});
    var expected := Visited(before, c, msg, now);
    assert after.queues == expected.queues;
    assert after.registered == expected.registered;
    assert after.closed == expected.closed;
  }

  // Whom the loop visits: the connections of the user an event is for, or all. No other should have it.
  function Audience(st: State, msg: Message): set<WebConn> {
    set c | c in st.registered && (msg.Event? && msg.to.userId != NOBODY ==> c.userId == msg.to.userId)
  }

  lemma AudienceIsEnough(st: State, msg: Message, now: Walk)
    ensures forall c :: c in st.registered && ShouldSend(c, msg, now) ==> c in Audience(st, msg)
  {
  }

  // A connection enters the index with a new channel and its session, and is greeted if that is valid.
  function Enrolled(st: State, wc: WebConn, authenticated: bool): State {
    st.(registered := st.registered + {wc}, cached := st.cached + {wc},
        queues := st.queues[wc := if authenticated then [Hello(wc)] else []])
  }

  // Each connection registers once, after it is made; a stopped hub serves nobody.
  predicate Served(st: State, r: Request) {
    (st.stopped ==> r.Take?) &&
    match r
    case Register(wc, _) => wc !in st.queues
    case Publish(msg, _) => msg.Event?
    case _ => true
  }

  ghost function Serve(st: State, r: Request): State
    requires Sane(st) && Served(st, r)
  {
    match r
    case Register(wc, authenticated) => Enrolled(st, wc, authenticated)
    case Unregister(wc) => st.(registered := st.registered - {wc})
    case Invalidate(u) => st.(cached := st.cached - set c | c in st.registered && c.userId == u)
    case Direct(wc, msg) => if wc in st.registered then Offered(st, wc, msg) else st
    case Publish(msg, now) => Spread(st, msg, now, Audience(st, msg))
    case Stop => st.(hungUp := st.hungUp + st.registered, stopped := true)
    case Take(wc) =>
      if wc in st.queues && st.queues[wc] != [] then st.(queues := st.queues[wc := st.queues[wc][1..]]) else st
  }

  // ---- Runs of the event loop ----

  ghost predicate Runnable(st: State, rs: seq<Request>)
    decreases |rs|
  {
    Sane(st) && (rs != [] ==> Served(st, rs[0]) && Runnable(Serve(st, rs[0]), rs[1..]))
  }

  ghost function Run(st: State, rs: seq<Request>): State
    requires Runnable(st, rs)
    decreases |rs|
  {
    if rs == [] then st else Run(Serve(st, rs[0]), rs[1..])
  }

  function Queue(st: State, c: WebConn): seq<Message> { if c in st.queues then st.queues[c] else [] }

  // Whether a request should send a message to c, and what is in the channel at that moment.
  predicate Sends(st: State, r: Request, c: WebConn) {
    c in st.registered && ((r.Direct? && r.wc == c) || (r.Publish? && ShouldSend(c, r.msg, r.now)))
  }

  function Found(st: State, r: Request, c: WebConn): seq<Message> {
    if r.Publish? then Rest(Queue(st, c), c, r.now) else Queue(st, c)
  }

  // What a request should put into the channel of c: the greeting at registration, and later only
  // what c is registered for and has room for.
  function Due(st: State, r: Request, c: WebConn): seq<Message> {
    if r.Register? && r.wc == c && r.authenticated then [Hello(c)]
    else if Sends(st, r, c) && !Full(Found(st, r, c)) then [r.msg]
    else []
  }

  function Received(st: State, r: Request, c: WebConn): seq<Message> {
    if r == Take(c) && Queue(st, c) != [] then [Queue(st, c)[0]]
    else if r.Publish? && c in Audience(st, r.msg) then Queue(st, c)[..Gone(Queue(st, c), c, r.now)]
    else []
  }

  lemma ServeDelivers(st: State, r: Request, c: WebConn)
    requires Sane(st) && Served(st, r)
    ensures Received(st, r, c) + Queue(Serve(st, r), c) == Queue(st, c) + Due(st, r, c)
  {
    match r
    case Publish(msg, now) =>
      var q := Queue(st, c);
      assert q[..Gone(q, c, now)] + Rest(q, c, now) == q;
      AudienceIsEnough(st, msg, now);
    case _ =>
  }

  ghost function AllDue(st: State, rs: seq<Request>, c: WebConn): seq<Message>
    requires Runnable(st, rs)
    decreases |rs|
  {
    if rs == [] then [] else Due(st, rs[0], c) + AllDue(Serve(st, rs[0]), rs[1..], c)
  }

  ghost function AllReceived(st: State, rs: seq<Request>, c: WebConn): seq<Message>
    requires Runnable(st, rs)
    decreases |rs|
  {
    if rs == [] then [] else Received(st, rs[0], c) + AllReceived(Serve(st, rs[0]), rs[1..], c)
  }

  // Over any run a pump receives, in order and once each, just the messages due to its connection,
  // and those it has not received yet are what the channel holds.
  lemma {:induction false} RunDelivers(st: State, rs: seq<Request>, c: WebConn)
    requires Runnable(st, rs)
    ensures AllReceived(st, rs, c) + Queue(Run(st, rs), c) == Queue(st, c) + AllDue(st, rs, c)
    decreases |rs|
  {
    hide Serve, Due, Received, Queue, Sane, Served;
    if rs != [] {
      var next := Serve(st, rs[0]);
      ServeDelivers(st, rs[0], c);
      RunDelivers(next, rs[1..], c);
      calc {
        Received(st, rs[0], c) + AllReceived(next, rs[1..], c) + Queue(Run(st, rs), c);
        Received(st, rs[0], c) + (AllReceived(next, rs[1..], c) + Queue(Run(st, rs), c));
        Received(st, rs[0], c) + Queue(next, c) + AllDue(next, rs[1..], c);
      }
    }
  }

  // A connection that has left the index never comes back, nothing more is sent to its channel, and
  // a channel once closed stays closed.
  lemma {:induction false} GoneForGood(st: State, rs: seq<Request>, c: WebConn)
    requires Runnable(st, rs) && c in st.queues && c !in st.registered
    ensures c !in Run(st, rs).registered && AllDue(st, rs, c) == []
    ensures c in Run(st, rs).closed <==> c in st.closed
    decreases |rs|
  {
    if rs != [] {
      StaysAway(st, rs[0], c);
      GoneForGood(Serve(st, rs[0]), rs[1..], c);
    }
  }

  lemma StaysAway(st: State, r: Request, c: WebConn)
    requires Sane(st) && Served(st, r) && c in st.queues && c !in st.registered
    ensures c in Serve(st, r).queues && c !in Serve(st, r).registered && Due(st, r, c) == []
    ensures c in Serve(st, r).closed <==> c in st.closed
  {
  }

  // How often a run finds the channel of c full with a message to send, and closes it.
  ghost function Closings(st: State, rs: seq<Request>, c: WebConn): nat
    requires Runnable(st, rs)
    decreases |rs|
  {
    if rs == [] then 0
    else (if Sends(st, rs[0], c) && Full(Found(st, rs[0], c)) then 1 else 0) + Closings(Serve(st, rs[0]), rs[1..], c)
  }

  lemma ServeCloses(st: State, r: Request, c: WebConn)
    requires Sane(st) && Served(st, r)
    ensures c in Serve(st, r).closed <==> c in st.closed || (Sends(st, r, c) && Full(Found(st, r, c)))
    ensures c in st.closed ==> !Sends(st, r, c)
  {
    if r.Publish? { AudienceIsEnough(st, r.msg, r.now); }
  }

  // Over any run a channel is closed at most once: by the first message that finds it full, and by nothing else.
  lemma {:induction false} ClosedAtMostOnce(st: State, rs: seq<Request>, c: WebConn)
    requires Runnable(st, rs)
    ensures Closings(st, rs, c) + (if c in st.closed then 1 else 0) == if c in Run(st, rs).closed then 1 else 0
    decreases |rs|
  {
    hide Serve, Sends, Found, Sane, Served;
    if rs != [] {
      ServeCloses(st, rs[0], c);
      ClosedAtMostOnce(Serve(st, rs[0]), rs[1..], c);
    }
  }
}
