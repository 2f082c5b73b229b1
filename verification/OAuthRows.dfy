/** What every OAuth call writes: which sessions, access data and codes it ends and which it makes. */
module OAuthRows {
  import opened Wrappers
  import opened OAuthTokens

  // ---- When a call succeeds ----

  predicate Authentic(st: State, clientId: Id, secret: string) { clientId in st.apps && st.apps[clientId] == secret }

  predicate Redeems(st: State, op: Op, now: nat) {
    && op.Exchange? && Authentic(st, op.clientId, op.secret) && op.code in st.codes
    && now <= st.codes[op.code].expiresAt && st.codes[op.code].redirectUri == op.redirectUri
    && st.codes[op.code].userId in st.accounts
  }

  // The access data of the app and the user who allowed it, when there is any that has not expired.
  predicate Current(st: State, op: Op, now: nat, t: Id)
    requires op.Exchange? && op.code in st.codes
  {
    && t in st.rows && st.rows[t].clientId == op.clientId && st.rows[t].userId == st.codes[op.code].userId
    && (st.rows[t].expiresAt == 0 || now <= st.rows[t].expiresAt)
  }

  ghost predicate Draws(st: State, op: Op, now: nat) { Redeems(st, op, now) && !exists t :: Current(st, op, now, t) }

  predicate Rotates(st: State, op: Op, t: Id) {
    && op.Refresh? && Authentic(st, op.clientId, op.secret)
    && t in st.rows && st.rows[t].refreshToken == op.refreshToken && st.rows[t].userId in st.accounts
  }

  // The session of the pair that an exchange replaces, since it has expired.
  ghost predicate Replaces(st: State, op: Op, now: nat, t: Id) {
    && Draws(st, op, now) && t in st.rows
    && st.rows[t].clientId == op.clientId && st.rows[t].userId == st.codes[op.code].userId
  }

  ghost predicate Ends(st: State, op: Op, now: nat, t: Id)
    requires t in st.sessions
  {
    match op
    case EndSession(token) => token == t
    case CloseAccount(u) => st.sessions[t].userId == u
    case Deauthorize(u, c) => t in st.rows && st.rows[t].clientId == c && st.rows[t].userId == u
    case DeleteApp(c) => t in st.rows && st.rows[t].clientId == c
    case Refresh(_, _, _, _) => Rotates(st, op, t)
    case Exchange(_, _, _, _, _) => Replaces(st, op, now, t)
    case _ => false
  }

  // ---- What it writes ----

  // An id that was in use, and the row it stands for, whichever table that is.
  lemma SessionsEnd(st: State, op: Op, now: nat, t: Id)
    requires Linked(st) && Callable(st, op) && t in st.sessions && !op.Exchange? && !op.Refresh?
    ensures var r := Do(st, op, now);
      && (t in r.sessions <==> !Ends(st, op, now, t)) && (t in r.sessions ==> r.sessions[t] == st.sessions[t])
      && (t in r.rows <==> t in st.rows && t in r.sessions) && (t in r.rows ==> r.rows[t] == st.rows[t])
  {
    hide Exchanged, Refreshed;
  }

  lemma RefreshEnds(st: State, op: Op, now: nat, t: Id)
    requires Linked(st) && Callable(st, op) && t in st.sessions && op.Refresh?
    ensures var r := Do(st, op, now);
      && (t in r.sessions <==> !Ends(st, op, now, t)) && (t in r.sessions ==> r.sessions[t] == st.sessions[t])
      && (t in r.rows <==> t in st.rows && t in r.sessions) && (t in r.rows ==> r.rows[t] == st.rows[t])
  {
    forall u | u in TokensFor(st, op.refreshToken) ensures TokensFor(st, op.refreshToken) == {u} { OnlyToken(st, u); }
    if t in st.rows && st.rows[t].refreshToken == op.refreshToken { assert t in TokensFor(st, op.refreshToken); }
  }

  lemma ExchangeEnds(st: State, op: Op, now: nat, t: Id)
    requires Linked(st) && Callable(st, op) && t in st.sessions && op.Exchange?
    ensures var r := Do(st, op, now);
      && (t in r.sessions <==> !Ends(st, op, now, t)) && (t in r.sessions ==> r.sessions[t] == st.sessions[t])
      && (t in r.rows <==> t in st.rows && t in r.sessions) && (t in r.rows ==> r.rows[t] == st.rows[t])
  {
    if op.code in st.codes { DrawsWhenExpired(st, op, now); }
  }

  // The one pair there may be is current, or is replaced.
  lemma DrawsWhenExpired(st: State, op: Op, now: nat)
    requires Linked(st) && op.Exchange? && op.code in st.codes
    ensures var prior := TokensOf(st, op.clientId, st.codes[op.code].userId);
      && (forall t :: t in prior ==> prior == {t})
      && ((exists t :: Current(st, op, now, t)) <==>
            exists t :: t in prior && (st.rows[t].expiresAt == 0 || now <= st.rows[t].expiresAt))
  {
    var prior := TokensOf(st, op.clientId, st.codes[op.code].userId);
    forall t | t in prior ensures prior == {t} { OnlyToken(st, t); }
    forall t ensures Current(st, op, now, t) <==>
      t in prior && (st.rows[t].expiresAt == 0 || now <= st.rows[t].expiresAt) {
    }
  }

  /** A session, and its access data, ends exactly by being signed out, with its account, with the access of its app
      for its user or for all, or by being replaced; else both stay as they are. */
  lemma StepEnds(st: State, op: Op, now: nat, t: Id)
    requires Linked(st) && Callable(st, op) && t in st.sessions
    ensures var r := Do(st, op, now);
      && (t in r.sessions <==> !Ends(st, op, now, t)) && (t in r.sessions ==> r.sessions[t] == st.sessions[t])
      && (t in r.rows <==> t in st.rows && t in r.sessions) && (t in r.rows ==> r.rows[t] == st.rows[t])
  {
    hide Linked, Callable, Do;
    match op
    case Exchange(_, _, _, _, _) => ExchangeEnds(st, op, now, t);
    case Refresh(_, _, _, _) => RefreshEnds(st, op, now, t);
    case _ => SessionsEnd(st, op, now, t);
  }

  // A token that an exchange or a refresh draws, for the right app and user and with what was drawn.
  predicate Stands(r: State, t: Id, clientId: Id, userId: UserId, d: Draw) {
    && t == d.token && t in r.sessions && r.sessions[t] == Session(userId, true)
    && t in r.rows && r.rows[t] == AccessData(clientId, userId, d.refreshToken, d.expiresAt)
  }

  ghost predicate MadeByExchange(st: State, r: State, op: Op, now: nat, t: Id)
    requires op.Exchange?
  {
    && (t in r.sessions <==> Draws(st, op, now) && t == op.draw.token)
    && (t in r.sessions ==> Stands(r, t, op.clientId, st.codes[op.code].userId, op.draw))
  }

  ghost predicate MadeByRefresh(st: State, r: State, op: Op, t: Id)
    requires op.Refresh?
  {
    && (t in r.sessions <==> t == op.draw.token && exists u :: Rotates(st, op, u))
    && (forall u :: Rotates(st, op, u) && t == op.draw.token ==>
          Stands(r, t, st.rows[u].clientId, st.rows[u].userId, op.draw))
  }

  predicate MadeBySigningIn(r: State, op: Op, t: Id) {
    && (t in r.sessions <==> op.SignIn? && op.token == t) && t !in r.rows
    && (op.SignIn? && op.token == t ==> r.sessions[t] == Session(op.userId, false))
  }

  lemma ExchangeMakes(st: State, op: Op, now: nat, t: Id)
    requires Linked(st) && Callable(st, op) && t !in st.sessions && op.Exchange?
    ensures MadeByExchange(st, Do(st, op, now), op, now, t)
  {
    if op.code in st.codes { DrawsWhenExpired(st, op, now); }
  }

  lemma RefreshMakes(st: State, op: Op, now: nat, t: Id)
    requires Linked(st) && Callable(st, op) && t !in st.sessions && op.Refresh?
    ensures MadeByRefresh(st, Do(st, op, now), op, t)
  {
    forall u | u in TokensFor(st, op.refreshToken) ensures TokensFor(st, op.refreshToken) == {u} { OnlyToken(st, u); }
    forall u ensures Rotates(st, op, u) <==>
      && u in TokensFor(st, op.refreshToken) && Authentic(st, op.clientId, op.secret)
      && st.rows[u].userId in st.accounts
    {
    }
  }

  lemma OthersMake(st: State, op: Op, now: nat, t: Id)
    requires Linked(st) && Callable(st, op) && t !in st.sessions && !op.Exchange? && !op.Refresh?
    ensures MadeBySigningIn(Do(st, op, now), op, t)
  {
    hide Exchanged, Refreshed;
  }

  /** A session that was not there was signed in to, or drawn by an exchange or a refresh that succeeded. */
  lemma StepMakes(st: State, op: Op, now: nat, t: Id)
    requires Linked(st) && Callable(st, op) && t !in st.sessions
    ensures var r := Do(st, op, now);
      if op.Exchange? then MadeByExchange(st, r, op, now, t)
      else if op.Refresh? then MadeByRefresh(st, r, op, t)
      else MadeBySigningIn(r, op, t)
  {
    hide Linked, Callable, Do, MadeByExchange, MadeByRefresh, MadeBySigningIn;
    match op
    case Exchange(_, _, _, _, _) => ExchangeMakes(st, op, now, t);
    case Refresh(_, _, _, _) => RefreshMakes(st, op, now, t);
    case _ => OthersMake(st, op, now, t);
  }

  /** A code is made when an app that exists is allowed, and goes when it is exchanged, or when its app asks for an
      exchange after its time. */
  lemma StepCodes(st: State, op: Op, now: nat, code: Id)
    requires Linked(st) && Callable(st, op)
    ensures var r := Do(st, op, now);
      && (code in r.codes <==>
            || (op.Allow? && op.code == code && op.auth.clientId in st.apps)
            || (code in st.codes && !(op.Exchange? && op.code == code &&
                  (Redeems(st, op, now)
                   || (Authentic(st, op.clientId, op.secret) && now > st.codes[code].expiresAt)))))
      && (code in r.codes ==> r.codes[code] == if op.Allow? && op.code == code && op.auth.clientId in st.apps
                                               then op.auth else st.codes[code])
  {
    hide Linked;
  }

  /** Apps and accounts are those opened and not deleted since. */
  lemma StepOpens(st: State, op: Op, now: nat, id: Id)
    ensures var r := Do(st, op, now);
      && (id in r.apps <==> (op.AddApp? && op.clientId == id) || (id in st.apps && op != DeleteApp(id)))
      && (id in r.apps ==> r.apps[id] == if op.AddApp? && op.clientId == id then op.secret else st.apps[id])
      && (id in r.accounts <==> op == OpenAccount(id) || (id in st.accounts && op != CloseAccount(id)))
  {
  }

  /** What an exchange answers: the current pair, or the one drawn. */
  lemma ExchangeAnswers(st: State, op: Op, now: nat)
    requires Linked(st) && op.Exchange?
    ensures var a := Exchanged(st, op.clientId, op.secret, op.redirectUri, op.code, now, op.draw).response;
      && (a.Some? <==> Redeems(st, op, now))
      && (Draws(st, op, now) ==> a == Some(Response(op.draw.token, op.draw.refreshToken)))
      && forall t :: Redeems(st, op, now) && Current(st, op, now, t) ==> a == Some(Response(t, st.rows[t].refreshToken))
  {
    if op.code in st.codes {
      DrawsWhenExpired(st, op, now);
      forall t | Current(st, op, now, t) ensures t in TokensOf(st, op.clientId, st.codes[op.code].userId) {
      }
    }
  }
}
