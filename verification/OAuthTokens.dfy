/** OAuth authorization codes, access and refresh tokens, and the sessions they stand for. Every id and token
    is drawn at random; drawn remembers those that exist, so that a new one can be told to be new. */
module OAuthTokens {
  import opened Wrappers

  type Id = nat
  type UserId = nat

  datatype AuthData = AuthData(clientId: Id, userId: UserId, redirectUri: string, expiresAt: nat)
  datatype AccessData = AccessData(clientId: Id, userId: UserId, refreshToken: Id, expiresAt: nat)
  datatype Session = Session(userId: UserId, isOAuth: bool)

  // Codes, access data and sessions are keyed by code and by token.
  datatype State = State(apps: map<Id, string>, accounts: set<UserId>, codes: map<Id, AuthData>,
                         rows: map<Id, AccessData>, sessions: map<Id, Session>, drawn: set<Id>)

  datatype Response = Response(accessToken: Id, refreshToken: Id)

  datatype Outcome = Outcome(response: Option<Response>, st: State)

  // The tokens to draw, should the call need them, and when the session would expire.
  datatype Draw = Draw(token: Id, refreshToken: Id, expiresAt: nat)

  datatype Op =
    | AddApp(clientId: Id, secret: string)
    | OpenAccount(userId: UserId)
    | CloseAccount(userId: UserId)
    | Allow(auth: AuthData, code: Id)
    | Exchange(clientId: Id, secret: string, redirectUri: string, code: Id, draw: Draw)
    | Refresh(clientId: Id, secret: string, refreshToken: Id, draw: Draw)
    | SignIn(userId: UserId, token: Id)
    | EndSession(token: Id)
    | Deauthorize(userId: UserId, clientId: Id)
    | DeleteApp(clientId: Id)

  // ---- The steps ----

  predicate IsNew(st: State, d: Draw) {
    d.token !in st.drawn && d.refreshToken !in st.drawn && d.token != d.refreshToken
  }

  predicate Expired(expiresAt: nat, now: nat) { expiresAt > 0 && now > expiresAt }

  function TokensOf(st: State, clientId: Id, userId: UserId): set<Id> {
    set t | t in st.rows && st.rows[t].clientId == clientId && st.rows[t].userId == userId
  }

  function TokensOfApp(st: State, clientId: Id): set<Id> {
    set t | t in st.rows && st.rows[t].clientId == clientId
  }

  function SessionsOf(st: State, userId: UserId): set<Id> {
    set t | t in st.sessions && st.sessions[t].userId == userId
  }

  function TokensFor(st: State, refreshToken: Id): set<Id> {
    set t | t in st.rows && st.rows[t].refreshToken == refreshToken
  }

  // A new session, and the access data that goes with it in place of what was there under prior.
  function Renewed(st: State, prior: set<Id>, clientId: Id, userId: UserId, d: Draw): State {
    st.(sessions := (st.sessions - prior)[d.token := Session(userId, true)],
        rows := (st.rows - prior)[d.token := AccessData(clientId, userId, d.refreshToken, d.expiresAt)],
        drawn := st.drawn + {d.token, d.refreshToken})
  }

  function WithoutCode(st: State, code: Id): State { st.(codes := st.codes - {code}) }

  // A code for an access token. A pair of tokens that has not expired is given out again.
  ghost function Exchanged(st: State, clientId: Id, secret: string, redirectUri: string, code: Id, now: nat,
                           d: Draw): Outcome {
    if clientId !in st.apps || st.apps[clientId] != secret || code !in st.codes then Outcome(None, st)
    else
      var auth := st.codes[code];
      if now > auth.expiresAt then Outcome(None, WithoutCode(st, code))
      else if auth.redirectUri != redirectUri || auth.userId !in st.accounts then Outcome(None, st)
      else
        var prior := TokensOf(st, clientId, auth.userId);
        if prior == {} then
          Outcome(Some(Response(d.token, d.refreshToken)), WithoutCode(Renewed(st, {}, clientId, auth.userId, d), code))
        else
          var t :| t in prior;
          if Expired(st.rows[t].expiresAt, now) then
            Outcome(Some(Response(d.token, d.refreshToken)),
                    WithoutCode(Renewed(st, {t}, clientId, auth.userId, d), code))
          else Outcome(Some(Response(t, st.rows[t].refreshToken)), WithoutCode(st, code))
  }

  ghost function Refreshed(st: State, clientId: Id, secret: string, refreshToken: Id, d: Draw): Outcome {
    var prior := TokensFor(st, refreshToken);
    if clientId !in st.apps || st.apps[clientId] != secret || prior == {} then Outcome(None, st)
    else
      var t :| t in prior;
      if st.rows[t].userId !in st.accounts then Outcome(None, st)
      else
        Outcome(Some(Response(d.token, d.refreshToken)), Renewed(st, {t}, st.rows[t].clientId, st.rows[t].userId, d))
  }

  function Ended(st: State, tokens: set<Id>): State {
    st.(sessions := st.sessions - tokens, rows := st.rows - tokens)
  }

  predicate Callable(st: State, op: Op) {
    match op
    case AddApp(c, _) => c !in st.apps
    case Allow(auth, code) => code !in st.drawn
    case Exchange(_, _, _, _, d) => IsNew(st, d)
    case Refresh(_, _, _, d) => IsNew(st, d)
    case SignIn(_, token) => token !in st.drawn
    case _ => true
  }

  ghost function Do(st: State, op: Op, now: nat): State {
    match op
    case AddApp(c, secret) => st.(apps := st.apps[c := secret])
    case OpenAccount(u) => st.(accounts := st.accounts + {u})
    case CloseAccount(u) => Ended(st.(accounts := st.accounts - {u}), SessionsOf(st, u))
    case Allow(auth, code) =>
      if auth.clientId in st.apps then st.(codes := st.codes[code := auth], drawn := st.drawn + {code}) else st
    case Exchange(c, secret, uri, code, d) => Exchanged(st, c, secret, uri, code, now, d).st
    case Refresh(c, secret, r, d) => Refreshed(st, c, secret, r, d).st
    case SignIn(u, token) => st.(sessions := st.sessions[token := Session(u, false)], drawn := st.drawn + {token})
    case EndSession(token) => Ended(st, if token in st.sessions then {token} else {})
    case Deauthorize(u, c) => Ended(st, TokensOf(st, c, u))
    case DeleteApp(c) => Ended(st.(apps := st.apps - {c}), TokensOfApp(st, c))
  }

  datatype Call = Call(op: Op, now: nat)

  ghost predicate Possible(st: State, calls: seq<Call>)
    decreases |calls|
  {
    calls != [] ==> Callable(st, calls[0].op) && Possible(Do(st, calls[0].op, calls[0].now), calls[1..])
  }

  ghost function Run(st: State, calls: seq<Call>): State
    requires Possible(st, calls)
    decreases |calls|
  {
    if calls == [] then st else Run(Do(st, calls[0].op, calls[0].now), calls[1..])
  }

  // ---- One access data row per OAuth session, one per app and user ----

  ghost predicate Linked(st: State) {
    && (forall t :: t in st.rows ==> t in st.sessions && st.sessions[t] == Session(st.rows[t].userId, true))
    && (forall t :: t in st.sessions && st.sessions[t].isOAuth ==> t in st.rows)
    && (forall t, u :: t in st.rows && u in st.rows && SameGrant(st.rows[t], st.rows[u]) ==> t == u)
    && (forall t, u :: t in st.rows && u in st.rows && st.rows[t].refreshToken == st.rows[u].refreshToken ==> t == u)
    && Known(st)
  }

  predicate SameGrant(a: AccessData, b: AccessData) { a.clientId == b.clientId && a.userId == b.userId }

  ghost predicate Known(st: State) {
    && st.sessions.Keys <= st.drawn && st.rows.Keys <= st.drawn && st.codes.Keys <= st.drawn
    && (forall t :: t in st.rows ==> st.rows[t].refreshToken in st.drawn)
  }

  // New tokens may replace the prior ones of the same app and user, and must when there are any.
  lemma RenewedLinked(st: State, prior: set<Id>, clientId: Id, userId: UserId, d: Draw)
    requires Linked(st) && IsNew(st, d) && TokensOf(st, clientId, userId) == prior
    ensures Linked(Renewed(st, prior, clientId, userId, d))
  {
    forall t | t in st.rows && st.rows[t].clientId == clientId && st.rows[t].userId == userId ensures t in prior {
      assert t in TokensOf(st, clientId, userId);
    }
  }

  lemma EndedLinked(st: State, tokens: set<Id>)
    requires Linked(st)
    ensures Linked(Ended(st, tokens))
  {
  }

  lemma OnlyToken(st: State, t: Id)
    requires Linked(st) && t in st.rows
    ensures TokensOf(st, st.rows[t].clientId, st.rows[t].userId) == {t}
    ensures TokensFor(st, st.rows[t].refreshToken) == {t}
  {
  }

  lemma ExchangedLinked(st: State, clientId: Id, secret: string, redirectUri: string, code: Id, now: nat, d: Draw)
    requires Linked(st) && IsNew(st, d)
    ensures Linked(Exchanged(st, clientId, secret, redirectUri, code, now, d).st)
  {
    hide Renewed;
    if code in st.codes && clientId in st.apps {
      var prior := TokensOf(st, clientId, st.codes[code].userId);
      forall t | t in prior ensures prior == {t} { OnlyToken(st, t); }
      if prior == {} || exists t :: t in prior && prior == {t} {
        RenewedLinked(st, prior, clientId, st.codes[code].userId, d);
      }
    }
  }

  lemma RefreshedLinked(st: State, clientId: Id, secret: string, refreshToken: Id, d: Draw)
    requires Linked(st) && IsNew(st, d)
    ensures Linked(Refreshed(st, clientId, secret, refreshToken, d).st)
  {
    hide Renewed, Linked, IsNew;
    forall t | t in TokensFor(st, refreshToken)
      ensures Linked(Renewed(st, {t}, st.rows[t].clientId, st.rows[t].userId, d))
    {
      OnlyToken(st, t);
      RenewedLinked(st, {t}, st.rows[t].clientId, st.rows[t].userId, d);
    }
  }

  lemma OthersLinked(st: State, op: Op, now: nat)
    requires Linked(st) && Callable(st, op) && (op.AddApp? || op.OpenAccount? || op.Allow? || op.SignIn?)
    ensures Linked(Do(st, op, now))
  {
    hide Exchanged, Refreshed, Ended;
  }

  lemma StepKeepsLinked(st: State, op: Op, now: nat)
    requires Linked(st) && Callable(st, op)
    ensures Linked(Do(st, op, now))
  {
    hide Linked, Exchanged, Refreshed, Ended, IsNew;
    match op
    case Exchange(c, secret, uri, code, d) => ExchangedLinked(st, c, secret, uri, code, now, d);
    case Refresh(c, secret, r, d) => RefreshedLinked(st, c, secret, r, d);
    case CloseAccount(u) =>
      AccountsLinked(st, st.accounts - {u}); EndedLinked(st.(accounts := st.accounts - {u}), SessionsOf(st, u));
    case EndSession(token) => EndedLinked(st, if token in st.sessions then {token} else {});
    case Deauthorize(u, c) => EndedLinked(st, TokensOf(st, c, u));
    case DeleteApp(c) => AppsLinked(st, st.apps - {c}); EndedLinked(st.(apps := st.apps - {c}), TokensOfApp(st, c));
    case _ => OthersLinked(st, op, now);
  }

  lemma AccountsLinked(st: State, accounts: set<UserId>)
    requires Linked(st)
    ensures Linked(st.(accounts := accounts))
  {
  }

  lemma AppsLinked(st: State, apps: map<Id, string>)
    requires Linked(st)
    ensures Linked(st.(apps := apps))
  {
  }

  lemma {:induction false} RunKeepsLinked(st: State, calls: seq<Call>)
    requires Linked(st) && Possible(st, calls)
    ensures Linked(Run(st, calls))
    decreases |calls|
  {
    hide Linked, Do, Callable;
    if calls != [] {
      StepKeepsLinked(st, calls[0].op, calls[0].now);
      RunKeepsLinked(Do(st, calls[0].op, calls[0].now), calls[1..]);
    }
  }

  // ---- What is retired stays retired ----

  // An id that was drawn and is no code, no session and no refresh token any more.
  ghost predicate Retired(st: State, id: Id) {
    && id in st.drawn && id !in st.codes && id !in st.sessions && id !in st.rows
    && forall t :: t in st.rows ==> st.rows[t].refreshToken != id
  }

  lemma StepKeepsRetired(st: State, op: Op, now: nat, id: Id)
    requires Linked(st) && Callable(st, op) && Retired(st, id)
    ensures Retired(Do(st, op, now), id)
  {
  }

  lemma {:induction false} RunKeepsRetired(st: State, calls: seq<Call>, id: Id)
    requires Linked(st) && Possible(st, calls) && Retired(st, id)
    ensures Retired(Run(st, calls), id)
    decreases |calls|
  {
    hide Linked, Do, Callable, Retired;
    if calls != [] {
      StepKeepsLinked(st, calls[0].op, calls[0].now);
      StepKeepsRetired(st, calls[0].op, calls[0].now, id);
      RunKeepsRetired(Do(st, calls[0].op, calls[0].now), calls[1..], id);
    }
  }

  // Codes, session tokens and refresh tokens are never the same id.
  ghost predicate Apart(st: State) {
    && st.codes.Keys !! st.sessions.Keys
    && forall t :: t in st.rows ==> st.rows[t].refreshToken !in st.codes && st.rows[t].refreshToken !in st.sessions
  }

  lemma StepKeepsApart(st: State, op: Op, now: nat)
    requires Linked(st) && Apart(st) && Callable(st, op)
    ensures Apart(Do(st, op, now))
  {
  }

  lemma {:induction false} RunKeepsApart(st: State, calls: seq<Call>)
    requires Linked(st) && Apart(st) && Possible(st, calls)
    ensures Apart(Run(st, calls))
    decreases |calls|
  {
    hide Linked, Apart, Do, Callable;
    if calls != [] {
      StepKeepsLinked(st, calls[0].op, calls[0].now);
      StepKeepsApart(st, calls[0].op, calls[0].now);
      RunKeepsApart(Do(st, calls[0].op, calls[0].now), calls[1..]);
    }
  }

  // A refresh that succeeds puts an end to the pair of tokens it was asked with (section 6 of RFC 6749),
  // and to no other session.
  lemma RefreshRotates(st: State, clientId: Id, secret: string, refreshToken: Id, d: Draw, t: Id)
    requires Linked(st) && Apart(st) && IsNew(st, d) && t in st.rows && st.rows[t].refreshToken == refreshToken
    ensures var r := Refreshed(st, clientId, secret, refreshToken, d);
      && (r.response.Some? <==> clientId in st.apps && st.apps[clientId] == secret && st.rows[t].userId in st.accounts)
      && (r.response.Some? ==>
            && Retired(r.st, t) && Retired(r.st, refreshToken)
            && r.response.value == Response(d.token, d.refreshToken)
            && Granted(r.st, r.response.value, st.rows[t].clientId, st.rows[t].userId)
            && r.st.sessions.Keys == st.sessions.Keys - {t} + {r.response.value.accessToken})
  {
    OnlyToken(st, t);
  }

  // A pair of tokens that works: a session, its access data, and the refresh token filed with it.
  ghost predicate Granted(st: State, r: Response, clientId: Id, userId: UserId) {
    && r.accessToken in st.sessions && st.sessions[r.accessToken] == Session(userId, true)
    && r.accessToken in st.rows && st.rows[r.accessToken].clientId == clientId
    && st.rows[r.accessToken].userId == userId && st.rows[r.accessToken].refreshToken == r.refreshToken
  }

  predicate Redeemable(st: State, clientId: Id, secret: string, redirectUri: string, code: Id, now: nat) {
    && clientId in st.apps && st.apps[clientId] == secret
    && code in st.codes && now <= st.codes[code].expiresAt && st.codes[code].redirectUri == redirectUri
    && st.codes[code].userId in st.accounts
  }

  // An exchange succeeds exactly for a redeemable code, gives a pair of tokens that works for the user who
  // allowed it, a new pair just when there is none that has not expired, and spends the code; the only session it
  // may end is the one of the pair it replaces.
  lemma ExchangeGrants(st: State, clientId: Id, secret: string, redirectUri: string, code: Id, now: nat, d: Draw)
    requires Linked(st) && Apart(st) && IsNew(st, d)
    ensures var r := Exchanged(st, clientId, secret, redirectUri, code, now, d);
      && (r.response.Some? <==> Redeemable(st, clientId, secret, redirectUri, code, now))
      && (r.response.Some? ==>
            && Retired(r.st, code) && Granted(r.st, r.response.value, clientId, st.codes[code].userId)
            && (r.response.value.accessToken == d.token <==>
                  forall t :: t in TokensOf(st, clientId, st.codes[code].userId) ==> Expired(st.rows[t].expiresAt, now))
            && st.sessions.Keys - r.st.sessions.Keys <= TokensOf(st, clientId, st.codes[code].userId))
  {
    if code in st.codes {
      var prior := TokensOf(st, clientId, st.codes[code].userId);
      forall t | t in prior ensures prior == {t} { OnlyToken(st, t); }
    }
  }

  // Whatever happens after a code was exchanged, it is not exchanged again (section 4.1.2 of RFC 6749).
  lemma CodeIsSpent(st: State, clientId: Id, secret: string, redirectUri: string, code: Id, now: nat, d: Draw,
                    calls: seq<Call>, clientId': Id, secret': string, redirectUri': string, now': nat, d': Draw)
    requires Linked(st) && Apart(st) && IsNew(st, d) && Redeemable(st, clientId, secret, redirectUri, code, now)
    requires Possible(Exchanged(st, clientId, secret, redirectUri, code, now, d).st, calls)
    ensures var later := Run(Exchanged(st, clientId, secret, redirectUri, code, now, d).st, calls);
      Exchanged(later, clientId', secret', redirectUri', code, now', d').response == None
  {
    hide Linked, Apart, Run, Possible, Redeemable, IsNew, Renewed;
    ExchangeGrants(st, clientId, secret, redirectUri, code, now, d);
    ExchangedLinked(st, clientId, secret, redirectUri, code, now, d);
    RunKeepsRetired(Exchanged(st, clientId, secret, redirectUri, code, now, d).st, calls, code);
  }

  // Section 6 of RFC 6749 binds a refresh token to the client it was issued to, and section 4.1.3 a code. The
  // calls ask for the secret of the app that makes them and do not compare it with the app of the row: the
  // token stays with its client exactly when it is that client that asks, or the call is refused anyway.
  lemma RefreshBoundToClient(st: State, clientId: Id, secret: string, refreshToken: Id, d: Draw, t: Id)
    requires Linked(st) && Apart(st) && IsNew(st, d) && t in st.rows && st.rows[t].refreshToken == refreshToken
    ensures var r, own := Refreshed(st, clientId, secret, refreshToken, d).response, st.rows[t].clientId == clientId;
      (r.Some? ==> own) <==>
      (own || clientId !in st.apps || st.apps[clientId] != secret || st.rows[t].userId !in st.accounts)
  {
    RefreshRotates(st, clientId, secret, refreshToken, d, t);
  }

  lemma ExchangeBoundToClient(st: State, clientId: Id, secret: string, redirectUri: string, code: Id, now: nat, d: Draw)
    requires Linked(st) && Apart(st) && IsNew(st, d) && code in st.codes
    ensures var r := Exchanged(st, clientId, secret, redirectUri, code, now, d).response;
      (r.Some? ==> st.codes[code].clientId == clientId) <==>
      (st.codes[code].clientId == clientId || !Redeemable(st, clientId, secret, redirectUri, code, now))
  {
    ExchangeGrants(st, clientId, secret, redirectUri, code, now, d);
  }

  // Two apps and a user, who allows the first.
  function Allowed(): seq<Call> {
    [Call(AddApp(1, "a"), 1)] + ([Call(AddApp(2, "b"), 2)] + ([Call(OpenAccount(5), 3)] +
    ([Call(Allow(AuthData(1, 5, "u", 100), 10), 4)] + [])))
  }

  /** The second app exchanges the code of the first, and the first refreshes the token of the second. */
  lemma OtherAppExchanges()
    ensures var none := State(map[], {}, map[], map[], map[], {});
      && Linked(none) && Possible(none, Allowed())
      && var st := Run(none, Allowed());
      && 10 in st.codes && st.codes[10].clientId == 1
      && var r := Exchanged(st, 2, "b", "u", 10, 5, Draw(11, 12, 100));
      && r.response == Some(Response(11, 12)) && 11 in r.st.rows && r.st.rows[11].clientId == 2
      && Refreshed(r.st, 1, "a", 12, Draw(13, 14, 100)).response == Some(Response(13, 14))
  {
    hide Run, Possible, Exchanged, Refreshed, Linked, Apart;
    var st0 := State(map[], {}, map[], map[], map[], {});
    var st1 := st0.(apps := map[1 := "a"]);
    var st2 := st1.(apps := map[1 := "a", 2 := "b"]);
    var st3 := st2.(accounts := {5});
    var st4 := st3.(codes := map[10 := AuthData(1, 5, "u", 100)], drawn := {10});
    var c4 := [Call(Allow(AuthData(1, 5, "u", 100), 10), 4)] + [];
    var c3 := [Call(OpenAccount(5), 3)] + c4;
    NoCalls(st4);
    FirstCall(st3, Call(Allow(AuthData(1, 5, "u", 100), 10), 4), st4, [], st4);
    FirstCall(st2, Call(OpenAccount(5), 3), st3, c4, st4);
    FirstCall(st1, Call(AddApp(2, "b"), 2), st2, c3, st4);
    FirstCall(st0, Call(AddApp(1, "a"), 1), st1, [Call(AddApp(2, "b"), 2)] + c3, st4);
    NothingLinked();
    RunKeepsLinked(st0, Allowed());
    RunKeepsApart(st0, Allowed());
    FirstExchange(st4, 2, "b", "u", 10, 5, Draw(11, 12, 100));
    ExchangedLinked(st4, 2, "b", "u", 10, 5, Draw(11, 12, 100));
    ExchangedApart(st4, 2, "b", "u", 10, 5, Draw(11, 12, 100));
    RefreshRotates(Exchanged(st4, 2, "b", "u", 10, 5, Draw(11, 12, 100)).st, 1, "a", 12, Draw(13, 14, 100), 11);
  }

  lemma NothingLinked()
    ensures Linked(State(map[], {}, map[], map[], map[], {})) && Apart(State(map[], {}, map[], map[], map[], {}))
  {
  }

  lemma ExchangedApart(st: State, clientId: Id, secret: string, redirectUri: string, code: Id, now: nat, d: Draw)
    requires Linked(st) && Apart(st) && IsNew(st, d)
    ensures Apart(Exchanged(st, clientId, secret, redirectUri, code, now, d).st)
  {
    hide Exchanged, Refreshed;
    StepKeepsApart(st, Exchange(clientId, secret, redirectUri, code, d), now);
  }

  lemma FirstExchange(st: State, clientId: Id, secret: string, redirectUri: string, code: Id, now: nat, d: Draw)
    requires Redeemable(st, clientId, secret, redirectUri, code, now) && st.rows == map[]
    ensures var r := Exchanged(st, clientId, secret, redirectUri, code, now, d);
      && r.response == Some(Response(d.token, d.refreshToken)) && r.st.apps == st.apps && r.st.accounts == st.accounts
      && r.st.rows == map[d.token := AccessData(clientId, st.codes[code].userId, d.refreshToken, d.expiresAt)]
      && r.st.drawn == st.drawn + {d.token, d.refreshToken}
  {
  }

  lemma NoCalls(st: State)
    ensures Possible(st, []) && Run(st, []) == st
  {
  }

  lemma FirstCall(st: State, c: Call, next: State, rest: seq<Call>, last: State)
    requires Callable(st, c.op) && Do(st, c.op, c.now) == next && Possible(next, rest) && Run(next, rest) == last
    ensures Possible(st, [c] + rest) && Run(st, [c] + rest) == last
  {
    hide Do, Callable;
    assert ([c] + rest)[1..] == rest;
  }

  // Taking the access of an app away, for one user or for all, ends its sessions and no others.
  lemma AccessEnds(st: State, op: Op, now: nat, t: Id)
    requires Linked(st) && t in st.sessions && (op.Deauthorize? || op.DeleteApp?)
    ensures t !in Do(st, op, now).sessions <==>
      (st.sessions[t].isOAuth && st.rows[t].clientId == op.clientId
       && (op.Deauthorize? ==> st.sessions[t].userId == op.userId))
    ensures op.Deauthorize? ==> TokensOf(Do(st, op, now), op.clientId, op.userId) == {}
    ensures op.DeleteApp? ==> TokensOfApp(Do(st, op, now), op.clientId) == {}
  {
  }

  // Closing an account leaves it no session and no access data.
  lemma AccountEnds(st: State, u: UserId, now: nat)
    requires Linked(st)
    ensures var r := Do(st, CloseAccount(u), now);
      SessionsOf(r, u) == {} && (forall t :: t in r.rows ==> r.rows[t].userId != u) &&
      forall t :: t in st.sessions && st.sessions[t].userId != u ==> t in r.sessions
  {
  }
}
