/** The OAuth calls on the tables: rows are removed, added and overwritten one after the other. */
module OAuthStore {
  import opened OAuthTokens
  import opened Wrappers

  class OAuthStore {
    var apps: map<Id, string>
    var accounts: set<UserId>
    var codes: map<Id, AuthData>
    var rows: map<Id, AccessData>
    var sessions: map<Id, Session>
    ghost var drawn: set<Id>

    ghost function T(): State
      reads this
    {
      State(apps, accounts, codes, rows, sessions, drawn)
    }

    constructor ()
      ensures T() == State(map[], {}, map[], map[], map[], {}) && Linked(T()) && Apart(T())
    {
      apps, accounts, codes, rows, sessions, drawn := map[], {}, map[], map[], map[], {};
    }

    method NewSession(u: UserId, d: Draw)
      modifies this`sessions, this`drawn
      ensures sessions == old(sessions)[d.token := Session(u, true)] && drawn == old(drawn) + {d.token}
    {
      sessions := sessions[d.token := Session(u, true)];
      drawn := drawn + {d.token};
    }

    // UPDATE ... WHERE ClientId AND UserId: the row moves to its new token.
    method UpdateAccessData(was: Id, a: AccessData, d: Draw)
      requires was in rows && TokensOf(T(), a.clientId, a.userId) == {was}
      modifies this`rows, this`drawn
      ensures rows == (old(rows) - {was})[d.token := a] && drawn == old(drawn) + {d.refreshToken}
    {
      rows := rows - {was};
      rows := rows[d.token := a];
      drawn := drawn + {d.refreshToken};
    }

    method NewSessionUpdateToken(was: Id, d: Draw) returns (r: Response)
      requires Linked(T()) && IsNew(T(), d) && was in rows
      modifies this
      ensures r == Response(d.token, d.refreshToken)
      ensures T() == Renewed(old(T()), {was}, old(rows)[was].clientId, old(rows)[was].userId, d)
    {
      var accessData := rows[was];
      OnlyToken(T(), was);
      sessions := sessions - {was};
      NewSession(accessData.userId, d);
      UpdateAccessData(was, AccessData(accessData.clientId, accessData.userId, d.refreshToken, d.expiresAt), d);
      r := Response(d.token, d.refreshToken);
      assert drawn == old(drawn) + {d.token, d.refreshToken};
    }

    method GetAccessTokenForCode(clientId: Id, secret: string, redirectUri: string, code: Id, now: nat, d: Draw)
      returns (r: Option<Response>)
      requires Linked(T()) && IsNew(T(), d)
      modifies this
      ensures Outcome(r, T()) == Exchanged(old(T()), clientId, secret, redirectUri, code, now, d)
    {
      hide Linked;
      if clientId !in apps || apps[clientId] != secret { return None; }
      if code !in codes { return None; }
      var auth := codes[code];
      if now > auth.expiresAt {
        codes := codes - {code};
        return None;
      }
      if auth.redirectUri != redirectUri { return None; }
      if auth.userId !in accounts { return None; }
      var prior := set t | t in rows && rows[t].clientId == clientId && rows[t].userId == auth.userId;
      assert prior == TokensOf(T(), clientId, auth.userId);
      if prior != {} {
        var t :| t in prior;
        OnlyToken(T(), t);
        if Expired(rows[t].expiresAt, now) {
          var renewed := NewSessionUpdateToken(t, d);
          r := Some(renewed);
        } else {
          r := Some(Response(t, rows[t].refreshToken));
        }
      } else {
        NewSession(auth.userId, d);
        rows := rows[d.token := AccessData(clientId, auth.userId, d.refreshToken, d.expiresAt)];
        drawn := drawn + {d.refreshToken};
        r := Some(Response(d.token, d.refreshToken));
        assert drawn == old(drawn) + {d.token, d.refreshToken};
      }
      codes := codes - {code};
    }

    method GetAccessTokenForRefresh(clientId: Id, secret: string, refreshToken: Id, d: Draw)
      returns (r: Option<Response>)
      requires Linked(T()) && IsNew(T(), d)
      modifies this
      ensures Outcome(r, T()) == Refreshed(old(T()), clientId, secret, refreshToken, d)
    {
      hide Linked;
      if clientId !in apps || apps[clientId] != secret { return None; }
      var prior := set t | t in rows && rows[t].refreshToken == refreshToken;
      assert prior == TokensFor(T(), refreshToken);
      if prior == {} { return None; }
      var t :| t in prior;
      OnlyToken(T(), t);
      if rows[t].userId !in accounts { return None; }
      var renewed := NewSessionUpdateToken(t, d);
      r := Some(renewed);
    }

    // The session goes in any case; a token without access data is then reported.
    method RevokeAccessToken(token: Id) returns (ok: bool)
      modifies this`sessions, this`rows
      ensures ok <==> token in old(rows)
      ensures T() == Ended(old(T()), {token})
    {
      sessions := sessions - {token};
      if token !in rows {
        assert rows == rows - {token};
        return false;
      }
      rows := rows - {token};
      return true;
    }

    method RevokeSession(token: Id) returns (ok: bool)
      requires Linked(T()) && token in sessions
      modifies this`sessions, this`rows
      ensures ok && T() == Ended(old(T()), {token})
    {
      if sessions[token].isOAuth {
        ok := RevokeAccessToken(token);
      } else {
        sessions := sessions - {token};
        ok := true;
        assert rows - {token} == rows;
      }
    }

    method RevokeAllSessions(u: UserId)
      requires Linked(T())
      modifies this`sessions, this`rows
      ensures T() == Ended(old(T()), SessionsOf(old(T()), u))
    {
      var all := set t | t in sessions && sessions[t].userId == u;
      assert all == SessionsOf(T(), u);
      var left := all;
      while left != {}
        invariant left <= all && T() == Ended(old(T()), all - left)
        decreases left
      {
        var t :| t in left;
        if sessions[t].isOAuth {
          var _ := RevokeAccessToken(t);
        } else {
          sessions := sessions - {t};
        }
        left := left - {t};
        assert sessions == old(sessions) - (all - left) && rows == old(rows) - (all - left);
      }
      assert all - {} == all;
    }

    method DeauthorizeOAuthAppForUser(u: UserId, clientId: Id) returns (ok: bool)
      modifies this`sessions, this`rows
      ensures ok && T() == Ended(old(T()), TokensOf(old(T()), clientId, u))
    {
      var all := set t | t in rows && rows[t].clientId == clientId && rows[t].userId == u;
      assert all == TokensOf(T(), clientId, u);
      var left := all;
      while left != {}
        invariant left <= all && T() == Ended(old(T()), all - left)
        decreases left
      {
        var t :| t in left;
        var revoked := RevokeAccessToken(t);
        if !revoked { return false; }
        rows := rows - {t};
        left := left - {t};
        assert sessions == old(sessions) - (all - left) && rows == old(rows) - (all - left);
      }
      assert all - {} == all;
      return true;
    }

    // The sessions are found through the access data, which must therefore go after them.
    method DeleteApp(clientId: Id)
      modifies this`apps, this`sessions, this`rows
      ensures T() == Ended(old(T()).(apps := old(apps) - {clientId}), TokensOfApp(old(T()), clientId))
    {
      apps := apps - {clientId};
      sessions := sessions - (set t | t in sessions && t in rows && rows[t].clientId == clientId);
      rows := rows - (set t | t in rows && rows[t].clientId == clientId);
    }
  }
}
