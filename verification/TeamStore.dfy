/** The team members table behind its count cache, and the membership calls that work on it, row by row. */
module TeamStore {
  import opened Teams

  class TeamStore {
    const maxUsersPerTeam: int
    var rows: map<Key, Member>
    var accounts: map<UserId, bool>
    var counts: map<TeamId, nat>

    ghost function T(): State
      reads this
    {
      State(rows, accounts, counts)
    }

    constructor (maxUsersPerTeam: int)
      ensures this.maxUsersPerTeam == maxUsersPerTeam && T() == State(map[], map[], map[])
      ensures Capped(T(), maxUsersPerTeam)
    {
      this.maxUsersPerTeam := maxUsersPerTeam;
      rows, accounts, counts := map[], map[], map[];
    }

    function CountActive(t: TeamId): nat
      reads this
    {
      |Active(State(rows, accounts, counts), t)|
    }

    method GetActiveMemberCount(t: TeamId) returns (count: nat)
      modifies this`counts
      ensures count == Counted(old(T()), t)
      ensures T() == old(T()).(counts := old(counts)[t := count])
    {
      if t in counts {
        count := counts[t];
        assert counts == counts[t := count];
        return;
      }
      count := CountActive(t);
      counts := counts[t := count];
    }

    method CountPerTeam(batch: seq<NewMember>) returns (newTeamMembers: map<TeamId, nat>)
      ensures newTeamMembers.Keys == TeamsOf(batch)
      ensures forall t :: t in newTeamMembers ==> newTeamMembers[t] == NewIn(batch, t)
    {
      newTeamMembers := map[];
      for i := 0 to |batch|
        invariant newTeamMembers.Keys == TeamsOf(batch[..i])
        invariant forall t :: t in newTeamMembers ==> newTeamMembers[t] == 0
      {
        newTeamMembers := newTeamMembers[batch[i].key.team := 0];
        TeamsOfMore(batch, i);
      }
      assert batch[..|batch|] == batch;
      for i := 0 to |batch|
        invariant newTeamMembers.Keys == TeamsOf(batch)
        invariant forall t :: t in newTeamMembers ==> newTeamMembers[t] == NewIn(batch[..i], t)
      {
        assert batch[i] in batch && batch[..i + 1][..i] == batch[..i];
        newTeamMembers := newTeamMembers[batch[i].key.team := newTeamMembers[batch[i].key.team] + 1];
      }
    }

    method HaveRoom(batch: seq<NewMember>) returns (ok: bool)
      ensures ok == Fits(T(), batch, maxUsersPerTeam)
    {
      hide NewIn, Active;
      if maxUsersPerTeam < 0 { return true; }
      var newTeamMembers := CountPerTeam(batch);
      var teams := newTeamMembers.Keys;
      while teams != {}
        invariant teams <= newTeamMembers.Keys
        invariant forall t :: t in newTeamMembers.Keys - teams ==> CountActive(t) + newTeamMembers[t] <= maxUsersPerTeam
        decreases teams
      {
        var t :| t in teams;
        if CountActive(t) + newTeamMembers[t] > maxUsersPerTeam {
          OverCap(T(), batch, maxUsersPerTeam, t);
          return false;
        }
        teams := teams - {t};
      }
      return true;
    }

    method InsertAll(batch: seq<NewMember>) returns (ok: bool)
      modifies this`rows
      ensures ok == AllNew(old(rows), batch)
      ensures rows == if ok then Inserted(old(rows), batch) else old(rows)
    {
      var inserted := rows;
      for i := 0 to |batch|
        invariant inserted == Inserted(rows, batch[..i]) && AllNew(rows, batch[..i])
        invariant forall key :: key in inserted <==> key in rows || exists j :: 0 <= j < i && batch[j].key == key
      {
        if batch[i].key in inserted { return false; }
        assert batch[..i + 1][..i] == batch[..i];
        inserted := inserted[batch[i].key := Member(batch[i].kind, 0, 0)];
      }
      assert batch[..|batch|] == batch;
      rows := inserted;
      return true;
    }

    // Every team of the batch is checked before any row is written, and a row that is there already
    // undoes the whole insert.
    method SaveMultipleMembers(batch: seq<NewMember>) returns (ok: bool)
      modifies this`rows, this`counts
      ensures Outcome(ok, T()) == SavedAll(old(T()), batch, maxUsersPerTeam)
    {
      hide Fits, AllNew, Inserted;
      ok := HaveRoom(batch);
      if !ok { return; }
      ok := InsertAll(batch);
      if !ok { return; }
      for i := 0 to |batch|
        invariant rows == Inserted(old(rows), batch) && counts == old(counts) - TeamsOf(batch[..i])
      {
        counts := counts - {batch[i].key.team};
        TeamsOfMore(batch, i);
      }
      assert batch[..|batch|] == batch;
    }

    method UpdateMember(key: Key, m: Member)
      requires key in rows
      modifies this`rows, this`counts
      ensures T() == old(T()).(rows := old(rows)[key := m], counts := old(counts) - {key.team})
    {
      rows := rows[key := m];
      counts := counts - {key.team};
    }

    method JoinUserToTeam(t: TeamId, u: UserId, isAdmin: bool) returns (ok: bool)
      modifies this`rows, this`counts
      ensures Outcome(ok, T()) == Joined(old(T()), t, u, isAdmin, maxUsersPerTeam)
    {
      var key, kind := Key(t, u), if isAdmin then Admin else Normal;
      if key !in rows {
        ok := SaveMultipleMembers([NewMember(key, kind)]);
        return;
      }
      var rtm := rows[key];
      if rtm.deleteAt == 0 { return true; }
      var membersCount := GetActiveMemberCount(t);
      if membersCount >= maxUsersPerTeam { return false; }
      UpdateMember(key, Member(kind, rtm.points, 0));
      assert counts == old(counts) - {t};
      return true;
    }

    method LeaveTeam(t: TeamId, u: UserId, now: nat) returns (ok: bool)
      modifies this`rows, this`counts
      ensures Outcome(ok, T()) == Left(old(T()), t, u, now)
    {
      var key := Key(t, u);
      if key !in rows || rows[key].kind == Admin { return false; }
      UpdateMember(key, rows[key].(kind := NoKind, deleteAt := now));
      return true;
    }

    method UpdateTeamMemberType(t: TeamId, u: UserId, kind: Kind) returns (ok: bool)
      modifies this`rows, this`counts
      ensures Outcome(ok, T()) == KindSet(old(T()), t, u, kind)
    {
      var key := Key(t, u);
      if key !in rows || rows[key].kind == kind { return false; }
      var admins := |Admins(State(rows, accounts, counts), t)|;
      var fetched := if admins < 10 then admins else 10;
      if rows[key].kind == Admin && kind != Admin && fetched <= 1 { return false; }
      UpdateMember(key, rows[key].(kind := kind));
      return true;
    }
  }

  lemma TeamsOfMore(batch: seq<NewMember>, i: nat)
    requires i < |batch|
    ensures TeamsOf(batch[..i + 1]) == TeamsOf(batch[..i]) + {batch[i].key.team}
  {
    assert batch[..i + 1] == batch[..i] + [batch[i]];
  }

  lemma OverCap(st: State, batch: seq<NewMember>, max: int, t: TeamId)
    requires max >= 0 && t in TeamsOf(batch) && |Active(st, t)| + NewIn(batch, t) > max
    ensures !Fits(st, batch, max)
  {
  }
}
