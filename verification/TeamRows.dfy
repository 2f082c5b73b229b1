/** What every membership call writes, and when it is refused, in terms of the rows themselves. */
module TeamRows {
  import opened Teams

  // The users with a live account and an active row in a team, and the admins among them.
  ghost function Present(st: State, t: TeamId): set<UserId> {
    set u | u in st.accounts && st.accounts[u] && Key(t, u) in st.rows && st.rows[Key(t, u)].deleteAt == 0
  }

  ghost function InCharge(st: State, t: TeamId): set<UserId> {
    set u | u in Present(st, t) && st.rows[Key(t, u)].kind == Admin
  }

  lemma SamePeople(st: State, t: TeamId)
    ensures Active(st, t) == Present(st, t) && Admins(st, t) == InCharge(st, t)
  {
  }

  // ---- When a call is refused ----

  // Whoever has left may come back while fewer than the maximum are counted.
  ghost predicate ComesBack(st: State, op: Op, key: Key, max: int) {
    && op.Join? && Key(op.team, op.user) == key && key in st.rows && st.rows[key].deleteAt != 0
    && (if key.team in st.counts then st.counts[key.team] else |Present(st, key.team)|) < max
  }

  predicate Goes(st: State, op: Op, key: Key) {
    op.Leave? && Key(op.team, op.user) == key && key in st.rows && st.rows[key].kind != Admin
  }

  // A role changes to another one, and the last admin keeps theirs.
  ghost predicate ChangesRole(st: State, op: Op, key: Key) {
    && op.SetKind? && Key(op.team, op.user) == key && key in st.rows && st.rows[key].kind != op.kind
    && (st.rows[key].kind == Admin ==> |InCharge(st, key.team)| >= 2)
  }

  lemma LeaveServed(st: State, t: TeamId, u: UserId, now: nat)
    ensures Left(st, t, u, now).ok <==> Goes(st, Leave(t, u), Key(t, u))
    ensures !Left(st, t, u, now).ok ==> Left(st, t, u, now).st == st
  {
  }

  lemma RoleServed(st: State, t: TeamId, u: UserId, kind: Kind)
    ensures KindSet(st, t, u, kind).ok <==> ChangesRole(st, SetKind(t, u, kind), Key(t, u))
    ensures !KindSet(st, t, u, kind).ok ==> KindSet(st, t, u, kind).st == st
  {
    SamePeople(st, t);
  }

  // How many of a batch join a team.
  ghost function Joining(batch: seq<NewMember>, t: TeamId): set<nat> {
    set i: nat | i < |batch| && batch[i].key.team == t
  }

  lemma {:induction false} JoiningCounted(batch: seq<NewMember>, t: TeamId)
    ensures |Joining(batch, t)| == NewIn(batch, t)
  {
    if batch == [] {
      assert Joining(batch, t) == {};
    } else {
      var n := |batch| - 1;
      JoiningCounted(batch[..n], t);
      assert Joining(batch, t) == Joining(batch[..n], t) + if batch[n].key.team == t then {n} else {};
    }
  }

  /** A batch is inserted exactly when all its rows are new and, under a cap, no team of it gets too many. */
  lemma BatchServed(st: State, batch: seq<NewMember>, max: int)
    ensures SavedAll(st, batch, max).ok <==>
      && (forall i :: 0 <= i < |batch| ==> batch[i].key !in st.rows)
      && (forall i, j :: 0 <= i < j < |batch| ==> batch[i].key != batch[j].key)
      && (max >= 0 ==> forall m :: m in batch ==> |Present(st, m.key.team)| + |Joining(batch, m.key.team)| <= max)
    ensures !SavedAll(st, batch, max).ok ==> SavedAll(st, batch, max).st == st
  {
    hide Active, Present, Joining, NewIn;
    forall m | m in batch
      ensures |Active(st, m.key.team)| + NewIn(batch, m.key.team)
           == |Present(st, m.key.team)| + |Joining(batch, m.key.team)|
    {
      SamePeople(st, m.key.team);
      JoiningCounted(batch, m.key.team);
    }
  }

  /** Joining succeeds for who is in already, for a newcomer while there is room, and for who comes back while the
      count, which may be a cached one, leaves room. */
  lemma JoinServed(st: State, t: TeamId, u: UserId, isAdmin: bool, max: int)
    ensures var key := Key(t, u);
      Joined(st, t, u, isAdmin, max).ok <==>
        if key !in st.rows then max < 0 || |Present(st, t)| < max
        else st.rows[key].deleteAt == 0 || ComesBack(st, Join(t, u, isAdmin), key, max)
  {
    hide Present;
    SamePeople(st, t);
    var m := NewMember(Key(t, u), if isAdmin then Admin else Normal);
    if Key(t, u) !in st.rows {
      assert [m][..0] == [];
      assert NewIn([m], t) == 1 + NewIn([], t);
      assert m in [m];
    }
  }

  // ---- What a call writes ----

  predicate Same(a: Member, b: Member) { a.kind == b.kind && a.deleteAt == b.deleteAt }

  lemma {:induction false} OldRowsStay(rows: map<Key, Member>, batch: seq<NewMember>, key: Key)
    requires AllNew(rows, batch) && key in rows
    ensures key in Inserted(rows, batch) && Inserted(rows, batch)[key] == rows[key]
  {
    if batch != [] {
      OldRowsStay(rows, batch[..|batch| - 1], key);
    }
  }

  /** The role and the state of a membership after any call: coming back gives the role asked for, leaving takes
      it, a change of role sets it, and nothing else touches either. */
  lemma StepWrites(st: State, op: Op, now: nat, max: int, key: Key)
    requires key in st.rows
    ensures var rows := Do(st, op, now, max).rows;
      && key in rows
      && var a, b := st.rows[key], rows[key];
      && (ComesBack(st, op, key, max) ==> b.kind == (if op.isAdmin then Admin else Normal) && b.deleteAt == 0)
      && (Goes(st, op, key) ==> b.kind == NoKind && b.deleteAt == now)
      && (ChangesRole(st, op, key) ==> b.kind == op.kind && b.deleteAt == a.deleteAt)
      && (!ComesBack(st, op, key, max) && !Goes(st, op, key) && !ChangesRole(st, op, key) ==> Same(a, b))
  {
    hide Active, Admins, Fits, InCharge, Present, Inserted, AllNew;
    SamePeople(st, key.team);
    if op.SaveMembers? && AllNew(st.rows, op.batch) { OldRowsStay(st.rows, op.batch, key); }
    if op.Join? {
      var batch := [NewMember(Key(op.team, op.user), if op.isAdmin then Admin else Normal)];
      if AllNew(st.rows, batch) { OldRowsStay(st.rows, batch, key); }
    }
  }

  // Whom a call makes a member that was none before.
  predicate Enters(op: Op, key: Key, kind: Kind) {
    match op
    case SaveMembers(batch) => NewMember(key, kind) in batch
    case Join(t, u, isAdmin) => key == Key(t, u) && kind == if isAdmin then Admin else Normal
    case _ => false
  }

  lemma {:induction false} NewRows(rows: map<Key, Member>, batch: seq<NewMember>, key: Key)
    requires AllNew(rows, batch) && key !in rows
    ensures key in Inserted(rows, batch) <==> exists m :: m in batch && m.key == key
    ensures key in Inserted(rows, batch) ==>
      Inserted(rows, batch)[key].deleteAt == Inserted(rows, batch)[key].points == 0
      && NewMember(key, Inserted(rows, batch)[key].kind) in batch
  {
    if batch != [] {
      var n := |batch| - 1;
      NewRows(rows, batch[..n], key);
      assert batch == batch[..n] + [batch[n]];
    }
  }

  /** A row that was not there is one that the call asked for, active and without points. */
  lemma StepEnters(st: State, op: Op, now: nat, max: int, key: Key)
    requires key !in st.rows && key in Do(st, op, now, max).rows
    ensures var m := Do(st, op, now, max).rows[key]; Enters(op, key, m.kind) && m.deleteAt == m.points == 0
  {
    hide Active, Admins, Fits, Inserted;
    if op.SaveMembers? && AllNew(st.rows, op.batch) { NewRows(st.rows, op.batch, key); }
    if op.Join? {
      var batch := [NewMember(Key(op.team, op.user), if op.isAdmin then Admin else Normal)];
      if AllNew(st.rows, batch) { NewRows(st.rows, batch, key); }
    }
  }

  predicate Rewritten(st: State, r: State, key: Key)
    requires key in r.rows
  {
    key !in st.rows || !Same(st.rows[key], r.rows[key])
  }

  /** Accounts open live and are closed by deletion alone; a count is cached when it is asked for, and dropped when
      a membership of the team is written. */
  lemma StepAccounts(st: State, op: Op, now: nat, max: int, u: UserId, t: TeamId)
    ensures var r := Do(st, op, now, max);
      && (u in r.accounts <==> u in st.accounts || op == OpenAccount(u))
      && (u in r.accounts ==>
            (r.accounts[u] <==> op == OpenAccount(u) || (u in st.accounts && st.accounts[u] && op != DeleteAccount(u))))
      && (op == CountMembers(t) ==>
            t in r.counts && r.counts[t] == if t in st.counts then st.counts[t] else |Present(st, t)|)
      && (t in r.counts && t in st.counts ==> r.counts[t] == st.counts[t])
      && ((exists v :: Key(t, v) in r.rows && Rewritten(st, r, Key(t, v))) ==>
            t !in r.counts)
  {
    hide Present, Fits, Inserted, AllNew;
    var r := Do(st, op, now, max);
    SamePeople(st, t);
    if t in r.counts {
      forall v | Key(t, v) in r.rows ensures !Rewritten(st, r, Key(t, v)) {
        WrittenIsDropped(st, op, now, max, Key(t, v));
      }
    }
  }

  lemma WrittenIsDropped(st: State, op: Op, now: nat, max: int, key: Key)
    requires key in Do(st, op, now, max).rows && key.team in Do(st, op, now, max).counts
    ensures key in st.rows && Same(st.rows[key], Do(st, op, now, max).rows[key])
  {
    hide Active, Admins, Fits, Inserted;
    if key !in st.rows {
      StepEnters(st, op, now, max, key);
    } else {
      if op.SaveMembers? && AllNew(st.rows, op.batch) { OldRowsStay(st.rows, op.batch, key); }
      if op.Join? {
        var batch := [NewMember(Key(op.team, op.user), if op.isAdmin then Admin else Normal)];
        if AllNew(st.rows, batch) { OldRowsStay(st.rows, batch, key); }
      }
    }
  }

  /** Over any run under a cap no team has more people in it than that. */
  lemma RunFits(st: State, calls: seq<Call>, max: int, t: TeamId)
    requires Capped(st, max) && Possible(st, calls, max) && max >= 0
    ensures |Present(Run(st, calls, max), t)| <= max
  {
    hide Possible, Run;
    RunStaysCapped(st, calls, max);
    SamePeople(Run(st, calls, max), t);
    assert CappedTeam(Run(st, calls, max), t, max);
  }
}
