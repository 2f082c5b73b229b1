/** Team membership: joining under a cap that is checked through a cache, leaving, re-joining, and changing
    roles. Every operation is one step on the tables and the cached counts. */
module Teams {
  type TeamId = nat
  type UserId = nat

  datatype Kind = Normal | Admin | NoKind

  datatype Key = Key(team: TeamId, user: UserId)

  datatype Member = Member(kind: Kind, points: int, deleteAt: nat)

  // accounts says of each account whether it is live; counts is the cache of active member counts.
  datatype State = State(rows: map<Key, Member>, accounts: map<UserId, bool>, counts: map<TeamId, nat>)

  datatype NewMember = NewMember(key: Key, kind: Kind)

  // Whether the call succeeded, and what it left behind; a refused call may have filled the cache.
  datatype Outcome = Outcome(ok: bool, st: State)

  datatype Op =
    | OpenAccount(user: UserId)
    | DeleteAccount(user: UserId)
    | CountMembers(team: TeamId)
    | SaveMembers(batch: seq<NewMember>)
    | Join(team: TeamId, user: UserId, isAdmin: bool)
    | Leave(team: TeamId, user: UserId)
    | SetKind(team: TeamId, user: UserId, kind: Kind)
    | Award(team: TeamId, user: UserId, points: int)

  // ---- What the queries return ----

  predicate IsActive(st: State, t: TeamId, u: UserId) {
    u in st.accounts && st.accounts[u] && Key(t, u) in st.rows && st.rows[Key(t, u)].deleteAt == 0
  }

  function Active(st: State, t: TeamId): set<UserId> {
    set u | u in st.accounts && IsActive(st, t, u)
  }

  function Admins(st: State, t: TeamId): set<UserId> {
    set u | u in st.accounts && IsActive(st, t, u) && st.rows[Key(t, u)].kind == Admin
  }

  function Counted(st: State, t: TeamId): nat { if t in st.counts then st.counts[t] else |Active(st, t)| }

  // ---- The operations ----

  function NewIn(batch: seq<NewMember>, t: TeamId): nat {
    if batch == [] then 0 else (if batch[|batch| - 1].key.team == t then 1 else 0) + NewIn(batch[..|batch| - 1], t)
  }

  // A negative maximum stands for no check at all.
  ghost predicate Fits(st: State, batch: seq<NewMember>, max: int) {
    max < 0 || forall m :: m in batch ==> |Active(st, m.key.team)| + NewIn(batch, m.key.team) <= max
  }

  // The primary key refuses a row twice.
  ghost predicate AllNew(rows: map<Key, Member>, batch: seq<NewMember>) {
    && (forall i :: 0 <= i < |batch| ==> batch[i].key !in rows)
    && (forall i, j :: 0 <= i < j < |batch| ==> batch[i].key != batch[j].key)
  }

  function Inserted(rows: map<Key, Member>, batch: seq<NewMember>): map<Key, Member> {
    if batch == [] then rows
    else
      var last := batch[|batch| - 1];
      Inserted(rows, batch[..|batch| - 1])[last.key := Member(last.kind, 0, 0)]
  }

  function TeamsOf(batch: seq<NewMember>): set<TeamId> { set m | m in batch :: m.key.team }

  ghost function SavedAll(st: State, batch: seq<NewMember>, max: int): Outcome {
    if Fits(st, batch, max) && AllNew(st.rows, batch) then
      Outcome(true, st.(rows := Inserted(st.rows, batch), counts := st.counts - TeamsOf(batch)))
    else Outcome(false, st)
  }

  ghost function Joined(st: State, t: TeamId, u: UserId, isAdmin: bool, max: int): Outcome {
    var key, kind := Key(t, u), if isAdmin then Admin else Normal;
    if key !in st.rows then SavedAll(st, [NewMember(key, kind)], max)
    else if st.rows[key].deleteAt == 0 then Outcome(true, st)
    else if Counted(st, t) >= max then Outcome(false, st.(counts := st.counts[t := Counted(st, t)]))
    else
      // back in with the points of before
      Outcome(true, st.(rows := st.rows[key := Member(kind, st.rows[key].points, 0)], counts := st.counts - {t}))
  }

  function Left(st: State, t: TeamId, u: UserId, now: nat): Outcome {
    var key := Key(t, u);
    if key !in st.rows || st.rows[key].kind == Admin then Outcome(false, st)
    else
      Outcome(true,
              st.(rows := st.rows[key := st.rows[key].(kind := NoKind, deleteAt := now)], counts := st.counts - {t}))
  }

  // At most ten admins are fetched, which is enough to tell one from more.
  function KindSet(st: State, t: TeamId, u: UserId, kind: Kind): Outcome {
    var key := Key(t, u);
    if key !in st.rows || st.rows[key].kind == kind then Outcome(false, st)
    else if st.rows[key].kind == Admin && kind != Admin && |Admins(st, t)| <= 1 then Outcome(false, st)
    else Outcome(true, st.(rows := st.rows[key := st.rows[key].(kind := kind)], counts := st.counts - {t}))
  }

  predicate IsMember(st: State, key: Key) { key in st.rows && st.rows[key].deleteAt == 0 }

  // Points go to active rows only; whoever has left loses what is awarded meanwhile.
  function Awarded(st: State, t: TeamId, u: UserId, points: int): State {
    var key := Key(t, u);
    if IsMember(st, key) then st.(rows := st.rows[key := st.rows[key].(points := st.rows[key].points + points)])
    else st
  }

  // An account is opened under a new id; only live accounts ask to join; the clock is past zero.
  predicate Callable(st: State, op: Op, now: nat) {
    && now > 0
    && match op
       case OpenAccount(u) => u !in st.accounts && forall key :: key in st.rows ==> key.user != u
       case Join(_, u, _) => u in st.accounts && st.accounts[u]
       case _ => true
  }

  ghost function Do(st: State, op: Op, now: nat, max: int): State {
    match op
    case OpenAccount(u) => st.(accounts := st.accounts[u := true])
    case DeleteAccount(u) => if u in st.accounts then st.(accounts := st.accounts[u := false]) else st
    case CountMembers(t) => st.(counts := st.counts[t := Counted(st, t)])
    case SaveMembers(batch) => SavedAll(st, batch, max).st
    case Join(t, u, isAdmin) => Joined(st, t, u, isAdmin, max).st
    case Leave(t, u) => Left(st, t, u, now).st
    case SetKind(t, u, kind) => KindSet(st, t, u, kind).st
    case Award(t, u, points) => Awarded(st, t, u, points)
  }

  datatype Call = Call(op: Op, now: nat)

  ghost predicate Possible(st: State, calls: seq<Call>, max: int)
    decreases |calls|
  {
    calls != [] ==>
      Callable(st, calls[0].op, calls[0].now) && Possible(Do(st, calls[0].op, calls[0].now, max), calls[1..], max)
  }

  ghost function Run(st: State, calls: seq<Call>, max: int): State
    requires Possible(st, calls, max)
    decreases |calls|
  {
    if calls == [] then st else Run(Do(st, calls[0].op, calls[0].now, max), calls[1..], max)
  }

  // ---- The cap ----

  // No team is over the cap, if there is one, and no cached count is below the true one.
  ghost predicate Capped(st: State, max: int) { forall t: TeamId :: CappedTeam(st, t, max) }

  ghost predicate CappedTeam(st: State, t: TeamId, max: int) {
    (max >= 0 ==> |Active(st, t)| <= max) && (t in st.counts ==> |Active(st, t)| <= st.counts[t])
  }

  lemma SmallerSet<T>(a: set<T>, b: set<T>)
    requires a <= b
    ensures |a| <= |b|
  {
    if a != b {
      assert b == a + (b - a);
    }
  }

  lemma {:induction false} InsertedAdds(st: State, batch: seq<NewMember>, t: TeamId)
    requires AllNew(st.rows, batch)
    ensures |Active(st.(rows := Inserted(st.rows, batch)), t)| <= |Active(st, t)| + NewIn(batch, t)
    ensures forall key :: key in st.rows ==>
      key in Inserted(st.rows, batch) && Inserted(st.rows, batch)[key] == st.rows[key]
    ensures forall key :: key in Inserted(st.rows, batch) ==> key in st.rows || exists m :: m in batch && m.key == key
  {
    if batch != [] {
      var front, last := batch[..|batch| - 1], batch[|batch| - 1];
      InsertedAdds(st, front, t);
      var before, after := st.(rows := Inserted(st.rows, front)), st.(rows := Inserted(st.rows, batch));
      if last.key.team == t {
        SmallerSet(Active(after, t), Active(before, t) + {last.key.user});
      } else {
        SmallerSet(Active(after, t), Active(before, t));
      }
    }
  }

  lemma {:induction false} NobodyNew(batch: seq<NewMember>, t: TeamId)
    requires t !in TeamsOf(batch)
    ensures NewIn(batch, t) == 0
  {
    if batch != [] {
      assert batch[|batch| - 1] in batch;
      NobodyNew(batch[..|batch| - 1], t);
    }
  }

  lemma SavedAllCapped(st: State, batch: seq<NewMember>, max: int)
    requires Capped(st, max)
    ensures Capped(SavedAll(st, batch, max).st, max)
  {
    var r := SavedAll(st, batch, max);
    if r.ok {
      forall t: TeamId ensures CappedTeam(r.st, t, max) {
        assert CappedTeam(st, t, max);
        InsertedAdds(st, batch, t);
        assert Active(r.st, t) == Active(st.(rows := r.st.rows), t);
        if t !in TeamsOf(batch) { NobodyNew(batch, t); }
      }
    }
  }

  lemma JoinedCapped(st: State, t: TeamId, u: UserId, isAdmin: bool, max: int)
    requires Capped(st, max)
    ensures Capped(Joined(st, t, u, isAdmin, max).st, max)
  {
    hide SavedAll;
    var r := Joined(st, t, u, isAdmin, max);
    if Key(t, u) !in st.rows {
      SavedAllCapped(st, [NewMember(Key(t, u), if isAdmin then Admin else Normal)], max);
    } else {
      forall t': TeamId ensures CappedTeam(r.st, t', max) {
        assert CappedTeam(st, t', max);
        if t' != t || r.st.rows == st.rows {
          assert Active(r.st, t') == Active(st, t');
        } else {
          SmallerSet(Active(r.st, t), Active(st, t) + {u});
        }
      }
    }
  }

  // Every other operation leaves each team with no more active members than before.
  lemma OthersCapped(st: State, op: Op, now: nat, max: int)
    requires Capped(st, max) && Callable(st, op, now) && !op.Join? && !op.SaveMembers?
    ensures Capped(Do(st, op, now, max), max)
  {
    hide SavedAll, Joined, Admins;
    var r := Do(st, op, now, max);
    forall t: TeamId ensures CappedTeam(r, t, max) {
      assert CappedTeam(st, t, max);
      SmallerSet(Active(r, t), Active(st, t));
    }
  }

  lemma {:induction false} RunStaysCapped(st: State, calls: seq<Call>, max: int)
    requires Capped(st, max) && Possible(st, calls, max)
    ensures Capped(Run(st, calls, max), max)
    decreases |calls|
  {
    hide Capped, Do, Callable;
    if calls != [] {
      StepStaysCapped(st, calls[0].op, calls[0].now, max);
      RunStaysCapped(Do(st, calls[0].op, calls[0].now, max), calls[1..], max);
    }
  }

  lemma StepStaysCapped(st: State, op: Op, now: nat, max: int)
    requires Capped(st, max) && Callable(st, op, now)
    ensures Capped(Do(st, op, now, max), max)
  {
    hide Capped, SavedAll, Joined, Left, KindSet, Awarded;
    match op
    case SaveMembers(batch) => SavedAllCapped(st, batch, max);
    case Join(t, u, isAdmin) => JoinedCapped(st, t, u, isAdmin, max);
    case _ => OthersCapped(st, op, now, max);
  }

  // A team with room refuses exactly those who come back while a count from before some account was
  // deleted is still cached; and where there is no cap, exactly those who come back.
  lemma RefusedWithRoom(st: State, t: TeamId, u: UserId, isAdmin: bool, max: int)
    requires Capped(st, max) && u in st.accounts && st.accounts[u] && (max >= 0 ==> |Active(st, t)| < max)
    ensures !Joined(st, t, u, isAdmin, max).ok <==>
      Key(t, u) in st.rows && st.rows[Key(t, u)].deleteAt != 0 && (max < 0 || (t in st.counts && st.counts[t] >= max))
  {
    assert CappedTeam(st, t, max);
    var m := NewMember(Key(t, u), if isAdmin then Admin else Normal);
    assert [m][..0] == [];
    assert NewIn([m], t) == 1 + NewIn([], t);
  }

  // Without a cap an insert fails for rows that are there already, and for nothing else; it then adds an active
  // row for each new member and changes no other.
  lemma UncappedInsert(st: State, batch: seq<NewMember>, max: int)
    requires max < 0
    ensures var r := SavedAll(st, batch, max);
      && (r.ok <==> AllNew(st.rows, batch))
      && (r.ok ==> forall m :: m in batch ==> m.key in r.st.rows && r.st.rows[m.key] == Member(m.kind, 0, 0))
      && (r.ok ==> r.st.rows - (set m | m in batch :: m.key) == st.rows)
  {
    if AllNew(st.rows, batch) { InsertedRows(st.rows, batch); }
  }

  lemma {:induction false} InsertedRows(rows: map<Key, Member>, batch: seq<NewMember>)
    requires AllNew(rows, batch)
    ensures var r := Inserted(rows, batch);
      && (forall m :: m in batch ==> m.key in r && r[m.key] == Member(m.kind, 0, 0))
      && r - (set m | m in batch :: m.key) == rows
  {
    if batch != [] {
      var front, last := batch[..|batch| - 1], batch[|batch| - 1];
      InsertedRows(rows, front);
      assert batch == front + [last];
    }
  }

  // Without a cap whoever has left a team never comes back to it, whatever is called.
  lemma {:induction false} LeftForGood(st: State, calls: seq<Call>, max: int, key: Key)
    requires Possible(st, calls, max) && max < 0 && key in st.rows && !IsMember(st, key)
    ensures key in Run(st, calls, max).rows && !IsMember(Run(st, calls, max), key)
    decreases |calls|
  {
    hide Do, Callable, IsMember;
    if calls != [] {
      StaysAway(st, calls[0].op, calls[0].now, max, key);
      LeftForGood(Do(st, calls[0].op, calls[0].now, max), calls[1..], max, key);
    }
  }

  lemma StaysAway(st: State, op: Op, now: nat, max: int, key: Key)
    requires Callable(st, op, now) && max < 0 && key in st.rows && !IsMember(st, key)
    ensures key in Do(st, op, now, max).rows && !IsMember(Do(st, op, now, max), key)
  {
    hide Active, Admins, Fits;
    if op.SaveMembers? && AllNew(st.rows, op.batch) {
      InsertedAdds(st, op.batch, key.team);
    }
    if op.Join? {
      var batch := [NewMember(Key(op.team, op.user), if op.isAdmin then Admin else Normal)];
      if AllNew(st.rows, batch) { InsertedAdds(st, batch, key.team); }
    }
  }

  // No cap: user 1 joins and leaves.
  function CameAndWent(): seq<Call> {
    [Call(OpenAccount(1), 1)] + ([Call(Join(7, 1, false), 2)] + ([Call(Leave(7, 1), 3)] + []))
  }

  /** User 1 then cannot come back, although there is no cap. */
  lemma UncappedRefuses()
    ensures var none := State(map[], map[], map[]);
      && Possible(none, CameAndWent(), -1)
      && var st := Run(none, CameAndWent(), -1);
      && 1 in st.accounts && st.accounts[1] && !Joined(st, 7, 1, false, -1).ok
  {
    hide Run, Possible, SavedAll, Joined;
    var st0 := State(map[], map[], map[]);
    var st1 := st0.(accounts := map[1 := true]);
    var st2 := st1.(rows := map[Key(7, 1) := Member(Normal, 0, 0)]);
    var st3 := st1.(rows := map[Key(7, 1) := Member(NoKind, 0, 3)]);
    var c2 := [Call(Leave(7, 1), 3)] + [];
    Over(st3, -1);
    RunFirst(st2, Call(Leave(7, 1), 3), st3, [], -1, st3);
    JoinsEmpty(st1, 1, -1);
    RunFirst(st1, Call(Join(7, 1, false), 2), st2, c2, -1, st3);
    RunFirst(st0, Call(OpenAccount(1), 1), st1, [Call(Join(7, 1, false), 2)] + c2, -1, st3);
    NoWayBack(st3);
  }

  lemma NoWayBack(st: State)
    requires Key(7, 1) in st.rows && st.rows[Key(7, 1)].deleteAt != 0
    ensures !Joined(st, 7, 1, false, -1).ok
  {
  }

  // A cap of one: user 1 joins team 7 and leaves, ...
  function Comings(): seq<Call> {
    [Call(OpenAccount(1), 1)] + ([Call(OpenAccount(2), 2)] +
    ([Call(Join(7, 1, false), 3)] + ([Call(Leave(7, 1), 4)] + LaterComings())))
  }

  // ... user 2 joins, the members are counted, and the account of user 2 is deleted.
  function LaterComings(): seq<Call> {
    [Call(Join(7, 2, false), 5)] + ([Call(CountMembers(7), 6)] + ([Call(DeleteAccount(2), 7)] + []))
  }

  const LEFT := State(map[Key(7, 1) := Member(NoKind, 0, 4)], map[1 := true, 2 := true], map[])
  const EMPTIED := State(LEFT.rows[Key(7, 2) := Member(Normal, 0, 0)], map[1 := true, 2 := false], map[7 := 1])

  lemma LaterComingsEmpty()
    ensures Possible(LEFT, LaterComings(), 1) && Run(LEFT, LaterComings(), 1) == EMPTIED && Active(EMPTIED, 7) == {}
  {
    hide Run, Possible, SavedAll, Joined;
    var st5 := LEFT.(rows := EMPTIED.rows);
    var st6 := st5.(counts := map[7 := 1]);
    var c7 := [Call(DeleteAccount(2), 7)] + [];
    var c6 := [Call(CountMembers(7), 6)] + c7;
    Over(EMPTIED, 1);
    RunFirst(st6, Call(DeleteAccount(2), 7), EMPTIED, [], 1, EMPTIED);
    assert Active(st5, 7) == {2};
    RunFirst(st5, Call(CountMembers(7), 6), st6, c7, 1, EMPTIED);
    assert Active(LEFT, 7) == {};
    JoinsEmpty(LEFT, 2, 1);
    RunFirst(LEFT, Call(Join(7, 2, false), 5), st5, c6, 1, EMPTIED);
  }

  /** User 1 then cannot come back, although the team is empty. */
  lemma StaleCountRefuses()
    ensures var none := State(map[], map[], map[]);
      && Possible(none, Comings(), 1)
      && var st := Run(none, Comings(), 1);
      && Active(st, 7) == {} && 1 in st.accounts && st.accounts[1] && !Joined(st, 7, 1, false, 1).ok
  {
    hide Run, Possible, SavedAll, Joined, LaterComings;
    var st0 := State(map[], map[], map[]);
    var st1 := st0.(accounts := map[1 := true]);
    var st2 := State(map[], map[1 := true, 2 := true], map[]);
    var st3 := State(map[Key(7, 1) := Member(Normal, 0, 0)], st2.accounts, map[]);
    var c4 := [Call(Leave(7, 1), 4)] + LaterComings();
    var c3 := [Call(Join(7, 1, false), 3)] + c4;
    LaterComingsEmpty();
    RunFirst(st3, Call(Leave(7, 1), 4), LEFT, LaterComings(), 1, EMPTIED);
    JoinsEmpty(st2, 1, 1);
    RunFirst(st2, Call(Join(7, 1, false), 3), st3, c4, 1, EMPTIED);
    RunFirst(st1, Call(OpenAccount(2), 2), st2, c3, 1, EMPTIED);
    RunFirst(st0, Call(OpenAccount(1), 1), st1, [Call(OpenAccount(2), 2)] + c3, 1, EMPTIED);
    RefusesBack(EMPTIED);
  }

  lemma RefusesBack(st: State)
    requires Key(7, 1) in st.rows && st.rows[Key(7, 1)].deleteAt != 0 && 7 in st.counts && st.counts[7] == 1
    ensures !Joined(st, 7, 1, false, 1).ok
  {
  }

  lemma Over(st: State, max: int)
    ensures Possible(st, [], max) && Run(st, [], max) == st
  {
  }

  lemma RunFirst(st: State, c: Call, next: State, rest: seq<Call>, max: int, last: State)
    requires Callable(st, c.op, c.now) && Do(st, c.op, c.now, max) == next
    requires Possible(next, rest, max) && Run(next, rest, max) == last
    ensures Possible(st, [c] + rest, max) && Run(st, [c] + rest, max) == last
  {
    hide Do, Callable;
    assert ([c] + rest)[1..] == rest;
  }

  lemma JoinsEmpty(st: State, u: UserId, max: int)
    requires Key(7, u) !in st.rows && Active(st, 7) == {} && max != 0
    ensures var st' := st.(rows := st.rows[Key(7, u) := Member(Normal, 0, 0)], counts := st.counts - {7});
      Joined(st, 7, u, false, max) == Outcome(true, st')
  {
    var batch := [NewMember(Key(7, u), Normal)];
    assert batch[..0] == [] && NewIn(batch, 7) == 1 + NewIn([], 7);
    assert Inserted(st.rows, batch) == Inserted(st.rows, [])[Key(7, u) := Member(Normal, 0, 0)];
    assert TeamsOf(batch) == {7};
  }

  // ---- The last admin ----

  predicate ActiveAdmin(m: Member) { m.deleteAt == 0 && m.kind == Admin }

  // An active admin row, whether or not its account is live.
  ghost predicate HasAdminRow(st: State, t: TeamId) {
    exists key :: key in st.rows && key.team == t && ActiveAdmin(st.rows[key])
  }

  lemma AnotherAdmin(st: State, t: TeamId, u: UserId) returns (other: UserId)
    requires |Admins(st, t)| > 1
    ensures other in Admins(st, t) && other != u
  {
    if Admins(st, t) <= {u} { SmallerSet(Admins(st, t), {u}); }
    assert exists v :: v in Admins(st, t) && v != u;
    other :| other in Admins(st, t) && other != u;
  }

  lemma DemotionLeavesAdmin(st: State, t: TeamId, u: UserId, kind: Kind)
    requires Key(t, u) in st.rows && KindSet(st, t, u, kind).ok && kind != Admin && st.rows[Key(t, u)].kind == Admin
    ensures Admins(KindSet(st, t, u, kind).st, t) != {}
  {
    var other := AnotherAdmin(st, t, u);
    assert other in Admins(KindSet(st, t, u, kind).st, t);
  }

  function AwardIn(op: Op, key: Key): int {
    if op.Award? && Key(op.team, op.user) == key then op.points else 0
  }

  lemma RowsStay(st: State, op: Op, now: nat, max: int, key: Key)
    requires key in st.rows
    ensures var r := Do(st, op, now, max);
      && key in r.rows
      && (ActiveAdmin(st.rows[key]) && !(op.SetKind? && Key(op.team, op.user) == key) ==> ActiveAdmin(r.rows[key]))
      && r.rows[key].points == st.rows[key].points + (if IsMember(st, key) then AwardIn(op, key) else 0)
  {
    hide Active, Admins, Fits;
    if op.SaveMembers? && AllNew(st.rows, op.batch) {
      InsertedAdds(st, op.batch, key.team);
    }
    if op.Join? {
      var batch := [NewMember(Key(op.team, op.user), if op.isAdmin then Admin else Normal)];
      if AllNew(st.rows, batch) { InsertedAdds(st, batch, key.team); }
    }
  }

  lemma StepKeepsAdminRow(st: State, op: Op, now: nat, max: int, t: TeamId)
    requires Callable(st, op, now) && HasAdminRow(st, t)
    ensures HasAdminRow(Do(st, op, now, max), t)
  {
    hide Do, Callable, KindSet, Admins;
    var key :| key in st.rows && key.team == t && ActiveAdmin(st.rows[key]);
    RowsStay(st, op, now, max, key);
    if op.SetKind? && Key(op.team, op.user) == key {
      AdminReplaced(st, op, now, max, key);
    }
  }

  lemma AdminReplaced(st: State, op: Op, now: nat, max: int, key: Key)
    requires key in st.rows && ActiveAdmin(st.rows[key])
    requires op.SetKind? && Key(op.team, op.user) == key
    ensures HasAdminRow(Do(st, op, now, max), key.team)
  {
    var r := Do(st, op, now, max);
    if r == st || op.kind == Admin {
      assert key in r.rows && r.rows[key].kind == Admin;
    } else {
      DemotionLeavesAdmin(st, op.team, op.user, op.kind);
      var other :| other in Admins(r, op.team);
      assert Key(op.team, other) in r.rows;
    }
  }

  // A team that has an admin keeps one through every run.
  lemma {:induction false} RunKeepsAdminRow(st: State, calls: seq<Call>, max: int, t: TeamId)
    requires Possible(st, calls, max) && HasAdminRow(st, t)
    ensures HasAdminRow(Run(st, calls, max), t)
    decreases |calls|
  {
    hide Do, Callable, HasAdminRow;
    if calls != [] {
      StepKeepsAdminRow(st, calls[0].op, calls[0].now, max, t);
      RunKeepsAdminRow(Do(st, calls[0].op, calls[0].now, max), calls[1..], max, t);
    }
  }

  // Only the deletion of an account can take the last admin with a live account from a team.
  lemma StepKeepsLiveAdmin(st: State, op: Op, now: nat, max: int, t: TeamId)
    requires Callable(st, op, now) && Admins(st, t) != {}
    ensures Admins(Do(st, op, now, max), t) == {} <==> op.DeleteAccount? && Admins(st, t) == {op.user}
  {
    hide Callable, SavedAll, Joined, Left, KindSet, Awarded, Fits;
    var r := Do(st, op, now, max);
    if op.SetKind? && op.team == t && Key(t, op.user) in st.rows && st.rows[Key(t, op.user)].kind == Admin {
      LiveAdminReplaced(st, op, now, max);
    } else if op.DeleteAccount? {
      assert Admins(r, t) == Admins(st, t) - {op.user};
    } else {
      var u :| u in Admins(st, t);
      RowsStay(st, op, now, max, Key(t, u));
      AccountsStay(st, op, now, max, u);
      assert u in Admins(r, t);
    }
  }

  lemma LiveAdminReplaced(st: State, op: Op, now: nat, max: int)
    requires op.SetKind? && Key(op.team, op.user) in st.rows && st.rows[Key(op.team, op.user)].kind == Admin
    requires Admins(st, op.team) != {}
    ensures Admins(Do(st, op, now, max), op.team) != {}
  {
    var r := KindSet(st, op.team, op.user, op.kind);
    if r.ok && op.kind != Admin {
      DemotionLeavesAdmin(st, op.team, op.user, op.kind);
    } else {
      assert r.st == st;
    }
  }

  lemma AccountsStay(st: State, op: Op, now: nat, max: int, u: UserId)
    requires u in st.accounts && st.accounts[u] && !(op.DeleteAccount? && op.user == u)
    ensures u in Do(st, op, now, max).accounts && Do(st, op, now, max).accounts[u]
  {
  }

  // ---- Points ----

  function AwardsTo(calls: seq<Call>, key: Key): int {
    if calls == [] then 0 else AwardIn(calls[0].op, key) + AwardsTo(calls[1..], key)
  }

  // What of it is awarded while the member is away.
  ghost function LostBy(st: State, calls: seq<Call>, max: int, key: Key): int
    requires Possible(st, calls, max)
    decreases |calls|
  {
    if calls == [] then 0
    else
      (if IsMember(st, key) then 0 else AwardIn(calls[0].op, key))
      + LostBy(Do(st, calls[0].op, calls[0].now, max), calls[1..], max, key)
  }

  // Through leaving, coming back and changes of role, a member's points are those awarded, but for the awards
  // made while the member was away, which are lost for good.
  lemma {:induction false} RunKeepsPoints(st: State, calls: seq<Call>, max: int, key: Key)
    requires Possible(st, calls, max) && key in st.rows
    ensures key in Run(st, calls, max).rows
    ensures Run(st, calls, max).rows[key].points + LostBy(st, calls, max, key)
         == st.rows[key].points + AwardsTo(calls, key)
    decreases |calls|
  {
    hide Do, Callable, IsMember;
    if calls != [] {
      RowsStay(st, calls[0].op, calls[0].now, max, key);
      RunKeepsPoints(Do(st, calls[0].op, calls[0].now, max), calls[1..], max, key);
    }
  }

  // User 1 joins, leaves, is awarded five points, and comes back.
  function AwardedAway(): seq<Call> {
    [Call(OpenAccount(1), 1)] + ([Call(Join(7, 1, false), 2)] + ([Call(Leave(7, 1), 3)] +
    ([Call(Award(7, 1, 5), 4)] + ([Call(Join(7, 1, false), 5)] + []))))
  }

  /** A run after which an active member has nothing of the five points awarded. */
  lemma AwayGetsNothing()
    ensures var none := State(map[], map[], map[]);
      && Possible(none, AwardedAway(), 10)
      && var st := Run(none, AwardedAway(), 10);
      && IsMember(st, Key(7, 1)) && st.rows[Key(7, 1)].points == 0 && AwardsTo(AwardedAway(), Key(7, 1)) == 5
  {
    hide Run, Possible, SavedAll, Joined;
    var st0 := State(map[], map[], map[]);
    var st1 := st0.(accounts := map[1 := true]);
    var st2 := st1.(rows := map[Key(7, 1) := Member(Normal, 0, 0)]);
    var st3 := st1.(rows := map[Key(7, 1) := Member(NoKind, 0, 3)]);
    var c4 := [Call(Join(7, 1, false), 5)] + [];
    var c3 := [Call(Award(7, 1, 5), 4)] + c4;
    var c2 := [Call(Leave(7, 1), 3)] + c3;
    var c1 := [Call(Join(7, 1, false), 2)] + c2;
    Over(st2, 10);
    ComesBack(st3);
    RunFirst(st3, Call(Join(7, 1, false), 5), st2, [], 10, st2);
    RunFirst(st3, Call(Award(7, 1, 5), 4), st3, c4, 10, st2);
    RunFirst(st2, Call(Leave(7, 1), 3), st3, c3, 10, st2);
    JoinsEmpty(st1, 1, 10);
    RunFirst(st1, Call(Join(7, 1, false), 2), st2, c2, 10, st2);
    RunFirst(st0, Call(OpenAccount(1), 1), st1, c1, 10, st2);
    AwardsIn(Call(OpenAccount(1), 1), c1);
    AwardsIn(Call(Join(7, 1, false), 2), c2);
    AwardsIn(Call(Leave(7, 1), 3), c3);
    AwardsIn(Call(Award(7, 1, 5), 4), c4);
    AwardsIn(Call(Join(7, 1, false), 5), []);
  }

  lemma AwardsIn(c: Call, rest: seq<Call>)
    ensures AwardsTo([c] + rest, Key(7, 1)) == AwardIn(c.op, Key(7, 1)) + AwardsTo(rest, Key(7, 1))
  {
    assert ([c] + rest)[1..] == rest;
  }

  lemma ComesBack(st: State)
    requires st == State(map[Key(7, 1) := Member(NoKind, 0, 3)], map[1 := true], map[])
    ensures Joined(st, 7, 1, false, 10).st == st.(rows := map[Key(7, 1) := Member(Normal, 0, 0)])
  {
    assert Active(st, 7) == {};
  }
}
