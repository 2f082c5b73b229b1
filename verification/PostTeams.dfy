/** The points of team members against the team's history rows. */
module PostTeams {
  import opened PostTables
  import opened PostLedger
  import opened PostBooks
  import opened Wrappers

  function MemberPoints(t: Tables, team: Id, u: Id): int {
    if (team, u) in t.members then t.members[(team, u)].points else 0
  }

  predicate ActiveMember(t: Tables, team: Id, u: Id) { (team, u) in t.members && t.members[(team, u)].active }

  /** On a team post the history row is written whether or not the member row was updated, so an award
      keeps a member's points in step with their team history exactly when they are an active member. */
  lemma TeamAward(t: Tables, id: Id, kind: PointKind, tags: seq<string>, delta: int, now: int)
    requires id in t.posts && t.posts[id].teamId != NO_ID && delta != 0
    requires var p := t.posts[id]; MemberPoints(t, p.teamId, p.userId) == HistorySum(t.history, p.teamId, p.userId)
    ensures var team, u := t.posts[id].teamId, t.posts[id].userId;
      var t' := Award(t, id, kind, tags, delta, now);
      MemberPoints(t', team, u) == HistorySum(t'.history, team, u) <==> ActiveMember(t, team, u)
  {
    var row := HistoryRow(t.posts[id].teamId, t.posts[id].userId, kind, id, t.posts[id].kind, tags, delta, now);
    HistoryAppend(t.history, row, t.posts[id].teamId, t.posts[id].userId);
  }

  // ---- Operations ----

  // No history row, or one row and the points it stands for: a team row pays active members only.
  ghost predicate OneRow(t: Tables, t': Tables) {
    || (t'.history == t.history && t'.members == t.members)
    || (|t'.history| == |t.history| + 1 && PaidRow(t, t', t'.history[|t.history|]))
  }

  predicate PaidRow(t: Tables, t': Tables, r: HistoryRow) {
    && t'.history == t.history + [r]
    && t'.members == if r.teamId == NO_ID then t.members else AddMemberPoints(t, r.teamId, r.userId, r.points).members
  }

  lemma AwardIsOneRow(t: Tables, t1: Tables, id: Id, kind: PointKind, tags: seq<string>, delta: int, now: int)
    requires id in t1.posts && t1.history == t.history && t1.members == t.members
    ensures OneRow(t, Award(t1, id, kind, tags, delta, now))
  {
  }

  lemma CreationIsOneRow(t: Tables, op: Op, now: Millis)
    requires Step(t, op, now).Some? && (op.DoCreateQuestion? || op.DoCreateAnswer? || op.DoCreateComment?)
    ensures OneRow(t, Apply(t, op, now))
  {
    hide FirstPost, LiveChildren, AnswerReviewTags, SystemReview;
  }

  lemma DeletionIsOneRow(t: Tables, id: Id, now: Millis)
    requires ForceDelete(t, id, now).Some?
    ensures OneRow(t, ForceDelete(t, id, now).value)
  {
    hide Invalidate, Award, OneRow;
    var p := t.posts[id];
    match p.kind {
      case Question =>
        AwardIsOneRow(t, Invalidate(MarkDeleted(t, id, now), id, now), id, DeleteQuestionPoint, p.tags,
                      -POINT_FOR_CREATE_QUESTION, now);
      case Answer =>
        DropKeeps(MarkDeleted(t, id, now), p.parentId);
        AwardIsOneRow(t, Invalidate(DropAnswer(MarkDeleted(t, id, now), p.parentId), id, now), id, DeleteAnswerPoint,
                      t.posts[p.parentId].tags, -POINT_FOR_CREATE_ANSWER, now);
      case Comment => NoRow(t, Invalidate(MarkDeleted(t, id, now), id, now));
    }
  }

  lemma DropKeeps(t: Tables, questionId: Id)
    ensures DropAnswer(t, questionId).history == t.history && DropAnswer(t, questionId).members == t.members
    ensures DropAnswer(t, questionId).posts.Keys == t.posts.Keys
  {
  }

  lemma NoRow(t: Tables, t': Tables)
    requires t'.history == t.history && t'.members == t.members
    ensures OneRow(t, t')
  {
  }

  lemma SettleIsOneRow(t: Tables, t1: Tables, id: Id, kind: PointKind, delta: int, now: int)
    requires id in t1.posts && t1.history == t.history && t1.members == t.members
    ensures Settle(t1, id, kind, delta, now).Some? ==> OneRow(t, Settle(t1, id, kind, delta, now).value)
  {
    hide Award, OneRow;
    match TagsForPost(t1, t1.posts[id]) {
      case None =>
      case Some(tags) => AwardIsOneRow(t, t1, id, kind, tags, delta, now);
    }
  }

  lemma CastIsOneRow(t: Tables, kind: VoteKind, id: Id, userId: Id, now: Millis)
    requires Ballot(kind) && Cast(t, kind, id, userId, now).Some?
    ensures OneRow(t, Cast(t, kind, id, userId, now).value)
  {
    hide MayVote, Revision, Settle, Award, OneRow;
    var p := t.posts[id];
    var rev := if kind.Flag? then Revision(t, id, p.teamId) else 0;
    var t1 := PutPost(PutVote(t, VoteKey(userId, kind, id), NewVote([], p.teamId, rev, now)), id,
                      Counted(p, kind, 1, now));
    NoRow(t, t1);
    SettleIsOneRow(t, t1, id, Gained(kind), PointsFor(kind), now);
  }

  lemma CancelIsOneRow(t: Tables, kind: VoteKind, id: Id, userId: Id, now: Millis)
    requires Ballot(kind) && Cancel(t, kind, id, userId, now).Some?
    ensures OneRow(t, Cancel(t, kind, id, userId, now).value)
  {
    hide MayVote, Settle, Award, OneRow;
    var t1 := PutPost(t.(votes := t.votes - {VoteKey(userId, kind, id)}), id, Counted(t.posts[id], kind, -1, now));
    NoRow(t, t1);
    SettleIsOneRow(t, t1, id, Canceled(kind), -PointsFor(kind), now);
  }

  lemma OthersWriteNone(t: Tables, op: Op, now: Millis)
    requires Step(t, op, now).Some?
    requires op.DoUpdate? || op.DoLock? || op.DoProtect? || op.DoReview? || op.DoReject?
          || op.DoRegister? || op.DoSuspend?
    ensures OneRow(t, Apply(t, op, now))
  {
    hide Revision, RejectedAtRevision;
  }

  // ---- What an operation leaves unpaid ----

  // Whether the rows an operation writes for u in a team are paid to the member: not while the member is
  // inactive, and not for an answer chosen on a public question, which pays the user instead.
  predicate Paying(t: Tables, op: Op, team: Id, u: Id) {
    ActiveMember(t, team, u) && !(op.DoSelect? && op.postId in t.posts && Public(t.posts[op.postId]))
  }

  function StepUnpaid(t: Tables, op: Op, now: Millis, team: Id, u: Id): int {
    if Paying(t, op, team, u) then 0
    else HistorySum(Apply(t, op, now).history, team, u) - HistorySum(t.history, team, u)
  }

  ghost predicate Behind(t: Tables, t': Tables, team: Id, u: Id, unpaid: int) {
    MemberPoints(t', team, u) - MemberPoints(t, team, u)
      == HistorySum(t'.history, team, u) - HistorySum(t.history, team, u) - unpaid
  }

  lemma OneRowBehind(t: Tables, t': Tables, team: Id, u: Id)
    requires team != NO_ID && OneRow(t, t')
    ensures Behind(t, t', team, u, if ActiveMember(t, team, u) then 0
                                   else HistorySum(t'.history, team, u) - HistorySum(t.history, team, u))
  {
    if t'.history != t.history {
      HistoryAppend(t.history, t'.history[|t.history|], team, u);
    }
  }

  // Paying an active asker or answerer keeps their points in step with the row that says so.
  lemma MembersPaid(t: Tables, id: Id, bestId: Id, now: Millis, team: Id, u: Id)
    requires team != NO_ID && SelectBestAnswer(t, id, bestId, now).Some?
    ensures var t' := SelectBestAnswer(t, id, bestId, now).value; var q, a := t.posts[id], t.posts[bestId];
      MemberPoints(t', team, u) == MemberPoints(t, team, u) +
        if ActiveMember(t, team, u) && !Public(q) then BestPoints(q, a, u, Filed(team)) else 0
  {
    hide AddMemberPoints, AddUserPoints;
    var q, a := t.posts[id], t.posts[bestId];
    var t1 := PutPost(t, id, q.(bestId := bestId, updateAt := now));
    MemberPaid(t1, q.teamId, q.userId, POINT_FOR_SELECT_ANSWER, team, u);
    MemberPaid(AddMemberPoints(t1, q.teamId, q.userId, POINT_FOR_SELECT_ANSWER), a.teamId, a.userId,
               POINT_FOR_SELECTED_ANSWER, team, u);
  }

  lemma MemberPaid(t: Tables, teamId: Id, userId: Id, delta: int, team: Id, u: Id)
    ensures var r := AddMemberPoints(t, teamId, userId, delta);
      && (ActiveMember(r, team, u) <==> ActiveMember(t, team, u))
      && MemberPoints(r, team, u) == MemberPoints(t, team, u) +
         if ActiveMember(t, team, u) && team == teamId && u == userId then delta else 0
  {
  }

  lemma SelectBehind(t: Tables, id: Id, bestId: Id, now: Millis, team: Id, u: Id)
    requires team != NO_ID && SelectBestAnswer(t, id, bestId, now).Some?
    ensures var t' := SelectBestAnswer(t, id, bestId, now).value;
      Behind(t, t', team, u, if ActiveMember(t, team, u) && !Public(t.posts[id]) then 0
                             else HistorySum(t'.history, team, u) - HistorySum(t.history, team, u))
  {
    hide SelectBestAnswer, HistorySum, BestPoints, MemberPoints;
    var t' := SelectBestAnswer(t, id, bestId, now).value;
    MembersPaid(t, id, bestId, now, team, u);
    OwnOrLogged(t, id, bestId, now);
    if t'.history != t.history { LoggedSum(t, t', t.posts[id], t.posts[bestId], team, u); }
    NothingForOwn(t.posts[id], t.posts[bestId], team, u);
  }

  lemma OwnOrLogged(t: Tables, id: Id, bestId: Id, now: Millis)
    requires SelectBestAnswer(t, id, bestId, now).Some?
    ensures id in t.posts && bestId in t.posts
    ensures var t' := SelectBestAnswer(t, id, bestId, now).value; var q, a := t.posts[id], t.posts[bestId];
      if q.userId == a.userId then t'.history == t.history
      else t'.history != t.history && SelectionLogged(t, t', q, a)
  {
    if t.posts[id].userId != t.posts[bestId].userId { SelectionRows(t, id, bestId, now); }
  }

  lemma NothingForOwn(q: Post, a: Post, team: Id, u: Id)
    ensures q.userId == a.userId ==> BestPoints(q, a, u, Filed(team)) == 0
  {
  }

  lemma StepBehind(t: Tables, op: Op, now: Millis, team: Id, u: Id)
    requires team != NO_ID
    ensures Behind(t, Apply(t, op, now), team, u, StepUnpaid(t, op, now, team, u))
  {
    hide CreateQuestion, CreateAnswer, CreateComment, UpdatePost, LockPost, ProtectPost, ForceDelete, Deletable,
         SelectBestAnswer, Cast, Cancel, CreateReview, RejectReviews, CloseReviews, Register, Suspend, OneRow,
         HistorySum;
    if Step(t, op, now).Some? {
      match op {
        case DoCreateQuestion(_, _, _, _, _, _) =>
          CreationIsOneRow(t, op, now); OneRowBehind(t, Apply(t, op, now), team, u);
        case DoCreateAnswer(_, _, _, _, _) => CreationIsOneRow(t, op, now); OneRowBehind(t, Apply(t, op, now), team, u);
        case DoCreateComment(_, _, _, _, _) =>
          CreationIsOneRow(t, op, now); OneRowBehind(t, Apply(t, op, now), team, u);
        case DoDelete(id) => DeletionIsOneRow(t, id, now); OneRowBehind(t, Apply(t, op, now), team, u);
        case DoForceDelete(id) => DeletionIsOneRow(t, id, now); OneRowBehind(t, Apply(t, op, now), team, u);
        case DoComplete(id, _) => DeletionIsOneRow(t, id, now); OneRowBehind(t, ForceDelete(t, id, now).value, team, u);
        case DoCast(id, kind, userId) =>
          CastIsOneRow(t, kind, id, userId, now); OneRowBehind(t, Apply(t, op, now), team, u);
        case DoCancel(id, kind, userId) =>
          CancelIsOneRow(t, kind, id, userId, now); OneRowBehind(t, Apply(t, op, now), team, u);
        case DoSelect(id, bestId) => SelectsLive(t, id, bestId, now); SelectBehind(t, id, bestId, now, team, u);
        case DoSetMember(_, _, _) =>
        case _ => OthersWriteNone(t, op, now); OneRowBehind(t, Apply(t, op, now), team, u);
      }
    }
  }

  lemma SelectsLive(t: Tables, id: Id, bestId: Id, now: Millis)
    requires SelectBestAnswer(t, id, bestId, now).Some?
    ensures id in t.posts
  {
  }

  // The points of the rows that a run wrote for u in a team without paying the member.
  function Unpaid(calls: seq<Call>, team: Id, u: Id): int {
    if calls == [] then 0 else
      var n := |calls| - 1;
      Unpaid(calls[..n], team, u) + StepUnpaid(Run(calls[..n]), calls[n].op, calls[n].now, team, u)
  }

  /** After any run a member's points are those of their team history, which is the closed form of the team's
      posts, less the rows written while they were not an active member, or for a team answer chosen on a
      public question: the two agree exactly when those rows come to nothing. */
  lemma {:induction false} TeamBooks(calls: seq<Call>, team: Id, u: Id)
    requires team != NO_ID
    ensures var t := Run(calls);
      && HistorySum(t.history, team, u) == Closed(t, u, Filed(team))
      && MemberPoints(t, team, u) == HistorySum(t.history, team, u) - Unpaid(calls, team, u)
      && (MemberPoints(t, team, u) == HistorySum(t.history, team, u) <==> Unpaid(calls, team, u) == 0)
  {
    hide Apply, MemberPoints, HistorySum, StepUnpaid, Closed;
    RunKeepsBooks(calls);
    assert Amount(Run(calls), u, Filed(team)) == Closed(Run(calls), u, Filed(team));
    if calls == [] {
      NothingYet(team, u);
    } else {
      var n := |calls| - 1;
      TeamBooks(calls[..n], team, u);
      StepBehind(Run(calls[..n]), calls[n].op, calls[n].now, team, u);
    }
  }

  lemma NothingYet(team: Id, u: Id)
    ensures MemberPoints(Run([]), team, u) == 0 && HistorySum(Run([]).history, team, u) == 0
  {
  }
}
