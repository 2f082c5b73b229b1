/** What the point bookkeeping promises over whole runs, and exactly where it does not. */
module PostBooks {
  import opened Sums
  import opened PostTables
  import opened Wrappers
  import opened PostShape
  import opened PostLedger

  lemma StepKeepsBooks(t: Tables, op: Op, now: Millis)
    requires Shape(t) && Balanced(t)
    ensures Balanced(Apply(t, op, now))
  {
    hide Shape, Closed, Apply, Step, Amount;
    forall u, v ensures Amount(Apply(t, op, now), u, v) == Closed(Apply(t, op, now), u, v) {
      var d := StepMoves(t, op, now, u, v);
    }
  }

  /** Over any run, over public and team posts alike, every user's points are the closed form of the
      public posts, and their history rows in any team, or in none, add up to the closed form of the
      posts of that team, with every best-answer row taken by the team it is filed under. */
  lemma {:induction false} RunKeepsBooks(calls: seq<Call>)
    ensures Balanced(Run(calls))
  {
    if calls != [] {
      var n := |calls| - 1;
      RunKeepsShape(calls[..n]);
      RunKeepsBooks(calls[..n]);
      StepKeepsBooks(Run(calls[..n]), calls[n].op, calls[n].now);
    }
  }

  // ---- Points against history ----

  // Questions of others whose best answer, by u, is `answer` public while the question is not, or
  // the other way round.
  function Crossed(posts: map<Id, Post>, u: Id, publicQuestion: bool): set<Id> {
    set id | id in posts.Keys && !Archived(posts[id]) && posts[id].kind.Question? && posts[id].bestId in posts
          && posts[posts[id].bestId].userId == u && posts[id].userId != u
          && Public(posts[id]) == publicQuestion && Public(posts[posts[id].bestId]) != publicQuestion
  }

  lemma CrossedIsTheDifference(t: Tables, u: Id)
    ensures Closed(t, u, Held) - Closed(t, u, Filed(NO_ID))
         == 10 * (|Crossed(t.posts, u, true)| - |Crossed(t.posts, u, false)|)
  {
    var f, g := PostParts(t.posts, u, Held), PostParts(t.posts, u, Filed(NO_ID));
    var plus, minus := Crossed(t.posts, u, true), Crossed(t.posts, u, false);
    SumDifference(t.posts.Keys, f, g, 10, plus, minus);
    SumSame(t.votes.Keys, VoteParts(t.posts, u, Held), VoteParts(t.posts, u, Filed(NO_ID)));
  }

  /** In every reachable state a user's points equal the sum of their public history rows exactly when
      as many of their answers were chosen across the team border in one direction as in the other;
      otherwise they are ten points apart for each. */
  lemma PointsAgainstHistory(calls: seq<Call>, u: Id)
    ensures var t := Run(calls);
      && PointsOf(t, u) - HistorySum(t.history, NO_ID, u)
         == 10 * (|Crossed(t.posts, u, true)| - |Crossed(t.posts, u, false)|)
      && (PointsOf(t, u) == HistorySum(t.history, NO_ID, u) <==>
            |Crossed(t.posts, u, true)| == |Crossed(t.posts, u, false)|)
  {
    hide Closed;
    RunKeepsBooks(calls);
    CrossedIsTheDifference(Run(calls), u);
    assert Amount(Run(calls), u, Held) == Closed(Run(calls), u, Held);
    assert Amount(Run(calls), u, Filed(NO_ID)) == Closed(Run(calls), u, Filed(NO_ID));
  }

  ghost predicate NoneCrossed(posts: map<Id, Post>) {
    forall id :: id in posts && posts[id].bestId in posts ==> Public(posts[id]) == Public(posts[posts[id].bestId])
  }

  // Runs in which best answers stay on their question's side of the border.
  lemma LedgerWithoutCrossing(calls: seq<Call>, u: Id)
    requires NoneCrossed(Run(calls).posts)
    ensures PointsOf(Run(calls), u) == HistorySum(Run(calls).history, NO_ID, u)
  {
    PointsAgainstHistory(calls, u);
    assert Crossed(Run(calls).posts, u, true) == {} && Crossed(Run(calls).posts, u, false) == {};
  }

  // The tables once users 1 and 2 are registered.
  function TwoUsers(): Tables { EMPTY.(users := map[1 := User(0, 0), 2 := User(0, 0)]) }

  lemma Asked(now: Millis)
    ensures var r := CreateQuestion(TwoUsers(), 10, 1, NO_ID, "t", "c", [], now);
      && r.Some? && r.value.posts == map[10 := NewPost(Question, NO_ID, NO_ID, 1, NO_ID, "t", "c", [], now)]
      && PointsOf(r.value, 2) == 0 && HistorySum(r.value.history, NO_ID, 2) == 0
      && r.value.users.Keys == {1, 2} && forall u :: u in r.value.users ==> r.value.users[u].suspendTime == 0
  {
    hide SystemReview, FirstPost;
    var t1 := PutPost(TwoUsers(), 10, NewPost(Question, NO_ID, NO_ID, 1, NO_ID, "t", "c", [], now));
    AwardMoves(t1, 10, CreateQuestionPoint, [], POINT_FOR_CREATE_QUESTION, now, 2, Filed(NO_ID));
  }

  lemma AnsweredInTeam(t: Tables, now: Millis)
    requires t.posts == map[10 := NewPost(Question, NO_ID, NO_ID, 1, NO_ID, "t", "c", [], now)] && 2 in t.users
    ensures var r := CreateAnswer(t, 11, 2, 7, 10, "a", now);
      && r.Some? && r.value.posts.Keys == {10, 11} && Live(r.value, 10) && r.value.posts[10].kind.Question?
      && r.value.posts[10].bestId == NO_ID && r.value.posts[10].userId == 1 && r.value.posts[10].teamId == NO_ID
      && r.value.posts[11] == NewPost(Answer, 10, 10, 2, 7, "", "a", [], now)
      && PointsOf(r.value, 2) == PointsOf(t, 2)
      && HistorySum(r.value.history, NO_ID, 2) == HistorySum(t.history, NO_ID, 2)
      && r.value.users.Keys == t.users.Keys
  {
    hide SystemReview, AnswerReviewTags;
    var t1 := InsertAnswer(t, 11, 2, 7, 10, "a", now);
    AwardMoves(t1, 11, CreateAnswerPoint, [], POINT_FOR_CREATE_ANSWER, now, 2, Filed(NO_ID));
  }

  // A team answer to a public question, chosen as best: ten points that no public row explains.
  lemma CrossingHappens(now: Millis)
    ensures var calls := [
        Call(DoRegister(1), now), Call(DoRegister(2), now),
        Call(DoCreateQuestion(10, 1, NO_ID, "t", "c", []), now), Call(DoCreateAnswer(11, 2, 7, 10, "a"), now),
        Call(DoSelect(10, 11), now)];
      PointsOf(Run(calls), 2) == 10 && HistorySum(Run(calls).history, NO_ID, 2) == 0
  {
    hide Shape, PointsOf, HistorySum, CreateQuestion, CreateAnswer, SelectBestAnswer;
    var c1 := [Call(DoRegister(1), now)];
    var c2 := c1 + [Call(DoRegister(2), now)];
    var c3 := c2 + [Call(DoCreateQuestion(10, 1, NO_ID, "t", "c", []), now)];
    var c4 := c3 + [Call(DoCreateAnswer(11, 2, 7, 10, "a"), now)];
    RunSnoc([], c1[0]);
    assert [] + c1 == c1;
    RunSnoc(c1, c2[1]);
    assert Run(c2) == TwoUsers();
    RunSnoc(c2, c3[2]);
    Asked(now);
    RunSnoc(c3, c4[3]);
    AnsweredInTeam(Run(c3), now);
    RunSnoc(c4, Call(DoSelect(10, 11), now));
    assert c4 + [Call(DoSelect(10, 11), now)] == [
        Call(DoRegister(1), now), Call(DoRegister(2), now),
        Call(DoCreateQuestion(10, 1, NO_ID, "t", "c", []), now), Call(DoCreateAnswer(11, 2, 7, 10, "a"), now),
        Call(DoSelect(10, 11), now)];
    RunKeepsShape(c4);
    TeamAnswerChosen(Run(c4), now);
  }

  lemma TeamAnswerChosen(t: Tables, now: Millis)
    requires Shape(t) && Live(t, 10) && Live(t, 11) && t.posts[10].kind.Question? && t.posts[11].kind.Answer?
    requires t.posts[10].bestId == NO_ID && t.posts[11].parentId == 10
    requires t.posts[10].userId == 1 && t.posts[11].userId == 2 && Public(t.posts[10]) && !Public(t.posts[11])
    ensures SelectBestAnswer(t, 10, 11, now).Some?
    ensures var t' := SelectBestAnswer(t, 10, 11, now).value;
      PointsOf(t', 2) == PointsOf(t, 2) + 10 && HistorySum(t'.history, NO_ID, 2) == HistorySum(t.history, NO_ID, 2)
  {
    hide Shape;
    SelectMoves(t, 10, 11, now, 2, Held);
    SelectMoves(t, 10, 11, now, 2, Filed(NO_ID));
  }

  lemma RunSnoc(calls: seq<Call>, c: Call)
    ensures Run(calls + [c]) == Apply(Run(calls), c.op, c.now)
  {
    assert (calls + [c])[..|calls|] == calls;
  }

  // ---- Round trips ----

  lemma AwardBack(t: Tables, t1: Tables, id: Id, kind: PointKind, kind': PointKind, tags: seq<string>,
                  tags': seq<string>, delta: int, now: int, later: int)
    requires id in t.posts && id in t1.posts && SameIdentity(t.posts[id], t1.posts[id])
    requires t1.users == Award(t, id, kind, tags, delta, now).users
    requires t1.members == Award(t, id, kind, tags, delta, now).members
    ensures var t2 := Award(t1, id, kind', tags', -delta, later);
            t2.users == t.users && t2.members == t.members && t2.posts == t1.posts && t2.votes == t1.votes
  {
  }

  /** Cancelling a vote or flag right after casting it restores votes, users, team members and the
      post's counters; only its UpdateAt and two more history rows remain. */
  lemma CancelUndoesCast(t: Tables, kind: VoteKind, id: Id, userId: Id, now: Millis, later: Millis)
    requires Shape(t) && Ballot(kind) && now <= later && Cast(t, kind, id, userId, now).Some?
    ensures var t1 := Cast(t, kind, id, userId, now).value;
      && Cancel(t1, kind, id, userId, later).Some?
      && var t2 := Cancel(t1, kind, id, userId, later).value;
      && t2.votes == t.votes && t2.users == t.users && t2.members == t.members
      && t2.posts == t.posts[id := t.posts[id].(updateAt := later)]
  {
    hide Shape, Revision, Award, PostPlaced, MayVote, PointsOf, TagsForPost;
    LivePlaced(t, id);
    var key := VoteKey(userId, kind, id);
    var p := t.posts[id];
    var rev := if kind.Flag? then Revision(t, id, p.teamId) else 0;
    var t0 := PutPost(PutVote(t, key, NewVote([], p.teamId, rev, now)), id, Counted(p, kind, 1, now));
    var t1 := Cast(t, kind, id, userId, now).value;
    MayStillVote(t, t1, kind, id, userId, now, later);
    var t2 := PutPost(t1.(votes := t1.votes - {key}), id, Counted(t1.posts[id], kind, -1, later));
    assert t2.votes == t.votes && t2.posts == t.posts[id := p.(updateAt := later)];
    if Paid(kind, userId, p.userId) {
      SameTags(t0, t2, id);
      var tags := TagsForPost(t0, t0.posts[id]).value;
      AwardBack(t0, t2, id, Gained(kind), Canceled(kind), tags, tags, PointsFor(kind), now, later);
    }
  }

  lemma SameTags(t: Tables, t': Tables, id: Id)
    requires id in t.posts && id in t'.posts && t'.posts == t.posts[id := t'.posts[id]]
    requires t'.posts[id].tags == t.posts[id].tags && t'.posts[id].deleteAt == t.posts[id].deleteAt
    requires SameIdentity(t.posts[id], t'.posts[id])
    ensures TagsForPost(t', t'.posts[id]) == TagsForPost(t, t.posts[id])
  {
  }

  lemma MayStillVote(t: Tables, t1: Tables, kind: VoteKind, id: Id, userId: Id, now: int, later: int)
    requires now <= later && id in t.posts && id in t1.posts && MayVote(t, kind, id, userId, now)
    requires SameIdentity(t.posts[id], t1.posts[id]) && t1.posts[id].lockedAt == t.posts[id].lockedAt
    requires t1.users.Keys == t.users.Keys
    requires forall u :: u in t.users ==> t1.users[u].suspendTime == t.users[u].suspendTime
    ensures MayVote(t1, kind, id, userId, later)
  {
  }

  /** Writing an answer and deleting it again is neutral for its author, except on a public answer to
      one's own question: deletion then takes three points that were never granted. */
  lemma AnswerThenDelete(t: Tables, id: RowId, userId: Id, teamId: Id, parentId: Id, content: string, now: Millis,
                         later: Millis)
    requires Shape(t) && CreateAnswer(t, id, userId, teamId, parentId, content, now).Some?
    ensures var t1 := CreateAnswer(t, id, userId, teamId, parentId, content, now).value;
      && ForceDelete(t1, id, later).Some?
      && var t2 := ForceDelete(t1, id, later).value;
      && var own := teamId == NO_ID && t.posts[parentId].userId == userId;
      && PointsOf(t2, userId) == PointsOf(t, userId) - (if own then 3 else 0)
      && (PointsOf(t2, userId) == PointsOf(t, userId) <==> teamId != NO_ID || t.posts[parentId].userId != userId)
  {
    hide Shape, SystemReview, AnswerReviewTags, InsertAnswer, Award;
    LivePlaced(t, parentId);
    var parent := t.posts[parentId];
    var t1 := InsertAnswer(t, id, userId, teamId, parentId, content, now);
    AnswerInserted(t, id, userId, teamId, parentId, content, now);
    var t2 := CreateAnswer(t, id, userId, teamId, parentId, content, now).value;
    assert PointsOf(t1, userId) == PointsOf(t, userId);
    assert userId != parent.userId ==>
      t2.users == Award(t1, id, CreateAnswerPoint, parent.tags, POINT_FOR_CREATE_ANSWER, now).users;
    assert PointsOf(t2, userId) == PointsOf(t, userId) + if userId != parent.userId && teamId == NO_ID then 3 else 0;
    assert t2.posts == t1.posts && t2.users.Keys == t.users.Keys;
    DeleteTakesThree(t2, id, later);
  }

  lemma AnswerInserted(t: Tables, id: RowId, userId: Id, teamId: Id, parentId: Id, content: string, now: Millis)
    requires Live(t, parentId) && id !in t.posts
    ensures var t1 := InsertAnswer(t, id, userId, teamId, parentId, content, now);
      && t1 == t.(posts := t1.posts) && Live(t1, id) && Live(t1, parentId)
      && t1.posts[id] == NewPost(Answer, parentId, parentId, userId, teamId, "", content, [], now)
  {
  }

  lemma DeleteTakesThree(t: Tables, id: Id, now: Millis)
    requires Live(t, id) && t.posts[id].kind.Answer? && Live(t, t.posts[id].parentId) && t.posts[id].parentId != id
    requires t.posts[id].userId in t.users
    ensures ForceDelete(t, id, now).Some?
    ensures var u := t.posts[id].userId;
      PointsOf(ForceDelete(t, id, now).value, u) == PointsOf(t, u) - if t.posts[id].teamId == NO_ID then 3 else 0
  {
  }
}
