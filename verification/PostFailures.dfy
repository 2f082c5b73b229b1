/** Runs from empty tables in which a law that one would expect of posts and points fails. */
module PostFailures {
  import opened PostTables
  import opened PostShape
  import opened PostLedger
  import opened PostBooks
  import opened PostTeams
  import opened PostThreads
  import opened PostReviews
  import opened PostRevisions
  import opened PostFirsts
  import opened Wrappers

  function Ask(id: RowId, u: Id, team: Id, now: Millis): Call { Call(DoCreateQuestion(id, u, team, "t", "c", []), now) }

  function Asked(u: Id, team: Id, now: Millis): Post { NewPost(Question, NO_ID, NO_ID, u, team, "t", "c", [], now) }

  function Reply(id: RowId, u: Id, parentId: Id, now: Millis): Call {
    Call(DoCreateAnswer(id, u, NO_ID, parentId, "a"), now)
  }

  function Replied(u: Id, parentId: Id, now: Millis): Post {
    NewPost(Answer, parentId, parentId, u, NO_ID, "", "a", [], now)
  }

  predicate Free(t: Tables, u: Id) { u in t.users && t.users[u].suspendTime == 0 }

  lemma Asks(t: Tables, id: RowId, u: Id, team: Id, now: Millis)
    requires Free(t, u) && id !in t.posts
    ensures var c := Ask(id, u, team, now); var r := Apply(t, c.op, now);
      && Step(t, c.op, now).Some? && r.posts == t.posts[id := Asked(u, team, now)]
      && r.history == t.history + [HistoryRow(team, u, CreateQuestionPoint, id, Question, [], 3, now)]
      && r.members == AddPoints(t, team, u, 3).members && r.votes.Keys <= t.votes.Keys + {VoteKey(NO_ID, System, id)}
      && (forall v :: PointsOf(r, v) == PointsOf(t, v) + if team == NO_ID && v == u then 3 else 0)
      && (forall v :: Free(t, v) ==> Free(r, v))
  {
    hide FirstPost;
  }

  lemma Replies(t: Tables, id: RowId, u: Id, parentId: Id, now: Millis)
    requires Free(t, u) && id !in t.posts && Live(t, parentId) && t.posts[parentId].kind.Question?
    requires t.posts[parentId].protectedAt == 0
    ensures var c := Reply(id, u, parentId, now); var r := Apply(t, c.op, now); var q := t.posts[parentId];
      && Step(t, c.op, now).Some?
      && var q' := q.(answerCount := q.answerCount + 1, updateAt := now);
      && r.posts == t.posts[id := Replied(u, parentId, now)][parentId := q']
      && r.votes.Keys <= t.votes.Keys + {VoteKey(NO_ID, System, id)}
      && (forall v :: Free(t, v) ==> Free(r, v))
  {
    hide AnswerReviewTags;
  }

  lemma Registers(t: Tables, u: Id, now: Millis)
    requires u !in t.users
    ensures var r := Apply(t, DoRegister(u), now);
      r == t.(users := r.users) && Free(r, u) && PointsOf(r, u) == 0 && forall v :: Free(t, v) ==> Free(r, v)
  {
  }

  lemma After(calls: seq<Call>, c: Call)
    ensures Run(calls + [c]) == Apply(Run(calls), c.op, c.now)
  {
    RunSnoc(calls, c);
  }

  lemma Nothing()
    ensures Run([]) == EMPTY
  {
  }

  // Users 1 and 2.
  function Two(now: Millis): seq<Call> { [] + [Call(DoRegister(1), now)] + [Call(DoRegister(2), now)] }

  lemma TwoRegister(now: Millis)
    ensures var t := Run(Two(now));
      && Free(t, 1) && Free(t, 2) && PointsOf(t, 1) == 0
      && t.posts == map[] && t.votes == map[] && t.members == map[] && t.history == []
  {
    hide Run, Apply, PointsOf, Free;
    Nothing();
    Registers(EMPTY, 1, now);
    After([], Call(DoRegister(1), now));
    var c1 := [] + [Call(DoRegister(1), now)];
    After(c1, Call(DoRegister(2), now));
    SecondUser(Run(c1), now);
  }

  lemma SecondUser(t: Tables, now: Millis)
    requires t == Apply(EMPTY, DoRegister(1), now)
    ensures var r := Apply(t, DoRegister(2), now);
      && Free(r, 1) && Free(r, 2) && PointsOf(r, 1) == 0 && r == EMPTY.(users := r.users)
  {
  }

  // User 1 asks in public, or in team 7 as its member.
  function AskedInPublic(now: Millis): seq<Call> { Two(now) + [Ask(10, 1, NO_ID, now)] }

  lemma PublicQuestion(now: Millis)
    ensures var t := Run(AskedInPublic(now));
      && t.posts == map[10 := Asked(1, NO_ID, now)] && t.votes.Keys <= {VoteKey(NO_ID, System, 10)}
      && Free(t, 1) && Free(t, 2) && PointsOf(t, 1) == 3
  {
    hide Run, Apply, PointsOf, Free;
    TwoRegister(now);
    After(Two(now), Ask(10, 1, NO_ID, now));
    Asks(Run(Two(now)), 10, 1, NO_ID, now);
  }

  /** Asking takes three points, answering oneself none, and deleting that answer three: none are left,
      although the question is still there. */
  lemma OwnAnswerCosts(now: Millis)
    ensures var calls := AskedInPublic(now) + [Reply(11, 1, 10, now)] + [Call(DoForceDelete(11), now)];
      PointsOf(Run(AskedInPublic(now)), 1) == 3 && PointsOf(Run(calls), 1) == 0 && Live(Run(calls), 10)
  {
    hide Run, PointsOf, Shape, CreateAnswer, ForceDelete, Free;
    var c1 := AskedInPublic(now);
    var t := Run(c1);
    PublicQuestion(now);
    RunKeepsShape(c1);
    Replies(t, 11, 1, 10, now);
    After(c1, Reply(11, 1, 10, now));
    var c2 := c1 + [Reply(11, 1, 10, now)];
    After(c2, Call(DoForceDelete(11), now));
    AnswerThenDelete(t, 11, 1, NO_ID, 10, "a", now, now);
    RunKeepsShape(c2);
    ForceDeletePosts(Run(c2), 11, now);
  }

  // A question of user 1 with an answer of user 2.
  function Answered(now: Millis): seq<Call> { AskedInPublic(now) + [Reply(11, 2, 10, now)] }

  lemma PublicAnswer(now: Millis)
    ensures var t := Run(Answered(now));
      && t.posts.Keys == {10, 11} && t.posts[11] == Replied(2, 10, now)
      && t.posts[10] == Asked(1, NO_ID, now).(answerCount := 1)
      && t.votes.Keys <= {VoteKey(NO_ID, System, 10), VoteKey(NO_ID, System, 11)} && Free(t, 1) && Free(t, 2)
  {
    hide Run, Step, Apply, Free, AskedInPublic;
    PublicQuestion(now);
    Replies(Run(AskedInPublic(now)), 11, 2, 10, now);
    After(AskedInPublic(now), Reply(11, 2, 10, now));
  }

  // The same once the reviews of the question are completed, which deletes it.
  function ReviewsCompleted(now: Millis): seq<Call> { Answered(now) + [Call(DoComplete(10, 2), now)] }

  lemma CompletionDeletes(now: Millis)
    ensures Shape(Run(Answered(now))) && Attached(Run(Answered(now)))
    ensures Live(Run(Answered(now)), 10) && !Deletable(Run(Answered(now)), 10)
    ensures ForceDelete(Run(Answered(now)), 10, now) == Some(Run(ReviewsCompleted(now)))
  {
    hide Run, Step, Shape, Attached, ForceDelete, Deletable;
    var t := Run(Answered(now));
    PublicAnswer(now);
    RunKeepsShape(Answered(now));
    NoneForced(Answered(now), now);
    RunKeepsAttached(Answered(now));
    HasReply(t, 10, 11);
    QuestionGoes(t, 10, now);
    CompletionIsForcedDeletion(t, 10, 2, now);
    After(Answered(now), Call(DoComplete(10, 2), now));
    StepCompletes(t, 10, 2, now);
  }

  lemma StepCompletes(t: Tables, id: Id, actor: Id, now: Millis)
    requires CompleteReviews(t, id, actor, now).Some?
    ensures CompleteReviews(t, id, actor, now) == Some(Apply(t, DoComplete(id, actor), now))
  {
    hide CompleteReviews;
  }

  const SYSTEM_REVIEW := VoteKey(NO_ID, System, 10)

  lemma ReviewOpens(t: Tables, id: RowId, u: Id, now: Millis)
    requires Shape(t) && Free(t, u) && id !in t.posts
    ensures var r := Apply(t, Ask(id, u, NO_ID, now).op, now); var key := VoteKey(NO_ID, System, id);
      key in r.votes && Open(r.votes[key])
  {
    hide Shape, FirstPost;
    QuestionOpensReview(t, id, u, NO_ID, "t", "c", [], now);
    NotYetReviewed(t, id);
  }

  lemma ReplyKeepsVotes(t: Tables, id: RowId, u: Id, parentId: Id, now: Millis)
    ensures var r := Apply(t, Reply(id, u, parentId, now).op, now);
      forall key :: key in t.votes ==> key in r.votes && r.votes[key] == t.votes[key]
  {
    hide AnswerReviewTags;
  }

  lemma ReviewIsOpen(now: Millis)
    ensures var t := Run(Answered(now)); SYSTEM_REVIEW in t.votes && Open(t.votes[SYSTEM_REVIEW])
  {
    hide Run, Apply, Free, Shape, Two;
    TwoRegister(now);
    RunKeepsShape(Two(now));
    ReviewOpens(Run(Two(now)), 10, 1, now);
    After(Two(now), Ask(10, 1, NO_ID, now));
    ReplyKeepsVotes(Run(AskedInPublic(now)), 11, 2, 10, now);
    After(AskedInPublic(now), Reply(11, 2, 10, now));
  }

  /** The open review of a question is invalidated when the reviews are completed, and is not completed. */
  lemma CompletionInvalidates(now: Millis)
    ensures var t, t' := Run(Answered(now)), Run(ReviewsCompleted(now));
      && SYSTEM_REVIEW in t.votes && Open(t.votes[SYSTEM_REVIEW]) && SYSTEM_REVIEW in t'.votes
      && t'.votes[SYSTEM_REVIEW].invalidateAt == now && t'.votes[SYSTEM_REVIEW].completedAt == 0
  {
    hide Run, Shape, Attached, ForceDelete, Deletable, ReviewsCompleted, Answered, Revision;
    ReviewIsOpen(now);
    CompletionDeletes(now);
    ForceDeleteVotes(Run(Answered(now)), 10, now);
  }

  /** Completing the reviews of a question deletes it under its answer, and a vote that is allowed on
      the answer then fails midway. */
  lemma CompletionOrphans(now: Millis)
    ensures var t := Run(ReviewsCompleted(now));
      && Live(t, 11) && !Live(t, 10) && !Attached(t)
      && MayVote(t, UpVote, 11, 1, now) && VoteKey(1, UpVote, 11) !in t.votes && Cast(t, UpVote, 11, 1, now).None?
  {
    hide Run, Shape, Attached, ForceDelete, Deletable, Cast, ReviewsCompleted, Answered;
    var t := Run(Answered(now));
    PublicAnswer(now);
    CompletionDeletes(now);
    ForceDeletePosts(t, 10, now);
    ForceDeleteVotes(t, 10, now);
    ForcedDeletionDetaches(t, 10, now);
    UsersStay(t, 10, now);
    RunKeepsShape(ReviewsCompleted(now));
    CastFailsMidway(Run(ReviewsCompleted(now)), UpVote, 11, 1, now);
  }

  // User 1 votes for the answer before the reviews of the question are completed.
  function Voted(now: Millis): seq<Call> { Answered(now) + [Call(DoCast(11, UpVote, 1), now)] }

  function VotedAndCompleted(now: Millis): seq<Call> { Voted(now) + [Call(DoComplete(10, 2), now)] }

  lemma Votes(t: Tables, now: Millis)
    requires t.posts.Keys == {10, 11} && t.posts[11] == Replied(2, 10, now)
    requires t.posts[10] == Asked(1, NO_ID, now).(answerCount := 1) && Free(t, 1) && Free(t, 2)
    requires VoteKey(1, UpVote, 11) !in t.votes
    ensures var r := Apply(t, DoCast(11, UpVote, 1), now);
      && VoteKey(1, UpVote, 11) in r.votes && Free(r, 1) && r.posts.Keys == {10, 11} && r.posts[10] == t.posts[10]
      && r.posts[11] == Counted(t.posts[11], UpVote, 1, now)
  {
  }

  lemma AnswerIsVoted(now: Millis)
    ensures var t := Run(Voted(now));
      && VoteKey(1, UpVote, 11) in t.votes && Free(t, 1) && t.posts.Keys == {10, 11}
      && t.posts[10] == Asked(1, NO_ID, now).(answerCount := 1)
      && t.posts[11] == Counted(Replied(2, 10, now), UpVote, 1, now)
  {
    hide Run, Apply, Free, Answered;
    PublicAnswer(now);
    Votes(Run(Answered(now)), now);
    After(Answered(now), Call(DoCast(11, UpVote, 1), now));
  }

  lemma CompletionDeletesVoted(now: Millis)
    ensures Shape(Run(Voted(now))) && ForceDelete(Run(Voted(now)), 10, now) == Some(Run(VotedAndCompleted(now)))
  {
    hide Run, Step, Shape, ForceDelete, Voted, Apply;
    var t := Run(Voted(now));
    AnswerIsVoted(now);
    RunKeepsShape(Voted(now));
    QuestionGoes(t, 10, now);
    CompletionIsForcedDeletion(t, 10, 2, now);
    After(Voted(now), Call(DoComplete(10, 2), now));
    StepCompletes(t, 10, 2, now);
  }

  /** The vote then cannot be cancelled: that fails midway as well. */
  lemma CompletionLocksVote(now: Millis)
    ensures var t := Run(VotedAndCompleted(now));
      && Live(t, 11) && !Live(t, 10) && VoteKey(1, UpVote, 11) in t.votes
      && MayVote(t, UpVote, 11, 1, now) && Cancel(t, UpVote, 11, 1, now).None?
  {
    hide Run, Shape, ForceDelete, Cancel, VotedAndCompleted, Voted;
    var t := Run(Voted(now));
    AnswerIsVoted(now);
    CompletionDeletesVoted(now);
    ForceDeletePosts(t, 10, now);
    UsersStay(t, 10, now);
    RunKeepsShape(VotedAndCompleted(now));
    CancelFailsMidway(Run(VotedAndCompleted(now)), UpVote, 11, 1, now);
  }

  lemma NoneForced(calls: seq<Call>, now: Millis)
    requires calls == Answered(now)
    ensures forall i :: 0 <= i < |calls| ==> !Forced(calls[i].op)
  {
  }

  lemma QuestionGoes(t: Tables, id: Id, now: Millis)
    requires Live(t, id) && t.posts[id].kind.Question?
    ensures ForceDelete(t, id, now).Some?
  {
  }

  lemma HasReply(t: Tables, id: Id, reply: Id)
    requires id in t.posts && t.posts[id].kind.Question? && Live(t, reply) && t.posts[reply].kind.Answer?
    requires t.posts[reply].parentId == id
    ensures !Deletable(t, id)
  {
    assert reply in LiveChildren(t.posts, id, Answer);
  }

  lemma UsersStay(t: Tables, id: Id, now: Millis)
    requires ForceDelete(t, id, now).Some? && t.posts[id].kind.Question?
    ensures forall u :: Free(t, u) ==> Free(ForceDelete(t, id, now).value, u)
  {
    hide Invalidate;
  }

  // User 1 asks in team 7 as a member, and leaves.
  function AskedAndLeft(now: Millis): seq<Call> {
    Two(now) + [Call(DoSetMember(7, 1, true), now)] + [Ask(10, 1, 7, now)] + [Call(DoSetMember(7, 1, false), now)]
  }

  lemma TeamQuestion(now: Millis)
    ensures var t := Run(AskedAndLeft(now));
      && t.posts == map[10 := Asked(1, 7, now)] && t.votes.Keys <= {VoteKey(NO_ID, System, 10)} && Free(t, 2)
      && t.members == map[(7, 1) := Member(3, false)]
      && t.history == [HistoryRow(7, 1, CreateQuestionPoint, 10, Question, [], 3, now)]
  {
    hide Run, Free;
    TwoRegister(now);
    var c1 := Two(now);
    var c2 := c1 + [Call(DoSetMember(7, 1, true), now)];
    var c3 := c2 + [Ask(10, 1, 7, now)];
    After(c1, Call(DoSetMember(7, 1, true), now));
    assert Free(Run(c2), 1) && Free(Run(c2), 2) by { MembersOnly(Run(c1), Run(c2)); }
    Asks(Run(c2), 10, 1, 7, now);
    After(c2, Ask(10, 1, 7, now));
    After(c3, Call(DoSetMember(7, 1, false), now));
    MembersOnly(Run(c3), Run(AskedAndLeft(now)));
  }

  lemma MembersOnly(t: Tables, t': Tables)
    requires t'.users == t.users
    ensures forall u :: Free(t, u) ==> Free(t', u)
  {
  }

  lemma LateVote(t: Tables, now: Millis)
    requires t.posts == map[10 := Asked(1, 7, now)] && VoteKey(2, UpVote, 10) !in t.votes && Free(t, 2)
    requires t.members == map[(7, 1) := Member(3, false)]
    ensures var r := Apply(t, DoCast(10, UpVote, 2), now);
      && r.members == t.members
      && r.history == t.history + [HistoryRow(7, 1, Gained(UpVote), 10, Question, [], 5, now)]
  {
  }

  lemma NoHistory()
    ensures HistorySum([], 7, 1) == 0
  {
  }

  /** A vote on the post of a member who left is in the team's history, but not in the member's points. */
  lemma LeaverIsOwed(now: Millis)
    ensures var t := Run(AskedAndLeft(now) + [Call(DoCast(10, UpVote, 2), now)]);
      MemberPoints(t, 7, 1) == 3 && HistorySum(t.history, 7, 1) == 8
  {
    hide Run, Apply, HistorySum, Free, AskedAndLeft;
    var c1 := AskedAndLeft(now);
    TeamQuestion(now);
    LateVote(Run(c1), now);
    After(c1, Call(DoCast(10, UpVote, 2), now));
    var row := HistoryRow(7, 1, CreateQuestionPoint, 10, Question, [], 3, now);
    NoHistory();
    HistoryAppend([], row, 7, 1);
    HistoryAppend([row], HistoryRow(7, 1, Gained(UpVote), 10, Question, [], 5, now), 7, 1);
    assert [] + [row] == [row];
  }

  /** An edit of a public question is archived, and yet the question stays at revision 1. */
  lemma PublicRevisionStays(now: Millis)
    ensures var t := Run(AskedInPublic(now) + [Call(DoUpdate(10, 12, Question, "t", "d", []), now)]);
      10 in t.posts && 12 in Archive(t, 10) && t.posts[10].teamId == NO_ID && Revision(t, 10, NO_ID) == 1
  {
    hide Run;
    PublicQuestion(now);
    After(AskedInPublic(now), Call(DoUpdate(10, 12, Question, "t", "d", []), now));
    var t := Run(AskedInPublic(now) + [Call(DoUpdate(10, 12, Question, "t", "d", []), now)]);
    assert Rows(t, 10, NO_ID) == {};
  }

  /** A second public question opens the review of a first post as the first one did. */
  lemma SecondPostIsFirst(now: Millis)
    ensures var t := Run(AskedInPublic(now)); var t' := Run(AskedInPublic(now) + [Ask(13, 1, NO_ID, now)]);
      10 in Written(t, 1, NO_ID) && Reviewed(t', 13)
  {
    hide Run, Shape, CreateQuestion, Free;
    PublicQuestion(now);
    RunKeepsShape(AskedInPublic(now));
    Asks(Run(AskedInPublic(now)), 13, 1, NO_ID, now);
    After(AskedInPublic(now), Ask(13, 1, NO_ID, now));
    QuestionOpensReview(Run(AskedInPublic(now)), 13, 1, NO_ID, "t", "c", [], now);
  }
}
