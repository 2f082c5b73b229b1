/** The tables behind questions, answers, comments and votes, and what each committed operation
    does to them. `None` is an error return: nothing is written.

    Row ids are naturals; `NO_ID` stands for the empty string (no team, no parent, no best answer,
    not an archived copy). */
module PostTables {
  import opened Wrappers

  type Id = nat
  const NO_ID: Id := 0
  type RowId = k: nat | 0 < k witness 1   // what NewId returns
  type Millis = m: int | 0 < m witness 1  // what GetMillis returns

  const POINT_FOR_CREATE_QUESTION := 3
  const POINT_FOR_CREATE_ANSWER := 3
  const POINT_FOR_SELECT_ANSWER := 3
  const POINT_FOR_SELECTED_ANSWER := 10
  const POINT_FOR_VOTED := 5
  const POINT_FOR_DOWN_VOTED := -3
  const POINT_FOR_FLAGGED := -2
  const MIN_POINT_FOR_PROTECTED := 10
  const COMMENT_LIMIT := 20
  const LATE_ANSWERS_MILLIS := 365 * 60 * 60 * 24 * 1000
  const FIRST_POSTS := "first_posts"
  const LATE_ANSWERS := "late_answers"

  datatype PostKind = Question | Answer | Comment
  datatype VoteKind = UpVote | DownVote | Flag | Review | System

  datatype Post = Post(
    kind: PostKind, rootId: Id, parentId: Id, originalId: Id, bestId: Id, userId: Id, teamId: Id,
    title: string, content: string, tags: seq<string>,
    upVotes: int, downVotes: int, points: int, answerCount: int, flagCount: int,
    protectedAt: int, lockedAt: int, createAt: int, updateAt: int, editAt: int, deleteAt: int)

  // Primary key of Votes.
  datatype VoteKey = VoteKey(userId: Id, kind: VoteKind, postId: Id)

  datatype Vote = Vote(
    tags: seq<string>, teamId: Id, firstRev: int, lastRev: int, createAt: int,
    invalidateAt: int, completedAt: int, completedBy: Id, rejectedAt: int, rejectedBy: Id)

  datatype User = User(points: int, suspendTime: int)
  datatype Member = Member(points: int, active: bool)

  datatype PointKind =
    | CreateQuestionPoint | CreateAnswerPoint | SelectAnswerPoint | SelectedAnswerPoint
    | DeleteQuestionPoint | DeleteAnswerPoint
    | Gained(vote: VoteKind) | Canceled(vote: VoteKind)

  datatype HistoryRow = HistoryRow(
    teamId: Id, userId: Id, kind: PointKind, postId: Id, postKind: PostKind, tags: seq<string>,
    points: int, createAt: int)

  datatype Tables = Tables(
    posts: map<Id, Post>, votes: map<VoteKey, Vote>, users: map<Id, User>,
    members: map<(Id, Id), Member>, history: seq<HistoryRow>)

  const EMPTY := Tables(map[], map[], map[], map[], [])

  // ---- Queries ----

  predicate Live(t: Tables, id: Id) { id in t.posts && t.posts[id].deleteAt == 0 }

  predicate Archived(p: Post) { p.originalId != NO_ID }

  predicate Suspending(u: User, now: int) { 0 < u.suspendTime && now < u.suspendTime }

  // GetUser succeeds and the user may write public posts and votes.
  predicate MayAct(t: Tables, userId: Id, teamId: Id, now: int) {
    userId in t.users && (teamId == NO_ID ==> !Suspending(t.users[userId], now))
  }

  predicate UnderReview(kind: VoteKind) { kind.Review? || kind.Flag? || kind.System? }

  predicate Open(v: Vote) { v.invalidateAt == 0 && v.completedAt == 0 && v.rejectedAt == 0 }

  predicate Ballot(kind: VoteKind) { kind.UpVote? || kind.DownVote? || kind.Flag? }

  function LiveChildren(posts: map<Id, Post>, id: Id, kind: PostKind): set<Id> {
    set c | c in posts.Keys && posts[c].parentId == id && posts[c].kind == kind && posts[c].deleteAt == 0
  }

  function Archive(t: Tables, id: Id): set<Id> {
    set c | c in t.posts.Keys && t.posts[c].originalId == id
  }

  // The team filter of the queries: for no team it asks for TeamId IS NULL, which no row has, since
  // they store the empty string.
  predicate InTeam(p: Post, teamId: Id) { teamId != NO_ID && p.teamId == teamId }

  // The archived versions of a post, filtered by team.
  function Rows(t: Tables, id: Id, teamId: Id): set<Id> {
    set c | c in Archive(t, id) && InTeam(t.posts[c], teamId)
  }

  // GetCurrentRevisionForPost.
  function Revision(t: Tables, id: Id, teamId: Id): int { |Rows(t, id, teamId)| + 1 }

  // The live posts of a user, filtered by team.
  function PostsOf(t: Tables, userId: Id, teamId: Id): set<Id> {
    set c | c in t.posts.Keys && t.posts[c].deleteAt == 0 && InTeam(t.posts[c], teamId) && t.posts[c].userId == userId
  }

  // GetPostCount(...) <= 1.
  predicate FirstPost(t: Tables, userId: Id, teamId: Id) { |PostsOf(t, userId, teamId)| <= 1 }

  // The tags a history row carries: those of the question the post hangs under.
  // None when that question has been deleted.
  function TagsForPost(t: Tables, p: Post): Option<seq<string>> {
    match p.kind
    case Question => Some(p.tags)
    case Answer => if Live(t, p.parentId) then Some(t.posts[p.parentId].tags) else None
    case Comment => if Live(t, p.rootId) then Some(t.posts[p.rootId].tags) else None
  }

  // ---- Single statements ----

  function PointsOf(t: Tables, u: Id): int { if u in t.users then t.users[u].points else 0 }

  // UPDATE Users SET Points = Points + delta WHERE Id = userId
  function AddUserPoints(t: Tables, userId: Id, delta: int): (r: Tables)
    ensures r == t.(users := r.users) && r.users.Keys == t.users.Keys
    ensures forall u :: PointsOf(r, u) == PointsOf(t, u) + if u == userId && u in t.users then delta else 0
    ensures forall u :: u in t.users ==> r.users[u].suspendTime == t.users[u].suspendTime
  {
    if userId in t.users then t.(users := t.users[userId := t.users[userId].(points := t.users[userId].points + delta)])
    else t
  }

  // UPDATE TeamMembers SET Points = Points + delta WHERE TeamId = .. AND UserId = .. AND DeleteAt = 0
  function AddMemberPoints(t: Tables, teamId: Id, userId: Id, delta: int): (r: Tables)
    ensures r == t.(members := r.members) && r.members.Keys == t.members.Keys
  {
    var key := (teamId, userId);
    if key in t.members && t.members[key].active
    then t.(members := t.members[key := t.members[key].(points := t.members[key].points + delta)])
    else t
  }

  function AddPoints(t: Tables, teamId: Id, userId: Id, delta: int): (r: Tables)
    ensures r == t.(users := r.users, members := r.members)
    ensures r.users.Keys == t.users.Keys && r.members.Keys == t.members.Keys
    ensures forall u ::
      PointsOf(r, u) == PointsOf(t, u) + if teamId == NO_ID && u == userId && u in t.users then delta else 0
    ensures forall u :: u in t.users ==> r.users[u].suspendTime == t.users[u].suspendTime
  {
    if teamId == NO_ID then AddUserPoints(t, userId, delta) else AddMemberPoints(t, teamId, userId, delta)
  }

  function Log(t: Tables, row: HistoryRow): Tables { t.(history := t.history + [row]) }

  // The points of the author of post `id`, together with their history row.
  function Award(t: Tables, id: Id, kind: PointKind, tags: seq<string>, delta: int, now: int): (r: Tables)
    requires id in t.posts
    ensures r.posts == t.posts && r.votes == t.votes
    ensures r.users.Keys == t.users.Keys && r.members.Keys == t.members.Keys
    ensures var p := t.posts[id];
      r.history == t.history + [HistoryRow(p.teamId, p.userId, kind, id, p.kind, tags, delta, now)]
    ensures forall u :: u in t.users ==> r.users[u].suspendTime == t.users[u].suspendTime
    ensures t.posts[id].userId in t.users ==> forall u ::
      PointsOf(r, u) == PointsOf(t, u) + if t.posts[id].teamId == NO_ID && u == t.posts[id].userId then delta else 0
  {
    var p := t.posts[id];
    Log(AddPoints(t, p.teamId, p.userId, delta),
        HistoryRow(p.teamId, p.userId, kind, id, p.kind, tags, delta, now))
  }

  function PutPost(t: Tables, id: Id, p: Post): Tables { t.(posts := t.posts[id := p]) }

  function PutVote(t: Tables, k: VoteKey, v: Vote): Tables { t.(votes := t.votes[k := v]) }

  function NewVote(tags: seq<string>, teamId: Id, rev: int, now: int): Vote {
    Vote(tags, teamId, rev, 0, now, 0, 0, NO_ID, 0, NO_ID)
  }

  function NewPost(kind: PostKind, rootId: Id, parentId: Id, userId: Id, teamId: Id,
                   title: string, content: string, tags: seq<string>, now: int): Post {
    Post(kind, rootId, parentId, NO_ID, NO_ID, userId, teamId, title, content, tags,
         0, 0, 0, 0, 0, 0, 0, now, now, 0, 0)
  }

  function SystemReview(t: Tables, id: Id, teamId: Id, tags: seq<string>, now: int): (r: Tables)
    ensures r == t.(votes := r.votes)
  {
    var k := VoteKey(NO_ID, System, id);
    if tags == [] || k in t.votes then t else PutVote(t, k, NewVote(tags, teamId, 1, now))
  }

  // An open review, flag or system review of post `id` becomes `closed(v)`.
  function CloseReviews(t: Tables, id: Id, closed: Vote -> Vote): (r: Tables)
    ensures r == t.(votes := r.votes) && r.votes.Keys == t.votes.Keys
  {
    t.(votes := map k | k in t.votes ::
      if k.postId == id && UnderReview(k.kind) && Open(t.votes[k]) then closed(t.votes[k]) else t.votes[k])
  }

  function Invalidated(now: int, rev: int): Vote -> Vote {
    (v: Vote) => v.(invalidateAt := now, lastRev := rev)
  }

  function Rejected(now: int, actor: Id, rev: int): Vote -> Vote {
    (v: Vote) => v.(rejectedAt := now, rejectedBy := actor, lastRev := rev)
  }

  function Completed(now: int, actor: Id, rev: int): Vote -> Vote {
    (v: Vote) => v.(completedAt := now, completedBy := actor, lastRev := rev)
  }

  // ---- Creating and editing posts ----

  function CreateQuestion(t: Tables, id: RowId, userId: Id, teamId: Id, title: string, content: string,
                          tags: seq<string>, now: Millis): Option<Tables> {
    if !MayAct(t, userId, teamId, now) || id in t.posts then None else
      var t1 := PutPost(t, id, NewPost(Question, NO_ID, NO_ID, userId, teamId, title, content, tags, now));
      var t2 := Award(t1, id, CreateQuestionPoint, tags, POINT_FOR_CREATE_QUESTION, now);
      Some(SystemReview(t2, id, teamId, if FirstPost(t2, userId, teamId) then [FIRST_POSTS] else [], now))
  }

  // The answer row and the question's AnswerCount.
  function InsertAnswer(t: Tables, id: RowId, userId: Id, teamId: Id, parentId: Id, content: string,
                        now: Millis): Tables
    requires parentId in t.posts
  {
    var t1 := PutPost(t, id, NewPost(Answer, parentId, parentId, userId, teamId, "", content, [], now));
    PutPost(t1, parentId, t.posts[parentId].(answerCount := t.posts[parentId].answerCount + 1, updateAt := now))
  }

  function AnswerReviewTags(t: Tables, userId: Id, teamId: Id, parent: Post, now: int): seq<string> {
    (if FirstPost(t, userId, teamId) then [FIRST_POSTS] else []) +
    (if LATE_ANSWERS_MILLIS < now - parent.createAt then [LATE_ANSWERS] else [])
  }

  // The answer's team is the caller's; it is not compared with the question's.
  function CreateAnswer(t: Tables, id: RowId, userId: Id, teamId: Id, parentId: Id, content: string,
                        now: Millis): Option<Tables> {
    if !Live(t, parentId) || !t.posts[parentId].kind.Question? || !MayAct(t, userId, teamId, now)
       || (teamId == NO_ID && 0 < t.posts[parentId].protectedAt && t.users[userId].points < MIN_POINT_FOR_PROTECTED)
       || id in t.posts
    then None else
      var parent := t.posts[parentId];
      var t1 := InsertAnswer(t, id, userId, teamId, parentId, content, now);
      // no points for answering one's own question
      var t2 := if userId == parent.userId then t1
                else Award(t1, id, CreateAnswerPoint, parent.tags, POINT_FOR_CREATE_ANSWER, now);
      Some(SystemReview(t2, id, teamId, AnswerReviewTags(t2, userId, teamId, parent, now), now))
  }

  function CreateComment(t: Tables, id: RowId, userId: Id, teamId: Id, parentId: Id, content: string,
                         now: Millis): Option<Tables> {
    if !Live(t, parentId) || t.posts[parentId].kind.Comment? || !MayAct(t, userId, teamId, now)
       || COMMENT_LIMIT <= |LiveChildren(t.posts, parentId, Comment)| || id in t.posts
    then None else
      var parent := t.posts[parentId];
      var rootId := if parent.kind.Question? then parentId else parent.parentId;
      var t1 := PutPost(t, id, NewPost(Comment, rootId, parentId, userId, teamId, "", content, [], now));
      Some(SystemReview(t1, id, teamId, if FirstPost(t1, userId, teamId) then [FIRST_POSTS] else [], now))
  }

  function Words(s: seq<string>): set<string> { set w | w in s }

  function Edited(p: Post, title: string, content: string, tags: seq<string>, now: int): Post {
    var newTitle := if p.kind.Question? then title else p.title;
    var newTags := if p.kind.Question? && Words(p.tags) != Words(tags) then tags else p.tags;
    var edited := newTitle != p.title || newTags != p.tags || content != p.content;
    p.(title := newTitle, tags := newTags, content := content, updateAt := now,
       editAt := if edited then now else p.editAt)
  }

  // The version replaced by an update stays as a deleted row pointing at the post.
  function ArchivedCopy(p: Post, id: Id, now: int): Post {
    p.(originalId := id, deleteAt := now, updateAt := now)
  }

  function UpdatePost(t: Tables, id: Id, archiveId: RowId, kind: PostKind, title: string, content: string,
                      tags: seq<string>, now: Millis): Option<Tables> {
    if !Live(t, id) || t.posts[id].kind != kind then None else
      var t1 := PutPost(t, id, Edited(t.posts[id], title, content, tags, now));
      Some(if archiveId in t.posts then t1 else PutPost(t1, archiveId, ArchivedCopy(t.posts[id], id, now)))
  }

  // LockPost, CancelLockPost (on = false), for public questions and answers.
  function LockPost(t: Tables, id: Id, on: bool, now: Millis): Option<Tables> {
    if !Live(t, id) || t.posts[id].kind.Comment? || t.posts[id].teamId != NO_ID
       || (!on && t.posts[id].lockedAt == 0)
    then None
    else Some(PutPost(t, id, t.posts[id].(lockedAt := if on then now else 0, updateAt := now)))
  }

  // ProtectPost, CancelProtectPost (on = false), for public questions.
  function ProtectPost(t: Tables, id: Id, on: bool, now: Millis): Option<Tables> {
    if !Live(t, id) || !t.posts[id].kind.Question? || t.posts[id].teamId != NO_ID then None
    else Some(PutPost(t, id, t.posts[id].(protectedAt := if on then now else 0, updateAt := now)))
  }

  // ---- Deleting ----

  function MarkDeleted(t: Tables, id: Id, now: Millis): Tables
    requires id in t.posts
  {
    PutPost(t, id, t.posts[id].(deleteAt := now, updateAt := now))
  }

  function Invalidate(t: Tables, id: Id, now: int): (r: Tables)
    requires id in t.posts
    ensures r == t.(votes := r.votes) && r.votes.Keys == t.votes.Keys
  {
    CloseReviews(t, id, Invalidated(now, Revision(t, id, t.posts[id].teamId)))
  }

  function DeleteQuestion(t: Tables, id: Id, now: Millis): Option<Tables> {
    if !Live(t, id) then None else
      var t1 := Invalidate(MarkDeleted(t, id, now), id, now);
      Some(Award(t1, id, DeleteQuestionPoint, t.posts[id].tags, -POINT_FOR_CREATE_QUESTION, now))
  }

  // AnswerCount = AnswerCount - 1 WHERE Id = .. AND Type = question
  function DropAnswer(t: Tables, questionId: Id): Tables {
    if questionId in t.posts && t.posts[questionId].kind.Question?
    then PutPost(t, questionId, t.posts[questionId].(answerCount := t.posts[questionId].answerCount - 1))
    else t
  }

  function DeleteAnswer(t: Tables, id: Id, now: Millis): Option<Tables> {
    if !Live(t, id) || !Live(t, t.posts[id].parentId) then None else
      var parentId := t.posts[id].parentId;
      var t1 := Invalidate(DropAnswer(MarkDeleted(t, id, now), parentId), id, now);
      Some(Award(t1, id, DeleteAnswerPoint, t.posts[parentId].tags, -POINT_FOR_CREATE_ANSWER, now))
  }

  function DeleteComment(t: Tables, id: Id, now: Millis): Option<Tables> {
    if !Live(t, id) then None else Some(Invalidate(MarkDeleted(t, id, now), id, now))
  }

  // DeletePostForcely: no look at what hangs under the post.
  function ForceDelete(t: Tables, id: Id, now: Millis): Option<Tables> {
    if !Live(t, id) then None else
      match t.posts[id].kind
      case Question => DeleteQuestion(t, id, now)
      case Answer => DeleteAnswer(t, id, now)
      case Comment => DeleteComment(t, id, now)
  }

  // What DeletePost checks before deleting.
  predicate Deletable(t: Tables, id: Id)
    requires id in t.posts
  {
    match t.posts[id].kind
    case Comment => true
    case Question => LiveChildren(t.posts, id, Answer) == {} && LiveChildren(t.posts, id, Comment) == {}
    case Answer =>
      LiveChildren(t.posts, id, Answer) == {} && LiveChildren(t.posts, id, Comment) == {}
      && Live(t, t.posts[id].parentId) && t.posts[t.posts[id].parentId].kind.Question?
      && t.posts[t.posts[id].parentId].bestId != id
  }

  function DeletePost(t: Tables, id: Id, now: Millis): Option<Tables> {
    if !Live(t, id) || !Deletable(t, id) then None else ForceDelete(t, id, now)
  }

  // ---- Best answer ----

  // The question's team decides whose points move: users' or team members'.
  function PaySelection(t: Tables, q: Post, a: Post): (r: Tables)
    ensures r == t.(users := r.users, members := r.members)
    ensures r.users.Keys == t.users.Keys && r.members.Keys == t.members.Keys
    ensures q.userId in t.users && a.userId in t.users ==> forall u ::
      PointsOf(r, u) == PointsOf(t, u) + (if q.teamId == NO_ID && u == q.userId then POINT_FOR_SELECT_ANSWER else 0)
                                       + (if q.teamId == NO_ID && u == a.userId then POINT_FOR_SELECTED_ANSWER else 0)
  {
    if q.teamId == NO_ID
    then AddUserPoints(AddUserPoints(t, q.userId, POINT_FOR_SELECT_ANSWER), a.userId, POINT_FOR_SELECTED_ANSWER)
    else AddMemberPoints(AddMemberPoints(t, q.teamId, q.userId, POINT_FOR_SELECT_ANSWER), a.teamId, a.userId,
                         POINT_FOR_SELECTED_ANSWER)
  }

  function SelectBestAnswer(t: Tables, id: Id, bestId: Id, now: Millis): Option<Tables> {
    if !Live(t, id) || t.posts[id].bestId != NO_ID || !Live(t, bestId) || !t.posts[bestId].kind.Answer?
       || t.posts[bestId].parentId != id || !t.posts[id].kind.Question?
    then None else
      var q, a := t.posts[id], t.posts[bestId];
      var t1 := PutPost(t, id, q.(bestId := bestId, updateAt := now));
      if q.userId == a.userId then Some(t1) else
        // each row is filed under its own post's team
        var r1 := HistoryRow(q.teamId, q.userId, SelectAnswerPoint, id, q.kind, q.tags, POINT_FOR_SELECT_ANSWER, now);
        var r2 := HistoryRow(a.teamId, a.userId, SelectedAnswerPoint, bestId, a.kind, q.tags,
                             POINT_FOR_SELECTED_ANSWER, now);
        Some(Log(Log(PaySelection(t1, q, a), r1), r2))
  }

  // ---- Votes and flags ----

  function PointsFor(kind: VoteKind): int {
    match kind
    case UpVote => POINT_FOR_VOTED
    case DownVote => POINT_FOR_DOWN_VOTED
    case Flag => POINT_FOR_FLAGGED
    case Review => 0
    case System => 0
  }

  // Counters of a post after `n` more (or -1: one fewer) votes of this kind.
  function Counted(p: Post, kind: VoteKind, n: int, now: int): Post {
    match kind
    case UpVote => p.(upVotes := p.upVotes + n, points := p.points + n, updateAt := now)
    case DownVote => p.(downVotes := p.downVotes + n, points := p.points - n, updateAt := now)
    case Flag => p.(flagCount := p.flagCount + n, updateAt := now)
    case _ => p
  }

  // Voting on one's own post moves no points; flagging it does.
  predicate Paid(kind: VoteKind, voter: Id, author: Id) { kind.Flag? || voter != author }

  predicate MayVote(t: Tables, kind: VoteKind, id: Id, userId: Id, now: int)
    requires id in t.posts
  {
    kind.Flag? ||
    (!t.posts[id].kind.Comment? && (t.posts[id].teamId == NO_ID ==> t.posts[id].lockedAt <= 0)
     && MayAct(t, userId, t.posts[id].teamId, now))
  }

  // The points of the author, once the vote row and the counters are written.
  function Settle(t: Tables, id: Id, kind: PointKind, delta: int, now: int): Option<Tables>
    requires id in t.posts
  {
    match TagsForPost(t, t.posts[id])
    case None => None
    case Some(tags) => Some(Award(t, id, kind, tags, delta, now))
  }

  // UpVotePost, DownVotePost, FlagPost.
  function Cast(t: Tables, kind: VoteKind, id: Id, userId: Id, now: Millis): Option<Tables>
    requires Ballot(kind)
  {
    var key := VoteKey(userId, kind, id);
    if !Live(t, id) || !MayVote(t, kind, id, userId, now) || key in t.votes then None else
      var p := t.posts[id];
      var rev := if kind.Flag? then Revision(t, id, p.teamId) else 0;
      var t1 := PutPost(PutVote(t, key, NewVote([], p.teamId, rev, now)), id, Counted(p, kind, 1, now));
      if !Paid(kind, userId, p.userId) then Some(t1) else Settle(t1, id, Gained(kind), PointsFor(kind), now)
  }

  // CancelUpVotePost, CancelDownVotePost, CancelFlagPost, without the clamps at zero.
  function Cancel(t: Tables, kind: VoteKind, id: Id, userId: Id, now: Millis): Option<Tables>
    requires Ballot(kind)
  {
    var key := VoteKey(userId, kind, id);
    if !Live(t, id) || !MayVote(t, kind, id, userId, now) || key !in t.votes then None else
      var p := t.posts[id];
      var t1 := PutPost(t.(votes := t.votes - {key}), id, Counted(p, kind, -1, now));
      if !Paid(kind, userId, p.userId) then Some(t1) else Settle(t1, id, Canceled(kind), -PointsFor(kind), now)
  }

  // ---- Reviews ----

  predicate RejectedAtRevision(t: Tables, id: Id, rev: int) {
    exists k :: k in t.votes && k.postId == id && UnderReview(k.kind)
             && t.votes[k].lastRev == rev && 0 < t.votes[k].rejectedAt
  }

  // The revision is always looked up as for a public post, even when the post belongs to a team.
  function CreateReview(t: Tables, id: Id, userId: Id, tags: seq<string>, now: Millis): Option<Tables> {
    var key := VoteKey(userId, Review, id);
    if !Live(t, id) || RejectedAtRevision(t, id, Revision(t, id, NO_ID)) || key in t.votes then None
    else Some(PutVote(t, key, NewVote(tags, t.posts[id].teamId, Revision(t, id, NO_ID), now)))
  }

  // RejectReviewsForPost behind the handler's check that the post is public.
  function RejectReviews(t: Tables, id: Id, actor: Id, now: Millis): Option<Tables> {
    if !Live(t, id) || t.posts[id].teamId != NO_ID then None
    else Some(CloseReviews(t, id, Rejected(now, actor, Revision(t, id, NO_ID))))
  }

  // CompleteReviewsForPost behind the same check: delete first, then complete.
  function CompleteReviews(t: Tables, id: Id, actor: Id, now: Millis): Option<Tables> {
    if !Live(t, id) || t.posts[id].teamId != NO_ID then None else
      match ForceDelete(t, id, now)
      case None => None
      case Some(t1) => Some(CloseReviews(t1, id, Completed(now, actor, Revision(t1, id, NO_ID))))
  }

  // ---- Accounts ----

  function Register(t: Tables, userId: Id): Option<Tables> {
    if userId in t.users then None else Some(t.(users := t.users[userId := User(0, 0)]))
  }

  function Suspend(t: Tables, userId: Id, until: int): Option<Tables> {
    if userId !in t.users then None
    else Some(t.(users := t.users[userId := t.users[userId].(suspendTime := until)]))
  }

  // Joining, leaving and re-joining a team as seen from the posts: points survive.
  function SetMember(t: Tables, teamId: RowId, userId: Id, active: bool): Option<Tables> {
    var key := (teamId, userId);
    var points := if key in t.members then t.members[key].points else 0;
    Some(t.(members := t.members[key := Member(points, active)]))
  }

  // ---- Runs ----

  datatype Op =
    | DoCreateQuestion(id: RowId, userId: Id, teamId: Id, title: string, content: string, tags: seq<string>)
    | DoCreateAnswer(id: RowId, userId: Id, teamId: Id, parentId: Id, content: string)
    | DoCreateComment(id: RowId, userId: Id, teamId: Id, parentId: Id, content: string)
    | DoUpdate(postId: Id, archiveId: RowId, kind: PostKind, title: string, content: string, tags: seq<string>)
    | DoLock(postId: Id, on: bool)
    | DoProtect(postId: Id, on: bool)
    | DoDelete(postId: Id)
    | DoForceDelete(postId: Id)
    | DoSelect(postId: Id, bestId: Id)
    | DoCast(postId: Id, vote: VoteKind, userId: Id)
    | DoCancel(postId: Id, vote: VoteKind, userId: Id)
    | DoReview(postId: Id, userId: Id, tags: seq<string>)
    | DoReject(postId: Id, userId: Id)
    | DoComplete(postId: Id, userId: Id)
    | DoRegister(userId: Id)
    | DoSuspend(userId: Id, until: int)
    | DoSetMember(team: RowId, userId: Id, on: bool)

  function Step(t: Tables, op: Op, now: Millis): Option<Tables> {
    match op
    case DoCreateQuestion(id, userId, teamId, title, content, tags) =>
      CreateQuestion(t, id, userId, teamId, title, content, tags, now)
    case DoCreateAnswer(id, userId, teamId, parentId, content) =>
      CreateAnswer(t, id, userId, teamId, parentId, content, now)
    case DoCreateComment(id, userId, teamId, parentId, content) =>
      CreateComment(t, id, userId, teamId, parentId, content, now)
    case DoUpdate(id, archiveId, kind, title, content, tags) =>
      UpdatePost(t, id, archiveId, kind, title, content, tags, now)
    case DoLock(id, on) => LockPost(t, id, on, now)
    case DoProtect(id, on) => ProtectPost(t, id, on, now)
    case DoDelete(id) => DeletePost(t, id, now)
    case DoForceDelete(id) => ForceDelete(t, id, now)
    case DoSelect(id, bestId) => SelectBestAnswer(t, id, bestId, now)
    case DoCast(id, kind, userId) => if Ballot(kind) then Cast(t, kind, id, userId, now) else None
    case DoCancel(id, kind, userId) => if Ballot(kind) then Cancel(t, kind, id, userId, now) else None
    case DoReview(id, userId, tags) => CreateReview(t, id, userId, tags, now)
    case DoReject(id, actor) => RejectReviews(t, id, actor, now)
    case DoComplete(id, actor) => CompleteReviews(t, id, actor, now)
    case DoRegister(userId) => Register(t, userId)
    case DoSuspend(userId, until) => Suspend(t, userId, until)
    case DoSetMember(team, userId, on) => SetMember(t, team, userId, on)
  }

  function Apply(t: Tables, op: Op, now: Millis): Tables {
    match Step(t, op, now)
    case None => t
    case Some(t') => t'
  }

  datatype Call = Call(op: Op, now: Millis)

  // The tables after a run of calls, each served at its own time.
  function Run(calls: seq<Call>): Tables {
    if calls == [] then EMPTY
    else Apply(Run(calls[..|calls| - 1]), calls[|calls| - 1].op, calls[|calls| - 1].now)
  }
}
