/** The post store as the server runs it: tables updated in place, statement by statement, inside a
    transaction that is rolled back when a later statement fails. Every method is proved to do what
    the table functions say, and hence to keep all the invariants. */
module PostStore {
  import opened PostTables
  import opened Wrappers
  import opened PostShape
  import opened PostCounters
  import opened PostLedger
  import opened PostBooks
  import opened PostReviews

  ghost predicate Sane(t: Tables) { Shape(t) && Counters(t) && Balanced(t) && Reviews(t) }

  lemma StepKeepsSane(t: Tables, op: Op, now: Millis)
    requires Sane(t)
    ensures Sane(Apply(t, op, now))
  {
    hide Shape, Counters, Balanced, Reviews, Apply;
    StepKeepsShape(t, op, now);
    StepKeepsCounters(t, op, now);
    StepKeepsBooks(t, op, now);
    StepKeepsReviews(t, op, now);
  }

  // What a transaction can undo; the point history is written outside it.
  datatype Snapshot = Snapshot(posts: map<Id, Post>, votes: map<VoteKey, Vote>, users: map<Id, User>,
                               members: map<(Id, Id), Member>)

  class Store {
    var posts: map<Id, Post>
    var votes: map<VoteKey, Vote>
    var users: map<Id, User>
    var members: map<(Id, Id), Member>
    var history: seq<HistoryRow>

    function T(): Tables
      reads this
    {
      Tables(posts, votes, users, members, history)
    }

    ghost predicate Valid()
      reads this
    {
      Sane(T())
    }

    constructor ()
      ensures T() == EMPTY && Valid()
    {
      posts, votes, users, members, history := map[], map[], map[], map[], [];
      new;
      RunKeepsShape([]);
      RunKeepsCounters([]);
      RunKeepsBooks([]);
      RunKeepsReviews([]);
    }

    // ---- Statements ----

    method Begin() returns (s: Snapshot)
      ensures s == Snapshot(posts, votes, users, members)
    {
      s := Snapshot(posts, votes, users, members);
    }

    method Rollback(s: Snapshot)
      modifies `posts, `votes, `users, `members
      ensures T() == Tables(s.posts, s.votes, s.users, s.members, old(history))
    {
      posts, votes, users, members := s.posts, s.votes, s.users, s.members;
    }

    method UpdatePoints(teamId: Id, userId: Id, delta: int)
      modifies `users, `members
      ensures T() == AddPoints(old(T()), teamId, userId, delta)
    {
      if teamId == NO_ID {
        UpdateUserPoints(userId, delta);
      } else {
        UpdateMemberPoints(teamId, userId, delta);
      }
    }

    method UpdateUserPoints(userId: Id, delta: int)
      modifies `users
      ensures T() == AddUserPoints(old(T()), userId, delta)
    {
      if userId in users {
        users := users[userId := users[userId].(points := users[userId].points + delta)];
      }
    }

    method UpdateMemberPoints(teamId: Id, userId: Id, delta: int)
      modifies `members
      ensures T() == AddMemberPoints(old(T()), teamId, userId, delta)
    {
      var key := (teamId, userId);
      if key in members && members[key].active {
        members := members[key := members[key].(points := members[key].points + delta)];
      }
    }

    method SaveHistory(row: HistoryRow)
      modifies `history
      ensures T() == Log(old(T()), row)
    {
      history := history + [row];
    }

    method SaveSystemReview(id: Id, teamId: Id, tags: seq<string>, now: Millis)
      modifies `votes
      ensures T() == SystemReview(old(T()), id, teamId, tags, now)
    {
      var key := VoteKey(NO_ID, System, id);
      if tags != [] && key !in votes {
        votes := votes[key := NewVote(tags, teamId, 1, now)];
      }
    }

    method InvalidateReviews(id: Id, now: Millis)
      requires id in posts
      modifies `votes
      ensures T() == Invalidate(old(T()), id, now)
    {
      var rev := Revision(T(), id, posts[id].teamId);
      votes := map k | k in votes ::
        if k.postId == id && UnderReview(k.kind) && Open(votes[k])
        then votes[k].(invalidateAt := now, lastRev := rev) else votes[k];
      assert votes == CloseReviews(old(T()), id, Invalidated(now, rev)).votes;
    }

    // ---- Posts ----

    method CreateQuestion(id: RowId, userId: Id, teamId: Id, title: string, content: string, tags: seq<string>,
                          now: Millis)
      returns (ok: bool)
      requires Valid()
      modifies this
      ensures Valid()
      ensures var op := DoCreateQuestion(id, userId, teamId, title, content, tags);
        ok == Step(old(T()), op, now).Some? && T() == Apply(old(T()), op, now)
    {
      hide Sane;
      ghost var t := T();
      StepKeepsSane(t, DoCreateQuestion(id, userId, teamId, title, content, tags), now);
      if !MayAct(T(), userId, teamId, now) { return false; }
      if id in posts { return false; }
      posts := posts[id := NewPost(Question, NO_ID, NO_ID, userId, teamId, title, content, tags, now)];
      UpdatePoints(teamId, userId, POINT_FOR_CREATE_QUESTION);
      SaveHistory(HistoryRow(teamId, userId, CreateQuestionPoint, id, Question, tags, POINT_FOR_CREATE_QUESTION, now));
      SaveSystemReview(id, teamId, if FirstPost(T(), userId, teamId) then [FIRST_POSTS] else [], now);
      return true;
    }

    method CreateAnswer(id: RowId, userId: Id, teamId: Id, parentId: Id, content: string,
                        now: Millis) returns (ok: bool)
      requires Valid()
      modifies this
      ensures Valid()
      ensures var op := DoCreateAnswer(id, userId, teamId, parentId, content);
        ok == Step(old(T()), op, now).Some? && T() == Apply(old(T()), op, now)
    {
      hide Sane, FirstPost, SystemReview;
      ghost var t := T();
      StepKeepsSane(t, DoCreateAnswer(id, userId, teamId, parentId, content), now);
      if !Live(T(), parentId) || !posts[parentId].kind.Question? { return false; }
      var parent := posts[parentId];
      if !MayAct(T(), userId, teamId, now) { return false; }
      if teamId == NO_ID && 0 < parent.protectedAt && users[userId].points < MIN_POINT_FOR_PROTECTED { return false; }
      if id in posts { return false; }
      posts := posts[id := NewPost(Answer, parentId, parentId, userId, teamId, "", content, [], now)];
      posts := posts[parentId := posts[parentId].(answerCount := posts[parentId].answerCount + 1, updateAt := now)];
      assert T() == InsertAnswer(t, id, userId, teamId, parentId, content, now);
      if userId != parent.userId {
        UpdatePoints(teamId, userId, POINT_FOR_CREATE_ANSWER);
        SaveHistory(HistoryRow(teamId, userId, CreateAnswerPoint, id, Answer, parent.tags,
                               POINT_FOR_CREATE_ANSWER, now));
      }
      var review := [];
      if FirstPost(T(), userId, teamId) { review := review + [FIRST_POSTS]; }
      if LATE_ANSWERS_MILLIS < now - parent.createAt { review := review + [LATE_ANSWERS]; }
      assert review == AnswerReviewTags(T(), userId, teamId, parent, now);
      SaveSystemReview(id, teamId, review, now);
      return true;
    }

    method CreateComment(id: RowId, userId: Id, teamId: Id, parentId: Id, content: string,
                         now: Millis) returns (ok: bool)
      requires Valid()
      modifies this
      ensures Valid()
      ensures var op := DoCreateComment(id, userId, teamId, parentId, content);
        ok == Step(old(T()), op, now).Some? && T() == Apply(old(T()), op, now)
    {
      hide Sane;
      ghost var t := T();
      StepKeepsSane(t, DoCreateComment(id, userId, teamId, parentId, content), now);
      if !Live(T(), parentId) { return false; }
      if !MayAct(T(), userId, teamId, now) { return false; }
      var rootId;
      match posts[parentId].kind {
        case Question => rootId := parentId;
        case Answer => rootId := posts[parentId].parentId;
        case Comment => return false;
      }
      if COMMENT_LIMIT <= |LiveChildren(posts, parentId, Comment)| { return false; }
      if id in posts { return false; }
      posts := posts[id := NewPost(Comment, rootId, parentId, userId, teamId, "", content, [], now)];
      SaveSystemReview(id, teamId, if FirstPost(T(), userId, teamId) then [FIRST_POSTS] else [], now);
      return true;
    }

    method UpdatePost(id: Id, archiveId: RowId, kind: PostKind, title: string, content: string, tags: seq<string>,
                      now: Millis)
      returns (ok: bool)
      requires Valid()
      modifies this
      ensures Valid()
      ensures var op := DoUpdate(id, archiveId, kind, title, content, tags);
        ok == Step(old(T()), op, now).Some? && T() == Apply(old(T()), op, now)
    {
      hide Sane;
      StepKeepsSane(T(), DoUpdate(id, archiveId, kind, title, content, tags), now);
      if !Live(T(), id) || posts[id].kind != kind { return false; }
      var oldPost := posts[id];
      var newPost := oldPost;
      var edited := false;
      if newPost.kind.Question? {
        if newPost.title != title { newPost := newPost.(title := title); edited := true; }
        if Words(oldPost.tags) != Words(tags) { newPost := newPost.(tags := tags); edited := true; }
      }
      if newPost.content != content { newPost := newPost.(content := content); edited := true; }
      if edited { newPost := newPost.(editAt := now); }
      newPost := newPost.(updateAt := now);
      oldPost := oldPost.(deleteAt := now, updateAt := now, originalId := id);
      posts := posts[id := newPost];
      if archiveId !in posts { posts := posts[archiveId := oldPost]; }
      return true;
    }

    // ---- Deletion ----

    method DeleteQuestion(id: Id, now: Millis) returns (ok: bool)
      modifies this
      ensures match PostTables.DeleteQuestion(old(T()), id, now)
        case Some(t') => ok && T() == t'
        case None => !ok && T() == old(T())
    {
      hide Revision, AddPoints, Invalidate;
      if !Live(T(), id) { return false; }
      var post := posts[id];
      posts := posts[id := post.(deleteAt := now, updateAt := now)];
      PayAndInvalidate(T(), id, post.teamId, post.userId, -POINT_FOR_CREATE_QUESTION, now);
      UpdatePoints(post.teamId, post.userId, -POINT_FOR_CREATE_QUESTION);
      InvalidateReviews(id, now);
      SaveHistory(HistoryRow(post.teamId, post.userId, DeleteQuestionPoint, id, post.kind, post.tags,
                             -POINT_FOR_CREATE_QUESTION, now));
      return true;
    }

    method DeleteAnswer(id: Id, now: Millis) returns (ok: bool)
      requires id in posts && posts[id].parentId != id
      modifies this
      ensures match PostTables.DeleteAnswer(old(T()), id, now)
        case Some(t') => ok && T() == t'
        case None => !ok && T() == old(T())
    {
      hide Revision, AddPoints, Invalidate;
      if !Live(T(), id) || !Live(T(), posts[id].parentId) { return false; }
      var post, parent := posts[id], posts[posts[id].parentId];
      posts := posts[id := post.(deleteAt := now, updateAt := now)];
      if posts[post.parentId].kind.Question? {
        posts := posts[post.parentId := posts[post.parentId].(answerCount := posts[post.parentId].answerCount - 1)];
      }
      PayAndInvalidate(T(), id, post.teamId, post.userId, -POINT_FOR_CREATE_ANSWER, now);
      UpdatePoints(post.teamId, post.userId, -POINT_FOR_CREATE_ANSWER);
      InvalidateReviews(id, now);
      SaveHistory(HistoryRow(post.teamId, post.userId, DeleteAnswerPoint, id, post.kind, parent.tags,
                             -POINT_FOR_CREATE_ANSWER, now));
      return true;
    }

    method DeleteComment(id: Id, now: Millis) returns (ok: bool)
      modifies this
      ensures match PostTables.DeleteComment(old(T()), id, now)
        case Some(t') => ok && T() == t'
        case None => !ok && T() == old(T())
    {
      if !Live(T(), id) { return false; }
      posts := posts[id := posts[id].(deleteAt := now, updateAt := now)];
      InvalidateReviews(id, now);
      return true;
    }

    method DeletePostForcely(id: Id, now: Millis) returns (ok: bool)
      requires Valid()
      modifies this
      ensures Valid()
      ensures ok == ForceDelete(old(T()), id, now).Some? && T() == Apply(old(T()), DoForceDelete(id), now)
    {
      hide Sane, Shape, PostTables.DeleteQuestion, PostTables.DeleteAnswer, PostTables.DeleteComment;
      StepKeepsSane(T(), DoForceDelete(id), now);
      if !Live(T(), id) { return false; }
      SaneIsPlaced(T(), id);
      match posts[id].kind {
        case Question => ok := DeleteQuestion(id, now);
        case Answer => ok := DeleteAnswer(id, now);
        case Comment => ok := DeleteComment(id, now);
      }
    }

    method DeletePost(id: Id, now: Millis) returns (ok: bool)
      requires Valid()
      modifies this
      ensures Valid()
      ensures ok == Step(old(T()), DoDelete(id), now).Some? && T() == Apply(old(T()), DoDelete(id), now)
    {
      hide Sane, ForceDelete;
      if !Live(T(), id) { return false; }
      var children := LiveChildren(posts, id, Answer) + LiveChildren(posts, id, Comment);
      match posts[id].kind {
        case Question =>
          if children != {} { return false; }
        case Answer =>
          if children != {} { return false; }
          var parentId := posts[id].parentId;
          if !Live(T(), parentId) || !posts[parentId].kind.Question? { return false; }
          if posts[parentId].bestId == id { return false; }
        case Comment =>
      }
      ok := DeletePostForcely(id, now);
    }

    // ---- Best answer ----

    method SelectBestAnswer(id: Id, bestId: Id, now: Millis) returns (ok: bool)
      requires Valid()
      modifies this
      ensures Valid()
      ensures ok == Step(old(T()), DoSelect(id, bestId), now).Some? && T() == Apply(old(T()), DoSelect(id, bestId), now)
    {
      hide Sane;
      StepKeepsSane(T(), DoSelect(id, bestId), now);
      if !Live(T(), id) || !posts[id].kind.Question? { return false; }
      var post := posts[id];
      if post.bestId != NO_ID { return false; }
      if !Live(T(), bestId) || !posts[bestId].kind.Answer? { return false; }
      var ans := posts[bestId];
      if ans.parentId != id { return false; }
      posts := posts[id := post.(bestId := bestId, updateAt := now)];
      if post.userId == ans.userId { return true; }
      if post.teamId == NO_ID {
        UpdateUserPoints(post.userId, POINT_FOR_SELECT_ANSWER);
        UpdateUserPoints(ans.userId, POINT_FOR_SELECTED_ANSWER);
      } else {
        UpdateMemberPoints(post.teamId, post.userId, POINT_FOR_SELECT_ANSWER);
        UpdateMemberPoints(ans.teamId, ans.userId, POINT_FOR_SELECTED_ANSWER);
      }
      SaveHistory(HistoryRow(post.teamId, post.userId, SelectAnswerPoint, id, post.kind, post.tags,
                             POINT_FOR_SELECT_ANSWER, now));
      SaveHistory(HistoryRow(ans.teamId, ans.userId, SelectedAnswerPoint, bestId, ans.kind, post.tags,
                             POINT_FOR_SELECTED_ANSWER, now));
      return true;
    }

    // ---- Votes ----

    // The tail of all six vote operations: pay the author, then look up the tags for the history row.
    // The lookup reads the committed tables; when it fails the transaction is rolled back.
    method PayAuthor(id: Id, s: Snapshot, kind: PointKind, delta: int, now: Millis) returns (ok: bool)
      requires id in posts
      modifies this
      ensures match Settle(old(T()), id, kind, delta, now)
        case Some(t') => ok && T() == t'
        case None => !ok && T() == Tables(s.posts, s.votes, s.users, s.members, old(history))
    {
      var post := posts[id];
      UpdatePoints(post.teamId, post.userId, delta);
      match TagsForPost(T(), post) {
        case None =>
          Rollback(s);
          return false;
        case Some(tags) =>
          SaveHistory(HistoryRow(post.teamId, post.userId, kind, id, post.kind, tags, delta, now));
          return true;
      }
    }

    // UpVotePost, DownVotePost, FlagPost.
    method CastVote(kind: VoteKind, id: Id, userId: Id, now: Millis) returns (ok: bool)
      requires Valid() && Ballot(kind)
      modifies this
      ensures Valid()
      ensures ok == Step(old(T()), DoCast(id, kind, userId), now).Some?
      ensures T() == Apply(old(T()), DoCast(id, kind, userId), now)
    {
      hide Sane, MayVote, Revision, Settle;
      StepKeepsSane(T(), DoCast(id, kind, userId), now);
      if !Live(T(), id) || !MayVote(T(), kind, id, userId, now) { return false; }
      var post := posts[id];
      var rev := if kind.Flag? then Revision(T(), id, post.teamId) else 0;
      var s := Begin();
      var key := VoteKey(userId, kind, id);
      if key in votes { return false; }
      votes := votes[key := NewVote([], post.teamId, rev, now)];
      match kind {
        case UpVote =>
          posts := posts[id := post.(upVotes := post.upVotes + 1, points := post.points + 1, updateAt := now)];
        case DownVote =>
          posts := posts[id := post.(downVotes := post.downVotes + 1, points := post.points - 1, updateAt := now)];
        case Flag => posts := posts[id := post.(flagCount := post.flagCount + 1, updateAt := now)];
      }
      if !kind.Flag? && userId == post.userId { return true; }
      ok := PayAuthor(id, s, Gained(kind), PointsFor(kind), now);
    }

    // CancelUpVotePost, CancelDownVotePost, CancelFlagPost, with the clamps at zero.
    method CancelVote(kind: VoteKind, id: Id, userId: Id, now: Millis) returns (ok: bool)
      requires Valid() && Ballot(kind)
      modifies this
      ensures Valid()
      ensures ok == Step(old(T()), DoCancel(id, kind, userId), now).Some?
      ensures T() == Apply(old(T()), DoCancel(id, kind, userId), now)
    {
      hide Sane, MayVote, Settle;
      StepKeepsSane(T(), DoCancel(id, kind, userId), now);
      if !Live(T(), id) || !MayVote(T(), kind, id, userId, now) { return false; }
      var key := VoteKey(userId, kind, id);
      if key !in votes { return false; }
      SaneCountsVote(T(), key);
      var post := posts[id];
      var s := Begin();
      votes := votes - {key};
      match kind {
        case UpVote =>
          var upVotes := post.upVotes - 1;
          if upVotes < 0 { upVotes := 0; }
          posts := posts[id := post.(upVotes := upVotes, points := post.points - 1, updateAt := now)];
        case DownVote =>
          var downVotes := post.downVotes - 1;
          if downVotes < 0 { downVotes := 0; }
          posts := posts[id := post.(downVotes := downVotes, points := post.points + 1, updateAt := now)];
        case Flag =>
          posts := posts[id := post.(flagCount := post.flagCount - 1, updateAt := now)];
      }
      if !kind.Flag? && userId == post.userId { return true; }
      ok := PayAuthor(id, s, Canceled(kind), -PointsFor(kind), now);
    }

    // ---- Reviews ----

    method CreateReview(id: Id, userId: Id, tags: seq<string>, now: Millis) returns (ok: bool)
      requires Valid()
      modifies this
      ensures Valid()
      ensures ok == Step(old(T()), DoReview(id, userId, tags), now).Some?
      ensures T() == Apply(old(T()), DoReview(id, userId, tags), now)
    {
      hide Sane, Revision;
      StepKeepsSane(T(), DoReview(id, userId, tags), now);
      if !Live(T(), id) { return false; }
      var rev := Revision(T(), id, NO_ID);
      if RejectedAtRevision(T(), id, rev) { return false; }
      var key := VoteKey(userId, Review, id);
      if key in votes { return false; }
      votes := votes[key := NewVote(tags, posts[id].teamId, rev, now)];
      return true;
    }

    method RejectReviews(id: Id, actor: Id, now: Millis) returns (ok: bool)
      requires Valid()
      modifies this
      ensures Valid()
      ensures ok == Step(old(T()), DoReject(id, actor), now).Some? && T() == Apply(old(T()), DoReject(id, actor), now)
    {
      hide Sane, Revision;
      StepKeepsSane(T(), DoReject(id, actor), now);
      if !Live(T(), id) || posts[id].teamId != NO_ID { return false; }
      var rev := Revision(T(), id, NO_ID);
      votes := map k | k in votes ::
        if k.postId == id && UnderReview(k.kind) && Open(votes[k])
        then votes[k].(rejectedAt := now, rejectedBy := actor, lastRev := rev) else votes[k];
      assert votes == CloseReviews(old(T()), id, Rejected(now, actor, rev)).votes;
      return true;
    }

    method CompleteReviews(id: Id, actor: Id, now: Millis) returns (ok: bool)
      requires Valid()
      modifies this
      ensures Valid()
      ensures ok == Step(old(T()), DoComplete(id, actor), now).Some?
      ensures T() == Apply(old(T()), DoComplete(id, actor), now)
    {
      hide Sane, ForceDelete, Revision;
      StepKeepsSane(T(), DoComplete(id, actor), now);
      if !Live(T(), id) || posts[id].teamId != NO_ID { return false; }
      ok := DeletePostForcely(id, now);
      if !ok { return; }
      ghost var t1 := T();
      var rev := Revision(T(), id, NO_ID);
      votes := map k | k in votes ::
        if k.postId == id && UnderReview(k.kind) && Open(votes[k])
        then votes[k].(completedAt := now, completedBy := actor, lastRev := rev) else votes[k];
      assert votes == CloseReviews(t1, id, Completed(now, actor, rev)).votes;
    }
  }

  // Paying the author and invalidating the reviews touch different tables.
  lemma PayAndInvalidate(t: Tables, id: Id, teamId: Id, userId: Id, delta: int, now: Millis)
    requires id in t.posts
    ensures Invalidate(AddPoints(t, teamId, userId, delta), id, now)
         == AddPoints(Invalidate(t, id, now), teamId, userId, delta)
  {
    hide Revision;
    SameRevision(t, AddPoints(t, teamId, userId, delta), id, t.posts[id].teamId);
  }

  lemma SaneIsPlaced(t: Tables, id: Id)
    requires Sane(t) && Live(t, id)
    ensures t.posts[id].kind.Answer? ==> t.posts[id].parentId != id
  {
    hide Shape;
    LivePlaced(t, id);
  }

  lemma SaneCountsVote(t: Tables, key: VoteKey)
    requires Sane(t) && key in t.votes
    ensures key.postId in t.posts
    ensures key.kind.UpVote? ==> 1 <= t.posts[key.postId].upVotes
    ensures key.kind.DownVote? ==> 1 <= t.posts[key.postId].downVotes
  {
    hide Shape, Counters;
    ClampNeverFires(t, key);
  }
}
