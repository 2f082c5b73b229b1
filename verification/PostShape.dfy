/** The post tree: what every row refers to, and what no operation ever changes about a row. */
module PostShape {
  import opened PostTables
  import opened Wrappers

  // The columns written once, when the row is inserted.
  predicate SameIdentity(p: Post, q: Post) {
    p.kind == q.kind && p.rootId == q.rootId && p.parentId == q.parentId
    && p.originalId == q.originalId && p.userId == q.userId && p.teamId == q.teamId
  }

  // Where the row hangs: an answer under a question, a comment under a question or an answer,
  // with the question at the root of its thread.
  ghost predicate Placed(t: Tables, p: Post) {
    match p.kind
    case Question => p.parentId == NO_ID && p.rootId == NO_ID
    case Answer =>
      p.parentId in t.posts && t.posts[p.parentId].kind.Question? && !Archived(t.posts[p.parentId])
      && p.rootId == p.parentId
    case Comment =>
      p.parentId in t.posts && !t.posts[p.parentId].kind.Comment? && !Archived(t.posts[p.parentId])
      && p.rootId == (if t.posts[p.parentId].kind.Question? then p.parentId else t.posts[p.parentId].parentId)
  }

  // The best answer of a question is one of its own answers.
  ghost predicate BestPlaced(t: Tables, id: Id)
    requires id in t.posts
  {
    var p := t.posts[id];
    p.bestId != NO_ID ==>
      p.kind.Question? && p.bestId in t.posts && t.posts[p.bestId].kind.Answer? && !Archived(t.posts[p.bestId])
      && t.posts[p.bestId].parentId == (if Archived(p) then p.originalId else id)
  }

  ghost predicate ArchivePlaced(t: Tables, p: Post) {
    Archived(p) ==>
      p.deleteAt != 0 && p.originalId in t.posts && !Archived(t.posts[p.originalId])
      && SameIdentity(p.(originalId := NO_ID), t.posts[p.originalId])
  }

  ghost predicate PostPlaced(t: Tables, id: Id)
    requires id in t.posts
  {
    id != NO_ID && t.posts[id].userId in t.users
    && Placed(t, t.posts[id]) && BestPlaced(t, id) && ArchivePlaced(t, t.posts[id])
  }

  ghost predicate VotePlaced(t: Tables, k: VoteKey)
    requires k in t.votes
  {
    k.postId in t.posts && !Archived(t.posts[k.postId]) && t.votes[k].teamId == t.posts[k.postId].teamId
  }

  ghost predicate Shape(t: Tables) {
    (forall id :: id in t.posts ==> PostPlaced(t, id)) && (forall k :: k in t.votes ==> VotePlaced(t, k))
  }

  // What one post row may become: its identity stays, a deletion and a best answer are final.
  predicate Evolves(p: Post, q: Post) {
    SameIdentity(p, q) && (p.deleteAt != 0 ==> q.deleteAt != 0) && (p.bestId != NO_ID ==> q.bestId == p.bestId)
  }

  ghost predicate Grows(t: Tables, t': Tables) {
    t.users.Keys <= t'.users.Keys && t.history <= t'.history
    && forall id :: id in t.posts ==> id in t'.posts && Evolves(t.posts[id], t'.posts[id])
  }

  lemma GrowsTransitive(t: Tables, t1: Tables, t2: Tables)
    requires Grows(t, t1) && Grows(t1, t2)
    ensures Grows(t, t2)
  {
    forall id | id in t.posts ensures id in t2.posts && Evolves(t.posts[id], t2.posts[id]) {
      assert Evolves(t.posts[id], t1.posts[id]) && Evolves(t1.posts[id], t2.posts[id]);
    }
  }

  // Rows that were placed stay placed when the tables grow and no best answer is chosen.
  lemma OldRowPlaced(t: Tables, t': Tables, id: Id)
    requires Shape(t) && Grows(t, t') && id in t.posts
    requires t'.posts[id].bestId == t.posts[id].bestId
    ensures PostPlaced(t', id)
  {
    var p, q := t.posts[id], t'.posts[id];
    assert PostPlaced(t, id) && Evolves(p, q);
    if p.parentId in t.posts { assert Evolves(t.posts[p.parentId], t'.posts[p.parentId]); }
    if p.bestId in t.posts { assert Evolves(t.posts[p.bestId], t'.posts[p.bestId]); }
    if p.originalId in t.posts { assert Evolves(t.posts[p.originalId], t'.posts[p.originalId]); }
  }

  lemma OldVotesPlaced(t: Tables, t': Tables, k: VoteKey)
    requires Shape(t) && Grows(t, t') && k in t.votes && k in t'.votes
    requires t'.votes[k].teamId == t.votes[k].teamId
    ensures VotePlaced(t', k)
  {
    assert VotePlaced(t, k) && Evolves(t.posts[k.postId], t'.posts[k.postId]);
  }

  // Enough to check: the inserted rows, the row whose best answer changed, and the inserted votes.
  lemma ShapeKept(t: Tables, t': Tables)
    requires Shape(t) && Grows(t, t')
    requires forall id :: id in t'.posts && (id !in t.posts || t'.posts[id].bestId != t.posts[id].bestId) ==>
      PostPlaced(t', id)
    requires forall k :: k in t'.votes ==>
      if k in t.votes then t'.votes[k].teamId == t.votes[k].teamId else VotePlaced(t', k)
    ensures Shape(t')
  {
    forall id | id in t'.posts ensures PostPlaced(t', id) {
      if id in t.posts && t'.posts[id].bestId == t.posts[id].bestId { OldRowPlaced(t, t', id); }
    }
    forall k | k in t'.votes ensures VotePlaced(t', k) {
      if k in t.votes { OldVotesPlaced(t, t', k); }
    }
  }

  lemma LivePlaced(t: Tables, id: Id)
    requires Shape(t) && Live(t, id)
    ensures !Archived(t.posts[id]) && PostPlaced(t, id)
  {
    assert PostPlaced(t, id);
  }

  lemma NoRowUnnamed(t: Tables)
    requires Shape(t)
    ensures NO_ID !in t.posts
  {
    forall id | id in t.posts ensures id != NO_ID { assert PostPlaced(t, id); }
  }

  // One row written, inserted or evolved; users and history only grow.
  lemma PutGrows(t: Tables, t': Tables, id: Id, q: Post)
    requires t'.posts == t.posts[id := q] && (id in t.posts ==> Evolves(t.posts[id], q))
    requires t.users.Keys <= t'.users.Keys && t.history <= t'.history
    ensures Grows(t, t')
  {
  }

  // A row rewritten in its other columns.
  lemma TouchKeepsShape(t: Tables, id: Id, q: Post)
    requires Shape(t) && id in t.posts && Evolves(t.posts[id], q) && q.bestId == t.posts[id].bestId
    ensures Shape(PutPost(t, id, q)) && Grows(t, PutPost(t, id, q))
  {
    PutGrows(t, PutPost(t, id, q), id, q);
    ShapeKept(t, PutPost(t, id, q));
  }

  lemma CreateQuestionKeepsShape(t: Tables, id: RowId, userId: Id, teamId: Id, title: string, content: string,
                                 tags: seq<string>, now: Millis)
    requires Shape(t) && CreateQuestion(t, id, userId, teamId, title, content, tags, now).Some?
    ensures var t' := CreateQuestion(t, id, userId, teamId, title, content, tags, now).value; Shape(t') && Grows(t, t')
  {
    hide Shape;
    var t' := CreateQuestion(t, id, userId, teamId, title, content, tags, now).value;
    PutGrows(t, t', id, t'.posts[id]);
    ShapeKept(t, t');
  }

  lemma AnswerRowKeepsShape(t: Tables, id: RowId, a: Post)
    requires Shape(t) && id !in t.posts && a.userId in t.users
    requires a.kind.Answer? && a.bestId == NO_ID && !Archived(a) && Placed(t, a) && a.parentId in t.posts
    ensures Shape(PutPost(t, id, a)) && Grows(t, PutPost(t, id, a))
  {
    hide Shape;
    PutGrows(t, PutPost(t, id, a), id, a);
    ShapeKept(t, PutPost(t, id, a));
  }

  lemma InsertAnswerKeepsShape(t: Tables, id: RowId, userId: Id, teamId: Id, parentId: Id, content: string, now: Millis)
    requires Shape(t) && userId in t.users && id !in t.posts
    requires parentId in t.posts && t.posts[parentId].kind.Question? && !Archived(t.posts[parentId])
    ensures var t' := InsertAnswer(t, id, userId, teamId, parentId, content, now); Shape(t') && Grows(t, t')
  {
    hide Shape;
    var a := NewPost(Answer, parentId, parentId, userId, teamId, "", content, [], now);
    var q := t.posts[parentId].(answerCount := t.posts[parentId].answerCount + 1, updateAt := now);
    AnswerRowKeepsShape(t, id, a);
    TouchKeepsShape(PutPost(t, id, a), parentId, q);
    assert InsertAnswer(t, id, userId, teamId, parentId, content, now) == PutPost(PutPost(t, id, a), parentId, q);
    GrowsTransitive(t, PutPost(t, id, a), PutPost(PutPost(t, id, a), parentId, q));
  }

  lemma CreateAnswerKeepsShape(t: Tables, id: RowId, userId: Id, teamId: Id, parentId: Id, content: string, now: Millis)
    requires Shape(t) && CreateAnswer(t, id, userId, teamId, parentId, content, now).Some?
    ensures var t' := CreateAnswer(t, id, userId, teamId, parentId, content, now).value; Shape(t') && Grows(t, t')
  {
    hide Shape;
    var t' := CreateAnswer(t, id, userId, teamId, parentId, content, now).value;
    LivePlaced(t, parentId);
    var t1 := InsertAnswer(t, id, userId, teamId, parentId, content, now);
    InsertAnswerKeepsShape(t, id, userId, teamId, parentId, content, now);
    assert t'.posts == t1.posts;
    assert Grows(t1, t');
    GrowsTransitive(t, t1, t');
    ShapeKept(t1, t');
  }

  lemma CreateCommentKeepsShape(t: Tables, id: RowId, userId: Id, teamId: Id, parentId: Id, content: string,
                                now: Millis)
    requires Shape(t) && CreateComment(t, id, userId, teamId, parentId, content, now).Some?
    ensures var t' := CreateComment(t, id, userId, teamId, parentId, content, now).value; Shape(t') && Grows(t, t')
  {
    hide Shape;
    var t' := CreateComment(t, id, userId, teamId, parentId, content, now).value;
    LivePlaced(t, parentId);
    PutGrows(t, t', id, t'.posts[id]);
    ShapeKept(t, t');
  }

  lemma UpdateKeepsShape(t: Tables, id: Id, archiveId: RowId, kind: PostKind, title: string, content: string,
                         tags: seq<string>, now: Millis)
    requires Shape(t) && UpdatePost(t, id, archiveId, kind, title, content, tags, now).Some?
    ensures var t' := UpdatePost(t, id, archiveId, kind, title, content, tags, now).value; Shape(t') && Grows(t, t')
  {
    hide Shape;
    var t' := UpdatePost(t, id, archiveId, kind, title, content, tags, now).value;
    LivePlaced(t, id);
    var t1 := PutPost(t, id, Edited(t.posts[id], title, content, tags, now));
    PutGrows(t, t1, id, t1.posts[id]);
    ShapeKept(t, t1);
    if archiveId !in t.posts {
      PutGrows(t1, t', archiveId, t'.posts[archiveId]);
      GrowsTransitive(t, t1, t');
      assert PostPlaced(t', archiveId);
      ShapeKept(t1, t');
    }
  }

  lemma SelectKeepsShape(t: Tables, id: Id, bestId: Id, now: Millis)
    requires Shape(t) && SelectBestAnswer(t, id, bestId, now).Some?
    ensures var t' := SelectBestAnswer(t, id, bestId, now).value; Shape(t') && Grows(t, t')
  {
    hide Shape;
    var t' := SelectBestAnswer(t, id, bestId, now).value;
    LivePlaced(t, id);
    LivePlaced(t, bestId);
    PutGrows(t, t', id, t'.posts[id]);
    ShapeKept(t, t');
  }

  function Dead(p: Post, now: int): Post { p.(deleteAt := now, updateAt := now) }

  function OneLess(p: Post): Post { p.(answerCount := p.answerCount - 1) }

  // The rows a deletion writes: the post's own, and AnswerCount on an answer's question.
  lemma ForceDeletePosts(t: Tables, id: Id, now: Millis)
    requires Shape(t) && ForceDelete(t, id, now).Some?
    ensures Live(t, id)
    ensures ForceDelete(t, id, now).value.posts ==
      if t.posts[id].kind.Answer? && t.posts[id].parentId in t.posts
      then t.posts[id := Dead(t.posts[id], now)][t.posts[id].parentId := OneLess(t.posts[t.posts[id].parentId])]
      else t.posts[id := Dead(t.posts[id], now)]
    ensures ForceDelete(t, id, now).value.votes.Keys == t.votes.Keys
    ensures ForceDelete(t, id, now).value.users.Keys == t.users.Keys
    ensures t.history <= ForceDelete(t, id, now).value.history
    ensures t.posts[id].kind.Answer? ==>
      t.posts[id].parentId in t.posts && t.posts[id].parentId != id && t.posts[t.posts[id].parentId].kind.Question?
  {
    hide Shape, Invalidate, Award;
    LivePlaced(t, id);
  }

  lemma ForceDeleteKeepsShape(t: Tables, id: Id, now: Millis)
    requires Shape(t) && ForceDelete(t, id, now).Some?
    ensures var t' := ForceDelete(t, id, now).value; Shape(t') && Grows(t, t')
  {
    hide Shape, ForceDelete;
    var t' := ForceDelete(t, id, now).value;
    ForceDeletePosts(t, id, now);
    VotesKeepTeam(t, id, now);
    var t1 := PutPost(t, id, Dead(t.posts[id], now));
    PutGrows(t, t1, id, t1.posts[id]);
    if t.posts[id].kind.Answer? {
      PutGrows(t1, t', t.posts[id].parentId, t'.posts[t.posts[id].parentId]);
    }
    GrowsTransitive(t, t1, t');
    ShapeKept(t, t');
  }

  lemma VotesKeepTeam(t: Tables, id: Id, now: Millis)
    requires ForceDelete(t, id, now).Some?
    ensures var t' := ForceDelete(t, id, now).value;
      forall k :: k in t.votes && k in t'.votes ==> t'.votes[k].teamId == t.votes[k].teamId
  {
    hide Award;
  }

  lemma CastKeepsShape(t: Tables, kind: VoteKind, id: Id, userId: Id, now: Millis)
    requires Shape(t) && Ballot(kind) && Cast(t, kind, id, userId, now).Some?
    ensures var t' := Cast(t, kind, id, userId, now).value; Shape(t') && Grows(t, t')
  {
    hide Shape;
    var t' := Cast(t, kind, id, userId, now).value;
    LivePlaced(t, id);
    PutGrows(t, t', id, t'.posts[id]);
    ShapeKept(t, t');
  }

  lemma CancelKeepsShape(t: Tables, kind: VoteKind, id: Id, userId: Id, now: Millis)
    requires Shape(t) && Ballot(kind) && Cancel(t, kind, id, userId, now).Some?
    ensures var t' := Cancel(t, kind, id, userId, now).value; Shape(t') && Grows(t, t')
  {
    hide Shape;
    var t' := Cancel(t, kind, id, userId, now).value;
    PutGrows(t, t', id, t'.posts[id]);
    ShapeKept(t, t');
  }

  lemma CloseKeepsShape(t: Tables, id: Id, closed: Vote -> Vote)
    requires Shape(t) && forall v: Vote :: closed(v).teamId == v.teamId
    ensures Shape(CloseReviews(t, id, closed)) && Grows(t, CloseReviews(t, id, closed))
  {
    ShapeKept(t, CloseReviews(t, id, closed));
  }

  /** Every operation keeps the tree well formed; no operation changes what a row is, revives a
      deleted row, replaces a chosen best answer or rewrites the point history. */
  lemma StepKeepsShape(t: Tables, op: Op, now: Millis)
    requires Shape(t)
    ensures Shape(Apply(t, op, now)) && Grows(t, Apply(t, op, now))
  {
    hide Shape, CreateQuestion, CreateAnswer, CreateComment, UpdatePost, ForceDelete, SelectBestAnswer, Cast, Cancel;
    var t' := Apply(t, op, now);
    if Step(t, op, now).Some? {
      match op {
        case DoCreateQuestion(id, userId, teamId, title, content, tags) =>
          CreateQuestionKeepsShape(t, id, userId, teamId, title, content, tags, now);
        case DoCreateAnswer(id, userId, teamId, parentId, content) =>
          CreateAnswerKeepsShape(t, id, userId, teamId, parentId, content, now);
        case DoCreateComment(id, userId, teamId, parentId, content) =>
          CreateCommentKeepsShape(t, id, userId, teamId, parentId, content, now);
        case DoUpdate(id, archiveId, kind, title, content, tags) =>
          UpdateKeepsShape(t, id, archiveId, kind, title, content, tags, now);
        case DoLock(id, _) => TouchKeepsShape(t, id, t'.posts[id]);
        case DoProtect(id, _) => TouchKeepsShape(t, id, t'.posts[id]);
        case DoDelete(id) => ForceDeleteKeepsShape(t, id, now);
        case DoForceDelete(id) => ForceDeleteKeepsShape(t, id, now);
        case DoSelect(id, bestId) => SelectKeepsShape(t, id, bestId, now);
        case DoCast(id, kind, userId) => CastKeepsShape(t, kind, id, userId, now);
        case DoCancel(id, kind, userId) => CancelKeepsShape(t, kind, id, userId, now);
        case DoReview(id, _, _) =>
          LivePlaced(t, id);
          ShapeKept(t, t');
        case DoReject(id, actor) => CloseKeepsShape(t, id, Rejected(now, actor, Revision(t, id, NO_ID)));
        case DoComplete(id, actor) =>
          ForceDeleteKeepsShape(t, id, now);
          var t1 := ForceDelete(t, id, now).value;
          CloseKeepsShape(t1, id, Completed(now, actor, Revision(t1, id, NO_ID)));
          GrowsTransitive(t, t1, t');
        case DoRegister(_) => ShapeKept(t, t');
        case DoSuspend(_, _) => ShapeKept(t, t');
        case DoSetMember(_, _, _) => ShapeKept(t, t');
      }
    }
  }

  lemma {:induction false} RunKeepsShape(calls: seq<Call>)
    ensures Shape(Run(calls))
  {
    if calls != [] {
      var n := |calls| - 1;
      RunKeepsShape(calls[..n]);
      StepKeepsShape(Run(calls[..n]), calls[n].op, calls[n].now);
    }
  }
}
