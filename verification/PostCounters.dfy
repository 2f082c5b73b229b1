/** The counters kept on a post row agree with the rows they count. */
module PostCounters {
  import opened PostTables
  import opened Wrappers
  import opened PostShape

  function Ballots(keys: set<VoteKey>, id: Id, kind: VoteKind): set<VoteKey> {
    set k | k in keys && k.postId == id && k.kind == kind
  }

  predicate VotesCounted(p: Post, keys: set<VoteKey>, id: Id) {
    p.upVotes == |Ballots(keys, id, UpVote)| && p.downVotes == |Ballots(keys, id, DownVote)|
    && p.flagCount == |Ballots(keys, id, Flag)| && p.points == p.upVotes - p.downVotes
  }

  predicate AnswersCounted(posts: map<Id, Post>, id: Id)
    requires id in posts
  {
    posts[id].kind.Question? ==> posts[id].answerCount == |LiveChildren(posts, id, Answer)|
  }

  ghost predicate Counters(t: Tables) {
    forall id :: id in t.posts && !Archived(t.posts[id]) ==>
      VotesCounted(t.posts[id], t.votes.Keys, id) && AnswersCounted(t.posts, id)
  }

  predicate SameCounts(p: Post, q: Post) {
    p.upVotes == q.upVotes && p.downVotes == q.downVotes && p.flagCount == q.flagCount && p.points == q.points
    && p.answerCount == q.answerCount
  }

  // A live answer stays live and a dead one dead.
  predicate SameStanding(p: Post, q: Post) {
    SameIdentity(p, q) && SameCounts(p, q) && (p.kind.Answer? ==> (p.deleteAt == 0 <==> q.deleteAt == 0))
  }

  // An inserted row that no counter has to notice: its own counters are zero, and it is no live answer.
  predicate Uncounted(p: Post) {
    && (Archived(p) || (p.upVotes == p.downVotes == p.flagCount == p.points == p.answerCount == 0))
    && (p.kind.Answer? ==> p.deleteAt != 0)
  }

  ghost predicate SameBallots(keys: set<VoteKey>, keys': set<VoteKey>) {
    forall k: VoteKey :: Ballot(k.kind) ==> (k in keys <==> k in keys')
  }

  ghost predicate Untouched(posts: map<Id, Post>, posts': map<Id, Post>) {
    && (forall id :: id in posts ==> id in posts' && SameStanding(posts[id], posts'[id]))
    && (forall id :: id in posts' && id !in posts ==> Uncounted(posts'[id]))
  }

  lemma NothingUnderNewPost(t: Tables, id: Id, kind: VoteKind)
    requires Shape(t) && id !in t.posts
    ensures Ballots(t.votes.Keys, id, kind) == {} && (id != NO_ID ==> LiveChildren(t.posts, id, Answer) == {})
  {
    forall k | k in t.votes ensures k.postId != id { assert VotePlaced(t, k); }
    forall c | c in t.posts && t.posts[c].kind.Answer? ensures t.posts[c].parentId != id { assert PostPlaced(t, c); }
  }

  lemma BallotsKept(keys: set<VoteKey>, keys': set<VoteKey>, id: Id, kind: VoteKind)
    requires SameBallots(keys, keys') && Ballot(kind)
    ensures Ballots(keys', id, kind) == Ballots(keys, id, kind)
  {
  }

  lemma AllBallotsKept(keys: set<VoteKey>, keys': set<VoteKey>, p: Post, q: Post, id: Id)
    requires SameBallots(keys, keys') && VotesCounted(p, keys, id)
    requires p.upVotes == q.upVotes && p.downVotes == q.downVotes && p.flagCount == q.flagCount && p.points == q.points
    ensures VotesCounted(q, keys', id)
  {
    BallotsKept(keys, keys', id, UpVote);
    BallotsKept(keys, keys', id, DownVote);
    BallotsKept(keys, keys', id, Flag);
  }

  lemma NewPostCounted(t: Tables, keys': set<VoteKey>, id: Id, q: Post)
    requires Shape(t) && id !in t.posts && SameBallots(t.votes.Keys, keys')
    requires q.upVotes == q.downVotes == q.flagCount == q.points == 0
    ensures VotesCounted(q, keys', id)
  {
    NothingUnderNewPost(t, id, UpVote);
    NothingUnderNewPost(t, id, DownVote);
    NothingUnderNewPost(t, id, Flag);
    AllBallotsKept(t.votes.Keys, keys', q, q, id);
  }

  lemma AnswersKept(posts: map<Id, Post>, posts': map<Id, Post>, id: Id)
    requires Untouched(posts, posts')
    ensures LiveChildren(posts', id, Answer) == LiveChildren(posts, id, Answer)
  {
    forall c ensures c in LiveChildren(posts', id, Answer) <==> c in LiveChildren(posts, id, Answer) {
      if c in posts { assert SameStanding(posts[c], posts'[c]); } else if c in posts' { assert Uncounted(posts'[c]); }
    }
  }

  lemma CountersKept(t: Tables, t': Tables)
    requires Shape(t) && Shape(t') && Counters(t)
    requires SameBallots(t.votes.Keys, t'.votes.Keys) && Untouched(t.posts, t'.posts)
    ensures Counters(t')
  {
    forall id | id in t'.posts && !Archived(t'.posts[id])
      ensures VotesCounted(t'.posts[id], t'.votes.Keys, id) && AnswersCounted(t'.posts, id)
    {
      AnswersKept(t.posts, t'.posts, id);
      if id in t.posts {
        assert SameStanding(t.posts[id], t'.posts[id]);
        AllBallotsKept(t.votes.Keys, t'.votes.Keys, t.posts[id], t'.posts[id], id);
      } else {
        assert Uncounted(t'.posts[id]) && PostPlaced(t', id);
        NothingUnderNewPost(t, id, UpVote);
        NewPostCounted(t, t'.votes.Keys, id, t'.posts[id]);
      }
    }
  }

  // ---- A ballot inserted (n = 1) or deleted (n = -1) ----

  predicate BallotDelta(keys: set<VoteKey>, keys': set<VoteKey>, key: VoteKey, n: int) {
    || (n == 1 && key !in keys && keys' == keys + {key})
    || (n == -1 && key in keys && keys' == keys - {key})
  }

  lemma BallotChange(keys: set<VoteKey>, keys': set<VoteKey>, key: VoteKey, n: int, id: Id, kind: VoteKind)
    requires BallotDelta(keys, keys', key, n)
    ensures var change := if key.postId == id && key.kind == kind then n else 0;
      |Ballots(keys', id, kind)| == |Ballots(keys, id, kind)| + change
  {
    if key.postId == id && key.kind == kind {
      if n == 1 { assert Ballots(keys', id, kind) == Ballots(keys, id, kind) + {key}; }
      else { assert Ballots(keys', id, kind) == Ballots(keys, id, kind) - {key}; }
    } else {
      assert Ballots(keys', id, kind) == Ballots(keys, id, kind);
    }
  }

  lemma BallotCounted(t: Tables, t': Tables, key: VoteKey, n: int, now: int)
    requires Counters(t) && Ballot(key.kind) && key.postId in t.posts && !Archived(t.posts[key.postId])
    requires BallotDelta(t.votes.Keys, t'.votes.Keys, key, n)
    requires t'.posts == t.posts[key.postId := Counted(t.posts[key.postId], key.kind, n, now)]
    ensures Counters(t')
  {
    forall id | id in t'.posts && !Archived(t'.posts[id])
      ensures VotesCounted(t'.posts[id], t'.votes.Keys, id) && AnswersCounted(t'.posts, id)
    {
      assert VotesCounted(t.posts[id], t.votes.Keys, id) && AnswersCounted(t.posts, id);
      BallotChange(t.votes.Keys, t'.votes.Keys, key, n, id, UpVote);
      BallotChange(t.votes.Keys, t'.votes.Keys, key, n, id, DownVote);
      BallotChange(t.votes.Keys, t'.votes.Keys, key, n, id, Flag);
      assert LiveChildren(t'.posts, id, Answer) == LiveChildren(t.posts, id, Answer);
    }
  }

  // ---- An answer inserted (n = 1) or deleted (n = -1) together with its question's AnswerCount ----

  predicate AnswerDelta(posts: map<Id, Post>, a: Post, id: Id, questionId: Id, n: int) {
    a.kind.Answer? && a.parentId == questionId &&
    if n == 1 then id !in posts && a.deleteAt == 0 && a.upVotes == a.downVotes == a.flagCount == a.points == 0
    else n == -1 && id in posts && posts[id].deleteAt == 0 && a.deleteAt != 0
         && SameIdentity(a, posts[id]) && SameCounts(a, posts[id])
  }

  // Rewriting the row of a question does not change which answers are live.
  lemma QuestionRowIrrelevant(posts: map<Id, Post>, questionId: Id, q': Post, q: Id)
    requires questionId in posts && posts[questionId].kind.Question? && q'.kind.Question?
    ensures LiveChildren(posts[questionId := q'], q, Answer) == LiveChildren(posts, q, Answer)
  {
  }

  lemma AnswerInserted(posts: map<Id, Post>, id: Id, a: Post, questionId: Id)
    requires AnswerDelta(posts, a, id, questionId, 1)
    ensures |LiveChildren(posts[id := a], questionId, Answer)| == |LiveChildren(posts, questionId, Answer)| + 1
  {
    assert LiveChildren(posts[id := a], questionId, Answer) == LiveChildren(posts, questionId, Answer) + {id};
  }

  lemma AnswerDeleted(posts: map<Id, Post>, id: Id, a: Post, questionId: Id)
    requires AnswerDelta(posts, a, id, questionId, -1)
    ensures |LiveChildren(posts[id := a], questionId, Answer)| == |LiveChildren(posts, questionId, Answer)| - 1
  {
    assert LiveChildren(posts, questionId, Answer) == LiveChildren(posts[id := a], questionId, Answer) + {id};
  }

  lemma OtherQuestionKept(posts: map<Id, Post>, id: Id, a: Post, questionId: Id, n: int, q: Id)
    requires AnswerDelta(posts, a, id, questionId, n) && q != questionId
    ensures LiveChildren(posts[id := a], q, Answer) == LiveChildren(posts, q, Answer)
  {
  }

  lemma AnswerCounted(t: Tables, t': Tables, id: Id, a: Post, questionId: Id, q': Post, n: int)
    requires Shape(t) && Counters(t) && SameBallots(t.votes.Keys, t'.votes.Keys)
    requires questionId in t.posts && id != questionId && t.posts[questionId].kind.Question?
    requires t'.posts == t.posts[id := a][questionId := q'] && AnswerDelta(t.posts, a, id, questionId, n)
    requires SameIdentity(q', t.posts[questionId])
    requires SameCounts(q'.(answerCount := q'.answerCount - n), t.posts[questionId])
    ensures Counters(t')
  {
    forall q | q in t'.posts && !Archived(t'.posts[q])
      ensures VotesCounted(t'.posts[q], t'.votes.Keys, q) && AnswersCounted(t'.posts, q)
    {
      if q != questionId { OtherQuestionKept(t.posts, id, a, questionId, n, q); }
      else if n == 1 { AnswerInserted(t.posts, id, a, questionId); }
      else { AnswerDeleted(t.posts, id, a, questionId); }
      QuestionRowIrrelevant(t.posts[id := a], questionId, q', q);
      if q in t.posts {
        assert VotesCounted(t.posts[q], t.votes.Keys, q) && AnswersCounted(t.posts, q);
        AllBallotsKept(t.votes.Keys, t'.votes.Keys, t.posts[q], t'.posts[q], q);
      } else {
        NewPostCounted(t, t'.votes.Keys, q, t'.posts[q]);
      }
    }
  }

  // ---- The operations ----

  lemma CreateQuestionCounted(t: Tables, id: RowId, userId: Id, teamId: Id, title: string, content: string,
                              tags: seq<string>, now: Millis)
    requires Shape(t) && Counters(t) && CreateQuestion(t, id, userId, teamId, title, content, tags, now).Some?
    ensures Counters(CreateQuestion(t, id, userId, teamId, title, content, tags, now).value)
  {
    CreateQuestionKeepsShape(t, id, userId, teamId, title, content, tags, now);
    CountersKept(t, CreateQuestion(t, id, userId, teamId, title, content, tags, now).value);
  }

  lemma CreateAnswerCounted(t: Tables, id: RowId, userId: Id, teamId: Id, parentId: Id, content: string, now: Millis)
    requires Shape(t) && Counters(t) && CreateAnswer(t, id, userId, teamId, parentId, content, now).Some?
    ensures Counters(CreateAnswer(t, id, userId, teamId, parentId, content, now).value)
  {
    var t' := CreateAnswer(t, id, userId, teamId, parentId, content, now).value;
    AnswerCounted(t, t', id, NewPost(Answer, parentId, parentId, userId, teamId, "", content, [], now), parentId,
                  t'.posts[parentId], 1);
  }

  lemma CreateCommentCounted(t: Tables, id: RowId, userId: Id, teamId: Id, parentId: Id, content: string, now: Millis)
    requires Shape(t) && Counters(t) && CreateComment(t, id, userId, teamId, parentId, content, now).Some?
    ensures Counters(CreateComment(t, id, userId, teamId, parentId, content, now).value)
  {
    CreateCommentKeepsShape(t, id, userId, teamId, parentId, content, now);
    CountersKept(t, CreateComment(t, id, userId, teamId, parentId, content, now).value);
  }

  lemma UpdateCounted(t: Tables, id: Id, archiveId: RowId, kind: PostKind, title: string, content: string,
                      tags: seq<string>, now: Millis)
    requires Shape(t) && Counters(t) && UpdatePost(t, id, archiveId, kind, title, content, tags, now).Some?
    ensures Counters(UpdatePost(t, id, archiveId, kind, title, content, tags, now).value)
  {
    hide Shape;
    UpdateKeepsShape(t, id, archiveId, kind, title, content, tags, now);
    LivePlaced(t, id);
    var q := Edited(t.posts[id], title, content, tags, now);
    TouchKeepsShape(t, id, q);
    TouchCounted(t, PutPost(t, id, q), id, q);
    if archiveId !in t.posts {
      CountersKept(PutPost(t, id, q), UpdatePost(t, id, archiveId, kind, title, content, tags, now).value);
    }
  }

  lemma TouchCounted(t: Tables, t': Tables, id: Id, q: Post)
    requires Shape(t) && Shape(t') && Counters(t) && SameBallots(t.votes.Keys, t'.votes.Keys)
    requires id in t.posts && SameStanding(t.posts[id], q) && t'.posts == t.posts[id := q]
    ensures Counters(t')
  {
    CountersKept(t, t');
  }

  lemma ForceDeleteCounted(t: Tables, id: Id, now: Millis)
    requires Shape(t) && Counters(t) && ForceDelete(t, id, now).Some?
    ensures Counters(ForceDelete(t, id, now).value)
  {
    hide Shape, Counters, ForceDelete;
    var t' := ForceDelete(t, id, now).value;
    ForceDeletePosts(t, id, now);
    ForceDeleteKeepsShape(t, id, now);
    if t.posts[id].kind.Answer? {
      var parentId := t.posts[id].parentId;
      AnswerCounted(t, t', id, Dead(t.posts[id], now), parentId, t'.posts[parentId], -1);
    } else {
      TouchCounted(t, t', id, Dead(t.posts[id], now));
    }
  }

  lemma CastCounted(t: Tables, kind: VoteKind, id: Id, userId: Id, now: Millis)
    requires Shape(t) && Counters(t) && Ballot(kind) && Cast(t, kind, id, userId, now).Some?
    ensures Counters(Cast(t, kind, id, userId, now).value)
  {
    assert PostPlaced(t, id);
    BallotCounted(t, Cast(t, kind, id, userId, now).value, VoteKey(userId, kind, id), 1, now);
  }

  lemma CancelCounted(t: Tables, kind: VoteKind, id: Id, userId: Id, now: Millis)
    requires Shape(t) && Counters(t) && Ballot(kind) && Cancel(t, kind, id, userId, now).Some?
    ensures Counters(Cancel(t, kind, id, userId, now).value)
  {
    assert PostPlaced(t, id);
    BallotCounted(t, Cancel(t, kind, id, userId, now).value, VoteKey(userId, kind, id), -1, now);
  }

  // A post that still holds the vote being cancelled counts at least that vote.
  lemma ClampNeverFires(t: Tables, key: VoteKey)
    requires Shape(t) && Counters(t) && key in t.votes
    ensures key.postId in t.posts
    ensures key.kind.UpVote? ==> 1 <= t.posts[key.postId].upVotes
    ensures key.kind.DownVote? ==> 1 <= t.posts[key.postId].downVotes
    ensures key.kind.Flag? ==> 1 <= t.posts[key.postId].flagCount
  {
    assert VotePlaced(t, key) && VotesCounted(t.posts[key.postId], t.votes.Keys, key.postId);
    assert key in Ballots(t.votes.Keys, key.postId, key.kind);
  }

  // Locks, protections and best answers rewrite one row in other columns.
  lemma SelectCounted(t: Tables, op: Op, now: Millis)
    requires Shape(t) && Counters(t) && op.DoSelect?
    ensures Counters(Apply(t, op, now))
  {
    hide Shape, Counters, PaySelection;
    var t' := Apply(t, op, now);
    StepKeepsShape(t, op, now);
    if Step(t, op, now).Some? { TouchCounted(t, t', op.postId, t'.posts[op.postId]); }
  }

  lemma TouchStepCounted(t: Tables, op: Op, now: Millis)
    requires Shape(t) && Counters(t) && (op.DoLock? || op.DoProtect?)
    ensures Counters(Apply(t, op, now))
  {
    hide Shape, Counters;
    var t' := Apply(t, op, now);
    StepKeepsShape(t, op, now);
    if Step(t, op, now).Some? { TouchCounted(t, t', op.postId, t'.posts[op.postId]); }
  }

  lemma ReviewStepCounted(t: Tables, op: Op, now: Millis)
    requires Shape(t) && Counters(t) && (op.DoReview? || op.DoReject?)
    ensures Counters(Apply(t, op, now))
  {
    hide Shape, Counters;
    StepKeepsShape(t, op, now);
    CountersKept(t, Apply(t, op, now));
  }

  lemma CompleteStepCounted(t: Tables, op: Op, now: Millis)
    requires Shape(t) && Counters(t) && op.DoComplete?
    ensures Counters(Apply(t, op, now))
  {
    hide Shape, Counters, ForceDelete;
    if Step(t, op, now).Some? {
      StepKeepsShape(t, op, now);
      ForceDeleteKeepsShape(t, op.postId, now);
      ForceDeleteCounted(t, op.postId, now);
      CountersKept(ForceDelete(t, op.postId, now).value, Apply(t, op, now));
    }
  }

  lemma AccountStepCounted(t: Tables, op: Op, now: Millis)
    requires Shape(t) && Counters(t) && (op.DoRegister? || op.DoSuspend? || op.DoSetMember?)
    ensures Counters(Apply(t, op, now))
  {
    hide Shape, Counters;
    StepKeepsShape(t, op, now);
    CountersKept(t, Apply(t, op, now));
  }

  lemma StepKeepsCounters(t: Tables, op: Op, now: Millis)
    requires Shape(t) && Counters(t)
    ensures Counters(Apply(t, op, now))
  {
    hide Shape, Counters, CreateQuestion, CreateAnswer, CreateComment, UpdatePost, LockPost, ProtectPost, ForceDelete,
         SelectBestAnswer, Cast, Cancel, CreateReview, RejectReviews, CompleteReviews, Register, Suspend, SetMember;
    if Step(t, op, now).Some? {
      match op {
        case DoCreateQuestion(id, userId, teamId, title, content, tags) =>
          CreateQuestionCounted(t, id, userId, teamId, title, content, tags, now);
        case DoCreateAnswer(id, userId, teamId, parentId, content) =>
          CreateAnswerCounted(t, id, userId, teamId, parentId, content, now);
        case DoCreateComment(id, userId, teamId, parentId, content) =>
          CreateCommentCounted(t, id, userId, teamId, parentId, content, now);
        case DoUpdate(id, archiveId, kind, title, content, tags) =>
          UpdateCounted(t, id, archiveId, kind, title, content, tags, now);
        case DoDelete(id) => ForceDeleteCounted(t, id, now);
        case DoForceDelete(id) => ForceDeleteCounted(t, id, now);
        case DoCast(id, kind, userId) => CastCounted(t, kind, id, userId, now);
        case DoCancel(id, kind, userId) => CancelCounted(t, kind, id, userId, now);
        case DoReview(_, _, _) => ReviewStepCounted(t, op, now);
        case DoReject(_, _) => ReviewStepCounted(t, op, now);
        case DoComplete(_, _) => CompleteStepCounted(t, op, now);
        case DoLock(_, _) => TouchStepCounted(t, op, now);
        case DoProtect(_, _) => TouchStepCounted(t, op, now);
        case DoSelect(_, _) => SelectCounted(t, op, now);
        case DoRegister(_) => AccountStepCounted(t, op, now);
        case DoSuspend(_, _) => AccountStepCounted(t, op, now);
        case DoSetMember(_, _, _) => AccountStepCounted(t, op, now);
      }
    }
  }

  /** Over any run, the vote, flag and answer counters of every row that is not an archived copy
      equal the number of rows they stand for, and its points are up-votes minus down-votes. */
  lemma {:induction false} RunKeepsCounters(calls: seq<Call>)
    ensures Counters(Run(calls))
  {
    if calls != [] {
      var n := |calls| - 1;
      RunKeepsShape(calls[..n]);
      RunKeepsCounters(calls[..n]);
      StepKeepsCounters(Run(calls[..n]), calls[n].op, calls[n].now);
    }
  }
}
