/** No live post hangs under a deleted one, and a live question's best answer is live: true of every
    run without forced deletion, and what forced deletion does to it. */
module PostThreads {
  import opened PostTables
  import opened Wrappers
  import opened PostShape

  ghost predicate Hangs(t: Tables, id: Id)
    requires id in t.posts
  {
    t.posts[id].deleteAt == 0 ==>
      (!t.posts[id].kind.Question? ==> Live(t, t.posts[id].parentId))
      && (t.posts[id].bestId != NO_ID ==> Live(t, t.posts[id].bestId))
  }

  ghost predicate Attached(t: Tables) {
    forall id :: id in t.posts ==> Hangs(t, id)
  }

  // No row dies, and rows that are new, or got a best answer, hang on live ones.
  lemma AttachedKept(t: Tables, t': Tables)
    requires Attached(t) && Grows(t, t')
    requires forall id :: id in t.posts ==> t'.posts[id].deleteAt == t.posts[id].deleteAt
    requires forall id :: id in t'.posts && (id !in t.posts || t'.posts[id].bestId != t.posts[id].bestId) ==>
      Hangs(t', id)
    ensures Attached(t')
  {
    forall id | id in t'.posts ensures Hangs(t', id) {
      if id in t.posts { assert Hangs(t, id) && Evolves(t.posts[id], t'.posts[id]); }
    }
  }

  // ---- Deletion ----

  // What deletion leaves of the other rows.
  lemma DeletionKills(t: Tables, id: Id, now: Millis)
    requires Shape(t) && ForceDelete(t, id, now).Some?
    ensures var t' := ForceDelete(t, id, now).value;
      t'.posts.Keys == t.posts.Keys && forall y :: y in t.posts ==>
        && t'.posts[y].deleteAt == (if y == id then now else t.posts[y].deleteAt)
        && SameIdentity(t'.posts[y], t.posts[y]) && t'.posts[y].bestId == t.posts[y].bestId
  {
    hide Shape, ForceDelete;
    ForceDeletePosts(t, id, now);
  }

  // Nothing live hangs on `id`: neither a child nor, as its best answer, its question.
  ghost predicate Unused(t: Tables, id: Id) {
    forall y :: y in t.posts && t.posts[y].deleteAt == 0 ==>
      (!t.posts[y].kind.Question? ==> t.posts[y].parentId != id) && t.posts[y].bestId != id
  }

  lemma DeletableIsUnused(t: Tables, id: Id, now: Millis)
    requires Shape(t) && Attached(t) && ForceDelete(t, id, now).Some?
    ensures Deletable(t, id) <==> Unused(t, id)
  {
    hide Shape;
    LivePlaced(t, id);
    var p := t.posts[id];
    if Unused(t, id) {
      assert LiveChildren(t.posts, id, Answer) == {} && LiveChildren(t.posts, id, Comment) == {};
    }
    if Deletable(t, id) {
      forall y | y in t.posts && t.posts[y].deleteAt == 0
        ensures (!t.posts[y].kind.Question? ==> t.posts[y].parentId != id) && t.posts[y].bestId != id
      {
        LivePlaced(t, y);
        assert t.posts[y].kind.Answer? ==> y !in LiveChildren(t.posts, id, Answer);
        assert t.posts[y].kind.Comment? ==> y !in LiveChildren(t.posts, id, Comment);
      }
    }
  }

  /** Deleting a post keeps threads attached exactly when the checks of the guarded deletion hold:
      a forced deletion that skips them leaves an orphan or a dead best answer every time. */
  lemma ForcedDeletionDetaches(t: Tables, id: Id, now: Millis)
    requires Shape(t) && Attached(t) && ForceDelete(t, id, now).Some?
    ensures Attached(ForceDelete(t, id, now).value) <==> Deletable(t, id)
  {
    hide Shape, Deletable, ForceDelete;
    var t' := ForceDelete(t, id, now).value;
    ForceDeletePosts(t, id, now);
    DeletionKills(t, id, now);
    DeletableIsUnused(t, id, now);
    NoRowUnnamed(t);
    if Unused(t, id) {
      forall y | y in t'.posts ensures Hangs(t', y) { assert Hangs(t, y); }
    }
    if Attached(t') {
      forall y | y in t.posts && t.posts[y].deleteAt == 0
        ensures (!t.posts[y].kind.Question? ==> t.posts[y].parentId != id) && t.posts[y].bestId != id
      {
        assert Hangs(t', y);
        if y == id { OwnChild(t, id, now); }
      }
    }
  }

  lemma OwnChild(t: Tables, id: Id, now: Millis)
    requires Shape(t) && ForceDelete(t, id, now).Some?
    ensures t.posts[id].parentId != id || t.posts[id].kind.Question?
    ensures t.posts[id].bestId != id
  {
    assert PostPlaced(t, id);
  }

  // ---- Runs ----

  predicate Forced(op: Op) { op.DoForceDelete? || op.DoComplete? }

  lemma CreateKeepsAttached(t: Tables, op: Op, now: Millis)
    requires Shape(t) && Attached(t) && Step(t, op, now).Some?
    requires op.DoCreateQuestion? || op.DoCreateAnswer? || op.DoCreateComment?
    ensures Attached(Apply(t, op, now))
  {
    hide Shape, FirstPost, LiveChildren, SystemReview, AnswerReviewTags;
    StepKeepsShape(t, op, now);
    AttachedKept(t, Apply(t, op, now));
  }

  lemma UpdateKeepsAttached(t: Tables, op: Op, now: Millis)
    requires Shape(t) && Attached(t) && Step(t, op, now).Some? && op.DoUpdate?
    ensures Attached(Apply(t, op, now))
  {
    hide Shape;
    StepKeepsShape(t, op, now);
    AttachedKept(t, Apply(t, op, now));
  }

  lemma SelectKeepsAttached(t: Tables, op: Op, now: Millis)
    requires Shape(t) && Attached(t) && Step(t, op, now).Some? && op.DoSelect?
    ensures Attached(Apply(t, op, now))
  {
    hide Shape, PaySelection;
    StepKeepsShape(t, op, now);
    assert Hangs(t, op.postId);
    AttachedKept(t, Apply(t, op, now));
  }

  // The operations that write at most one row of Posts, and neither delete it nor choose its best answer.
  predicate Touches(op: Op) {
    op.DoLock? || op.DoProtect? || op.DoCast? || op.DoCancel? || op.DoReview? || op.DoReject?
    || op.DoRegister? || op.DoSuspend? || op.DoSetMember?
  }

  ghost predicate Touched(t: Tables, t': Tables) {
    t'.posts.Keys == t.posts.Keys
    && forall y :: y in t.posts ==>
      t'.posts[y].deleteAt == t.posts[y].deleteAt && t'.posts[y].bestId == t.posts[y].bestId
  }

  lemma CastTouches(t: Tables, kind: VoteKind, id: Id, userId: Id, now: Millis)
    requires Ballot(kind) && Cast(t, kind, id, userId, now).Some?
    ensures Cast(t, kind, id, userId, now).value.posts == t.posts[id := Counted(t.posts[id], kind, 1, now)]
    ensures Touched(t, Cast(t, kind, id, userId, now).value)
  {
    hide Award, MayVote, Revision, TagsForPost;
  }

  lemma CancelTouches(t: Tables, kind: VoteKind, id: Id, userId: Id, now: Millis)
    requires Ballot(kind) && Cancel(t, kind, id, userId, now).Some?
    ensures Cancel(t, kind, id, userId, now).value.posts == t.posts[id := Counted(t.posts[id], kind, -1, now)]
    ensures Touched(t, Cancel(t, kind, id, userId, now).value)
  {
    hide Award, MayVote, TagsForPost;
  }

  lemma OthersTouch(t: Tables, op: Op, now: Millis)
    requires Step(t, op, now).Some?
    requires op.DoLock? || op.DoProtect? || op.DoReview? || op.DoReject?
          || op.DoRegister? || op.DoSuspend? || op.DoSetMember?
    ensures Touched(t, Apply(t, op, now))
  {
    hide Revision, RejectedAtRevision;
  }

  lemma TouchKeepsAttached(t: Tables, op: Op, now: Millis)
    requires Shape(t) && Attached(t) && Step(t, op, now).Some? && Touches(op)
    ensures Attached(Apply(t, op, now))
  {
    hide Shape, Attached, Cast, Cancel, Apply, Grows;
    StepKeepsShape(t, op, now);
    match op {
      case DoCast(id, kind, userId) => StepIsCast(t, op, now); CastTouches(t, kind, id, userId, now);
      case DoCancel(id, kind, userId) => StepIsCast(t, op, now); CancelTouches(t, kind, id, userId, now);
      case _ => OthersTouch(t, op, now);
    }
    AttachedKept(t, Apply(t, op, now));
  }

  lemma StepIsCast(t: Tables, op: Op, now: Millis)
    requires Step(t, op, now).Some? && (op.DoCast? || op.DoCancel?)
    ensures Ballot(op.vote)
    ensures op.DoCast? ==> Some(Apply(t, op, now)) == Cast(t, op.vote, op.postId, op.userId, now)
    ensures op.DoCancel? ==> Some(Apply(t, op, now)) == Cancel(t, op.vote, op.postId, op.userId, now)
  {
    hide Cast, Cancel;
  }

  lemma StepKeepsAttached(t: Tables, op: Op, now: Millis)
    requires Shape(t) && Attached(t) && !Forced(op)
    ensures Attached(Apply(t, op, now))
  {
    hide Shape, Attached, CreateQuestion, CreateAnswer, CreateComment, UpdatePost, LockPost, ProtectPost, ForceDelete,
         Deletable, SelectBestAnswer, Cast, Cancel, CreateReview, RejectReviews, CompleteReviews, Register, Suspend,
         SetMember;
    if Step(t, op, now).Some? {
      match op {
        case DoCreateQuestion(_, _, _, _, _, _) => CreateKeepsAttached(t, op, now);
        case DoCreateAnswer(_, _, _, _, _) => CreateKeepsAttached(t, op, now);
        case DoCreateComment(_, _, _, _, _) => CreateKeepsAttached(t, op, now);
        case DoUpdate(_, _, _, _, _, _) => UpdateKeepsAttached(t, op, now);
        case DoDelete(id) => ForcedDeletionDetaches(t, id, now);
        case DoSelect(_, _) => SelectKeepsAttached(t, op, now);
        case _ => TouchKeepsAttached(t, op, now);
      }
    }
  }

  /** In every run without forced deletion no live post hangs under a deleted one and every live
      question's best answer is live. */
  lemma {:induction false} RunKeepsAttached(calls: seq<Call>)
    requires forall i :: 0 <= i < |calls| ==> !Forced(calls[i].op)
    ensures Attached(Run(calls))
  {
    if calls != [] {
      var n := |calls| - 1;
      RunKeepsShape(calls[..n]);
      RunKeepsAttached(calls[..n]);
      StepKeepsAttached(Run(calls[..n]), calls[n].op, calls[n].now);
    }
  }

  // ---- Operations that fail midway ----

  // The question at the root of a post's thread.
  function Root(p: Post, id: Id): Id {
    match p.kind
    case Question => id
    case Answer => p.parentId
    case Comment => p.rootId
  }

  /** A permitted vote or flag fails after its row and counter were written exactly when it moves
      points and the thread's question is deleted; a vote that moves none goes through. */
  lemma CastFailsMidway(t: Tables, kind: VoteKind, id: Id, userId: Id, now: Millis)
    requires Shape(t) && Ballot(kind) && Live(t, id) && MayVote(t, kind, id, userId, now)
    requires VoteKey(userId, kind, id) !in t.votes
    ensures Cast(t, kind, id, userId, now).None?
      <==> Paid(kind, userId, t.posts[id].userId) && !Live(t, Root(t.posts[id], id))
  {
    hide Shape, Award, MayVote, Revision;
    LivePlaced(t, id);
  }

  lemma CancelFailsMidway(t: Tables, kind: VoteKind, id: Id, userId: Id, now: Millis)
    requires Shape(t) && Ballot(kind) && Live(t, id) && MayVote(t, kind, id, userId, now)
    requires VoteKey(userId, kind, id) in t.votes
    ensures Cancel(t, kind, id, userId, now).None?
      <==> Paid(kind, userId, t.posts[id].userId) && !Live(t, Root(t.posts[id], id))
  {
    hide Shape, Award, MayVote, Revision;
    LivePlaced(t, id);
  }

  // While threads are attached, the question of every live post is live: no vote fails midway.
  lemma RootsAreLive(t: Tables, id: Id)
    requires Shape(t) && Attached(t) && Live(t, id)
    ensures Live(t, Root(t.posts[id], id)) && t.posts[Root(t.posts[id], id)].kind.Question?
  {
    hide Shape;
    LivePlaced(t, id);
    assert Hangs(t, id);
    if !t.posts[id].kind.Question? {
      LivePlaced(t, t.posts[id].parentId);
      assert Hangs(t, t.posts[id].parentId);
    }
  }
}
