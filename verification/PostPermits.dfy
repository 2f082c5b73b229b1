/** Which calls succeed: the condition of every operation in terms of the rows it meets, and what follows over runs. */
module PostPermits {
  import opened PostTables
  import opened Wrappers
  import opened PostShape
  import opened PostColumns
  import opened PostRevisions
  import opened PostThreads

  predicate LiveQuestion(t: Tables, id: Id) {
    id in t.posts && t.posts[id].deleteAt == 0 && t.posts[id].kind.Question?
  }

  // Everybody may write in a team, and in public only who is not suspended.
  predicate MayWrite(t: Tables, userId: Id, teamId: Id, now: Millis) {
    userId in t.users && (teamId == 0 ==> t.users[userId].suspendTime <= now)
  }

  lemma CreationServed(t: Tables, op: Op, now: Millis)
    requires op.DoCreateQuestion? || op.DoCreateAnswer? || op.DoCreateComment?
    ensures Step(t, op, now).Some? <==>
      && MayWrite(t, op.userId, op.teamId, now) && op.id !in t.posts
      && (op.DoCreateAnswer? ==>
            && LiveQuestion(t, op.parentId)
            && (op.teamId == 0 && t.posts[op.parentId].protectedAt > 0 ==> t.users[op.userId].points >= 10))
      && (op.DoCreateComment? ==>
            && op.parentId in t.posts && t.posts[op.parentId].deleteAt == 0 && !t.posts[op.parentId].kind.Comment?
            && |LiveChildren(t.posts, op.parentId, Comment)| < 20)
  {
    hide FirstPost, LiveChildren, AnswerReviewTags, SystemReview, Award, InsertAnswer;
  }

  // A reply that is live keeps its parent from being deleted; a question's best answer keeps itself.
  predicate Replied(t: Tables, id: Id) {
    exists c :: c in t.posts && t.posts[c].parentId == id && t.posts[c].deleteAt == 0 && !t.posts[c].kind.Question?
  }

  lemma RepliedIsChildren(t: Tables, id: Id)
    ensures Replied(t, id) <==> LiveChildren(t.posts, id, Answer) != {} || LiveChildren(t.posts, id, Comment) != {}
  {
    if Replied(t, id) {
      var c :| c in t.posts && t.posts[c].parentId == id && t.posts[c].deleteAt == 0 && !t.posts[c].kind.Question?;
      assert c in LiveChildren(t.posts, id, t.posts[c].kind);
    }
  }

  lemma DeletionServed(t: Tables, id: Id, now: Millis)
    ensures ForceDelete(t, id, now).Some? <==>
      && id in t.posts && t.posts[id].deleteAt == 0
      && (t.posts[id].kind.Answer? ==> t.posts[id].parentId in t.posts && t.posts[t.posts[id].parentId].deleteAt == 0)
    ensures DeletePost(t, id, now).Some? <==>
      && id in t.posts && t.posts[id].deleteAt == 0 && (t.posts[id].kind.Comment? || !Replied(t, id))
      && (t.posts[id].kind.Answer? ==>
            LiveQuestion(t, t.posts[id].parentId) && t.posts[t.posts[id].parentId].bestId != id)
    ensures DeletePost(t, id, now).Some? ==> DeletePost(t, id, now) == ForceDelete(t, id, now)
  {
    hide Invalidate, Award, LiveChildren;
    RepliedIsChildren(t, id);
  }

  // An answer is chosen by a question that has none, among its live answers.
  lemma SelectionServed(t: Tables, id: Id, bestId: Id, now: Millis)
    ensures SelectBestAnswer(t, id, bestId, now).Some? <==>
      && LiveQuestion(t, id) && t.posts[id].bestId == 0
      && bestId in t.posts && t.posts[bestId].deleteAt == 0 && t.posts[bestId].kind.Answer?
      && t.posts[bestId].parentId == id
  {
    hide PaySelection;
  }

  // Only questions and answers are voted on, and public ones only while unlocked and by who is not suspended;
  // anybody may flag anything.
  predicate MayBallot(t: Tables, kind: VoteKind, id: Id, userId: Id, now: Millis) {
    && id in t.posts && t.posts[id].deleteAt == 0
    && (!kind.Flag? ==>
          && !t.posts[id].kind.Comment? && userId in t.users
          && (t.posts[id].teamId == 0 ==> t.posts[id].lockedAt <= 0 && t.users[userId].suspendTime <= now))
  }

  // Whether a vote moves points: its author's own up- or down-vote does not.
  predicate MovesPoints(t: Tables, kind: VoteKind, id: Id, userId: Id)
    requires id in t.posts
  {
    kind.Flag? || t.posts[id].userId != userId
  }

  lemma BallotServed(t: Tables, kind: VoteKind, id: Id, userId: Id, now: Millis)
    requires Shape(t) && Ballot(kind)
    ensures Cast(t, kind, id, userId, now).Some? <==>
      && MayBallot(t, kind, id, userId, now) && VoteKey(userId, kind, id) !in t.votes
      && (MovesPoints(t, kind, id, userId) ==> LiveQuestion(t, Root(t.posts[id], id)))
    ensures Cancel(t, kind, id, userId, now).Some? <==>
      && MayBallot(t, kind, id, userId, now) && VoteKey(userId, kind, id) in t.votes
      && (MovesPoints(t, kind, id, userId) ==> LiveQuestion(t, Root(t.posts[id], id)))
  {
    hide Shape, Cast, Cancel;
    MayBallotIsMayVote(t, kind, id, userId, now);
    if Live(t, id) && MayVote(t, kind, id, userId, now) {
      LivePlaced(t, id);
      if Live(t, Root(t.posts[id], id)) { RootIsQuestion(t, id); }
      if VoteKey(userId, kind, id) in t.votes {
        CancelFailsMidway(t, kind, id, userId, now);
        Twice(t, kind, id, userId, now);
      } else {
        CastFailsMidway(t, kind, id, userId, now);
        Twice(t, kind, id, userId, now);
      }
    } else {
      Refused(t, kind, id, userId, now);
    }
  }

  lemma RootIsQuestion(t: Tables, id: Id)
    requires Shape(t) && Live(t, id)
    ensures Root(t.posts[id], id) in t.posts ==> t.posts[Root(t.posts[id], id)].kind.Question?
  {
    hide Shape;
    LivePlaced(t, id);
    var p := t.posts[id];
    if p.kind.Comment? && t.posts[p.parentId].kind.Answer? { AnswerPlaced(t, p.parentId); }
  }

  lemma AnswerPlaced(t: Tables, id: Id)
    requires Shape(t) && id in t.posts && t.posts[id].kind.Answer?
    ensures t.posts[id].parentId in t.posts && t.posts[t.posts[id].parentId].kind.Question?
  {
    assert PostPlaced(t, id);
  }

  lemma MayBallotIsMayVote(t: Tables, kind: VoteKind, id: Id, userId: Id, now: Millis)
    ensures MayBallot(t, kind, id, userId, now) <==> Live(t, id) && MayVote(t, kind, id, userId, now)
  {
  }

  lemma Twice(t: Tables, kind: VoteKind, id: Id, userId: Id, now: Millis)
    requires Ballot(kind)
    ensures if VoteKey(userId, kind, id) in t.votes then Cast(t, kind, id, userId, now).None?
            else Cancel(t, kind, id, userId, now).None?
  {
    hide Settle, MayVote, Revision;
  }

  lemma Refused(t: Tables, kind: VoteKind, id: Id, userId: Id, now: Millis)
    requires Ballot(kind) && !(Live(t, id) && MayVote(t, kind, id, userId, now))
    ensures Cast(t, kind, id, userId, now).None? && Cancel(t, kind, id, userId, now).None?
  {
    hide Settle, MayVote, Revision;
  }

  // The rest: editing needs the right kind, locking and protecting a public post, unlocking one that is locked;
  // reviewing a post that was not rejected at this revision, closing reviews a public one.
  lemma OthersServed(t: Tables, op: Op, now: Millis)
    ensures op.DoUpdate? ==>
      (Step(t, op, now).Some? <==> Live(t, op.postId) && t.posts[op.postId].kind == op.kind)
    ensures op.DoLock? ==>
      (Step(t, op, now).Some? <==>
        && Live(t, op.postId) && !t.posts[op.postId].kind.Comment? && t.posts[op.postId].teamId == 0
        && (op.on || t.posts[op.postId].lockedAt != 0))
    ensures op.DoProtect? ==>
      (Step(t, op, now).Some? <==> LiveQuestion(t, op.postId) && t.posts[op.postId].teamId == 0)
    ensures op.DoReview? ==>
      (Step(t, op, now).Some? <==>
        && Live(t, op.postId) && VoteKey(op.userId, Review, op.postId) !in t.votes
        && forall k :: k in t.votes && k.postId == op.postId && UnderReview(k.kind) && t.votes[k].rejectedAt > 0 ==>
             t.votes[k].lastRev != Revision(t, op.postId, NO_ID))
    ensures op.DoReject? ==> (Step(t, op, now).Some? <==> Live(t, op.postId) && t.posts[op.postId].teamId == 0)
    ensures op.DoRegister? ==> (Step(t, op, now).Some? <==> op.userId !in t.users)
    ensures op.DoSuspend? ==> (Step(t, op, now).Some? <==> op.userId in t.users)
    ensures op.DoSetMember? ==> Step(t, op, now).Some?
  {
    hide Revision, Edited, CloseReviews;
  }

  lemma CompletionServed(t: Tables, id: Id, actor: Id, now: Millis)
    ensures CompleteReviews(t, id, actor, now).Some? <==>
      ForceDelete(t, id, now).Some? && t.posts[id].teamId == 0
  {
    hide DeleteQuestion, DeleteAnswer, DeleteComment, CloseReviews;
  }

  // ---- Over runs ----

  ghost predicate CommentsLimited(t: Tables) { forall id :: |LiveChildren(t.posts, id, Comment)| <= 20 }

  lemma FewerComments(a: set<Id>, b: set<Id>, id: Id)
    requires b <= a + {id}
    ensures |b| <= |a| + 1
    ensures b <= a ==> |b| <= |a|
  {
    assert a == b + (a - b) || !(b <= a);
    assert b - {id} <= a && a == (b - {id}) + (a - (b - {id}));
    assert b == (b - {id}) + (b * {id});
    if id in b { assert b * {id} == {id}; } else { assert b * {id} == {}; }
  }

  // Comments that are live were live before, but for the one written.
  lemma CommentsOfStep(t: Tables, op: Op, now: Millis, id: Id)
    requires Shape(t) && Step(t, op, now).Some?
    ensures var a, b := LiveChildren(t.posts, id, Comment), LiveChildren(Apply(t, op, now).posts, id, Comment);
      if op.DoCreateComment? && op.parentId == id then b <= a + {op.id} else b <= a
  {
    hide Shape, Step, Apply, StoresText, StoresEdit, StoresTimes;
    StepStores(t, op, now);
    StepInserts(t, op, now);
    var t' := Apply(t, op, now);
    forall c | c in t'.posts && t'.posts[c].parentId == id && t'.posts[c].kind.Comment? && t'.posts[c].deleteAt == 0
      ensures c in LiveChildren(t.posts, id, Comment)
           || (op.DoCreateComment? && op.parentId == id && c == op.id)
    {
      if c in t.posts { assert Stores(t.posts[c], t'.posts[c], op, c, now); }
    }
  }

  lemma StepLimits(t: Tables, op: Op, now: Millis)
    requires Shape(t) && CommentsLimited(t) && Step(t, op, now).Some?
    ensures CommentsLimited(Apply(t, op, now))
  {
    hide Shape, Step, Apply, LiveChildren, MayWrite;
    forall id ensures |LiveChildren(Apply(t, op, now).posts, id, Comment)| <= 20 {
      CommentsOfStep(t, op, now, id);
      var a, b := LiveChildren(t.posts, id, Comment), LiveChildren(Apply(t, op, now).posts, id, Comment);
      if op.DoCreateComment? && op.parentId == id { CreationServed(t, op, now); }
      FewerComments(a, b, if op.DoCreateComment? then op.id else NO_ID);
    }
  }

  /** In every reachable state no post has more than twenty live comments. */
  lemma {:induction false} RunLimitsComments(calls: seq<Call>)
    ensures CommentsLimited(Run(calls))
  {
    hide Shape, Step, Apply, CommentsLimited;
    if calls == [] {
      NoComments();
    } else {
      var n := |calls| - 1;
      var t, c := Run(calls[..n]), calls[n];
      RunLimitsComments(calls[..n]);
      RunKeepsShape(calls[..n]);
      if Step(t, c.op, c.now).Some? { StepLimits(t, c.op, c.now); } else { FailedStep(t, c.op, c.now); }
    }
  }

  lemma NoComments()
    ensures CommentsLimited(Run([]))
  {
    forall id ensures LiveChildren(EMPTY.posts, id, Comment) == {} {
    }
  }
}
