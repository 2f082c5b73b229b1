/** The rows of Votes as the calls wrote them: which votes stand after a run, and how each review ended. Likewise
    the accounts and memberships beside them. */
module PostVotes {
  import opened PostTables
  import opened Wrappers
  import opened PostShape
  import opened PostReviews
  import opened PostColumns
  import opened PostRevisions

  // ---- What one operation does to the votes ----

  predicate Creates(op: Op) { op.DoCreateQuestion? || op.DoCreateAnswer? || op.DoCreateComment? }

  // Reviews, flags and system reviews can be closed, once.
  predicate Closable(k: VoteKey, v: Vote) {
    (k.kind.Review? || k.kind.Flag? || k.kind.System?) && v.invalidateAt == v.completedAt == v.rejectedAt == 0
  }

  // A deletion invalidates what is open on the post, and a rejection rejects it; nothing else changes a row.
  predicate VoteKept(t: Tables, k: VoteKey, v: Vote, w: Vote, op: Op, now: Millis) {
    var voided := Closable(k, v) && Deletes(op, k.postId);
    var refused := Closable(k, v) && op.DoReject? && op.postId == k.postId;
    && w.tags == v.tags && w.teamId == v.teamId && w.firstRev == v.firstRev && w.createAt == v.createAt
    && w.completedAt == v.completedAt && w.completedBy == v.completedBy
    && w.invalidateAt == (if voided then now else v.invalidateAt)
    && w.rejectedAt == (if refused then now else v.rejectedAt)
    && w.rejectedBy == (if refused then op.userId else v.rejectedBy)
    && w.lastRev == (if voided || refused then RevisionOf(t, k) else v.lastRev)
  }

  predicate Cancels(op: Op, k: VoteKey) { op.DoCancel? && k == VoteKey(op.userId, op.vote, op.postId) }

  // A new row: open, at the revision it is about, under the post's team.
  predicate VoteMade(t': Tables, k: VoteKey, w: Vote, op: Op, now: Millis) {
    && w.createAt == now && w.lastRev == 0
    && w.invalidateAt == w.completedAt == w.rejectedAt == 0 && w.completedBy == w.rejectedBy == 0
    && k.postId in t'.posts && w.teamId == t'.posts[k.postId].teamId
    && match op
       case DoCast(id, kind, userId) =>
         k == VoteKey(userId, kind, id) && w.tags == [] && w.firstRev == if kind.Flag? then RevisionOf(t', k) else 0
       case DoReview(id, userId, tags) =>
         k == VoteKey(userId, Review, id) && w.tags == tags && w.firstRev == Revision(t', id, NO_ID)
       case _ => Creates(op) && k == VoteKey(0, System, op.id) && w.tags != [] && w.firstRev == 1
  }

  ghost predicate VotesKept(t: Tables, t': Tables, op: Op, now: Millis) {
    && (forall k :: k in t.votes && k in t'.votes ==> VoteKept(t, k, t.votes[k], t'.votes[k], op, now))
    && (forall k :: k in t.votes && k !in t'.votes ==> Cancels(op, k))
    && (forall k :: k in t'.votes && k !in t.votes ==> VoteMade(t', k, t'.votes[k], op, now))
    && (op.DoCast? ==> VoteKey(op.userId, op.vote, op.postId) in t'.votes)
    && (op.DoReview? ==> VoteKey(op.userId, Review, op.postId) in t'.votes)
    && (op.DoCancel? ==> VoteKey(op.userId, op.vote, op.postId) !in t'.votes)
  }

  lemma CreationKeepsVotes(t: Tables, op: Op, now: Millis)
    requires Step(t, op, now).Some? && Creates(op)
    ensures VotesKept(t, Apply(t, op, now), op, now)
  {
    hide FirstPost, LiveChildren, AnswerReviewTags, Award, RevisionOf;
  }

  lemma CastKeepsVotes(t: Tables, op: Op, now: Millis)
    requires Step(t, op, now).Some? && op.DoCast?
    ensures VotesKept(t, Apply(t, op, now), op, now)
  {
    hide MayVote, Revision, Award, TagsForPost;
    var id := op.postId;
    SameRevision(t, Apply(t, op, now), id, t.posts[id].teamId);
  }

  lemma CancelKeepsVotes(t: Tables, op: Op, now: Millis)
    requires Step(t, op, now).Some? && op.DoCancel?
    ensures VotesKept(t, Apply(t, op, now), op, now)
  {
    hide MayVote, Revision, Award, TagsForPost, VoteMade;
  }

  lemma ReviewingKeepsVotes(t: Tables, op: Op, now: Millis)
    requires Step(t, op, now).Some? && (op.DoReview? || op.DoReject?)
    ensures VotesKept(t, Apply(t, op, now), op, now)
  {
    hide Revision, RejectedAtRevision;
    SameRevision(t, Apply(t, op, now), op.postId, NO_ID);
  }

  lemma DeletionKeepsVotes(t: Tables, op: Op, now: Millis)
    requires Shape(t) && Step(t, op, now).Some? && (op.DoDelete? || op.DoForceDelete? || op.DoComplete?)
    ensures VotesKept(t, Apply(t, op, now), op, now)
  {
    hide Shape, ForceDelete, Deletable, Revision, CompleteReviews;
    if op.DoComplete? {
      CompletesLivePublic(t, op.postId, op.userId, now);
      CompletionIsForcedDeletion(t, op.postId, op.userId, now);
    }
    ForceDeleteVotes(t, op.postId, now);
    ForceDeletePosts(t, op.postId, now);
  }

  lemma OthersKeepVotes(t: Tables, op: Op, now: Millis)
    requires Step(t, op, now).Some?
    requires op.DoUpdate? || op.DoLock? || op.DoProtect? || op.DoSelect?
          || op.DoRegister? || op.DoSuspend? || op.DoSetMember?
    ensures VotesKept(t, Apply(t, op, now), op, now)
  {
    hide PaySelection, Edited;
  }

  /** What an operation that succeeds does to every row of Votes. */
  lemma StepKeepsVotes(t: Tables, op: Op, now: Millis)
    requires Shape(t) && Step(t, op, now).Some?
    ensures VotesKept(t, Apply(t, op, now), op, now)
  {
    hide Shape, VotesKept, CreateQuestion, CreateAnswer, CreateComment, UpdatePost, LockPost, ProtectPost, ForceDelete,
         Deletable, SelectBestAnswer, Cast, Cancel, CreateReview, RejectReviews, CompleteReviews, Register, Suspend,
         SetMember;
    match op {
      case DoCreateQuestion(_, _, _, _, _, _) => CreationKeepsVotes(t, op, now);
      case DoCreateAnswer(_, _, _, _, _) => CreationKeepsVotes(t, op, now);
      case DoCreateComment(_, _, _, _, _) => CreationKeepsVotes(t, op, now);
      case DoCast(_, _, _) => CastKeepsVotes(t, op, now);
      case DoCancel(_, _, _) => CancelKeepsVotes(t, op, now);
      case DoReview(_, _, _) => ReviewingKeepsVotes(t, op, now);
      case DoReject(_, _) => ReviewingKeepsVotes(t, op, now);
      case DoDelete(_) => DeletionKeepsVotes(t, op, now);
      case DoForceDelete(_) => DeletionKeepsVotes(t, op, now);
      case DoComplete(_, _) => DeletionKeepsVotes(t, op, now);
      case _ => OthersKeepVotes(t, op, now);
    }
  }

  // ---- Runs ----

  // A vote stands when the last of the calls on it that succeeded cast it.
  predicate Standing(calls: seq<Call>, key: VoteKey) {
    if calls == [] then false else
      var n := |calls| - 1;
      var c := calls[n];
      if Step(Run(calls[..n]), c.op, c.now).None? then Standing(calls[..n], key)
      else if c.op.DoCast? && key == VoteKey(c.op.userId, c.op.vote, c.op.postId) then true
      else !Cancels(c.op, key) && Standing(calls[..n], key)
  }

  /** After any run the up-votes, down-votes and flags in the table are exactly those that stand. */
  lemma {:induction false} RunVotes(calls: seq<Call>, key: VoteKey)
    requires Ballot(key.kind)
    ensures key in Run(calls).votes <==> Standing(calls, key)
  {
    hide Shape, Step, Apply, VoteKept;
    if calls != [] {
      var n := |calls| - 1;
      var t, c := Run(calls[..n]), calls[n];
      RunVotes(calls[..n], key);
      RunKeepsShape(calls[..n]);
      if Step(t, c.op, c.now).Some? {
        StepKeepsVotes(t, c.op, c.now);
      } else {
        FailedStep(t, c.op, c.now);
      }
    } else {
      NoVotes(key);
    }
  }

  lemma NoVotes(key: VoteKey)
    ensures key !in Run([]).votes
  {
  }

  // How a review ended, or that it is still open.
  datatype Fate = Pending | Void(at: Millis) | Refused(at: Millis, actor: Id)

  function FateOf(calls: seq<Call>, key: VoteKey): Fate {
    if calls == [] then Pending else
      var n := |calls| - 1;
      var t, c, before := Run(calls[..n]), calls[n], FateOf(calls[..n], key);
      if Step(t, c.op, c.now).None? then before
      else if key !in t.votes then Pending
      else if before.Pending? && Deletes(c.op, key.postId) then Void(c.now)
      else if before.Pending? && c.op.DoReject? && c.op.postId == key.postId then Refused(c.now, c.op.userId)
      else before
  }

  predicate Ended(v: Vote, fate: Fate) {
    && v.completedAt == 0 && v.completedBy == 0
    && v.invalidateAt == (if fate.Void? then fate.at else 0)
    && v.rejectedAt == (if fate.Refused? then fate.at else 0)
    && v.rejectedBy == (if fate.Refused? then fate.actor else 0)
  }

  lemma FateStep(t: Tables, k: VoteKey, v: Vote, w: Vote, fate: Fate, op: Op, now: Millis)
    requires UnderReview(k.kind) && Ended(v, fate) && VoteKept(t, k, v, w, op, now)
    ensures Ended(w, if fate.Pending? && Deletes(op, k.postId) then Void(now)
                     else if fate.Pending? && op.DoReject? && op.postId == k.postId then Refused(now, op.userId)
                     else fate)
  {
  }

  /** After any run each review in the table is open, or was invalidated by the first deletion of its post, or
      rejected by the first rejection before that; and none was completed. */
  lemma {:induction false} RunEnds(calls: seq<Call>, key: VoteKey)
    requires UnderReview(key.kind) && key in Run(calls).votes
    ensures Ended(Run(calls).votes[key], FateOf(calls, key))
  {
    hide Shape, Step, Apply, VoteKept, Ended, UnderReview;
    if calls != [] {
      var n := |calls| - 1;
      var t, c := Run(calls[..n]), calls[n];
      RunKeepsShape(calls[..n]);
      if Step(t, c.op, c.now).None? {
        FailedStep(t, c.op, c.now);
        RunEnds(calls[..n], key);
      } else {
        StepKeepsVotes(t, c.op, c.now);
        if key in t.votes {
          RunEnds(calls[..n], key);
          FateStep(t, key, t.votes[key], Run(calls).votes[key], FateOf(calls[..n], key), c.op, c.now);
        } else {
          MadeOpen(Run(calls), key, c.op, c.now);
        }
      }
    } else {
      NoVotes(key);
    }
  }

  lemma MadeOpen(t': Tables, k: VoteKey, op: Op, now: Millis)
    requires k in t'.votes && VoteMade(t', k, t'.votes[k], op, now)
    ensures Ended(t'.votes[k], Pending)
  {
  }

  // ---- Accounts and memberships ----

  ghost predicate AccountsKept(t: Tables, t': Tables, op: Op) {
    && (forall u :: u in t'.users <==> u in t.users || (op.DoRegister? && op.userId == u))
    && (forall u :: u in t'.users ==>
          if u !in t.users then t'.users[u].points == 0 && t'.users[u].suspendTime == 0
          else t'.users[u].suspendTime == if op.DoSuspend? && op.userId == u then op.until else t.users[u].suspendTime)
    && (forall key :: key in t'.members <==> key in t.members || (op.DoSetMember? && key == (op.team, op.userId)))
    && (forall key :: key in t'.members ==>
          && (t'.members[key].active <==> if op.DoSetMember? && key == (op.team, op.userId) then op.on
                                          else key in t.members && t.members[key].active)
          && (op.DoSetMember? ==> t'.members[key].points == if key in t.members then t.members[key].points else 0))
  }

  // Points are all that an award writes there.
  ghost predicate PointsOnly(t: Tables, t': Tables) {
    && t'.users.Keys == t.users.Keys && t'.members.Keys == t.members.Keys
    && (forall u :: u in t.users ==> t'.users[u].suspendTime == t.users[u].suspendTime)
    && (forall key :: key in t.members ==> (t'.members[key].active <==> t.members[key].active))
  }

  lemma AwardPointsOnly(t: Tables, t1: Tables, id: Id, kind: PointKind, tags: seq<string>, delta: int, now: int)
    requires id in t1.posts && t1.users == t.users && t1.members == t.members
    ensures PointsOnly(t, Award(t1, id, kind, tags, delta, now))
  {
  }

  lemma CreationPointsOnly(t: Tables, op: Op, now: Millis)
    requires Step(t, op, now).Some? && Creates(op)
    ensures PointsOnly(t, Apply(t, op, now))
  {
    hide FirstPost, LiveChildren, AnswerReviewTags;
  }

  lemma DeletionPointsOnly(t: Tables, id: Id, now: Millis)
    requires ForceDelete(t, id, now).Some?
    ensures PointsOnly(t, ForceDelete(t, id, now).value)
  {
    hide Invalidate, Award, PointsOnly;
    var p, t1 := t.posts[id], MarkDeleted(t, id, now);
    match p.kind {
      case Question =>
        AwardPointsOnly(t, Invalidate(t1, id, now), id, DeleteQuestionPoint, p.tags, -POINT_FOR_CREATE_QUESTION, now);
      case Answer =>
        var t2 := Invalidate(DropAnswer(t1, p.parentId), id, now);
        AwardPointsOnly(t, t2, id, DeleteAnswerPoint, t.posts[p.parentId].tags, -POINT_FOR_CREATE_ANSWER, now);
      case Comment => SamePointsOnly(t, ForceDelete(t, id, now).value);
    }
  }

  lemma SamePointsOnly(t: Tables, t': Tables)
    requires t'.users == t.users && t'.members == t.members
    ensures PointsOnly(t, t')
  {
  }

  lemma SettlePointsOnly(t: Tables, t1: Tables, id: Id, kind: PointKind, delta: int, now: int)
    requires id in t1.posts && t1.users == t.users && t1.members == t.members
    ensures PointsOnly(t, t1)
    ensures Settle(t1, id, kind, delta, now).Some? ==> PointsOnly(t, Settle(t1, id, kind, delta, now).value)
  {
    hide Award;
    if Settle(t1, id, kind, delta, now).Some? {
      AwardPointsOnly(t, t1, id, kind, TagsForPost(t1, t1.posts[id]).value, delta, now);
    }
  }

  lemma VotePointsOnly(t: Tables, op: Op, now: Millis)
    requires Step(t, op, now).Some? && (op.DoCast? || op.DoCancel?)
    ensures PointsOnly(t, Apply(t, op, now))
  {
    hide MayVote, Revision, Settle, PointsOnly;
    var id, kind, p := op.postId, op.vote, t.posts[op.postId];
    var key := VoteKey(op.userId, kind, id);
    if op.DoCast? {
      var rev := if kind.Flag? then Revision(t, id, p.teamId) else 0;
      var t1 := PutPost(PutVote(t, key, NewVote([], p.teamId, rev, now)), id, Counted(p, kind, 1, now));
      SettlePointsOnly(t, t1, id, Gained(kind), PointsFor(kind), now);
    } else {
      var t1 := PutPost(t.(votes := t.votes - {key}), id, Counted(p, kind, -1, now));
      SettlePointsOnly(t, t1, id, Canceled(kind), -PointsFor(kind), now);
    }
  }

  lemma SelectPointsOnly(t: Tables, op: Op, now: Millis)
    requires Step(t, op, now).Some? && op.DoSelect?
    ensures PointsOnly(t, Apply(t, op, now))
  {
  }

  lemma OtherPointsOnly(t: Tables, op: Op, now: Millis)
    requires Step(t, op, now).Some? && (op.DoUpdate? || op.DoLock? || op.DoProtect? || op.DoReview? || op.DoReject?)
    ensures PointsOnly(t, Apply(t, op, now))
  {
    hide Revision, RejectedAtRevision, Edited;
  }

  lemma PointsOnlyKept(t: Tables, t': Tables, op: Op)
    requires PointsOnly(t, t') && !op.DoRegister? && !op.DoSuspend? && !op.DoSetMember?
    ensures AccountsKept(t, t', op)
  {
  }

  lemma OwnAccountsKept(t: Tables, op: Op, now: Millis)
    requires Step(t, op, now).Some? && (op.DoRegister? || op.DoSuspend? || op.DoSetMember?)
    ensures AccountsKept(t, Apply(t, op, now), op)
  {
  }

  /** Which accounts and memberships an operation opens, and what it sets in them besides points. */
  lemma StepKeepsAccounts(t: Tables, op: Op, now: Millis)
    requires Step(t, op, now).Some?
    ensures AccountsKept(t, Apply(t, op, now), op)
  {
    hide AccountsKept, PointsOnly, CreateQuestion, CreateAnswer, CreateComment, UpdatePost, LockPost, ProtectPost,
         ForceDelete, Deletable, SelectBestAnswer, Cast, Cancel, CreateReview, RejectReviews, CloseReviews, Register,
         Suspend, SetMember;
    match op {
      case DoRegister(_) => OwnAccountsKept(t, op, now);
      case DoSuspend(_, _) => OwnAccountsKept(t, op, now);
      case DoSetMember(_, _, _) => OwnAccountsKept(t, op, now);
      case _ =>
        StepPointsOnly(t, op, now);
        PointsOnlyKept(t, Apply(t, op, now), op);
    }
  }

  lemma StepPointsOnly(t: Tables, op: Op, now: Millis)
    requires Step(t, op, now).Some? && !op.DoRegister? && !op.DoSuspend? && !op.DoSetMember?
    ensures PointsOnly(t, Apply(t, op, now))
  {
    hide PointsOnly, CreateQuestion, CreateAnswer, CreateComment, UpdatePost, LockPost, ProtectPost, ForceDelete,
         Deletable, SelectBestAnswer, Cast, Cancel, CreateReview, RejectReviews, CloseReviews;
    match op {
      case DoCreateQuestion(_, _, _, _, _, _) => CreationPointsOnly(t, op, now);
      case DoCreateAnswer(_, _, _, _, _) => CreationPointsOnly(t, op, now);
      case DoCreateComment(_, _, _, _, _) => CreationPointsOnly(t, op, now);
      case DoCast(_, _, _) => VotePointsOnly(t, op, now);
      case DoCancel(_, _, _) => VotePointsOnly(t, op, now);
      case DoSelect(_, _) => SelectPointsOnly(t, op, now);
      case DoDelete(id) => DeletionPointsOnly(t, id, now);
      case DoForceDelete(id) => DeletionPointsOnly(t, id, now);
      case DoComplete(id, _) => DeletionPointsOnly(t, id, now); CompletedPointsOnly(t, op, now);
      case _ => OtherPointsOnly(t, op, now);
    }
  }

  lemma CompletedPointsOnly(t: Tables, op: Op, now: Millis)
    requires Step(t, op, now).Some? && op.DoComplete? && ForceDelete(t, op.postId, now).Some?
    requires PointsOnly(t, ForceDelete(t, op.postId, now).value)
    ensures PointsOnly(t, Apply(t, op, now))
  {
    hide ForceDelete, CloseReviews;
  }
}
