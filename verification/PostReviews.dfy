/** Reviews, flags and system reviews: how they are opened, closed once, and never completed. */
module PostReviews {
  import opened PostTables
  import opened Wrappers
  import opened PostShape

  // The revision of the post a vote is about.
  function RevisionOf(t: Tables, k: VoteKey): int {
    if k.postId in t.posts then Revision(t, k.postId, t.posts[k.postId].teamId) else 1
  }

  // Invalidated or rejected, not both, never completed; and closed at a revision not before the one
  // it was opened at.
  predicate Sound(v: Vote, kind: VoteKind, rev: int) {
    && v.completedAt == 0
    && (v.invalidateAt == 0 || v.rejectedAt == 0)
    && (UnderReview(kind) ==> 1 <= v.firstRev <= rev)
    && (!Open(v) ==> UnderReview(kind) && v.firstRev <= v.lastRev <= rev)
  }

  ghost predicate Reviews(t: Tables) {
    forall k :: k in t.votes ==> Sound(t.votes[k], k.kind, RevisionOf(t, k))
  }

  // A closed row is never written again.
  ghost predicate ClosedStay(t: Tables, t': Tables) {
    forall k :: k in t.votes && k in t'.votes && !Open(t.votes[k]) ==> t'.votes[k] == t.votes[k]
  }

  lemma RevisionsGrow(t: Tables, t': Tables, id: Id, teamId: Id)
    requires Grows(t, t')
    ensures 1 <= Revision(t, id, teamId) <= Revision(t', id, teamId)
  {
    var a, b := Rows(t, id, teamId), Rows(t', id, teamId);
    forall c | c in a ensures c in b { assert Evolves(t.posts[c], t'.posts[c]); }
    SubsetSize(a, b);
  }

  lemma SubsetSize<T>(a: set<T>, b: set<T>)
    requires a <= b
    ensures |a| <= |b|
  {
    assert b == a + (b - a);
  }

  // Enough to check: the rows that are new or changed.
  lemma ReviewsKept(t: Tables, t': Tables)
    requires Shape(t) && Reviews(t) && Grows(t, t')
    requires forall k :: k in t'.votes && (k !in t.votes || t'.votes[k] != t.votes[k]) ==>
      Sound(t'.votes[k], k.kind, RevisionOf(t', k)) && (k in t.votes ==> Open(t.votes[k]))
    ensures Reviews(t') && ClosedStay(t, t')
  {
    forall k | k in t'.votes ensures Sound(t'.votes[k], k.kind, RevisionOf(t', k)) {
      if k in t.votes && t'.votes[k] == t.votes[k] {
        assert VotePlaced(t, k) && Evolves(t.posts[k.postId], t'.posts[k.postId]);
        RevisionsGrow(t, t', k.postId, t.posts[k.postId].teamId);
      }
    }
  }

  lemma FirstRevision(t: Tables, k: VoteKey)
    ensures 1 <= RevisionOf(t, k)
  {
  }

  // ---- The operations ----

  lemma CreateKeepsReviews(t: Tables, op: Op, now: Millis)
    requires Shape(t) && Reviews(t) && Step(t, op, now).Some?
    requires op.DoCreateQuestion? || op.DoCreateAnswer? || op.DoCreateComment?
    ensures Reviews(Apply(t, op, now)) && ClosedStay(t, Apply(t, op, now))
  {
    hide Shape, Reviews, FirstPost, LiveChildren, AnswerReviewTags, Award, RevisionOf;
    StepKeepsShape(t, op, now);
    FirstRevision(Apply(t, op, now), VoteKey(NO_ID, System, op.id));
    ReviewsKept(t, Apply(t, op, now));
  }

  // Rows of Votes untouched.
  lemma OtherKeepsReviews(t: Tables, op: Op, now: Millis)
    requires Shape(t) && Reviews(t) && Step(t, op, now).Some?
    requires op.DoUpdate? || op.DoLock? || op.DoProtect? || op.DoSelect?
          || op.DoRegister? || op.DoSuspend? || op.DoSetMember?
    ensures Reviews(Apply(t, op, now)) && ClosedStay(t, Apply(t, op, now))
  {
    hide Shape, Reviews, PaySelection, RevisionOf;
    StepKeepsShape(t, op, now);
    ReviewsKept(t, Apply(t, op, now));
  }

  lemma SameRevision(t: Tables, t': Tables, id: Id, teamId: Id)
    requires t'.posts.Keys == t.posts.Keys && forall y :: y in t.posts ==> SameIdentity(t.posts[y], t'.posts[y])
    ensures Revision(t', id, teamId) == Revision(t, id, teamId)
  {
    assert Rows(t', id, teamId) == Rows(t, id, teamId);
  }

  lemma CastKeepsReviews(t: Tables, kind: VoteKind, id: Id, userId: Id, now: Millis)
    requires Shape(t) && Reviews(t) && Ballot(kind) && Cast(t, kind, id, userId, now).Some?
    ensures var t' := Cast(t, kind, id, userId, now).value; Reviews(t') && ClosedStay(t, t')
  {
    hide Shape, Reviews, Revision, MayVote, Award;
    var t' := Cast(t, kind, id, userId, now).value;
    CastKeepsShape(t, kind, id, userId, now);
    SameRevision(t, t', id, t.posts[id].teamId);
    RevisionsGrow(t, t', id, t.posts[id].teamId);
    ReviewsKept(t, t');
  }

  lemma CancelKeepsReviews(t: Tables, kind: VoteKind, id: Id, userId: Id, now: Millis)
    requires Shape(t) && Reviews(t) && Ballot(kind) && Cancel(t, kind, id, userId, now).Some?
    ensures var t' := Cancel(t, kind, id, userId, now).value; Reviews(t') && ClosedStay(t, t')
  {
    hide Shape, Reviews, Revision, MayVote, Award;
    CancelKeepsShape(t, kind, id, userId, now);
    ReviewsKept(t, Cancel(t, kind, id, userId, now).value);
  }

  // Closing the open reviews of one post, at its current revision.
  lemma CloseKeepsReviews(t: Tables, id: Id, closed: Vote -> Vote)
    requires Shape(t) && Reviews(t) && id in t.posts
    requires forall v: Vote :: closed(v).teamId == v.teamId && closed(v).firstRev == v.firstRev
    requires forall v: Vote :: closed(v).completedAt == v.completedAt
    requires forall v: Vote :: closed(v).lastRev == Revision(t, id, t.posts[id].teamId)
    requires forall v: Vote :: Open(v) ==> closed(v).invalidateAt == 0 || closed(v).rejectedAt == 0
    ensures var t' := CloseReviews(t, id, closed); Reviews(t') && ClosedStay(t, t')
  {
    hide Shape;
    var t' := CloseReviews(t, id, closed);
    CloseKeepsShape(t, id, closed);
    forall k | k in t'.votes && t'.votes[k] != t.votes[k]
      ensures Sound(t'.votes[k], k.kind, RevisionOf(t', k)) && Open(t.votes[k])
    {
      assert Sound(t.votes[k], k.kind, RevisionOf(t, k));
    }
    ReviewsKept(t, t');
  }

  // What a deletion does to Votes: the post's open reviews are invalidated at its revision.
  lemma ForceDeleteVotes(t: Tables, id: Id, now: Millis)
    requires Shape(t) && ForceDelete(t, id, now).Some?
    ensures ForceDelete(t, id, now).value.votes
         == CloseReviews(t, id, Invalidated(now, Revision(t, id, t.posts[id].teamId))).votes
  {
    hide Shape, Award, Revision;
    ForceDeletePosts(t, id, now);
    SameRevision(t, MarkDeleted(t, id, now), id, t.posts[id].teamId);
    if t.posts[id].kind.Answer? {
      SameRevision(t, DropAnswer(MarkDeleted(t, id, now), t.posts[id].parentId), id, t.posts[id].teamId);
    }
  }

  lemma ForceDeleteKeepsReviews(t: Tables, id: Id, now: Millis)
    requires Shape(t) && Reviews(t) && ForceDelete(t, id, now).Some?
    ensures var t' := ForceDelete(t, id, now).value; Reviews(t') && ClosedStay(t, t')
  {
    hide Shape, Reviews, ForceDelete, CloseReviews, Revision;
    var t' := ForceDelete(t, id, now).value;
    ForceDeletePosts(t, id, now);
    ForceDeleteKeepsShape(t, id, now);
    ForceDeleteVotes(t, id, now);
    var inv := Invalidated(now, Revision(t, id, t.posts[id].teamId));
    CloseKeepsReviews(t, id, inv);
    CloseKeepsShape(t, id, inv);
    SameVotes(t, CloseReviews(t, id, inv), t');
  }

  lemma SameVotes(t: Tables, t1: Tables, t': Tables)
    requires Shape(t) && Reviews(t1) && ClosedStay(t, t1) && t1.posts == t.posts && Grows(t, t') && t'.votes == t1.votes
    requires t1.votes.Keys == t.votes.Keys
    ensures Reviews(t') && ClosedStay(t, t')
  {
    forall k | k in t'.votes ensures Sound(t'.votes[k], k.kind, RevisionOf(t', k)) {
      assert VotePlaced(t, k) && Evolves(t.posts[k.postId], t'.posts[k.postId]);
      RevisionsGrow(t, t', k.postId, t.posts[k.postId].teamId);
      assert RevisionOf(t1, k) == RevisionOf(t, k);
    }
  }

  /** CompleteReviewsForPost deletes first, and the deletion has already invalidated every open review:
      it completes none, and does exactly what the forced deletion does. */
  lemma CompletionIsForcedDeletion(t: Tables, id: Id, actor: Id, now: Millis)
    requires Shape(t) && Live(t, id) && t.posts[id].teamId == NO_ID
    ensures CompleteReviews(t, id, actor, now) == ForceDelete(t, id, now)
  {
    hide Shape, ForceDelete, Revision;
    if ForceDelete(t, id, now).Some? {
      ForceDeleteVotes(t, id, now);
      var t1 := ForceDelete(t, id, now).value;
      assert forall k :: k in t1.votes && k.postId == id && UnderReview(k.kind) ==> !Open(t1.votes[k]);
      assert CloseReviews(t1, id, Completed(now, actor, Revision(t1, id, NO_ID))).votes == t1.votes;
    }
  }

  lemma ReviewKeepsReviews(t: Tables, op: Op, now: Millis)
    requires Shape(t) && Reviews(t) && Step(t, op, now).Some? && op.DoReview?
    ensures Reviews(Apply(t, op, now)) && ClosedStay(t, Apply(t, op, now))
  {
    hide Shape, Reviews, RevisionOf;
    StepKeepsShape(t, op, now);
    FirstRevision(Apply(t, op, now), VoteKey(op.userId, Review, op.postId));
    ReviewsKept(t, Apply(t, op, now));
  }

  lemma StepKeepsReviews(t: Tables, op: Op, now: Millis)
    requires Shape(t) && Reviews(t)
    ensures Reviews(Apply(t, op, now)) && ClosedStay(t, Apply(t, op, now))
  {
    hide Shape, Reviews, CreateQuestion, CreateAnswer, CreateComment, UpdatePost, LockPost, ProtectPost, ForceDelete,
         CloseReviews, Deletable, SelectBestAnswer, Cast, Cancel, CreateReview, CompleteReviews, Register, Suspend,
         SetMember;
    if Step(t, op, now).Some? {
      match op {
        case DoCreateQuestion(_, _, _, _, _, _) => CreateKeepsReviews(t, op, now);
        case DoCreateAnswer(_, _, _, _, _) => CreateKeepsReviews(t, op, now);
        case DoCreateComment(_, _, _, _, _) => CreateKeepsReviews(t, op, now);
        case DoDelete(id) => ForceDeleteKeepsReviews(t, id, now);
        case DoForceDelete(id) => ForceDeleteKeepsReviews(t, id, now);
        case DoComplete(id, actor) =>
          CompletesLivePublic(t, id, actor, now);
          CompletionIsForcedDeletion(t, id, actor, now);
          ForceDeleteKeepsReviews(t, id, now);
        case DoCast(id, kind, userId) => CastKeepsReviews(t, kind, id, userId, now);
        case DoCancel(id, kind, userId) => CancelKeepsReviews(t, kind, id, userId, now);
        case DoReview(_, _, _) => ReviewKeepsReviews(t, op, now);
        case DoReject(id, actor) => CloseKeepsReviews(t, id, Rejected(now, actor, Revision(t, id, NO_ID)));
        case _ => OtherKeepsReviews(t, op, now);
      }
    }
  }

  lemma CompletesLivePublic(t: Tables, id: Id, actor: Id, now: Millis)
    requires CompleteReviews(t, id, actor, now).Some?
    ensures Live(t, id) && t.posts[id].teamId == NO_ID
  {
  }

  /** Over any run, every closed review was closed once, by invalidation or by rejection, at a revision
      not before the one it was opened at; none is ever marked completed. */
  lemma {:induction false} RunKeepsReviews(calls: seq<Call>)
    ensures Reviews(Run(calls))
  {
    if calls != [] {
      var n := |calls| - 1;
      RunKeepsShape(calls[..n]);
      RunKeepsReviews(calls[..n]);
      StepKeepsReviews(Run(calls[..n]), calls[n].op, calls[n].now);
    }
  }
}
