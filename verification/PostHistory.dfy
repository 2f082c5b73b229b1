/** The point history as a log of the calls: which rows every operation appends, and what each row says. */
module PostHistory {
  import opened PostTables
  import opened Wrappers
  import opened PostShape

  // What a row is about: the occasion, the post, and the tags of the question at the root of its thread.
  datatype Entry = Entry(kind: PointKind, postId: Id, tags: seq<string>)

  // What each occasion is worth.
  function Price(kind: PointKind): int {
    match kind
    case CreateQuestionPoint => 3
    case CreateAnswerPoint => 3
    case SelectAnswerPoint => 3
    case SelectedAnswerPoint => 10
    case DeleteQuestionPoint => -3
    case DeleteAnswerPoint => -3
    case Gained(vote) => if vote.UpVote? then 5 else if vote.DownVote? then -3 else -2
    case Canceled(vote) => if vote.UpVote? then -5 else if vote.DownVote? then 3 else 2
  }

  function ThreadTags(posts: map<Id, Post>, id: Id): seq<string> {
    if id !in posts then [] else
      var top := match posts[id].kind
        case Question => id
        case Answer => posts[id].parentId
        case Comment => posts[id].rootId;
      if top in posts then posts[top].tags else []
  }

  // One entry under a post, unless its author is the one who acts on it.
  function About(posts: map<Id, Post>, kind: PointKind, id: Id): Entry { Entry(kind, id, ThreadTags(posts, id)) }

  predicate SameAuthor(posts: map<Id, Post>, id: Id, other: Id) {
    id in posts && other in posts && posts[id].userId == posts[other].userId
  }

  function Deletion(posts: map<Id, Post>, id: Id): seq<Entry> {
    if id !in posts || posts[id].kind.Comment? then []
    else [About(posts, if posts[id].kind.Question? then DeleteQuestionPoint else DeleteAnswerPoint, id)]
  }

  // The entries of an operation, read off the posts it leaves.
  function Entries(posts: map<Id, Post>, op: Op): seq<Entry> {
    match op
    case DoCreateQuestion(id, _, _, _, _, _) => [About(posts, CreateQuestionPoint, id)]
    case DoCreateAnswer(id, _, _, parentId, _) =>
      if SameAuthor(posts, id, parentId) then [] else [About(posts, CreateAnswerPoint, id)]
    case DoDelete(id) => Deletion(posts, id)
    case DoForceDelete(id) => Deletion(posts, id)
    case DoComplete(id, _) => Deletion(posts, id)
    case DoSelect(id, bestId) =>
      if SameAuthor(posts, id, bestId) then []
      else [About(posts, SelectAnswerPoint, id), About(posts, SelectedAnswerPoint, bestId)]
    case DoCast(id, kind, userId) =>
      if id in posts && posts[id].userId == userId && !kind.Flag? then [] else [About(posts, Gained(kind), id)]
    case DoCancel(id, kind, userId) =>
      if id in posts && posts[id].userId == userId && !kind.Flag? then [] else [About(posts, Canceled(kind), id)]
    case _ => []
  }

  // A row is filed under its post's team and author, at the price of its occasion.
  predicate Says(posts: map<Id, Post>, r: HistoryRow, e: Entry, now: int) {
    && e.postId in posts
    && r.postId == e.postId && r.kind == e.kind && r.tags == e.tags && r.points == Price(e.kind) && r.createAt == now
    && r.teamId == posts[e.postId].teamId && r.userId == posts[e.postId].userId && r.postKind == posts[e.postId].kind
  }

  ghost predicate Appends(t: Tables, t': Tables, es: seq<Entry>, now: int) {
    && |t'.history| == |t.history| + |es| && t'.history[..|t.history|] == t.history
    && forall i :: 0 <= i < |es| ==> Says(t'.posts, t'.history[|t.history| + i], es[i], now)
  }

  lemma CreationAppends(t: Tables, op: Op, now: Millis)
    requires Step(t, op, now).Some? && (op.DoCreateQuestion? || op.DoCreateAnswer? || op.DoCreateComment?)
    ensures Appends(t, Apply(t, op, now), Entries(Apply(t, op, now).posts, op), now)
  {
    hide FirstPost, LiveChildren, AnswerReviewTags;
  }

  lemma AwardAppends(t: Tables, t1: Tables, id: Id, kind: PointKind, tags: seq<string>, delta: int, now: int)
    requires id in t1.posts && t1.history == t.history && delta == Price(kind)
    ensures Appends(t, Award(t1, id, kind, tags, delta, now), [Entry(kind, id, tags)], now)
  {
    hide AddPoints;
  }

  lemma DeletionAppends(t: Tables, id: Id, now: Millis)
    requires Shape(t) && ForceDelete(t, id, now).Some?
    ensures var t' := ForceDelete(t, id, now).value; Appends(t, t', Deletion(t'.posts, id), now)
  {
    hide Shape, Invalidate, Award, Appends, AddPoints;
    LivePlaced(t, id);
    var p, t1 := t.posts[id], MarkDeleted(t, id, now);
    match p.kind {
      case Question =>
        AwardAppends(t, Invalidate(t1, id, now), id, DeleteQuestionPoint, p.tags, -POINT_FOR_CREATE_QUESTION, now);
      case Answer =>
        var t2 := Invalidate(DropAnswer(t1, p.parentId), id, now);
        AwardAppends(t, t2, id, DeleteAnswerPoint, t.posts[p.parentId].tags, -POINT_FOR_CREATE_ANSWER, now);
      case Comment => NoneAppended(t, ForceDelete(t, id, now).value, now);
    }
  }

  lemma NoneAppended(t: Tables, t': Tables, now: int)
    requires t'.history == t.history
    ensures Appends(t, t', [], now)
  {
  }

  lemma SelectionAppends(t: Tables, op: Op, now: Millis)
    requires Step(t, op, now).Some? && op.DoSelect?
    ensures Appends(t, Apply(t, op, now), Entries(Apply(t, op, now).posts, op), now)
  {
    hide PaySelection;
  }

  lemma SettleAppends(t: Tables, t1: Tables, id: Id, kind: PointKind, delta: int, now: int)
    requires id in t1.posts && t1.history == t.history && delta == Price(kind)
    ensures var settled := Settle(t1, id, kind, delta, now);
      settled.Some? ==> settled.value.posts == t1.posts && Appends(t, settled.value, [About(t1.posts, kind, id)], now)
  {
    hide Award, Appends;
    if Settle(t1, id, kind, delta, now).Some? {
      AwardAppends(t, t1, id, kind, TagsForPost(t1, t1.posts[id]).value, delta, now);
    }
  }

  lemma CastAppends(t: Tables, kind: VoteKind, id: Id, userId: Id, now: Millis)
    requires Ballot(kind) && Cast(t, kind, id, userId, now).Some?
    ensures var t' := Cast(t, kind, id, userId, now).value;
      Appends(t, t', Entries(t'.posts, DoCast(id, kind, userId)), now)
  {
    hide Revision, MayVote, Settle, Appends, About;
    var p := t.posts[id];
    var rev := if kind.Flag? then Revision(t, id, p.teamId) else 0;
    var t1 := PutPost(PutVote(t, VoteKey(userId, kind, id), NewVote([], p.teamId, rev, now)), id,
                      Counted(p, kind, 1, now));
    NoneAppended(t, t1, now);
    SettleAppends(t, t1, id, Gained(kind), PointsFor(kind), now);
  }

  lemma CancelAppends(t: Tables, kind: VoteKind, id: Id, userId: Id, now: Millis)
    requires Ballot(kind) && Cancel(t, kind, id, userId, now).Some?
    ensures var t' := Cancel(t, kind, id, userId, now).value;
      Appends(t, t', Entries(t'.posts, DoCancel(id, kind, userId)), now)
  {
    hide MayVote, Settle, Appends, About;
    var t1 := PutPost(t.(votes := t.votes - {VoteKey(userId, kind, id)}), id, Counted(t.posts[id], kind, -1, now));
    NoneAppended(t, t1, now);
    SettleAppends(t, t1, id, Canceled(kind), -PointsFor(kind), now);
  }

  lemma OthersAppend(t: Tables, op: Op, now: Millis)
    requires Step(t, op, now).Some?
    requires op.DoUpdate? || op.DoLock? || op.DoProtect? || op.DoReview? || op.DoReject?
          || op.DoRegister? || op.DoSuspend? || op.DoSetMember?
    ensures Appends(t, Apply(t, op, now), [], now)
  {
    hide Revision, RejectedAtRevision;
  }

  lemma CompletionAppends(t: Tables, id: Id, actor: Id, now: Millis)
    requires CompleteReviews(t, id, actor, now).Some?
    ensures ForceDelete(t, id, now).Some?
    ensures var t1, t' := ForceDelete(t, id, now).value, CompleteReviews(t, id, actor, now).value;
      t'.history == t1.history && t'.posts == t1.posts
  {
    hide ForceDelete, CloseReviews;
  }

  /** Every operation appends exactly the rows of its entries: who is paid, for what, how much and when. */
  lemma StepAppends(t: Tables, op: Op, now: Millis)
    requires Shape(t) && Step(t, op, now).Some?
    ensures Appends(t, Apply(t, op, now), Entries(Apply(t, op, now).posts, op), now)
  {
    hide Shape, Appends, CreateQuestion, CreateAnswer, CreateComment, UpdatePost, LockPost, ProtectPost, ForceDelete,
         Deletable, SelectBestAnswer, Cast, Cancel, CreateReview, RejectReviews, CompleteReviews, Register, Suspend,
         SetMember, Deletion;
    match op {
      case DoCreateQuestion(_, _, _, _, _, _) => CreationAppends(t, op, now);
      case DoCreateAnswer(_, _, _, _, _) => CreationAppends(t, op, now);
      case DoCreateComment(_, _, _, _, _) => CreationAppends(t, op, now);
      case DoDelete(id) => DeletionAppends(t, id, now);
      case DoForceDelete(id) => DeletionAppends(t, id, now);
      case DoComplete(id, actor) =>
        CompletionAppends(t, id, actor, now);
        DeletionAppends(t, id, now);
        SameAppends(t, ForceDelete(t, id, now).value, Apply(t, op, now), Deletion(Apply(t, op, now).posts, id), now);
      case DoSelect(_, _) => SelectionAppends(t, op, now);
      case DoCast(id, kind, userId) => CastAppends(t, kind, id, userId, now);
      case DoCancel(id, kind, userId) => CancelAppends(t, kind, id, userId, now);
      case _ => OthersAppend(t, op, now);
    }
  }

  lemma SameAppends(t: Tables, t1: Tables, t': Tables, es: seq<Entry>, now: int)
    requires Appends(t, t1, es, now) && t'.history == t1.history && t'.posts == t1.posts
    ensures Appends(t, t', es, now)
  {
  }

  // ---- Runs ----

  // An entry, and when it was made.
  datatype Dated = Dated(entry: Entry, at: Millis)

  function Dates(es: seq<Entry>, at: Millis): (ds: seq<Dated>)
    ensures |ds| == |es| && forall i :: 0 <= i < |es| ==> ds[i] == Dated(es[i], at)
  {
    seq(|es|, i requires 0 <= i < |es| => Dated(es[i], at))
  }

  // The log of a run: the entries of each call that succeeded.
  function LogOf(calls: seq<Call>): seq<Dated> {
    if calls == [] then [] else
      var n := |calls| - 1;
      var t, c := Run(calls[..n]), calls[n];
      LogOf(calls[..n])
      + if Step(t, c.op, c.now).None? then [] else Dates(Entries(Apply(t, c.op, c.now).posts, c.op), c.now)
  }

  ghost predicate Keeps(t: Tables, log: seq<Dated>) {
    |t.history| == |log| && forall i :: 0 <= i < |log| ==> Says(t.posts, t.history[i], log[i].entry, log[i].at)
  }

  lemma StillSays(t: Tables, t': Tables, log: seq<Dated>, es: seq<Entry>, now: Millis)
    requires Keeps(t, log) && Grows(t, t') && Appends(t, t', es, now)
    ensures Keeps(t', log + Dates(es, now))
  {
    var all := log + Dates(es, now);
    forall i | 0 <= i < |all| ensures Says(t'.posts, t'.history[i], all[i].entry, all[i].at) {
      if i < |log| {
        assert t'.history[i] == t'.history[..|t.history|][i];
        assert Says(t.posts, t.history[i], log[i].entry, log[i].at);
        assert Evolves(t.posts[log[i].entry.postId], t'.posts[log[i].entry.postId]);
      } else {
        assert t'.history[i] == t'.history[|t.history| + (i - |log|)];
      }
    }
  }

  /** After any run the history is the log of its calls, row by row. */
  lemma {:induction false} RunLogs(calls: seq<Call>)
    ensures Keeps(Run(calls), LogOf(calls))
  {
    hide Shape, Grows, Appends, Keeps, Entries, Step, Apply;
    if calls == [] {
      NothingLogged();
    } else {
      var n := |calls| - 1;
      var t, c := Run(calls[..n]), calls[n];
      RunLogs(calls[..n]);
      RunKeepsShape(calls[..n]);
      StepKeepsShape(t, c.op, c.now);
      if Step(t, c.op, c.now).Some? {
        StepAppends(t, c.op, c.now);
        StillSays(t, Apply(t, c.op, c.now), LogOf(calls[..n]), Entries(Apply(t, c.op, c.now).posts, c.op), c.now);
      } else {
        NothingApplied(t, c.op, c.now);
        assert LogOf(calls[..n]) + [] == LogOf(calls[..n]);
      }
    }
  }

  lemma NothingApplied(t: Tables, op: Op, now: Millis)
    requires Step(t, op, now).None?
    ensures Apply(t, op, now) == t
  {
    hide Step;
  }

  lemma NothingLogged()
    ensures Keeps(Run([]), LogOf([]))
  {
  }
}
