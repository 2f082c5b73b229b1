/** The columns of a post row as the calls wrote them: what each operation stores in every column, and, over runs,
    which call a row's text and every archived version come from. */
module PostColumns {
  import opened PostTables
  import opened Wrappers
  import opened PostShape
  import opened PostRevisions

  // ---- What one operation stores ----

  predicate Updates(op: Op, id: Id) { op.DoUpdate? && op.postId == id }

  predicate Deletes(op: Op, id: Id) { (op.DoDelete? || op.DoForceDelete? || op.DoComplete?) && op.postId == id }

  // An update stores its text: the content of any post, and title and tags of a question; tags that are the
  // same words stay in the order they were in.
  ghost predicate StoresText(p: Post, q: Post, op: Op, id: Id) {
    if !Updates(op, id) then q.title == p.title && q.content == p.content && q.tags == p.tags
    else
      && q.content == op.content
      && q.title == (if p.kind.Question? then op.title else p.title)
      && q.tags == (if !p.kind.Question? || (forall w :: w in p.tags <==> w in op.tags) then p.tags else op.tags)
  }

  // EditAt is the time of the last update that changed something.
  predicate StoresEdit(p: Post, q: Post, op: Op, id: Id, now: Millis) {
    var changed := q.title != p.title || q.content != p.content || q.tags != p.tags;
    q.editAt == if Updates(op, id) && changed then now else p.editAt
  }

  predicate StoresMarks(p: Post, q: Post, op: Op, id: Id, now: Millis) {
    && q.lockedAt == (if op.DoLock? && op.postId == id then if op.on then now else 0 else p.lockedAt)
    && q.protectedAt == (if op.DoProtect? && op.postId == id then if op.on then now else 0 else p.protectedAt)
    && q.bestId == (if op.DoSelect? && op.postId == id then op.bestId else p.bestId)
    && q.deleteAt == (if Deletes(op, id) then now else p.deleteAt)
  }

  // Every operation on the post itself, and an answer to it, stamps it.
  predicate StoresTimes(p: Post, q: Post, op: Op, id: Id, now: Millis) {
    var stamped :=
      || ((op.DoUpdate? || op.DoLock? || op.DoProtect?) && op.postId == id)
      || ((op.DoSelect? || op.DoCast? || op.DoCancel?) && op.postId == id)
      || Deletes(op, id) || (op.DoCreateAnswer? && op.parentId == id);
    q.createAt == p.createAt && q.updateAt == if stamped then now else p.updateAt
  }

  ghost predicate Stores(p: Post, q: Post, op: Op, id: Id, now: Millis) {
    && SameIdentity(p, q) && StoresText(p, q, op, id) && StoresEdit(p, q, op, id, now)
    && StoresMarks(p, q, op, id, now) && StoresTimes(p, q, op, id, now)
  }

  ghost predicate AllStored(t: Tables, t': Tables, op: Op, now: Millis) {
    forall id :: id in t.posts ==> id in t'.posts && Stores(t.posts[id], t'.posts[id], op, id, now)
  }

  lemma CreationStores(t: Tables, op: Op, now: Millis)
    requires Step(t, op, now).Some? && (op.DoCreateQuestion? || op.DoCreateAnswer? || op.DoCreateComment?)
    ensures AllStored(t, Apply(t, op, now), op, now)
  {
    hide FirstPost, LiveChildren, AnswerReviewTags, SystemReview, Award;
  }

  lemma UpdateStores(t: Tables, op: Op, now: Millis)
    requires Step(t, op, now).Some? && op.DoUpdate?
    ensures AllStored(t, Apply(t, op, now), op, now)
  {
    hide SameIdentity, Words;
    var p := t.posts[op.postId];
    SameWords(p.tags, op.tags);
    EditStores(p, op, now);
    OthersStore(t, op, now);
  }

  lemma SameWords(a: seq<string>, b: seq<string>)
    ensures Words(a) == Words(b) <==> forall w :: w in a <==> w in b
  {
    if Words(a) == Words(b) {
      forall w ensures w in a <==> w in b { assert w in Words(a) <==> w in Words(b); }
    }
  }

  lemma EditStores(p: Post, op: Op, now: Millis)
    requires op.DoUpdate?
    ensures Stores(p, Edited(p, op.title, op.content, op.tags, now), op, op.postId, now)
  {
    hide Words;
    SameWords(p.tags, op.tags);
  }

  lemma OthersStore(t: Tables, op: Op, now: Millis)
    requires Step(t, op, now).Some? && op.DoUpdate?
    ensures op.postId in t.posts
    ensures forall id :: id in t.posts ==> id in Apply(t, op, now).posts
    ensures Apply(t, op, now).posts[op.postId] == Edited(t.posts[op.postId], op.title, op.content, op.tags, now)
    ensures forall id :: id in t.posts && id != op.postId ==> Apply(t, op, now).posts[id] == t.posts[id]
    ensures forall id :: id in t.posts && id != op.postId ==> Stores(t.posts[id], t.posts[id], op, id, now)
  {
    hide Edited;
  }

  lemma TouchStores(t: Tables, op: Op, now: Millis)
    requires Step(t, op, now).Some? && (op.DoLock? || op.DoProtect?)
    ensures AllStored(t, Apply(t, op, now), op, now)
  {
  }

  lemma SelectStores(t: Tables, op: Op, now: Millis)
    requires Step(t, op, now).Some? && op.DoSelect?
    ensures AllStored(t, Apply(t, op, now), op, now)
  {
    hide PaySelection;
  }

  lemma CastStores(t: Tables, op: Op, now: Millis)
    requires Step(t, op, now).Some? && op.DoCast?
    ensures AllStored(t, Apply(t, op, now), op, now)
  {
    hide MayVote, Revision, Award, TagsForPost;
  }

  lemma CancelStores(t: Tables, op: Op, now: Millis)
    requires Step(t, op, now).Some? && op.DoCancel?
    ensures AllStored(t, Apply(t, op, now), op, now)
  {
    hide MayVote, Award, TagsForPost;
  }

  lemma DeletionStores(t: Tables, op: Op, now: Millis)
    requires Shape(t) && Step(t, op, now).Some? && (op.DoDelete? || op.DoForceDelete? || op.DoComplete?)
    ensures AllStored(t, Apply(t, op, now), op, now)
  {
    hide Shape, ForceDelete, CloseReviews, Deletable;
    ForceDeletePosts(t, op.postId, now);
  }

  lemma NothingStored(t: Tables, op: Op, now: Millis)
    requires Step(t, op, now).Some?
    requires op.DoReview? || op.DoReject? || op.DoRegister? || op.DoSuspend? || op.DoSetMember?
    ensures AllStored(t, Apply(t, op, now), op, now)
  {
    hide Revision, RejectedAtRevision;
  }

  /** What an operation that succeeds stores in every column of every row that was there. */
  lemma StepStores(t: Tables, op: Op, now: Millis)
    requires Shape(t) && Step(t, op, now).Some?
    ensures AllStored(t, Apply(t, op, now), op, now)
  {
    hide Shape, AllStored, CreateQuestion, CreateAnswer, CreateComment, UpdatePost, LockPost, ProtectPost, ForceDelete,
         Deletable, SelectBestAnswer, Cast, Cancel, CreateReview, RejectReviews, CompleteReviews, Register, Suspend,
         SetMember;
    match op {
      case DoCreateQuestion(_, _, _, _, _, _) => CreationStores(t, op, now);
      case DoCreateAnswer(_, _, _, _, _) => CreationStores(t, op, now);
      case DoCreateComment(_, _, _, _, _) => CreationStores(t, op, now);
      case DoUpdate(_, _, _, _, _, _) => UpdateStores(t, op, now);
      case DoLock(_, _) => TouchStores(t, op, now);
      case DoProtect(_, _) => TouchStores(t, op, now);
      case DoSelect(_, _) => SelectStores(t, op, now);
      case DoCast(_, _, _) => CastStores(t, op, now);
      case DoCancel(_, _, _) => CancelStores(t, op, now);
      case DoDelete(_) => DeletionStores(t, op, now);
      case DoForceDelete(_) => DeletionStores(t, op, now);
      case DoComplete(_, _) => DeletionStores(t, op, now);
      case _ => NothingStored(t, op, now);
    }
  }

  // ---- What one operation inserts ----

  // A row with nothing in it but who wrote what, where and when.
  predicate Blank(q: Post, userId: Id, teamId: Id, content: string, now: Millis) {
    && q.userId == userId && q.teamId == teamId && q.content == content && q.originalId == 0 && q.bestId == 0
    && q.upVotes == q.downVotes == q.points == q.answerCount == q.flagCount == 0
    && q.createAt == q.updateAt == now && q.editAt == q.deleteAt == q.lockedAt == q.protectedAt == 0
  }

  predicate Inserted(t: Tables, q: Post, op: Op, id: Id, now: Millis) {
    match op
    case DoCreateQuestion(newId, userId, teamId, title, content, tags) =>
      && id == newId && Blank(q, userId, teamId, content, now) && q.kind.Question? && q.parentId == q.rootId == 0
      && q.title == title && q.tags == tags
    case DoCreateAnswer(newId, userId, teamId, parentId, content) =>
      && id == newId && Blank(q, userId, teamId, content, now) && q.kind.Answer? && q.parentId == q.rootId == parentId
      && q.title == "" && q.tags == []
    case DoCreateComment(newId, userId, teamId, parentId, content) =>
      && id == newId && Blank(q, userId, teamId, content, now) && q.kind.Comment? && q.parentId == parentId
      && parentId in t.posts && q.rootId == (if t.posts[parentId].kind.Question? then parentId
                                             else t.posts[parentId].parentId)
      && q.title == "" && q.tags == []
    case DoUpdate(postId, archiveId, _, _, _, _) =>
      && id == archiveId && postId in t.posts
      && q == t.posts[postId].(originalId := postId, deleteAt := now, updateAt := now)
    case _ => false
  }

  /** The rows an operation adds: the post it creates, or the version it replaces. */
  lemma StepInserts(t: Tables, op: Op, now: Millis)
    requires Shape(t) && Step(t, op, now).Some?
    ensures var t' := Apply(t, op, now);
      && (forall id :: id in t'.posts && id !in t.posts ==> Inserted(t, t'.posts[id], op, id, now))
      && (op.DoCreateQuestion? || op.DoCreateAnswer? || op.DoCreateComment? ==> op.id in t'.posts && op.id !in t.posts)
      && (op.DoUpdate? ==> op.archiveId in t'.posts)
  {
    hide Shape, FirstPost, LiveChildren, AnswerReviewTags, SystemReview, Award, Edited, ForceDelete, Deletable,
         SelectBestAnswer, Cast, Cancel, CreateReview, RejectReviews, CompleteReviews, Blank;
    BlankPost();
    match op {
      case DoDelete(_) => NoneInserted(t, op, now);
      case DoForceDelete(_) => NoneInserted(t, op, now);
      case DoComplete(_, _) => NoneInserted(t, op, now);
      case DoSelect(_, _) => NoneInserted(t, op, now);
      case DoCast(_, _, _) => NoneInserted(t, op, now);
      case DoCancel(_, _, _) => NoneInserted(t, op, now);
      case DoReview(_, _, _) => NoneInserted(t, op, now);
      case DoReject(_, _) => NoneInserted(t, op, now);
      case _ =>
    }
  }

  lemma BlankPost()
    ensures forall kind: PostKind, root: Id, parent: Id, u: Id, team: Id, title: string, content: string,
      tags: seq<string>, now: Millis :: Blank(NewPost(kind, root, parent, u, team, title, content, tags, now), u, team,
                                              content, now)
  {
  }

  lemma NoneInserted(t: Tables, op: Op, now: Millis)
    requires Shape(t) && Step(t, op, now).Some?
    requires op.DoDelete? || op.DoForceDelete? || op.DoComplete? || op.DoSelect? || op.DoCast? || op.DoCancel?
          || op.DoReview? || op.DoReject?
    ensures Apply(t, op, now).posts.Keys == t.posts.Keys
  {
    hide Shape, ForceDelete, CloseReviews, Deletable, PaySelection, MayVote, Revision, Award, TagsForPost,
         RejectedAtRevision;
    if op.DoDelete? || op.DoForceDelete? || op.DoComplete? { ForceDeletePosts(t, op.postId, now); }
  }

  // ---- Runs: where a text comes from ----

  datatype Text = Text(title: string, content: string, tags: seq<string>)

  function TextOf(p: Post): Text { Text(p.title, p.content, p.tags) }

  // What an update asks for, over the text that was there.
  ghost function Given(op: Op, was: Text): Text
    requires op.DoUpdate?
  {
    if !op.kind.Question? then was.(content := op.content)
    else Text(op.title, op.content, if forall w :: w in was.tags <==> w in op.tags then was.tags else op.tags)
  }

  // The texts written to post `id` by the calls of a run that succeeded: the first one, and one for each update.
  ghost function Wrote(calls: seq<Call>, id: Id): seq<Text> {
    if calls == [] then [] else
      var n := |calls| - 1;
      var c, before := calls[n], Wrote(calls[..n], id);
      if Step(Run(calls[..n]), c.op, c.now).None? then before else
        match c.op
        case DoCreateQuestion(newId, _, _, title, content, tags) =>
          if newId == id then [Text(title, content, tags)] else before
        case DoCreateAnswer(newId, _, _, _, content) => if newId == id then [Text("", content, [])] else before
        case DoCreateComment(newId, _, _, _, content) => if newId == id then [Text("", content, [])] else before
        case DoUpdate(postId, _, _, _, _, _) =>
          if postId == id && before != [] then before + [Given(c.op, before[|before| - 1])] else before
        case _ => before
  }

  // The versions replaced, and the row itself, are the texts written, in order.
  ghost predicate Tells(t: Tables, id: Id, edits: seq<Edit>, texts: seq<Text>) {
    && id in t.posts && |texts| == |edits| + 1 && TextOf(t.posts[id]) == texts[|edits|]
    && forall k :: 0 <= k < |edits| ==> TextOf(edits[k].version) == texts[k]
  }

  lemma {:induction false} NotYetEdited(calls: seq<Call>, id: Id)
    requires id !in Run(calls).posts
    ensures Edits(calls, id) == []
  {
    hide Shape, Step, Apply;
    if calls != [] {
      var n := |calls| - 1;
      var t, c := Run(calls[..n]), calls[n];
      RunKeepsShape(calls[..n]);
      StepKeepsShape(t, c.op, c.now);
      NotYetEdited(calls[..n], id);
      if c.op.DoUpdate? && Step(t, c.op, c.now).Some? { UpdatesLive(t, c.op, c.now); }
    }
  }

  lemma OldRowTells(t: Tables, op: Op, now: Millis, id: Id, edits: seq<Edit>, texts: seq<Text>)
    requires Tells(t, id, edits, texts) && id in Apply(t, op, now).posts && Step(t, op, now).Some?
    requires Stores(t.posts[id], Apply(t, op, now).posts[id], op, id, now)
    ensures !Updates(op, id) ==> Tells(Apply(t, op, now), id, edits, texts)
    ensures Updates(op, id) && op.kind == t.posts[id].kind ==>
      Tells(Apply(t, op, now), id, edits + [Edit(t.posts[id], op.archiveId, now)], texts + [Given(op, texts[|edits|])])
  {
    hide Step, Apply, StoresEdit, StoresMarks, StoresTimes, SameIdentity;
  }

  lemma UpdatesItsKind(t: Tables, op: Op, now: Millis)
    requires Step(t, op, now).Some? && op.DoUpdate?
    ensures op.postId in t.posts && op.kind == t.posts[op.postId].kind
  {
  }

  lemma NewRowTells(t: Tables, t': Tables, op: Op, now: Millis, id: Id)
    requires Shape(t) && id in t'.posts && !Archived(t'.posts[id]) && Inserted(t, t'.posts[id], op, id, now)
    ensures !op.DoUpdate?
    ensures op.DoCreateQuestion? ==> id == op.id && Tells(t', id, [], [Text(op.title, op.content, op.tags)])
    ensures op.DoCreateAnswer? || op.DoCreateComment? ==> id == op.id && Tells(t', id, [], [Text("", op.content, [])])
    ensures op.DoCreateQuestion? || op.DoCreateAnswer? || op.DoCreateComment?
  {
    hide Shape;
    NoRowUnnamed(t);
  }

  /** After any run a post shows the text that was written last, and each version that an update replaced is
      the one written before it, back to the text it was created with. */
  lemma {:induction false} RunTells(calls: seq<Call>, id: Id)
    requires id in Run(calls).posts && !Archived(Run(calls).posts[id])
    ensures Tells(Run(calls), id, Edits(calls, id), Wrote(calls, id))
  {
    hide Shape, Step, Apply, Tells, Stores, Inserted, Given;
    if calls != [] {
      var n := |calls| - 1;
      var t, c := Run(calls[..n]), calls[n];
      RunKeepsShape(calls[..n]);
      StepKeepsShape(t, c.op, c.now);
      if Step(t, c.op, c.now).None? {
        FailedStep(t, c.op, c.now);
        RunTells(calls[..n], id);
      } else if id in t.posts {
        assert Evolves(t.posts[id], Run(calls).posts[id]);
        RunTells(calls[..n], id);
        StepStores(t, c.op, c.now);
        OldRowTells(t, c.op, c.now, id, Edits(calls[..n], id), Wrote(calls[..n], id));
        if Updates(c.op, id) { UpdatesItsKind(t, c.op, c.now); }
        NothingCreated(t, c.op, c.now, id);
        TellsSome(t, id, Edits(calls[..n], id), Wrote(calls[..n], id));
      } else {
        NotYetEdited(calls[..n], id);
        StepInserts(t, c.op, c.now);
        NewRowTells(t, Run(calls), c.op, c.now, id);
      }
    } else {
      NoPosts(id);
    }
  }

  lemma NoPosts(id: Id)
    ensures id !in Run([]).posts
  {
  }

  lemma TellsSome(t: Tables, id: Id, edits: seq<Edit>, texts: seq<Text>)
    requires Tells(t, id, edits, texts)
    ensures |texts| == |edits| + 1
  {
  }

  lemma NothingCreated(t: Tables, op: Op, now: Millis, id: Id)
    requires Shape(t) && Step(t, op, now).Some? && id in t.posts
    ensures op.DoCreateQuestion? || op.DoCreateAnswer? || op.DoCreateComment? ==> op.id != id
  {
    hide Step, Apply;
    StepInserts(t, op, now);
  }

  /** A lookup by offset in a team post shows the text written in its turn. */
  lemma LookupShowsText(calls: seq<Call>, id: Id, k: int, r: Id)
    requires Increasing(calls) && FreshArchives(calls) && id in Run(calls).posts && !Archived(Run(calls).posts[id])
    requires 0 <= k && Finds(calls, id, k, r)
    ensures k < |Wrote(calls, id)| - 1 && r in Run(calls).posts && TextOf(Run(calls).posts[r]) == Wrote(calls, id)[k]
  {
    hide Finds, Run, Edits, Wrote;
    RunTells(calls, id);
    LookupsOfPost(calls, id, k, r);
  }
}
