/** The archived versions of a post: what revision numbers and revision lookups return after any run. */
module PostRevisions {
  import opened PostTables
  import opened Wrappers
  import opened PostShape

  // ---- Deleted rows are frozen ----

  ghost predicate Frozen(t: Tables, t': Tables) {
    forall y :: y in t.posts && t.posts[y].deleteAt != 0 ==> y in t'.posts && t'.posts[y] == t.posts[y]
  }

  // No row becomes, or stops being, an archived copy, except that `id` may gain the row `a`.
  ghost predicate SameArchives(t: Tables, t': Tables) {
    forall y :: Archived'(t', y) <==> Archived'(t, y)
  }

  predicate Archived'(t: Tables, y: Id) { y in t.posts && Archived(t.posts[y]) }

  lemma CreateFreezes(t: Tables, op: Op, now: Millis)
    requires Step(t, op, now).Some? && (op.DoCreateQuestion? || op.DoCreateAnswer? || op.DoCreateComment?)
    ensures Frozen(t, Apply(t, op, now)) && SameArchives(t, Apply(t, op, now))
  {
    hide FirstPost, LiveChildren, AnswerReviewTags, SystemReview, Award;
  }

  lemma ForceDeleteFreezes(t: Tables, id: Id, now: Millis)
    requires Shape(t) && ForceDelete(t, id, now).Some?
    ensures Frozen(t, ForceDelete(t, id, now).value) && SameArchives(t, ForceDelete(t, id, now).value)
  {
    hide Shape, ForceDelete;
    ForceDeletePosts(t, id, now);
    if t.posts[id].kind.Answer? { ParentLive(t, id, now); }
  }

  lemma ParentLive(t: Tables, id: Id, now: Millis)
    requires ForceDelete(t, id, now).Some? && t.posts[id].kind.Answer?
    ensures Live(t, t.posts[id].parentId)
  {
  }

  lemma VoteFreezes(t: Tables, op: Op, now: Millis)
    requires Step(t, op, now).Some? && (op.DoCast? || op.DoCancel?)
    ensures Frozen(t, Apply(t, op, now)) && SameArchives(t, Apply(t, op, now))
  {
    hide MayVote, Revision, Award, TagsForPost;
  }

  lemma SelectFreezes(t: Tables, op: Op, now: Millis)
    requires Step(t, op, now).Some? && op.DoSelect?
    ensures Frozen(t, Apply(t, op, now)) && SameArchives(t, Apply(t, op, now))
  {
    hide PaySelection;
  }

  lemma TouchFreezes(t: Tables, op: Op, now: Millis)
    requires Step(t, op, now).Some? && (op.DoLock? || op.DoProtect?)
    ensures Frozen(t, Apply(t, op, now)) && SameArchives(t, Apply(t, op, now))
  {
  }

  lemma OtherFreezes(t: Tables, op: Op, now: Millis)
    requires Step(t, op, now).Some?
    requires op.DoReview? || op.DoReject? || op.DoRegister? || op.DoSuspend? || op.DoSetMember?
    ensures Frozen(t, Apply(t, op, now)) && SameArchives(t, Apply(t, op, now))
  {
    hide Revision, RejectedAtRevision;
  }

  // One post written, and the replaced version archived under a new id.
  lemma UpdateArchives(t: Tables, op: Op, now: Millis)
    requires Step(t, op, now).Some? && op.DoUpdate? && op.archiveId !in t.posts && op.postId != NO_ID
    ensures var t' := Apply(t, op, now);
      && Frozen(t, t') && op.archiveId in t'.posts
      && t'.posts[op.archiveId] == ArchivedCopy(t.posts[op.postId], op.postId, now)
      && forall y :: Archived'(t', y) <==> Archived'(t, y) || y == op.archiveId
  {
  }

  /** A deleted row, archived versions included, is never written again. */
  lemma StepFreezes(t: Tables, op: Op, now: Millis)
    requires Shape(t) && (op.DoUpdate? ==> op.archiveId !in t.posts)
    ensures Frozen(t, Apply(t, op, now)) && (!op.DoUpdate? ==> SameArchives(t, Apply(t, op, now)))
  {
    hide Shape, Frozen, SameArchives, CreateQuestion, CreateAnswer, CreateComment, UpdatePost, LockPost, ProtectPost,
         ForceDelete, CloseReviews,
         Deletable, SelectBestAnswer, Cast, Cancel, CreateReview, CompleteReviews, Register, Suspend, SetMember;
    if Step(t, op, now).Some? {
      match op {
        case DoCreateQuestion(_, _, _, _, _, _) => CreateFreezes(t, op, now);
        case DoCreateAnswer(_, _, _, _, _) => CreateFreezes(t, op, now);
        case DoCreateComment(_, _, _, _, _) => CreateFreezes(t, op, now);
        case DoUpdate(id, _, _, _, _, _) => UpdatesLive(t, op, now); NoRowUnnamed(t); UpdateArchives(t, op, now);
        case DoDelete(id) => ForceDeleteFreezes(t, id, now);
        case DoForceDelete(id) => ForceDeleteFreezes(t, id, now);
        case DoComplete(id, actor) => CompleteFreezes(t, op, now);
        case DoCast(_, _, _) => VoteFreezes(t, op, now);
        case DoCancel(_, _, _) => VoteFreezes(t, op, now);
        case DoSelect(_, _) => SelectFreezes(t, op, now);
        case DoLock(_, _) => TouchFreezes(t, op, now);
        case DoProtect(_, _) => TouchFreezes(t, op, now);
        case _ => OtherFreezes(t, op, now);
      }
    } else {
      NothingFreezes(t);
    }
  }

  lemma NothingFreezes(t: Tables)
    ensures Frozen(t, t) && SameArchives(t, t)
  {
  }

  lemma UpdatesLive(t: Tables, op: Op, now: Millis)
    requires Step(t, op, now).Some? && op.DoUpdate?
    ensures op.postId in t.posts && t.posts[op.postId].deleteAt == 0
  {
  }

  lemma CompleteFreezes(t: Tables, op: Op, now: Millis)
    requires Shape(t) && Step(t, op, now).Some? && op.DoComplete?
    ensures Frozen(t, Apply(t, op, now)) && SameArchives(t, Apply(t, op, now))
  {
    hide Shape, ForceDelete, CloseReviews;
    ForceDeleteFreezes(t, op.postId, now);
  }

  // ---- Versions ----

  // An update: the version it replaced, the id of the archived copy, and when.
  datatype Edit = Edit(version: Post, archiveId: Id, at: Millis)

  // The updates a run made to post `id`, oldest first.
  function Edits(calls: seq<Call>, id: Id): seq<Edit> {
    if calls == [] then [] else
      var n := |calls| - 1;
      var t, c := Run(calls[..n]), calls[n];
      if c.op.DoUpdate? && c.op.postId == id && Step(t, c.op, c.now).Some?
      then Edits(calls[..n], id) + [Edit(t.posts[id], c.op.archiveId, c.now)]
      else Edits(calls[..n], id)
  }

  ghost predicate Increasing(calls: seq<Call>) {
    forall i, j :: 0 <= i < j < |calls| ==> calls[i].now < calls[j].now
  }

  // The ids drawn for archived copies are new.
  ghost predicate FreshArchives(calls: seq<Call>) {
    forall i :: 0 <= i < |calls| && calls[i].op.DoUpdate? ==> calls[i].op.archiveId !in Run(calls[..i]).posts
  }

  // The archived rows of `id` are the versions its edits replaced, one row each, in time order.
  ghost predicate Archives(t: Tables, id: Id, edits: seq<Edit>) {
    && (forall k :: 0 <= k < |edits| ==>
          && edits[k].archiveId in t.posts
          && t.posts[edits[k].archiveId] == ArchivedCopy(edits[k].version, id, edits[k].at))
    && (forall i, j :: 0 <= i < j < |edits| ==> edits[i].at < edits[j].at && edits[i].archiveId != edits[j].archiveId)
    && (forall y :: y in Archive(t, id) ==> exists k :: 0 <= k < |edits| && edits[k].archiveId == y)
  }

  lemma ArchivesKept(t: Tables, t': Tables, id: Id, edits: seq<Edit>)
    requires Archives(t, id, edits) && Frozen(t, t') && SameArchives(t, t') && Grows(t, t') && id != NO_ID
    ensures Archives(t', id, edits)
  {
    forall y | y in Archive(t', id) ensures y in Archive(t, id) {
      assert Archived'(t', y) && Archived'(t, y) && Evolves(t.posts[y], t'.posts[y]);
    }
  }

  lemma ArchivesGrow(t: Tables, op: Op, now: Millis, id: Id, edits: seq<Edit>)
    requires Shape(t) && Archives(t, id, edits) && op.DoUpdate? && Step(t, op, now).Some? && op.archiveId !in t.posts
    requires id != NO_ID
    requires forall k :: 0 <= k < |edits| ==> edits[k].at < now
    ensures Archives(Apply(t, op, now), id,
                     if op.postId == id then edits + [Edit(t.posts[id], op.archiveId, now)] else edits)
  {
    hide Shape, UpdatePost;
    UpdatesLive(t, op, now);
    NoRowUnnamed(t);
    UpdateArchives(t, op, now);
    StepKeepsShape(t, op, now);
    var t' := Apply(t, op, now);
    var edits' := if op.postId == id then edits + [Edit(t.posts[id], op.archiveId, now)] else edits;
    forall y | y in Archive(t', id) ensures exists k :: 0 <= k < |edits'| && edits'[k].archiveId == y {
      assert Archived'(t', y);
      if y == op.archiveId {
        assert edits'[|edits|].archiveId == y;
      } else {
        assert Archived'(t, y) && Evolves(t.posts[y], t'.posts[y]);
        assert y in Archive(t, id);
        var k :| 0 <= k < |edits| && edits[k].archiveId == y;
        assert edits'[k].archiveId == y;
      }
    }
  }

  lemma {:induction false} EditsArchived(calls: seq<Call>, id: Id)
    requires Increasing(calls) && FreshArchives(calls) && id != NO_ID
    ensures Archives(Run(calls), id, Edits(calls, id))
    ensures forall k :: 0 <= k < |Edits(calls, id)| ==> calls != [] && Edits(calls, id)[k].at <= calls[|calls| - 1].now
  {
    hide Shape, Archives, Grows, Frozen, SameArchives, Step, Apply;
    if calls == [] {
      NothingArchived(id);
    } else {
      var n := |calls| - 1;
      var t, c := Run(calls[..n]), calls[n];
      assert FreshArchives(calls[..n]) by {
        forall i | 0 <= i < n && calls[..n][i].op.DoUpdate?
          ensures calls[..n][i].op.archiveId !in Run(calls[..n][..i]).posts
        {
          assert calls[..n][..i] == calls[..i];
        }
      }
      EditsArchived(calls[..n], id);
      RunKeepsShape(calls[..n]);
      StepKeepsShape(t, c.op, c.now);
      StepFreezes(t, c.op, c.now);
      if c.op.DoUpdate? && Step(t, c.op, c.now).Some? {
        ArchivesGrow(t, c.op, c.now, id, Edits(calls[..n], id));
      } else {
        if Step(t, c.op, c.now).None? { FailedStep(t, c.op, c.now); }
        ArchivesKept(t, Apply(t, c.op, c.now), id, Edits(calls[..n], id));
      }
    }
  }

  lemma FailedStep(t: Tables, op: Op, now: Millis)
    requires Step(t, op, now).None?
    ensures Apply(t, op, now) == t && SameArchives(t, t)
  {
    hide Step;
  }

  lemma NothingArchived(id: Id)
    ensures Archives(Run([]), id, [])
  {
  }

  // ---- Lookups ----

  // The rows last changed before a time, and up to it.
  function Before(t: Tables, rows: set<Id>, at: int): set<Id>
    requires rows <= t.posts.Keys
  {
    set s | s in rows && t.posts[s].updateAt < at
  }

  function UpTo(t: Tables, rows: set<Id>, at: int): set<Id>
    requires rows <= t.posts.Keys
  {
    set s | s in rows && t.posts[s].updateAt <= at
  }

  // Row r is a possible answer of ORDER BY UpdateAt ASC LIMIT 1 OFFSET offset over the rows.
  predicate SelectedAt(t: Tables, rows: set<Id>, offset: int, r: Id)
    requires rows <= t.posts.Keys
  {
    r in rows && |Before(t, rows, t.posts[r].updateAt)| <= offset < |UpTo(t, rows, t.posts[r].updateAt)|
  }

  function ArchiveIds(edits: seq<Edit>): set<Id> { set e | e in edits :: e.archiveId }

  lemma {:induction false} DistinctIds(edits: seq<Edit>)
    requires forall i, j :: 0 <= i < j < |edits| ==> edits[i].archiveId != edits[j].archiveId
    ensures |ArchiveIds(edits)| == |edits|
  {
    if edits != [] {
      var n := |edits| - 1;
      DistinctIds(edits[..n]);
      assert ArchiveIds(edits) == ArchiveIds(edits[..n]) + {edits[n].archiveId};
    }
  }

  // Of the rows of a post's archive, those of the first n edits are the ones up to a time between.
  lemma FirstRows(t: Tables, id: Id, edits: seq<Edit>, rows: set<Id>, n: int, older: set<Id>)
    requires Archives(t, id, edits) && rows == ArchiveIds(edits) && 0 <= n <= |edits|
    requires forall i :: 0 <= i < |edits| ==> (edits[i].archiveId in older <==> i < n)
    requires older <= rows
    ensures older == ArchiveIds(edits[..n]) && |older| == n
  {
    hide Archives;
    DistinctIdsOf(t, id, edits, n);
    forall s | s in older ensures s in ArchiveIds(edits[..n]) {
      var i :| 0 <= i < |edits| && edits[i].archiveId == s;
      assert edits[..n][i] == edits[i];
    }
    forall s | s in ArchiveIds(edits[..n]) ensures s in older {
      var i :| 0 <= i < n && edits[i].archiveId == s;
    }
  }

  lemma DistinctIdsOf(t: Tables, id: Id, edits: seq<Edit>, n: int)
    requires Archives(t, id, edits) && 0 <= n <= |edits|
    ensures |ArchiveIds(edits[..n])| == n
  {
    DistinctIds(edits[..n]);
  }

  // How many are older than version k.
  lemma OlderRows(t: Tables, id: Id, edits: seq<Edit>, rows: set<Id>, k: int)
    requires Archives(t, id, edits) && rows == ArchiveIds(edits) && 0 <= k < |edits|
    ensures rows <= t.posts.Keys
    ensures |Before(t, rows, edits[k].at)| == k
    ensures |UpTo(t, rows, edits[k].at)| == k + 1
  {
    forall i | 0 <= i < |edits|
      ensures edits[i].archiveId in rows && t.posts[edits[i].archiveId].updateAt == edits[i].at
    {
      assert edits[i] in edits;
    }
    FirstRows(t, id, edits, rows, k, Before(t, rows, edits[k].at));
    FirstRows(t, id, edits, rows, k + 1, UpTo(t, rows, edits[k].at));
  }

  // What the queries see of the archive: all of it for a team post, nothing for a public one.
  lemma RowsAreEdits(t: Tables, id: Id, teamId: Id, edits: seq<Edit>)
    requires Shape(t) && Archives(t, id, edits) && id in t.posts && id != NO_ID && t.posts[id].teamId == teamId
    ensures Rows(t, id, teamId) == if teamId == NO_ID then {} else ArchiveIds(edits)
  {
    forall y | y in Archive(t, id) ensures y in ArchiveIds(edits) && t.posts[y].teamId == teamId {
      var k :| 0 <= k < |edits| && edits[k].archiveId == y;
      assert edits[k] in edits;
      assert PostPlaced(t, y);
    }
    if teamId == NO_ID { assert Rows(t, id, teamId) == {}; }
  }

  // Row r is what offset k selects iff it holds version k.
  lemma LookupFindsVersion(t: Tables, id: Id, edits: seq<Edit>, rows: set<Id>, k: int, r: Id)
    requires Archives(t, id, edits) && rows == ArchiveIds(edits) && 0 <= k
    ensures rows <= t.posts.Keys
    ensures SelectedAt(t, rows, k, r) <==> k < |edits| && r == edits[k].archiveId
  {
    forall i | 0 <= i < |edits| ensures edits[i].archiveId in rows { assert edits[i] in edits; }
    if r in rows {
      var e :| e in edits && e.archiveId == r;
      var i :| 0 <= i < |edits| && edits[i] == e;
      OlderRows(t, id, edits, rows, i);
    }
  }

  // The lookups of a post after a run: its revision number, and the rows the offsets find.
  ghost predicate Finds(calls: seq<Call>, id: Id, k: int, r: Id)
    requires id in Run(calls).posts
  {
    var t := Run(calls);
    SelectedAt(t, Rows(t, id, t.posts[id].teamId), k, r)
  }

  /** With strictly increasing clocks, after n updates of a post offset k finds, for a team post and k
      below n, exactly the version the (k+1)-th update replaced, and otherwise nothing. */
  lemma LookupsOfPost(calls: seq<Call>, id: Id, k: int, r: Id)
    requires Increasing(calls) && FreshArchives(calls) && id in Run(calls).posts && 0 <= k
    ensures var t, edits := Run(calls), Edits(calls, id);
      && (Finds(calls, id, k, r) <==> t.posts[id].teamId != NO_ID && k < |edits| && r == edits[k].archiveId)
      && (k < |edits| ==> edits[k].archiveId in t.posts)
      && (k < |edits| ==> t.posts[edits[k].archiveId] == ArchivedCopy(edits[k].version, id, edits[k].at))
  {
    hide Shape, Run, Edits, SelectedAt, Archive, Rows;
    var t, edits := Run(calls), Edits(calls, id);
    RunKeepsShape(calls);
    NoRowUnnamed(t);
    EditsArchived(calls, id);
    RowsAreEdits(t, id, t.posts[id].teamId, edits);
    if t.posts[id].teamId == NO_ID {
      NothingSelected(t, k, r);
    } else {
      LookupFindsVersion(t, id, edits, Rows(t, id, t.posts[id].teamId), k, r);
    }
  }

  lemma NothingSelected(t: Tables, k: int, r: Id)
    ensures !SelectedAt(t, {}, k, r)
  {
  }

  /** The current revision is one more than the number of updates, as it should be, exactly for team
      posts and for posts never updated: a public post stays at revision 1. And an offset finds a
      version exactly when the post belongs to a team and was updated often enough. */
  lemma RevisionsOfPost(calls: seq<Call>, id: Id, k: int)
    requires Increasing(calls) && FreshArchives(calls) && id in Run(calls).posts && 0 <= k
    ensures var t, edits := Run(calls), Edits(calls, id);
      var team := t.posts[id].teamId;
      && Revision(t, id, team) == (if team == NO_ID then 1 else |edits| + 1)
      && (Revision(t, id, team) == |edits| + 1 <==> team != NO_ID || edits == [])
      && ((exists r :: Finds(calls, id, k, r)) <==> team != NO_ID && k < |edits|)
  {
    hide Shape, Run, Edits, SelectedAt, Archive, Rows, Finds;
    var t, edits := Run(calls), Edits(calls, id);
    RunKeepsShape(calls);
    NoRowUnnamed(t);
    EditsArchived(calls, id);
    RowsAreEdits(t, id, t.posts[id].teamId, edits);
    DistinctIds(edits);
    forall r ensures Finds(calls, id, k, r) <==> t.posts[id].teamId != NO_ID && k < |edits| && r == edits[k].archiveId {
      LookupsOfPost(calls, id, k, r);
    }
    if t.posts[id].teamId != NO_ID && k < |edits| { assert Finds(calls, id, k, edits[k].archiveId); }
  }
}
