/** The points of a user, and their point history, as closed forms over the live tables. */
module PostLedger {
  import opened Sums
  import opened PostTables
  import opened Wrappers
  import opened PostShape
  import opened PostCounters

  // ---- The closed forms ----

  predicate Public(p: Post) { p.teamId == NO_ID }

  // Two ways to look at points: those that users hold, and the history rows filed under a team, or under none.
  datatype View = Held | Filed(team: Id)

  // Whether points for what concerns a post alone count in a view.
  predicate Shows(v: View, p: Post) {
    match v
    case Held => Public(p)
    case Filed(team) => p.teamId == team
  }

  // The answerer of a best answer is paid when the question is public, in a row filed under the answer.
  predicate ShowsAnswer(v: View, q: Post, a: Post) {
    match v
    case Held => Public(q)
    case Filed(team) => a.teamId == team
  }

  // What choosing answer `a` of question `q` brings user u: 3 to the asker and 10 to the answerer, unless
  // they are the same user.
  function BestPoints(q: Post, a: Post, u: Id, v: View): int {
    if q.userId == a.userId then 0 else
      (if Shows(v, q) && q.userId == u then 3 else 0) + (if ShowsAnswer(v, q, a) && a.userId == u then 10 else 0)
  }

  function BestPart(posts: map<Id, Post>, q: Post, u: Id, v: View): int {
    if q.bestId !in posts then 0 else BestPoints(q, posts[q.bestId], u, v)
  }

  // What one row brings user u: 3 for a live question, 3 for an answer written on another user's
  // question, minus 3 for a deleted answer, and the best-answer points.
  function PostPart(posts: map<Id, Post>, id: Id, u: Id, v: View): int {
    if id !in posts || Archived(posts[id]) then 0 else
      var p := posts[id];
      match p.kind
      case Comment => 0
      case Question =>
        (if Shows(v, p) && p.userId == u && p.deleteAt == 0 then 3 else 0) + BestPart(posts, p, u, v)
      case Answer =>
        if !Shows(v, p) || p.userId != u then 0 else
          (if p.parentId in posts && posts[p.parentId].userId != u then 3 else 0) - (if p.deleteAt != 0 then 3 else 0)
  }

  // What a vote is worth to the author it is cast on; own votes bring nothing, own flags cost.
  function Worth(k: VoteKey, author: Id): int {
    match k.kind
    case UpVote => if k.userId != author then 5 else 0
    case DownVote => if k.userId != author then -3 else 0
    case Flag => -2
    case _ => 0
  }

  function VotePart(posts: map<Id, Post>, k: VoteKey, u: Id, v: View): int {
    if k.postId in posts && Shows(v, posts[k.postId]) && posts[k.postId].userId == u then Worth(k, u) else 0
  }

  ghost function PostParts(posts: map<Id, Post>, u: Id, v: View): Id -> int { (id: Id) => PostPart(posts, id, u, v) }

  ghost function VoteParts(posts: map<Id, Post>, u: Id, v: View): VoteKey -> int {
    (k: VoteKey) => VotePart(posts, k, u, v)
  }

  ghost function PostSum(posts: map<Id, Post>, u: Id, v: View): int { Sum(posts.Keys, PostParts(posts, u, v)) }

  ghost function VoteSum(posts: map<Id, Post>, keys: set<VoteKey>, u: Id, v: View): int {
    Sum(keys, VoteParts(posts, u, v))
  }

  ghost function Closed(t: Tables, u: Id, v: View): int {
    PostSum(t.posts, u, v) + VoteSum(t.posts, t.votes.Keys, u, v)
  }

  // The history rows of u in a team, or the public ones.
  function HistorySum(h: seq<HistoryRow>, team: Id, u: Id): int {
    if h == [] then 0 else HistorySum(h[..|h| - 1], team, u) + RowPart(h[|h| - 1], team, u)
  }

  function RowPart(r: HistoryRow, team: Id, u: Id): int { if r.teamId == team && r.userId == u then r.points else 0 }

  // What a view shows of the tables that keep points.
  function Amount(t: Tables, u: Id, v: View): int {
    match v
    case Held => PointsOf(t, u)
    case Filed(team) => HistorySum(t.history, team, u)
  }

  ghost predicate Balanced(t: Tables) { forall u, v :: Amount(t, u, v) == Closed(t, u, v) }

  // ---- How the sums move ----

  lemma HistoryAppend(h: seq<HistoryRow>, r: HistoryRow, team: Id, u: Id)
    ensures HistorySum(h + [r], team, u) == HistorySum(h, team, u) + RowPart(r, team, u)
  {
    assert (h + [r])[..|h|] == h;
  }

  ghost predicate Writes(posts: map<Id, Post>, posts': map<Id, Post>, id: Id, q: Post) {
    id != NO_ID && posts' == posts[id := q] && (id in posts ==> SameIdentity(posts[id], q))
  }

  // Writing one row changes only that row's part.
  lemma OtherPartsKept(t: Tables, posts': map<Id, Post>, id: Id, q: Post, y: Id, u: Id, v: View)
    requires Shape(t) && Writes(t.posts, posts', id, q) && y in t.posts && y != id
    ensures PostPart(posts', y, u, v) == PostPart(t.posts, y, u, v)
  {
    assert PostPlaced(t, y);
  }

  lemma PostSumAfterWrite(t: Tables, posts': map<Id, Post>, id: Id, q: Post, u: Id, v: View)
    requires Shape(t) && Writes(t.posts, posts', id, q)
    ensures PostSum(posts', u, v) == PostSum(t.posts, u, v) - PostPart(t.posts, id, u, v) + PostPart(posts', id, u, v)
  {
    hide Shape;
    var f, g := PostParts(t.posts, u, v), PostParts(posts', u, v);
    forall y | y in t.posts && y != id ensures f(y) == g(y) { OtherPartsKept(t, posts', id, q, y, u, v); }
    if id in t.posts {
      assert posts'.Keys == t.posts.Keys;
      SumChange(t.posts.Keys, f, g, id);
    } else {
      assert posts'.Keys == t.posts.Keys + {id};
      SumInsert(t.posts.Keys, f, g, id);
    }
  }

  lemma VoteSumAfterWrite(t: Tables, posts': map<Id, Post>, id: Id, q: Post, u: Id, v: View)
    requires Shape(t) && Writes(t.posts, posts', id, q)
    ensures VoteSum(posts', t.votes.Keys, u, v) == VoteSum(t.posts, t.votes.Keys, u, v)
  {
    var f, g := VoteParts(t.posts, u, v), VoteParts(posts', u, v);
    forall k | k in t.votes.Keys ensures f(k) == g(k) { assert VotePlaced(t, k); }
    SumSame(t.votes.Keys, f, g);
  }

  lemma ClosedAfterWrite(t: Tables, id: Id, q: Post, u: Id, v: View)
    requires Shape(t) && id != NO_ID && (id in t.posts ==> SameIdentity(t.posts[id], q))
    ensures Closed(PutPost(t, id, q), u, v)
         == Closed(t, u, v) - PostPart(t.posts, id, u, v) + PostPart(PutPost(t, id, q).posts, id, u, v)
  {
    hide Shape;
    PostSumAfterWrite(t, PutPost(t, id, q).posts, id, q, u, v);
    VoteSumAfterWrite(t, PutPost(t, id, q).posts, id, q, u, v);
  }

  // A vote inserted (n = 1) or deleted (n = -1).
  lemma VoteSumAfterVote(posts: map<Id, Post>, keys: set<VoteKey>, keys': set<VoteKey>, key: VoteKey, n: int, u: Id,
                         v: View)
    requires BallotDelta(keys, keys', key, n)
    ensures VoteSum(posts, keys', u, v) == VoteSum(posts, keys, u, v) + n * VotePart(posts, key, u, v)
  {
    var f := VoteParts(posts, u, v);
    if n == 1 { SumInsert(keys, f, f, key); } else { SumRemove(keys, f, key); }
  }

  // The closed form looks at the posts and at the keys of the votes.
  lemma SameClosed(t: Tables, t': Tables, u: Id, v: View)
    requires t'.posts == t.posts && t'.votes.Keys == t.votes.Keys
    ensures Closed(t', u, v) == Closed(t, u, v)
  {
  }

  // What a view shows of u, and its closed form, move by d.
  ghost predicate Moves(t: Tables, t': Tables, u: Id, v: View, d: int) {
    Amount(t', u, v) == Amount(t, u, v) + d && Closed(t', u, v) == Closed(t, u, v) + d
  }

  // An award to the author of row `id` moves points and history alike, and no closed form.
  lemma AwardMoves(t: Tables, id: Id, kind: PointKind, tags: seq<string>, delta: int, now: int, u: Id, v: View)
    requires id in t.posts && t.posts[id].userId in t.users
    ensures var t' := Award(t, id, kind, tags, delta, now);
      && Amount(t', u, v) == Amount(t, u, v) + (if Shows(v, t.posts[id]) && u == t.posts[id].userId then delta else 0)
      && Closed(t', u, v) == Closed(t, u, v)
  {
    hide Closed;
    var p := t.posts[id];
    SameClosed(t, Award(t, id, kind, tags, delta, now), u, v);
    if v.Filed? {
      HistoryAppend(t.history, HistoryRow(p.teamId, p.userId, kind, id, p.kind, tags, delta, now), v.team, u);
    }
  }

  lemma SystemReviewMoves(t: Tables, t1: Tables, id: Id, teamId: Id, tags: seq<string>, now: int, u: Id, v: View,
                          d: int)
    requires Moves(t, t1, u, v, d)
    ensures Moves(t, SystemReview(t1, id, teamId, tags, now), u, v, d)
  {
    var t' := SystemReview(t1, id, teamId, tags, now);
    var key := VoteKey(NO_ID, System, id);
    if t' != t1 { VoteSumAfterVote(t1.posts, t1.votes.Keys, t'.votes.Keys, key, 1, u, v); }
  }

  // Writing row `id` changes the closed form as it changes the row's own part.
  lemma WriteCloses(t: Tables, id: Id, q: Post, u: Id, v: View, d: int)
    requires Shape(t) && id != NO_ID && (id in t.posts ==> SameIdentity(t.posts[id], q))
    requires PostPart(t.posts[id := q], id, u, v) == PostPart(t.posts, id, u, v) + d
    ensures Closed(PutPost(t, id, q), u, v) == Closed(t, u, v) + d
  {
    hide Shape;
    ClosedAfterWrite(t, id, q, u, v);
  }

  // Other columns rewritten: nothing moves.
  predicate SameWorth(p: Post, q: Post) {
    SameIdentity(p, q) && p.bestId == q.bestId && (p.deleteAt == 0 <==> q.deleteAt == 0)
  }

  lemma TouchMoves(t: Tables, id: Id, q: Post, u: Id, v: View)
    requires Shape(t) && id in t.posts && SameWorth(t.posts[id], q)
    ensures Moves(t, PutPost(t, id, q), u, v, 0)
  {
    hide Shape;
    NoRowUnnamed(t);
    WriteCloses(t, id, q, u, v, 0);
  }

  // ---- The operations, for one user and one view ----

  lemma CreateQuestionMoves(t: Tables, id: RowId, userId: Id, teamId: Id, title: string, content: string,
                            tags: seq<string>, now: Millis, u: Id, v: View) returns (d: int)
    requires Shape(t) && CreateQuestion(t, id, userId, teamId, title, content, tags, now).Some?
    ensures d == if u == userId && (if v.Held? then teamId == NO_ID else teamId == v.team) then 3 else 0
    ensures Moves(t, CreateQuestion(t, id, userId, teamId, title, content, tags, now).value, u, v, d)
  {
    hide Shape, FirstPost;
    var q := NewPost(Question, NO_ID, NO_ID, userId, teamId, title, content, tags, now);
    var t1 := PutPost(t, id, q);
    var t2 := Award(t1, id, CreateQuestionPoint, tags, POINT_FOR_CREATE_QUESTION, now);
    d := if u == userId && Shows(v, q) then 3 else 0;
    NewQuestionPart(t, id, q, u, v);
    WriteCloses(t, id, q, u, v, d);
    AwardMoves(t1, id, CreateQuestionPoint, tags, POINT_FOR_CREATE_QUESTION, now, u, v);
    SystemReviewMoves(t, t2, id, teamId, if FirstPost(t2, userId, teamId) then [FIRST_POSTS] else [], now, u, v, d);
  }

  lemma NewQuestionPart(t: Tables, id: RowId, q: Post, u: Id, v: View)
    requires Shape(t) && id !in t.posts && q.kind.Question? && q.bestId == NO_ID && !Archived(q) && q.deleteAt == 0
    ensures PostPart(t.posts[id := q], id, u, v) == if Shows(v, q) && u == q.userId then 3 else 0
    ensures PostPart(t.posts, id, u, v) == 0
  {
    NoRowUnnamed(t);
  }

  lemma InsertAnswerMoves(t: Tables, id: RowId, userId: Id, teamId: Id, parentId: Id, content: string, now: Millis,
                          u: Id, v: View)
    requires Shape(t) && userId in t.users && id !in t.posts && Live(t, parentId) && t.posts[parentId].kind.Question?
    ensures var t' := InsertAnswer(t, id, userId, teamId, parentId, content, now);
      && t' == t.(posts := t'.posts) && id in t'.posts && t'.posts[id].userId == userId && t'.posts[id].teamId == teamId
      && var d := if Shows(v, t'.posts[id]) && u == userId && t.posts[parentId].userId != u then 3 else 0;
      Closed(t', u, v) == Closed(t, u, v) + d
  {
    hide Shape, Closed, PostPart, PostPlaced, PointsOf, HistorySum;
    LivePlaced(t, parentId);
    var a := NewPost(Answer, parentId, parentId, userId, teamId, "", content, [], now);
    NewAnswerPart(t, id, a, u, v);
    WriteCloses(t, id, a, u, v, if Shows(v, a) && u == userId && t.posts[parentId].userId != u then 3 else 0);
    AnswerRowKeepsShape(t, id, a);
    var q := t.posts[parentId].(answerCount := t.posts[parentId].answerCount + 1, updateAt := now);
    TouchMoves(PutPost(t, id, a), parentId, q, u, v);
    assert InsertAnswer(t, id, userId, teamId, parentId, content, now) == PutPost(PutPost(t, id, a), parentId, q);
  }

  lemma NewAnswerPart(t: Tables, id: RowId, a: Post, u: Id, v: View)
    requires id !in t.posts && a.kind.Answer? && a.parentId in t.posts && !Archived(a) && a.deleteAt == 0
    ensures var others := t.posts[a.parentId].userId != u;
      PostPart(t.posts[id := a], id, u, v) == if Shows(v, a) && u == a.userId && others then 3 else 0
    ensures PostPart(t.posts, id, u, v) == 0
  {
  }

  lemma CreateAnswerMoves(t: Tables, id: RowId, userId: Id, teamId: Id, parentId: Id, content: string, now: Millis,
                          u: Id, v: View) returns (d: int)
    requires Shape(t) && CreateAnswer(t, id, userId, teamId, parentId, content, now).Some?
    ensures var counts := if v.Held? then teamId == NO_ID else teamId == v.team;
      d == if counts && u == userId && t.posts[parentId].userId != u then 3 else 0
    ensures Moves(t, CreateAnswer(t, id, userId, teamId, parentId, content, now).value, u, v, d)
  {
    hide Shape, Closed, FirstPost, HistorySum;
    var parent := t.posts[parentId];
    var t1 := InsertAnswer(t, id, userId, teamId, parentId, content, now);
    InsertAnswerMoves(t, id, userId, teamId, parentId, content, now, u, v);
    d := if Shows(v, t1.posts[id]) && u == userId && parent.userId != u then 3 else 0;
    var t2 := t1;
    if userId != parent.userId {
      t2 := Award(t1, id, CreateAnswerPoint, parent.tags, POINT_FOR_CREATE_ANSWER, now);
      AwardMoves(t1, id, CreateAnswerPoint, parent.tags, POINT_FOR_CREATE_ANSWER, now, u, v);
    }
    assert Moves(t, t2, u, v, d);
    SystemReviewMoves(t, t2, id, teamId, AnswerReviewTags(t2, userId, teamId, parent, now), now, u, v, d);
  }

  lemma CreateCommentMoves(t: Tables, id: RowId, userId: Id, teamId: Id, parentId: Id, content: string, now: Millis,
                           u: Id, v: View)
    requires Shape(t) && CreateComment(t, id, userId, teamId, parentId, content, now).Some?
    ensures Moves(t, CreateComment(t, id, userId, teamId, parentId, content, now).value, u, v, 0)
  {
    hide Shape, FirstPost, LiveChildren;
    var parent := t.posts[parentId];
    var rootId := if parent.kind.Question? then parentId else parent.parentId;
    var c := NewPost(Comment, rootId, parentId, userId, teamId, "", content, [], now);
    var t1 := PutPost(t, id, c);
    WriteCloses(t, id, c, u, v, 0);
    SystemReviewMoves(t, t1, id, teamId, if FirstPost(t1, userId, teamId) then [FIRST_POSTS] else [], now, u, v, 0);
  }

  lemma UpdateMoves(t: Tables, id: Id, archiveId: RowId, kind: PostKind, title: string, content: string,
                    tags: seq<string>, now: Millis, u: Id, v: View)
    requires Shape(t) && UpdatePost(t, id, archiveId, kind, title, content, tags, now).Some?
    ensures Moves(t, UpdatePost(t, id, archiveId, kind, title, content, tags, now).value, u, v, 0)
  {
    hide Shape;
    var q := Edited(t.posts[id], title, content, tags, now);
    LivePlaced(t, id);
    TouchMoves(t, id, q, u, v);
    TouchKeepsShape(t, id, q);
    if archiveId !in t.posts {
      WriteCloses(PutPost(t, id, q), archiveId, ArchivedCopy(t.posts[id], id, now), u, v, 0);
    }
  }

  // A row marked deleted takes its 3 points back, whether or not they were ever granted.
  lemma MarkDeletedCloses(t: Tables, id: Id, now: Millis, u: Id, v: View)
    requires Shape(t) && Live(t, id)
    ensures var d := if Shows(v, t.posts[id]) && u == t.posts[id].userId && !t.posts[id].kind.Comment? then -3 else 0;
            Closed(MarkDeleted(t, id, now), u, v) == Closed(t, u, v) + d
  {
    hide Shape;
    LivePlaced(t, id);
    var d := if Shows(v, t.posts[id]) && u == t.posts[id].userId && !t.posts[id].kind.Comment? then -3 else 0;
    WriteCloses(t, id, t.posts[id].(deleteAt := now, updateAt := now), u, v, d);
  }

  lemma DeleteQuestionMoves(t: Tables, id: Id, now: Millis, u: Id, v: View) returns (d: int)
    requires Shape(t) && DeleteQuestion(t, id, now).Some? && t.posts[id].kind.Question?
    ensures d == if Shows(v, t.posts[id]) && u == t.posts[id].userId then -3 else 0
    ensures Moves(t, DeleteQuestion(t, id, now).value, u, v, d)
  {
    hide Shape, Invalidate, Closed;
    LivePlaced(t, id);
    var t1 := MarkDeleted(t, id, now);
    MarkDeletedCloses(t, id, now, u, v);
    var t2 := Invalidate(t1, id, now);
    SameClosed(t1, t2, u, v);
    AwardMoves(t2, id, DeleteQuestionPoint, t.posts[id].tags, -POINT_FOR_CREATE_QUESTION, now, u, v);
    d := if Shows(v, t.posts[id]) && u == t.posts[id].userId then -3 else 0;
  }

  lemma DeleteAnswerMoves(t: Tables, id: Id, now: Millis, u: Id, v: View) returns (d: int)
    requires Shape(t) && DeleteAnswer(t, id, now).Some? && t.posts[id].kind.Answer?
    ensures d == if Shows(v, t.posts[id]) && u == t.posts[id].userId then -3 else 0
    ensures Moves(t, DeleteAnswer(t, id, now).value, u, v, d)
  {
    hide Shape, Invalidate, Closed;
    LivePlaced(t, id);
    var parentId := t.posts[id].parentId;
    var t1 := MarkDeleted(t, id, now);
    MarkDeletedCloses(t, id, now, u, v);
    TouchKeepsShape(t, id, t1.posts[id]);
    var t2 := DropAnswer(t1, parentId);
    TouchMoves(t1, parentId, t2.posts[parentId], u, v);
    var t3 := Invalidate(t2, id, now);
    SameClosed(t2, t3, u, v);
    AwardMoves(t3, id, DeleteAnswerPoint, t.posts[parentId].tags, -POINT_FOR_CREATE_ANSWER, now, u, v);
    d := if Shows(v, t.posts[id]) && u == t.posts[id].userId then -3 else 0;
  }

  lemma ForceDeleteMoves(t: Tables, id: Id, now: Millis, u: Id, v: View) returns (d: int)
    requires Shape(t) && ForceDelete(t, id, now).Some?
    ensures d == if Shows(v, t.posts[id]) && u == t.posts[id].userId && !t.posts[id].kind.Comment? then -3 else 0
    ensures Moves(t, ForceDelete(t, id, now).value, u, v, d)
  {
    hide Shape, Invalidate, Closed, DeleteQuestion, DeleteAnswer;
    match t.posts[id].kind {
      case Question => d := DeleteQuestionMoves(t, id, now, u, v);
      case Answer => d := DeleteAnswerMoves(t, id, now, u, v);
      case Comment =>
        d := 0;
        MarkDeletedCloses(t, id, now, u, v);
        SameClosed(MarkDeleted(t, id, now), Invalidate(MarkDeleted(t, id, now), id, now), u, v);
    }
  }

  lemma SelectCloses(t: Tables, id: Id, bestId: Id, now: Millis, u: Id, v: View)
    requires Shape(t) && SelectBestAnswer(t, id, bestId, now).Some?
    ensures var t1 := PutPost(t, id, t.posts[id].(bestId := bestId, updateAt := now));
            Closed(t1, u, v) == Closed(t, u, v) + BestPoints(t.posts[id], t.posts[bestId], u, v)
  {
    hide Shape;
    var q, a := t.posts[id], t.posts[bestId];
    LivePlaced(t, id);
    LivePlaced(t, bestId);
    NoRowUnnamed(t);
    WriteCloses(t, id, q.(bestId := bestId, updateAt := now), u, v, BestPoints(q, a, u, v));
  }

  // The two rows a selection appends, each filed under its own post's team: 3 points and 10.
  ghost predicate SelectionLogged(t: Tables, t': Tables, q: Post, a: Post) {
    && |t'.history| == |t.history| + 2 && t'.history[..|t.history|] == t.history
    && var r1, r2 := t'.history[|t.history|], t'.history[|t.history| + 1];
    && r1.teamId == q.teamId && r1.userId == q.userId && r1.kind == SelectAnswerPoint && r1.points == 3
    && r2.teamId == a.teamId && r2.userId == a.userId && r2.kind == SelectedAnswerPoint && r2.points == 10
  }

  lemma SelectionRows(t: Tables, id: Id, bestId: Id, now: Millis)
    requires SelectBestAnswer(t, id, bestId, now).Some? && t.posts[id].userId != t.posts[bestId].userId
    ensures SelectionLogged(t, SelectBestAnswer(t, id, bestId, now).value, t.posts[id], t.posts[bestId])
  {
  }

  lemma LoggedSum(t: Tables, t': Tables, q: Post, a: Post, team: Id, u: Id)
    requires SelectionLogged(t, t', q, a) && q.userId != a.userId
    ensures HistorySum(t'.history, team, u) == HistorySum(t.history, team, u) + BestPoints(q, a, u, Filed(team))
  {
    var r1, r2 := t'.history[|t.history|], t'.history[|t.history| + 1];
    HistoryAppend(t.history, r1, team, u);
    HistoryAppend(t.history + [r1], r2, team, u);
    assert t'.history == t.history + [r1] + [r2];
  }

  lemma SelectMoves(t: Tables, id: Id, bestId: Id, now: Millis, u: Id, v: View)
    requires Shape(t) && SelectBestAnswer(t, id, bestId, now).Some?
    ensures Moves(t, SelectBestAnswer(t, id, bestId, now).value, u, v,
                  BestPoints(t.posts[id], t.posts[bestId], u, v))
  {
    hide Shape, Closed, PaySelection, HistorySum;
    var q, a := t.posts[id], t.posts[bestId];
    LivePlaced(t, id);
    LivePlaced(t, bestId);
    SelectCloses(t, id, bestId, now, u, v);
    var t1 := PutPost(t, id, q.(bestId := bestId, updateAt := now));
    SameClosed(t1, SelectBestAnswer(t, id, bestId, now).value, u, v);
    if q.userId != a.userId {
      SelectionRows(t, id, bestId, now);
      match v {
        case Filed(team) => LoggedSum(t, SelectBestAnswer(t, id, bestId, now).value, q, a, team, u);
        case Held => assert PointsOf(PaySelection(t1, q, a), u) == PointsOf(t1, u) + BestPoints(q, a, u, Held);
      }
    }
  }

  // A ballot written or deleted, with its counter, moves the closed forms by what the vote is worth.
  lemma BallotCloses(t: Tables, t1: Tables, key: VoteKey, n: int, now: int, u: Id, v: View)
    requires Shape(t) && Live(t, key.postId) && Ballot(key.kind) && BallotDelta(t.votes.Keys, t1.votes.Keys, key, n)
    requires t1.posts == t.posts[key.postId := Counted(t.posts[key.postId], key.kind, n, now)]
    ensures Closed(t1, u, v) == Closed(t, u, v) + n * VotePart(t.posts, key, u, v)
    ensures VotePart(t1.posts, key, u, v) == VotePart(t.posts, key, u, v)
  {
    hide Shape;
    LivePlaced(t, key.postId);
    var t0 := PutPost(t, key.postId, Counted(t.posts[key.postId], key.kind, n, now));
    TouchMoves(t, key.postId, t0.posts[key.postId], u, v);
    VoteSumAfterVote(t1.posts, t.votes.Keys, t1.votes.Keys, key, n, u, v);
    assert Closed(t0, u, v) == Closed(t, u, v);
  }

  lemma SettleMoves(t: Tables, t1: Tables, key: VoteKey, n: int, kind: PointKind, now: int, u: Id, v: View)
    requires key.postId in t1.posts && t1.posts[key.postId].userId in t1.users && Ballot(key.kind)
    requires PointsOf(t1, u) == PointsOf(t, u) && t1.history == t.history && (n == 1 || n == -1)
    requires Closed(t1, u, v) == Closed(t, u, v) + n * VotePart(t1.posts, key, u, v)
    ensures var d := n * VotePart(t1.posts, key, u, v);
      var settled := Settle(t1, key.postId, kind, n * PointsFor(key.kind), now);
      if !Paid(key.kind, key.userId, t1.posts[key.postId].userId) then d == 0 && Moves(t, t1, u, v, d)
      else settled.Some? ==> Moves(t, settled.value, u, v, d)
  {
    hide Closed, HistorySum;
    match TagsForPost(t1, t1.posts[key.postId]) {
      case None =>
      case Some(tags) => AwardMoves(t1, key.postId, kind, tags, n * PointsFor(key.kind), now, u, v);
    }
  }

  lemma CastMoves(t: Tables, kind: VoteKind, id: Id, userId: Id, now: Millis, u: Id, v: View) returns (d: int)
    requires Shape(t) && Ballot(kind) && Cast(t, kind, id, userId, now).Some?
    ensures d == if !Shows(v, t.posts[id]) || u != t.posts[id].userId || (userId == u && !kind.Flag?) then 0
                 else if kind.UpVote? then 5 else if kind.DownVote? then -3 else -2
    ensures Moves(t, Cast(t, kind, id, userId, now).value, u, v, d)
  {
    hide Shape, Closed, Settle, Revision, MayVote, PostPlaced, HistorySum;
    var p := t.posts[id];
    LivePlaced(t, id);
    var key := VoteKey(userId, kind, id);
    var rev := if kind.Flag? then Revision(t, id, p.teamId) else 0;
    var t1 := PutPost(PutVote(t, key, NewVote([], p.teamId, rev, now)), id, Counted(p, kind, 1, now));
    BallotCloses(t, t1, key, 1, now, u, v);
    SettleMoves(t, t1, key, 1, Gained(kind), now, u, v);
    d := VotePart(t1.posts, key, u, v);
  }

  lemma CancelMoves(t: Tables, kind: VoteKind, id: Id, userId: Id, now: Millis, u: Id, v: View) returns (d: int)
    requires Shape(t) && Ballot(kind) && Cancel(t, kind, id, userId, now).Some?
    ensures d == if !Shows(v, t.posts[id]) || u != t.posts[id].userId || (userId == u && !kind.Flag?) then 0
                 else if kind.UpVote? then -5 else if kind.DownVote? then 3 else 2
    ensures Moves(t, Cancel(t, kind, id, userId, now).value, u, v, d)
  {
    hide Shape, Closed, Settle, MayVote, PostPlaced, HistorySum;
    var p := t.posts[id];
    LivePlaced(t, id);
    var key := VoteKey(userId, kind, id);
    var t1 := PutPost(t.(votes := t.votes - {key}), id, Counted(p, kind, -1, now));
    assert t1.votes.Keys == t.votes.Keys - {key};
    BallotCloses(t, t1, key, -1, now, u, v);
    SettleMoves(t, t1, key, -1, Canceled(kind), now, u, v);
    d := -VotePart(t1.posts, key, u, v);
  }

  lemma ReviewMoves(t: Tables, op: Op, now: Millis, u: Id, v: View)
    requires Shape(t) && (op.DoReview? || op.DoReject?)
    ensures Moves(t, Apply(t, op, now), u, v, 0)
  {
    hide Shape, Revision;
    var t' := Apply(t, op, now);
    if op.DoReview? && Step(t, op, now).Some? {
      VoteSumAfterVote(t.posts, t.votes.Keys, t'.votes.Keys, VoteKey(op.userId, Review, op.postId), 1, u, v);
    }
  }

  lemma TouchStepMoves(t: Tables, op: Op, now: Millis, u: Id, v: View)
    requires Shape(t) && (op.DoLock? || op.DoProtect?)
    ensures Moves(t, Apply(t, op, now), u, v, 0)
  {
    hide Shape, Closed;
    if Step(t, op, now).Some? { TouchMoves(t, op.postId, Apply(t, op, now).posts[op.postId], u, v); }
  }

  lemma CompleteMoves(t: Tables, id: Id, actor: Id, now: Millis, u: Id, v: View) returns (d: int)
    requires Shape(t) && CompleteReviews(t, id, actor, now).Some?
    ensures Moves(t, CompleteReviews(t, id, actor, now).value, u, v, d)
  {
    hide Shape, ForceDelete, Closed;
    d := ForceDeleteMoves(t, id, now, u, v);
    SameClosed(ForceDelete(t, id, now).value, CompleteReviews(t, id, actor, now).value, u, v);
  }

  /** Every operation moves what a view shows of a user by what it moves in the closed form. */
  lemma StepMoves(t: Tables, op: Op, now: Millis, u: Id, v: View) returns (d: int)
    requires Shape(t)
    ensures Moves(t, Apply(t, op, now), u, v, d)
  {
    hide Shape, Closed, CreateQuestion, CreateAnswer, CreateComment, UpdatePost, LockPost, ProtectPost, ForceDelete,
         Cast, Cancel, CreateReview, RejectReviews, CompleteReviews, BestPoints, HistorySum;
    d := 0;
    if Step(t, op, now).Some? {
      match op {
        case DoCreateQuestion(id, userId, teamId, title, content, tags) =>
          d := CreateQuestionMoves(t, id, userId, teamId, title, content, tags, now, u, v);
        case DoCreateAnswer(id, userId, teamId, parentId, content) =>
          d := CreateAnswerMoves(t, id, userId, teamId, parentId, content, now, u, v);
        case DoCreateComment(id, userId, teamId, parentId, content) =>
          CreateCommentMoves(t, id, userId, teamId, parentId, content, now, u, v);
        case DoUpdate(id, archiveId, kind, title, content, tags) =>
          UpdateMoves(t, id, archiveId, kind, title, content, tags, now, u, v);
        case DoLock(_, _) => TouchStepMoves(t, op, now, u, v);
        case DoProtect(_, _) => TouchStepMoves(t, op, now, u, v);
        case DoDelete(id) => d := ForceDeleteMoves(t, id, now, u, v);
        case DoForceDelete(id) => d := ForceDeleteMoves(t, id, now, u, v);
        case DoSelect(id, bestId) =>
          SelectMoves(t, id, bestId, now, u, v);
          d := BestPoints(t.posts[id], t.posts[bestId], u, v);
        case DoCast(id, kind, userId) => d := CastMoves(t, kind, id, userId, now, u, v);
        case DoCancel(id, kind, userId) => d := CancelMoves(t, kind, id, userId, now, u, v);
        case DoReview(_, _, _) => ReviewMoves(t, op, now, u, v);
        case DoReject(_, _) => ReviewMoves(t, op, now, u, v);
        case DoComplete(id, actor) => d := CompleteMoves(t, id, actor, now, u, v);
        case DoRegister(_) => SameBooks(t, Apply(t, op, now), u, v);
        case DoSuspend(_, _) => SameBooks(t, Apply(t, op, now), u, v);
        case DoSetMember(_, _, _) => SameBooks(t, Apply(t, op, now), u, v);
      }
    }
  }

  lemma SameBooks(t: Tables, t': Tables, u: Id, v: View)
    requires t'.posts == t.posts && t'.votes == t.votes && t'.history == t.history && PointsOf(t', u) == PointsOf(t, u)
    ensures Moves(t, t', u, v, 0)
  {
  }
}
