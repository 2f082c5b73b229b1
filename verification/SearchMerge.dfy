/** Merging the results of a search's sub-queries, which arrive in any order, and cutting out one page. */
module SearchMerge {
  import opened Wrappers

  datatype Post = Post(id: nat, updateAt: int, points: int, createAt: int)

  datatype SortType = Active | Votes | Newest

  // What a sub-query sends: its rows, or that it failed.
  datatype Result = Rows(posts: seq<Post>) | Failed

  const POST_SEARCH_MAX_COUNT := 500

  function SortKey(p: Post, sort: SortType): int {
    match sort
    case Active => p.updateAt
    case Votes => p.points
    case Newest => p.createAt
  }

  // The sub-queries run beside each other, so that two of them may read different versions of a post.
  predicate Has(r: Result, id: nat) { r.Rows? && exists p :: p in r.posts && p.id == id }

  function Ids(posts: seq<Post>): set<nat> { set p | p in posts :: p.id }

  function IdsOf(r: Result): set<nat> { if r.Rows? then Ids(r.posts) else {} }

  // The version of a post that a sub-query returned; of several the last one.
  function Version(posts: seq<Post>, id: nat): (p: Post)
    requires id in Ids(posts)
    ensures p in posts && p.id == id
  {
    var front, last := posts[..|posts| - 1], posts[|posts| - 1];
    if last.id == id then last
    else
      assert posts == front + [last];
      Version(front, id)
  }

  // The posts that every sub-query found, as the result received last has them.
  ghost function Common(results: seq<Result>): map<nat, Post> {
    if results == [] then map[]
    else
      var last := results[|results| - 1];
      map id | id in IdsOf(last) && (forall r :: r in results ==> Has(r, id)) :: Version(last.posts, id)
  }

  // An id is found when every sub-query found it, and its row is one that a sub-query returned.
  lemma CommonIsIntersection(results: seq<Result>, id: nat)
    requires results != []
    ensures id in Common(results) <==> forall r :: r in results ==> Has(r, id)
    ensures id in Common(results) ==> exists r :: r in results && r.Rows? && Common(results)[id] in r.posts
    ensures id in Common(results) ==> Common(results)[id].id == id
  {
    var last := results[|results| - 1];
    assert last in results;
  }

  // Whatever the order of arrival, the same posts are found.
  lemma CommonInAnyOrder(results: seq<Result>, others: seq<Result>)
    requires multiset(results) == multiset(others)
    ensures Common(results).Keys == Common(others).Keys
  {
    SameResults(results, others);
    if results != [] {
      forall id ensures id in Common(results) <==> id in Common(others) {
        CommonIsIntersection(results, id);
        CommonIsIntersection(others, id);
      }
    }
  }

  lemma SameResults(results: seq<Result>, others: seq<Result>)
    requires multiset(results) == multiset(others)
    ensures (forall r :: r in results <==> r in others) && |results| == |others|
  {
    forall r ensures r in results <==> r in others {
      assert r in results <==> r in multiset(results);
      assert r in others <==> r in multiset(others);
    }
    assert |multiset(results)| == |results| && |multiset(others)| == |others|;
  }

  // All sub-queries returned the same version of each post that all of them found.
  ghost predicate Agree(results: seq<Result>) {
    forall r, r', id :: r in results && r' in results && id in Common(results) && Has(r, id) && Has(r', id) ==>
      Version(r.posts, id) == Version(r'.posts, id)
  }

  /** The order of arrival makes no difference to the rows found exactly when the sub-queries agree. */
  lemma OrderMatters(results: seq<Result>)
    ensures Agree(results) <==>
      forall others :: multiset(others) == multiset(results) ==> Common(others) == Common(results)
  {
    if Agree(results) {
      forall others | multiset(others) == multiset(results) ensures Common(others) == Common(results) {
        AgreeingRows(results, others);
      }
    } else {
      var r, r', id :| r in results && r' in results && id in Common(results) && Has(r, id) && Has(r', id)
        && Version(r.posts, id) != Version(r'.posts, id);
      var a := LastToArrive(results, r);
      var b := LastToArrive(results, r');
      CommonInAnyOrder(results, a);
      CommonInAnyOrder(results, b);
      assert Common(a)[id] != Common(b)[id];
    }
  }

  lemma AgreeingRows(results: seq<Result>, others: seq<Result>)
    requires multiset(others) == multiset(results) && Agree(results)
    ensures Common(others) == Common(results)
  {
    SameResults(results, others);
    CommonInAnyOrder(results, others);
    if results != [] {
      var r, r' := results[|results| - 1], others[|others| - 1];
      assert r in results && r' in results;
      forall id | id in Common(results) ensures Common(others)[id] == Common(results)[id] {
        CommonIsIntersection(results, id);
        CommonIsIntersection(others, id);
      }
    }
  }

  // The same results with r as the last one.
  lemma LastToArrive(results: seq<Result>, r: Result) returns (others: seq<Result>)
    requires r in results
    ensures multiset(others) == multiset(results) && others != [] && others[|others| - 1] == r
  {
    var i :| 0 <= i < |results| && results[i] == r;
    others := results[..i] + results[i + 1..] + [r];
    assert results == results[..i] + ([r] + results[i + 1..]);
  }

  /** Two orders of the same two results, and two versions of one post. */
  lemma VersionByArrival()
    ensures var earlier, later := Rows([Post(1, 1, 0, 0)]), Rows([Post(1, 2, 5, 0)]);
      && 1 in Common([earlier, later]) && Common([earlier, later])[1].points == 5
      && 1 in Common([later, earlier]) && Common([later, earlier])[1].points == 0
  {
    var p, q := Post(1, 1, 0, 0), Post(1, 2, 5, 0);
    assert p in [p] && q in [q];
    CommonIsIntersection([Rows([p]), Rows([q])], 1);
    CommonIsIntersection([Rows([q]), Rows([p])], 1);
  }

  // What is kept of a result received: what was there before as well, unless it is the first.
  ghost function Kept(posts: seq<Post>, final: map<nat, Post>, firstChan: bool): map<nat, Post> {
    map id | id in Ids(posts) && (firstChan || id in final) :: Version(posts, id)
  }

  method Keep(posts: seq<Post>, final: map<nat, Post>, firstChan: bool) returns (dup: map<nat, Post>)
    ensures dup == Kept(posts, final, firstChan)
  {
    hide Kept;
    dup := map[];
    NothingKept(final, firstChan);
    for i := 0 to |posts|
      invariant dup == Kept(posts[..i], final, firstChan)
    {
      var p := posts[i];
      assert posts[..i + 1] == posts[..i] + [p];
      OneMoreKept(posts[..i], p, final, firstChan);
      if firstChan || p.id in final {
        dup := dup[p.id := p];
      }
    }
    assert posts[..|posts|] == posts;
  }

  lemma NothingKept(final: map<nat, Post>, firstChan: bool)
    ensures Kept([], final, firstChan) == map[]
  {
  }

  lemma OneMoreKept(posts: seq<Post>, p: Post, final: map<nat, Post>, firstChan: bool)
    ensures var kept := Kept(posts, final, firstChan);
      Kept(posts + [p], final, firstChan) == if firstChan || p.id in final then kept[p.id := p] else kept
  {
    hide Version;
    var kept, more := Kept(posts, final, firstChan), Kept(posts + [p], final, firstChan);
    OneMoreId(posts, p);
    forall id | id in Ids(posts + [p])
      ensures Version(posts + [p], id) == if id == p.id then p else Version(posts, id)
    {
      OneMoreVersion(posts, p, id);
    }
  }

  lemma OneMoreId(posts: seq<Post>, p: Post)
    ensures Ids(posts + [p]) == Ids(posts) + {p.id}
  {
    assert p in posts + [p] && forall q :: q in posts ==> q in posts + [p];
  }

  lemma OneMoreVersion(posts: seq<Post>, p: Post, id: nat)
    requires id in Ids(posts + [p])
    ensures id == p.id || id in Ids(posts)
    ensures Version(posts + [p], id) == if id == p.id then p else Version(posts, id)
  {
    assert (posts + [p])[..|posts|] == posts;
  }

  // The conjunction of the results, or nothing once a failed one is received.
  method Conjunction(results: seq<Result>) returns (found: Option<map<nat, Post>>)
    ensures found == if Failed in results then None else Some(Common(results))
  {
    var final := map[];
    var firstChan := true;
    for i := 0 to |results|
      invariant Failed !in results[..i] && (firstChan <==> i == 0)
      invariant final == Common(results[..i])
    {
      var result := results[i];
      assert results[..i + 1] == results[..i] + [result];
      if result.Failed? {
        assert results[i] in results;
        return None;
      }
      var dup := Keep(result.posts, final, firstChan);
      CommonNext(results[..i], result);
      final := dup;
      firstChan := false;
    }
    assert results[..|results|] == results;
    return Some(final);
  }

  lemma CommonNext(before: seq<Result>, r: Result)
    requires r.Rows?
    ensures Common(before + [r]) == Kept(r.posts, Common(before), before == [])
  {
    hide Version;
    forall id | id in Ids(r.posts)
      ensures (forall q :: q in before + [r] ==> Has(q, id)) <==> (before == [] || id in Common(before))
    {
      assert r in before + [r] && Has(r, id);
      assert forall q :: q in before ==> q in before + [r];
      if before != [] { CommonIsIntersection(before, id); }
    }
  }

  // ---- Order ----

  ghost predicate Descending(ranked: seq<Post>, sort: SortType) {
    forall i, j :: 0 <= i < j < |ranked| ==> SortKey(ranked[i], sort) >= SortKey(ranked[j], sort)
  }

  // Every post once, best first; posts that compare equal may come in any order.
  ghost predicate Ranking(ranked: seq<Post>, posts: map<nat, Post>, sort: SortType) {
    && Descending(ranked, sort)
    && (forall i, j :: 0 <= i < j < |ranked| ==> ranked[i].id != ranked[j].id)
    && (forall p :: p in ranked <==> p.id in posts && posts[p.id] == p)
  }

  ghost predicate Named(posts: map<nat, Post>) { forall id :: id in posts ==> posts[id].id == id }

  // Stands for the library's sort: it leaves some ranking.
  method Rank(posts: map<nat, Post>, sort: SortType) returns (ranked: seq<Post>)
    requires Named(posts)
    ensures Ranking(ranked, posts, sort)
  {
    hide SortKey, Ranking;
    NothingRanked(sort);
    ranked := [];
    var rest := posts;
    assert posts - rest.Keys == map[];
    while rest != map[]
      invariant Named(rest) && rest.Keys <= posts.Keys && forall id :: id in rest ==> rest[id] == posts[id]
      invariant Ranking(ranked, posts - rest.Keys, sort)
      decreases rest.Keys
    {
      var id :| id in rest;
      var at := 0;
      while at < |ranked| && SortKey(ranked[at], sort) > SortKey(rest[id], sort)
        invariant at <= |ranked|
        invariant forall i :: 0 <= i < at ==> SortKey(ranked[i], sort) > SortKey(rest[id], sort)
      {
        at := at + 1;
      }
      assert at < |ranked| ==> SortKey(ranked[at], sort) <= SortKey(rest[id], sort);
      InsertedRanks(ranked, at, rest[id], posts - rest.Keys, sort);
      ranked := ranked[..at] + [rest[id]] + ranked[at..];
      assert posts - (rest - {id}).Keys == (posts - rest.Keys)[id := rest[id]];
      rest := rest - {id};
    }
    assert rest.Keys == {} && posts - rest.Keys == posts;
  }

  lemma NothingRanked(sort: SortType)
    ensures Ranking([], map[], sort)
  {
  }

  lemma InsertedRanks(ranked: seq<Post>, at: nat, p: Post, posts: map<nat, Post>, sort: SortType)
    requires Ranking(ranked, posts, sort) && at <= |ranked| && p.id !in posts
    requires forall i :: 0 <= i < at ==> SortKey(ranked[i], sort) > SortKey(p, sort)
    requires at < |ranked| ==> SortKey(ranked[at], sort) <= SortKey(p, sort)
    ensures Ranking(ranked[..at] + [p] + ranked[at..], posts[p.id := p], sort)
  {
    hide SortKey, Descending;
    var r := ranked[..at] + [p] + ranked[at..];
    Places(ranked, at, p);
    InsertedDescends(ranked, at, p, r, sort);
    InsertedMembers(ranked, at, p, r, posts, sort);
  }

  lemma InsertedMembers(ranked: seq<Post>, at: nat, p: Post, r: seq<Post>, posts: map<nat, Post>, sort: SortType)
    requires Ranking(ranked, posts, sort) && at <= |ranked| && p.id !in posts && Descending(r, sort)
    requires |r| == |ranked| + 1 && r[at] == p && (forall i :: 0 <= i < at ==> r[i] == ranked[i])
    requires (forall i :: at < i < |r| ==> r[i] == ranked[i - 1]) && forall q :: q in r <==> q == p || q in ranked
    ensures Ranking(r, posts[p.id := p], sort)
  {
    hide Descending;
    assert forall i :: 0 <= i < |ranked| ==> ranked[i] in ranked && ranked[i].id in posts;
  }

  lemma InsertedDescends(ranked: seq<Post>, at: nat, p: Post, r: seq<Post>, sort: SortType)
    requires Descending(ranked, sort) && at <= |ranked| && |r| == |ranked| + 1
    requires forall i :: 0 <= i < at ==> SortKey(ranked[i], sort) > SortKey(p, sort)
    requires at < |ranked| ==> SortKey(ranked[at], sort) <= SortKey(p, sort)
    requires r[at] == p && (forall i :: 0 <= i < at ==> r[i] == ranked[i])
    requires forall i :: at < i < |r| ==> r[i] == ranked[i - 1]
    ensures Descending(r, sort)
  {
    hide SortKey;
    forall i, j | 0 <= i < j < |r| ensures SortKey(r[i], sort) >= SortKey(r[j], sort) {
      if i < at {
        if j < at { assert r[j] == ranked[j]; } else if j > at { assert r[j] == ranked[j - 1]; }
        assert r[i] == ranked[i];
      } else {
        assert r[j] == ranked[j - 1];
        if i == at { assert at == j - 1 || SortKey(ranked[at], sort) >= SortKey(ranked[j - 1], sort); }
      }
    }
  }

  lemma Places(ranked: seq<Post>, at: nat, p: Post)
    requires at <= |ranked|
    ensures var r := ranked[..at] + [p] + ranked[at..];
      && |r| == |ranked| + 1
      && r[at] == p && (forall i :: 0 <= i < at ==> r[i] == ranked[i])
      && (forall i :: at < i < |r| ==> r[i] == ranked[i - 1])
      && (forall q :: q in r <==> q == p || q in ranked)
  {
    assert ranked == ranked[..at] + ranked[at..];
  }

  // ---- Pages ----

  function Cut(ranked: seq<Post>): seq<Post> {
    if |ranked| > POST_SEARCH_MAX_COUNT then ranked[..POST_SEARCH_MAX_COUNT] else ranked
  }

  function Min(a: int, b: int): int { if a <= b then a else b }

  // Where a page starts in a list of a given length.
  function Start(page: nat, perPage: nat, length: nat): (n: nat)
    ensures n <= length
  {
    Min(page * perPage, length)
  }

  lemma StartsGrow(i: nat, j: nat, perPage: nat, length: nat)
    requires i <= j
    ensures Start(i, perPage, length) <= Start(j, perPage, length)
  {
    assert j * perPage == i * perPage + (j - i) * perPage;
  }

  function Page(posts: seq<Post>, page: nat, perPage: nat): seq<Post> {
    StartsGrow(page, page + 1, perPage, |posts|);
    posts[Start(page, perPage, |posts|)..Start(page + 1, perPage, |posts|)]
  }

  function Pages(posts: seq<Post>, n: nat, perPage: nat): seq<Post> {
    if n == 0 then [] else Pages(posts, n - 1, perPage) + Page(posts, n - 1, perPage)
  }

  // The first n pages, one after the other, are the start of the list: no post is skipped or shown twice.
  lemma {:induction false} PagesConcatenate(posts: seq<Post>, n: nat, perPage: nat)
    ensures Pages(posts, n, perPage) == posts[..Min(n * perPage, |posts|)]
    ensures n * perPage >= |posts| ==> Pages(posts, n, perPage) == posts
  {
    if n > 0 {
      PagesConcatenate(posts, n - 1, perPage);
      assert n * perPage == (n - 1) * perPage + perPage;
    }
  }

  lemma SlicesDisjoint(posts: seq<Post>, table: map<nat, Post>, sort: SortType, i: nat, i': nat, j: nat, j': nat)
    requires Ranking(posts, table, sort) && i <= i' <= j <= j' <= |posts|
    ensures forall p, q :: p in posts[i..i'] && q in posts[j..j'] ==> p != q && SortKey(p, sort) >= SortKey(q, sort)
  {
    forall p, q | p in posts[i..i'] && q in posts[j..j'] ensures p != q && SortKey(p, sort) >= SortKey(q, sort) {
      var k :| i <= k < i' && posts[k] == p;
      var l :| j <= l < j' && posts[l] == q;
      assert posts[k].id != posts[l].id;
    }
  }

  // No post is on two pages, and none on a later page is better than one on an earlier page.
  lemma PagesDisjoint(posts: seq<Post>, table: map<nat, Post>, sort: SortType, i: nat, j: nat, perPage: nat)
    requires Ranking(posts, table, sort) && i < j
    ensures forall p, q :: p in Page(posts, i, perPage) && q in Page(posts, j, perPage) ==>
      p != q && SortKey(p, sort) >= SortKey(q, sort)
  {
    hide Ranking, Start, SortKey;
    StartsGrow(i, i + 1, perPage, |posts|);
    StartsGrow(i + 1, j, perPage, |posts|);
    StartsGrow(j, j + 1, perPage, |posts|);
    SlicesDisjoint(posts, table, sort, Start(i, perPage, |posts|), Start(i + 1, perPage, |posts|),
                   Start(j, perPage, |posts|), Start(j + 1, perPage, |posts|));
  }

  lemma CutKeepsBest(ranked: seq<Post>, posts: map<nat, Post>, sort: SortType)
    requires Ranking(ranked, posts, sort)
    ensures Descending(Cut(ranked), sort) && |Cut(ranked)| == Min(|ranked|, POST_SEARCH_MAX_COUNT)
    ensures forall p, q :: p in Cut(ranked) && q in ranked && q !in Cut(ranked) ==> SortKey(p, sort) >= SortKey(q, sort)
  {
    forall p, q | p in Cut(ranked) && q in ranked && q !in Cut(ranked) ensures SortKey(p, sort) >= SortKey(q, sort) {
      var i :| 0 <= i < |Cut(ranked)| && Cut(ranked)[i] == p;
      var j :| 0 <= j < |ranked| && ranked[j] == q;
      assert forall k :: 0 <= k < |Cut(ranked)| ==> ranked[k] == Cut(ranked)[k] && ranked[k] in Cut(ranked);
    }
  }

  // By votes a post with more points comes first, by activity one updated later, and else one created later.
  predicate MayPrecede(p: Post, q: Post, sort: SortType) {
    && (sort.Votes? ==> p.points >= q.points) && (sort.Active? ==> p.updateAt >= q.updateAt)
    && (sort.Newest? ==> p.createAt >= q.createAt)
  }

  ghost predicate InColumn(posts: seq<Post>, sort: SortType) {
    forall i, j :: 0 <= i < j < |posts| ==> MayPrecede(posts[i], posts[j], sort)
  }

  lemma DescendsInColumn(posts: seq<Post>, sort: SortType)
    ensures Descending(posts, sort) <==> InColumn(posts, sort)
  {
  }

  lemma EmptyInColumn(sort: SortType)
    ensures InColumn([], sort)
  {
  }

  // A part of a ranking is in the order of its column as well.
  lemma PageInColumn(ranked: seq<Post>, sort: SortType, page: nat, perPage: nat)
    requires Descending(ranked, sort)
    ensures InColumn(ranked, sort) && InColumn(Page(Cut(ranked), page, perPage), sort)
    ensures forall p, k :: p in Page(Cut(ranked), page, perPage) && |Cut(ranked)| <= k < |ranked| ==>
      MayPrecede(p, ranked[k], sort)
  {
    hide Start, MayPrecede;
    DescendsInColumn(ranked, sort);
    StartsGrow(page, page + 1, perPage, |Cut(ranked)|);
  }

  method SearchPosts(results: seq<Result>, sort: SortType, page: nat, perPage: nat)
    returns (posts: Option<seq<Post>>, totalCount: nat, ghost ranked: seq<Post>)
    ensures Failed in results ==> posts == None && totalCount == 0
    ensures Failed !in results ==>
      && Ranking(ranked, Common(results), sort)
      && posts == Some(Page(Cut(ranked), page, perPage)) && totalCount == |Cut(ranked)|
      && totalCount == (if |ranked| < 500 then |ranked| else 500) && InColumn(posts.value, sort)
      && forall p, k :: p in posts.value && totalCount <= k < |ranked| ==> MayPrecede(p, ranked[k], sort)
  {
    if Failed !in results { EmptyInColumn(sort); }
    ranked := [];
    var found := Conjunction(results);
    if found == None { return None, 0, []; }
    assert Named(found.value) by { CommonNamed(results); }
    var all := Rank(found.value, sort);
    ranked := all;
    if |all| > POST_SEARCH_MAX_COUNT {
      all := all[..POST_SEARCH_MAX_COUNT];
    }
    totalCount := |all|;
    PageInColumn(ranked, sort, page, perPage);
    assert page * perPage <= (page + 1) * perPage by { assert (page + 1) * perPage == page * perPage + perPage; }
    if |all| > page * perPage {
      var start, end := page * perPage, |all|;
      if |all| > (page + 1) * perPage {
        end := (page + 1) * perPage;
      }
      return Some(all[start..end]), totalCount, ranked;
    }
    assert Page(all, page, perPage) == [];
    return Some([]), totalCount, ranked;
  }

  lemma CommonNamed(results: seq<Result>)
    ensures Named(Common(results))
  {
    forall id | id in Common(results) ensures Common(results)[id].id == id { CommonIsIntersection(results, id); }
  }
}
