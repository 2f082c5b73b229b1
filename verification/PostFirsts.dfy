/** The system review of a first post: when creating a post opens one, and when it should. */
module PostFirsts {
  import opened PostTables
  import opened PostShape
  import opened Wrappers

  // The live posts of a user in a team, or their live public posts.
  function Written(t: Tables, userId: Id, teamId: Id): set<Id> {
    set c | c in t.posts.Keys && t.posts[c].deleteAt == 0 && t.posts[c].teamId == teamId && t.posts[c].userId == userId
  }

  // A row inserted, and no other row's author, team or deletion changed.
  ghost predicate Inserts(t: Tables, t': Tables, id: Id, userId: Id, teamId: Id) {
    && id !in t.posts && t'.posts.Keys == t.posts.Keys + {id} && id in Written(t', userId, teamId)
    && forall y :: y in t.posts ==> t'.posts[y].deleteAt == t.posts[y].deleteAt && SameIdentity(t.posts[y], t'.posts[y])
  }

  // The count behind the review leaves public posts out, so that it is never above one for them.
  lemma CountAfterInsert(t: Tables, t': Tables, id: Id, userId: Id, teamId: Id)
    requires Inserts(t, t', id, userId, teamId)
    ensures FirstPost(t', userId, teamId) <==> teamId == NO_ID || Written(t, userId, teamId) == {}
  {
    if teamId == NO_ID {
      assert PostsOf(t', userId, teamId) == {};
    } else {
      assert PostsOf(t', userId, teamId) == Written(t, userId, teamId) + {id};
      OneMore(Written(t, userId, teamId), id);
    }
  }

  lemma OneMore<T>(s: set<T>, x: T)
    requires x !in s
    ensures |s + {x}| <= 1 <==> s == {}
  {
    assert |s + {x}| == |s| + 1;
  }

  ghost predicate Reviewed(t: Tables, id: Id) { VoteKey(NO_ID, System, id) in t.votes }

  lemma NotYetReviewed(t: Tables, id: Id)
    requires Shape(t) && id !in t.posts
    ensures !Reviewed(t, id)
  {
    forall k | k in t.votes ensures k.postId in t.posts { assert VotePlaced(t, k); }
  }

  /** A new question opens a review when its author has no live post in its team, and also, whatever the
      author wrote before, when it is public: the review marks first posts exactly in the other cases. */
  lemma QuestionOpensReview(t: Tables, id: RowId, userId: Id, teamId: Id, title: string, content: string,
                            tags: seq<string>, now: Millis)
    requires Shape(t) && CreateQuestion(t, id, userId, teamId, title, content, tags, now).Some?
    ensures var t' := CreateQuestion(t, id, userId, teamId, title, content, tags, now).value;
      var first := Written(t, userId, teamId) == {};
      && (Reviewed(t', id) <==> teamId == NO_ID || first)
      && ((Reviewed(t', id) <==> first) <==> teamId != NO_ID || first)
  {
    hide Shape, FirstPost;
    var t1 := PutPost(t, id, NewPost(Question, NO_ID, NO_ID, userId, teamId, title, content, tags, now));
    var t2 := Award(t1, id, CreateQuestionPoint, tags, POINT_FOR_CREATE_QUESTION, now);
    NotYetReviewed(t, id);
    CountAfterInsert(t, t2, id, userId, teamId);
  }

  // The same for comments.
  lemma CommentOpensReview(t: Tables, id: RowId, userId: Id, teamId: Id, parentId: Id, content: string, now: Millis)
    requires Shape(t) && CreateComment(t, id, userId, teamId, parentId, content, now).Some?
    ensures var t' := CreateComment(t, id, userId, teamId, parentId, content, now).value;
      var first := Written(t, userId, teamId) == {};
      && (Reviewed(t', id) <==> teamId == NO_ID || first)
      && ((Reviewed(t', id) <==> first) <==> teamId != NO_ID || first)
  {
    hide Shape, FirstPost, LiveChildren;
    var rootId := if t.posts[parentId].kind.Question? then parentId else t.posts[parentId].parentId;
    var t1 := PutPost(t, id, NewPost(Comment, rootId, parentId, userId, teamId, "", content, [], now));
    NotYetReviewed(t, id);
    CountAfterInsert(t, t1, id, userId, teamId);
  }

  // For answers the review is tagged as one of a first post, besides being one of a late answer perhaps.
  lemma AnswerOpensReview(t: Tables, id: RowId, userId: Id, teamId: Id, parentId: Id, content: string, now: Millis)
    requires Shape(t) && CreateAnswer(t, id, userId, teamId, parentId, content, now).Some?
    ensures var t' := CreateAnswer(t, id, userId, teamId, parentId, content, now).value;
      var first := Written(t, userId, teamId) == {};
      var key, late := VoteKey(NO_ID, System, id), now - t.posts[parentId].createAt > 365 * 24 * 60 * 60 * 1000;
      && (Reviewed(t', id) <==> teamId == NO_ID || first || late)
      && (Reviewed(t', id) && FIRST_POSTS in t'.votes[key].tags <==> teamId == NO_ID || first)
      && (Reviewed(t', id) && LATE_ANSWERS in t'.votes[key].tags <==> late)
  {
    hide Shape, FirstPost;
    var parent := t.posts[parentId];
    var t1 := InsertAnswer(t, id, userId, teamId, parentId, content, now);
    var t2 := if userId == parent.userId then t1
              else Award(t1, id, CreateAnswerPoint, parent.tags, POINT_FOR_CREATE_ANSWER, now);
    NotYetReviewed(t, id);
    CountAfterInsert(t, t2, id, userId, teamId);
    assert FIRST_POSTS[0] != LATE_ANSWERS[0];
  }
}
