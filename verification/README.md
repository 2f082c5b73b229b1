# Verification model of the question-and-answer server

A Dafny model of the state machines behind the server's posts, points, teams, sessions and web
sockets. Each Dafny module follows one component; a class updates its fields in place where the Go code
does, and is proved against a function on plain values, about which the laws are then proved over every
run. `dafny verify dfyconfig.toml` checks everything.

## What is modelled

**Posts, votes and points**. The tables Posts, Votes, Users, TeamMembers and UserPointHistory, and the operations
that write them (`PostTables`): creating questions, answers and comments, editing with an archived copy, guarded
and forced deletion, locking and protecting, choosing the best answer, voting, flagging and their cancellations,
opening, rejecting and completing reviews. `Step` is one operation as one atomic change of the tables (nothing
changes when it fails), `Run` a sequence of them from empty tables. What a call writes is told column by column,
and what a run leaves by the calls it was made of: `PostPermits` (which calls succeed), `PostColumns` (rows of
Posts, texts and versions), `PostVotes` (votes, reviews, accounts) and `PostHistory` (the point history as a log).
`PostShape`, `PostCounters`, `PostReviews` and `PostThreads` hold the invariants, `PostLedger`, `PostBooks` and
`PostTeams` the points of users and of team members as closed forms, `PostRevisions` and `PostFirsts` revision
numbers and first posts, and `PostFailures` runs in which a law fails. `PostStore.Store` performs the operations
row by row inside a transaction that is rolled back on a failure, and each of its methods is proved to leave
exactly the tables `Step` describes. `Sums` has sums over finite sets, and `Wrappers` the type of optional values.

**L1 cache** (`LruRows`, `LruRuns`, `LruCache`, `SessionCache`). An LRU list of entries with a generation each,
where Purge only raises the current generation. It is proved to behave like a plain bounded list that a purge
really empties, and such a list to keep what was used last. The loop that drops a user's sessions runs on top of
it.

**Web-socket hub** (`HubIndex`, `HubState`, `HubRuns`, `Hub`, `ConnPump`). The two index maps with swap-remove on
backing arrays shared by slice headers; the event loop, which walks such an array while it is being changed and
while the pumps drain the channels; buffered send channels that may be closed once and never written to afterwards;
the write pump, its numbering and the ways it ends.

**Cluster** (`Cluster`, `FanOut`). Spreading events and session-cache invalidations over servers by
publish/subscribe, as steps that may interleave in any way, down to what the connections of a hub receive.

**Waiting for background tasks** (`TaskWait`). The task counter and the wake-up channel of capacity one.

**Teams** (`Teams`, `TeamRows`, `TeamStore`). Membership, the cap on members that is checked through a cached count, and
the rules on the last admin.

**Search** (`SearchWords`, `SearchWordsLaws`, `SearchMerge`), **domain names** (`DomainName`), **OAuth tokens**
(`OAuthTokens`, `OAuthRows`, `OAuthStore`) and **view counts** (`ViewCounter`).

## What the proofs found

Where a law that one would expect does not hold of the code, the model keeps the code as it is, one lemma says
exactly when the law holds, and another gives a run in which it fails.

- The team of an answer or comment comes from the caller and is not compared with the question's
  (`app/post.go:133-217`, `api/post.go:547-584`). Choosing a best answer pays by the question's team but files each
  history row by the post's own (`store/sqlstore/post_store.go:1128-1186`). Points and public history therefore
  agree exactly when as many chosen answers cross the border between public and team posts one way as the
  other (`PostBooks.PointsAgainstHistory`; in `PostBooks.CrossingHappens` they differ by ten).
- Deleting one's own answer to one's own public question takes three points that were never granted
  (`store/sqlstore/post_store.go:231` against `:1021`): writing and deleting an answer is neutral exactly otherwise
  (`PostBooks.AnswerThenDelete`; `PostFailures.OwnAnswerCosts`).
- A team's history row is written even if no member row was updated (`store/sqlstore/post_store.go:1326`), and a
  team answer chosen on a public question pays the user. A member's points agree with the team's history exactly
  when the rows written in these ways add up to nothing (`PostTeams.TeamBooks`, and `PostTeams.TeamAward` for one
  award; in `PostFailures.LeaverIsOwed` a member who left is five points behind). What is awarded while a member is
  away stays lost when they come back (`Teams.RunKeepsPoints`; `Teams.AwayGetsNothing`).
- With an empty team id the revision lookup and the post count ask for rows whose TeamId is NULL
  (`store/sqlstore/post_store.go:428-482`, `:1938-1999`), and there are none. The revision of a post is one more
  than its number of edits exactly for team posts and unedited ones, and offsets find nothing of a public post
  (`PostRevisions.RevisionsOfPost`; `PostFailures.PublicRevisionStays`). A new post is put up for review as its
  author's first exactly when it is, or when it is public (`PostFirsts.QuestionOpensReview`, `CommentOpensReview`,
  `AnswerOpensReview`; `PostFailures.SecondPostIsFirst`).
- Completing the reviews of a post deletes the post first, which invalidates every open review, so that no
  review is ever marked as completed (`app/vote.go:126-137`; `PostReviews.CompletionIsForcedDeletion`;
  `PostFailures.CompletionInvalidates`).
- A forced deletion, and so a completion of reviews, detaches replies or a best answer exactly when the checks it
  skips would have failed (`PostThreads.ForcedDeletionDetaches`), and a vote or its cancellation fails midway
  exactly when it moves points under a deleted question (`PostThreads.CastFailsMidway`, `CancelFailsMidway`). In
  `PostFailures.CompletionOrphans` an answer is orphaned and a vote for it fails, in `PostFailures.CompletionLocksVote`
  a vote given before cannot be cancelled.
- Someone may be refused by a team that has room exactly when they come back while a member count at the cap,
  from before an account was deleted, is still cached, or when there is no cap at all: a negative maximum lifts it
  for inserts but refuses everyone who comes back (`Teams.RefusedWithRoom`, `Teams.LeftForGood`;
  `Teams.StaleCountRefuses`, `Teams.UncappedRefuses`).
- A view counter that is started is set to one and then incremented, so that each start counts one view too many
  (`store/cachelayer/post_layer.go:41-66`): flushed, buffered and expired views are those admitted exactly when no
  counter was started (`ViewCounter.Conservation`; `ViewCounter.FourViewsAreFive`).
- Codes and refresh tokens are looked up by themselves, and the secret asked for is that of the app that calls
  (`app/oauth.go:210-329`). Sections 4.1.3 and 6 of RFC 6749 bind both to the client they were issued to. They stay
  with it exactly when that client makes the call or the call would be refused anyway
  (`OAuthTokens.ExchangeBoundToClient`, `OAuthTokens.RefreshBoundToClient`; `OAuthTokens.OtherAppExchanges`).
- The write pump's session check stops its own ticker (`app/web_conn.go:210-216`): the loss of the session token ends
  the pump at the next tick exactly when no tick came before (`ConnPump.SessionCheck`; `ConnPump.LateCheckPasses`).
- The sub-queries of a search read beside each other, so that two may return different versions of a post, and the
  one received last is shown (`store/sqlstore/post_store.go:630-678`). The order of arrival makes no difference exactly
  when the sub-queries agree on the posts that all of them found (`SearchMerge.OrderMatters`;
  `SearchMerge.VersionByArrival`).

## Model

| member | source | states |
|---|---|---|
| PostShape.StepKeepsShape | store/sqlstore/post_store.go:96-334 | every operation keeps the tables well formed: a reply's parent and root are what its kind asks for, a best answer is an answer of its question, an archived copy is never written under, votes name existing posts |
| PostShape.RunKeepsShape | app/post.go:133-289 | the post tree is well formed in every reachable state; in particular a comment's RootId is the question it hangs under |
| PostShape.SelectKeepsShape | store/sqlstore/post_store.go:1086-1135 | BestId is written only while it is empty and names an answer of that question |
| PostShape.ForceDeletePosts | store/sqlstore/post_store.go:887-1084 | what deletion does to every row: the post dies, and its question, if it was an answer, loses one from its count |
| PostCounters.StepKeepsCounters | store/sqlstore/post_store.go:1297-1465 | every operation keeps UpVotes, DownVotes, FlagCount, Points and AnswerCount equal to the rows they count |
| PostCounters.RunKeepsCounters | store/sqlstore/post_store.go:1498-1644 | over any run each counter of every post that is not archived equals the number of its Votes rows of that type, Points is UpVotes minus DownVotes, AnswerCount the number of live answers |
| PostCounters.ClampNeverFires | store/sqlstore/post_store.go:1415-1465 | a vote that is there to cancel is counted, so that the floor at zero is never reached |
| PostLedger.StepMoves | store/sqlstore/post_store.go:915-1049 | every operation changes what a user holds, and the sum of their history rows in any team or in none, by exactly what it changes in the closed form of the posts and votes concerned |
| PostLedger.SelectMoves | store/sqlstore/post_store.go:1128-1186 | choosing a best answer brings 3 to the asker and 10 to the answerer, as points by the question's team and as rows by each post's own |
| PostLedger.SelectionRows | store/sqlstore/post_store.go:1156-1183 | and appends two rows, of 3 for the selection and 10 for the selected answer |
| PostLedger.CastMoves | store/sqlstore/post_store.go:1297-1351 | in every view, a vote or flag moves its author, and nobody else, by 5, -3 or -2, and not at all for votes on one's own post |
| PostLedger.CancelMoves | store/sqlstore/post_store.go:1594-1644 | a cancellation moves them back by the same amount |
| PostLedger.CreateAnswerMoves | store/sqlstore/post_store.go:231-259 | an answer to another user's question earns three points in its team or in public, one to one's own none |
| PostLedger.DeleteAnswerMoves | store/sqlstore/post_store.go:1007-1049 | deleting an answer takes three points from its author, whoever asked the question |
| PostLedger.DeleteQuestionMoves | store/sqlstore/post_store.go:915-958 | so does deleting a question |
| PostBooks.RunKeepsBooks | store/sqlstore/post_store.go:96-259 | in every reachable state each user's points are the closed form of the public posts and votes, and the sum of their history rows in each team, or in none, is the closed form of the posts and votes there: 3 for a live question, 3 for an answer to another, -3 for a deleted answer, 5, -3 and -2 for votes, 3 and 10 for selections |
| PostBooks.PointsAgainstHistory | store/sqlstore/post_store.go:1128-1186 | points equal the sum of the public history rows if and only if as many chosen answers cross the team border one way as the other; the difference is ten for each |
| PostBooks.LedgerWithoutCrossing | store/sqlstore/post_store.go:1297-1816 | points equal history in every run whose best answers stay on their question's side |
| PostBooks.CrossingHappens | app/post.go:133-217 | a concrete run in which ten points have no public row |
| PostBooks.CancelUndoesCast | store/sqlstore/post_store.go:1373-1465 | cancelling a vote or flag just cast restores votes, users, members and counters; only UpdateAt and two history rows remain |
| PostBooks.AnswerThenDelete | store/sqlstore/post_store.go:197-259 | writing an answer and deleting it is neutral for its author if and only if it was a team answer or the question someone else's |
| PostTeams.TeamAward | store/sqlstore/post_store.go:1319-1345 | an award keeps a member's points in step with their team history if and only if they are an active member |
| PostTeams.StepBehind | store/sqlstore/post_store.go:1128-1186 | each operation moves a member's points with their team history, but for the rows it writes while they are inactive or for an answer chosen on a public question |
| PostTeams.TeamBooks | store/sqlstore/post_store.go:1297-1351 | after any run member points are the team history, and so its closed form, less those rows, so that the two agree if and only if the rows come to nothing |
| PostTeams.MembersPaid | store/sqlstore/post_store.go:1143-1154 | a selection under a team question brings an active asker 3 and an active answerer 10 |
| PostHistory.StepAppends | store/sqlstore/post_store.go:151-157 | every operation appends just the rows of its occasions, each with the price of the occasion, the team and author of its post, the tags of the thread's question, and the time |
| PostHistory.RunLogs | store/sqlstore/post_store.go:1297-1816 | after any run the history is the log of the calls that succeeded, row by row |
| PostThreads.RunKeepsAttached | app/post.go:743-791 | in runs without forced deletion no live post hangs under a deleted one and every live question's best answer is live |
| PostThreads.ForcedDeletionDetaches | app/post.go:793-816 | deletion keeps threads attached if and only if the checks of the guarded deletion hold |
| PostThreads.CastFailsMidway | store/sqlstore/post_store.go:1353-1371 | a permitted vote or flag fails after writing its first rows if and only if it moves points and the thread's question is deleted |
| PostThreads.CancelFailsMidway | store/sqlstore/post_store.go:1415-1465 | the same for a cancellation |
| PostThreads.RootsAreLive | store/sqlstore/post_store.go:1353-1371 | in an attached tree the root of every live post is a live question |
| PostReviews.StepKeepsReviews | store/sqlstore/vote_store.go:132-191 | every operation keeps each review row sound: open, or closed by exactly one of invalidation, completion or rejection, with FirstPostRev at most LastPostRev; and no closed one is written again |
| PostReviews.RunKeepsReviews | store/sqlstore/post_store.go:960-972 | the same over every run |
| PostReviews.CompletionIsForcedDeletion | app/vote.go:126-137 | completing the reviews of a post leaves what its forced deletion leaves: every open review invalidated and none completed |
| PostPermits.CreationServed | app/post.go:25-289 | who may write what: not the suspended in public, not who has less than ten points under a protected question, no comment under a comment or beyond twenty |
| PostPermits.DeletionServed | app/post.go:743-816 | a post is deleted exactly when it is live and no live reply, and for an answer no choice as best, stands against it; forced deletion asks for neither |
| PostPermits.SelectionServed | store/sqlstore/post_store.go:1086-1126 | an answer is chosen exactly by a live question that has none, among its live answers |
| PostPermits.BallotServed | store/sqlstore/post_store.go:1266-1351 | a vote or its cancellation succeeds exactly on a live post that is no comment and not locked, for who is not suspended, has or has not voted, and, if points move, under a live question; a flag on any live post |
| PostPermits.OthersServed | app/post.go:670-741 | when edits, locks, protections, reviews and rejections succeed |
| PostPermits.RunLimitsComments | app/post.go:219-289 | in every reachable state no post has more than twenty live comments |
| PostColumns.StepStores | app/post.go:670-741 | what every operation stores in each column of each row: an edit the content, and title and tags of a question, EditAt if one of them changed; a lock, a protection, a choice or a deletion its own column; UpdateAt the time of what touched the post |
| PostColumns.StepInserts | store/sqlstore/post_store.go:96-334 | the rows an operation adds: a post with what the call gave and nothing else, or the version an edit replaced |
| PostColumns.RunTells | store/sqlstore/post_store.go:295-334 | after any run a post shows the text written last, and the k-th version that an edit replaced is the one written before it, back to the text of its creation |
| PostColumns.LookupShowsText | store/sqlstore/post_store.go:1966-1999 | an offset finds the text written in its turn |
| PostVotes.StepKeepsVotes | store/sqlstore/vote_store.go:132-191 | what every operation does to each row of Votes: made open, at its revision, by a vote, a flag or a review; invalidated by a deletion; rejected, by whom, by a rejection; removed by its own cancellation |
| PostVotes.RunVotes | store/sqlstore/post_store.go:1297-1465 | after any run the votes and flags in the table are exactly those whose last call cast them |
| PostVotes.RunEnds | store/sqlstore/vote_store.go:132-191 | after any run each review is open, or was invalidated by the first deletion of its post, or rejected by the first rejection before that, with time and actor; none was completed |
| PostVotes.StepKeepsAccounts | store/sqlstore/post_store.go:1319-1345 | which accounts and memberships a call opens, suspends or switches, and that nothing else but points is written there |
| PostRevisions.StepFreezes | store/sqlstore/post_store.go:295-334 | archived rows are never changed, and only an edit adds one |
| PostRevisions.EditsArchived | store/sqlstore/post_store.go:295-334 | the archive of a post holds, for each edit in order, the version that the edit replaced |
| PostRevisions.LookupFindsVersion | store/sqlstore/post_store.go:1966-1999 | ordering the archive by UpdateAt and skipping k rows gives exactly the k+1-th version |
| PostRevisions.RowsAreEdits | store/sqlstore/post_store.go:1938-1964 | what the lookups see of a post's archive: each edit's row for a team post, nothing for a public one |
| PostRevisions.LookupsOfPost | store/sqlstore/post_store.go:1966-1999 | with increasing clocks, an offset k finds the version that the k+1-th edit replaced if there is one and the post belongs to a team, and otherwise nothing |
| PostRevisions.RevisionsOfPost | store/sqlstore/post_store.go:1938-1964 | the current revision is one more than the number of edits if and only if the post belongs to a team or was never edited, and an offset finds a row if and only if it belongs to a team and was edited often enough |
| PostFirsts.QuestionOpensReview | store/sqlstore/post_store.go:54-94 | a new question is put up for review if and only if it is public or its author's first in the team, which is right exactly for team posts and first ones |
| PostFirsts.CommentOpensReview | store/sqlstore/post_store.go:261-293 | the same for comments |
| PostFirsts.AnswerOpensReview | store/sqlstore/post_store.go:159-259 | the same for answers, which are also put up when they come late; each tag is there exactly for its own reason |
| PostFailures.PublicRevisionStays | store/sqlstore/post_store.go:1938-1964 | an edited public question at revision 1 |
| PostFailures.SecondPostIsFirst | store/sqlstore/post_store.go:428-482 | a second public question put up for review as a first one |
| PostFailures.OwnAnswerCosts | store/sqlstore/post_store.go:1007-1049 | a run that ends with a live question and no points, for an answer to oneself that was deleted |
| PostFailures.LeaverIsOwed | store/sqlstore/post_store.go:1319-1345 | a run in which a member who left has five points less than their team history |
| PostFailures.CompletionOrphans | app/vote.go:126-137 | a run in which completing reviews leaves a live answer under a deleted question, and a permitted vote on it fails |
| PostFailures.CompletionLocksVote | store/sqlstore/post_store.go:1373-1465 | a run in which a vote given before the reviews were completed cannot be cancelled |
| PostFailures.CompletionInvalidates | app/vote.go:126-137 | a run in which completing reviews invalidates an open one and leaves it uncompleted |
| PostStore.Store.CreateAnswer | store/sqlstore/post_store.go:159-259 | performed row by row: the new tables are those of the step, and a refusal leaves the old ones |
| PostStore.Store.UpdatePost | app/post.go:670-741 | the same for an edit and its archived copy |
| PostStore.Store.DeletePost | app/post.go:743-791 | the same for the guarded deletion of any kind of post |
| PostStore.Store.SelectBestAnswer | store/sqlstore/post_store.go:1086-1186 | the same for choosing a best answer |
| PostStore.Store.CastVote | store/sqlstore/post_store.go:1266-1351 | the same for votes and flags, rolled back when paying the author fails |
| PostStore.Store.CancelVote | store/sqlstore/post_store.go:1554-1644 | the same for their cancellation, counters floored at zero |
| PostStore.Store.CompleteReviews | app/vote.go:126-137 | the same for completing reviews |
| PostStore.StepKeepsSane | store/sqlstore/post_store.go:1677-1816 | the four invariants of the tables together are kept by every operation |
| LruRows.SetThenGet | services/l1cache/lru.go:127-187 | of the plain list: what is set is what is got, until it expires |
| LruRows.PurgeEmpties | services/l1cache/lru.go:50-57 | raising the generation leaves no live row and keeps generations from increasing towards the back |
| LruRows.EvictionIsTruncation | services/l1cache/lru.go:152-162 | dropping the last row when the list is full cuts the live list to its size: a stale row goes before any live one |
| LruRows.LiveIsPrefix | services/l1cache/lru.go:99-113 | the live rows are the first ones of the list |
| LruRuns.StaysWhileRoom | services/l1cache/lru.go:127-177 | over any run of sets, reads, removals and purges, while its own key is not used, an item stays exactly as long as there is room for it behind the keys ahead of it and those used since |
| LruRuns.UsedIsRead | services/l1cache/lru.go:164-177 | once set or read, and while its key is not used again, an item is read back exactly until it expires or as many other keys were used since as the cache has room for |
| LruRuns.OneUse | services/l1cache/lru.go:127-187 | a set or a successful read of another key puts that key ahead and keeps the order of the rest; the one at the back goes when there is no room |
| LruCache.LRU.Purge | services/l1cache/lru.go:50-57 | the plain list is emptied at once |
| LruCache.LRU.SetWithExpiry | services/l1cache/lru.go:127-162 | the plain list with the item at its front, bounded by the size |
| LruCache.LRU.Get | services/l1cache/lru.go:164-177 | the answer of the plain list, which the entry moves to the front of, or leaves if it has expired |
| LruCache.LRU.Remove | services/l1cache/lru.go:88-97 | the plain list without the key |
| LruCache.LRU.Keys | services/l1cache/lru.go:99-113 | exactly as many slots as there are live entries, filled with their keys, least recent first |
| LruCache.LRU.Len | services/l1cache/lru.go:115-120 | the number of live entries, not of the rows that are still in the list |
| SessionCache.ClearLocalSessions | app/session.go:91-105 | leaves exactly the unexpired sessions of other users in the cache |
| HubIndex.SwapRemoveMembers | app/web_hub.go:137-153 | swap-remove takes out one connection and no other, the last one included |
| HubIndex.AddKeepsInverse | app/web_hub.go:131-135 | adding keeps the two index maps inverse to each other |
| HubIndex.RemoveKeepsInverse | app/web_hub.go:137-153 | so does removing, the last connection included |
| HubIndex.HubConnectionIndex.Add | app/web_hub.go:131-135 | the connection is appended to its user's slice, in place or in a new array |
| HubIndex.HubConnectionIndex.Remove | app/web_hub.go:137-153 | the slice loses the connection, only its own slot of the shared array is written, and nobody moves to a later slot |
| Hub.Hub.BroadcastToUser | app/web_hub.go:217-242 | walking the array while connections are removed from it, and while pumps drain channels, visits each connection that was there at the start once and no other, and offers the event to those that should have it |
| Hub.Hub.BroadcastToAll | app/web_hub.go:244-247 | the same over the map of all connections, in whatever order they come |
| Hub.Hub.InvalidateUser | app/web_hub.go:197-200 | the cached session of each of the user's connections is forgotten, and of no other |
| Hub.Hub.Stop | app/web_hub.go:249-257 | every connection in the index is hung up, and no request is served afterwards |
| Hub.Hub.Offer | app/web_hub.go:223-232 | a non-blocking send queues the message, or closes the channel and forgets the connection; no closed channel is sent to or closed again |
| Hub.Hub.Turn | app/web_hub.go:184-257 | each request, or receive of a pump, has the effect of its specification and keeps the index and the channels sound |
| Hub.Hub.Start | app/web_hub.go:168-260 | so does every sequence of them in which each connection registers once, up to a stop; no send meets a closed channel and none is closed twice, so that no request makes the loop panic |
| HubState.SpreadToOneMore | app/web_hub.go:217-234 | one more visit, in whatever order, adds exactly one connection to those served |
| HubState.RunDelivers | app/web_hub.go:184-247 | over any run a pump receives in order and once each the messages due to its connection, and the rest is in the channel |
| HubState.GoneForGood | app/web_hub.go:201-212 | a connection that left the index never comes back, nothing more is sent to it, and a closed channel stays closed |
| HubRuns.LeavesByRequest | app/web_hub.go:193-231 | a registered connection stays in the index until it is unregistered or its full channel is closed, and leaves it then |
| HubRuns.UnregisterIsFinal | app/web_hub.go:193-195 | after it is unregistered a connection is in no later index, nothing is due to it, and its channel is never closed |
| HubRuns.RegisterEnters | app/web_hub.go:184-191 | a new connection is in the index, with an open channel that holds the greeting exactly if its session is valid |
| HubRuns.CachedUntilInvalidated | app/web_hub.go:197-200 | a connection keeps its cached session exactly until its user is invalidated while it is in the index |
| HubRuns.StopHangsUp | app/web_hub.go:249-257 | a stopped hub serves nobody any more, and has hung up exactly the connections in its index |
| HubRuns.RoomDecides | app/web_hub.go:205-232 | a message goes behind what waits in the channel when fewer than 256 do, and otherwise closes it and the connection is forgotten |
| HubState.ClosedAtMostOnce | app/web_hub.go:201-234 | over any run a channel is closed once at most, by the first message to send that finds it full, and by nothing else |
| ConnPump.Pump.Run | app/web_conn.go:157-219 | whatever the pump meets, it writes what is received up to where it ends, by a failing write, a closed channel, the end of the reader or a lost session, but for inbox messages met while the channel is at least half full; each event is numbered by how many came before |
| ConnPump.WrittenIsKept | app/web_conn.go:169-205 | that is an initial part, in order, of the messages received and not passed over, and all of them while the pump is still there |
| ConnPump.KeptOne | app/web_conn.go:178-190 | only inbox messages are passed over, and only while 128 or more messages wait |
| ConnPump.WrittenJoin | app/web_conn.go:165-218 | what a pump writes after some meetings is what it would write by itself if it is still there, with its ticker stopped if a check came before, and otherwise nothing |
| ConnPump.SessionCheck | app/web_conn.go:210-216 | a lost session token ends the pump at the next tick if and only if no tick came before |
| ConnPump.LateCheckPasses | app/web_conn.go:210-216 | a pump that writes on after the token was lost between two ticks |
| ConnPump.NumbersHaveNoGap | app/web_conn.go:192-199 | the numbers of successive events on the wire are successive, whatever was passed over |
| ConnPump.NothingPassedOver | app/web_conn.go:178-190 | below half full every message is written, in order |
| Cluster.StepBalances | clusters/cluster.go:71-90 | every step adds to what has landed at a hub what it takes from what is on its way, or what it publishes |
| Cluster.RunBalances | app/web_hub.go:287-316 | over any interleaving an event has landed at each hub it is meant for as often as it was published, but for copies on their way, and never anywhere else |
| Cluster.FanOutOnce | app/cluster_handlers.go:17-28 | once nothing is on its way, on each server the hub where a user's connections register has every event for the user exactly as often as it was published anywhere, no other hub has it, and sessions were dropped everywhere |
| Cluster.WorkShrinks | clusters/cluster.go:53-62 | each delivery takes one from the deliveries still to come, since handlers never publish |
| Cluster.WorkDone | clusters/cluster.go:92-107 | none is to come exactly when nothing is on its way |
| FanOut.DeliveredAsTaken | app/web_hub.go:184-247 | over any run of a hub, from any state, the copies of an event that a connection received or still has in its channel, and the times it was missed, are together the copies it had or got directly and the times the hub took the event |
| FanOut.WhoListens | app/web_conn.go:236-259 | who should have an event: of an event for a user their connections with a valid session, of one for everybody all valid ones that are not omitted nor outside its team |
| FanOut.ListenerMissesNothing | app/web_hub.go:214-247 | a connection that is registered and should have the event whenever it is taken misses none, unless its channel was closed |
| FanOut.EventReachesConnection | app/web_hub.go:287-342 | the same from publishing on any servers, for events for a user and for everybody: each connection on every server gets the event as often as it was published, less the times it was missed, and a listening one misses none |
| FanOut.EventReachesOnce | app/web_hub.go:287-342 | from the start of a hub, a connection that listens when the event is taken has got it exactly as often as it was published anywhere, or its channel was closed |
| TaskWait.RunSound | app/server.go:312-330 | counter, tasks, token and waiter agree in every interleaving |
| TaskWait.NoLostWakeup | app/server.go:312-330 | a waiter that is parked once every task has decremented and signalled has a token to take; the counter is never negative; receives are at most the tasks |
| TaskWait.ReturnsAtZero | app/server.go:326-330 | the wait returns exactly from a reading of zero |
| TaskWait.ReceivesBounded | app/server.go:326-330 | during a wait there is at most one receive for each task that signals, and one for a token left over |
| TaskWait.RunsAreBounded | app/server.go:312-324 | the steps of any interleaving are bounded by the tasks started |
| TaskWait.StopsOnlyWhenReturned | app/server.go:312-330 | nothing is stuck: only when the wait has returned and every task has finished is no step left but starting a task |
| Teams.RunStaysCapped | app/team.go:102-137 | over any run no team has more active members with live accounts than the cap, and no cached count is below the true one |
| Teams.SavedAllCapped | store/sqlstore/team_store.go:130-216 | a batch insert keeps the cap for every team in it at once |
| Teams.JoinedCapped | app/team.go:88-138 | so does joining or re-joining, checked against a count that may be stale |
| Teams.RefusedWithRoom | store/cachelayer/team_layer.go:15-30 | a team with room refuses someone if and only if they come back while a count at the cap is still cached, or without a cap |
| Teams.UncappedInsert | store/sqlstore/team_store.go:147-216 | with a negative maximum an insert fails for rows that are there already and for nothing else, and otherwise adds an active row for each new member and changes no other row |
| Teams.LeftForGood | app/team.go:102-137 | with a negative maximum whoever has left never comes back, in any run |
| Teams.UncappedRefuses | app/team.go:102-137 | a run after which someone who left is refused although there is no cap |
| Teams.StaleCountRefuses | store/cachelayer/team_layer.go:15-30 | a run after which an empty team refuses someone who comes back |
| Teams.StepKeepsAdminRow | app/team.go:502-550 | a team with an admin keeps an active admin row through every operation |
| Teams.RunKeepsAdminRow | app/team.go:630-661 | and through every run of joins, leaves, re-joins and role changes |
| TeamRows.StepWrites | app/team.go:102-137 | role and state of a membership after any call: coming back gives the role asked for, leaving takes it, a change sets it, nothing else touches either |
| TeamRows.StepEnters | store/sqlstore/team_store.go:130-216 | a new row is one that the call asked for, active and without points |
| TeamRows.RoleServed | app/team.go:630-661 | a role changes exactly when it is another one and takes no team its last admin |
| TeamRows.LeaveServed | app/team.go:502-550 | a member leaves exactly unless an admin |
| TeamRows.BatchServed | store/sqlstore/team_store.go:130-216 | a batch is inserted exactly when all rows are new and, under a cap, no team of it gets too many |
| TeamRows.JoinServed | app/team.go:88-137 | who may join, as a newcomer, a member or one who comes back |
| TeamRows.StepAccounts | store/cachelayer/team_layer.go:15-30 | a count is cached when asked for and dropped when a membership of the team is written; accounts are closed by deletion alone |
| Teams.StepKeepsLiveAdmin | app/team.go:630-661 | the last admin with a live account is lost if and only if that account is deleted |
| Teams.RunKeepsPoints | store/sqlstore/post_store.go:1319-1345 | through leaving, re-joining and changes of role, a member's points are those awarded, but what is awarded while they are away is lost for good |
| Teams.AwayGetsNothing | app/team.go:102-137 | a run in which someone comes back without the five points awarded meanwhile |
| TeamStore.TeamStore.SaveMultipleMembers | store/sqlstore/team_store.go:130-216 | every team is checked before any row is written, a row that exists undoes the insert, and the cached counts of the teams are dropped |
| TeamStore.TeamStore.GetActiveMemberCount | store/cachelayer/team_layer.go:15-30 | the cached count, or the true one, which is then cached |
| TeamStore.TeamStore.JoinUserToTeam | app/team.go:88-138 | the effect of joining on the tables and the cache, refusals included |
| TeamStore.TeamStore.LeaveTeam | app/team.go:502-550 | the effect of leaving, refused to admins |
| TeamStore.TeamStore.UpdateTeamMemberType | app/team.go:630-661 | the effect of a role change; fetching ten admins decides as counting them all would |
| SearchWords.SplitWords | model/search_params.go:69-97 | the one pass never slices out of range and gives the words of the recursive splitting |
| SearchWordsLaws.SplitLosesNothing | model/search_params.go:69-97 | the words put together are the text but for blanks |
| SearchWordsLaws.SplitNormal | model/search_params.go:73-92 | only plain words and whole phrases, ending perhaps in an unclosed phrase |
| SearchWordsLaws.NormalWords | model/search_params.go:73-92 | in such a list every word is non-empty and of one of the three forms |
| SearchWordsLaws.NormalSplitsBack | model/search_params.go:69-97 | any list of that form, joined by spaces, splits into itself |
| SearchWordsLaws.SplitIsFixedPoint | model/search_params.go:69-97 | splitting the words joined by spaces gives the same words, for every text |
| SearchMerge.Conjunction | store/sqlstore/post_store.go:660-683 | the posts that every sub-query found, each as the result received last has it, or a failure if one failed |
| SearchMerge.CommonIsIntersection | store/sqlstore/post_store.go:660-678 | a post is among them if and only if every sub-query found it, under its id and in a version that some sub-query returned |
| SearchMerge.CommonInAnyOrder | store/sqlstore/post_store.go:660-678 | in whatever order the results arrive, the same posts are found |
| SearchMerge.OrderMatters | store/sqlstore/post_store.go:630-678 | their versions are the same in every order if and only if the sub-queries agree on them |
| SearchMerge.VersionByArrival | store/sqlstore/post_store.go:630-678 | two orders of the same results that show a post with different points |
| SearchMerge.SearchPosts | store/sqlstore/post_store.go:660-716 | one page of the first 500 of a ranking of those posts, and how many there are of these; points, time of update or time of creation never grow along a page, by what was asked for, and no post cut off has more than one shown |
| SearchMerge.CutKeepsBest | store/sqlstore/post_store.go:685-698 | cutting keeps the order and drops no post better than one it keeps |
| SearchMerge.PagesConcatenate | store/sqlstore/post_store.go:702-715 | the pages of one ranking, one after the other, are the ranking |
| SearchMerge.PagesDisjoint | store/sqlstore/post_store.go:702-715 | no post is on two pages, and none on a later page ranks above one on an earlier page |
| DomainName.IsDomainName | model/utils.go:208-259 | accepts exactly the strings of the label grammar |
| DomainName.LabelsAreThePieces | model/utils.go:243-252 | the labels are the pieces between the dots |
| DomainName.ScannedPrefix | model/utils.go:223-255 | a name that has gone wrong stays wrong, which is why the scan may stop early |
| OAuthTokens.StepKeepsLinked | app/oauth.go:66-86 | every call keeps OAuth sessions and access data rows in one-to-one correspondence by token, with at most one row for each app and user |
| OAuthTokens.RunKeepsLinked | app/oauth.go:199-329 | so does every run |
| OAuthTokens.RunKeepsApart | app/oauth.go:199-329 | in every reachable state ids drawn for one purpose are never those of another, which the laws below start from |
| OAuthTokens.RefreshRotates | app/oauth.go:305-329 | a refresh succeeds exactly with the secret of the app that calls, whichever that is, for a live account; it gives the new pair, which works, and retires the old access and refresh tokens and no other session |
| OAuthTokens.RefreshBoundToClient | app/oauth.go:279-303 | a refresh token stays with its client if and only if that client calls or the call is refused for other reasons |
| OAuthTokens.ExchangeBoundToClient | app/oauth.go:199-231 | the same for codes |
| OAuthTokens.OtherAppExchanges | app/oauth.go:199-303 | a run in which one app exchanges the code of another, and that one refreshes the token |
| OAuthTokens.RunKeepsRetired | app/oauth.go:182-197 | a retired code or token is never valid again |
| OAuthTokens.ExchangeGrants | app/oauth.go:210-278 | an exchange succeeds exactly for a redeemable code, gives a pair that works, new just when none is left that has not expired, and spends the code |
| OAuthTokens.CodeIsSpent | app/oauth.go:210-278 | a code is exchanged successfully at most once, whatever happens in between |
| OAuthTokens.AccessEnds | store/sqlstore/oauth_store.go:97-150 | deauthorising or deleting an app ends its sessions, for the user or for all, and no others |
| OAuthTokens.AccountEnds | app/session.go:69-88 | revoking all sessions of a user leaves no session and no access data of theirs, and all of the others |
| OAuthRows.StepEnds | app/session.go:52-88 | a session and its access data end exactly by being signed out, with their account, with the access of their app, or by being replaced, and else stay as they are |
| OAuthRows.StepMakes | app/oauth.go:210-329 | a new session was signed in to, or drawn by an exchange or refresh that succeeded, with the app, user, refresh token and expiry of that call |
| OAuthRows.StepCodes | app/oauth.go:88-235 | a code is made when an existing app is allowed, and goes when it is exchanged or asked for too late |
| OAuthRows.ExchangeAnswers | app/oauth.go:210-278 | an exchange answers with the pair that has not expired, or with the one drawn |
| OAuthStore.OAuthStore.GetAccessTokenForCode | app/oauth.go:199-278 | done row by row, with the response and the tables of the specification |
| OAuthStore.OAuthStore.GetAccessTokenForRefresh | app/oauth.go:279-303 | the same for a refresh |
| OAuthStore.OAuthStore.RevokeSession | app/session.go:52-67 | ends the one session, and its access data if it has any |
| OAuthStore.OAuthStore.RevokeAllSessions | app/session.go:69-88 | the loop ends exactly the user's sessions and their access data |
| OAuthStore.OAuthStore.DeauthorizeOAuthAppForUser | app/oauth.go:331-358 | the loop ends exactly the sessions of that app and user |
| OAuthStore.OAuthStore.DeleteApp | store/sqlstore/oauth_store.go:114-150 | the ordered cascade finds the app's sessions through its access data before that goes |
| ViewCounter.Conservation | store/cachelayer/post_layer.go:21-70 | over any run with expiries, flushed, buffered and lost views are the admitted ones and one for each start of a counter; they are the admitted ones alone if and only if none was started |
| ViewCounter.FourViewsAreFive | store/cachelayer/post_layer.go:41-66 | four viewers of a new post are written as five views |
| ViewCounter.RunKeepsSmall | store/cachelayer/post_layer.go:52-66 | the buffer stays below five |
| ViewCounter.RunKeepsFiled | store/sqlstore/post_store.go:1900-1928 | a post's views are five for each of its history rows |
| ViewCounter.ViewedOnce | store/cachelayer/post_layer.go:31-37 | a viewer is counted once until the entry that remembers the viewer expires |
| ViewCounter.CountsUnlessRemembered | store/cachelayer/post_layer.go:31-70 | over any run a view counts exactly when its viewer was not seen before, or was forgotten since |
| ViewCounter.PostViews.ViewPost | store/cachelayer/post_layer.go:21-70 | reads, resets and increments the cached counter as the specification says |

## Left out

- HTTP handlers, permissions, JSON, e-mail, notifications, metadata and full-text matching: plumbing around the
  modelled state, or results taken as given. A sub-query's limit of 2500 rows belongs to the given results.
- Interleavings inside one table operation: counters are read outside the transaction in the source, and the laws on
  tables are laws of operations that run one after the other.
- Ids, tokens and codes are parameters that must be new where the source draws them at random; clocks are parameters;
  the hash of user ids is any fixed function of the server.
- Tag rows and their PostCount, file rows, props, field length checks and the API's lock guard on edits
  (`api/post.go:677`): each is settled by reading one branch, or does not bear on the laws.
- Inserts and commits are taken to succeed, but for the failures that depend on the rows; integers are unbounded,
  the cache generation among them.
- `PostStore.Store` has no methods for locking, protecting and accounts; those are functions in `PostTables` and take
  part in every run.
- Reviews are rejected and completed on public posts only, as the handlers demand (`api/review.go:160-215`).
- HubIndex.HubConnectionIndex.Add: connections are values that stand for their pointers, and their channels are a
  map in the hub; a removed connection is not kept alive by the unused tail of a backing array.
- Hub.Hub.Start: the restart after a panic, which no request here can cause, and the count of connections kept for
  statistics are not modelled. Which cached sessions are forgotten is modelled, but whether a session is valid is given
  with each broadcast (`app/web_conn.go:93-117`, `:261-275`).
- ConnPump.Pump.Run: write deadlines and the pump that reads are left out; when the latter ends is given.
- Cluster.FanOutOnce: the broker is taken to hand every message to every subscriber once, and cluster ids to be distinct.
- SearchWords.SplitWords: texts are sequences of characters; bytes that are not valid UTF-8 are not modelled.
- Search flags and the parameter lists built from the words (`model/search_params.go:99-330`), and ParseTags and
  ParseReplies: loops that sort words into lists.
- SearchMerge.SearchPosts: the library's sort is replaced by an insertion sort, and only its being some ranking is used.
- The implicit OAuth flow: it saves access data without looking for a previous row, so the correspondence is stated
  for the code flow.
- OAuthTokens.StepKeepsLinked: redirect checks at the time of authorisation are left out.
- Removing a whole team, the memberships of groups, and the allowed e-mail domains checked before joining.
- LruCache.LRU.Get: encoding and decoding of values is left out; locks make each call one step.
- ViewCounter.PostViews.ViewPost: an entry may expire between two calls, not between the cache operations of one call.
