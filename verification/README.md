# A model of occase-db and occase-notify

The project models the parts of the server whose correctness rests on invariants across many callbacks:

- **Chat delivery.** One node (the class `worker` with its WebSocket sessions) and the Redis it talks to,
  as a step system. An event is a new connection, a message from a client, the end of a read, a write, a
  close, a pong, the execution of the oldest batch of commands by Redis, the handling of the oldest reply,
  a store, a fetch or a publication (of presence, say) by another node, or a signal. `Nodes.dfy` and `Sessions.dfy` hold the handlers as
  functions on the state, `Server.dfy` holds them as classes that change their fields in place; every
  method is proved equal to its function, and the theorems are about every run of the step system.
- **Posts.** The sorted index `channel` (`Channel.dfy`, a class), specified by functions on sequences
  (`PostIndex.dfy`, `PostQueries.dfy`, `Removals.dfy`), and the JSON form of a post (`Posts.dfy`).
- **Push notifications.** The notifier's tokens and timers as a class (`Notifier.dfy`), specified by a step
  system over timed traces (`Notifications.dfy`).
- **User ids.** The hexadecimal digests of `Crypto.dfy`, on whose alphabet routing relies.

Reading order for chat delivery: `Messages`, `Sessions`, `Redis`, `Nodes`, `Systems`; then `NodeInvariant`,
`Wire`, `Effects` and `Safety` (the invariant and its first consequences); `Answers` (what every event tells
clients and Redis, entry by entry and command by command); then `Conservation`, `Discards`,
`Acks`, `Outgoing`, `Subscriptions`, `Departed`, `Routing`, `Origins`, `Ownership`, `Delivery`, `Settling` and
`Counterexamples`.

`dafny verify dfyconfig.toml` checks everything.

## Assumptions

- The commands that one call of `send` appends reach Redis together and are executed without another
  client's command in between. `LRANGE` and `DEL` are pipelined, not a transaction; `InterleavedPushIsLost`
  shows exactly what is lost otherwise.
- Commands are executed and answered in order, and the connection to Redis is never re-established
  (`on_hello` runs once).
- Keyspace notifications come from Redis itself; no other client publishes such a text.
- Nothing is written successfully on a session after its read loop has ended.
- `chat_msg_prefix` ends in a colon (src/occase-db.cpp:135), and the posts channel starts neither with
  `__keyspace@0__:` nor with `pc:`.
- History variables: a parcel carries the user it was accepted for, a range command carries the string
  that was queued with it and its reply repeats both that and the key, a session remembers what it was given to send and what it has written, and a
  node remembers what it has accepted. No step reads them.

## Where the code and its documentation differ

The model follows the code. Each difference comes with the exact condition under which the documented
behaviour holds, or with the amount by which it is missed.

- `on_push` queues the key of the list (src/worker.cpp:163), while the header promises the user id
  (src/worker.hpp:56-60). The field `pushed` of `Redis.Config` selects either. As written, a message
  fetched after a notification reaches no session and is stored again under a key with two prefixes, which
  the node never reads (`NotificationReply`, `NotifiedMessageIsNotDelivered`, `DoublyPrefixedStays`).
  `RefetchKey` names that key; the theorems without a condition on `pushed` hold for both values.
- A login whose field `token` is neither a string nor empty enters the map of sessions and then fails by an
  exception (src/worker.cpp:492-527): the node does not listen for the user until the session has ended
  (`NextExact`, `RunAgrees`, `MalformedTokenIsNotListenedFor`). The empty string is not an empty JSON
  value, so it is published and erases the user's token.
- A login overrides the user's older session and abandons its unsent messages (src/worker.cpp:493-499).
  They have a bucket of their own, `Discarded`. The overridden session, already closing, can log in again
  as another user before its read loop ends, and then carries the messages to that user
  (`NextRouted`, `OnlyClosingSessionsMisroute`, `ClosingSessionCanMisroute`).
- A chat message without `post_id` or `id` is stored or forwarded before its missing field is noticed, and
  then not acknowledged (src/worker.cpp:599-616); see `Answers.AckComesAfterPlacement`.
- `channel::get` does not compare the id it finds (src/channel.cpp:25-28): `delete_post` may file another
  post under the requested id (`FiledIsRight`). It takes the requested id from the stored posts before anyone
  checks who asks, while the index obeys the owner and the admin only: a request of anyone else leaves the
  post in the index but not in Redis (`RequestKeepsMirror`).
- `channel::count` starts from an uninitialised variable (src/channel.cpp:137), a parameter of `CountPosts`.
- `channel::query` does not use its limit (src/channel.cpp:121-133).
- `load_visualizations` stops advancing at the first post without a counter (src/channel.cpp:154-160);
  `WalkStalls` and `WalkIsGreedy` specify the walk as it is.

## Model

| member | source | states |
|---|---|---|
| `Crypto.HashToString` | src/crypto.cpp:33-43 | the loop writes the high and the low digit of every byte in order |
| `Crypto.HexRoundTrip` | src/crypto.cpp:23-43 | the digits determine the bytes: reading them back gives the hash |
| `Crypto.HexInjective` | src/crypto.cpp:33-43 | different hashes have different user ids |
| `Crypto.MakeHexDigest` | src/crypto.cpp:81-99 | a user id is empty exactly for an empty user or a key of the wrong size, and otherwise 32 lower-case hexadecimal digits |
| `Crypto.UserIdIsHash` | src/crypto.cpp:81-99 | a user id, read back, is the hash of user and key |
| `Crypto.SameUserId` | src/crypto.cpp:93-98 | two users and keys have the same user id exactly if their hashes collide |
| `Crypto.PrefixedIsNoDigest` | src/crypto.cpp:13 | no text behind a prefix that ends in a colon is a user id |
| `Sessions.SendOk` | src/ws_session.hpp:253-262 | send keeps the discipline of the session: one write in flight, of the front of the queue; written followed by queue is what was sent |
| `Sessions.OnWriteOkOk` | src/ws_session.hpp:128-151 | so does the completion of a write, which never finds an empty queue |
| `Sessions.SendAppends` | src/ws_session.hpp:253-262 | what is sent, persistent or not, is appended, and a write starts exactly if nothing was waiting and the session is not closing |
| `Sessions.SendAllInOrder` | src/worker.cpp:675-680 | several messages are sent in their order |
| `Sessions.ShutdownOnce` | src/ws_session.hpp:264-279 | a session is closed once, also after the close has ended |
| `Sessions.PongsClose` | src/ws_session.hpp:236-239 | the second pong, not the first, disconnects a client that has not logged in, and none one that has |
| `Server.WsSession.Send` | src/ws_session.hpp:253-262 | appends to the queue, and starts a write exactly if the queue was empty and the session is not closing |
| `Server.WsSession.OnWrite` | src/ws_session.hpp:128-151 | a failed write leaves the queue alone; a completed one pops the front and starts the next write if there is one |
| `Server.WsSession.Shutdown` | src/ws_session.hpp:264-279 | closes once |
| `Server.WsSession.OnPong` | src/ws_session.hpp:236-239 | the second pong without a login closes the session |
| `Server.WsSession.RemoveTransient` | src/ws_session.hpp:178-184 | the in-place compaction moves exactly the persistent entries to the front and keeps their order |
| `Server.WsSession.TakePersistent` | src/ws_session.hpp:178-196 | what is handed back is exactly the persistent messages of the queue, in order |
| `Server.Worker.constructor` | src/worker.cpp:45-62 | a node starts with its configuration and without sessions, entries and requests |
| `Server.Worker.StoreChatMsg` | src/worker.hpp:74-100 | pushes all messages to the user's list in one batch, and sends nothing when there is none |
| `Server.Worker.Enroll` | src/worker.cpp:490-514 | the new session replaces the entry of an older one, which is shut down and loses its user id |
| `Server.Worker.OnAppLogin` | src/worker.cpp:471-575 | the whole login, including the failing branches and the exception after the entry in the map |
| `Server.Worker.GetChatToField` | src/worker.cpp:577-587 | the fixed key of the admin stands for the admin's id |
| `Server.Worker.Dispatch` | src/worker.cpp:599-611 | a message is stored when the addressee is not in the map and sent to the addressee's session when it is |
| `Server.Worker.OnAppChatMsg` | src/worker.cpp:589-628 | a chat message: sender and addressee rewritten, dispatched, acknowledged |
| `Server.Worker.OnAppPresence` | src/worker.cpp:630-653 | a presence message is published or sent, and never persistent |
| `Server.Worker.OnAppPublish` | src/worker.cpp:405-469 | a publication and its persistent acknowledgement, with the three ways in which it fails |
| `Server.Worker.OnApp` | src/worker.cpp:254-276 | which commands are open to a session that is logged in and to one that is not |
| `Server.Worker.HandleEv` | src/ws_session.hpp:153-168 | a failed login and every unknown or malformed message close the session |
| `Server.Worker.OnRead` | src/ws_session.hpp:79-84 | a message is handled and the next read started |
| `Server.Worker.OnReadError` | src/ws_session.hpp:66-77 | a failed read finishes the session and starts no other read |
| `Server.Worker.Finish` | src/ws_session.hpp:170-202 | the count goes down, and the persistent messages of a session with a user go back |
| `Server.Worker.OnSessionDtor` | src/worker.cpp:225-252 | erases the entry, unsubscribes, and only then stores the messages again |
| `Server.Worker.OnPong` | src/ws_session.hpp:236-239 | a pong of one session touches nothing else |
| `Server.Worker.OnClose` | src/ws_session.hpp:87-101 | the end of a close releases the session and does nothing else |
| `Server.Worker.OnRun` | src/ws_session.hpp:124-125 | an accepted session is counted and reads |
| `Server.Worker.OnWrite` | src/ws_session.hpp:128-151 | the completion of a write of one session touches nothing else |
| `Server.Worker.OnDbChatMsg` | src/worker.cpp:661-688 | fetched messages are sent to the user's session in order, or stored again |
| `Server.Worker.OnLRange` | src/worker.cpp:188-198 | a reply is attributed to the front of the queue, which is popped |
| `Server.Worker.OnDbPresence` | src/worker.cpp:764-785 | a presence message for a user without a session is dropped |
| `Server.Worker.OnPush` | src/worker.cpp:127-186 | a stored message causes a fetch, with the key or the user id queued; presence messages are passed on |
| `Server.Worker.OnReply` | src/worker.cpp:127-198 | ranges go to on_lrange, pushed texts to on_push |
| `Server.Worker.ShutdownImpl` | src/worker.cpp:823-845 | every session of the map is closed once, then Redis is asked to quit |
| `Redis.ExecBatchCounts` | src/worker.cpp:155-166 | executing a batch with its LRANGE and DEL in pairs loses and duplicates no message |
| `Redis.InterleavedPushIsLost` | src/worker.cpp:158-159 | what another client pushes between the LRANGE and the DEL is lost, exactly that |
| `NodeInvariant.OnReadOk` | src/ws_session.hpp:66-85 | every message a client can send keeps the node's invariant |
| `NodeInvariant.OnReadErrorOk` | src/ws_session.hpp:170-202 | so does the end of a session, which removes at most its own entry |
| `Safety.NextOk` | src/worker.cpp:254-276 | the global invariant is kept by every event |
| `Safety.RunOk` | src/worker.cpp:127-198 | it holds in every state of every run |
| `Safety.NoFault` | src/worker.cpp:684-687 | in every run: no assertion fails, no empty queue is popped, and every entry of the map refers to a session that is still owned, so that locking its weak pointer succeeds |
| `Safety.MapIsExact` | src/worker.cpp:490-514 | in every run: an unfinished session has user id u exactly if the map gives it for u |
| `Safety.EndEvictsOnlyItself` | src/worker.cpp:500-513 | in every run, after any chain of relogins: the end of a session evicts itself and nobody else, and that of an overridden session changes nothing |
| `Safety.WriteDiscipline` | src/ws_session.hpp:128-151 | in every run: one write in flight, of the front of the queue; nothing reordered; a non-empty queue of an open session is being written |
| `Safety.TeardownIsExact` | src/ws_session.hpp:124-173 | in every run: one outstanding read until finish and none after it, finish at most once, and number_of_sessions exact and never negative |
| `Safety.RepliesMeetRequests` | src/worker.cpp:188-198 | in every run: user_ids_chat_queue is, in order, the tags of the ranges not answered, and its front belongs to the next reply |
| `Conservation.Conserved` | src/worker.cpp:589-682 | in every run: the accepted persistent messages are exactly those pending, stored, fetched, queued, written, discarded by a relogin, or taken by another node |
| `Discards.LoginAside` | src/worker.cpp:493-514 | a relogin discards exactly what waits in the overridden session |
| `Discards.NextDiscards` | src/worker.cpp:493-514 | an event that is not a login discards nothing, and the discarded messages shrink by exactly what an overridden session still writes |
| `Discards.NothingDiscarded` | src/worker.cpp:493-499 | in a run without relogins nothing is discarded |
| `Effects.OnReadErrorSends` | src/worker.cpp:225-252 | at the end of a session exactly its persistent messages go to Redis, after the subscriptions have been given up |
| `Answers.AckComesAfterPlacement` | src/worker.cpp:577-628 | the message, field by field and with the admin's id, is pushed towards its addressee or stands in the addressee's session before the acknowledgement; the acknowledgement is sent exactly if post and id are there |
| `Answers.ChatAnswered` | src/worker.cpp:577-628 | the whole read of a chat message: what every session and Redis are told, and who is disconnected |
| `Answers.PresenceAnswered` | src/worker.cpp:630-653 | a presence message goes to the addressee's session on the node or else to the addressee's channel, and to nobody else |
| `Answers.PublishAnswered` | src/worker.cpp:405-469 | a publication is stored, announced and acknowledged with its id, refused with wrong credentials, or disconnects its sender |
| `Answers.LoginAnswered` | src/worker.cpp:471-575 | a login: user id, map, override, token, subscriptions, fetch and answer, for complete, refused, malformed and incomplete ones |
| `Answers.OtherAnswered` | src/worker.cpp:254-276 | everything else disconnects its sender and tells nobody anything |
| `Answers.ArrivalAnswered` | src/ws_session.hpp:103-126 | a new session is nobody's, has been told nothing and is being read |
| `Answers.StoreExecuted` | src/worker.hpp:89-97 | a store appends the messages to the list in their order and announces the last of them |
| `Answers.StoredThenFetched` | src/worker.cpp:155-166 | a fetch after a store is answered with the old messages and then the stored ones, in order, and empties the list |
| `Answers.FetchAnswered` | src/worker.cpp:661-682 | a fetched range goes, in order, to the session of its tag, or else is stored again in the same order |
| `Answers.NoticeAnswered` | src/worker.cpp:144-186 | a notification of a store asks for the list once; all others but presence leave the sessions alone |
| `Answers.EndAnswered` | src/worker.cpp:225-252 | the end of a session unsubscribes and then stores its persistent messages in order |
| `Answers.ShutdownAnswered` | src/worker.cpp:823-845 | a shutdown closes exactly the sessions in the map, then asks Redis to quit |
| `Acks.AckedIsAccepted` | src/worker.cpp:613-628 | in every run: there are never more acknowledgements with a sender, addressee, post and id than accepted messages with them |
| `Outgoing.NextSends` | src/worker.cpp:225-252 | the batches that each event adds, and nothing else |
| `Subscriptions.NextWatched` | src/worker.cpp:548-566 | how one event changes the subscriptions that hold once all commands are executed |
| `Subscriptions.NextExact` | src/worker.cpp:492-566 | one event keeps the agreement of map and subscriptions exactly if it is not a first login with a malformed token |
| `Subscriptions.RunExact` | src/worker.cpp:233-251 | in every run without such logins: subscribed to the notifications and the presence of u exactly if u is in the map |
| `Subscriptions.RunAgrees` | src/worker.cpp:514-548 | in all runs: only users in the map are listened for, and one that is not listened for has a closing session |
| `Subscriptions.RunNotOverlooked` | src/worker.cpp:548-566 | in every run: while the node listens for u and Redis holds messages for u, a notification or a fetch is on its way |
| `Departed.NextBudget` | src/worker.cpp:661-672 | for a user who is away, every fetch that is handled, whether a login or a notification caused it and under whatever value it was queued, uses up one unit of a finite budget |
| `Departed.FinitelyManyFetches` | doc/todo.txt:3-14 | a departed user causes finitely many rounds of notification, fetch and store, with the key queued as written or with the user id: no loop |
| `Routing.DigestBelongs` | src/worker.cpp:146-163 | a user id stands for one user only, as a key contains a colon |
| `Routing.FetchSessionsRouted` | src/worker.cpp:661-682 | what a fetch hands to a session was accepted for the user of that session |
| `Origins.HandedFromOwnList` | src/worker.cpp:155-198 | in every run, misrouting logins or not: what a fetch hands to a session is, in order and behind all else, all that the list of the session's user held when an earlier range was executed |
| `Routing.OnlyClosingSessionsMisroute` | src/worker.cpp:493-506 | only a login on a closing session can misroute |
| `Routing.NextRouted` | src/worker.cpp:471-514 | one event keeps every message on its way exactly if it is not such a login |
| `Routing.RunRouted` | src/worker.cpp:127-198 | in every run without such logins every message is on its way to its addressee, whatever on_push queues |
| `Ownership.GivenToAddressee` | src/worker.cpp:589-682 | in every run without such logins: every persistent message a session was given, it was given while the addressee was its user |
| `Ownership.AllWrittenToOwner` | src/ws_session.hpp:128-151 | so every delivered message has been delivered to its addressee |
| `Delivery.AddresseeConserved` | src/worker.cpp:127-252 | conservation addressee by addressee; what has been written was given to a session of the addressee |
| `Delivery.NothingLeftBehind` | src/worker.cpp:548-566 | with nothing under way, the list of a user with an open session is empty |
| `Delivery.HandedOver` | src/worker.hpp:56-61 | with nothing under way, every message for a user with an open session waits in that session, has been written by a session that was the user's at the time, was discarded or taken; as written, or lies under the doubly prefixed key |
| `Settling.Settles` | src/worker.cpp:127-198 | from every state of every run, Redis and its replies alone take at most as many steps as there is work |
| `Settling.CanSettle` | src/worker.cpp:127-198 | every run without a shutdown can be continued by such steps until no command and no reply is left |
| `Settling.SettledHandsOver` | src/worker.hpp:56-61 | the guarantee of delivery: however such steps follow one another, they end within the work there is, and then the messages of a user who was logged in are handed over |
| `Delivery.PresenceReply` | src/worker.cpp:764-785 | a presence message that arrives goes to the session of its user, or to nobody, and is never stored |
| `Delivery.NotificationReply` | src/worker.cpp:155-166 | the reply to a notification reaches the user's session exactly if the user id was queued |
| `Delivery.DoublyPrefixedStays` | src/worker.cpp:155-166 | a list under a doubly prefixed key only grows |
| `Counterexamples.NotifiedMessageIsNotDelivered` | src/worker.cpp:163 | a run, as written, in which a stored message is lost to a user who is online |
| `Counterexamples.MalformedTokenIsNotListenedFor` | src/worker.cpp:516-527 | a run in which a user in the map is not listened for |
| `Counterexamples.ClosingSessionCanMisroute` | src/worker.cpp:500-513 | a run in which a message changes its owner |
| `Counterexamples.PresenceArrives` | src/worker.cpp:174-180 | a run in which a presence message of another node reaches the session of its user |
| `Ordering.Trichotomy` | src/post.hpp:81-84 | ids are totally ordered |
| `PostIndex.InsertIsStable` | src/channel.cpp:31-45 | insertion puts the post behind every post that is not greater and before every greater one, and leaves all others in place around it |
| `PostIndex.InsertSorted` | src/channel.cpp:31-45 | insertion keeps the posts sorted |
| `PostIndex.RunSorted` | src/channel.hpp:20-21 | the posts are sorted after every trace of commands |
| `PostIndex.SortedByBuckets` | src/channel.hpp:20-21 | a sorted vector is determined by its posts id by id |
| `PostIndex.BucketOfRemove` | src/channel.cpp:74-93 | a removal takes the first post of the id, if the owner or the admin asks for it, and nothing else |
| `PostIndex.BucketOfBump` | src/channel.cpp:62-72 | a visualization counts for the first post of the id and nothing else |
| `PostIndex.RunIsBucketwise` | src/worker.cpp:690-742 | every trace acts on each id like a queue: published at the back, deleted and counted at the front |
| `PostIndex.ApplyIsShelve` | src/worker.cpp:690-742 | one command acts like on a map of posts exactly if it does not publish an id that is present |
| `PostIndex.RunIsShelveAll` | src/worker.cpp:690-742 | with distinct ids every trace leaves the vector equal to the map |
| `PostIndex.AgreesOnce` | src/channel.hpp:20-21 | that vector is unique |
| `PostIndex.DisappearsByDelete` | src/channel.cpp:74-93 | a post disappears only by a deletion from its owner or the admin |
| `PostIndex.LoadsAgree` | src/worker.cpp:200-209 | two loads give the same vector exactly if they agree on the order of posts that share an id |
| `PostIndex.LoadOrderIrrelevant` | src/worker.cpp:200-209 | with distinct ids every permutation of the stored posts gives the same vector |
| `PostIndex.GetAgrees` | src/channel.cpp:14-29 | the binary search finds what the linear search finds if the id is present, and otherwise the next greater id, or the empty post if there is none |
| `Removals.FiledIsRight` | src/worker.cpp:318-337 | delete_post files the right post exactly if there is one, and nothing exactly if all ids are smaller |
| `Removals.RequestKeepsMirror` | src/worker.cpp:304-337 | after a deletion request, index and stored posts agree exactly if the post was not there or its owner or the admin asked |
| `PostQueries.QuerySelects` | src/channel.cpp:109-133 | a query returns, in order, the posts at exactly the positions at which location and product both extend the query's |
| `PostQueries.QueryRefines` | src/channel.cpp:95-133 | extending the codes of a query selects from the former result, in order |
| `PostQueries.LeftmostIsBest` | src/channel.cpp:149-161 | greedy matching is optimal: no embedding reaches further, or any post further to the left |
| `PostQueries.EmbedsIffReached` | src/channel.cpp:149-161 | a prefix of the ids embeds in the keys exactly if it is no longer than the greedy match |
| `PostQueries.WalkUpdates` | src/channel.cpp:149-161 | each post is updated with the counter it is greedily matched with, or left as it is |
| `PostQueries.WalkIsGreedy` | src/channel.cpp:149-161 | the walk updates exactly the longest prefix of posts whose ids embed in the keys, and changes no id |
| `PostQueries.WalkStalls` | src/occase-db-tests.cpp:651-671 | a post without a counter stops the walk |
| `Channels.UpperBound` | src/channel.cpp:37-42 | the binary search ends at the first greater id |
| `Channels.LowerBound` | src/channel.cpp:19-23 | the binary search ends at the first id that is not less |
| `Channels.IsChildOf` | src/channel.cpp:95-107 | the loop decides the prefix order |
| `Channels.Passes` | src/channel.cpp:109-119 | a post passes exactly if location and product both extend the query's |
| `Channels.Channel.AddPost` | src/channel.cpp:31-45 | push, binary search and rotation amount to Insert |
| `Channels.Channel.GetPost` | src/channel.cpp:14-29 | the first post whose id is not less, or the empty post |
| `Channels.Channel.OnVisualization` | src/channel.cpp:62-72 | amounts to Bump |
| `Channels.Channel.RemovePost` | src/channel.cpp:74-93 | amounts to Remove, and reports whether it removed |
| `Channels.Channel.QueryPosts` | src/channel.cpp:121-133 | the loop computes Query, whatever the limit |
| `Channels.Channel.CountPosts` | src/channel.cpp:135-147 | the count is the number of results plus what the variable held, hence right exactly if that is zero |
| `Channels.Channel.LoadVisualizations` | src/channel.cpp:149-161 | the two-pointer loop computes Walk and keeps the posts sorted |
| `Channels.Channel.OnDbChannelPost` | src/worker.cpp:690-762 | one command of the posts channel amounts to Apply |
| `Channels.Channel.OnHvals` | src/worker.cpp:200-209 | the stored posts are applied one after the other |
| `Channels.Channel.DeletePost` | src/worker.cpp:299-340 | what is sent: the post that is filed, the id that is taken from the stored posts, and the delete command with the requester's id |
| `Posts.EraseQueries` | src/post.cpp:42-50 | every image is cut at its first question mark |
| `Posts.RoundTrip` | src/post.cpp:8-51 | writing and reading a post cuts its images and changes nothing else; it gives the post back exactly if no image has a question mark, and a second round changes nothing |
| `Posts.FieldsAreRead` | src/post.cpp:26-40 | every field is read under its own name, and all but the visualizations have to be there |
| `Posts.MissingVisualizations` | src/post.cpp:30 | a post without visualizations is read with zero |
| `Posts.ReloadIsIdentity` | src/post.cpp:8-51 | a post that has been read once survives storage and reload |
| `Notifications.TracksStep` | src/notifier.cpp:71-233 | every event keeps tokens, pending waits, deadlines and messages in step with the trace |
| `Notifications.OneWait` | src/notifier.cpp:101-120 | in every trace: at most one pending wait for each user |
| `Notifications.ArmerIs` | src/notifier.cpp:71-180 | the message a wait belongs to is the latest that met a token, with nothing disarming the timer since |
| `Notifications.ExpiresIff` | src/notifier.cpp:97-120 | a timer can expire exactly if such a message exists and the interval has passed |
| `Notifications.MessageRearms` | src/notifier.cpp:71-125 | a token that met a message stays until the timer is disarmed, so every later message arms it again |
| `Notifications.Debounce` | src/notifier.cpp:127-162 | in every trace: a notification is for the latest message to its user, with no message, deletion or erasure since and the interval passed, goes to the latest token with the message's nick, and its text is the body cut to the limit |
| `Notifications.ComposeCarries` | src/notifier.cpp:145-153 | something is sent exactly if body and nick are there and the limit is not negative; it names user, token and nick and carries the longest prefix of the body within the limit |
| `Notifications.DistinctMessages` | src/notifier.cpp:127-162 | two expiries are never armed by the same message |
| `Notifications.HGetAllAt` | src/notifier.cpp:303-315 | loading the tokens keeps the entries there are and takes the first value of each new key |
| `Notifiers.Notifier.HandleNtfMessage` | src/notifier.cpp:71-125 | a message arms the timer of a user with a token and replaces a pending wait; otherwise nothing happens |
| `Notifiers.Notifier.HandleNtfDel` | src/notifier.cpp:164-180 | a deletion cancels the wait and keeps token and message |
| `Notifiers.Notifier.HandleNtfPublish` | src/notifier.cpp:182-240 | a token is inserted, replaced without touching the timer, or erased with it when it is empty |
| `Notifiers.Notifier.HandleHGetAll` | src/notifier.cpp:303-315 | the loop over keys and values amounts to OnHGetAll |
| `Notifiers.Notifier.HandleTimeout` | src/notifier.cpp:127-162 | what an expired timer sends, and when a missing field keeps it from sending |

## Left out

- Sockets, TLS, the acceptor, HTTP routing and the WebSocket handshake: only the events they deliver are modelled.
- Reconnection to Redis: `posts_` and `user_ids_chat_queue` are not reset in `on_hello` (src/worker.cpp:69-91), so a second connection would load every post twice.
- Expiry of keys in Redis: `EXPIRE` is a command without effect on the lists.
- JSON text: messages are records whose missing or mistyped fields are `None`, a post is a map of fields.
- The libsodium hash is an arbitrary function to 16 bytes; random passwords and post ids are parameters.
- FCM delivery (src/ntf_session.cpp): a notification is the value that would be sent.
- The join between the keys of the notifier's map (user ids) and the keys of the delete events (src/notifier.cpp:288-289): the notifier is modelled over abstract keys.
- The tests of shape in the notifier's `on_push` (`is_pmessage`, `is_message`): the events arrive sorted.
- `remove_expired_posts`, a stub, and with it the expiry of posts.
- `make_dir`, `get_upload_credit`, `make_tokens_file_content`, logging, configuration, statistics and `main`: string assembly and plumbing.
- The worker's own copy of the posts is not a field of `Server.Worker`: the handlers that feed it are methods of `Channels.Channel`.
- Channels.Channel.OnHvals: does not model the request for the counters that follows; LoadVisualizations is called with the parsed counters.
- Channels.Channel.OnVisualization: does not model the overflow of a 32-bit counter, because `int` is unbounded here.
- Channels.Channel.AddPost: std::rotate is a function on sequences, because the library's algorithm is not part of the repository.
- Server.Worker.OnAppPublish: the post itself is reduced to its id, because only the acknowledgement travels through the sessions.
- Server.Worker.OnPush: messages of the posts channel change nothing in the sessions and are dropped here.
- Server.Worker.Finish: the contents of the queue after its messages have been moved out are unspecified in the source; the model takes them to be gone.
- Server.Worker.ShutdownImpl: what is sent to Redis after QUIT has been executed stays pending for ever; the shutdown of the acceptor is not modelled.
- Notifiers.Notifier.HandleTimeout: the expiry of a timer and its handler are one step, so a cancellation cannot fall between them; the iterator that the handler holds is the user's key, which leaves out its invalidation by a rehash.
