# Pixematch signalling server, modelled in Dafny

This project models the socket.io signalling server of Pixematch
(`backend/index.js`). The server pairs video-chat users first come, first
served. It relays WebRTC offers, answers, ICE candidates and chat messages
between the two sides of a session. It brokers friend requests between stable
user ids.

The model is one `Signalling.Server` class. Its fields are the server's
collections:

- `waitingQueue` is `queue`;
- `activeMatches` is `matches`;
- `videoChatUsers` is `videoUsers` and `browsingUsers` is `browsing`;
- `friendRequests` is `requests`, `userSockets` is `userSockets` and
  `blockedPairs` is `blocked`;
- `io.sockets.sockets` is the set `connected`;
- every `emit` is appended to `outbox`;
- every one-second `setTimeout` re-queue is an entry of `timers`, run by
  `FireTimer`.

Each socket event handler is a method whose `modifies` clause names the fields
it writes. Each method's `ensures` states the new state through pure
functions in the modules below.

| module | file | contents |
|---|---|---|
| `Types` | types.dfy | ids, user data, stored records, outbound events |
| `Registry` | registry.dfy | the records `register-presence` and `join` store, JavaScript truthiness and `||` defaults, ASCII lower-casing |
| `Queue` | queue.dfy | `indexOf`/`splice` removal, duplicate-freedom, the search for the first live waiting id |
| `Sessions` | sessions.dfy | writing and deleting a mirrored pair of session records |
| `Matchmaking` | matchmaking.dfy | `addToQueueAndMatch` as the recursive function `Enter`, its first-come reference `FirstComeStep`, the lobby invariants, and the properties of matchmaking and stopping |
| `Friends` | friends.dfy | the `"from:to"` block keys, the two-way block check, the sender lookup, the request record |
| `Signalling` | server.dfy | the `Server` class |

The invariant `Server.Valid()` is kept by every handler. It says:

- no id waits twice;
- every waiting id is a video-chat user without a session;
- every session record names a partner other than itself, whose record names
  it back;
- every id in a session is a video-chat user.

These rule out a self-match. They also rule out the crash `createMatch` would
hit on a missing user record. `Live()` says that no closed connection waits
or holds a session, and every handler that touches the lobby keeps it.

Things the model shows about the code:

- Each `addToQueueAndMatch` step leaves the queue either `[id]` or shorter
  than before (`Matchmaking.EnterKeepsQueueShort`). An id is pushed only when
  the queue is empty after the dead heads are shifted off, so `queuePosition`
  is always 1. The other handlers only remove ids from the queue, so it
  should never hold more than one id. That is an inference from these
  per-step facts: `|queue| <= 1` is not part of `Server.Valid()`.
- A re-queue timer whose partner is still connected always runs
  `addToQueueAndMatch` for that partner. That call first tears down whatever
  session the partner formed in the meantime. The other side of that new
  session is left with no session, no queue place and no event
  (`Matchmaking.RequeueStrandsPartner`, `Signalling.Server.FireTimer`). The
  timer is therefore not harmless when the partner was re-matched before it
  fired. The model follows the code.
- `cancel-friend-request` notifies the requester only if the requester is
  registered in `userSockets`. The model follows the code.
- Block keys are the strings `from + ":" + to`, as the code builds them.
  They identify the ordered pair when the first id holds no colon
  (`Friends.PairKeyInjective`). Ids with colons can collide
  (`Friends.PairKeyCollision`).

Modelling choices:

- Connection ids are naturals handed out by `Connect` from a counter, so an id
  is never reused (`ConnectionsFresh`).
- Friend-request ids come from a second counter in place of
  `req_<time>_<random>`.
- The clock `Date.now()` is the parameter `now`; the room id of an accept is
  `Room(now)`.
- The transport drops a socket from `io.sockets.sockets` before it emits
  `disconnect`, so `Disconnect` removes the id from `connected` first and then
  runs `handleDisconnect`.
- All timers have the same one-second delay, so they fire in the order they
  were scheduled: `FireTimer` runs the oldest one.
- The default flag of a record is the three characters U+00F0 U+0178 U+0152
  that the source file holds (a globe emoji stored in the wrong encoding), not
  the emoji itself.

## Model

| member | source | states |
|---|---|---|
| Queue.IndexFrom | backend/index.js:354 | the result is -1 exactly when `x` is absent from position `k` on; otherwise it is the first position from `k` holding `x` |
| Queue.IndexOf | backend/index.js:354 | `indexOf`: -1 exactly when `x` is absent, otherwise the first position holding `x` |
| Queue.Without | backend/index.js:353-356 | the queue is unchanged when `x` is absent; otherwise it is one shorter, and the ids before and after the first `x` keep their places |
| Queue.WithoutMembers | backend/index.js:353-356 | the removal adds no id and keeps every id other than `x` |
| Queue.WithoutDistinct | backend/index.js:353-356 | on a queue without duplicates, the removal leaves no `x` and adds no duplicate |
| Queue.DistinctDrop | backend/index.js:254 | shifting ids off the front of a duplicate-free queue keeps it duplicate-free |
| Queue.FirstLive | backend/index.js:253-267 | the first position holding an open connection, with every id before it closed; `None` exactly when every id is closed |
| Registry.ToLower | backend/index.js:82 | the same length, no upper-case ASCII letter left, other characters unchanged, upper-case letters shifted by 32 |
| Registry.CanJoin | backend/index.js:69 | `join` is accepted exactly when the name is present and non-empty, the age is present and non-zero, and the gender is present and non-empty |
| Registry.JoinProfile | backend/index.js:78-90 | the `join` record keeps the id, the name and the age, and stores the gender lower-cased, keeps the three lists or uses `[]`, keeps a truthy bio or uses the empty string, keeps a truthy country, flag and mode or uses `Unknown`, the default flag and `friendship`; it carries no `lastSeen` |
| Registry.PresenceProfile | backend/index.js:47-60 | the browsing record keeps the id and the name, stamps `lastSeen` with `now`, keeps a truthy age, gender and bio and otherwise uses 25, `other` and the greeting `Hi, I'm <name>!`, keeps the three lists or uses `[]`, and keeps a truthy country, flag and mode or uses `Unknown`, the default flag and `friendship` |
| Sessions.Pair | backend/index.js:279-287 | `createMatch` writes one record for each side, naming the other, both stamped `now`, and keeps every other entry |
| Sessions.PairSymmetric | backend/index.js:279-287 | pairing two different ids that have no session keeps every record mirrored |
| Sessions.Unpair | backend/index.js:358-364 | `removeFromMatch` deletes the record of `a` and of its partner and keeps every other entry |
| Sessions.UnpairSymmetric | backend/index.js:358-364 | deleting a session on both sides keeps every record mirrored |
| Sessions.UnpairEitherOrder | backend/index.js:324-325 | deleting the own record first (`handleStop`) or the partner's first (`removeFromMatch`) gives the same table |
| Sessions.UnpairRemovesTwo | backend/index.js:358-364 | on a mirrored table, tearing down a session removes exactly two records |
| Sessions.SymmetricEven | backend/index.js:383 | a mirrored table has an even number of records, so `activeMatches.size / 2` (here and at line 372) is a whole number |
| Matchmaking.AddUserValid | backend/index.js:78 | storing a video-chat record keeps the lobby invariants |
| Matchmaking.TearValid | backend/index.js:324-325 | tearing down the session of `id` keeps the invariants and keeps closed connections out |
| Matchmaking.LeaveValid | backend/index.js:348-350 | an id that leaves the queue, the session table and the video-chat records keeps the invariants, with the remaining lobby on open connections |
| Matchmaking.LeftValid | backend/index.js:249-250 | taking the arriver out of the queue and out of its session keeps the invariants over the same video-chat records, and the arriver is no longer queued |
| Matchmaking.DroppedValid | backend/index.js:249-254 | after the arriver leaves, the queue with any number of heads shifted off still meets the invariants and does not hold the arriver |
| Matchmaking.PairedValid | backend/index.js:254-258 | pairing the arriver with the waiting id at position `k` keeps the invariants; that id is a user other than the arriver |
| Matchmaking.GreetingsTellEachOther | backend/index.js:289-303 | two `matched` events: the arriver is told the partner's name and age and that it is the initiator, the partner is told the arriver's name and age and that it is not |
| Matchmaking.Enter | backend/index.js:245-273 | `addToQueueAndMatch` with its retry recursion; every result meets the lobby invariants |
| Matchmaking.FirstComeStep | backend/index.js:253-271 | the reference first-come step: pair with the first waiting id on an open connection, discarding the closed ones before it, or wait alone; its result meets the invariants |
| Matchmaking.EnterRetries | backend/index.js:259-262 | with a closed head and more ids behind it, the step is the same step on the rest of the queue |
| Matchmaking.EnterPairsHead | backend/index.js:253-258 | with an open head, the arriver is paired with it at once |
| Matchmaking.EnterWaits | backend/index.js:263-271 | with no head left to try, the arriver waits alone and is told position 1 |
| Matchmaking.EnterIsFirstCome | backend/index.js:245-273 | the retrying recursion equals the first-come reference step for every lobby that meets the invariants |
| Matchmaking.EnterPairsFirstLive | backend/index.js:253-267 | when the id at position `k` is the first open one: both sides get mirrored records stamped `now`, the ids behind it keep their order, and the arriver is told it is the initiator while the partner is told it is not |
| Matchmaking.EnterPairsIffLiveWaiter | backend/index.js:253-267 | the arriver gets a session exactly when some other waiting id is on an open connection |
| Matchmaking.EnterWaitsAlone | backend/index.js:264-271 | with no other open waiting id, the arriver is alone in the queue, without a session, and is told a position equal to the new queue length, 1 |
| Matchmaking.EnterNeverPairsDead | backend/index.js:249-258 | the arriver's partner is never itself and never a closed connection, and it was waiting |
| Matchmaking.EnterLeavesOthersAlone | backend/index.js:249-250 | an id that is not the arriver, not waiting and not the arriver's partner keeps its session record, or keeps having none |
| Matchmaking.EnterKeepsLobbyLive | backend/index.js:254-258 | entering an open connection keeps closed connections out of the queue and the session table |
| Matchmaking.EnterKeepsQueueShort | backend/index.js:261-271 | the result's queue is `[id]` or shorter than before, so a queue of at most one id stays that way |
| Matchmaking.RequeueStrandsPartner | backend/index.js:249-250 | re-entering an id that is in a session, as the timers at lines 317-321 and 340-344 do, leaves its partner with no session, no queue place and no event |
| Matchmaking.StopStep | backend/index.js:308-329 | `handleStop` on the lobby: tear down the session, then enter the stopper; the result meets the invariants |
| Matchmaking.StopKeepsLobbyLive | backend/index.js:308-329 | stopping an open connection keeps closed connections out |
| Matchmaking.StopFreesPartner | backend/index.js:311-328 | after a stop, the old partner has no session and no queue place |
| Matchmaking.TwoArrivals | backend/index.js:245-306 | at an empty lobby, A is told position 1; then B is paired with A as the initiator, both get mirrored records, and the queue is empty again |
| Friends.PairKey | backend/index.js:158-159 | the key is the first id, one colon, then the second id |
| Friends.IsBlockedSymmetric | backend/index.js:158-162 | the block check refuses a pair exactly when it refuses the pair in the other order |
| Friends.PairKeyInjective | backend/index.js:158-159 | equal block keys whose first ids hold no colon come from the same ordered pair |
| Friends.PairKeyCollision | backend/index.js:221 | the pairs ("a:b", "c") and ("a", "b:c") have the same key |
| Friends.CancelBlocksBothDirections | backend/index.js:221-222 | the one key that a cancel adds makes the two-way check of lines 158-165 refuse later requests in both directions |
| Friends.SenderProfile | backend/index.js:168-170 | a sender record exists exactly when `userSockets` maps the sender to a browsing or video-chat connection; the browsing record wins |
| Friends.NewRequest | backend/index.js:172-181 | the stored request is pending, carries the sender's name, age and interests, both user ids and the time |
| Signalling.Server.constructor | backend/index.js:27-38 | every collection starts empty and the invariants hold |
| Signalling.Server.Connect | backend/index.js:40 | a new connection gets an id that no one had, and nothing else changes |
| Signalling.Server.RegisterPresence | backend/index.js:44-63 | the browsing record is stored or replaced without validation |
| Signalling.Server.Join | backend/index.js:66-95 | when name, age or gender is falsy, an error is emitted and nothing else changes; otherwise the browsing record goes, the lower-cased video-chat record is stored, and the connection is entered into matchmaking |
| Signalling.Signal | backend/index.js:97-125 | an `offer`, `answer` or `ice-candidate` is forwarded as the event of the same kind, with the payload unchanged and tagged with the sender |
| Signalling.Notice | backend/index.js:311-315 | at most one `partner-disconnected` event, sent to the partner exactly when the id has a session and the partner's connection is open |
| Signalling.Requeue | backend/index.js:338-345 | at most one re-queue timer, for the partner, exactly when the id has a session and the partner's connection is open (also lines 314-321 of `handleStop`) |
| Signalling.Server.Relay | backend/index.js:97-125 | an offer, answer or candidate goes unchanged, tagged with the sender, to the partner and only to it, and the partner's record names the sender back; without a session it is dropped |
| Signalling.Server.ChatMessage | backend/index.js:127-145 | a message goes to the partner with the sender's name and the time, only when the sender has a session and a video-chat record |
| Signalling.Server.Stop | backend/index.js:308-329 | both session records go; a partner on an open connection is told and gets a re-queue timer; the stopper is entered at once; the old partner has no session and no queue place |
| Signalling.Server.EndSession | backend/index.js:309-326 | the session is deleted on both sides; only a partner on an open connection is notified and scheduled |
| Signalling.Server.Disconnect | backend/index.js:237-242 | the connection closes and leaves the queue, the session table and both registries; its partner is notified, and scheduled for a re-queue only when its connection is open; the invariants are kept |
| Signalling.Server.HandleDisconnect | backend/index.js:331-351 | the partner is notified and loses its record, and gets a re-queue timer only when its connection is open; the id leaves the queue, the session table and the video-chat records |
| Signalling.Server.DropPartner | backend/index.js:332-346 | the partner is told and its record deleted; it is scheduled only when its connection is open |
| Signalling.Server.FireTimer | backend/index.js:340-344 | the oldest timer fires (the `handleStop` timer at lines 317-321 is the same): an open partner is entered into matchmaking, a closed one changes nothing; a session the partner formed meanwhile is torn down and its other side is stranded |
| Signalling.Server.AddToQueueAndMatch | backend/index.js:245-273 | the recursive method does what `Enter` describes |
| Signalling.Server.CreateMatch | backend/index.js:275-306 | mirrored records and the two `matched` events, the first connection as the initiator |
| Signalling.Server.RemoveFromQueues | backend/index.js:353-356 | the queue loses the first occurrence of the id |
| Signalling.Server.RemoveFromMatch | backend/index.js:358-364 | the session of the id is deleted on both sides |
| Signalling.Server.RegisterFriendSystem | backend/index.js:152-155 | the stable user id is bound to this connection |
| Signalling.Server.SendFriendRequest | backend/index.js:157-190 | a blocked pair, in either direction, changes nothing; a sender without a record draws an id and stores nothing; otherwise a fresh pending request is stored and delivered only to a registered recipient |
| Signalling.Server.AcceptFriendRequest | backend/index.js:192-212 | an unknown id changes nothing; otherwise the same room id goes to the registered requester and to the acceptor, the request is deleted and no block is added |
| Signalling.Server.CancelFriendRequest | backend/index.js:214-235 | an unknown id changes nothing; otherwise exactly the key of the request's own direction is blocked, which refuses requests both ways, the registered requester is told, and the request is deleted |
| Signalling.Server.Stats | backend/index.js:366-386 | the counts of `/health` and `/api/stats`: the video-chat and browsing counts are the sizes of the two registries, the total is their sum, the queue count is the queue length, and the match count is exactly half the number of records |

## Left out

- Express, CORS, the socket.io server set-up and `server.listen`
  (backend/index.js:1-24, 433-438): transport plumbing.
- `/api/users` (backend/index.js:388-431): a read-only listing. The
  `/health` timestamp is also left out; the counts are kept as `Stats`.
- `console.log`: it only writes to the log.
- Real time and randomness. `Date.now()` is the parameter `now`, so every
  `Date.now()` inside one event handler gives the same value. `createMatch`
  (backend/index.js:281, 286) and `send-friend-request`
  (backend/index.js:167, 179) each read the clock twice, and those readings
  could differ. Nothing reads a session's `startTime`, and the request id
  is a counter here.
  `Math.random` request ids are a counter. A `setTimeout` is an entry of
  `timers` that runs only when `FireTimer` is called, so any interleaving of
  events and timer firings can be expressed but real delays are not.
- Emits to closed connections: they are recorded in `outbox` like any other
  event. What socket.io does with a message to a closed connection is not
  part of this model.
- Offer, answer, candidate and chat payloads are opaque strings, forwarded
  without being looked at.
- Malformed event data. This includes a missing `userData` object (the
  destructuring throws), non-string names or genders, `NaN` ages, and a
  `register-friend-system` without a `userId`. `UserData` has optional,
  well-typed fields only.
- Registry.ToLower: lower-cases the ASCII letters only, not the rest of
  Unicode as `String.prototype.toLowerCase` does.
- Signalling.Server.AcceptFriendRequest and
  Signalling.Server.CancelFriendRequest: any connection may resolve any
  request, as in the code. The model does not add a check that the caller is
  the recipient.
- Signalling.Server.Disconnect: `userSockets` keeps the entry of a closed
  connection, as in the code. Events sent to it later are recorded in
  `outbox`.
- Signalling.Server.RegisterFriendSystem, Signalling.Server.SendFriendRequest,
  Signalling.Server.AcceptFriendRequest and Signalling.Server.CancelFriendRequest:
  their contracts do not restate `Valid()`. They do not modify the fields
  `Valid()` reads, so it holds by the frame.
- The `createMatch` crash on a missing user record (backend/index.js:276-291)
  is not modelled as behaviour. The invariant `Valid()` shows it cannot
  happen, and `CreateMatch` requires both records.
- The friend-request client hooks and the React pages: they are user
  interface, not part of the server.
