/**
 * The socket.io signalling server of backend/index.js as one object: its
 * collections are fields, each socket event handler is a method, every
 * `emit` is appended to `outbox`, and each one-second `setTimeout` re-queue
 * is an entry of `timers` that `FireTimer` runs.
 */
module Signalling {
  import opened Wrappers
  import opened Types
  import opened Registry
  import opened Queue
  import opened Sessions
  import opened Matchmaking
  import opened Friends

  /** The counts `/health` and `/api/stats` report. */
  datatype Counts = Counts(totalUsers: nat, videoChatUsers: nat, browsingUsers: nat,
                         activeMatches: nat, waitingQueue: nat)

  /** The event an offer, answer or ICE candidate is forwarded as. */
  function Signal(kind: SignalKind, payload: Payload, from: ConnId): (m: Message)
    ensures m.Offer? <==> kind == OfferKind
    ensures m.Answer? <==> kind == AnswerKind
    ensures m.IceCandidate? <==> kind == IceCandidateKind
    ensures (m.Offer? || m.Answer? || m.IceCandidate?) && m.from == from
    ensures m.Offer? ==> m.offer == payload
    ensures m.Answer? ==> m.answer == payload
    ensures m.IceCandidate? ==> m.candidate == payload
  {
    match kind
    case OfferKind => Offer(payload, from)
    case AnswerKind => Answer(payload, from)
    case IceCandidateKind => IceCandidate(payload, from)
  }

  /** `partner-disconnected` for the partner of `id`, when it has one on an open connection. */
  function Notice(m: map<ConnId, Session>, live: set<ConnId>, id: ConnId): (r: seq<Emit>)
    ensures |r| <= 1
    ensures r != [] <==> id in m && m[id].partnerId in live
    ensures r != [] ==> r[0] == Emit(m[id].partnerId, PartnerDisconnected)
  {
    if id in m && m[id].partnerId in live then [Emit(m[id].partnerId, PartnerDisconnected)] else []
  }

  /** The delayed re-queue scheduled for the partner of `id`, when it has one on an open connection. */
  function Requeue(m: map<ConnId, Session>, live: set<ConnId>, id: ConnId): (r: seq<ConnId>)
    ensures |r| <= 1
    ensures r != [] <==> id in m && m[id].partnerId in live
    ensures r != [] ==> r[0] == m[id].partnerId
  {
    if id in m && m[id].partnerId in live then [m[id].partnerId] else []
  }

  class Server {
    /** `waitingQueue` */
    var queue: seq<ConnId>
    /** `activeMatches` */
    var matches: map<ConnId, Session>
    /** `videoChatUsers` */
    var videoUsers: map<ConnId, Profile>
    /** `browsingUsers` */
    var browsing: map<ConnId, Profile>
    /** The open connections, `io.sockets.sockets`. */
    var connected: set<ConnId>
    /** `friendRequests` */
    var requests: map<RequestId, FriendRequest>
    /** `userSockets`: stable user id to its last registered connection. */
    var userSockets: map<UserId, ConnId>
    /** `blockedPairs` */
    var blocked: set<string>
    /** Every event emitted so far, in order. */
    var outbox: seq<Emit>
    /** Pending one-second re-queues, in the order they fire. */
    var timers: seq<ConnId>
    /** Fresh connection ids. */
    var nextConn: nat
    /** Fresh friend-request ids. */
    var nextRequest: nat

    /** The matchmaking invariants. */
    ghost predicate Valid()
      reads this`queue, this`matches, this`videoUsers
    {
      LobbyValid(Lobby(queue, matches), videoUsers)
    }

    /** Every open connection id was handed out. */
    ghost predicate ConnectionsFresh()
      reads this`connected, this`nextConn
    {
      forall c :: c in connected ==> c < nextConn
    }

    /** Every stored request is pending, under its own id, which was handed out. */
    ghost predicate RequestsOk()
      reads this`requests, this`nextRequest
    {
      forall r :: r in requests ==> r < nextRequest && requests[r].id == r && requests[r].status == Pending
    }

    /** No closed connection waits or holds a session. */
    ghost predicate Live()
      reads this`queue, this`matches, this`connected
    {
      LobbyLive(Lobby(queue, matches), connected)
    }

    ghost function CurrentLobby(): Lobby
      reads this`queue, this`matches
    {
      Lobby(queue, matches)
    }

    /** The server at start-up: every collection empty. */
    constructor ()
      ensures Valid() && Live() && ConnectionsFresh() && RequestsOk()
      ensures queue == [] && matches == map[] && videoUsers == map[] && browsing == map[]
      ensures connected == {} && requests == map[] && userSockets == map[] && blocked == {}
      ensures outbox == [] && timers == []
    {
      queue, matches, videoUsers, browsing := [], map[], map[], map[];
      connected, requests, userSockets, blocked := {}, map[], map[], {};
      outbox, timers, nextConn, nextRequest := [], [], 0, 0;
    }

    /** A client connects and is given a connection id no one has had. */
    method Connect() returns (id: ConnId)
      requires Valid() && ConnectionsFresh()
      modifies this`connected, this`nextConn
      ensures ConnectionsFresh()
      ensures Valid() && (old(Live()) ==> Live())
      ensures id == old(nextConn) && id !in old(connected)
      ensures connected == old(connected) + {id} && nextConn == old(nextConn) + 1
    {
      id := nextConn;
      connected := connected + {id};
      nextConn := nextConn + 1;
    }

    /** `register-presence`: store (or replace) the browsing record, without validation. */
    method RegisterPresence(id: ConnId, data: UserData, now: int)
      requires Valid() && id in connected
      modifies this`browsing
      ensures Valid()
      ensures browsing == old(browsing)[id := PresenceProfile(id, data, now)]
    {
      browsing := browsing[id := PresenceProfile(id, data, now)];
    }

    /**
     * `join`: invalid data is answered with an error and changes nothing;
     * valid data moves the connection from browsing to video chat, with the
     * gender lower-cased, and enters it into matchmaking.
     */
    method Join(id: ConnId, data: UserData, now: int)
      requires Valid() && id in connected
      modifies this`browsing, this`videoUsers, this`queue, this`matches, this`outbox
      ensures Valid() && (old(Live()) ==> Live())
      ensures !CanJoin(data) ==>
        && outbox == old(outbox) + [Emit(id, Error(INVALID_USER_DATA))]
        && browsing == old(browsing) && videoUsers == old(videoUsers)
        && CurrentLobby() == old(CurrentLobby())
      ensures CanJoin(data) ==>
        && browsing == old(browsing) - {id}
        && videoUsers == old(videoUsers)[id := JoinProfile(id, data)]
        && var s := Enter(old(CurrentLobby()), videoUsers, connected, id, now);
           CurrentLobby() == s.lobby && outbox == old(outbox) + s.emits
    {
      if !CanJoin(data) {
        outbox := outbox + [Emit(id, Error(INVALID_USER_DATA))];
        return;
      }
      AddUserValid(CurrentLobby(), videoUsers, id, JoinProfile(id, data));
      browsing := browsing - {id};
      videoUsers := videoUsers[id := JoinProfile(id, data)];
      AddToQueueAndMatch(id, now);
      if old(Live()) {
        EnterKeepsLobbyLive(old(CurrentLobby()), videoUsers, connected, id, now);
      }
    }

    /**
     * `offer`, `answer` and `ice-candidate`: the payload goes unchanged, tagged
     * with the sender, to the partner whose session names the sender back;
     * without a session it is dropped.
     */
    method Relay(id: ConnId, kind: SignalKind, payload: Payload)
      requires Valid() && id in connected
      modifies this`outbox
      ensures Valid()
      ensures id in matches ==> matches[matches[id].partnerId].partnerId == id
      ensures outbox == old(outbox) +
        (if id in matches then [Emit(matches[id].partnerId, Signal(kind, payload, id))] else [])
    {
      if id in matches {
        outbox := outbox + [Emit(matches[id].partnerId, Signal(kind, payload, id))];
      }
    }

    /** `chat-message`: forwarded to the partner with the sender's name and the server time. */
    method ChatMessage(id: ConnId, message: Payload, now: int)
      requires Valid() && id in connected
      modifies this`outbox
      ensures Valid()
      ensures outbox == old(outbox) +
        (if id in matches && id in videoUsers
         then [Emit(matches[id].partnerId, Chat(message, videoUsers[id].name, now))] else [])
    {
      if id in matches {
        if id in videoUsers {
          var user := videoUsers[id];
          outbox := outbox + [Emit(matches[id].partnerId, Chat(message, user.name, now))];
        }
      }
    }

    /**
     * `handleStop`: the session is deleted on both sides, a partner on an open
     * connection is told and gets a delayed re-queue, and the stopper is
     * entered into matchmaking at once. The old partner is left without a
     * session or a queue place until its re-queue fires.
     */
    method Stop(id: ConnId, now: int)
      requires Valid() && id in connected
      modifies this`queue, this`matches, this`outbox, this`timers
      ensures Valid() && (old(Live()) ==> Live())
      ensures var s := StopStep(old(CurrentLobby()), videoUsers, connected, id, now);
        && CurrentLobby() == s.lobby
        && outbox == old(outbox) + Notice(old(matches), connected, id) + s.emits
      ensures timers == old(timers) + Requeue(old(matches), connected, id)
      ensures id in old(matches) ==>
        var c := old(matches)[id].partnerId;
        c !in matches && c !in queue
    {
      ghost var l := CurrentLobby();
      TearValid(l, videoUsers, connected, id);
      if old(Live()) {
        StopKeepsLobbyLive(l, videoUsers, connected, id, now);
      }
      if id in matches {
        StopFreesPartner(l, videoUsers, connected, id, now);
      }
      EndSession(id);
      AddToQueueAndMatch(id, now);
    }

    /**
     * The first half of `handleStop`: a partner on an open connection is told
     * and scheduled for a re-queue, and the session is deleted on both sides,
     * the own entry first.
     */
    method EndSession(id: ConnId)
      modifies this`matches, this`outbox, this`timers
      ensures matches == Unpair(old(matches), id)
      ensures outbox == old(outbox) + Notice(old(matches), connected, id)
      ensures timers == old(timers) + Requeue(old(matches), connected, id)
    {
      UnpairEitherOrder(matches, id);
      if id in matches {
        var partnerId := matches[id].partnerId;
        if partnerId in connected {
          outbox := outbox + [Emit(partnerId, PartnerDisconnected)];
          timers := timers + [partnerId];
        }
        matches := matches - {id};
        matches := matches - {partnerId};
      }
    }

    /**
     * The `disconnect` event. The transport has already dropped the
     * connection; `handleDisconnect` runs and the browsing record goes.
     * Every trace of the connection leaves the queue, the session table and
     * both registries.
     */
    method Disconnect(id: ConnId)
      requires Valid() && id in connected && ConnectionsFresh()
      modifies this`connected, this`queue, this`matches, this`videoUsers, this`browsing, this`outbox, this`timers
      ensures ConnectionsFresh()
      ensures Valid() && (old(Live()) ==> Live())
      ensures connected == old(connected) - {id}
      ensures queue == Without(old(queue), id) && id !in queue
      ensures matches == Unpair(old(matches), id) && id !in matches
      ensures videoUsers == old(videoUsers) - {id} && browsing == old(browsing) - {id}
      ensures outbox == old(outbox) +
        (if id in old(matches) then [Emit(old(matches)[id].partnerId, PartnerDisconnected)] else [])
      ensures timers == old(timers) + Requeue(old(matches), connected, id)
    {
      ghost var l := Lobby(Without(queue, id), Unpair(matches, id));
      LeaveValid(CurrentLobby(), videoUsers, connected, id);
      assert LobbyValid(l, videoUsers - {id});
      assert Live() ==> LobbyLive(l, connected - {id});
      connected := connected - {id};
      HandleDisconnect(id);
      browsing := browsing - {id};
      assert CurrentLobby() == l;
    }

    /**
     * `handleDisconnect`: the partner is told and loses its session entry,
     * and gets a delayed re-queue when its connection is open; the
     * connection leaves the queue, its session entry and the video-chat
     * records.
     */
    method HandleDisconnect(id: ConnId)
      modifies this`queue, this`matches, this`videoUsers, this`outbox, this`timers
      ensures queue == Without(old(queue), id)
      ensures matches == Unpair(old(matches), id)
      ensures videoUsers == old(videoUsers) - {id}
      ensures outbox == old(outbox) +
        (if id in old(matches) then [Emit(old(matches)[id].partnerId, PartnerDisconnected)] else [])
      ensures timers == old(timers) + Requeue(old(matches), connected, id)
    {
      DropPartner(id);
      assert timers == old(timers) + Requeue(old(matches), connected, id);
      assert outbox == old(outbox) +
        (if id in old(matches) then [Emit(old(matches)[id].partnerId, PartnerDisconnected)] else []);
      assert matches - {id} == Unpair(old(matches), id);
      RemoveFromQueues(id);
      matches := matches - {id};
      videoUsers := videoUsers - {id};
    }

    /**
     * The first half of `handleDisconnect`: a partner is told, loses its
     * session entry and, on an open connection, is scheduled for a re-queue.
     */
    method DropPartner(id: ConnId)
      modifies this`matches, this`outbox, this`timers
      ensures matches == if id in old(matches) then old(matches) - {old(matches)[id].partnerId} else old(matches)
      ensures outbox == old(outbox) +
        (if id in old(matches) then [Emit(old(matches)[id].partnerId, PartnerDisconnected)] else [])
      ensures timers == old(timers) + Requeue(old(matches), connected, id)
    {
      if id in matches {
        var partnerId := matches[id].partnerId;
        outbox := outbox + [Emit(partnerId, PartnerDisconnected)];
        matches := matches - {partnerId};
        if partnerId in connected {
          timers := timers + [partnerId];
        }
      }
    }

    /**
     * The oldest one-second timer fires: its partner is entered into
     * matchmaking again if its connection is still open, whatever happened
     * since. A session that partner formed in the meantime is torn down, and
     * the other side of it is left with no session, no queue place and no
     * event.
     */
    method FireTimer(now: int)
      requires Valid() && timers != []
      modifies this`queue, this`matches, this`outbox, this`timers
      ensures Valid() && (old(Live()) ==> Live())
      ensures timers == old(timers)[1..]
      ensures var p := old(timers)[0];
        if p in connected then
          var s := Enter(old(CurrentLobby()), videoUsers, connected, p, now);
          CurrentLobby() == s.lobby && outbox == old(outbox) + s.emits
        else
          CurrentLobby() == old(CurrentLobby()) && outbox == old(outbox)
      ensures var p := old(timers)[0];
        p in connected && p in old(matches) ==>
          var c := old(matches)[p].partnerId;
          c !in matches && c !in queue && forall e :: e in outbox[|old(outbox)|..] ==> e.to != c
    {
      var partnerId := timers[0];
      timers := timers[1..];
      if partnerId in connected {
        ghost var s := Enter(CurrentLobby(), videoUsers, connected, partnerId, now);
        AddToQueueAndMatch(partnerId, now);
        if old(Live()) {
          EnterKeepsLobbyLive(old(CurrentLobby()), videoUsers, connected, partnerId, now);
        }
        if partnerId in old(matches) {
          RequeueStrandsPartner(old(CurrentLobby()), videoUsers, connected, partnerId, now);
          assert outbox[|old(outbox)|..] == s.emits;
        }
      }
    }

    /**
     * `addToQueueAndMatch`: as `Enter` describes, retrying by calling itself
     * after shifting off a dead head, as the server does.
     */
    method AddToQueueAndMatch(id: ConnId, now: int)
      requires Valid()
      modifies this`queue, this`matches, this`outbox
      ensures var s := Enter(old(CurrentLobby()), videoUsers, connected, id, now);
        CurrentLobby() == s.lobby && outbox == old(outbox) + s.emits
      decreases |queue|
    {
      if id !in videoUsers {
        return;
      }
      ghost var l := CurrentLobby();
      DroppedValid(l, videoUsers, id, 0);
      RemoveFromQueues(id);
      RemoveFromMatch(id);
      if |queue| > 0 {
        var partnerId := queue[0];
        queue := queue[1..];
        if partnerId in connected {
          EnterPairsHead(l, videoUsers, connected, id, now);
          CreateMatch(id, partnerId, now);
        } else if |queue| > 0 {
          EnterRetries(l, videoUsers, connected, id, now);
          AddToQueueAndMatch(id, now);
        } else {
          EnterWaits(l, videoUsers, connected, id, now);
          queue := queue + [id];
          outbox := outbox + [Emit(id, Waiting(|queue|))];
        }
      } else {
        EnterWaits(l, videoUsers, connected, id, now);
        queue := queue + [id];
        outbox := outbox + [Emit(id, Waiting(|queue|))];
      }
    }

    /** `createMatch`: mirrored session records and the two `matched` events. */
    method CreateMatch(a: ConnId, b: ConnId, now: int)
      requires a in videoUsers && b in videoUsers
      modifies this`matches, this`outbox
      ensures matches == Pair(old(matches), a, b, now)
      ensures outbox == old(outbox) + Greetings(videoUsers, a, b)
    {
      var user1 := videoUsers[a];
      var user2 := videoUsers[b];
      matches := matches[a := Session(b, now)];
      matches := matches[b := Session(a, now)];
      outbox := outbox + [Emit(a, Matched(user2.name, user2.age, true))];
      outbox := outbox + [Emit(b, Matched(user1.name, user1.age, false))];
    }

    /** `removeFromQueues`: splice out the first occurrence. */
    method RemoveFromQueues(x: ConnId)
      modifies this`queue
      ensures queue == Without(old(queue), x)
    {
      var index := IndexOf(queue, x);
      if index > -1 {
        queue := queue[..index] + queue[index + 1..];
      }
    }

    /** `removeFromMatch`: delete the partner's entry, then the own one. */
    method RemoveFromMatch(x: ConnId)
      modifies this`matches
      ensures matches == Unpair(old(matches), x)
    {
      if x in matches {
        matches := matches - {matches[x].partnerId};
      }
      matches := matches - {x};
    }

    /** `register-friend-system`: bind the stable user id to this connection. */
    method RegisterFriendSystem(id: ConnId, userId: UserId)
      requires id in connected
      modifies this`userSockets
      ensures userSockets == old(userSockets)[userId := id]
    {
      userSockets := userSockets[userId := id];
    }

    /**
     * `send-friend-request`: refused without a trace when the pair is blocked
     * in either direction; a fresh id is then drawn, and nothing is stored
     * when the sender's registered connection has no user record. Otherwise a
     * pending request is stored and delivered if the recipient is registered.
     * The recipient's name and age are ignored, as in the server.
     */
    method SendFriendRequest(id: ConnId, from: UserId, to: UserId, toName: Option<string>, toAge: Option<int>, now: int)
      requires id in connected && RequestsOk()
      modifies this`requests, this`outbox, this`nextRequest
      ensures RequestsOk()
      ensures IsBlocked(blocked, from, to) ==>
        requests == old(requests) && outbox == old(outbox) && nextRequest == old(nextRequest)
      ensures !IsBlocked(blocked, from, to) ==> nextRequest == old(nextRequest) + 1
      ensures !IsBlocked(blocked, from, to) && SenderProfile(userSockets, browsing, videoUsers, from).None? ==>
        requests == old(requests) && outbox == old(outbox)
      ensures !IsBlocked(blocked, from, to) && SenderProfile(userSockets, browsing, videoUsers, from).Some? ==>
        var r := NewRequest(old(nextRequest), from, SenderProfile(userSockets, browsing, videoUsers, from).value, to, now);
        && old(nextRequest) !in old(requests)
        && requests == old(requests)[r.id := r]
        && outbox == old(outbox) + (if to in userSockets then [Emit(userSockets[to], FriendRequestReceived(r))] else [])
    {
      if IsBlocked(blocked, from, to) {
        return;
      }
      var requestId := nextRequest;
      nextRequest := nextRequest + 1;
      var fromUser := SenderProfile(userSockets, browsing, videoUsers, from);
      if fromUser.None? {
        return;
      }
      var request := NewRequest(requestId, from, fromUser.value, to, now);
      requests := requests[requestId := request];
      if to in userSockets {
        outbox := outbox + [Emit(userSockets[to], FriendRequestReceived(request))];
      }
    }

    /**
     * `accept-friend-request`: a no-op for an unknown id. Otherwise the same
     * room id goes to the requester, if registered, and to the accepting
     * connection, and the request is deleted; no block is added.
     */
    method AcceptFriendRequest(id: ConnId, requestId: RequestId, now: int)
      requires id in connected && RequestsOk()
      modifies this`requests, this`outbox
      ensures RequestsOk()
      ensures requestId !in requests
      ensures requestId !in old(requests) ==> requests == old(requests) && outbox == old(outbox)
      ensures requestId in old(requests) ==>
        var r := old(requests)[requestId];
        var accepted := FriendRequestAccepted(requestId, Room(now));
        && requests == old(requests) - {requestId}
        && outbox == old(outbox)
             + (if r.fromUserId in userSockets then [Emit(userSockets[r.fromUserId], accepted)] else [])
             + [Emit(id, accepted)]
    {
      if requestId !in requests {
        return;
      }
      var request := requests[requestId];
      requests := requests[requestId := request.(status := Accepted)];
      var roomId := Room(now);
      if request.fromUserId in userSockets {
        outbox := outbox + [Emit(userSockets[request.fromUserId], FriendRequestAccepted(requestId, roomId))];
      }
      outbox := outbox + [Emit(id, FriendRequestAccepted(requestId, roomId))];
      requests := requests - {requestId};
    }

    /**
     * `cancel-friend-request`: a no-op for an unknown id. Otherwise the key of
     * the request's own direction is blocked, which refuses requests between
     * the two users either way, the requester is told if registered, and the
     * request is deleted.
     */
    method CancelFriendRequest(id: ConnId, requestId: RequestId)
      requires id in connected && RequestsOk()
      modifies this`requests, this`outbox, this`blocked
      ensures RequestsOk()
      ensures requestId !in requests
      ensures requestId !in old(requests) ==>
        requests == old(requests) && outbox == old(outbox) && blocked == old(blocked)
      ensures requestId in old(requests) ==>
        var r := old(requests)[requestId];
        && requests == old(requests) - {requestId}
        && blocked == old(blocked) + {PairKey(r.fromUserId, r.toUserId)}
        && IsBlocked(blocked, r.fromUserId, r.toUserId) && IsBlocked(blocked, r.toUserId, r.fromUserId)
        && outbox == old(outbox) +
             (if r.fromUserId in userSockets
              then [Emit(userSockets[r.fromUserId], FriendRequestCancelled(requestId, r.toUserId))] else [])
    {
      if requestId !in requests {
        return;
      }
      var request := requests[requestId];
      requests := requests[requestId := request.(status := Cancelled)];
      blocked := blocked + {PairKey(request.fromUserId, request.toUserId)};
      if request.fromUserId in userSockets {
        outbox := outbox + [Emit(userSockets[request.fromUserId], FriendRequestCancelled(requestId, request.toUserId))];
      }
      requests := requests - {requestId};
    }

    /** The counts of `/health` and `/api/stats`; the match count is exact. */
    function Stats(): (s: Counts)
      reads this`queue, this`matches, this`videoUsers, this`browsing
      requires Valid()
      ensures s.activeMatches * 2 == |matches|
      ensures s.videoChatUsers == |videoUsers| && s.browsingUsers == |browsing|
      ensures s.totalUsers == s.videoChatUsers + s.browsingUsers
      ensures s.waitingQueue == |queue|
    {
      SymmetricEven(matches);
      Counts(|videoUsers| + |browsing|, |videoUsers|, |browsing|, |matches| / 2, |queue|)
    }
  }
}
