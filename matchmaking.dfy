/**
 * `addToQueueAndMatch` of backend/index.js as a function of the waiting queue
 * and the session table, and what it guarantees: first-come first-served
 * pairing with the first live waiting id, the arriver as initiator, dead ids
 * discarded, no self-match, and the structural invariants kept.
 */
module Matchmaking {
  import opened Wrappers
  import opened Types
  import opened Queue
  import opened Sessions

  /** The two collections matchmaking works on: `waitingQueue` and `activeMatches`. */
  datatype Lobby = Lobby(queue: seq<ConnId>, matches: map<ConnId, Session>)

  /** A new lobby and the events emitted on the way to it, in order. */
  datatype Step = Step(lobby: Lobby, emits: seq<Emit>)

  /**
   * The invariants the server keeps: no id waits twice, every waiting id is a
   * video-chat user without a session, the session table is mirrored, and
   * every id in a session is a video-chat user.
   */
  ghost predicate LobbyValid(l: Lobby, users: map<ConnId, Profile>) {
    && Distinct(l.queue)
    && (forall x :: x in l.queue ==> x in users && x !in l.matches)
    && Symmetric(l.matches)
    && l.matches.Keys <= users.Keys
  }

  /** Only open connections wait or hold a session. */
  ghost predicate LobbyLive(l: Lobby, live: set<ConnId>) {
    (forall x :: x in l.queue ==> x in live) && l.matches.Keys <= live
  }

  /**
   * The two `matched` events of `createMatch`: the arriving `a` is told it is
   * the initiator and gets `b`'s name and age, the waiting `b` is not and gets
   * `a`'s.
   */
  function Greetings(users: map<ConnId, Profile>, a: ConnId, b: ConnId): seq<Emit>
    requires a in users && b in users
  {
    [Emit(a, Matched(users[b].name, users[b].age, true)),
     Emit(b, Matched(users[a].name, users[a].age, false))]
  }
  /**
   * Each side is told the other's name and age, and exactly one of them,
   * the one that arrived, is the initiator of the WebRTC offer.
   */
  lemma GreetingsTellEachOther(users: map<ConnId, Profile>, a: ConnId, b: ConnId)
    requires a in users && b in users
    ensures var r := Greetings(users, a, b);
      && |r| == 2 && r[0].to == a && r[1].to == b
      && r[0].msg.Matched? && r[0].msg.initiator
      && r[1].msg.Matched? && !r[1].msg.initiator
      && r[0].msg.partnerName == users[b].name && r[0].msg.partnerAge == users[b].age
      && r[1].msg.partnerName == users[a].name && r[1].msg.partnerAge == users[a].age
  {
  }


  /** A new video-chat record keeps the invariants. */
  lemma AddUserValid(l: Lobby, users: map<ConnId, Profile>, id: ConnId, p: Profile)
    requires LobbyValid(l, users)
    ensures LobbyValid(l, users[id := p])
  {
  }

  /** Ending the session of `id`, and nothing else, keeps the invariants. */
  lemma TearValid(l: Lobby, users: map<ConnId, Profile>, live: set<ConnId>, id: ConnId)
    requires LobbyValid(l, users)
    ensures var l' := Lobby(l.queue, Unpair(l.matches, id));
      && LobbyValid(l', users)
      && (LobbyLive(l, live) ==> LobbyLive(l', live))
  {
    UnpairSymmetric(l.matches, id);
  }

  /**
   * A connection that leaves the queue, its session and the video-chat
   * records keeps the invariants, and takes nothing else closed with it.
   */
  lemma LeaveValid(l: Lobby, users: map<ConnId, Profile>, live: set<ConnId>, id: ConnId)
    requires LobbyValid(l, users)
    ensures var l' := Lobby(Without(l.queue, id), Unpair(l.matches, id));
      && LobbyValid(l', users - {id})
      && (LobbyLive(l, live) ==> LobbyLive(l', live - {id}))
  {
    LeftValid(l, users, id);
    forall x | x in Without(l.queue, id) ensures x in l.queue {
      WithoutMembers(l.queue, id, x);
    }
  }

  /**
   * After the arriver has left the queue and its session, the queue with its
   * first `k` ids shifted off still meets the invariants, and the arriver is
   * not in it.
   */
  lemma DroppedValid(l: Lobby, users: map<ConnId, Profile>, id: ConnId, k: nat)
    requires LobbyValid(l, users)
    requires k <= |Without(l.queue, id)|
    ensures var q := Without(l.queue, id);
      id !in q && LobbyValid(Lobby(q[k..], Unpair(l.matches, id)), users)
  {
    var q := Without(l.queue, id);
    var m := Unpair(l.matches, id);
    LeftValid(l, users, id);
    DistinctDrop(q, k);
    forall x | x in q[k..] ensures x in q {
      var j :| k <= j < |q| && q[j] == x;
    }
  }

  /** After the arriver has left the queue and its session the invariants still hold. */
  lemma LeftValid(l: Lobby, users: map<ConnId, Profile>, id: ConnId)
    requires LobbyValid(l, users)
    ensures var q := Without(l.queue, id);
      id !in q && LobbyValid(Lobby(q, Unpair(l.matches, id)), users)
  {
    WithoutDistinct(l.queue, id);
    UnpairSymmetric(l.matches, id);
    forall x | x in Without(l.queue, id) ensures x in l.queue {
      WithoutMembers(l.queue, id, x);
    }
  }

  /** Pairing `id` with the waiting id at position `k` keeps the invariants. */
  lemma PairedValid(l: Lobby, users: map<ConnId, Profile>, id: ConnId, k: nat, now: int)
    requires LobbyValid(l, users) && id in users
    requires k < |Without(l.queue, id)|
    ensures var q := Without(l.queue, id);
      q[k] in users && q[k] != id &&
      LobbyValid(Lobby(q[k + 1..], Pair(Unpair(l.matches, id), id, q[k], now)), users)
  {
    var q := Without(l.queue, id);
    var m := Unpair(l.matches, id);
    DroppedValid(l, users, id, k);
    DroppedValid(l, users, id, k + 1);
    assert q[k] in q[k..];
    PairSymmetric(m, id, q[k], now);
    assert q[k] !in q[k + 1..] by {
      forall j | k + 1 <= j < |q| ensures q[j] != q[k] {
        assert q[k..][0] == q[k] && q[k..][j - k] == q[j];
      }
    }
  }

  /**
   * `addToQueueAndMatch(id)`, recursion included. Nothing happens for an id
   * that is not a video-chat user. Otherwise the id leaves the queue and its
   * session and the head of the queue is shifted off: a live head is paired
   * with `id`; a dead one is dropped and the whole step is retried while ids
   * remain; when none remain `id` is pushed and told the queue length.
   */
  function Enter(l: Lobby, users: map<ConnId, Profile>, live: set<ConnId>, id: ConnId, now: int): (r: Step)
    requires LobbyValid(l, users)
    ensures LobbyValid(r.lobby, users)
    decreases |l.queue|
  {
    if id !in users then Step(l, [])
    else
      var q := Without(l.queue, id);
      var m := Unpair(l.matches, id);
      DroppedValid(l, users, id, 0);
      if |q| > 0 then
        if q[0] in live then
          PairedValid(l, users, id, 0, now);
          Step(Lobby(q[1..], Pair(m, id, q[0], now)), Greetings(users, id, q[0]))
        else if |q[1..]| > 0 then
          DroppedValid(l, users, id, 1);
          Enter(Lobby(q[1..], m), users, live, id, now)
        else
          var w := q[1..] + [id];
          Step(Lobby(w, m), [Emit(id, Waiting(|w|))])
      else
        var w := q + [id];
        Step(Lobby(w, m), [Emit(id, Waiting(|w|))])
  }

  /**
   * The same step stated without retries: pair with the first waiting id on
   * an open connection, discarding the closed ones in front of it, or wait
   * alone when there is none.
   */
  function FirstComeStep(l: Lobby, users: map<ConnId, Profile>, live: set<ConnId>, id: ConnId, now: int): (r: Step)
    requires LobbyValid(l, users)
    ensures LobbyValid(r.lobby, users)
  {
    if id !in users then Step(l, [])
    else
      var q := Without(l.queue, id);
      var m := Unpair(l.matches, id);
      DroppedValid(l, users, id, 0);
      match FirstLive(q, live)
      case Some(k) =>
        PairedValid(l, users, id, k, now);
        Step(Lobby(q[k + 1..], Pair(m, id, q[k], now)), Greetings(users, id, q[k]))
      case None =>
        Step(Lobby([id], m), [Emit(id, Waiting(1))])
  }

  /** A dead head is dropped and the step retried on the rest of the queue. */
  lemma EnterRetries(l: Lobby, users: map<ConnId, Profile>, live: set<ConnId>, id: ConnId, now: int)
    requires LobbyValid(l, users) && id in users
    requires var q := Without(l.queue, id); |q| > 1 && q[0] !in live
    ensures var q := Without(l.queue, id);
      var l2 := Lobby(q[1..], Unpair(l.matches, id));
      LobbyValid(l2, users) && Enter(l, users, live, id, now) == Enter(l2, users, live, id, now)
  {
    DroppedValid(l, users, id, 1);
  }

  /** A live head is paired with the arriver at once. */
  lemma EnterPairsHead(l: Lobby, users: map<ConnId, Profile>, live: set<ConnId>, id: ConnId, now: int)
    requires LobbyValid(l, users) && id in users
    requires var q := Without(l.queue, id); |q| > 0 && q[0] in live
    ensures var q := Without(l.queue, id);
      && q[0] in users
      && Enter(l, users, live, id, now) ==
         Step(Lobby(q[1..], Pair(Unpair(l.matches, id), id, q[0], now)), Greetings(users, id, q[0]))
  {
    DroppedValid(l, users, id, 0);
  }

  /** With no head left to try, the arriver waits alone at position 1. */
  lemma EnterWaits(l: Lobby, users: map<ConnId, Profile>, live: set<ConnId>, id: ConnId, now: int)
    requires LobbyValid(l, users) && id in users
    requires var q := Without(l.queue, id); |q| == 0 || (|q| == 1 && q[0] !in live)
    ensures Enter(l, users, live, id, now) == Step(Lobby([id], Unpair(l.matches, id)), [Emit(id, Waiting(1))])
  {
  }

  /** The first-come step ignores a dead head. */
  lemma FirstComeSkipsDead(l: Lobby, users: map<ConnId, Profile>, live: set<ConnId>, id: ConnId, now: int)
    requires LobbyValid(l, users) && id in users
    requires var q := Without(l.queue, id); |q| > 1 && q[0] !in live
    ensures var q := Without(l.queue, id);
      var l2 := Lobby(q[1..], Unpair(l.matches, id));
      LobbyValid(l2, users) && FirstComeStep(l, users, live, id, now) == FirstComeStep(l2, users, live, id, now)
  {
    var q := Without(l.queue, id);
    DroppedValid(l, users, id, 1);
    assert Without(q[1..], id) == q[1..];
    UnpairIdempotent(l.matches, id);
    var l2 := Lobby(q[1..], Unpair(l.matches, id));
    if FirstLive(q[1..], live).Some? {
      SkipsDeadPaired(l, users, live, id, now, FirstLive(q[1..], live).value);
    } else {
      FirstComeWaits(l2, users, live, id, now);
      FirstComeWaits(l, users, live, id, now);
    }
  }

  /** `FirstComeSkipsDead` when a live id remains behind the dead head. */
  lemma SkipsDeadPaired(l: Lobby, users: map<ConnId, Profile>, live: set<ConnId>, id: ConnId, now: int, k: nat)
    requires LobbyValid(l, users) && id in users
    requires var q := Without(l.queue, id);
      && |q| > 1 && q[0] !in live && id !in q
      && FirstLive(q[1..], live) == Some(k)
    ensures var q := Without(l.queue, id);
      var l2 := Lobby(q[1..], Unpair(l.matches, id));
      LobbyValid(l2, users) && FirstComeStep(l, users, live, id, now) == FirstComeStep(l2, users, live, id, now)
  {
    var q := Without(l.queue, id);
    var t := q[1..];
    DroppedValid(l, users, id, 1);
    assert Without(t, id) == t;
    UnpairIdempotent(l.matches, id);
    var l2 := Lobby(t, Unpair(l.matches, id));
    assert t[k] == q[k + 1];
    assert t[k + 1..] == q[k + 2..];
    FirstComePairs(l2, users, live, id, now, k);
    FirstComePairs(l, users, live, id, now, k + 1);
  }

  /** With every other waiting id dead, the first-come step leaves the arriver waiting alone. */
  lemma FirstComeWaits(l: Lobby, users: map<ConnId, Profile>, live: set<ConnId>, id: ConnId, now: int)
    requires LobbyValid(l, users) && id in users
    requires var q := Without(l.queue, id); forall j :: 0 <= j < |q| ==> q[j] !in live
    ensures FirstComeStep(l, users, live, id, now) == Step(Lobby([id], Unpair(l.matches, id)), [Emit(id, Waiting(1))])
  {
  }

  /** With a live head, both steps pair the arriver with it. */
  lemma BothPairHead(l: Lobby, users: map<ConnId, Profile>, live: set<ConnId>, id: ConnId, now: int)
    requires LobbyValid(l, users) && id in users
    requires var q := Without(l.queue, id); |q| > 0 && q[0] in live
    ensures Enter(l, users, live, id, now) == FirstComeStep(l, users, live, id, now)
  {
    EnterPairsHead(l, users, live, id, now);
    FirstComePairs(l, users, live, id, now, 0);
  }

  /** With no head left to try, both steps leave the arriver waiting alone. */
  lemma BothWait(l: Lobby, users: map<ConnId, Profile>, live: set<ConnId>, id: ConnId, now: int)
    requires LobbyValid(l, users) && id in users
    requires var q := Without(l.queue, id); |q| == 0 || (|q| == 1 && q[0] !in live)
    ensures Enter(l, users, live, id, now) == FirstComeStep(l, users, live, id, now)
  {
    EnterWaits(l, users, live, id, now);
    FirstComeWaits(l, users, live, id, now);
  }

  /** The retrying recursion of the server is the first-come step. */
  lemma {:induction false} EnterIsFirstCome(l: Lobby, users: map<ConnId, Profile>, live: set<ConnId>, id: ConnId, now: int)
    requires LobbyValid(l, users)
    ensures Enter(l, users, live, id, now) == FirstComeStep(l, users, live, id, now)
    decreases |l.queue|
  {
    var q := Without(l.queue, id);
    if id in users && |q| > 1 && q[0] !in live {
      EnterRetries(l, users, live, id, now);
      FirstComeSkipsDead(l, users, live, id, now);
      EnterIsFirstCome(Lobby(q[1..], Unpair(l.matches, id)), users, live, id, now);
    } else if id in users && |q| > 0 && q[0] in live {
      BothPairHead(l, users, live, id, now);
    } else if id in users {
      BothWait(l, users, live, id, now);
    }
  }

  /**
   * First come, first served: when the id at position `k` of the queue (the
   * arriver taken out) is the first one on an open connection, the arriver and
   * that id form a mirrored session stamped `now`, the dead ids in front of it
   * are discarded, the ids behind it keep their order, and the arriver is the
   * initiator.
   */
  lemma EnterPairsFirstLive(l: Lobby, users: map<ConnId, Profile>, live: set<ConnId>, id: ConnId, now: int, k: nat)
    requires LobbyValid(l, users) && id in users
    requires var q := Without(l.queue, id);
      k < |q| && q[k] in live && forall j :: 0 <= j < k ==> q[j] !in live
    ensures var q := Without(l.queue, id);
      var r := Enter(l, users, live, id, now);
      && q[k] != id
      && id in r.lobby.matches && q[k] in r.lobby.matches
      && r.lobby.matches[id] == Session(q[k], now)
      && r.lobby.matches[q[k]] == Session(id, now)
      && r.lobby.queue == q[k + 1..]
      && r.emits == Greetings(users, id, q[k])
  {
    EnterIsFirstCome(l, users, live, id, now);
    FirstComePairs(l, users, live, id, now, k);
  }

  /** The first-come step pairs the arriver with the first live waiting id. */
  lemma FirstComePairs(l: Lobby, users: map<ConnId, Profile>, live: set<ConnId>, id: ConnId, now: int, k: nat)
    requires LobbyValid(l, users) && id in users
    requires var q := Without(l.queue, id);
      k < |q| && q[k] in live && forall j :: 0 <= j < k ==> q[j] !in live
    ensures var q := Without(l.queue, id);
      && q[k] != id && q[k] in users
      && FirstComeStep(l, users, live, id, now) ==
         Step(Lobby(q[k + 1..], Pair(Unpair(l.matches, id), id, q[k], now)), Greetings(users, id, q[k]))
  {
    var q := Without(l.queue, id);
    PairedValid(l, users, id, k, now);
    FirstLiveAt(q, live, k);
  }

  /**
   * The arriver is paired exactly when some other waiting id is on an open
   * connection.
   */
  lemma EnterPairsIffLiveWaiter(l: Lobby, users: map<ConnId, Profile>, live: set<ConnId>, id: ConnId, now: int)
    requires LobbyValid(l, users) && id in users
    ensures id in Enter(l, users, live, id, now).lobby.matches <==>
      exists x :: x in l.queue && x != id && x in live
  {
    EnterIsFirstCome(l, users, live, id, now);
    var q := Without(l.queue, id);
    WithoutDistinct(l.queue, id);
    match FirstLive(q, live)
    case Some(k) =>
      WithoutMembers(l.queue, id, q[k]);
    case None =>
      forall x | x in l.queue && x != id ensures x !in live {
        WithoutMembers(l.queue, id, x);
        var j :| 0 <= j < |q| && q[j] == x;
      }
  }

  /**
   * When no other waiting id is on an open connection, the arriver ends up
   * alone in the queue, without a session, and is told position 1, the new
   * queue length.
   */
  lemma EnterWaitsAlone(l: Lobby, users: map<ConnId, Profile>, live: set<ConnId>, id: ConnId, now: int)
    requires LobbyValid(l, users) && id in users
    requires forall x :: x in l.queue && x != id ==> x !in live
    ensures var r := Enter(l, users, live, id, now);
      && r.lobby.queue == [id]
      && r.emits == [Emit(id, Waiting(|r.lobby.queue|))]
      && r.emits == [Emit(id, Waiting(1))]
      && r.lobby.matches == Unpair(l.matches, id)
      && id !in r.lobby.matches
  {
    EnterIsFirstCome(l, users, live, id, now);
    var q := Without(l.queue, id);
    forall j | 0 <= j < |q| ensures q[j] !in live {
      WithoutMembers(l.queue, id, q[j]);
      WithoutDistinct(l.queue, id);
    }
  }

  /** The arriver is never paired with itself, nor with a closed connection. */
  lemma EnterNeverPairsDead(l: Lobby, users: map<ConnId, Profile>, live: set<ConnId>, id: ConnId, now: int)
    requires LobbyValid(l, users)
    ensures var r := Enter(l, users, live, id, now);
      id in r.lobby.matches ==>
        var p := r.lobby.matches[id].partnerId;
        p != id && p in live && p in l.queue
  {
    EnterIsFirstCome(l, users, live, id, now);
    if id in users {
      var q := Without(l.queue, id);
      WithoutDistinct(l.queue, id);
      match FirstLive(q, live)
      case Some(k) =>
        WithoutMembers(l.queue, id, q[k]);
      case None =>
    }
  }

  /**
   * Nothing else changes: an id that is neither the arriver, nor waiting, nor
   * the arriver's current partner keeps its session entry, or its absence.
   */
  lemma EnterLeavesOthersAlone(l: Lobby, users: map<ConnId, Profile>, live: set<ConnId>, id: ConnId, now: int, c: ConnId)
    requires LobbyValid(l, users)
    requires c != id && c !in l.queue
    requires id in l.matches ==> l.matches[id].partnerId != c
    ensures var r := Enter(l, users, live, id, now);
      (c in r.lobby.matches <==> c in l.matches) &&
      (c in l.matches ==> r.lobby.matches[c] == l.matches[c])
  {
    EnterIsFirstCome(l, users, live, id, now);
    if id in users {
      var q := Without(l.queue, id);
      match FirstLive(q, live)
      case Some(k) =>
        WithoutMembers(l.queue, id, q[k]);
      case None =>
    }
  }

  /** Entering an open connection keeps closed connections out of the lobby. */
  lemma EnterKeepsLobbyLive(l: Lobby, users: map<ConnId, Profile>, live: set<ConnId>, id: ConnId, now: int)
    requires LobbyValid(l, users) && LobbyLive(l, live) && id in live
    ensures LobbyLive(Enter(l, users, live, id, now).lobby, live)
  {
    EnterIsFirstCome(l, users, live, id, now);
    if id in users {
      var q := Without(l.queue, id);
      match FirstLive(q, live)
      case Some(k) =>
        forall x | x in q[k + 1..] ensures x in live {
          WithoutMembers(l.queue, id, x);
        }
      case None =>
    }
  }

  /**
   * The queue only grows when it is drained: the arriver is appended to an
   * empty queue or the queue gets shorter, so it never holds more than one id.
   */
  lemma EnterKeepsQueueShort(l: Lobby, users: map<ConnId, Profile>, live: set<ConnId>, id: ConnId, now: int)
    requires LobbyValid(l, users) && id in users
    ensures var r := Enter(l, users, live, id, now);
      r.lobby.queue == [id] || |r.lobby.queue| < |l.queue|
    ensures |l.queue| <= 1 ==> |Enter(l, users, live, id, now).lobby.queue| <= 1
  {
    EnterIsFirstCome(l, users, live, id, now);
  }

  /**
   * Re-entering an id that is in a session ends that session without a word
   * to its partner: the partner is left with no session entry and no place
   * in the queue, and no emitted event is addressed to it.
   */
  lemma RequeueStrandsPartner(l: Lobby, users: map<ConnId, Profile>, live: set<ConnId>, id: ConnId, now: int)
    requires LobbyValid(l, users) && id in l.matches
    ensures var c := l.matches[id].partnerId;
      var r := Enter(l, users, live, id, now);
      c !in r.lobby.matches && c !in r.lobby.queue && forall e :: e in r.emits ==> e.to != c
  {
    EnterIsFirstCome(l, users, live, id, now);
    var c := l.matches[id].partnerId;
    var q := Without(l.queue, id);
    match FirstLive(q, live)
    case Some(k) =>
      WithoutMembers(l.queue, id, q[k]);
      forall j | k + 1 <= j < |q| ensures q[j] != c {
        WithoutMembers(l.queue, id, q[j]);
      }
    case None =>
  }

  /**
   * `handleStop` on the lobby: the session of `id` is torn down on both
   * sides, then `id` is entered into matchmaking.
   */
  function StopStep(l: Lobby, users: map<ConnId, Profile>, live: set<ConnId>, id: ConnId, now: int): (r: Step)
    requires LobbyValid(l, users)
    ensures LobbyValid(r.lobby, users)
  {
    TearValid(l, users, live, id);
    Enter(Lobby(l.queue, Unpair(l.matches, id)), users, live, id, now)
  }

  /** Stopping an open connection keeps closed connections out of the lobby. */
  lemma StopKeepsLobbyLive(l: Lobby, users: map<ConnId, Profile>, live: set<ConnId>, id: ConnId, now: int)
    requires LobbyValid(l, users) && LobbyLive(l, live) && id in live
    ensures LobbyLive(StopStep(l, users, live, id, now).lobby, live)
  {
    TearValid(l, users, live, id);
    EnterKeepsLobbyLive(Lobby(l.queue, Unpair(l.matches, id)), users, live, id, now);
  }

  /**
   * The partner of a stopper is left with no session and no place in the
   * queue; only its delayed re-queue brings it back.
   */
  lemma StopFreesPartner(l: Lobby, users: map<ConnId, Profile>, live: set<ConnId>, id: ConnId, now: int)
    requires LobbyValid(l, users) && id in l.matches
    ensures var c := l.matches[id].partnerId;
      var r := StopStep(l, users, live, id, now).lobby;
      c !in r.matches && c !in r.queue
  {
    var c := l.matches[id].partnerId;
    var torn := Lobby(l.queue, Unpair(l.matches, id));
    TearValid(l, users, live, id);
    assert Mirrored(l.matches, id);
    EnterLeavesOthersAlone(torn, users, live, id, now, c);
    EnterIsFirstCome(torn, users, live, id, now);
    if id in users {
      var q := Without(torn.queue, id);
      match FirstLive(q, live)
      case Some(k) =>
        forall j | k + 1 <= j < |q| ensures q[j] != c {
          WithoutMembers(torn.queue, id, q[j]);
        }
      case None =>
    }
  }

  /**
   * Two arrivals at an empty lobby: the first is told it waits at position 1,
   * the second is paired with it as the initiator and the queue is empty again.
   */
  lemma TwoArrivals(users: map<ConnId, Profile>, live: set<ConnId>, a: ConnId, b: ConnId, t1: int, t2: int)
    requires a in users && b in users && a != b && a in live && b in live
    ensures var s1 := Enter(Lobby([], map[]), users, live, a, t1);
      && s1.lobby == Lobby([a], map[])
      && s1.emits == [Emit(a, Waiting(1))]
      && var s2 := Enter(s1.lobby, users, live, b, t2);
      && s2.lobby == Lobby([], map[b := Session(a, t2), a := Session(b, t2)])
      && s2.emits == [Emit(b, Matched(users[a].name, users[a].age, true)),
                      Emit(a, Matched(users[b].name, users[b].age, false))]
  {
    var s1 := Enter(Lobby([], map[]), users, live, a, t1);
    assert Without([], a) == [];
    assert s1.lobby == Lobby([a], map[]);
    assert IndexOf([a], b) == -1;
    assert Without([a], b) == [a];
    assert FirstLive([a], live) == Some(0);
  }
}
