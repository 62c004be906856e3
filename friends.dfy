/**
 * The friend-request broker of backend/index.js: the `"from:to"` keys of
 * `blockedPairs`, the block check `send-friend-request` makes in both
 * directions, the sender lookup through `userSockets`, and the request record.
 */
module Friends {
  import opened Wrappers
  import opened Types

  /** The `${fromUserId}:${toUserId}` key stored in `blockedPairs`. */
  function PairKey(a: UserId, b: UserId): (k: string)
    ensures |k| == |a| + |b| + 1 && k[|a|] == ':'
    ensures k[..|a|] == a && k[|a| + 1..] == b
  {
    a + ":" + b
  }

  /** A request between `a` and `b` is refused when either direction is blocked. */
  predicate IsBlocked(blocked: set<string>, a: UserId, b: UserId) {
    PairKey(a, b) in blocked || PairKey(b, a) in blocked
  }

  /** The check does not depend on which of the two users sends. */
  lemma IsBlockedSymmetric(blocked: set<string>, a: UserId, b: UserId)
    ensures IsBlocked(blocked, a, b) <==> IsBlocked(blocked, b, a)
  {
  }

  /**
   * Keys are unambiguous as long as the first id holds no colon: equal keys
   * then come from the same ordered pair.
   */
  lemma {:induction false} PairKeyInjective(a: UserId, b: UserId, c: UserId, d: UserId)
    requires ':' !in a && ':' !in c
    requires PairKey(a, b) == PairKey(c, d)
    ensures a == c && b == d
  {
    var k := PairKey(a, b);
    assert k[|a|] == ':';
    assert PairKey(c, d)[|c|] == ':';
    assert |a| == |c|;
    assert a == k[..|a|] && c == PairKey(c, d)[..|c|];
    assert b == k[|a| + 1..] && d == PairKey(c, d)[|c| + 1..];
  }

  /** With a colon inside an id, two different pairs share one key. */
  lemma PairKeyCollision()
    ensures PairKey("a:b", "c") == PairKey("a", "b:c")
  {
  }

  /**
   * Cancelling a request from `a` to `b` stores the one key `a:b`, and that
   * refuses later requests in both directions.
   */
  lemma CancelBlocksBothDirections(blocked: set<string>, a: UserId, b: UserId)
    ensures IsBlocked(blocked + {PairKey(a, b)}, a, b)
    ensures IsBlocked(blocked + {PairKey(a, b)}, b, a)
  {
  }

  /**
   * The sender's record: the connection `userSockets` holds for `from`, looked
   * up among the browsing users first and the video-chat users second.
   */
  function SenderProfile(sockets: map<UserId, ConnId>, browsing: map<ConnId, Profile>,
                         video: map<ConnId, Profile>, from: UserId): (r: Option<Profile>)
    ensures r.Some? <==> from in sockets && (sockets[from] in browsing || sockets[from] in video)
    ensures r.Some? && sockets[from] in browsing ==> r.value == browsing[sockets[from]]
    ensures r.Some? && sockets[from] !in browsing ==> r.value == video[sockets[from]]
  {
    if from !in sockets then None
    else if sockets[from] in browsing then Some(browsing[sockets[from]])
    else if sockets[from] in video then Some(video[sockets[from]])
    else None
  }

  /** The pending request `send-friend-request` stores, with the sender's snapshot. */
  function NewRequest(id: RequestId, from: UserId, sender: Profile, to: UserId, now: int): (r: FriendRequest)
    ensures r.id == id && r.fromUserId == from && r.toUserId == to && r.status == Pending
    ensures r.fromUserName == sender.name && r.fromUserAge == sender.age
    ensures r.fromUserInterests == sender.interests && r.timestamp == now
  {
    FriendRequest(id, from, sender.name, sender.age, sender.interests, to, now, Pending)
  }
}
