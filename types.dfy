/**
 * Identifiers, stored records and outbound events of the signalling server
 * (backend/index.js).
 */
module Types {
  import opened Wrappers

  /** A socket.io connection id. Handed out by a counter, so never reused. */
  type ConnId = nat

  /** A stable user id, chosen by the client (used by the friend-request system). */
  type UserId = string

  /** A generated friend-request id (`req_<time>_<random>` in the server). */
  type RequestId = nat

  /** An opaque JSON value a client sends (offer, answer, candidate, chat text). */
  type Payload = string

  /** The room id `room_<Date.now()>` handed out on accept: it carries the clock value. */
  datatype RoomId = Room(stamp: int)

  /**
   * The `userData` object a client sends with `register-presence` and `join`.
   * `None` stands for a missing (undefined) field.
   */
  datatype UserData = UserData(
    name: Option<string>,
    age: Option<int>,
    gender: Option<string>,
    interests: Option<seq<string>>,
    values: Option<seq<string>>,
    personalityTags: Option<seq<string>>,
    bio: Option<string>,
    country: Option<string>,
    flag: Option<string>,
    mode: Option<string>)

  /**
   * A user record stored in `browsingUsers` or `videoChatUsers`.
   * Only browsing records carry `lastSeen`.
   */
  datatype Profile = Profile(
    id: ConnId,
    name: Option<string>,
    age: int,
    gender: string,
    interests: seq<string>,
    values: seq<string>,
    personalityTags: seq<string>,
    bio: string,
    country: string,
    flag: string,
    mode: string,
    lastSeen: Option<int>)

  /** One side of an active match: the partner and the start time. */
  datatype Session = Session(partnerId: ConnId, startTime: int)

  datatype Status = Pending | Accepted | Cancelled

  datatype FriendRequest = FriendRequest(
    id: RequestId,
    fromUserId: UserId,
    fromUserName: Option<string>,
    fromUserAge: int,
    fromUserInterests: seq<string>,
    toUserId: UserId,
    timestamp: int,
    status: Status)

  /** The three signalling messages that are forwarded without inspection. */
  datatype SignalKind = OfferKind | AnswerKind | IceCandidateKind

  /** The payload of an outbound socket.io event. */
  datatype Message =
    | Error(message: string)
    | Waiting(queuePosition: nat)
    | Matched(partnerName: Option<string>, partnerAge: int, initiator: bool)
    | PartnerDisconnected
    | Offer(offer: Payload, from: ConnId)
    | Answer(answer: Payload, from: ConnId)
    | IceCandidate(candidate: Payload, from: ConnId)
    | Chat(message: Payload, fromName: Option<string>, timestamp: int)
    | FriendRequestReceived(request: FriendRequest)
    | FriendRequestAccepted(requestId: RequestId, roomId: RoomId)
    | FriendRequestCancelled(requestId: RequestId, userId: UserId)

  /** An event the server emits to one connection. */
  datatype Emit = Emit(to: ConnId, msg: Message)
}
