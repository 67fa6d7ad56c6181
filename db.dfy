/** The backend's whole state: the four tables, their id sequences, the
    cache, the background work queue, and the import-time timestamp that
    every timestamp default carries. `Valid` is the integrity the database
    keeps: primary keys and the unique mobile number, plus the denormalised
    message counters the routes keep up to date. */
module Db {
  import opened Common
  import opened Models
  import opened CacheStore
  import opened Seqs

  datatype State = State(
    users: seq<User>,
    chatrooms: seq<Chatroom>,
    messages: seq<Message>,
    subscriptions: seq<Subscription>,
    nextUserId: int,
    nextChatroomId: int,
    nextMessageId: int,
    nextSubscriptionId: int,
    cache: Cache,
    queue: seq<int>,
    importTime: int)

  /** Empty tables, autoincrement ids starting at 1, a reachable empty cache. */
  function Initial(importTime: int): (s: State)
    ensures Valid(s)
    ensures s.users == [] && s.chatrooms == [] && s.messages == [] && s.subscriptions == []
  {
    State([], [], [], [], 1, 1, 1, 1, EmptyCache, [], importTime)
  }

  // ----- lookups: `.filter(...).first()` -----

  function UserIndexByMobile(users: seq<User>, mobile: string): Option<nat>
  {
    FirstIndex(users, (u: User) => u.mobileNumber == mobile)
  }

  function UserIndexById(users: seq<User>, id: int): Option<nat>
  {
    FirstIndex(users, (u: User) => u.id == id)
  }

  /** The room with this id, when the given user owns it. */
  function OwnedRoomIndex(rooms: seq<Chatroom>, id: int, userId: int): Option<nat>
  {
    FirstIndex(rooms, (r: Chatroom) => r.id == id && r.userId == userId)
  }

  function MessageIndex(messages: seq<Message>, id: int): Option<nat>
  {
    FirstIndex(messages, (m: Message) => m.id == id)
  }

  /** The messages of one room, in table order. */
  function MessagesOf(messages: seq<Message>, roomId: int): seq<Message>
  {
    Filter(messages, (m: Message) => m.chatroomId == roomId)
  }

  /** The messages of every other room, in table order. */
  function MessagesNotOf(messages: seq<Message>, roomId: int): seq<Message>
  {
    Filter(messages, (m: Message) => m.chatroomId != roomId)
  }

  /** One user's rooms, in table order. */
  function RoomsOf(rooms: seq<Chatroom>, userId: int): seq<Chatroom>
  {
    Filter(rooms, (r: Chatroom) => r.userId == userId)
  }

  // ----- integrity -----

  predicate UsersWellFormed(users: seq<User>, nextId: int)
  {
    && (forall i :: 0 <= i < |users| ==> 1 <= users[i].id < nextId)
    && (forall i, j :: 0 <= i < j < |users| ==> users[i].id != users[j].id)
    && UniqueMobiles(users)
  }

  /** The `unique=True` constraint on `mobile_number`. */
  predicate UniqueMobiles(users: seq<User>)
  {
    forall i, j :: 0 <= i < j < |users| ==> users[i].mobileNumber != users[j].mobileNumber
  }

  predicate RoomsWellFormed(rooms: seq<Chatroom>, nextId: int)
  {
    && (forall i :: 0 <= i < |rooms| ==> 1 <= rooms[i].id < nextId)
    && (forall i, j :: 0 <= i < j < |rooms| ==> rooms[i].id != rooms[j].id)
  }

  /** Each message names a room id that has been handed out. */
  predicate MessagesWellFormed(messages: seq<Message>, nextRoomId: int)
  {
    forall i :: 0 <= i < |messages| ==> messages[i].chatroomId < nextRoomId
  }

  /** Each room's `message_count` equals the number of its messages. */
  predicate CountersConsistent(rooms: seq<Chatroom>, messages: seq<Message>)
  {
    forall i :: 0 <= i < |rooms| ==> rooms[i].messageCount == |MessagesOf(messages, rooms[i].id)|
  }

  predicate Valid(s: State)
  {
    && s.nextUserId >= 1 && s.nextChatroomId >= 1 && s.nextMessageId >= 1
    && UsersWellFormed(s.users, s.nextUserId)
    && RoomsWellFormed(s.chatrooms, s.nextChatroomId)
    && MessagesWellFormed(s.messages, s.nextChatroomId)
    && CountersConsistent(s.chatrooms, s.messages)
  }

  /** The id lookup finds the user with that id, and in a valid table it is
      the only one. */
  lemma UserIndexByIdUnique(users: seq<User>, nextId: int, id: int, k: nat)
    requires UsersWellFormed(users, nextId)
    requires k < |users| && users[k].id == id
    ensures UserIndexById(users, id) == Some(k)
  {
  }

  /** Rewriting a user row that keeps its id and number keeps the table well
      formed. */
  lemma UpdateKeepsUsersWellFormed(users: seq<User>, nextId: int, k: nat, u: User)
    requires UsersWellFormed(users, nextId)
    requires k < |users| && u.id == users[k].id && u.mobileNumber == users[k].mobileNumber
    ensures UsersWellFormed(users[k := u], nextId)
  {
  }

  /** The messages of a room after one more message is appended. */
  lemma MessagesOfAppend(messages: seq<Message>, m: Message, roomId: int)
    ensures MessagesOf(messages + [m], roomId) ==
      MessagesOf(messages, roomId) + (if m.chatroomId == roomId then [m] else [])
  {
    FilterAppend(messages, m, (x: Message) => x.chatroomId == roomId);
  }

  /** Rewriting a message that keeps its room keeps every room's count. */
  lemma MessagesOfUpdate(messages: seq<Message>, k: nat, m: Message, roomId: int)
    requires k < |messages| && m.chatroomId == messages[k].chatroomId
    ensures |MessagesOf(messages[k := m], roomId)| == |MessagesOf(messages, roomId)|
  {
    FilterUpdateLength(messages, k, m, (x: Message) => x.chatroomId == roomId);
  }

  /** A room id not yet handed out has no messages. */
  lemma {:induction false} NoMessagesForFreshRoom(messages: seq<Message>, nextRoomId: int, roomId: int)
    requires MessagesWellFormed(messages, nextRoomId) && roomId >= nextRoomId
    ensures MessagesOf(messages, roomId) == []
    decreases |messages|
  {
    if messages != [] {
      assert MessagesWellFormed(messages[1..], nextRoomId) by {
        forall i | 0 <= i < |messages[1..]| ensures messages[1..][i].chatroomId < nextRoomId {
          assert messages[1..][i] == messages[i + 1];
        }
      }
      NoMessagesForFreshRoom(messages[1..], nextRoomId, roomId);
    }
  }
}
