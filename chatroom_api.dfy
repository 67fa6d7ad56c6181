/** app/api/chatroom.py: a user's chatrooms and their messages. Every route
    authenticates through `AuthMiddleware` and sees only rooms whose owner
    is the current user; a room of another user is answered 404 exactly as
    a missing one. */
module ChatroomApi {
  import opened Common
  import opened Models
  import opened Schemas
  import opened Seqs
  import opened RateLimit
  import opened Db
  import opened AuthMiddleware

  /** The response for a stored room: its `messages` relationship is the
      room's messages in table order. */
  function RoomResponse(s: State, c: Chatroom): ChatroomResponse
  {
    ToChatroomResponse(c, MessagesOf(s.messages, c.id))
  }

  // ----- create -----

  /** `create_chatroom`: 422 for a title off the schema, 401 without a user,
      otherwise one new room of the current user, with no messages. */
  function CreateChatroom(s: State, token: string, body: ChatroomCreate, verify: string -> Option<Payload>)
    : (r: (Result<ChatroomResponse>, State))
    ensures !ValidTitle(body.title) ==> r == (Err(Unprocessable), s)
    ensures ValidTitle(body.title) && CurrentUserIndex(s, token, verify).Err? ==> r == (Err(Unauthorized), s)
    ensures ValidTitle(body.title) && CurrentUserIndex(s, token, verify).Ok? ==>
      var c := NewChatroom(s.nextChatroomId, s.users[CurrentUserIndex(s, token, verify).value].id, body.title, s.importTime);
      r == (Ok(ToChatroomResponse(c, [])), s.(chatrooms := s.chatrooms + [c], nextChatroomId := s.nextChatroomId + 1))
  {
    if !ValidTitle(body.title) then (Err(Unprocessable), s)
    else match CurrentUserIndex(s, token, verify)
      case Err(e) => (Err(e), s)
      case Ok(k) =>
        var c := NewChatroom(s.nextChatroomId, s.users[k].id, body.title, s.importTime);
        (Ok(ToChatroomResponse(c, [])), s.(chatrooms := s.chatrooms + [c], nextChatroomId := s.nextChatroomId + 1))
  }

  lemma CreateChatroomKeepsValid(s: State, token: string, body: ChatroomCreate, verify: string -> Option<Payload>)
    requires Valid(s)
    ensures Valid(CreateChatroom(s, token, body, verify).1)
  {
    var s1 := CreateChatroom(s, token, body, verify).1;
    if s1 != s {
      NoMessagesForFreshRoom(s.messages, s.nextChatroomId, s.nextChatroomId);
      assert CountersConsistent(s1.chatrooms, s1.messages) by {
        forall i | 0 <= i < |s1.chatrooms|
          ensures s1.chatrooms[i].messageCount == |MessagesOf(s1.messages, s1.chatrooms[i].id)|
        {
          if i < |s.chatrooms| { assert s1.chatrooms[i] == s.chatrooms[i]; }
        }
      }
    }
  }

  // ----- get one -----

  /** `get_chatroom`: the room with this id when the current user owns it. */
  function GetChatroom(s: State, token: string, id: int, verify: string -> Option<Payload>)
    : (r: Result<ChatroomResponse>)
    ensures CurrentUserIndex(s, token, verify).Err? ==> r == Err(Unauthorized)
    ensures CurrentUserIndex(s, token, verify).Ok? ==>
      var uid := s.users[CurrentUserIndex(s, token, verify).value].id;
      && (r == Err(NotFound) <==> OwnedRoomIndex(s.chatrooms, id, uid).None?)
      && (OwnedRoomIndex(s.chatrooms, id, uid).Some? ==>
            r == Ok(RoomResponse(s, s.chatrooms[OwnedRoomIndex(s.chatrooms, id, uid).value])))
      && (r.Ok? ==> r.value.id == id && r.value.userId == uid)
  {
    match CurrentUserIndex(s, token, verify)
    case Err(e) => Err(e)
    case Ok(k) =>
      match OwnedRoomIndex(s.chatrooms, id, s.users[k].id)
      case None => Err(NotFound)
      case Some(j) => Ok(RoomResponse(s, s.chatrooms[j]))
  }

  /** A room just created is found by its id, with the title it was given
      and no messages. */
  lemma CreateThenGet(s: State, token: string, body: ChatroomCreate, verify: string -> Option<Payload>)
    requires Valid(s)
    requires CreateChatroom(s, token, body, verify).0.Ok?
    ensures var (created, s1) := CreateChatroom(s, token, body, verify);
      GetChatroom(s1, token, created.value.id, verify) == Ok(created.value)
  {
    var (created, s1) := CreateChatroom(s, token, body, verify);
    var k := CurrentUserIndex(s, token, verify).value;
    var c := s1.chatrooms[|s.chatrooms|];
    assert CurrentUserIndex(s1, token, verify) == Ok(k);
    FirstIndexAt(s1.chatrooms, (r: Chatroom) => r.id == c.id && r.userId == s.users[k].id, |s.chatrooms|);
    NoMessagesForFreshRoom(s.messages, s.nextChatroomId, s.nextChatroomId);
  }

  // ----- list -----

  /** Sort key for `order_by(desc(last_activity))`. */
  function NewestFirst(c: Chatroom): int
  {
    -c.lastActivity
  }

  /** `get_chatrooms`: the current user's rooms, most recent activity first,
      one page of them, and the count of all of them. */
  function GetChatrooms(s: State, token: string, skip: nat, limit: nat, verify: string -> Option<Payload>)
    : (r: Result<ChatroomList>)
    ensures r.Err? <==> CurrentUserIndex(s, token, verify).Err?
    ensures r.Err? ==> r.error == Unauthorized
    ensures r.Ok? ==>
      var uid := s.users[CurrentUserIndex(s, token, verify).value].id;
      var rooms := r.value.chatrooms;
      && r.value.total == |RoomsOf(s.chatrooms, uid)|
      && |rooms| == Min(limit, Max(0, r.value.total - skip))
      && (forall i :: 0 <= i < |rooms| ==>
            rooms[i] == RoomResponse(s, SortBy(RoomsOf(s.chatrooms, uid), NewestFirst)[skip + i]))
      && (forall i :: 0 <= i < |rooms| ==> rooms[i].userId == uid)
      && (forall i, j :: 0 <= i < j < |rooms| ==> rooms[i].lastActivity >= rooms[j].lastActivity)
  {
    match CurrentUserIndex(s, token, verify)
    case Err(e) => Err(e)
    case Ok(k) =>
      var all := RoomsOf(s.chatrooms, s.users[k].id);
      var page := Page(SortBy(all, NewestFirst), skip, limit);
      SortedPage(all, NewestFirst, skip, limit);
      Ok(ChatroomList(Responses(s, page), |all|))
  }

  /** The responses for a list of stored rooms, in its order. */
  function Responses(s: State, rooms: seq<Chatroom>): (r: seq<ChatroomResponse>)
    ensures |r| == |rooms|
    ensures forall i :: 0 <= i < |rooms| ==> r[i] == RoomResponse(s, rooms[i])
  {
    seq(|rooms|, i requires 0 <= i < |rooms| => RoomResponse(s, rooms[i]))
  }

  lemma ResponsesConcat(s: State, a: seq<Chatroom>, b: seq<Chatroom>)
    ensures Responses(s, a) + Responses(s, b) == Responses(s, a + b)
  {
    var x, y, z := Responses(s, a), Responses(s, b), Responses(s, a + b);
    forall i | 0 <= i < |z| ensures (x + y)[i] == z[i] {
      if i >= |a| {
        assert (x + y)[i] == y[i - |a|] && (a + b)[i] == b[i - |a|];
      }
    }
  }

  /** The rooms of a listing page are the responses of the sorted slice. */
  lemma ChatroomsPage(s: State, token: string, skip: nat, limit: nat, verify: string -> Option<Payload>)
    requires CurrentUserIndex(s, token, verify).Ok?
    ensures GetChatrooms(s, token, skip, limit, verify).Ok?
    ensures GetChatrooms(s, token, skip, limit, verify).value.chatrooms ==
      Responses(s, Page(SortBy(RoomsOf(s.chatrooms, s.users[CurrentUserIndex(s, token, verify).value].id), NewestFirst), skip, limit))
  {
  }

  /** The pages tile the list: the page of `n` rooms from `skip` followed
      by the page of `m` rooms after it is the page of `n + m` rooms from
      `skip`, so consecutive pages never overlap nor skip a room. */
  lemma PagesTile(s: State, token: string, skip: nat, n: nat, m: nat, verify: string -> Option<Payload>)
    requires CurrentUserIndex(s, token, verify).Ok?
    ensures GetChatrooms(s, token, skip, n, verify).value.chatrooms +
            GetChatrooms(s, token, skip + n, m, verify).value.chatrooms ==
            GetChatrooms(s, token, skip, n + m, verify).value.chatrooms
  {
    var uid := s.users[CurrentUserIndex(s, token, verify).value].id;
    var sorted := SortBy(RoomsOf(s.chatrooms, uid), NewestFirst);
    ChatroomsPage(s, token, skip, n, verify);
    ChatroomsPage(s, token, skip + n, m, verify);
    ChatroomsPage(s, token, skip, n + m, verify);
    PagesConcat(sorted, skip, n, m);
    ResponsesConcat(s, Page(sorted, skip, n), Page(sorted, skip + n, m));
  }

  // ----- send a message -----

  /** The writes of a successful send: the new message, the room's count
      and activity stamp, the sender's row `u1` (the limiter's copy, after
      any daily reset) with one more use, and the queued job. */
  function Posted(s: State, k: nat, j: nat, id: int, content: string, u1: User): (r: State)
    requires k < |s.users| && j < |s.chatrooms|
    ensures var m := NewMessage(s.nextMessageId, id, content, s.importTime);
      && r.messages == s.messages + [m]
      && r.nextMessageId == s.nextMessageId + 1
      && r.chatrooms == s.chatrooms[j := s.chatrooms[j].(messageCount := s.chatrooms[j].messageCount + 1,
                                                        lastActivity := m.createdAt)]
      && r.users == s.users[k := IncrementUsage(u1)]
      && r.queue == s.queue + [m.id]
      && r == s.(messages := r.messages, nextMessageId := r.nextMessageId, chatrooms := r.chatrooms,
                 users := r.users, queue := r.queue)
  {
    var m := NewMessage(s.nextMessageId, id, content, s.importTime);
    var room := s.chatrooms[j].(messageCount := s.chatrooms[j].messageCount + 1, lastActivity := m.createdAt);
    s.(messages := s.messages + [m],
       nextMessageId := s.nextMessageId + 1,
       chatrooms := s.chatrooms[j := room],
       users := s.users[k := IncrementUsage(u1)],
       queue := s.queue + [m.id])
  }

  /** `send_message`: 422 for content off the schema; 401; 429 when the
      daily quota is spent (before ownership is checked, and with nothing
      written); 404 for a room the user does not own (the lazy daily reset,
      never committed, is dropped too); otherwise one new message, the
      room's count and activity stamp, the user's usage count (after any
      daily reset) and the queued background job. */
  function SendMessage(s: State, token: string, id: int, body: MessageCreate, now: int,
                       verify: string -> Option<Payload>): (r: (Result<Message>, State))
    ensures !ValidContent(body.content) ==> r == (Err(Unprocessable), s)
    ensures ValidContent(body.content) && CurrentUserIndex(s, token, verify).Err? ==> r == (Err(Unauthorized), s)
    ensures ValidContent(body.content) && CurrentUserIndex(s, token, verify).Ok? ==>
      var k := CurrentUserIndex(s, token, verify).value;
      var (o, u1) := CheckDailyLimit(s.users[k], now);
      var room := OwnedRoomIndex(s.chatrooms, id, s.users[k].id);
      && (o.Fail? ==> r == (Err(TooManyRequests), s))
      && (o == Pass && room.None? ==> r == (Err(NotFound), s))
      && (o == Pass && room.Some? ==>
            r == (Ok(NewMessage(s.nextMessageId, id, body.content, s.importTime)),
                  Posted(s, k, room.value, id, body.content, u1)))
  {
    if !ValidContent(body.content) then (Err(Unprocessable), s)
    else match CurrentUserIndex(s, token, verify)
      case Err(e) => (Err(e), s)
      case Ok(k) =>
        var (o, u1) := CheckDailyLimit(s.users[k], now);
        if o.Fail? then (Err(o.error), s)
        else match OwnedRoomIndex(s.chatrooms, id, s.users[k].id)
          case None => (Err(NotFound), s)
          case Some(j) =>
            (Ok(NewMessage(s.nextMessageId, id, body.content, s.importTime)), Posted(s, k, j, id, body.content, u1))
  }

  /** Sending keeps every room's count equal to its number of messages,
      and ids and numbers unique. */
  lemma SendMessageKeepsValid(s: State, token: string, id: int, body: MessageCreate, now: int,
                              verify: string -> Option<Payload>)
    requires Valid(s)
    ensures Valid(SendMessage(s, token, id, body, now, verify).1)
  {
    var (res, s1) := SendMessage(s, token, id, body, now, verify);
    if res.Ok? {
      var k := CurrentUserIndex(s, token, verify).value;
      var j := OwnedRoomIndex(s.chatrooms, id, s.users[k].id).value;
      var m := res.value;
      UpdateKeepsUsersWellFormed(s.users, s.nextUserId, k, IncrementUsage(CheckDailyLimit(s.users[k], now).1));
      forall i | 0 <= i < |s1.chatrooms|
        ensures s1.chatrooms[i].messageCount == |MessagesOf(s1.messages, s1.chatrooms[i].id)|
      {
        MessagesOfAppend(s.messages, m, s.chatrooms[i].id);
        assert s1.chatrooms[i].id == s.chatrooms[i].id;
      }
    }
  }

  /** A successful send adds exactly one message to the room, as its last,
      and raises the sender's usage count for the day by one. */
  lemma SendAppendsToRoom(s: State, token: string, id: int, body: MessageCreate, now: int,
                          verify: string -> Option<Payload>)
    requires Valid(s)
    requires SendMessage(s, token, id, body, now, verify).0.Ok?
    ensures var (res, s1) := SendMessage(s, token, id, body, now, verify);
      var k := CurrentUserIndex(s, token, verify).value;
      && MessagesOf(s1.messages, id) == MessagesOf(s.messages, id) + [res.value]
      && s1.users[k].dailyUsageCount ==
           (if Day(s.users[k].lastUsageReset) < Day(now) then 0 else s.users[k].dailyUsageCount) + 1
      && s1.queue == s.queue + [res.value.id]
  {
    var (res, s1) := SendMessage(s, token, id, body, now, verify);
    MessagesOfAppend(s.messages, res.value, id);
  }

  // ----- list messages -----

  function OldestFirst(m: Message): int
  {
    m.createdAt
  }

  /** `get_messages`: 404 unless the user owns the room; then one page of
      the room's messages, oldest first. */
  function GetMessages(s: State, token: string, id: int, skip: nat, limit: nat,
                       verify: string -> Option<Payload>): (r: Result<seq<Message>>)
    ensures CurrentUserIndex(s, token, verify).Err? ==> r == Err(Unauthorized)
    ensures CurrentUserIndex(s, token, verify).Ok? ==>
      var uid := s.users[CurrentUserIndex(s, token, verify).value].id;
      (r == Err(NotFound) <==> OwnedRoomIndex(s.chatrooms, id, uid).None?)
    ensures CurrentUserIndex(s, token, verify).Ok? &&
            OwnedRoomIndex(s.chatrooms, id, s.users[CurrentUserIndex(s, token, verify).value].id).Some? ==>
      r == Ok(Page(SortBy(MessagesOf(s.messages, id), OldestFirst), skip, limit))
    ensures r.Ok? ==>
      && |r.value| == Min(limit, Max(0, |MessagesOf(s.messages, id)| - skip))
      && (forall i :: 0 <= i < |r.value| ==> r.value[i].chatroomId == id && r.value[i] in s.messages)
      && (forall i, j :: 0 <= i < j < |r.value| ==> r.value[i].createdAt <= r.value[j].createdAt)
  {
    match CurrentUserIndex(s, token, verify)
    case Err(e) => Err(e)
    case Ok(k) =>
      if OwnedRoomIndex(s.chatrooms, id, s.users[k].id).None? then Err(NotFound)
      else
        var all := MessagesOf(s.messages, id);
        SortedPage(all, OldestFirst, skip, limit);
        Ok(Page(SortBy(all, OldestFirst), skip, limit))
  }

  /** A listing from the start whose limit covers the room returns exactly
      the room's messages, each as often as it is stored, oldest first. */
  lemma FullListingIsRoom(s: State, token: string, id: int, limit: nat, verify: string -> Option<Payload>)
    requires CurrentUserIndex(s, token, verify).Ok?
    requires OwnedRoomIndex(s.chatrooms, id, s.users[CurrentUserIndex(s, token, verify).value].id).Some?
    requires limit >= |MessagesOf(s.messages, id)|
    ensures GetMessages(s, token, id, 0, limit, verify).Ok?
    ensures multiset(GetMessages(s, token, id, 0, limit, verify).value) == multiset(MessagesOf(s.messages, id))
  {
    var sorted := SortBy(MessagesOf(s.messages, id), OldestFirst);
    assert Page(sorted, 0, limit) == sorted;
  }

  // ----- delete -----

  /** `delete_chatroom`: 404 unless the user owns the room; then the room
      and every message of it are removed, and nothing else. */
  function DeleteChatroom(s: State, token: string, id: int, verify: string -> Option<Payload>)
    : (r: (Result<()>, State))
    ensures CurrentUserIndex(s, token, verify).Err? ==> r == (Err(Unauthorized), s)
    ensures CurrentUserIndex(s, token, verify).Ok? ==>
      var room := OwnedRoomIndex(s.chatrooms, id, s.users[CurrentUserIndex(s, token, verify).value].id);
      && (room.None? ==> r == (Err(NotFound), s))
      && (room.Some? ==> r == (Ok(()), s.(chatrooms := RemoveAt(s.chatrooms, room.value),
                                          messages := MessagesNotOf(s.messages, id))))
  {
    match CurrentUserIndex(s, token, verify)
    case Err(e) => (Err(e), s)
    case Ok(k) =>
      match OwnedRoomIndex(s.chatrooms, id, s.users[k].id)
      case None => (Err(NotFound), s)
      case Some(j) =>
        (Ok(()), s.(chatrooms := RemoveAt(s.chatrooms, j),
                    messages := MessagesNotOf(s.messages, id)))
  }

  lemma DeleteChatroomKeepsValid(s: State, token: string, id: int, verify: string -> Option<Payload>)
    requires Valid(s)
    ensures Valid(DeleteChatroom(s, token, id, verify).1)
  {
    var (res, s1) := DeleteChatroom(s, token, id, verify);
    if res.Ok? {
      var k := CurrentUserIndex(s, token, verify).value;
      var j := OwnedRoomIndex(s.chatrooms, id, s.users[k].id).value;
      var keep := (m: Message) => m.chatroomId != id;
      forall i | 0 <= i < |s1.chatrooms|
        ensures s1.chatrooms[i].messageCount == |MessagesOf(s1.messages, s1.chatrooms[i].id)|
      {
        var i0 := if i < j then i else i + 1;
        assert s1.chatrooms[i] == s.chatrooms[i0];
        assert s.chatrooms[i0].id != id;
        FilterOfFilter(s.messages, (m: Message) => m.chatroomId == s.chatrooms[i0].id, keep);
      }
      assert MessagesWellFormed(s1.messages, s1.nextChatroomId) by {
        forall i | 0 <= i < |s1.messages| ensures s1.messages[i].chatroomId < s1.nextChatroomId {
          assert s1.messages[i] in s1.messages;
        }
      }
    }
  }

  /** After a delete no message of the room is left, and the room is gone
      from the owner's view. */
  lemma DeleteLeavesNothing(s: State, token: string, id: int, verify: string -> Option<Payload>)
    requires Valid(s)
    requires DeleteChatroom(s, token, id, verify).0.Ok?
    ensures var s1 := DeleteChatroom(s, token, id, verify).1;
      && MessagesOf(s1.messages, id) == []
      && GetChatroom(s1, token, id, verify) == Err(NotFound)
  {
    var s1 := DeleteChatroom(s, token, id, verify).1;
    var k := CurrentUserIndex(s, token, verify).value;
    var j := OwnedRoomIndex(s.chatrooms, id, s.users[k].id).value;
    assert forall x :: x in s1.messages ==> x.chatroomId != id;
    assert CurrentUserIndex(s1, token, verify) == Ok(k);
    var p := (r: Chatroom) => r.id == id && r.userId == s.users[k].id;
    assert forall i :: 0 <= i < |s1.chatrooms| ==> !p(s1.chatrooms[i]) by {
      forall i | 0 <= i < |s1.chatrooms| ensures !p(s1.chatrooms[i]) {
        var i0 := if i < j then i else i + 1;
        assert s1.chatrooms[i] == s.chatrooms[i0];
      }
    }
    FilterNone(s1.messages, (m: Message) => m.chatroomId == id);
  }

  // ----- rename -----

  /** `update_chatroom`: 422, 401, 404 as above; then only the room's title
      changes. */
  function UpdateChatroom(s: State, token: string, id: int, body: ChatroomCreate, verify: string -> Option<Payload>)
    : (r: (Result<ChatroomResponse>, State))
    ensures !ValidTitle(body.title) ==> r == (Err(Unprocessable), s)
    ensures ValidTitle(body.title) && CurrentUserIndex(s, token, verify).Err? ==> r == (Err(Unauthorized), s)
    ensures ValidTitle(body.title) && CurrentUserIndex(s, token, verify).Ok? ==>
      var room := OwnedRoomIndex(s.chatrooms, id, s.users[CurrentUserIndex(s, token, verify).value].id);
      && (room.None? ==> r == (Err(NotFound), s))
      && (room.Some? ==>
            var c := s.chatrooms[room.value].(title := body.title);
            r == (Ok(RoomResponse(s, c)), s.(chatrooms := s.chatrooms[room.value := c])))
  {
    if !ValidTitle(body.title) then (Err(Unprocessable), s)
    else match CurrentUserIndex(s, token, verify)
      case Err(e) => (Err(e), s)
      case Ok(k) =>
        match OwnedRoomIndex(s.chatrooms, id, s.users[k].id)
        case None => (Err(NotFound), s)
        case Some(j) =>
          var c := s.chatrooms[j].(title := body.title);
          (Ok(RoomResponse(s, c)), s.(chatrooms := s.chatrooms[j := c]))
  }

  lemma UpdateChatroomKeepsValid(s: State, token: string, id: int, body: ChatroomCreate,
                                 verify: string -> Option<Payload>)
    requires Valid(s)
    ensures Valid(UpdateChatroom(s, token, id, body, verify).1)
  {
  }

  // ----- ownership -----

  /** A room owned by someone else is invisible: every route that names it
      answers 404 and changes nothing, whatever the room's state. */
  lemma ForeignRoomInvisible(s: State, token: string, j: nat, body: MessageCreate, title: ChatroomCreate,
                             now: int, skip: nat, limit: nat, verify: string -> Option<Payload>)
    requires Valid(s)
    requires CurrentUserIndex(s, token, verify).Ok? && j < |s.chatrooms|
    requires s.chatrooms[j].userId != s.users[CurrentUserIndex(s, token, verify).value].id
    requires ValidTitle(title.title)
    ensures var id := s.chatrooms[j].id;
      && GetChatroom(s, token, id, verify) == Err(NotFound)
      && GetMessages(s, token, id, skip, limit, verify) == Err(NotFound)
      && DeleteChatroom(s, token, id, verify) == (Err(NotFound), s)
      && UpdateChatroom(s, token, id, title, verify) == (Err(NotFound), s)
  {
    var k := CurrentUserIndex(s, token, verify).value;
    var id := s.chatrooms[j].id;
    assert OwnedRoomIndex(s.chatrooms, id, s.users[k].id).None?;
  }
}
