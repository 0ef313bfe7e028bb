/** The room and message handlers of the chat backend over one store holding
    the ChatRoom, UserRooms and Message tables. Each handler is one sequential
    step: caller-id check (Unauthorized), input check (BadRequest), membership
    or sender check (Forbidden), existence check (NotFound), then the write. */
module Chat {
  import opened Common
  import opened Entities
  import opened Schema
  import opened Queries

  /** The HTTP results the handlers produce. */
  datatype Response<T> =
    | Ok(value: T)
    | Created(location: string, value: T)
    | NoContent
    | BadRequest(error: string)
    | Unauthorized
    | Forbidden
    | NotFound(error: string)

  /** Display name of a sender the identity store has no user name for. */
  const UnknownSender := "Desconocido"
  /** Display name shown in one's own message history when the user name is missing. */
  const SelfSender := "Yo"

  const MessageNotFound := "Mensaje no encontrado."
  const RoomNameRequired := "El nombre de la sala es obligatorio."
  const RoomNameEmpty := "El nombre de la sala no puede estar vacío."

  function RoomNotFound(id: int): string
  {
    "Sala con ID " + IntToString(id) + " no encontrada."
  }

  class Store {
    var rooms: map<int, string>
    var members: set<UserRoom>
    var messages: map<int, Msg>
    var nextRoomId: int
    var nextMessageId: int

    ghost predicate Valid()
      reads this
    {
      Integrity(rooms, members, messages, nextRoomId, nextMessageId)
    }

    /** The tables as the migration creates them: empty, ids issued from 1. */
    constructor ()
      ensures Valid()
      ensures rooms == map[] && members == {} && messages == map[]
      ensures nextRoomId == 1 && nextMessageId == 1
    {
      rooms, members, messages := map[], {}, map[];
      nextRoomId, nextMessageId := 1, 1;
    }

    predicate IsMember(userId: string, roomId: int)
      reads this
    {
      UserRoom(userId, roomId) in members
    }

    // ---------------------------------------------------------------- messages

    /** GET /api/messages/room/{roomId}. */
    method GetRoomMessages(callerId: Option<string>, roomId: int, userNames: map<string, string>)
      returns (r: Response<seq<MessageDto>>)
      requires Valid()
      ensures !Authenticated(callerId) ==> r == Unauthorized
      ensures Authenticated(callerId) && !IsMember(callerId.value, roomId) ==> r == Forbidden
      ensures Authenticated(callerId) && IsMember(callerId.value, roomId) ==>
                && r.Ok?
                && ListsExactly(r.value, messages, ByRoom(roomId))
                && OrderedDtos(r.value, true)
                && forall d :: d in r.value ==>
                     d.senderUserName == UserNameOr(userNames, d.senderId, UnknownSender)
    {
      if !Authenticated(callerId) {
        return Unauthorized;
      }
      var userId := callerId.value;
      if !IsMember(userId, roomId) {
        return Forbidden;
      }
      r := Ok(Query(messages, nextMessageId, ByRoom(roomId), true, userNames, UnknownSender));
    }

    /** GET /api/messages/me: no membership check, newest first. */
    method GetUserSentMessages(callerId: Option<string>, userNames: map<string, string>)
      returns (r: Response<seq<MessageDto>>)
      requires Valid()
      ensures !Authenticated(callerId) ==> r == Unauthorized
      ensures Authenticated(callerId) ==>
                && r.Ok?
                && ListsExactly(r.value, messages, BySender(callerId.value))
                && OrderedDtos(r.value, false)
                && forall d :: d in r.value ==>
                     d.senderUserName == UserNameOr(userNames, d.senderId, SelfSender)
    {
      if !Authenticated(callerId) {
        return Unauthorized;
      }
      var userId := callerId.value;
      r := Ok(Query(messages, nextMessageId, BySender(userId), false, userNames, SelfSender));
    }

    /** POST /api/messages: the input is the room id and the content the
        handler reads; `now` is the server clock. */
    method CreateMessage(callerId: Option<string>, roomId: int, content: string, now: int,
                         userNames: map<string, string>)
      returns (r: Response<MessageDto>)
      requires Valid()
      modifies this
      ensures Valid()
      ensures !r.Created? ==> unchanged(this)
      ensures !Authenticated(callerId) ==> r == Unauthorized
      ensures Authenticated(callerId) && UserRoom(callerId.value, roomId) !in old(members) ==>
                r == Forbidden
      ensures Authenticated(callerId) && UserRoom(callerId.value, roomId) in old(members) ==>
                var id := old(nextMessageId);
                var m := Msg(id, content, now, callerId.value, roomId);
                && id !in old(messages)
                && messages == old(messages)[id := m]
                && nextMessageId == id + 1
                && rooms == old(rooms) && members == old(members) && nextRoomId == old(nextRoomId)
                && r == Created("/api/messages/" + IntToString(id), ToDto(m, userNames, UnknownSender))
    {
      if !Authenticated(callerId) {
        return Unauthorized;
      }
      var senderId := callerId.value;
      if !IsMember(senderId, roomId) {
        return Forbidden;
      }
      var id := nextMessageId;
      var m := Msg(id, content, now, senderId, roomId);
      messages := messages[id := m];
      nextMessageId := nextMessageId + 1;
      r := Created("/api/messages/" + IntToString(id), ToDto(m, userNames, UnknownSender));
    }

    /** PUT /api/messages/{id}: existence is checked before ownership. */
    method UpdateMessage(callerId: Option<string>, id: int, newContent: string,
                         userNames: map<string, string>)
      returns (r: Response<MessageDto>)
      requires Valid()
      modifies this
      ensures Valid()
      ensures !r.Ok? ==> unchanged(this)
      ensures !Authenticated(callerId) ==> r == Unauthorized
      ensures Authenticated(callerId) && id !in old(messages) ==> r == NotFound(MessageNotFound)
      ensures (Authenticated(callerId) && id in old(messages) &&
               old(messages)[id].senderId != callerId.value) ==> r == Forbidden
      ensures Authenticated(callerId) && id in old(messages) &&
              old(messages)[id].senderId == callerId.value ==>
                var m := old(messages)[id].(content := newContent);
                && messages == old(messages)[id := m]
                && rooms == old(rooms) && members == old(members)
                && nextRoomId == old(nextRoomId) && nextMessageId == old(nextMessageId)
                && r == Ok(ToDto(m, userNames, UnknownSender))
    {
      if !Authenticated(callerId) {
        return Unauthorized;
      }
      var userId := callerId.value;
      if id !in messages {
        return NotFound(MessageNotFound);
      }
      var message := messages[id];
      if message.senderId != userId {
        return Forbidden;
      }
      message := message.(content := newContent);
      messages := messages[id := message];
      r := Ok(ToDto(message, userNames, UnknownSender));
    }

    /** DELETE /api/messages/{id}. */
    method DeleteMessage(callerId: Option<string>, id: int) returns (r: Response<()>)
      requires Valid()
      modifies this
      ensures Valid()
      ensures !r.NoContent? ==> unchanged(this)
      ensures !Authenticated(callerId) ==> r == Unauthorized
      ensures Authenticated(callerId) && id !in old(messages) ==> r == NotFound(MessageNotFound)
      ensures (Authenticated(callerId) && id in old(messages) &&
               old(messages)[id].senderId != callerId.value) ==> r == Forbidden
      ensures Authenticated(callerId) && id in old(messages) &&
              old(messages)[id].senderId == callerId.value ==>
                && r == NoContent
                && messages == old(messages) - {id}
                && rooms == old(rooms) && members == old(members)
                && nextRoomId == old(nextRoomId) && nextMessageId == old(nextMessageId)
    {
      if !Authenticated(callerId) {
        return Unauthorized;
      }
      var userId := callerId.value;
      if id !in messages {
        return NotFound(MessageNotFound);
      }
      if messages[id].senderId != userId {
        return Forbidden;
      }
      messages := messages - {id};
      r := NoContent;
    }

    // ------------------------------------------------------------------- rooms

    /** GET /api/rooms: the caller's rooms, through the memberships. */
    method GetUserRooms(callerId: Option<string>) returns (r: Response<seq<RoomDto>>)
      requires Valid()
      ensures !Authenticated(callerId) ==> r == Unauthorized
      ensures Authenticated(callerId) ==>
                && r.Ok?
                && (forall d :: d in r.value <==>
                      IsMember(callerId.value, d.id) && d.id in rooms && d.chatRoomName == rooms[d.id])
                && (forall id :: IsMember(callerId.value, id) ==>
                      id in rooms && RoomDto(id, rooms[id]) in r.value)
                && (forall i, j :: 0 <= i < j < |r.value| ==> r.value[i].id != r.value[j].id)
    {
      if !Authenticated(callerId) {
        return Unauthorized;
      }
      var userId := callerId.value;
      r := Ok(RoomsOf(rooms, members, userId, nextRoomId));
    }

    /** First save of room creation: insert the room under a fresh id. The room
        has no member yet. */
    method AddRoom(name: string) returns (id: int)
      requires Valid()
      modifies this
      ensures Valid()
      ensures id == old(nextRoomId) && id !in old(rooms)
      ensures rooms == old(rooms)[id := name] && nextRoomId == id + 1
      ensures members == old(members) && messages == old(messages)
      ensures nextMessageId == old(nextMessageId)
      ensures forall p :: p in members ==> p.roomId != id
    {
      NextIdsAreFresh(rooms, members, messages, nextRoomId, nextMessageId);
      id := nextRoomId;
      rooms := rooms[id := name];
      nextRoomId := nextRoomId + 1;
    }

    /** Second save of room creation: insert the membership row. The foreign
        key demands the room exist and the composite key forbids a second row
        for the same pair. */
    method AddMembership(userId: string, roomId: int)
      requires Valid()
      requires roomId in rooms
      requires UserRoom(userId, roomId) !in members
      modifies this
      ensures Valid()
      ensures members == old(members) + {UserRoom(userId, roomId)}
      ensures rooms == old(rooms) && messages == old(messages)
      ensures nextRoomId == old(nextRoomId) && nextMessageId == old(nextMessageId)
    {
      members := members + {UserRoom(userId, roomId)};
    }

    /** POST /api/rooms: the creator becomes the room's only member. */
    method CreateRoom(callerId: Option<string>, name: Option<string>) returns (r: Response<RoomDto>)
      requires Valid()
      modifies this
      ensures Valid()
      ensures !r.Created? ==> unchanged(this)
      ensures !Authenticated(callerId) ==> r == Unauthorized
      ensures Authenticated(callerId) && IsNullOrWhiteSpace(name) ==> r == BadRequest(RoomNameRequired)
      ensures Authenticated(callerId) && !IsNullOrWhiteSpace(name) ==>
                var id := old(nextRoomId);
                && id !in old(rooms)
                && rooms == old(rooms)[id := name.value]
                && members == old(members) + {UserRoom(callerId.value, id)}
                && (forall p :: p in members && p.roomId == id ==> p.userId == callerId.value)
                && messages == old(messages)
                && nextRoomId == id + 1 && nextMessageId == old(nextMessageId)
                && r == Created("/api/rooms/" + IntToString(id), RoomDto(id, name.value))
                && RoomDto(id, name.value) in RoomsOf(rooms, members, callerId.value, nextRoomId)
    {
      if !Authenticated(callerId) {
        return Unauthorized;
      }
      var userId := callerId.value;
      if IsNullOrWhiteSpace(name) {
        return BadRequest(RoomNameRequired);
      }
      var id := AddRoom(name.value);
      AddMembership(userId, id);
      r := Created("/api/rooms/" + IntToString(id), RoomDto(id, name.value));
    }

    /** PUT /api/rooms/{id}: name, then membership, then existence. */
    method UpdateRoom(callerId: Option<string>, id: int, name: Option<string>)
      returns (r: Response<RoomDto>)
      requires Valid()
      modifies this
      ensures Valid()
      ensures !r.Ok? ==> unchanged(this)
      ensures !r.NotFound?
      ensures !Authenticated(callerId) ==> r == Unauthorized
      ensures Authenticated(callerId) && IsNullOrWhiteSpace(name) ==> r == BadRequest(RoomNameEmpty)
      ensures (Authenticated(callerId) && !IsNullOrWhiteSpace(name) &&
               !old(IsMember(callerId.value, id))) ==> r == Forbidden
      ensures Authenticated(callerId) && !IsNullOrWhiteSpace(name) &&
              old(IsMember(callerId.value, id)) ==>
                && id in old(rooms)
                && rooms == old(rooms)[id := name.value]
                && members == old(members) && messages == old(messages)
                && nextRoomId == old(nextRoomId) && nextMessageId == old(nextMessageId)
                && r == Ok(RoomDto(id, name.value))
    {
      if !Authenticated(callerId) {
        return Unauthorized;
      }
      var userId := callerId.value;
      if IsNullOrWhiteSpace(name) {
        return BadRequest(RoomNameEmpty);
      }
      if !IsMember(userId, id) {
        return Forbidden;
      }
      MembershipImpliesRoom(rooms, members, messages, nextRoomId, nextMessageId, userId, id);
      if id !in rooms {
        return NotFound(RoomNotFound(id));
      }
      rooms := rooms[id := name.value];
      r := Ok(RoomDto(id, name.value));
    }

    /** The single save of room deletion: every membership of the room and the
        room itself, and by the storage cascade every message of the room. */
    method RemoveRoom(id: int)
      requires Valid()
      requires id in rooms
      modifies this
      ensures Valid()
      ensures rooms == old(rooms) - {id}
      ensures members == WithoutRoomMembers(old(members), id)
      ensures messages == WithoutRoomMessages(old(messages), id)
      ensures nextRoomId == old(nextRoomId) && nextMessageId == old(nextMessageId)
    {
      RoomCascade(rooms, members, messages, nextRoomId, nextMessageId, id);
      members := WithoutRoomMembers(members, id);
      rooms := rooms - {id};
      messages := WithoutRoomMessages(messages, id);
    }

    /** DELETE /api/rooms/{id}: any member may delete the room. */
    method DeleteRoom(callerId: Option<string>, id: int) returns (r: Response<()>)
      requires Valid()
      modifies this
      ensures Valid()
      ensures !r.NoContent? ==> unchanged(this)
      ensures !r.NotFound?
      ensures !Authenticated(callerId) ==> r == Unauthorized
      ensures Authenticated(callerId) && !old(IsMember(callerId.value, id)) ==> r == Forbidden
      ensures Authenticated(callerId) && old(IsMember(callerId.value, id)) ==>
                && r == NoContent
                && rooms == old(rooms) - {id}
                && (forall p :: p in members <==> p in old(members) && p.roomId != id)
                && (forall k :: k in messages <==> k in old(messages) && old(messages)[k].roomId != id)
                && (forall k :: k in messages ==> messages[k] == old(messages)[k])
                && nextRoomId == old(nextRoomId) && nextMessageId == old(nextMessageId)
    {
      if !Authenticated(callerId) {
        return Unauthorized;
      }
      var userId := callerId.value;
      if !IsMember(userId, id) {
        return Forbidden;
      }
      MembershipImpliesRoom(rooms, members, messages, nextRoomId, nextMessageId, userId, id);
      if id !in rooms {
        return NotFound(RoomNotFound(id));
      }
      RemoveRoom(id);
      r := NoContent;
    }

    // ------------------------------------------------------------------- users

    /** What the storage does when the identity store deletes a user: the
        foreign keys from UserRooms and Message to the users table cascade. */
    method CascadeUserDeletion(userId: string)
      requires Valid()
      modifies this
      ensures Valid()
      ensures rooms == old(rooms)
      ensures forall p :: p in members <==> p in old(members) && p.userId != userId
      ensures forall k :: k in messages <==> k in old(messages) && old(messages)[k].senderId != userId
      ensures forall k :: k in messages ==> messages[k] == old(messages)[k]
      ensures nextRoomId == old(nextRoomId) && nextMessageId == old(nextMessageId)
    {
      UserCascade(rooms, members, messages, nextRoomId, nextMessageId, userId);
      members := WithoutUserMembers(members, userId);
      messages := WithoutUserMessages(messages, userId);
    }
  }
}
