/** The chat tables as the AddChatStructure migration declares them: ChatRoom
    and Message with autoincrement integer keys, UserRooms keyed by the pair
    (UserId, RoomId), and foreign keys from Message and UserRooms to ChatRoom,
    both with cascading delete. The users table is not modelled: the foreign
    keys to it appear only as the cascades a user deletion triggers. */
module Schema {
  import opened Entities

  /** The referential and key rules of the three tables:
      - autoincrement keys start at 1 and stay below the next id to be issued;
      - a message row is stored under its own Id;
      - every message and every membership references an existing room.
      The composite key of UserRooms is the fact that `members` is a set. */
  ghost predicate Integrity(rooms: map<int, string>, members: set<UserRoom>,
                            messages: map<int, Msg>, nextRoomId: int, nextMessageId: int)
  {
    && 1 <= nextRoomId && 1 <= nextMessageId
    && (forall k :: k in rooms ==> 1 <= k < nextRoomId)
    && (forall k :: k in messages ==> 1 <= k < nextMessageId && messages[k].id == k)
    && (forall k :: k in messages ==> messages[k].roomId in rooms)
    && (forall p :: p in members ==> p.roomId in rooms)
  }

  /** Memberships left after the room `roomId` is deleted. */
  function WithoutRoomMembers(members: set<UserRoom>, roomId: int): set<UserRoom>
  {
    set p | p in members && p.roomId != roomId
  }

  /** Messages left after the room `roomId` is deleted (FK_Message_ChatRoom_RoomId). */
  function WithoutRoomMessages(messages: map<int, Msg>, roomId: int): map<int, Msg>
  {
    map k | k in messages && messages[k].roomId != roomId :: messages[k]
  }

  /** Memberships left after the user `userId` is deleted (FK_UserRooms_AspNetUsers_UserId). */
  function WithoutUserMembers(members: set<UserRoom>, userId: string): set<UserRoom>
  {
    set p | p in members && p.userId != userId
  }

  /** Messages left after the user `userId` is deleted (FK_Message_AspNetUsers_SenderId). */
  function WithoutUserMessages(messages: map<int, Msg>, userId: string): map<int, Msg>
  {
    map k | k in messages && messages[k].senderId != userId :: messages[k]
  }

  /** A membership always points at a stored room, so a handler that has found
      the caller's membership of `roomId` always finds the room too. */
  lemma MembershipImpliesRoom(rooms: map<int, string>, members: set<UserRoom>,
                              messages: map<int, Msg>, nextRoomId: int, nextMessageId: int,
                              userId: string, roomId: int)
    requires Integrity(rooms, members, messages, nextRoomId, nextMessageId)
    requires UserRoom(userId, roomId) in members
    ensures roomId in rooms
  {
  }

  /** The next id to be issued is not the key of any stored row, and no stored
      row references a room with that id. */
  lemma NextIdsAreFresh(rooms: map<int, string>, members: set<UserRoom>,
                        messages: map<int, Msg>, nextRoomId: int, nextMessageId: int)
    requires Integrity(rooms, members, messages, nextRoomId, nextMessageId)
    ensures nextRoomId !in rooms && nextMessageId !in messages
    ensures forall p :: p in members ==> p.roomId != nextRoomId
    ensures forall k :: k in messages ==> messages[k].roomId != nextRoomId
  {
  }

  /** Deleting a room with its cascades removes every membership and every
      message of that room, keeps every row of any other room, and leaves the
      tables consistent. */
  lemma RoomCascade(rooms: map<int, string>, members: set<UserRoom>,
                    messages: map<int, Msg>, nextRoomId: int, nextMessageId: int, roomId: int)
    requires Integrity(rooms, members, messages, nextRoomId, nextMessageId)
    ensures Integrity(rooms - {roomId}, WithoutRoomMembers(members, roomId),
                      WithoutRoomMessages(messages, roomId), nextRoomId, nextMessageId)
    ensures forall p :: p in WithoutRoomMembers(members, roomId) <==> p in members && p.roomId != roomId
    ensures forall k :: k in WithoutRoomMessages(messages, roomId) <==>
                          k in messages && messages[k].roomId != roomId
    ensures forall k :: k in WithoutRoomMessages(messages, roomId) ==>
                          WithoutRoomMessages(messages, roomId)[k] == messages[k]
  {
  }

  /** Without the storage cascade on messages the deletion would break the
      foreign key: removing a room and its memberships while one of its
      messages stays leaves that message pointing at no room. */
  lemma MessageCascadeNeeded(rooms: map<int, string>, members: set<UserRoom>,
                             messages: map<int, Msg>, nextRoomId: int, nextMessageId: int,
                             roomId: int, k: int)
    requires Integrity(rooms, members, messages, nextRoomId, nextMessageId)
    requires k in messages && messages[k].roomId == roomId
    ensures !Integrity(rooms - {roomId}, WithoutRoomMembers(members, roomId),
                       messages, nextRoomId, nextMessageId)
  {
  }

  /** Deleting a user cascades to the user's memberships and messages, keeps
      every row of other users, and leaves the tables consistent. */
  lemma UserCascade(rooms: map<int, string>, members: set<UserRoom>,
                    messages: map<int, Msg>, nextRoomId: int, nextMessageId: int, userId: string)
    requires Integrity(rooms, members, messages, nextRoomId, nextMessageId)
    ensures Integrity(rooms, WithoutUserMembers(members, userId),
                      WithoutUserMessages(messages, userId), nextRoomId, nextMessageId)
    ensures forall p :: p in WithoutUserMembers(members, userId) <==> p in members && p.userId != userId
    ensures forall k :: k in WithoutUserMessages(messages, userId) <==>
                          k in messages && messages[k].senderId != userId
    ensures forall k :: k in WithoutUserMessages(messages, userId) ==>
                          WithoutUserMessages(messages, userId)[k] == messages[k]
  {
  }
}
