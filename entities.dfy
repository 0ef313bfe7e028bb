/** Record shapes of the three chat tables and of the DTOs the handlers return. */
module Entities {
  import opened Common

  /** A row of the Message table. `sentDate` is the server's clock reading at
      acceptance time, as an abstract tick count. */
  datatype Msg = Msg(id: int, content: string, sentDate: int, senderId: string, roomId: int)

  /** A row of the UserRooms join table; the pair is its composite key. */
  datatype UserRoom = UserRoom(userId: string, roomId: int)

  /** What the message handlers send back for one message. */
  datatype MessageDto = MessageDto(
    id: int, content: string, sentDate: int,
    senderId: string, senderUserName: string, roomId: int)

  /** What the room handlers send back for one room. */
  datatype RoomDto = RoomDto(id: int, chatRoomName: string)

  /** `Sender.UserName ?? fallback`: a user with no user name, or one the
      identity store does not know, shows the fallback text. */
  function UserNameOr(userNames: map<string, string>, userId: string, fallback: string): string
  {
    if userId in userNames then userNames[userId] else fallback
  }

  /** The projection every message handler applies to an entity. */
  function ToDto(m: Msg, userNames: map<string, string>, fallback: string): MessageDto
  {
    MessageDto(m.id, m.content, m.sentDate, m.senderId,
               UserNameOr(userNames, m.senderId, fallback), m.roomId)
  }

  /** The entity fields a DTO carries. */
  function ToEntity(d: MessageDto): Msg
  {
    Msg(d.id, d.content, d.sentDate, d.senderId, d.roomId)
  }

  /** The projection loses none of the entity's fields: every field is copied
      unchanged, so the entity can be read back from the DTO, and the display
      name is the sender's user name or the fallback. */
  lemma DtoRoundTrip(m: Msg, userNames: map<string, string>, fallback: string)
    ensures ToEntity(ToDto(m, userNames, fallback)) == m
    ensures ToDto(m, userNames, fallback).senderUserName ==
              (if m.senderId in userNames then userNames[m.senderId] else fallback)
  {
  }
}
