/** A client of the store that runs a short two-user session through the
    handlers and shows what their contracts let a caller conclude. */
module Session {
  import opened Common
  import opened Entities
  import opened Queries
  import opened Chat

  /** Names the first two entries of a listing as its members, outside any
      branch the caller's facts rule out. */
  lemma FirstTwo(dtos: seq<MessageDto>)
    requires |dtos| > 1
    ensures dtos[0] in dtos && dtos[1] in dtos
  {
  }

  /** A listing of a table holding the one selected message `m` shows `m`
      and nothing else. */
  lemma SingleMessageListing(dtos: seq<MessageDto>, m: Msg, sel: Selector)
    requires ListsExactly(dtos, map[m.id := m], sel)
    requires Selects(sel, m)
    ensures |dtos| == 1 && ToEntity(dtos[0]) == m
  {
    var t := map[m.id := m];
    assert m.id in t && Selects(sel, t[m.id]);
    assert exists d :: d in dtos && d.id == m.id;
    if |dtos| > 1 {
      FirstTwo(dtos);
      assert false;
    }
    assert dtos[0] in dtos;
  }

  /** User "A" creates room "general" and posts "hello" in it at time `t1`;
      user "B", who is not a member, is refused when posting there. */
  method OpenRoom(t1: int, userNames: map<string, string>)
    returns (store: Store, refusedPost: Response<MessageDto>, posted: Response<MessageDto>)
    ensures fresh(store) && store.Valid()
    ensures store.rooms == map[1 := "general"] && store.members == {UserRoom("A", 1)}
    ensures store.messages == map[1 := Msg(1, "hello", t1, "A", 1)]
    ensures refusedPost == Forbidden
    ensures posted.Created? && posted.value.id == 1 && posted.value.roomId == 1
    ensures posted.value.senderId == "A" && posted.value.content == "hello" && posted.value.sentDate == t1
  {
    store := new Store();
    assert !IsWhiteSpace("general"[0]);
    var room := store.CreateRoom(Some("A"), Some("general"));
    assert room.Created? && room.value.id == 1;
    refusedPost := store.CreateMessage(Some("B"), 1, "hi", t1, userNames);
    posted := store.CreateMessage(Some("A"), 1, "hello", t1, userNames);
  }

  /** The session continues in the room `OpenRoom` set up: "B" cannot edit
      "A"'s message; "A" edits it and then deletes the room. Afterwards "A" is
      no longer a member, so listing the room is Forbidden rather than
      NotFound. */
  method TwoUserSession(t1: int, userNames: map<string, string>)
    returns (refusedPost: Response<MessageDto>, posted: Response<MessageDto>,
             refusedEdit: Response<MessageDto>, listed: Response<seq<MessageDto>>,
             afterDelete: Response<seq<MessageDto>>)
    ensures refusedPost == Forbidden && refusedEdit == Forbidden
    ensures posted.Created? && posted.value.id == 1 && posted.value.roomId == 1
    ensures posted.value.senderId == "A" && posted.value.content == "hello" && posted.value.sentDate == t1
    ensures listed.Ok? && |listed.value| == 1 && listed.value[0].content == "hello!"
    ensures afterDelete == Forbidden
  {
    var store;
    store, refusedPost, posted := OpenRoom(t1, userNames);

    refusedEdit := store.UpdateMessage(Some("B"), 1, "x", userNames);
    var edited := store.UpdateMessage(Some("A"), 1, "hello!", userNames);
    assert edited.Ok? && edited.value.content == "hello!";

    listed := store.GetRoomMessages(Some("A"), 1, userNames);
    assert store.messages == map[1 := store.messages[1]];
    SingleMessageListing(listed.value, store.messages[1], ByRoom(1));

    var gone := store.DeleteRoom(Some("A"), 1);
    assert gone == NoContent;
    afterDelete := store.GetRoomMessages(Some("A"), 1, userNames);
  }
}
