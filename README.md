# Membership-gated chat rooms and messages

A Dafny model of the room and message handlers of the `chat_ya_backend` service.
Authenticated users create chat rooms, become members of the rooms they create,
and post, edit, delete and list text messages. The rules are:

- reading or writing a room needs membership;
- editing or deleting a message needs ownership (the caller is its sender);
- the three tables (ChatRoom, UserRooms, Message) keep their keys and their foreign keys to ChatRoom.
  The users table is outside the model; the foreign keys into it appear only as the
  cascades a user deletion triggers.

Modules:

- `Common`: the optional value type, the caller-id guard (`string.IsNullOrEmpty`),
  `char.IsWhiteSpace` / `string.IsNullOrWhiteSpace`, and the rendering of ids in response texts.
- `Entities`: the rows (`Msg`, `UserRoom`), the DTOs (`MessageDto`, `RoomDto`) and the
  entity-to-DTO projection.
- `Schema`: the AddChatStructure migration. Its keys and its foreign keys to ChatRoom become the
  `Integrity` invariant; its cascading deletes become functions with lemmas.
- `Queries`: the LINQ reads as functions. Rows come in key order, then `Where`,
  then `OrderBy` / `OrderByDescending` on SentDate (an insertion sort), then
  `Select` into DTOs. The room listing is a join through the memberships.
- `Chat`: class `Store` holds the three tables and the two autoincrement counters.
  It has one method per HTTP handler. Each method returns a `Response`
  (`Ok`, `Created`, `NoContent`, `BadRequest`, `Unauthorized`, `Forbidden`, `NotFound`).
  Each one states the order of its checks, the exact new state, and that a
  refused request changes nothing.
- `ErrorDtos`, `ResponseDtos`: the mutable response and error DTO classes.
- `Session`: a client that runs a two-user session through the handlers.

Inputs the handlers get from outside are parameters:

- the caller's NameIdentifier claim is `callerId: Option<string>`;
- `DateTime.UtcNow` is `now: int`;
- the identity store's user names are `userNames: map<string, string>`. A missing
  entry stands for a null `UserName`.

`chat_ya_backend/Endpoints/RoomEndpoints.cs` and
`chat_ya_backend/Endpoints/ChatRoomEndpoints.cs` hold the same four room handlers.
One model covers both, and the table below cites lines from each.

Where the service's intended behaviour and the code disagree, the model follows the code:

- Deleting a user cascades to that user's messages (`FK_Message_AspNetUsers_SenderId`
  is `Cascade`). The intended behaviour is to keep them.
- Neither message creation nor message editing checks the content. Empty content is stored.
- Room messages are ordered by SentDate only. The order among equal dates is not
  fixed; no tie-break on the id is promised.
- After a room is deleted, its former members get `Forbidden` when they list its
  messages, not `NotFound`: their membership rows are gone (`Session.TwoUserSession`).
- Room creation performs two separate saves: the room, then the creator's
  membership (`Chat.Store.AddRoom`, `Chat.Store.AddMembership`). Between them the
  room exists with no member. `Integrity` holds there too.

## Model

| member | source | states |
|---|---|---|
| `Common.NameGuard` | chat_ya_backend/Endpoints/RoomEndpoints.cs:68-71 | a room name is accepted iff it is non-null and `Trim()` leaves it non-empty: the guard agrees with trimming away white space at both ends |
| `Common.NameGuardExamples` | chat_ya_backend/Endpoints/ChatRoomEndpoints.cs:38-41 | null, empty and blank names are rejected; "general" is accepted |
| `Entities.DtoRoundTrip` | chat_ya_backend/Endpoints/MessageEndpoints.cs:53-61 | the DTO copies Id, Content, SentDate, SenderId and RoomId unchanged: the entity reads back from it; the display name is the user name or the fallback |
| `Schema.MembershipImpliesRoom` | chat_ya_backend/Endpoints/ChatRoomEndpoints.cs:184-190 | under referential integrity a membership of a room implies the room exists, so the NotFound branch after a passed membership check cannot happen |
| `Schema.NextIdsAreFresh` | chat_ya_backend/Migrations/20251127102453_AddChatStructure.cs:18-32 | the next autoincrement room and message ids are not stored keys, and no row references the next room id |
| `Schema.RoomCascade` | chat_ya_backend/Migrations/20251127102453_AddChatStructure.cs:47-76 | deleting a room cascades to exactly its memberships and messages, keeps every other row unchanged, and keeps integrity |
| `Schema.MessageCascadeNeeded` | chat_ya_backend/Endpoints/ChatRoomEndpoints.cs:197-204 | removing a room and its memberships without also removing its messages breaks the message foreign key, so the handler relies on the storage cascade |
| `Schema.UserCascade` | chat_ya_backend/Migrations/20251127102453_AddChatStructure.cs:41-70 | deleting a user cascades to exactly their memberships and messages, keeps every other row, and keeps integrity |
| `Queries.Rows` | chat_ya_backend/Endpoints/MessageEndpoints.cs:45-50 | reads every stored message below the bound exactly once, in strictly increasing key order, each under its own id |
| `Queries.Where` | chat_ya_backend/Endpoints/MessageEndpoints.cs:86-87 | keeps exactly the rows the selector (room or sender) matches, and keeps ids distinct |
| `Queries.SortCorrect` | chat_ya_backend/Endpoints/MessageEndpoints.cs:47 | ordering by SentDate (ascending or descending) gives an ordered permutation of the rows and keeps ids distinct |
| `Queries.Query` | chat_ya_backend/Endpoints/MessageEndpoints.cs:45-61 | a listing shows exactly the selected messages, each once, as faithful DTOs, ordered by SentDate, with the sender name or the fallback |
| `Queries.RoomsOf` | chat_ya_backend/Endpoints/ChatRoomEndpoints.cs:90-103 | the room listing holds exactly the rooms the user has a membership of, with their names, each once |
| `Chat.Store.constructor` | chat_ya_backend/Migrations/20251127102453_AddChatStructure.cs:12-93 | the tables start empty with ids issued from 1, and integrity holds |
| `Chat.Store.GetRoomMessages` | chat_ya_backend/Endpoints/MessageEndpoints.cs:26-63 | Unauthorized without a caller id; Forbidden for a non-member; otherwise exactly the room's messages, each once, by non-decreasing SentDate, with "Desconocido" as fallback name |
| `Chat.Store.GetUserSentMessages` | chat_ya_backend/Endpoints/MessageEndpoints.cs:73-106 | Unauthorized without a caller id; otherwise, with no membership check, exactly the caller's messages, each once, by non-increasing SentDate, with "Yo" as fallback name |
| `Chat.Store.CreateMessage` | chat_ya_backend/Endpoints/MessageEndpoints.cs:113-158 | Unauthorized, then Forbidden for a non-member, both changing nothing; on success exactly one new message with a fresh id, the caller as sender, the requested room, the given content and the server time, returned as Created at /api/messages/{id} |
| `Chat.Store.UpdateMessage` | chat_ya_backend/Endpoints/MessageEndpoints.cs:166-211 | Unauthorized, then NotFound for a missing id, then Forbidden for anyone but the sender, all changing nothing; on success only that message's content changes |
| `Chat.Store.DeleteMessage` | chat_ya_backend/Endpoints/MessageEndpoints.cs:218-248 | Unauthorized, then NotFound, then Forbidden for a non-sender, all changing nothing; on success exactly that message is removed |
| `Chat.Store.GetUserRooms` | chat_ya_backend/Endpoints/RoomEndpoints.cs:25-51 | Unauthorized without a caller id; otherwise exactly the rooms the caller is a member of, each once (empty for a caller with no memberships) |
| `Chat.Store.AddRoom` | chat_ya_backend/Endpoints/ChatRoomEndpoints.cs:43-50 | the first save inserts the room under a fresh autoincrement id that no membership references yet, and keeps integrity |
| `Chat.Store.AddMembership` | chat_ya_backend/Endpoints/ChatRoomEndpoints.cs:52-60 | the second save adds exactly the creator's membership row, which its foreign key and composite key admit |
| `Chat.Store.CreateRoom` | chat_ya_backend/Endpoints/RoomEndpoints.cs:58-97 | Unauthorized, then BadRequest for a null or blank name, both changing nothing; on success one room with a fresh id and the given name, the caller as its only member, Created at /api/rooms/{id}, and the room appears in the caller's room list |
| `Chat.Store.UpdateRoom` | chat_ya_backend/Endpoints/RoomEndpoints.cs:104-145 | checks in the order caller id, blank name (BadRequest), membership (Forbidden); NotFound never happens; on success only that room's name changes |
| `Chat.Store.RemoveRoom` | chat_ya_backend/Endpoints/ChatRoomEndpoints.cs:192-206 | the deletion save removes all memberships of the room and the room, and the storage cascade removes its messages; integrity holds afterwards |
| `Chat.Store.DeleteRoom` | chat_ya_backend/Endpoints/RoomEndpoints.cs:152-186 | Unauthorized, then Forbidden for a non-member, both changing nothing; NotFound never happens; on success the room, all its memberships and all its messages are gone and every other row is unchanged |
| `Chat.Store.CascadeUserDeletion` | chat_ya_backend/Migrations/20251127102453_AddChatStructure.cs:41-46 | deleting a user removes exactly their messages and memberships; rooms and other rows stay |
| `ErrorDtos.GenericErrorDto.constructor` | chat_ya_backend/Models/Dtos/ErrorDtos/GenericErrorDto.cs:9-13 | the default error has empty location and empty description |
| `ErrorDtos.GenericErrorDto.Describe` | chat_ya_backend/Models/Dtos/ErrorDtos/GenericErrorDto.cs:16-21 | the description and an explicit location are stored as given |
| `ErrorDtos.NewError` | chat_ya_backend/Models/Dtos/ErrorDtos/GenericErrorDto.cs:15-16 | when the location is omitted it is "OrderController" |
| `ResponseDtos.GenericResponseDto.constructor` | chat_ya_backend/Models/Dtos/ResponseDtos/GenericResponseDto.cs:20-26 | a new response is valid, has no error reported, an empty default error and a fresh non-null data object |
| `ResponseDtos.GenericResponseDto.IsValid` | chat_ya_backend/Models/Dtos/ResponseDtos/GenericResponseDto.cs:35 | the response is valid exactly when no error has been reported since construction |
| `ResponseDtos.GenericResponseDto.ShouldSerializeError` | chat_ya_backend/Models/Dtos/ResponseDtos/GenericResponseDto.cs:66-69 | the error is serialised exactly when one has been reported, that is when the response is not valid |
| `ResponseDtos.GenericResponseDto.Error` | chat_ya_backend/Models/Dtos/ResponseDtos/GenericResponseDto.cs:49-51 | the getter returns the latest error reported |
| `ResponseDtos.GenericResponseDto.SetError` | chat_ya_backend/Models/Dtos/ResponseDtos/GenericResponseDto.cs:52-59 | assigning null changes nothing; assigning an error stores it and makes the response invalid; validity never comes back |
| `ResponseDtos.GenericResponseDto.SetData` | chat_ya_backend/Models/Dtos/ResponseDtos/GenericResponseDto.cs:40-44 | Data writes ReturnData and reads it back, and nothing else changes |
| `ResponseDtos.SucceededIdempotent` | chat_ya_backend/Models/Dtos/ResponseDtos/CreateEditRemoveResponseDto.cs:21-25 | reporting success sets the id and the flag, leaves the errors alone, and doing it twice with one id equals doing it once |
| `ResponseDtos.CreateEditRemoveResponseDto.constructor` | chat_ya_backend/Models/Dtos/ResponseDtos/CreateEditRemoveResponseDto.cs:14-17 | a new response has an empty error list |
| `ResponseDtos.CreateEditRemoveResponseDto.IsSuccess` | chat_ya_backend/Models/Dtos/ResponseDtos/CreateEditRemoveResponseDto.cs:21-25 | sets Id to the given id and Success to true and leaves Errors unchanged |
| `Session.OpenRoom` | chat_ya_backend/Endpoints/MessageEndpoints.cs:123-130 | after A creates "general" and posts "hello", the store holds exactly that room, A as its only member and that message under id 1, and B's post there was Forbidden |
| `Session.TwoUserSession` | chat_ya_backend/Endpoints/MessageEndpoints.cs:36-42 | in a session where A creates a room and posts, B (not a member) gets Forbidden both when posting and when editing; A's message has id 1; after A's edit the room lists that one message; after A deletes the room, listing it is Forbidden |

## Left out

- Authentication and token issuing (`AuthEndpoints.cs`): password checking and JWT signing are library and cryptographic calls. The caller id arrives as a parameter.
- User profile handlers (`UserEndpoints.cs`): thin wrappers over the identity library. Only the storage cascade a user deletion triggers is modelled (`Chat.Store.CascadeUserDeletion`).
- `Program.cs`: service registration, middleware, CORS, Swagger and the SignalR hub hold no logic.
- Asynchrony, change tracking, transactions and concurrent requests: each handler is one sequential step over in-memory tables.
- Storage failures: a failing `SaveChangesAsync`, such as a null content hitting the NOT NULL column, is not modelled. Contents and names are non-null strings once past the handlers' guards.
- Wall-clock time: `DateTime.UtcNow` is the parameter `now`. A DateTime is an integer tick count.
- User names: `Include(m => m.Sender)` and `Users.FindAsync` are the `userNames` parameter.
- Logging, OpenAPI metadata and route strings other than the `Created` locations.
- Schema.Integrity: the users table and the foreign keys FK_Message_AspNetUsers_SenderId and FK_UserRooms_AspNetUsers_UserId are not enforced on insertion. A caller whose user row is gone but whose token is still accepted gets Created from `Chat.Store.CreateMessage` and `Chat.Store.CreateRoom` in the model. In the source the save fails, and for room creation the room from the first save stays behind with no member.
- Integer width: ids are unbounded integers. The 32-bit range of C# `int` and the autoincrement ceiling are not modelled: no operation does arithmetic on ids besides issuing the next one.
- `Chat.Store.GetUserRooms`: the source leaves the order of the room list to the database. The model lists rooms by id, and its contract promises no order.
- `CreateEditRemoveResponseDto.Errors` is a `List<string>` object that callers may share; the model holds its contents as a sequence, so aliasing of that list is not captured.
- `GenericResponseDto.Id` is a plain settable property: it is a field with no logic.
- `MeigemnDbContext` declares no sets for the chat tables. The model assumes the three tables the handlers use.
- `CreateRoomDto` and `UpdateChatRoomDto` are not part of this model. The room name is taken as a nullable string.
- The create-message DTO file declares only `Body`, but the handler reads `Content` and `RoomId`. The model takes the room id and the content, as the handler uses them.
