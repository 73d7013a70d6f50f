# chat-app1 server core, modelled in Dafny

chat-app1 is a one-to-one chat with voice and video calls. Its Node server
(`server/index.js`) is a socket.io coordinator. It checks Indian mobile
numbers and binds a logged-in identity to each socket. It keeps a presence
map from phone to socket and derives one deterministic room per pair of
phones. It stores chat messages in a SQLite `messages` table
(`server/database.js`) and fans events out to the sockets of a room. It also
relays WebRTC signaling between the peers of a room, and names uploaded files
safely.

The project models:

- `JsText` (`js_text.dfy`): JavaScript strings as sequences of UTF-16 code
  units, and the code-unit order that `Array.prototype.sort` uses by default.
- `Phone` (`phone.dfy`): `validateIndianPhone`.
- `RoomIds` (`room_id.dfy`): the room id `[mine, target].sort().join('_')`
  and how the client cuts it apart at its first `_`.
- `UploadNames` (`upload_name.dfy`): the upload filename sanitiser and the
  returned URL.
- `Database` (`database.dfy`):
  - the `messages` table as a class `MessageTable`: its rows in id order
    plus the AUTOINCREMENT counter;
  - `saveMessage` and `getMessagesForRoom` as methods on that class.
- `Server` (`server.dfy`): the coordinator as a class `ChatServer`.
  - Its state: the connected sockets, `socket.data.user` per socket,
    `onlineUsers`, the room subscriptions, every emit with the exact set of
    sockets it reaches, and every call into the identity store.
  - The handler contracts name recipients and session fields through three
    definitions: `Members(room)` is the set `io.in(room)` reaches,
    `SessionPhone(sid)` is `socket.data.user?.phone` and `SessionAvatar(sid)`
    is `socket.data.user?.avatar`.
  - Each socket event handler is one method. Its contract gives the exact
    new state, the emits and the acknowledgement.
  - The class invariant (`ChatServer.Valid`) says:
    - sessions and room members are connected sockets;
    - the ids carried by `receive_message` emits strictly increase in emit
      order and are at most the table's counter;
    - no `socket.to(room)` relay ever reaches its own sender.
- `Scenarios` (`scenarios.dfy`): two users log in, open the same chat from
  both sides, exchange a message and a call offer. Also: a phone logged in
  on two sockets loses its presence entry when the older socket disconnects.

The identity store functions have no bodies in this model: `createUser`,
`verifyUser`, `updateUserAvatar`, `getRecentChats`, `markMessagesRead`,
`deleteMessage` and `resetRoom`. `server/index.js:69` imports them, but
`server/database.js:58-61` does not export them. How each awaited call
settled (`Settled.Resolved(value)` or `Settled.Rejected`) is a parameter of
its handler. Each call is appended to `storeLog` with its arguments. With
`database.js` exactly as it stands, each of these names is `undefined`, so
each call throws inside the handler's `try`. That is the `Rejected` case.

SQLite engine failures are a `fault` parameter of the table methods. The
NOT NULL constraint is modelled: an undefined column rejects the insert.

Two behaviours of the code worth knowing:

- **Self-chat is not refused.** `start_chat` with one's own phone joins the
  room `p_p` (`RoomIds.RoomIdSelf`).
- **Presence is kept per phone, not per socket.** Disconnecting an older
  socket deletes the phone's presence entry even when that entry names a
  newer socket (`Scenarios.SupersededSocketDisconnects`).

## Model

| member | source | states |
|---|---|---|
| JsText.LessIrreflexive | server/index.js:177 | no string sorts strictly before itself |
| JsText.LessAsymmetric | server/index.js:177 | the default sort order never puts a before b and b before a |
| JsText.LessTotal | server/index.js:177 | any two distinct strings are ordered one way or the other, so the sorted pair is determined |
| JsText.LessTransitive | server/index.js:177 | the code-unit order is transitive |
| JsText.PrefixIsLess | server/index.js:177 | a proper prefix sorts first, as in JavaScript |
| Phone.Digits | server/index.js:88 | `replace(/\D/g, '')` yields only ASCII digits, is no longer than its input, and leaves an all-digit string unchanged |
| Phone.DigitsConcat | server/index.js:88 | stripping a concatenation is concatenating the stripped parts, so the digits keep their order |
| Phone.DigitsKeepsEveryDigit | server/index.js:88 | each digit occurs in the stripped string exactly as often as in the input |
| Phone.ValidateIndianPhone | server/index.js:85-93 | null/undefined and '' give null; otherwise the result is non-null exactly when the digits of the input are ten and start with 6-9, and then it is those digits |
| Phone.ValidateIdempotent | server/index.js:85-93 | a non-null result validates again to itself |
| Phone.ValidateFixedPoints | server/index.js:85-93 | a string validates to itself exactly when it is a normalized phone (ten digits, first 6-9) |
| Phone.NormalizedHasNoUnderscore | server/index.js:85-93 | a validated phone never contains the room-id separator '_' |
| RoomIds.SortPair | server/index.js:177 | the two-element sort returns the same two strings, in non-decreasing order |
| RoomIds.RoomId | server/index.js:176-178 | the room id is both phones joined by one '_', right after the smaller |
| RoomIds.RoomIdSymmetric | server/index.js:176-178 | room(A,B) == room(B,A) |
| RoomIds.RoomIdOrdered | server/index.js:176-178 | the smaller phone comes first and the larger after '_' |
| RoomIds.RoomIdSelf | server/index.js:165-180 | a chat with one's own phone is not refused: its room is p_p |
| RoomIds.SplitRoomId | client/src/components/ContactList.jsx:7-12 | cutting at the first '_' (as the contact list does to show a room): no cut iff no '_', otherwise the parts rejoin to the input and the first has no '_' |
| RoomIds.RoomIdSplits | server/index.js:176-178 | for '_'-free phones, cutting the room id at its '_' gives back the sorted pair |
| RoomIds.RoomIdInjective | server/index.js:176-178 | two pairs of '_'-free phones share a room only if they are the same pair |
| UploadNames.SanitizeFilename | server/index.js:32 | same length; each code unit kept when it is an ASCII letter, digit or '.', replaced by '_' otherwise |
| UploadNames.SanitizeIdempotent | server/index.js:32 | sanitizing a sanitized name changes nothing |
| UploadNames.SanitizeFixedPoints | server/index.js:32 | a name is unchanged exactly when each character is safe or already '_' |
| UploadNames.StoredFilename | server/index.js:29-34 | the stored name is the unique suffix, '-', then the sanitized original name |
| UploadNames.UploadUrl | server/index.js:45 | the answered URL is "/uploads/" followed by the stored name |
| UploadNames.StoredNameHasNoSlash | server/index.js:29-45 | with a '/'-free suffix, the stored name has no '/' and the URL has none after "/uploads/" |
| Database.MissingColumn | server/database.js:16-32 | one of the four columns; none exactly when all four are present; otherwise the reported column is undefined and every column before it in table order (room, author, message, time) is present |
| Database.RoomHistory | server/database.js:46 | `WHERE room = ?` keeps exactly the rows of that room and keeps them in id order |
| Database.AscendingIsUnique | server/database.js:46 | two id-ascending lists holding the same rows are equal |
| Database.HistoryIsOrderedSelection | server/database.js:44-56 | any id-ascending answer that holds exactly the room's rows is RoomHistory |
| Database.HistoryAfterAppend | server/database.js:28-41 | an insert appends the row to its own room's history and leaves the other rooms' histories as they were |
| Database.SavedMessageIsLoaded | server/database.js:28-56 | after a save, loading its room ends with the saved row; other rooms load as before |
| Database.WithoutIds | server/index.js:237-253 | the rows left after deleting the given ids: exactly the others, still in id order |
| Database.MessageTable.constructor | server/database.js:15-25 | a fresh table is empty with counter 0 |
| Database.MessageTable.SaveMessage | server/database.js:28-41 | an engine fault, or an undefined column (first in table order), rejects and changes nothing; otherwise it inserts only the four columns with id = previous counter + 1, larger than every existing id, and extends that room's history by this row |
| Database.MessageTable.GetMessagesForRoom | server/database.js:44-56 | fails only on an engine fault; otherwise exactly the room's rows, ascending by id |
| Database.MessageTable.RemoveRows | server/index.js:237-253 | a store deletion removes exactly the given ids and never lowers the counter |
| Server.ChatServer.constructor | server/database.js:5-25 | a started server has no sockets, sessions, presence, rooms, emits or store calls, and works on the existing table with its rows and counter unchanged |
| Server.ChatServer.MembersAreConnected | server/index.js:210 | `io.in(room)` never reaches a socket that has disconnected |
| Server.ChatServer.Emit | server/index.js:74-78 | appends one emit and keeps the ordering and no-echo invariant |
| Server.ChatServer.BroadcastPresence | server/index.js:74-78 | user_presence {phone, isOnline} reaches every connected socket |
| Server.ChatServer.Connect | server/index.js:81 | a new socket is connected with no user |
| Server.ChatServer.Register | server/index.js:96-107 | an invalid phone acks 'Invalid phone number format' without calling createUser; otherwise createUser gets the normalized phone, and the ack is ok or 'already registered' as it settled |
| Server.ChatServer.Login | server/index.js:109-129 | verifyUser gets the phone and password as sent; on a match the user is bound to the socket, its presence names this socket, everyone sees it online and the ack echoes the user; no match or a throw changes no session, presence or emit and acks 'Invalid credentials' or 'Internal server error' |
| Server.ChatServer.UpdateProfile | server/index.js:132-147 | without a user: 'Not authenticated' and no store call; otherwise updateUserAvatar(phone, avatar), and only when it succeeds is the session's avatar replaced and ok acked |
| Server.ChatServer.RecentChats | server/index.js:150-160 | [] without a user (no store call) or when the store fails; otherwise the store's chats for the bound phone |
| Server.ChatServer.Join | server/index.js:180 | the socket is added to the room and nothing else changes |
| Server.ChatServer.StartChat | server/index.js:165-191 | 'Not authenticated' or 'Invalid target phone number' change nothing; otherwise the socket joins room(own phone, normalized target) even when the load fails, then gets load_messages with that room's history and acks the room id, or acks 'Could not load chat' |
| Server.ChatServer.JoinRoom | server/index.js:193-203 | the socket joins the named room with no user needed and gets its history; a failed load emits nothing |
| Server.ChatServer.SendMessage | server/index.js:206-214 | a failed save emits nothing; otherwise receive_message carrying the client's fields, the new id, status 'sent' and the sender's avatar reaches every socket of data.room, sender included, with no user needed |
| Server.ChatServer.TypingStart | server/index.js:216-218 | user_typing with the sender's phone (or none) reaches the room's other sockets only |
| Server.ChatServer.TypingStop | server/index.js:220-222 | user_stop_typing reaches the room's other sockets only |
| Server.ChatServer.MarkRead | server/index.js:224-235 | silent without a user; otherwise markMessagesRead(room, phone), and on success messages_read_update {room, readBy} reaches the others in the room |
| Server.ChatServer.DeleteMessage | server/index.js:237-244 | deleteMessage(id) is called with no user or ownership check; on success message_deleted reaches the whole room, sender included; on failure nothing is emitted; ids are never reused |
| Server.ChatServer.ResetRoom | server/index.js:246-253 | resetRoom(room); on success room_reset reaches the whole room; on failure nothing is emitted |
| Server.ChatServer.Disconnect | server/index.js:255-261 | the socket leaves every room and the connected set; with a user, that phone's presence entry is deleted whichever socket it names and the remaining sockets see it offline; without a user nothing is emitted |
| Server.ChatServer.ListedMembers | server/index.js:290 | for an array of rooms passed to `to()`: a socket is reached exactly when some string item of the array names a room it joined |
| Server.ChatServer.SignalTargets | server/index.js:289-299 | `socket.to(data.room)`: never the sender; for a string, the other sockets of that room; for an array, the other sockets of any room it lists; nobody for a missing or other value |
| Server.ChatServer.SignalTargetsAreConnected | server/index.js:289-299 | no signal is relayed to a socket that has disconnected |
| Server.ChatServer.RelayCallOffer | server/index.js:289-291 | the offer is forwarded unchanged to the room's other sockets, never back to the sender |
| Server.ChatServer.RelayCallAnswer | server/index.js:293-295 | the answer is forwarded unchanged to the room's other sockets |
| Server.ChatServer.RelayIceCandidate | server/index.js:297-299 | the candidate is forwarded unchanged to the room's other sockets |
| Scenarios.BothSidesShareRoom | server/index.js:165-180 | two normalized phones that open the chat with each other land in the same room |
| Scenarios.ExamplePhones | server/index.js:85-93 | 9876543210 and 9123456789 validate to themselves and share the room 9123456789_9876543210 |
| Scenarios.TwoSockets | server/index.js:81 | a server started on a new chat.db with two connected sockets has no sessions, presence, rooms or emits |
| Scenarios.TwoLogins | server/index.js:109-129 | two successful logins on two sockets bind both users and point each phone's presence at its socket, with the table untouched |
| Scenarios.FirstOpensChat | server/index.js:165-191 | after start_chat the opener is the only socket of the pair's room |
| Scenarios.SecondOpensChat | server/index.js:165-191 | the peer's start_chat puts both sockets in that same room |
| Scenarios.MessageAndCall | server/index.js:206-214 | on a table whose counter is 0, a message sent into a room of sockets 1 and 2 reaches both with id 1 and status 'sent', and a call offer from socket 1 then reaches socket 2 only |
| Scenarios.SupersededSocketDisconnects | server/index.js:255-261 | a phone logged in on sockets 1 and 2 loses its presence entry when socket 1 disconnects, although socket 2 stays connected and logged in as it; socket 2 sees it go offline |

## Left out

- The Express app is not modelled: static files, the SPA fallback route, CORS, `server.listen`, the upload directory and the multer storage engine. Of the upload path, the file name and the returned URL are modelled.
- The `Date.now()`/`Math.random()` suffix of a stored file name is a parameter, because it is time and randomness. The "No file uploaded" 400 answer is not modelled.
- The identity store's bodies are not modelled; see above. Read-status columns and ownership are not modelled. Which rows deleteMessage and resetRoom remove is a parameter (`dropped`).
- SQLite itself (I/O, locking, type affinity) is not modelled; an engine failure is the `fault` parameter.
- Logging (`console.log`/`console.error`) is not modelled.
- The `roomHosts` map and the disconnect loop over it are not modelled: nothing ever writes to the map, so the loop never runs.
- Interleaving of handlers at `await` points is not modelled: each handler is one atomic step.
- socket.io's own per-socket room (a socket id used as a room name) is not modelled, and neither is transport-level reconnection.
- Payloads other than signaling ones are modelled as JSON objects with string values, except the message id of delete_message, which is an integer. A missing field is absent; null and undefined are not told apart. Signaling payloads are arbitrary JSON objects (`Server.Json`), with JavaScript numbers as reals.
- Server.ChatServer.TypingStart: the `room` of typing_start, typing_stop, mark_read, delete_message, reset_room and join_room is taken to be a string. A missing room is not modelled. In socket.io, `join_room` with no argument joins the room `undefined`, and a later event whose room is missing reaches that socket; in this model rooms have string names only, so a signal whose room is missing, or is neither a string nor an array, reaches nobody, and non-string items of an array room are skipped.
- Malformed requests are not modelled. Handlers are assumed to get a payload object and, where they ack, a callback. A missing callback makes `callback(...)` throw, as does a missing payload in the destructuring of `({ room })` or at `data.room`. In the async handlers the throw becomes an unhandled rejection; in the plain ones (typing_start, typing_stop and the three signaling handlers) it is an uncaught exception. Either way it ends the Node process by default.
- The server always starts with no sockets. Restarting is modelled only as far as the table: `Server.ChatServer.constructor` takes the existing `chat.db` table.
- Server.ChatServer.DeleteMessage: the effect on the table is stated for any set of removed ids, not tied to the message id, since deleteMessage has no body here.
- Phone.ValidateIndianPhone: a non-string truthy value passed as a phone (a number, an object) is not modelled; JavaScript would throw on `replace`.
- The client application, the service worker, the test scripts and the migration and maintenance scripts are not part of this model.
