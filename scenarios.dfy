/** Clients of the coordinator: what a caller can conclude from the handlers'
    contracts alone. */
module Scenarios {
  import opened JsText
  import opened Phone
  import opened RoomIds
  import opened Database
  import opened Server

  /** Both participants of a chat between two normalized phones are put in
      the same room, whichever of them starts it. */
  lemma BothSidesShareRoom(mine: JsString, theirs: JsString)
    requires IsNormalizedPhone(mine) && IsNormalizedPhone(theirs)
    ensures ValidateIndianPhone(Some(theirs)) == Some(theirs)
    ensures ValidateIndianPhone(Some(mine)) == Some(mine)
    ensures RoomId(mine, ValidateIndianPhone(Some(theirs)).value) ==
            RoomId(theirs, ValidateIndianPhone(Some(mine)).value)
  {
    ValidateFixedPoints(mine);
    ValidateFixedPoints(theirs);
    RoomIdSymmetric(mine, theirs);
  }

  const ALICE: JsString := [0x39, 0x38, 0x37, 0x36, 0x35, 0x34, 0x33, 0x32, 0x31, 0x30]  // "9876543210"
  const BOB: JsString := [0x39, 0x31, 0x32, 0x33, 0x34, 0x35, 0x36, 0x37, 0x38, 0x39]    // "9123456789"

  /** The example pair: both phones pass the check unchanged and their room
      is "9123456789_9876543210" from either side. */
  lemma ExamplePhones()
    ensures ValidateIndianPhone(Some(ALICE)) == Some(ALICE)
    ensures ValidateIndianPhone(Some(BOB)) == Some(BOB)
    ensures RoomId(ALICE, BOB) == RoomId(BOB, ALICE) == BOB + [UNDERSCORE] + ALICE
  {
    assert IsNormalizedPhone(ALICE) && IsNormalizedPhone(BOB);
    ValidateFixedPoints(ALICE);
    ValidateFixedPoints(BOB);
    assert Less(BOB, ALICE) by {
      assert BOB[1..][0] < ALICE[1..][0];
    }
    RoomIdOrdered(ALICE, BOB);
    RoomIdSymmetric(ALICE, BOB);
  }

  /** A server started on a new chat.db, with sockets 1 and 2 connected. */
  method TwoSockets() returns (server: ChatServer)
    ensures fresh(server) && fresh(server.db) && server.Valid()
    ensures server.connected == {1, 2} && server.rooms == map[]
    ensures server.sessions == map[] && server.onlineUsers == map[] && server.outbox == []
    ensures server.db.lastId == 0
  {
    var table := new MessageTable();
    server := new ChatServer(table);
    server.Connect(1);
    server.Connect(2);
  }

  /** Two users log in on sockets 1 and 2: both are bound to their sockets
      and announced online to both. */
  method TwoLogins(a: JsString, b: JsString) returns (server: ChatServer)
    ensures fresh(server) && fresh(server.db) && server.Valid()
    ensures server.connected == {1, 2} && server.rooms == map[]
    ensures 1 in server.sessions && 2 in server.sessions
    ensures server.sessions[1].phone == a && server.sessions[2].phone == b
    ensures server.onlineUsers == map[a := 1][b := 2]
    ensures server.outbox == [Emission(1, {1, 2}, UserPresence(a, true)), Emission(2, {1, 2}, UserPresence(b, true))]
    ensures server.db.lastId == 0
  {
    server := TwoSockets();
    var ack := server.Login(1, Some(a), None, Resolved(Some(User([0x61], a, None))));
    assert server.outbox == [Emission(1, {1, 2}, UserPresence(a, true))];
    ack := server.Login(2, Some(b), None, Resolved(Some(User([0x62], b, None))));
  }

  /** A (on socket 1) opens a chat with B: the ack carries their room id and
      socket 1 is in that room. */
  method FirstOpensChat(server: ChatServer, a: JsString, b: JsString)
    requires IsNormalizedPhone(a) && IsNormalizedPhone(b)
    requires server.Valid() && 1 in server.connected
    requires 1 in server.sessions && server.sessions[1].phone == a
    requires server.rooms == map[]
    modifies server
    ensures server.Valid() && server.db.lastId == old(server.db.lastId)
    ensures server.connected == old(server.connected) && server.sessions == old(server.sessions)
    ensures server.Members(RoomId(a, b)) == {1}
  {
    ValidateFixedPoints(b);
    var ack := server.StartChat(1, Some(b), false);
    assert ack == ChatStarted(RoomId(a, b));
  }

  /** B (on socket 2) opens the chat from the other side and lands in the
      same room. */
  method SecondOpensChat(server: ChatServer, a: JsString, b: JsString)
    requires IsNormalizedPhone(a) && IsNormalizedPhone(b)
    requires server.Valid() && 2 in server.connected
    requires 2 in server.sessions && server.sessions[2].phone == b
    requires server.Members(RoomId(a, b)) == {1}
    modifies server
    ensures server.Valid() && server.db.lastId == old(server.db.lastId)
    ensures server.Members(RoomId(a, b)) == {1, 2}
  {
    BothSidesShareRoom(b, a);
    var ack := server.StartChat(2, Some(a), false);
    assert ack == ChatStarted(RoomId(a, b));
  }

  /** A sends "hi" into a room that holds sockets 1 and 2, on a fresh
      table: both sockets receive it with id 1 and status 'sent'; a call
      offer from A then reaches B only. */
  method MessageAndCall(server: ChatServer, room: JsString)
    requires server.Valid()
    requires server.Members(room) == {1, 2}
    requires server.db.lastId == 0
    modifies server, server.db
    ensures server.Valid() && server.db.lastId == 1
    ensures |server.outbox| >= 2
    ensures var sent := server.outbox[|server.outbox| - 2];
      sent.to == {1, 2} && sent.event.ReceiveMessage? && sent.event.id == 1 && sent.event.status == SENT
    ensures var call := server.outbox[|server.outbox| - 1];
      call.sender == 1 && call.to == {2} && call.event.CallOffer?
  {
    ColumnKeysDistinct();
    var data := map[ROOM_KEY := room, AUTHOR_KEY := [0x61],
                    MESSAGE_KEY := [0x68, 0x69], TIME_KEY := [0x31]];
    server.SendMessage(1, data, false);
    var last := server.outbox[|server.outbox| - 1];
    assert last.to == {1, 2};
    assert last.event.id == 1 && last.event.status == SENT;

    var offer := map[ROOM_KEY := JString(room), [0x6F] := JObject(map[])];
    server.RelayCallOffer(1, offer);
    assert server.outbox[|server.outbox| - 1] == Emission(1, {2}, CallOffer(offer));
  }

  /** The whole exchange for the example pair. */
  method ExampleChat()
  {
    ExamplePhones();
    var server := TwoLogins(ALICE, BOB);
    FirstOpensChat(server, ALICE, BOB);
    SecondOpensChat(server, ALICE, BOB);
    MessageAndCall(server, BOB + [UNDERSCORE] + ALICE);
  }

  /** A phone logs in on socket 1 and again on socket 2; when socket 1 goes
      away the phone is announced offline and dropped from the presence map,
      although socket 2 is still connected and logged in as that phone. */
  method SupersededSocketDisconnects(a: JsString) returns (server: ChatServer)
    ensures server.Valid() && server.connected == {2}
    ensures 2 in server.sessions && server.sessions[2].phone == a
    ensures a !in server.onlineUsers
    ensures |server.outbox| > 0 && server.outbox[|server.outbox| - 1] == Emission(1, {2}, UserPresence(a, false))
  {
    var table := new MessageTable();
    server := new ChatServer(table);
    server.Connect(1);
    server.Connect(2);
    var user := User([0x61], a, None);
    var ack := server.Login(1, Some(a), None, Resolved(Some(user)));
    ack := server.Login(2, Some(a), None, Resolved(Some(user)));
    assert server.onlineUsers[a] == 2;
    server.Disconnect(1);
    assert a !in server.onlineUsers;
    assert server.connected == {2} && server.sessions[2] == user;
    assert server.outbox[|server.outbox| - 1] == Emission(1, {2}, UserPresence(a, false));
  }
}
