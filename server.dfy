/** The socket coordinator of server/index.js. Each socket event handler is
    one method, run as one atomic step (JavaScript runs one handler at a time
    and interleaving at `await` points is not modelled). What an awaited call
    into the identity store returned is a parameter of the handler; every such
    call is recorded in `storeLog`. Emits are recorded in `outbox` together
    with the exact set of sockets they reach; an acknowledgement (the client's
    callback) reaches only the caller and is the method's result. */
module Server {
  import opened JsText
  import opened Phone
  import opened RoomIds
  import opened Database

  /** socket.id */
  type SocketId = nat

  /** `socket.data.user`: the identity bound to a socket by login. */
  datatype User = User(username: JsString, phone: JsString, avatar: Option<JsString>)

  /** How an awaited promise of the identity store settled. */
  datatype Settled<T> = Resolved(value: T) | Rejected

  /** The calls made into the store functions that are not part of this
      model (createUser, verifyUser, ... are imported from server/database.js
      but not defined in it). */
  datatype StoreCall =
    | CreateUser(username: Option<JsString>, phone: JsString, password: Option<JsString>)
    | VerifyUser(sentPhone: Option<JsString>, sentPassword: Option<JsString>)
    | UpdateUserAvatar(phone: JsString, avatar: Option<JsString>)
    | GetRecentChats(phone: JsString)
    | MarkMessagesRead(room: JsString, phone: JsString)
    | DeleteMessage(messageId: int)
    | ResetRoom(room: JsString)

  /** A JSON value as socket.io carries it. */
  datatype Json =
    | JNull
    | JBool(flag: bool)
    | JNumber(number: real)
    | JString(text: JsString)
    | JArray(items: seq<Json>)
    | JObject(members: map<JsString, Json>)

  /** A signaling payload (`{ room, offer }`, `{ room, answer }`,
      `{ room, candidate }`): a JSON object forwarded as it is. */
  type Signal = map<JsString, Json>

  /** Server-to-client events with their payloads. */
  datatype Event =
    | UserPresence(phone: JsString, isOnline: bool)
    | LoadMessages(messages: seq<Row>)
      /** `{ ...data, id, status, avatar }`: `data` holds the client's fields
          other than the three the server sets. */
    | ReceiveMessage(data: Fields, id: nat, status: JsString, avatar: Option<JsString>)
    | UserTyping(typist: Option<JsString>)
    | UserStopTyping(typist: Option<JsString>)
    | MessagesReadUpdate(room: JsString, readBy: JsString)
    | MessageDeleted(messageId: int)
    | RoomReset
    | CallOffer(signal: Signal)
    | CallAnswer(signal: Signal)
    | IceCandidate(signal: Signal)

  /** Events a socket relays to its peers in a room (`socket.to(room)`). */
  predicate IsPeerRelay(e: Event)
  {
    e.UserTyping? || e.UserStopTyping? || e.MessagesReadUpdate? ||
    e.CallOffer? || e.CallAnswer? || e.IceCandidate?
  }

  /** One emit: the socket whose handler made it, the sockets it reaches, and
      the event. */
  datatype Emission = Emission(sender: SocketId, to: set<SocketId>, event: Event)

  datatype ErrorMessage =
    | InvalidPhoneFormat   // 'Invalid phone number format'
    | AlreadyRegistered    // 'Phone number already registered or invalid data'
    | InvalidCredentials   // 'Invalid credentials'
    | InternalError        // 'Internal server error'
    | NotAuthenticated     // 'Not authenticated'
    | InvalidTargetPhone   // 'Invalid target phone number'
    | CouldNotLoadChat     // 'Could not load chat'

  /** What a handler passes to the client's callback. */
  datatype Ack =
    | Ok                                                              // { status: 'ok' }
    | LoggedIn(username: JsString, phone: JsString, avatar: Option<JsString>)
    | ChatStarted(roomId: JsString)                                   // { status: 'ok', roomId }
    | Error(message: Option<ErrorMessage>)                            // { status: 'error', message? }
    | Chats(chats: seq<Fields>)                                       // get_recent_chats

  const ID_KEY: JsString := Ascii("id")
  const STATUS_KEY: JsString := Ascii("status")
  const AVATAR_KEY: JsString := Ascii("avatar")
  const SENT: JsString := Ascii("sent")

  /** The ids carried by the receive_message emits, in emit order. */
  ghost function BroadcastIds(out: seq<Emission>): seq<nat>
  {
    if out == [] then []
    else
      BroadcastIds(out[..|out| - 1]) +
      (if out[|out| - 1].event.ReceiveMessage? then [out[|out| - 1].event.id] else [])
  }

  lemma BroadcastIdsAppend(out: seq<Emission>, e: Emission)
    ensures BroadcastIds(out + [e]) ==
      BroadcastIds(out) + (if e.event.ReceiveMessage? then [e.event.id] else [])
  {
    assert (out + [e])[..|out|] == out;
  }

  ghost predicate StrictlyIncreasing(ids: seq<nat>)
  {
    forall i, j | 0 <= i < j < |ids| :: ids[i] < ids[j]
  }

  /** Peer relays never go back to the socket that sent them. */
  ghost predicate NoEcho(out: seq<Emission>)
  {
    forall i | 0 <= i < |out| :: IsPeerRelay(out[i].event) ==> out[i].sender !in out[i].to
  }

  /** The receive_message emits follow the order in which the store assigned
      ids, no emit names an id the store has not assigned yet, and no peer
      relay is echoed. */
  ghost predicate EmitsOrdered(out: seq<Emission>, lastId: nat)
  {
    && StrictlyIncreasing(BroadcastIds(out))
    && (forall i | 0 <= i < |BroadcastIds(out)| :: BroadcastIds(out)[i] <= lastId)
    && NoEcho(out)
  }

  /** A larger id counter keeps the emit invariant. */
  lemma EmitsOrderedMonotone(out: seq<Emission>, lastId: nat, later: nat)
    requires EmitsOrdered(out, lastId) && lastId <= later
    ensures EmitsOrdered(out, later)
  {
  }

  class ChatServer {
    /** The sockets currently connected. */
    var connected: set<SocketId>
    /** `socket.data.user` of the sockets that have logged in. */
    var sessions: map<SocketId, User>
    /** onlineUsers: phone -> socket id. */
    var onlineUsers: map<JsString, SocketId>
    /** The room subscriptions: room name -> the sockets that joined it. */
    var rooms: map<JsString, set<SocketId>>
    /** Every emit so far, in order. */
    var outbox: seq<Emission>
    /** Every call into the identity store so far, in order. */
    var storeLog: seq<StoreCall>
    /** The messages table. */
    const db: MessageTable

    ghost predicate Valid()
      reads this, db
    {
      && db.Valid()
      && sessions.Keys <= connected
      && (forall r | r in rooms :: rooms[r] <= connected)
      && EmitsOrdered(outbox, db.lastId)
    }

    /** The sockets in `room` (`io.in(room)`). */
    function Members(room: JsString): set<SocketId>
      reads this`rooms
    {
      if room in rooms then rooms[room] else {}
    }

    /** `io.in(room)` never reaches a socket that has disconnected. */
    lemma MembersAreConnected(room: JsString)
      requires Valid()
      ensures Members(room) <= connected
    {
    }

    /** `socket.data.user?.phone` */
    function SessionPhone(sid: SocketId): Option<JsString>
      reads this
    {
      if sid in sessions then Some(sessions[sid].phone) else None
    }

    /** `socket.data.user?.avatar` */
    function SessionAvatar(sid: SocketId): Option<JsString>
      reads this
    {
      if sid in sessions then sessions[sid].avatar else None
    }

    /** The server starts over whatever `chat.db` already holds: `CREATE
        TABLE IF NOT EXISTS` keeps the rows and the AUTOINCREMENT counter of
        an earlier run. */
    constructor (table: MessageTable)
      requires table.Valid()
      ensures Valid() && db == table
      ensures connected == {} && sessions == map[] && onlineUsers == map[] && rooms == map[]
      ensures outbox == [] && storeLog == []
      ensures db.rows == old(table.rows) && db.lastId == old(table.lastId)
    {
      connected := {};
      sessions := map[];
      onlineUsers := map[];
      rooms := map[];
      outbox := [];
      storeLog := [];
      db := table;
    }

    /** Append one emit, keeping the emit-order invariants. */
    method Emit(sender: SocketId, to: set<SocketId>, event: Event)
      requires Valid()
      requires IsPeerRelay(event) ==> sender !in to
      requires event.ReceiveMessage? ==>
        event.id <= db.lastId &&
        forall i | 0 <= i < |BroadcastIds(outbox)| :: BroadcastIds(outbox)[i] < event.id
      modifies this`outbox
      ensures Valid()
      ensures outbox == old(outbox) + [Emission(sender, to, event)]
    {
      BroadcastIdsAppend(outbox, Emission(sender, to, event));
      outbox := outbox + [Emission(sender, to, event)];
    }

    /** broadcastPresence: `io.emit('user_presence', { phone, isOnline })`
        reaches every connected socket. */
    method BroadcastPresence(sender: SocketId, phone: JsString, isOnline: bool)
      requires Valid()
      modifies this`outbox
      ensures Valid()
      ensures outbox == old(outbox) + [Emission(sender, connected, UserPresence(phone, isOnline))]
    {
      Emit(sender, connected, UserPresence(phone, isOnline));
    }

    /** 'connection': a new socket, with no user. */
    method Connect(sid: SocketId)
      requires Valid() && sid !in connected
      modifies this`connected
      ensures Valid()
      ensures connected == old(connected) + {sid} && sid !in sessions
    {
      connected := connected + {sid};
    }

    /** 'register': validate the phone, then createUser with the normalized
        phone. `created` is how createUser settled. */
    method Register(sid: SocketId, username: Option<JsString>, phone: Option<JsString>,
                    password: Option<JsString>, created: Settled<()>) returns (ack: Ack)
      requires Valid() && sid in connected
      modifies this`storeLog
      ensures Valid()
      ensures ValidateIndianPhone(phone).None? ==>
        ack == Error(Some(InvalidPhoneFormat)) && storeLog == old(storeLog)
      ensures ValidateIndianPhone(phone).Some? ==>
        && storeLog == old(storeLog) + [CreateUser(username, ValidateIndianPhone(phone).value, password)]
        && ack == (if created.Resolved? then Ok else Error(Some(AlreadyRegistered)))
    {
      var validPhone := ValidateIndianPhone(phone);
      if validPhone.None? {
        return Error(Some(InvalidPhoneFormat));
      }
      storeLog := storeLog + [CreateUser(username, validPhone.value, password)];
      if created.Resolved? {
        ack := Ok;
      } else {
        ack := Error(Some(AlreadyRegistered));
      }
    }

    /** 'login': verifyUser with the phone as sent; on a match bind the user
        to this socket, point its presence entry at this socket and announce
        it online to everyone. */
    method Login(sid: SocketId, phone: Option<JsString>, password: Option<JsString>,
                 verified: Settled<Option<User>>) returns (ack: Ack)
      requires Valid() && sid in connected
      modifies this`sessions, this`onlineUsers, this`outbox, this`storeLog
      ensures Valid()
      ensures storeLog == old(storeLog) + [VerifyUser(phone, password)]
      ensures verified.Resolved? && verified.value.Some? ==>
        var user := verified.value.value;
        && sessions == old(sessions)[sid := user]
        && onlineUsers == old(onlineUsers)[user.phone := sid]
        && outbox == old(outbox) + [Emission(sid, connected, UserPresence(user.phone, true))]
        && ack == LoggedIn(user.username, user.phone, user.avatar)
      ensures !(verified.Resolved? && verified.value.Some?) ==>
        && sessions == old(sessions) && onlineUsers == old(onlineUsers) && outbox == old(outbox)
        && ack == Error(Some(if verified.Rejected? then InternalError else InvalidCredentials))
    {
      storeLog := storeLog + [VerifyUser(phone, password)];
      match verified
      case Rejected =>
        ack := Error(Some(InternalError));
      case Resolved(None) =>
        ack := Error(Some(InvalidCredentials));
      case Resolved(Some(user)) =>
        sessions := sessions[sid := user];
        onlineUsers := onlineUsers[user.phone := sid];
        BroadcastPresence(sid, user.phone, true);
        ack := LoggedIn(user.username, user.phone, user.avatar);
    }

    /** 'update_profile': store the new avatar, then keep it in the session. */
    method UpdateProfile(sid: SocketId, avatar: Option<JsString>, updated: Settled<()>) returns (ack: Ack)
      requires Valid() && sid in connected
      modifies this`sessions, this`storeLog
      ensures Valid()
      ensures sid !in old(sessions) ==>
        ack == Error(Some(NotAuthenticated)) && storeLog == old(storeLog) && sessions == old(sessions)
      ensures sid in old(sessions) ==>
        && storeLog == old(storeLog) + [UpdateUserAvatar(old(sessions)[sid].phone, avatar)]
        && sessions == (if updated.Resolved? then old(sessions)[sid := old(sessions)[sid].(avatar := avatar)]
                        else old(sessions))
        && ack == (if updated.Resolved? then Ok else Error(None))
    {
      if sid !in sessions {
        return Error(Some(NotAuthenticated));
      }
      var user := sessions[sid];
      storeLog := storeLog + [UpdateUserAvatar(user.phone, avatar)];
      if updated.Resolved? {
        sessions := sessions[sid := user.(avatar := avatar)];
        ack := Ok;
      } else {
        ack := Error(None);
      }
    }

    /** 'get_recent_chats': the user's recent chats, or [] without a user or
        when the store fails. */
    method RecentChats(sid: SocketId, chats: Settled<seq<Fields>>) returns (ack: Ack)
      requires Valid() && sid in connected
      modifies this`storeLog
      ensures Valid()
      ensures sid !in sessions ==> ack == Chats([]) && storeLog == old(storeLog)
      ensures sid in sessions ==>
        && storeLog == old(storeLog) + [GetRecentChats(sessions[sid].phone)]
        && ack == Chats(if chats.Resolved? then chats.value else [])
    {
      if sid !in sessions {
        return Chats([]);
      }
      storeLog := storeLog + [GetRecentChats(sessions[sid].phone)];
      if chats.Resolved? {
        ack := Chats(chats.value);
      } else {
        ack := Chats([]);
      }
    }

    /** `socket.join(room)` */
    method Join(sid: SocketId, room: JsString)
      requires Valid() && sid in connected
      modifies this`rooms
      ensures Valid()
      ensures rooms == old(rooms)[room := old(Members(room)) + {sid}]
      ensures Members(room) == old(Members(room)) + {sid}
    {
      rooms := rooms[room := Members(room) + {sid}];
    }

    /** 'start_chat': needs a user and a valid target; joins the pair's room
        and only then loads its history, so the socket stays in the room when
        loading fails. `loadFault` is an engine failure of that load. */
    method StartChat(sid: SocketId, targetPhone: Option<JsString>, loadFault: bool) returns (ack: Ack)
      requires Valid() && sid in connected
      modifies this`rooms, this`outbox
      ensures Valid()
      ensures sid !in sessions ==>
        ack == Error(Some(NotAuthenticated)) && rooms == old(rooms) && outbox == old(outbox)
      ensures sid in sessions && ValidateIndianPhone(targetPhone).None? ==>
        ack == Error(Some(InvalidTargetPhone)) && rooms == old(rooms) && outbox == old(outbox)
      ensures sid in sessions && ValidateIndianPhone(targetPhone).Some? ==>
        var room := RoomId(sessions[sid].phone, ValidateIndianPhone(targetPhone).value);
        && rooms == old(rooms)[room := old(Members(room)) + {sid}]
        && outbox == old(outbox) + (if loadFault then [] else [Emission(sid, {sid}, LoadMessages(RoomHistory(db.rows, room)))])
        && ack == (if loadFault then Error(Some(CouldNotLoadChat)) else ChatStarted(room))
    {
      if sid !in sessions {
        return Error(Some(NotAuthenticated));
      }
      var validTarget := ValidateIndianPhone(targetPhone);
      if validTarget.None? {
        return Error(Some(InvalidTargetPhone));
      }
      var room := RoomId(sessions[sid].phone, validTarget.value);
      Join(sid, room);
      var history := db.GetMessagesForRoom(room, loadFault);
      if history.Success? {
        Emit(sid, {sid}, LoadMessages(history.value));
        ack := ChatStarted(room);
      } else {
        ack := Error(Some(CouldNotLoadChat));
      }
    }

    /** 'join_room': join the named room (no user needed) and send its
        history to the caller; a failed load emits nothing. */
    method JoinRoom(sid: SocketId, room: JsString, loadFault: bool)
      requires Valid() && sid in connected
      modifies this`rooms, this`outbox
      ensures Valid()
      ensures rooms == old(rooms)[room := old(Members(room)) + {sid}]
      ensures outbox == old(outbox) + (if loadFault then [] else [Emission(sid, {sid}, LoadMessages(RoomHistory(db.rows, room)))])
    {
      Join(sid, room);
      var history := db.GetMessagesForRoom(room, loadFault);
      if history.Success? {
        Emit(sid, {sid}, LoadMessages(history.value));
      }
    }

    /** 'send_message': save, then send the message with its new id, status
        'sent' and the sender's current avatar to everyone in the room,
        sender included. Nothing is emitted when the save fails. No user is
        required. */
    method SendMessage(sid: SocketId, data: Fields, saveFault: bool)
      requires Valid() && sid in connected
      modifies this`outbox, db
      ensures Valid()
      ensures rooms == old(rooms) && sessions == old(sessions)
      ensures saveFault || MissingColumn(data).Some? ==>
        outbox == old(outbox) && db.rows == old(db.rows) && db.lastId == old(db.lastId)
      ensures !saveFault && MissingColumn(data).None? ==>
        var id := old(db.lastId) + 1;
        && db.rows == old(db.rows) + [Row(id, data[ROOM_KEY], data[AUTHOR_KEY], data[MESSAGE_KEY], data[TIME_KEY])]
        && db.lastId == id
        && outbox == old(outbox) + [Emission(sid, Members(data[ROOM_KEY]),
             ReceiveMessage(data - {ID_KEY, STATUS_KEY, AVATAR_KEY}, id, SENT, SessionAvatar(sid)))]
    {
      ghost var before := db.lastId;
      var saved := db.SaveMessage(data, saveFault);
      EmitsOrderedMonotone(outbox, before, db.lastId);
      if saved.Success? {
        Emit(sid, Members(data[ROOM_KEY]),
             ReceiveMessage(data - {ID_KEY, STATUS_KEY, AVATAR_KEY}, saved.value, SENT, SessionAvatar(sid)));
      }
    }

    /** 'typing_start': tell the others in the room who is typing. */
    method TypingStart(sid: SocketId, room: JsString)
      requires Valid() && sid in connected
      modifies this`outbox
      ensures Valid()
      ensures outbox == old(outbox) + [Emission(sid, Members(room) - {sid}, UserTyping(SessionPhone(sid)))]
    {
      Emit(sid, Members(room) - {sid}, UserTyping(SessionPhone(sid)));
    }

    /** 'typing_stop' */
    method TypingStop(sid: SocketId, room: JsString)
      requires Valid() && sid in connected
      modifies this`outbox
      ensures Valid()
      ensures outbox == old(outbox) + [Emission(sid, Members(room) - {sid}, UserStopTyping(SessionPhone(sid)))]
    {
      Emit(sid, Members(room) - {sid}, UserStopTyping(SessionPhone(sid)));
    }

    /** 'mark_read': silent without a user; otherwise markMessagesRead, then
        tell the other sockets in the room who read. */
    method MarkRead(sid: SocketId, room: JsString, marked: Settled<()>)
      requires Valid() && sid in connected
      modifies this`outbox, this`storeLog
      ensures Valid()
      ensures sid !in sessions ==> outbox == old(outbox) && storeLog == old(storeLog)
      ensures sid in sessions ==>
        && storeLog == old(storeLog) + [MarkMessagesRead(room, sessions[sid].phone)]
        && outbox == old(outbox) +
             (if marked.Resolved? then [Emission(sid, Members(room) - {sid}, MessagesReadUpdate(room, sessions[sid].phone))]
              else [])
    {
      if sid !in sessions {
        return;
      }
      var reader := sessions[sid].phone;
      storeLog := storeLog + [MarkMessagesRead(room, reader)];
      if marked.Resolved? {
        Emit(sid, Members(room) - {sid}, MessagesReadUpdate(room, reader));
      }
    }

    /** 'delete_message': deleteMessage(id), then tell everyone in the room,
        sender included. No user and no ownership check. `dropped` are the
        ids of the rows the store removed. */
    method DeleteMessage(sid: SocketId, messageId: int, room: JsString,
                         deleted: Settled<()>, dropped: set<nat>)
      requires Valid() && sid in connected
      modifies this`outbox, this`storeLog, db
      ensures Valid()
      ensures storeLog == old(storeLog) + [StoreCall.DeleteMessage(messageId)]
      ensures deleted.Rejected? ==> outbox == old(outbox) && db.rows == old(db.rows)
      ensures deleted.Resolved? ==>
        && db.rows == WithoutIds(old(db.rows), dropped)
        && outbox == old(outbox) + [Emission(sid, Members(room), MessageDeleted(messageId))]
      ensures db.lastId == old(db.lastId)
    {
      storeLog := storeLog + [StoreCall.DeleteMessage(messageId)];
      if deleted.Resolved? {
        db.RemoveRows(dropped);
        Emit(sid, Members(room), MessageDeleted(messageId));
      }
    }

    /** 'reset_room': resetRoom(room), then tell everyone in the room. */
    method ResetRoom(sid: SocketId, room: JsString, reset: Settled<()>, dropped: set<nat>)
      requires Valid() && sid in connected
      modifies this`outbox, this`storeLog, db
      ensures Valid()
      ensures storeLog == old(storeLog) + [StoreCall.ResetRoom(room)]
      ensures reset.Rejected? ==> outbox == old(outbox) && db.rows == old(db.rows)
      ensures reset.Resolved? ==>
        && db.rows == WithoutIds(old(db.rows), dropped)
        && outbox == old(outbox) + [Emission(sid, Members(room), RoomReset)]
      ensures db.lastId == old(db.lastId)
    {
      storeLog := storeLog + [StoreCall.ResetRoom(room)];
      if reset.Resolved? {
        db.RemoveRows(dropped);
        Emit(sid, Members(room), RoomReset);
      }
    }

    /** 'disconnect'. By the time the handler runs the socket has left every
        room and the connected set. A socket with a user deletes that phone's
        presence entry (whichever socket it names) and announces the phone
        offline to the remaining sockets; one without a user emits nothing. */
    method Disconnect(sid: SocketId)
      requires Valid() && sid in connected
      modifies this`connected, this`rooms, this`sessions, this`onlineUsers, this`outbox
      ensures Valid()
      ensures connected == old(connected) - {sid}
      ensures rooms == map r | r in old(rooms) :: old(rooms)[r] - {sid}
      ensures sessions == old(sessions) - {sid}
      ensures sid !in old(sessions) ==> onlineUsers == old(onlineUsers) && outbox == old(outbox)
      ensures sid in old(sessions) ==>
        var phone := old(sessions)[sid].phone;
        && onlineUsers == old(onlineUsers) - {phone}
        && outbox == old(outbox) + [Emission(sid, connected, UserPresence(phone, false))]
    {
      var user := if sid in sessions then Some(sessions[sid]) else None;
      connected := connected - {sid};
      rooms := map r | r in rooms :: rooms[r] - {sid};
      sessions := sessions - {sid};
      if user.Some? {
        onlineUsers := onlineUsers - {user.value.phone};
        BroadcastPresence(sid, user.value.phone, false);
      }
    }

    /** The sockets of every room an array passed to `to()` lists; items
        that are not strings name rooms no socket has joined. */
    function ListedMembers(items: seq<Json>): (s: set<SocketId>)
      reads this`rooms
      ensures forall x :: x in s <==>
        exists i | 0 <= i < |items| :: items[i].JString? && x in Members(items[i].text)
    {
      if items == [] then {}
      else
        (if items[0].JString? then Members(items[0].text) else {}) + ListedMembers(items[1..])
    }

    /** The sockets `socket.to(data.room)` reaches: the others in the room
        `data.room` names or, for an array, in any room it lists; nobody for
        any other value (rooms are joined by string names only). */
    function SignalTargets(sid: SocketId, signal: Signal): (to: set<SocketId>)
      reads this`rooms
      ensures sid !in to
      ensures ROOM_KEY in signal && signal[ROOM_KEY].JString? ==>
        to == Members(signal[ROOM_KEY].text) - {sid}
      ensures ROOM_KEY in signal && signal[ROOM_KEY].JArray? ==>
        forall x :: x in to <==>
          (x != sid &&
           exists i | 0 <= i < |signal[ROOM_KEY].items| ::
             signal[ROOM_KEY].items[i].JString? && x in Members(signal[ROOM_KEY].items[i].text))
      ensures ROOM_KEY !in signal || !(signal[ROOM_KEY].JString? || signal[ROOM_KEY].JArray?) ==> to == {}
    {
      if ROOM_KEY !in signal then {}
      else
        match signal[ROOM_KEY]
        case JString(room) => Members(room) - {sid}
        case JArray(items) => ListedMembers(items) - {sid}
        case _ => {}
    }

    /** No signal is relayed to a socket that has disconnected. */
    lemma SignalTargetsAreConnected(sid: SocketId, signal: Signal)
      requires Valid()
      ensures SignalTargets(sid, signal) <= connected
    {
      if ROOM_KEY in signal && signal[ROOM_KEY].JArray? {
        var items := signal[ROOM_KEY].items;
        forall x | x in SignalTargets(sid, signal) ensures x in connected {
          var i :| 0 <= i < |items| && items[i].JString? && x in Members(items[i].text);
          MembersAreConnected(items[i].text);
        }
      }
    }

    /** 'call_offer': forwarded unchanged to the others in `data.room`. */
    method RelayCallOffer(sid: SocketId, signal: Signal)
      requires Valid() && sid in connected
      modifies this`outbox
      ensures Valid()
      ensures outbox == old(outbox) + [Emission(sid, SignalTargets(sid, signal), CallOffer(signal))]
    {
      Emit(sid, SignalTargets(sid, signal), CallOffer(signal));
    }

    /** 'call_answer' */
    method RelayCallAnswer(sid: SocketId, signal: Signal)
      requires Valid() && sid in connected
      modifies this`outbox
      ensures Valid()
      ensures outbox == old(outbox) + [Emission(sid, SignalTargets(sid, signal), CallAnswer(signal))]
    {
      Emit(sid, SignalTargets(sid, signal), CallAnswer(signal));
    }

    /** 'ice_candidate' */
    method RelayIceCandidate(sid: SocketId, signal: Signal)
      requires Valid() && sid in connected
      modifies this`outbox
      ensures Valid()
      ensures outbox == old(outbox) + [Emission(sid, SignalTargets(sid, signal), IceCandidate(signal))]
    {
      Emit(sid, SignalTargets(sid, signal), IceCandidate(signal));
    }
  }
}
