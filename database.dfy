/** The `messages` table of server/database.js, held in memory: its rows in
    insertion order and the AUTOINCREMENT counter (the table's entry in
    sqlite_sequence). A failure of the SQLite engine itself (a locked or full
    database, say) is a `fault` parameter of each call. */
module Database {
  import opened JsText

  /** A JSON object sent by a client, with string values; an absent key is
      JavaScript's undefined. */
  type Fields = map<JsString, JsString>

  const ROOM_KEY: JsString := Ascii("room")
  const AUTHOR_KEY: JsString := Ascii("author")
  const MESSAGE_KEY: JsString := Ascii("message")
  const TIME_KEY: JsString := Ascii("time")

  lemma ColumnKeysDistinct()
    ensures ROOM_KEY != AUTHOR_KEY && ROOM_KEY != MESSAGE_KEY && ROOM_KEY != TIME_KEY
    ensures AUTHOR_KEY != MESSAGE_KEY && AUTHOR_KEY != TIME_KEY && MESSAGE_KEY != TIME_KEY
  {
    assert ROOM_KEY[0] != TIME_KEY[0];
  }

  /** One row: `id INTEGER PRIMARY KEY AUTOINCREMENT` and four `TEXT NOT NULL`
      columns. */
  datatype Row = Row(id: nat, room: JsString, author: JsString, message: JsString, time: JsString)

  datatype DbError =
    | NotNullViolation(column: JsString)  // "NOT NULL constraint failed: messages.<column>"
    | EngineFault

  datatype Result<T> = Success(value: T) | Failure(error: DbError)

  /** The first of the inserted columns, in table order, whose value is
      undefined. */
  function MissingColumn(data: Fields): (r: Option<JsString>)
    ensures r.None? <==> ROOM_KEY in data && AUTHOR_KEY in data && MESSAGE_KEY in data && TIME_KEY in data
    ensures r.Some? ==> r.value !in data
    ensures r.Some? && r.value != ROOM_KEY ==> ROOM_KEY in data
    ensures r.Some? && r.value != ROOM_KEY && r.value != AUTHOR_KEY ==> AUTHOR_KEY in data
    ensures r.Some? && r.value == TIME_KEY ==> MESSAGE_KEY in data
    ensures r.Some? ==> r.value in {ROOM_KEY, AUTHOR_KEY, MESSAGE_KEY, TIME_KEY}
  {
    ColumnKeysDistinct();
    if ROOM_KEY !in data then Some(ROOM_KEY)
    else if AUTHOR_KEY !in data then Some(AUTHOR_KEY)
    else if MESSAGE_KEY !in data then Some(MESSAGE_KEY)
    else if TIME_KEY !in data then Some(TIME_KEY)
    else None
  }

  /** Ids strictly increase along the sequence. */
  ghost predicate IdsAscending(rows: seq<Row>)
  {
    forall i, j | 0 <= i < j < |rows| :: rows[i].id < rows[j].id
  }

  /** `WHERE room = ?` over rows kept in id order. */
  function RoomHistory(rows: seq<Row>, room: JsString): (r: seq<Row>)
    ensures forall x :: x in r <==> x in rows && x.room == room
    ensures IdsAscending(rows) ==> IdsAscending(r)
  {
    if rows == [] then []
    else if rows[0].room == room then [rows[0]] + RoomHistory(rows[1..], room)
    else RoomHistory(rows[1..], room)
  }

  lemma NonEmptyHasMember(s: seq<Row>)
    ensures s != [] ==> s[0] in s
  {
  }

  /** Two id-ascending sequences holding the same rows are equal: the answer
      of `ORDER BY id ASC` is determined by the rows it selects. */
  lemma {:induction false} AscendingIsUnique(a: seq<Row>, b: seq<Row>)
    requires IdsAscending(a) && IdsAscending(b)
    requires forall x :: x in a <==> x in b
    ensures a == b
  {
    if a == [] {
      NonEmptyHasMember(b);
    } else {
      assert a[0] in b && b != [];
      assert b[0] in a;
      var k :| 0 <= k < |b| && b[k] == a[0];
      var m :| 0 <= m < |a| && a[m] == b[0];
      assert a[0].id <= a[m].id == b[0].id;
      assert b[0].id <= b[k].id == a[0].id;
      assert k == 0;
      forall x ensures x in a[1..] <==> x in b[1..] {
        if x in a[1..] {
          var i :| 1 <= i < |a| && a[i] == x;
          assert a[0].id < a[i].id;
          assert x in a && x in b;
          var j :| 0 <= j < |b| && b[j] == x;
          assert j != 0;
          assert b[1..][j - 1] == x;
        }
        if x in b[1..] {
          var i :| 1 <= i < |b| && b[i] == x;
          assert b[0].id < b[i].id;
          assert x in b && x in a;
          var j :| 0 <= j < |a| && a[j] == x;
          assert j != 0;
          assert a[1..][j - 1] == x;
        }
      }
      AscendingIsUnique(a[1..], b[1..]);
      assert a == [a[0]] + a[1..] && b == [b[0]] + b[1..];
    }
  }

  /** RoomHistory over an id-ordered table is the one answer of
      `SELECT * FROM messages WHERE room = ? ORDER BY id ASC`. */
  lemma HistoryIsOrderedSelection(rows: seq<Row>, room: JsString, answer: seq<Row>)
    requires IdsAscending(rows)
    requires IdsAscending(answer)
    requires forall x :: x in answer <==> x in rows && x.room == room
    ensures answer == RoomHistory(rows, room)
  {
    AscendingIsUnique(answer, RoomHistory(rows, room));
  }

  /** Appending a row extends the history of its own room by that row and
      leaves every other room's history as it was. */
  lemma {:induction false} HistoryAfterAppend(rows: seq<Row>, row: Row, room: JsString)
    ensures RoomHistory(rows + [row], room) ==
      RoomHistory(rows, room) + (if row.room == room then [row] else [])
  {
    if rows == [] {
      assert rows + [row] == [row];
    } else {
      assert (rows + [row])[1..] == rows[1..] + [row];
      HistoryAfterAppend(rows[1..], row, room);
    }
  }

  /** The rows whose id is not in `ids`, in order. */
  function WithoutIds(rows: seq<Row>, ids: set<nat>): (r: seq<Row>)
    ensures forall x :: x in r <==> x in rows && x.id !in ids
    ensures IdsAscending(rows) ==> IdsAscending(r)
  {
    if rows == [] then []
    else if rows[0].id in ids then WithoutIds(rows[1..], ids)
    else [rows[0]] + WithoutIds(rows[1..], ids)
  }

  class MessageTable {
    /** The table's rows, in insertion (and so id) order. */
    var rows: seq<Row>
    /** The largest id ever handed out (0 before the first insert). */
    var lastId: nat

    ghost predicate Valid()
      reads this
    {
      && IdsAscending(rows)
      && forall i | 0 <= i < |rows| :: 0 < rows[i].id <= lastId
    }

    constructor ()
      ensures Valid()
      ensures rows == [] && lastId == 0
    {
      rows := [];
      lastId := 0;
    }

    /** saveMessage: INSERT the room, author, message and time of `data`
        (nothing else of it) and resolve with the new row's id. */
    method SaveMessage(data: Fields, fault: bool) returns (res: Result<nat>)
      requires Valid()
      modifies this
      ensures Valid()
      ensures fault ==> res == Failure(EngineFault)
      ensures !fault && MissingColumn(data).Some? ==>
        res == Failure(NotNullViolation(MissingColumn(data).value))
      ensures res.Failure? ==> rows == old(rows) && lastId == old(lastId)
      ensures res.Success? <==> !fault && MissingColumn(data).None?
      ensures res.Success? ==>
        && res.value == old(lastId) + 1 == lastId
        && (forall i | 0 <= i < |old(rows)| :: old(rows)[i].id < res.value)
        && rows == old(rows) + [Row(res.value, data[ROOM_KEY], data[AUTHOR_KEY], data[MESSAGE_KEY], data[TIME_KEY])]
      ensures res.Success? ==>
        && RoomHistory(rows, data[ROOM_KEY]) ==
             RoomHistory(old(rows), data[ROOM_KEY]) + [Row(res.value, data[ROOM_KEY], data[AUTHOR_KEY], data[MESSAGE_KEY], data[TIME_KEY])]
        && forall room | room != data[ROOM_KEY] :: RoomHistory(rows, room) == RoomHistory(old(rows), room)
    {
      if fault {
        return Failure(EngineFault);
      }
      var missing := MissingColumn(data);
      if missing.Some? {
        return Failure(NotNullViolation(missing.value));
      }
      var row := Row(lastId + 1, data[ROOM_KEY], data[AUTHOR_KEY], data[MESSAGE_KEY], data[TIME_KEY]);
      forall room {
        HistoryAfterAppend(rows, row, room);
      }
      lastId := lastId + 1;
      rows := rows + [row];
      res := Success(lastId);
    }

    /** getMessagesForRoom: the rows of `room`, ascending by id. */
    method GetMessagesForRoom(room: JsString, fault: bool) returns (res: Result<seq<Row>>)
      requires Valid()
      ensures res.Failure? <==> fault
      ensures res.Success? ==> res.value == RoomHistory(rows, room)
      ensures res.Success? ==>
        && IdsAscending(res.value)
        && forall x :: x in res.value <==> x in rows && x.room == room
    {
      if fault {
        return Failure(EngineFault);
      }
      res := Success(RoomHistory(rows, room));
    }

    /** The effect of an external store call that deletes rows (deleteMessage,
        resetRoom): the rows with the given ids go; the counter stays. */
    method RemoveRows(ids: set<nat>)
      requires Valid()
      modifies this
      ensures Valid()
      ensures rows == WithoutIds(old(rows), ids) && lastId == old(lastId)
    {
      rows := WithoutIds(rows, ids);
    }
  }

  /** After a successful save, the history of the message's room ends with a
      row carrying the returned id and the saved fields; other rooms are
      untouched. */
  lemma SavedMessageIsLoaded(before: seq<Row>, data: Fields, id: nat, room: JsString)
    requires MissingColumn(data).None?
    ensures var row := Row(id, data[ROOM_KEY], data[AUTHOR_KEY], data[MESSAGE_KEY], data[TIME_KEY]);
      && (room == data[ROOM_KEY] ==> RoomHistory(before + [row], room) == RoomHistory(before, room) + [row])
      && (room != data[ROOM_KEY] ==> RoomHistory(before + [row], room) == RoomHistory(before, room))
  {
    HistoryAfterAppend(before, Row(id, data[ROOM_KEY], data[AUTHOR_KEY], data[MESSAGE_KEY], data[TIME_KEY]), room);
  }
}
