/** Deterministic room ids for a pair of phones (start_chat in
    server/index.js): `[mine, target].sort().join('_')`. */
module RoomIds {
  import opened JsText

  /** `[a, b].sort()` with the default comparator. The sort is stable, so the
      pair is swapped only when the second string is strictly smaller. */
  function SortPair(a: JsString, b: JsString): (r: (JsString, JsString))
    ensures !Less(r.1, r.0)
    ensures (r.0 == a && r.1 == b) || (r.0 == b && r.1 == a)
  {
    if Less(b, a) then
      LessAsymmetric(b, a);
      (b, a)
    else (a, b)
  }

  /** The room id of a chat between `mine` and `target`. */
  function RoomId(mine: JsString, target: JsString): (id: JsString)
    ensures |id| == |mine| + |target| + 1
    ensures id[|SortPair(mine, target).0|] == UNDERSCORE
  {
    var p := SortPair(mine, target);
    p.0 + [UNDERSCORE] + p.1
  }

  /** Both participants get the same room, whoever starts the chat. */
  lemma RoomIdSymmetric(a: JsString, b: JsString)
    ensures RoomId(a, b) == RoomId(b, a)
  {
    LessTotal(a, b);
    LessAsymmetric(a, b);
  }

  /** The smaller phone (in string order) comes first, the larger after '_'. */
  lemma RoomIdOrdered(a: JsString, b: JsString)
    ensures Less(a, b) ==> RoomId(a, b) == a + [UNDERSCORE] + b
    ensures Less(b, a) ==> RoomId(a, b) == b + [UNDERSCORE] + a
  {
    LessAsymmetric(a, b);
  }

  /** Self chat is not refused: a phone paired with itself gives "p_p". */
  lemma RoomIdSelf(p: JsString)
    ensures RoomId(p, p) == p + [UNDERSCORE] + p
  {
  }

  /** Cut a string at its first '_' (the client shows a room as
      `room.replace('_', ' vs ')`, which acts on the first '_' only). */
  function SplitRoomId(id: JsString): (r: Option<(JsString, JsString)>)
    ensures r.None? <==> UNDERSCORE !in id
    ensures r.Some? ==> id == r.value.0 + [UNDERSCORE] + r.value.1 && UNDERSCORE !in r.value.0
  {
    if id == [] then None
    else if id[0] == UNDERSCORE then Some(([], id[1..]))
    else
      match SplitRoomId(id[1..])
      case None => None
      case Some(parts) => Some(([id[0]] + parts.0, parts.1))
  }

  lemma {:induction false} SplitJoined(x: JsString, y: JsString)
    requires UNDERSCORE !in x
    ensures SplitRoomId(x + [UNDERSCORE] + y) == Some((x, y))
  {
    var id := x + [UNDERSCORE] + y;
    if x != [] {
      SplitJoined(x[1..], y);
      assert id[0] == x[0] != UNDERSCORE;
      assert id[1..] == x[1..] + [UNDERSCORE] + y;
      assert [x[0]] + x[1..] == x;
    }
  }

  /** For phones without '_' (every validated phone), cutting the room id at
      its '_' gives back both phones, smaller first. */
  lemma RoomIdSplits(a: JsString, b: JsString)
    requires UNDERSCORE !in a && UNDERSCORE !in b
    ensures SplitRoomId(RoomId(a, b)) == Some(SortPair(a, b))
  {
    var p := SortPair(a, b);
    SplitJoined(p.0, p.1);
  }

  /** Distinct pairs of such phones never share a room. */
  lemma RoomIdInjective(a: JsString, b: JsString, c: JsString, d: JsString)
    requires UNDERSCORE !in a && UNDERSCORE !in b && UNDERSCORE !in c && UNDERSCORE !in d
    requires RoomId(a, b) == RoomId(c, d)
    ensures (a == c && b == d) || (a == d && b == c)
  {
    RoomIdSplits(a, b);
    RoomIdSplits(c, d);
  }
}
