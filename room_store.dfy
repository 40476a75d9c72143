/**
 * The `rooms` table, keyed by `roomNumber`, and the `RoomDao` operations on
 * it. Every insert replaces on conflict, so the table behaves as a map from
 * room number to room.
 */
module RoomStore {
  import opened Options
  import opened Text

  /** A row of `rooms` (`RoomEntity`); every field but the key defaults to "" or 0. */
  datatype RoomEntity = RoomEntity(
    roomNumber: string,
    tenantName: string,
    roomType: string,
    note: string,
    rentAmount: int,
    deposit: int,
    status: string,
    rentStartDate: string,
    rentEndDate: string,
    rentDuration: string)

  /** `RoomEntity(roomNumber = n)`: the other fields at their defaults. */
  function BlankRoom(roomNumber: string): (r: RoomEntity)
    ensures r.roomNumber == roomNumber && r.rentAmount == 0 && r.deposit == 0 && r.tenantName == ""
    ensures r.roomType == "" && r.note == "" && r.status == ""
    ensures r.rentStartDate == "" && r.rentEndDate == "" && r.rentDuration == ""
  {
    RoomEntity(roomNumber, "", "", "", 0, 0, "", "", "", "")
  }

  /** Every row is filed under its own room number. */
  predicate Keyed(rooms: map<string, RoomEntity>) {
    forall k :: k in rooms ==> rooms[k].roomNumber == k
  }

  /** `insertRoom(room)` with REPLACE: the room's row is the new one; no other row changes. */
  function Inserted(rooms: map<string, RoomEntity>, room: RoomEntity): (r: map<string, RoomEntity>)
    requires Keyed(rooms)
    ensures Keyed(r)
    ensures r.Keys == rooms.Keys + {room.roomNumber}
    ensures r[room.roomNumber] == room
    ensures forall k :: k in rooms && k != room.roomNumber ==> r[k] == rooms[k]
  {
    rooms[room.roomNumber := room]
  }

  /** `insertRooms(rooms)`: the rooms inserted one after another. */
  function InsertedAll(rooms: map<string, RoomEntity>, rs: seq<RoomEntity>): (r: map<string, RoomEntity>)
    requires Keyed(rooms)
    ensures Keyed(r)
    decreases |rs|
  {
    if rs == [] then rooms else Inserted(InsertedAll(rooms, rs[..|rs| - 1]), rs[|rs| - 1])
  }

  /** The last room of `rs` numbered `k`, if any. */
  function LastWith(rs: seq<RoomEntity>, k: string): (r: Option<RoomEntity>)
    ensures r.Some? ==> r.value in rs && r.value.roomNumber == k
    ensures r.None? <==> forall j :: 0 <= j < |rs| ==> rs[j].roomNumber != k
  {
    if rs == [] then None
    else if rs[|rs| - 1].roomNumber == k then Some(rs[|rs| - 1])
    else
      var r := LastWith(rs[..|rs| - 1], k);
      assert forall j :: 0 <= j < |rs| - 1 ==> rs[..|rs| - 1][j] == rs[j];
      r
  }

  /**
   * After `insertRooms(rs)` a room number that occurs in `rs` holds the last
   * room of `rs` with that number; every other row is as it was.
   */
  lemma {:induction false} InsertedAllLastWins(rooms: map<string, RoomEntity>, rs: seq<RoomEntity>, k: string)
    requires Keyed(rooms)
    ensures k in InsertedAll(rooms, rs) <==> k in rooms || LastWith(rs, k).Some?
    ensures LastWith(rs, k).Some? ==> InsertedAll(rooms, rs)[k] == LastWith(rs, k).value
    ensures LastWith(rs, k).None? && k in rooms ==> InsertedAll(rooms, rs)[k] == rooms[k]
    decreases |rs|
  {
    if rs != [] {
      InsertedAllLastWins(rooms, rs[..|rs| - 1], k);
    }
  }

  /** `deleteRoom(room)`: removes the row with the room's number, and only that row. */
  function Deleted(rooms: map<string, RoomEntity>, room: RoomEntity): (r: map<string, RoomEntity>)
    requires Keyed(rooms)
    ensures Keyed(r)
    ensures r.Keys == rooms.Keys - {room.roomNumber}
    ensures forall k :: k in r ==> r[k] == rooms[k]
  {
    rooms - {room.roomNumber}
  }

  /** `m` is a key of `keys` below or equal to every other. */
  predicate IsMinKey(m: string, keys: set<string>) {
    m in keys && forall k :: k in keys ==> LessEq(m, k)
  }

  /** Some key of `keys` is below or equal to every other. */
  lemma {:induction false} MinKeyExists(keys: set<string>)
    requires keys != {}
    ensures exists m :: IsMinKey(m, keys)
    decreases |keys|
  {
    var x :| x in keys;
    if keys == {x} {
      LessEqReflexive(x);
      assert IsMinKey(x, keys);
    } else {
      var rest := keys - {x};
      MinKeyExists(rest);
      var m :| IsMinKey(m, rest);
      LessEqTotal(x, m);
      if LessEq(x, m) {
        forall k | k in keys ensures LessEq(x, k) {
          if k == x { LessEqReflexive(x); } else { LessEqTransitive(x, m, k); }
        }
        assert IsMinKey(x, keys);
      } else {
        forall k | k in keys ensures LessEq(m, k) {
          if k != x { assert k in rest; }
        }
        assert IsMinKey(m, keys);
      }
    }
  }

  /** A key of `keys` below or equal to every other. */
  ghost function MinKey(keys: set<string>): (m: string)
    requires keys != {}
    ensures m in keys && forall k :: k in keys ==> LessEq(m, k)
  {
    MinKeyExists(keys);
    var m :| IsMinKey(m, keys);
    m
  }

  /** The keys in ascending order: each key once, each smaller than the next. */
  ghost function SortedKeys(keys: set<string>): (s: seq<string>)
    ensures |s| == |keys|
    ensures forall i :: 0 <= i < |s| ==> s[i] in keys
    ensures forall k :: k in keys ==> k in s
    ensures forall i, j :: 0 <= i < j < |s| ==> Less(s[i], s[j])
    decreases |keys|
  {
    if keys == {} then []
    else
      var m := MinKey(keys);
      var rest := SortedKeys(keys - {m});
      var s := [m] + rest;
      assert forall j :: 0 < j < |s| ==> s[j] == rest[j - 1] && Less(m, s[j]);
      s
  }

  /** `getAllRooms()` / `getAllRoomsNow()` (`ORDER BY roomNumber ASC`): every room once, ascending. */
  ghost function SortedRooms(rooms: map<string, RoomEntity>): (s: seq<RoomEntity>)
    requires Keyed(rooms)
    ensures |s| == |rooms|
    ensures forall x :: x in s <==> x in rooms.Values
    ensures forall i, j :: 0 <= i < j < |s| ==> Less(s[i].roomNumber, s[j].roomNumber)
  {
    var ks := SortedKeys(rooms.Keys);
    var s := seq(|ks|, i requires 0 <= i < |ks| => rooms[ks[i]]);
    RoomsAtKeys(rooms, ks, s);
    s
  }

  /** The rooms filed under an ascending list of all keys are all rooms, ascending. */
  lemma RoomsAtKeys(rooms: map<string, RoomEntity>, ks: seq<string>, s: seq<RoomEntity>)
    requires Keyed(rooms)
    requires |ks| == |rooms.Keys| && |s| == |ks|
    requires forall i :: 0 <= i < |ks| ==> ks[i] in rooms && s[i] == rooms[ks[i]]
    requires forall k :: k in rooms ==> k in ks
    requires forall i, j :: 0 <= i < j < |ks| ==> Less(ks[i], ks[j])
    ensures |s| == |rooms|
    ensures forall x :: x in s <==> x in rooms.Values
    ensures forall i, j :: 0 <= i < j < |s| ==> Less(s[i].roomNumber, s[j].roomNumber)
  {
    assert |rooms| == |rooms.Keys|;
    forall x | x in rooms.Values ensures x in s {
      var k :| k in rooms && rooms[k] == x;
      var i :| 0 <= i < |ks| && ks[i] == k;
      assert s[i] == x;
    }
  }

  /** The room numbers of a room list. */
  function RoomNumbers(rooms: seq<RoomEntity>): set<string> {
    set r | r in rooms :: r.roomNumber
  }

  lemma RoomNumbersAppend(rooms: seq<RoomEntity>, i: nat)
    requires i < |rooms|
    ensures RoomNumbers(rooms[..i + 1]) == RoomNumbers(rooms[..i]) + {rooms[i].roomNumber}
  {
    assert rooms[..i + 1] == rooms[..i] + [rooms[i]];
  }

  /** The `RoomDao` over one `rooms` table. */
  class RoomTable {
    var rooms: map<string, RoomEntity>

    ghost predicate Valid()
      reads this
    {
      Keyed(rooms)
    }

    /** An empty table. */
    constructor ()
      ensures Valid() && rooms == map[]
    {
      rooms := map[];
    }

    /** `getAllRooms()` and `getAllRoomsNow()`: every room, ascending by room number. */
    ghost function AllRooms(): (s: seq<RoomEntity>)
      reads this
      requires Valid()
      ensures |s| == |rooms|
      ensures forall x :: x in s <==> x in rooms.Values
      ensures forall i, j :: 0 <= i < j < |s| ==> Less(s[i].roomNumber, s[j].roomNumber)
    {
      SortedRooms(rooms)
    }

    /** `getAll()` (no `ORDER BY`): the same rooms as `getAllRooms()`, in no promised order. */
    ghost function AllRoomsUnordered(): (s: seq<RoomEntity>)
      reads this
      requires Valid()
      ensures |s| == |rooms|
      ensures forall x :: x in s <==> x in AllRooms()
    {
      SortedRooms(rooms)
    }

    /** `insertRoom(room)`. */
    method InsertRoom(room: RoomEntity)
      requires Valid()
      modifies this
      ensures Valid()
      ensures rooms == Inserted(old(rooms), room)
    {
      rooms := Inserted(rooms, room);
    }

    /** `insertRooms(rooms)`: the same as inserting each room in order. */
    method InsertRooms(rs: seq<RoomEntity>)
      requires Valid()
      modifies this
      ensures Valid()
      ensures rooms == InsertedAll(old(rooms), rs)
    {
      ghost var rooms0 := rooms;
      var i := 0;
      while i < |rs|
        invariant 0 <= i <= |rs|
        invariant Valid()
        invariant rooms == InsertedAll(rooms0, rs[..i])
      {
        assert rs[..i + 1][..i] == rs[..i];
        InsertRoom(rs[i]);
        i := i + 1;
      }
      assert rs[..i] == rs;
    }

    /** `deleteRoom(room)`. */
    method DeleteRoom(room: RoomEntity)
      requires Valid()
      modifies this
      ensures Valid()
      ensures rooms == Deleted(old(rooms), room)
    {
      rooms := Deleted(rooms, room);
    }
  }
}
