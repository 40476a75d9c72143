/**
 * The `electric_meter_records` table and the `ElectricMeterDao` queries over
 * it. The table's only key is the autogenerated `id`: nothing makes
 * (room, month) unique, so saving a month twice keeps both rows.
 */
module MeterStore {
  import opened Options
  import opened Text

  /** A row of `electric_meter_records`; `id == 0` asks the database to generate one. */
  datatype MeterRecord = MeterRecord(id: int, roomNumber: string, recordMonth: string, meterValue: int)

  /** A reading as the screens build it, with the id left for the database to assign. */
  function NewRecord(roomNumber: string, recordMonth: string, meterValue: int): (r: MeterRecord)
    ensures r.id == 0 && r.roomNumber == roomNumber && r.recordMonth == recordMonth && r.meterValue == meterValue
  {
    MeterRecord(0, roomNumber, recordMonth, meterValue)
  }

  // --------------------------------------------------------------- queries

  /** `getAllForMonth(month)`: the rows of that month, in table order. */
  function AllForMonth(rows: seq<MeterRecord>, month: string): (r: seq<MeterRecord>)
    ensures forall x :: x in r <==> x in rows && x.recordMonth == month
    ensures multiset(r) <= multiset(rows)
    ensures forall x :: x in rows && x.recordMonth == month ==> multiset(r)[x] == multiset(rows)[x]
  {
    if rows == [] then []
    else
      var tail := AllForMonth(rows[1..], month);
      assert rows == [rows[0]] + rows[1..];
      if rows[0].recordMonth == month then [rows[0]] + tail else tail
  }

  /** The rows of one room, in table order (`WHERE roomNumber = :roomNo`). */
  function RecordsOf(rows: seq<MeterRecord>, room: string): (r: seq<MeterRecord>)
    ensures forall x :: x in r <==> x in rows && x.roomNumber == room
    ensures multiset(r) <= multiset(rows)
    ensures forall x :: x in rows && x.roomNumber == room ==> multiset(r)[x] == multiset(rows)[x]
  {
    if rows == [] then []
    else
      var tail := RecordsOf(rows[1..], room);
      assert rows == [rows[0]] + rows[1..];
      if rows[0].roomNumber == room then [rows[0]] + tail else tail
  }

  /** The position of the first row with the greatest month. */
  function Newest(rs: seq<MeterRecord>): (i: nat)
    requires rs != []
    ensures i < |rs|
    ensures forall j :: 0 <= j < |rs| ==> LessEq(rs[j].recordMonth, rs[i].recordMonth)
  {
    if |rs| == 1 then LessEqReflexive(rs[0].recordMonth); 0
    else
      var k := Newest(rs[1..]) + 1;
      LessEqTotal(rs[0].recordMonth, rs[k].recordMonth);
      if LessEq(rs[k].recordMonth, rs[0].recordMonth) then
        forall j | 0 <= j < |rs| ensures LessEq(rs[j].recordMonth, rs[0].recordMonth) {
          if j > 0 { LessEqTransitive(rs[j].recordMonth, rs[k].recordMonth, rs[0].recordMonth); }
          else { LessEqReflexive(rs[0].recordMonth); }
        }
        0
      else k
  }

  /**
   * `ORDER BY recordMonth DESC LIMIT 2` over `rs`: the newest row, then the
   * newest of the others. SQL leaves the order of equal months open; this
   * model takes the earlier row first.
   */
  function TopTwoByMonth(rs: seq<MeterRecord>): (r: seq<MeterRecord>)
    ensures |r| == if |rs| < 2 then |rs| else 2
    ensures multiset(r) <= multiset(rs)
    ensures |r| == 2 ==> LessEq(r[1].recordMonth, r[0].recordMonth)
    ensures r != [] ==> forall x :: x in rs ==> LessEq(x.recordMonth, r[0].recordMonth)
    ensures r != [] ==> forall x :: x in multiset(rs) - multiset(r) ==> LessEq(x.recordMonth, r[|r| - 1].recordMonth)
  {
    if rs == [] then []
    else
      var i := Newest(rs);
      var rest := rs[..i] + rs[i + 1..];
      RemoveAt(rs, i);
      if rest == [] then [rs[i]]
      else
        var j := Newest(rest);
        SecondNewest(rs, rs[i], rest, j);
        [rs[i], rest[j]]
  }

  lemma RemoveAt(rs: seq<MeterRecord>, i: nat)
    requires i < |rs|
    ensures multiset(rs) == multiset(rs[..i] + rs[i + 1..]) + multiset{rs[i]}
  {
    assert rs == rs[..i] + [rs[i]] + rs[i + 1..];
  }

  lemma SecondNewest(rs: seq<MeterRecord>, first: MeterRecord, rest: seq<MeterRecord>, j: nat)
    requires j < |rest|
    requires multiset(rs) == multiset(rest) + multiset{first}
    requires forall k :: 0 <= k < |rest| ==> LessEq(rest[k].recordMonth, rest[j].recordMonth)
    ensures multiset{first, rest[j]} <= multiset(rs)
    ensures forall x :: x in multiset(rs) - multiset{first, rest[j]} ==> LessEq(x.recordMonth, rest[j].recordMonth)
  {
    assert rest[j] in multiset(rest);
    assert multiset(rs) - multiset{first, rest[j]} == multiset(rest) - multiset{rest[j]};
    forall x | x in multiset(rs) - multiset{first, rest[j]}
      ensures LessEq(x.recordMonth, rest[j].recordMonth)
    {
      assert x in rest;
    }
  }

  /** `getLastTwoRecords(roomNo)`: at most two of the room's rows, the newest months first. */
  function LastTwo(rows: seq<MeterRecord>, room: string): (r: seq<MeterRecord>)
    ensures |r| == if |RecordsOf(rows, room)| < 2 then |RecordsOf(rows, room)| else 2
    ensures forall x :: x in r ==> x in rows && x.roomNumber == room
    ensures |r| == 2 ==> LessEq(r[1].recordMonth, r[0].recordMonth)
    ensures r != [] ==> forall x :: x in rows && x.roomNumber == room ==> LessEq(x.recordMonth, r[0].recordMonth)
    ensures multiset(r) <= multiset(RecordsOf(rows, room))
    ensures r != [] ==> forall x :: x in multiset(RecordsOf(rows, room)) - multiset(r) ==> LessEq(x.recordMonth, r[|r| - 1].recordMonth)
  {
    var r := TopTwoByMonth(RecordsOf(rows, room));
    forall x | x in r ensures x in rows && x.roomNumber == room {
      assert x in multiset(RecordsOf(rows, room));
    }
    r
  }

  /** `getRecord(roomNo, month)` (`LIMIT 1`): the first row of that room and month, if any. */
  function GetRecord(rows: seq<MeterRecord>, room: string, month: string): (r: Option<MeterRecord>)
    ensures r.Some? ==> r.value in rows && r.value.roomNumber == room && r.value.recordMonth == month
    ensures r.None? <==> forall x :: x in rows ==> !(x.roomNumber == room && x.recordMonth == month)
  {
    if rows == [] then None
    else if rows[0].roomNumber == room && rows[0].recordMonth == month then Some(rows[0])
    else GetRecord(rows[1..], room, month)
  }

  /** `rs.find { it.recordMonth == month }`. */
  function FindMonth(rs: seq<MeterRecord>, month: string): (r: Option<MeterRecord>)
    ensures r.Some? ==> r.value in rs && r.value.recordMonth == month
    ensures r.None? <==> forall x :: x in rs ==> x.recordMonth != month
    ensures rs != [] && rs[0].recordMonth == month ==> r == Some(rs[0])
  {
    if rs == [] then None
    else if rs[0].recordMonth == month then Some(rs[0])
    else FindMonth(rs[1..], month)
  }

  /** `rs.find { it.recordMonth != month }`. */
  function FindOtherMonth(rs: seq<MeterRecord>, month: string): (r: Option<MeterRecord>)
    ensures r.Some? ==> r.value in rs && r.value.recordMonth != month
    ensures r.None? <==> forall x :: x in rs ==> x.recordMonth == month
    ensures rs != [] && rs[0].recordMonth != month ==> r == Some(rs[0])
  {
    if rs == [] then None
    else if rs[0].recordMonth != month then Some(rs[0])
    else FindOtherMonth(rs[1..], month)
  }

  /** How many rows the table holds for one room and month. */
  function CountRoomMonth(rows: seq<MeterRecord>, room: string, month: string): (n: nat)
    ensures n <= |rows|
    ensures n == 0 <==> GetRecord(rows, room, month).None?
  {
    if rows == [] then 0
    else (if rows[0].roomNumber == room && rows[0].recordMonth == month then 1 else 0)
         + CountRoomMonth(rows[1..], room, month)
  }

  // ---------------------------------------------------------------- writes

  /** The table's rows together with the next id AUTOINCREMENT hands out. */
  datatype TableState = TableState(rows: seq<MeterRecord>, nextId: int)

  /** Ids are non-zero, distinct and below the next id to be generated. */
  predicate WellFormed(t: TableState) {
    && t.nextId >= 1
    && (forall i :: 0 <= i < |t.rows| ==> t.rows[i].id != 0 && t.rows[i].id < t.nextId)
    && (forall i, j :: 0 <= i < j < |t.rows| ==> t.rows[i].id != t.rows[j].id)
  }

  /** The position of the row with that id, if any. */
  function IndexOfId(rows: seq<MeterRecord>, id: int): (r: Option<nat>)
    ensures r.Some? ==> r.value < |rows| && rows[r.value].id == id
    ensures r.None? ==> forall i :: 0 <= i < |rows| ==> rows[i].id != id
  {
    if rows == [] then None
    else if rows[0].id == id then Some(0)
    else match IndexOfId(rows[1..], id)
      case None => None
      case Some(k) => Some(k + 1)
  }

  function Max(a: int, b: int): int { if a >= b then a else b }

  /**
   * `@Insert(onConflict = REPLACE)` of one record: id 0 gets the next id and
   * a new row; an explicit id replaces the row holding it in place, or is
   * appended, and the generator moves past it. No other row changes.
   */
  function Insert(t: TableState, r: MeterRecord): (u: TableState)
    requires WellFormed(t)
    ensures WellFormed(u)
    ensures r.id == 0 ==> u.rows == t.rows + [r.(id := t.nextId)] && u.nextId == t.nextId + 1
    ensures r.id != 0 ==> r in u.rows && u.nextId == Max(t.nextId, r.id + 1)
  {
    if r.id == 0 then
      TableState(t.rows + [r.(id := t.nextId)], t.nextId + 1)
    else match IndexOfId(t.rows, r.id)
      case Some(i) => assert t.rows[i := r][i] == r; TableState(t.rows[i := r], Max(t.nextId, r.id + 1))
      case None => TableState(t.rows + [r], Max(t.nextId, r.id + 1))
  }

  /**
   * A record with an explicit id takes the place of the row holding that id;
   * every other row stays as and where it was, and without such a row the
   * record is appended.
   */
  lemma InsertReplacesInPlace(t: TableState, r: MeterRecord)
    requires WellFormed(t) && r.id != 0
    ensures |Insert(t, r).rows| == |t.rows| + (if IndexOfId(t.rows, r.id).Some? then 0 else 1)
    ensures forall j :: 0 <= j < |t.rows| ==>
      Insert(t, r).rows[j] == (if t.rows[j].id == r.id then r else t.rows[j])
    ensures IndexOfId(t.rows, r.id).None? ==> Insert(t, r).rows == t.rows + [r]
  {
  }

  /** `insertOrUpdateRecords(rs)`: the records inserted one after another. */
  function InsertAll(t: TableState, rs: seq<MeterRecord>): (u: TableState)
    requires WellFormed(t)
    ensures WellFormed(u)
    decreases |rs|
  {
    if rs == [] then t else InsertAll(Insert(t, rs[0]), rs[1..])
  }

  /** The records with the ids the database assigns them, starting from `first`. */
  function Numbered(rs: seq<MeterRecord>, first: int): (r: seq<MeterRecord>)
    ensures |r| == |rs|
  {
    if rs == [] then [] else [rs[0].(id := first)] + Numbered(rs[1..], first + 1)
  }

  /**
   * Inserting fresh readings (id 0) appends them in order with consecutive
   * new ids; no existing row is touched.
   */
  lemma {:induction false} InsertAllFresh(t: TableState, rs: seq<MeterRecord>)
    requires WellFormed(t)
    requires forall x :: x in rs ==> x.id == 0
    ensures InsertAll(t, rs).rows == t.rows + Numbered(rs, t.nextId)
    ensures InsertAll(t, rs).nextId == t.nextId + |rs|
    decreases |rs|
  {
    if rs != [] {
      var first := rs[0].(id := t.nextId);
      var t' := Insert(t, rs[0]);
      assert rs[0].id == 0;
      assert t'.rows == t.rows + [first] && t'.nextId == t.nextId + 1;
      var rest := rs[1..];
      InsertAllFresh(t', rest);
      assert InsertAll(t, rs) == InsertAll(t', rest);
      var tail := Numbered(rest, t.nextId + 1);
      NumberedCons(rs, t.nextId);
      assert Numbered(rs, t.nextId) == [first] + tail;
      assert (t.rows + [first]) + tail == t.rows + ([first] + tail);
    }
  }

  lemma NumberedCons(rs: seq<MeterRecord>, first: int)
    requires rs != []
    ensures Numbered(rs, first) == [rs[0].(id := first)] + Numbered(rs[1..], first + 1)
  {}

  /**
   * Saving a reading for a room and month that already has one adds a second
   * row for that room and month: the conflict is only ever on the id.
   */
  lemma InsertNeverReplacesByRoomMonth(t: TableState, room: string, month: string, value: int)
    requires WellFormed(t)
    ensures var u := Insert(t, NewRecord(room, month, value));
      CountRoomMonth(u.rows, room, month) == CountRoomMonth(t.rows, room, month) + 1
      && u.rows[..|t.rows|] == t.rows
  {
    var r := NewRecord(room, month, value);
    CountAppend(t.rows, r.(id := t.nextId), room, month);
  }

  lemma {:induction false} CountAppend(rows: seq<MeterRecord>, x: MeterRecord, room: string, month: string)
    ensures CountRoomMonth(rows + [x], room, month)
         == CountRoomMonth(rows, room, month) + (if x.roomNumber == room && x.recordMonth == month then 1 else 0)
  {
    if rows != [] {
      assert (rows + [x])[1..] == rows[1..] + [x];
      CountAppend(rows[1..], x, room, month);
    }
  }

  /** The `ElectricMeterDao` over one `electric_meter_records` table. */
  class MeterTable {
    var rows: seq<MeterRecord>
    var nextId: int

    ghost predicate Valid()
      reads this
    {
      WellFormed(State())
    }

    function State(): (t: TableState)
      reads this
      ensures t.rows == rows && t.nextId == nextId
    {
      TableState(rows, nextId)
    }

    /** An empty table. */
    constructor ()
      ensures Valid() && rows == []
    {
      rows, nextId := [], 1;
    }

    /** `getAllRecords()` and `getAll()`: every row, in no promised order. */
    function AllRecords(): (r: seq<MeterRecord>)
      reads this
      ensures multiset(r) == multiset(rows)
    {
      rows
    }

    /** `insertOrUpdate(record)`. */
    method InsertOrUpdate(record: MeterRecord)
      requires Valid()
      modifies this
      ensures Valid()
      ensures State() == Insert(old(State()), record)
    {
      var u := Insert(State(), record);
      rows, nextId := u.rows, u.nextId;
    }

    /** `insertOrUpdateRecords(records)`: the same as inserting each record in order. */
    method InsertOrUpdateRecords(records: seq<MeterRecord>)
      requires Valid()
      modifies this
      ensures Valid()
      ensures State() == InsertAll(old(State()), records)
    {
      var i := 0;
      while i < |records|
        invariant 0 <= i <= |records|
        invariant Valid()
        invariant InsertAll(old(State()), records) == InsertAll(State(), records[i..])
      {
        assert records[i..][1..] == records[i + 1..];
        InsertOrUpdate(records[i]);
        i := i + 1;
      }
    }
  }
}
