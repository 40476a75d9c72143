/**
 * `ElectricityCalcScreen`: the older meter-entry screen. The month is a free
 * text field, every room gets an input, and the save button writes a
 * reading for each room whose input parses, then shows each room's usage
 * as the newest reading minus the one before, whatever their months.
 */
module ElectricityCalc {
  import opened Options
  import opened Text
  import opened Maps
  import opened Dates
  import opened MeterStore
  import opened RoomStore
  import ElectricityCalcVm
  import opened ElectricityQuery

  /** The inputs the reset effect installs: "" for every room of the list. */
  function BlankInputs(rooms: seq<RoomEntity>): (m: map<string, string>)
    ensures m.Keys == RoomNumbers(rooms)
    ensures forall room :: room in m ==> m[room] == ""
  {
    map room | room in RoomNumbers(rooms) :: ""
  }

  /** The reading a room's input gives: `meterMap[room]?.toIntOrNull()`. */
  function InputValue(meterMap: map<string, string>, room: string): Option<int> {
    if room in meterMap then ToIntOrNull(meterMap[room]) else None
  }

  /** The records the save loop writes, in room-list order: one per room whose input parses. */
  function Readings(rooms: seq<RoomEntity>, meterMap: map<string, string>, month: string): (r: seq<MeterRecord>)
    ensures |r| <= |rooms|
  {
    if rooms == [] then []
    else
      var rest := Readings(rooms[1..], meterMap, month);
      match InputValue(meterMap, rooms[0].roomNumber)
      case Some(v) => [NewRecord(rooms[0].roomNumber, month, v)] + rest
      case None => rest
  }

  /**
   * Each reading is a fresh row for the month text holding a parsed input,
   * and a room of the list gets one exactly when its input parses.
   */
  lemma {:induction false} ReadingsSound(rooms: seq<RoomEntity>, meterMap: map<string, string>, month: string)
    ensures forall x :: x in Readings(rooms, meterMap, month) ==>
      x.id == 0 && x.recordMonth == month && InputValue(meterMap, x.roomNumber) == Some(x.meterValue)
    ensures forall room :: room in RoomNumbers(rooms) && InputValue(meterMap, room).Some? <==>
      exists x :: x in Readings(rooms, meterMap, month) && x.roomNumber == room
  {
    if rooms != [] {
      ReadingsSound(rooms[1..], meterMap, month);
      assert rooms == [rooms[0]] + rooms[1..];
      assert RoomNumbers(rooms) == {rooms[0].roomNumber} + RoomNumbers(rooms[1..]);
      var room := rooms[0].roomNumber;
      if InputValue(meterMap, room).Some? {
        var x := NewRecord(room, month, InputValue(meterMap, room).value);
        assert Readings(rooms, meterMap, month) == [x] + Readings(rooms[1..], meterMap, month);
        assert x in Readings(rooms, meterMap, month);
      }
    }
  }

  /** The table after writing one room's reading: inserted when its input parses, unchanged otherwise. */
  function WriteOne(t: TableState, meterMap: map<string, string>, room: string, month: string): (u: TableState)
    requires WellFormed(t)
    ensures WellFormed(u)
  {
    match InputValue(meterMap, room)
    case Some(v) => Insert(t, NewRecord(room, month, v))
    case None => t
  }

  /** The table after writing the readings of the rooms from `i` on is the table after room `i`'s reading, then the rest. */
  lemma WriteStep(t: TableState, rooms: seq<RoomEntity>, meterMap: map<string, string>, month: string, i: nat)
    requires WellFormed(t) && i < |rooms|
    ensures InsertAll(t, Readings(rooms[i..], meterMap, month)) ==
      InsertAll(WriteOne(t, meterMap, rooms[i].roomNumber, month), Readings(rooms[i + 1..], meterMap, month))
  {
    assert rooms[i..][1..] == rooms[i + 1..];
  }

  /** Every room of the list has an input that parses: the save reports no error. */
  predicate AllParse(rooms: seq<RoomEntity>, meterMap: map<string, string>) {
    forall i :: 0 <= i < |rooms| ==> InputValue(meterMap, rooms[i].roomNumber).Some?
  }

  lemma AllParseStep(rooms: seq<RoomEntity>, meterMap: map<string, string>, i: nat)
    requires i < |rooms|
    ensures AllParse(rooms[..i + 1], meterMap) <==>
      AllParse(rooms[..i], meterMap) && InputValue(meterMap, rooms[i].roomNumber).Some?
  {
    assert rooms[..i + 1][i] == rooms[i];
    assert forall j :: 0 <= j < i ==> rooms[..i + 1][j] == rooms[..i][j];
  }

  /** The message after a save. */
  function SaveMessage(allParse: bool): string {
    if allParse then "度數已儲存" else "部分房間輸入無效，未儲存"
  }

  /**
   * A save writes a reading for every room whose input parses, after the
   * rows already there, even when other rooms' inputs do not parse.
   */
  lemma SaveWritesParsedRooms(t: TableState, rooms: seq<RoomEntity>, meterMap: map<string, string>, month: string, room: string)
    requires WellFormed(t)
    requires room in RoomNumbers(rooms) && InputValue(meterMap, room).Some?
    ensures var u := InsertAll(t, Readings(rooms, meterMap, month));
      |t.rows| <= |u.rows| && u.rows[..|t.rows|] == t.rows &&
      exists x :: x in u.rows[|t.rows|..] &&
        x.roomNumber == room && x.recordMonth == month && x.meterValue == InputValue(meterMap, room).value
  {
    var rs := Readings(rooms, meterMap, month);
    ReadingsSound(rooms, meterMap, month);
    var x :| x in rs && x.roomNumber == room;
    var i :| 0 <= i < |rs| && rs[i] == x;
    InsertAllFresh(t, rs);
    var u := InsertAll(t, rs);
    NumberedAt(rs, t.nextId, i);
    assert u.rows[|t.rows|..] == Numbered(rs, t.nextId);
    assert Numbered(rs, t.nextId)[i] in u.rows[|t.rows|..];
  }

  lemma {:induction false} NumberedAt(rs: seq<MeterRecord>, first: int, i: nat)
    requires i < |rs|
    ensures Numbered(rs, first)[i] == rs[i].(id := first + i)
    decreases i
  {
    NumberedCons(rs, first);
    if i > 0 {
      NumberedAt(rs[1..], first + 1, i - 1);
    }
  }

  /**
   * The screen's usage of a room: its newest reading minus the one before,
   * in 32-bit `Int`, when it has two; the month being entered plays no part.
   */
  function LatestUsage(rows: seq<MeterRecord>, room: string): Option<int> {
    var lastTwo := LastTwo(rows, room);
    if |lastTwo| == 2 then Some(Wrap32(lastTwo[0].meterValue - lastTwo[1].meterValue)) else None
  }

  /** A room has a usage exactly when it has two readings or more. */
  lemma LatestUsageDefined(rows: seq<MeterRecord>, room: string)
    ensures LatestUsage(rows, room).Some? <==> |RecordsOf(rows, room)| >= 2
  {
  }

  /**
   * `newest` and `next` are two different rows of the room: `newest` is no
   * older than any of its readings, `next` no newer than `newest`, and every
   * other reading of the room no newer than `next`.
   */
  predicate NewestAndNext(rows: seq<MeterRecord>, room: string, newest: MeterRecord, next: MeterRecord) {
    newest in rows && next in rows && newest.roomNumber == room && next.roomNumber == room &&
    multiset{newest, next} <= multiset(RecordsOf(rows, room)) &&
    (forall x :: x in rows && x.roomNumber == room ==> LessEq(x.recordMonth, newest.recordMonth)) &&
    LessEq(next.recordMonth, newest.recordMonth) &&
    (forall x :: x in multiset(RecordsOf(rows, room)) - multiset{newest, next} ==> LessEq(x.recordMonth, next.recordMonth))
  }

  /** The two readings are two different rows, so the room has at least two readings. */
  lemma NewestAndNextAreTwoRows(rows: seq<MeterRecord>, room: string, newest: MeterRecord, next: MeterRecord)
    requires NewestAndNext(rows, room, newest, next)
    ensures |RecordsOf(rows, room)| >= 2
  {
    PairInMultiset(newest, next, multiset(RecordsOf(rows, room)));
  }

  /** A multiset holding a pair of elements has at least two. */
  lemma PairInMultiset<T>(a: T, b: T, m: multiset<T>)
    requires multiset{a, b} <= m
    ensures |m| >= 2
  {
    assert m == multiset{a, b} + (m - multiset{a, b});
  }

  /** `u` is `newest`'s reading minus `next`'s, wrapped to an `Int`, for a newest reading and one below it. */
  predicate NewestMinusNext(rows: seq<MeterRecord>, room: string, u: int, newest: MeterRecord, next: MeterRecord) {
    NewestAndNext(rows, room, newest, next) && u == Wrap32(newest.meterValue - next.meterValue)
  }

  /** The usage is the room's newest reading minus the reading below it, wrapped to an `Int`. */
  lemma LatestUsageNewestMinusNext(rows: seq<MeterRecord>, room: string)
    requires LatestUsage(rows, room).Some?
    ensures exists newest, next :: NewestMinusNext(rows, room, LatestUsage(rows, room).value, newest, next)
  {
    var two := LastTwo(rows, room);
    assert |two| == 2;
    LatestUsageOfTwo(rows, room);
    LastTwoNewestAndNext(rows, room);
    assert NewestMinusNext(rows, room, LatestUsage(rows, room).value, two[0], two[1]);
  }

  lemma LatestUsageOfTwo(rows: seq<MeterRecord>, room: string)
    requires |LastTwo(rows, room)| == 2
    ensures LatestUsage(rows, room) == Some(Wrap32(LastTwo(rows, room)[0].meterValue - LastTwo(rows, room)[1].meterValue))
  {
  }

  /** The two latest readings of a room are its newest and the one below it. */
  lemma LastTwoNewestAndNext(rows: seq<MeterRecord>, room: string)
    requires |LastTwo(rows, room)| == 2
    ensures NewestAndNext(rows, room, LastTwo(rows, room)[0], LastTwo(rows, room)[1])
  {
    var two := LastTwo(rows, room);
    assert two[0] in two && two[1] in two;
    assert two == [two[0], two[1]];
    assert multiset(two) == multiset{two[0], two[1]};
  }

  function LatestUsages(rows: seq<MeterRecord>): string -> Option<int> {
    room => LatestUsage(rows, room)
  }

  /** One room more in the usage loop. */
  lemma UsageStep(rows: seq<MeterRecord>, rooms: set<string>, room: string)
    ensures LatestUsage(rows, room).Some? ==>
      Collect(rooms + {room}, LatestUsages(rows)) ==
        Collect(rooms, LatestUsages(rows))[room := LatestUsage(rows, room).value]
    ensures LatestUsage(rows, room).None? ==>
      Collect(rooms + {room}, LatestUsages(rows)) == Collect(rooms, LatestUsages(rows))
  {
    CollectAdd(rooms, room, LatestUsages(rows));
    assert LatestUsages(rows)(room) == LatestUsage(rows, room);
  }

  /**
   * When the newest reading is the month's own and the one before is of
   * another month, the screen agrees with the view model's usage.
   */
  lemma LatestUsageAgrees(rows: seq<MeterRecord>, room: string, month: string)
    requires |LastTwo(rows, room)| == 2
    requires LastTwo(rows, room)[0].recordMonth == month && LastTwo(rows, room)[1].recordMonth != month
    ensures LatestUsage(rows, room) == ElectricityCalcVm.Usage(rows, room, month)
  {
    var two := LastTwo(rows, room);
    assert FindMonth(two, month) == Some(two[0]);
    assert FindOtherMonth(two, month) == FindOtherMonth(two[1..], month);
    assert FindOtherMonth(two[1..], month) == Some(two[1]);
  }

  /**
   * Otherwise they can disagree: with readings for August and July and the
   * month "2024-07" entered, the screen shows August minus July while the
   * view model shows July minus August.
   */
  lemma LatestUsageIgnoresMonth()
    ensures LatestUsage([July(), August()], "401") == Some(30)
    ensures ElectricityCalcVm.Usage([July(), August()], "401", "2024-07") == Some(-30)
  {
    LastTwoOfExample();
    ExampleLatestUsage([July(), August()]);
    ExampleViewModelUsage(LastTwo([July(), August()], "401"));
  }

  lemma ExampleLatestUsage(rows: seq<MeterRecord>)
    requires LastTwo(rows, "401") == [August(), July()]
    ensures LatestUsage(rows, "401") == Some(30)
  {
    LatestUsageOfTwo(rows, "401");
    assert August().meterValue - July().meterValue == 30;
  }

  lemma ExampleViewModelUsage(two: seq<MeterRecord>)
    requires two == [August(), July()]
    ensures ElectricityCalcVm.UsageOf(two, "2024-07") == Some(-30)
  {
    assert "2024-08"[6] != "2024-07"[6];
    assert two[0].recordMonth != "2024-07" && two[1].recordMonth == "2024-07";
    assert July().meterValue - August().meterValue == -30;
  }

  /** The screen: its remembered state and the meter table it writes. */
  class CalcScreen {
    var roomList: seq<RoomEntity>
    var currentMonth: string
    var meterMap: map<string, string>
    var usedMap: map<string, int>
    var message: string
    const meterDao: MeterTable

    /** First composition: today's month, the initial empty room list, no inputs. */
    constructor (meterDao: MeterTable, today: Date)
      ensures this.meterDao == meterDao
      ensures currentMonth == MonthText(today) && roomList == []
      ensures meterMap == map[] && usedMap == map[] && message == ""
    {
      this.meterDao := meterDao;
      roomList := [];
      currentMonth := MonthText(today);
      meterMap := map[];
      usedMap := map[];
      message := "";
    }

    /** The `LaunchedEffect(currentMonth, roomList)` body. */
    method ResetInputs()
      modifies this
      ensures meterMap == BlankInputs(roomList) && usedMap == map[]
      ensures roomList == old(roomList) && currentMonth == old(currentMonth) && message == old(message)
    {
      meterMap := map room | room in RoomNumbers(roomList) :: "";
      usedMap := map[];
    }

    /** The room list flow emits: a different list restarts the effect. */
    method OnRoomListChanged(rooms: seq<RoomEntity>)
      modifies this
      ensures roomList == rooms && currentMonth == old(currentMonth) && message == old(message)
      ensures rooms != old(roomList) ==> meterMap == BlankInputs(rooms) && usedMap == map[]
      ensures rooms == old(roomList) ==> meterMap == old(meterMap) && usedMap == old(usedMap)
    {
      if rooms != roomList {
        roomList := rooms;
        ResetInputs();
      }
    }

    /** The month field is edited: the text is taken as it is, and a change restarts the effect. */
    method OnMonthTextChange(text: string)
      modifies this
      ensures currentMonth == text && roomList == old(roomList) && message == old(message)
      ensures text != old(currentMonth) ==> meterMap == BlankInputs(roomList) && usedMap == map[]
      ensures text == old(currentMonth) ==> meterMap == old(meterMap) && usedMap == old(usedMap)
    {
      if text != currentMonth {
        currentMonth := text;
        ResetInputs();
      }
    }

    /** A room's field is edited: only that room's entry changes. */
    method OnMeterEdit(room: string, value: string)
      modifies this
      ensures meterMap == old(meterMap)[room := value]
      ensures roomList == old(roomList) && currentMonth == old(currentMonth)
      ensures usedMap == old(usedMap) && message == old(message)
    {
      meterMap := meterMap[room := value];
    }

    /**
     * The save button: a reading for every room whose input parses, the
     * message, then each room's usage from its two newest readings.
     */
    method Save()
      requires meterDao.Valid()
      modifies this, meterDao
      ensures meterDao.Valid()
      ensures meterDao.State() == InsertAll(old(meterDao.State()), Readings(roomList, meterMap, currentMonth))
      ensures message == SaveMessage(AllParse(roomList, meterMap))
      ensures usedMap == Collect(RoomNumbers(roomList), LatestUsages(meterDao.rows))
      ensures roomList == old(roomList) && currentMonth == old(currentMonth) && meterMap == old(meterMap)
    {
      var hasError := WriteReadings();
      message := if hasError then "部分房間輸入無效，未儲存" else "度數已儲存";
      usedMap := UsageOfRooms();
    }

    /** The first loop of the save: writes the readings and reports whether some input failed. */
    method WriteReadings() returns (hasError: bool)
      requires meterDao.Valid()
      modifies meterDao
      ensures meterDao.Valid()
      ensures meterDao.State() == InsertAll(old(meterDao.State()), Readings(roomList, meterMap, currentMonth))
      ensures hasError <==> !AllParse(roomList, meterMap)
    {
      var rooms, inputs, month := roomList, meterMap, currentMonth;
      ghost var total := InsertAll(meterDao.State(), Readings(rooms, inputs, month));
      hasError := false;
      var i := 0;
      while i < |rooms|
        invariant 0 <= i <= |rooms|
        invariant meterDao.Valid()
        invariant total == InsertAll(meterDao.State(), Readings(rooms[i..], inputs, month))
        invariant hasError <==> !AllParse(rooms[..i], inputs)
      {
        var room := rooms[i].roomNumber;
        ghost var before := meterDao.State();
        WriteStep(before, rooms, inputs, month, i);
        AllParseStep(rooms, inputs, i);
        var v := InputValue(inputs, room); // the input parsed with toIntOrNull, or null when absent
        if v.Some? {
          meterDao.InsertOrUpdate(NewRecord(room, month, v.value));
        } else {
          hasError := true;
        }
        assert meterDao.State() == WriteOne(before, inputs, room, month);
        i := i + 1;
      }
      assert rooms[..i] == rooms;
      assert rooms[i..] == [];
    }

    /** The second loop of the save: each room's usage from its two newest readings. */
    method UsageOfRooms() returns (used: map<string, int>)
      ensures used == Collect(RoomNumbers(roomList), LatestUsages(meterDao.rows))
    {
      var rows, rooms := meterDao.rows, roomList;
      used := map[];
      var i := 0;
      while i < |rooms|
        invariant 0 <= i <= |rooms|
        invariant used == Collect(RoomNumbers(rooms[..i]), LatestUsages(rows))
      {
        var room := rooms[i].roomNumber;
        RoomNumbersAppend(rooms, i);
        UsageStep(rows, RoomNumbers(rooms[..i]), room);
        var u := LatestUsage(rows, room); // getLastTwoRecords, and the difference when there are two
        if u.Some? {
          used := used[room := u.value];
        }
        i := i + 1;
      }
      assert rooms[..i] == rooms;
    }
  }
}
