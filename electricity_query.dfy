/**
 * The electricity query screen: the month list, the room chips, the listing
 * of a month's readings and the fee calculation at a flat 5 per unit.
 */
module ElectricityQuery {
  import opened Options
  import opened Text
  import opened Maps
  import opened MeterStore

  // ------------------------------------------------------------ month list

  /** `s` is strictly descending: no repeats, newest first. */
  predicate StrictlyDescending(s: seq<string>) {
    forall i, j :: 0 <= i < j < |s| ==> Less(s[j], s[i])
  }

  /** Adds `m` to a strictly descending list unless it is already there. */
  function InsertDescending(s: seq<string>, m: string): (r: seq<string>)
    requires StrictlyDescending(s)
    ensures StrictlyDescending(r)
    ensures forall x :: x in r <==> x in s || x == m
  {
    if s == [] then [m]
    else if m == s[0] then s
    else if Less(s[0], m) then
      forall j | 0 <= j < |s| ensures Less(s[j], m) {
        if j > 0 { LessTransitive(s[j], s[0], m); }
      }
      [m] + s
    else
      LessEqTotal(s[0], m);
      var t := InsertDescending(s[1..], m);
      assert forall x :: x in t ==> Less(x, s[0]) by {
        forall x | x in t ensures Less(x, s[0]) {
          if x != m { var j :| 0 <= j < |s[1..]| && s[1..][j] == x; assert s[j + 1] == x; }
        }
      }
      [s[0]] + t
  }

  /** `allRecords.map { it.recordMonth }.distinct().sortedDescending()`. */
  function Months(records: seq<MeterRecord>): (r: seq<string>)
    ensures StrictlyDescending(r)
    ensures forall m :: m in r <==> exists x :: x in records && x.recordMonth == m
    decreases |records|
  {
    if records == [] then []
    else
      var front := records[..|records| - 1];
      var r := InsertDescending(Months(front), records[|records| - 1].recordMonth);
      assert forall x :: x in records <==> x in front || x == records[|records| - 1] by {
        assert records == front + [records[|records| - 1]];
      }
      r
  }

  /** The remembered month's initialiser: the newest month of the readings given, or "" when there is none. */
  function InitialMonth(records: seq<MeterRecord>): (m: string)
    ensures records == [] <==> m == "" && Months(records) == []
    ensures records != [] ==> exists x :: x in records && x.recordMonth == m
    ensures forall x :: x in records ==> LessEq(x.recordMonth, m)
  {
    var ms := Months(records);
    if records == [] then ""
    else
      assert records[0].recordMonth in ms;
      assert ms[0] in ms;
      forall x | x in records ensures LessEq(x.recordMonth, ms[0]) {
        assert x.recordMonth in ms;
        var i :| 0 <= i < |ms| && ms[i] == x.recordMonth;
        if i == 0 { LessEqReflexive(ms[0]); }
      }
      ms[0]
  }

  // ----------------------------------------------------------- room chips

  /** A chip click: the room joins the selection if absent and leaves it if present. */
  function Toggled(selected: set<string>, room: string): (r: set<string>)
    ensures room in r <==> room !in selected
    ensures r - {room} == selected - {room}
  {
    if room in selected then selected - {room} else selected + {room}
  }

  /** Clicking a chip twice restores the selection. */
  lemma ToggleTwice(selected: set<string>, room: string)
    ensures Toggled(Toggled(selected, room), room) == selected
  {
  }

  /** The calculate button's `enabled`: a non-blank month and at least one room. */
  predicate CanCalculate(month: string, selected: set<string>) {
    !IsBlank(month) && selected != {}
  }

  /**
   * The selections are remembered from the first composition, when both
   * lists are still the empty initial values: the month is "" and the button
   * is disabled whatever the selected rooms.
   */
  lemma NoRecordsNoCalculation(records: seq<MeterRecord>, selected: set<string>)
    requires records == []
    ensures !CanCalculate(InitialMonth(records), selected)
  {
  }

  /**
   * The button is enabled once a month from the menu is picked and a chip is
   * switched on, provided the recorded months are not blank.
   */
  lemma RecordsEnableCalculation(records: seq<MeterRecord>, month: string, selected: set<string>, room: string)
    requires month in Months(records) && room !in selected
    requires forall x :: x in records ==> !IsBlank(x.recordMonth)
    ensures CanCalculate(month, Toggled(selected, room))
  {
    var x :| x in records && x.recordMonth == month;
  }

  // ------------------------------------------------------ shown readings

  /** Order by room number, then month. */
  predicate KeyLessEq(a: MeterRecord, b: MeterRecord) {
    Less(a.roomNumber, b.roomNumber) || (a.roomNumber == b.roomNumber && LessEq(a.recordMonth, b.recordMonth))
  }

  lemma KeyTotal(a: MeterRecord, b: MeterRecord)
    ensures KeyLessEq(a, b) || KeyLessEq(b, a)
  {
    LessEqTotal(a.roomNumber, b.roomNumber);
    LessEqTotal(a.recordMonth, b.recordMonth);
  }

  predicate SortedByKey(s: seq<MeterRecord>) {
    forall i :: 0 <= i < |s| - 1 ==> KeyLessEq(s[i], s[i + 1])
  }

  /** Inserts `x` after every element not above it, as a stable sort does. */
  function InsertByKey(s: seq<MeterRecord>, x: MeterRecord): (r: seq<MeterRecord>)
    requires SortedByKey(s)
    ensures SortedByKey(r)
    ensures multiset(r) == multiset(s) + multiset{x}
    ensures r != [] && (r[0] == x || (s != [] && r[0] == s[0]))
  {
    if s == [] then [x]
    else if KeyLessEq(s[0], x) then
      var t := InsertByKey(s[1..], x);
      assert s == [s[0]] + s[1..];
      [s[0]] + t
    else
      KeyTotal(s[0], x);
      [x] + s
  }

  /** `sortedWith(compareBy({ it.roomNumber }, { it.recordMonth }))`. */
  function SortByKey(s: seq<MeterRecord>): (r: seq<MeterRecord>)
    ensures SortedByKey(r)
    ensures multiset(r) == multiset(s)
  {
    if s == [] then []
    else
      var r := InsertByKey(SortByKey(s[..|s| - 1]), s[|s| - 1]);
      assert s == s[..|s| - 1] + [s[|s| - 1]];
      r
  }

  /** The readings of the selected rooms in the selected month, in table order. */
  function Selected(records: seq<MeterRecord>, selected: set<string>, month: string): (r: seq<MeterRecord>)
    ensures forall x :: x in r <==> x in records && x.roomNumber in selected && x.recordMonth == month
  {
    if records == [] then []
    else
      var x := records[|records| - 1];
      var front := Selected(records[..|records| - 1], selected, month);
      assert records == records[..|records| - 1] + [x];
      if x.roomNumber in selected && x.recordMonth == month then front + [x] else front
  }

  /** `showRecords`: those readings sorted by room number, then month. */
  function ShowRecords(records: seq<MeterRecord>, selected: set<string>, month: string): (r: seq<MeterRecord>)
    ensures forall x :: x in r <==> x in records && x.roomNumber in selected && x.recordMonth == month
    ensures multiset(r) == multiset(Selected(records, selected, month))
    ensures SortedByKey(r)
  {
    var r := SortByKey(Selected(records, selected, month));
    assert forall x :: x in r <==> x in multiset(r);
    r
  }

  // ------------------------------------------------------------------ fees

  /**
   * The fee as the screen writes it: `usage` and `usage * 5` are 32-bit
   * `Int` arithmetic, so a large enough positive usage wraps to a negative fee.
   */
  function FeeAsWritten(current: int, previous: int): (f: int)
    requires IsInt32(current) && IsInt32(previous)
    ensures IsInt32(f)
  {
    var usage := Wrap32(current - previous);
    if usage > 0 then Wrap32(usage * 5) else 0
  }

  /** Readings 500000000 and 0 give a positive usage but a negative fee. */
  lemma FeeAsWrittenOverflows()
    ensures FeeAsWritten(500000000, 0) == -1794967296
    ensures Fee(500000000 - 0) == 2500000000
  {
  }

  /** Where the arithmetic stays within `Int`, the two fees agree. */
  lemma FeeAsWrittenAgrees(current: int, previous: int)
    requires IsInt32(current) && IsInt32(previous)
    requires IsInt32(current - previous) && IsInt32(5 * (current - previous))
    ensures FeeAsWritten(current, previous) == Fee(current - previous)
  {
  }

  /** The fee for a usage at the only tariff there is, 5 per unit: 0 unless the usage is positive. */
  function Fee(usage: int): (f: int)
    ensures f >= 0 && f % 5 == 0
    ensures f == 0 <==> usage <= 0
    ensures f >= usage
  {
    if usage > 0 then 5 * usage else 0
  }

  /** A larger usage never costs less. */
  lemma FeeMonotone(u: int, v: int)
    requires u <= v
    ensures Fee(u) <= Fee(v)
  {
  }

  /** The rooms with a reading in `month`. */
  function RoomsWithMonth(rows: seq<MeterRecord>, month: string): set<string> {
    set x | x in rows && x.recordMonth == month :: x.roomNumber
  }

  lemma RoomsWithMonthIff(rows: seq<MeterRecord>, month: string, room: string)
    ensures room in RoomsWithMonth(rows, month) <==> GetRecord(rows, room, month).Some?
  {
    if GetRecord(rows, room, month).Some? {
      assert GetRecord(rows, room, month).value in rows;
    }
  }

  /**
   * The "previous" reading: the first of the room's two latest readings whose
   * month is not `month`. Nothing makes it earlier than `month`.
   */
  function Previous(rows: seq<MeterRecord>, room: string, month: string): (r: Option<MeterRecord>)
  {
    FindOtherMonth(LastTwo(rows, room), month)
  }

  /** The fee between a current and a previous reading, when there are both. */
  function FeeBetween(current: Option<MeterRecord>, previous: Option<MeterRecord>): (f: Option<int>)
    ensures f.Some? <==> current.Some? && previous.Some?
    ensures f.Some? ==> f.value >= 0
  {
    if current.Some? && previous.Some? then Some(Fee(current.value.meterValue - previous.value.meterValue))
    else None
  }

  /** The fee of `room` for `month`, when it has a reading then and a previous one. */
  function RoomFee(rows: seq<MeterRecord>, room: string, month: string): Option<int> {
    FeeBetween(GetRecord(rows, room, month), Previous(rows, room, month))
  }

  /** `RoomFee` as a function of the room. */
  function RoomFees(rows: seq<MeterRecord>, month: string): string -> Option<int> {
    room => RoomFee(rows, room, month)
  }

  /** The fees of the rooms in `rooms`. */
  function FeesOf(rows: seq<MeterRecord>, rooms: set<string>, month: string): (fees: map<string, int>)
  {
    Collect(rooms, RoomFees(rows, month))
  }

  /**
   * The "previous" reading can be a later month than the selected one: with
   * readings for July and August, the July query takes August as previous.
   */
  lemma PreviousCanBeLater()
    ensures Previous([July(), August()], "401", "2024-07") == Some(August())
  {
    LastTwoOfExample();
  }

  lemma LastTwoOfExample()
    ensures LastTwo([July(), August()], "401") == [August(), July()]
  {
    AugustAfterJuly();
    RecordsOfExample();
    var two := LastTwo([July(), August()], "401");
    assert |two| == 2;
    assert two[0] in [July(), August()];
    assert multiset(two) == multiset([July(), August()]);
    assert two[1] in multiset(two);
  }

  lemma AugustAfterJuly()
    ensures !LessEq(August().recordMonth, July().recordMonth)
  {
    assert August().recordMonth[..5] == July().recordMonth[..5];
  }

  lemma RecordsOfExample()
    ensures RecordsOf([July(), August()], "401") == [July(), August()]
  {
    assert [July(), August()][1..] == [August()];
  }

  /** ... and the negative usage that results is billed 0. */
  lemma LaterPreviousBilledZero(rows: seq<MeterRecord>)
    requires rows == [July(), August()]
    ensures QueryFees(rows, "2024-07") == map["401" := 0]
  {
    JulyFeeOfExample();
    RoomsOfExample();
    assert RoomFees(rows, "2024-07")("401") == Some(0);
    CollectOne("401", RoomFees(rows, "2024-07"));
  }

  lemma JulyFeeOfExample()
    ensures RoomFee([July(), August()], "401", "2024-07") == Some(0)
  {
    var rows := [July(), August()];
    PreviousCanBeLater();
    assert GetRecord(rows, "401", "2024-07") == Some(July());
    assert FeeBetween(Some(July()), Some(August())) == Some(Fee(150 - 180));
  }

  lemma RoomsOfExample()
    ensures RoomsWithMonth([July(), August()], "2024-07") == {"401"}
  {
    assert "2024-08" != "2024-07";
  }

  function July(): MeterRecord { MeterRecord(1, "401", "2024-07", 150) }
  function August(): MeterRecord { MeterRecord(2, "401", "2024-08", 180) }

  /** What `calculateFees` leaves in `calculatedFees` for `month`. */
  function QueryFees(rows: seq<MeterRecord>, month: string): (fees: map<string, int>)
    ensures forall room :: room in fees <==>
      GetRecord(rows, room, month).Some? && exists x :: x in LastTwo(rows, room) && x.recordMonth != month
    ensures forall room :: room in fees ==> fees[room] >= 0
  {
    var fees := FeesOf(rows, RoomsWithMonth(rows, month), month);
    forall room ensures room in fees <==> RoomFee(rows, room, month).Some? {
      RoomsWithMonthIff(rows, month, room);
    }
    fees
  }

  /** Extending the scanned prefix by one row adds that row's room, if it is of `month`. */
  lemma RoomsWithMonthAppend(prefix: seq<MeterRecord>, x: MeterRecord, month: string)
    ensures RoomsWithMonth(prefix + [x], month)
      == RoomsWithMonth(prefix, month) + (if x.recordMonth == month then {x.roomNumber} else {})
  {
    assert forall y :: y in prefix + [x] <==> y in prefix || y == x;
  }

  /** The first reading of `rows[i]`'s room and month is `rows[i]` when no earlier row has both. */
  lemma {:induction false} FirstOfRoomMonth(rows: seq<MeterRecord>, i: nat)
    requires i < |rows|
    requires rows[i].roomNumber !in RoomsWithMonth(rows[..i], rows[i].recordMonth)
    ensures GetRecord(rows, rows[i].roomNumber, rows[i].recordMonth) == Some(rows[i])
  {
    if i > 0 {
      var room, month := rows[i].roomNumber, rows[i].recordMonth;
      assert rows[0] in rows[..i];
      assert rows[1..][..i - 1] == rows[1..i];
      assert forall x :: x in rows[1..i] ==> x in rows[..i];
      FirstOfRoomMonth(rows[1..], i - 1);
    }
  }

  /**
   * One step of `calculateFees`: the first reading of a room in `month`
   * settles that room's entry, with that reading as the current one.
   */
  lemma FeeStep(rows: seq<MeterRecord>, i: nat, month: string, seen: set<string>)
    requires i < |rows| && seen == RoomsWithMonth(rows[..i], month)
    ensures var x := rows[i];
      x.recordMonth == month && x.roomNumber !in seen ==>
        && RoomsWithMonth(rows[..i + 1], month) == seen + {x.roomNumber}
        && (Previous(rows, x.roomNumber, month).Some? ==>
              FeesOf(rows, seen + {x.roomNumber}, month)
              == FeesOf(rows, seen, month)[x.roomNumber := Fee(x.meterValue - Previous(rows, x.roomNumber, month).value.meterValue)])
        && (Previous(rows, x.roomNumber, month).None? ==>
              FeesOf(rows, seen + {x.roomNumber}, month) == FeesOf(rows, seen, month))
    ensures var x := rows[i];
      !(x.recordMonth == month && x.roomNumber !in seen) ==> RoomsWithMonth(rows[..i + 1], month) == seen
  {
    var x := rows[i];
    assert rows[..i + 1] == rows[..i] + [x];
    RoomsWithMonthAppend(rows[..i], x, month);
    if x.recordMonth == month && x.roomNumber !in seen {
      FirstOfRoomMonth(rows, i);
      var previous := Previous(rows, x.roomNumber, month);
      assert RoomFees(rows, month)(x.roomNumber) == FeeBetween(Some(x), previous);
      if previous.Some? {
        assert FeeBetween(Some(x), previous) == Some(Fee(x.meterValue - previous.value.meterValue));
      }
      CollectAdd(seen, x.roomNumber, RoomFees(rows, month));
    }
  }

  /** The query screen's state: chips, the selected month and the last computed fees. */
  class QueryScreen {
    var selectedRooms: set<string>
    var selectedMonth: string
    var calculatedFees: map<string, int>

    /**
     * The screen as first composed. Rooms and readings are collected from
     * empty initial lists, and the remembered selections are computed once
     * from those: no room selected, month "", so the button starts disabled.
     */
    constructor ()
      ensures selectedRooms == {} && selectedMonth == "" && calculatedFees == map[]
      ensures !CanCalculate(selectedMonth, selectedRooms)
    {
      var roomNumbers: seq<string> := [];
      selectedRooms := set r | r in roomNumbers;
      selectedMonth := InitialMonth([]);
      calculatedFees := map[];
    }

    /** A month picked from the drop-down. */
    method SelectMonth(month: string)
      modifies this
      ensures selectedMonth == month
      ensures selectedRooms == old(selectedRooms) && calculatedFees == old(calculatedFees)
    {
      selectedMonth := month;
    }

    /** A room chip clicked. */
    method ToggleRoom(room: string)
      modifies this
      ensures selectedRooms == Toggled(old(selectedRooms), room)
      ensures selectedMonth == old(selectedMonth) && calculatedFees == old(calculatedFees)
    {
      selectedRooms := Toggled(selectedRooms, room);
    }

    /**
     * `calculateFees`: one pass over the table, grouping the selected month's
     * readings by room; the chips play no part.
     */
    method CalculateFees(table: MeterTable)
      modifies this
      ensures calculatedFees == QueryFees(table.rows, selectedMonth)
      ensures selectedRooms == old(selectedRooms) && selectedMonth == old(selectedMonth)
    {
      var rows := table.rows;
      var month := selectedMonth;
      var fees: map<string, int> := map[];
      var seen: set<string> := {};
      var i := 0;
      while i < |rows|
        invariant 0 <= i <= |rows|
        invariant seen == RoomsWithMonth(rows[..i], month)
        invariant fees == FeesOf(rows, seen, month)
        invariant unchanged(this) && rows == table.rows
      {
        var x := rows[i];
        FeeStep(rows, i, month, seen);
        if x.recordMonth == month && x.roomNumber !in seen {
          var previous := Previous(rows, x.roomNumber, month);
          if previous.Some? {
            fees := fees[x.roomNumber := Fee(x.meterValue - previous.value.meterValue)];
          }
          seen := seen + {x.roomNumber};
        }
        i := i + 1;
      }
      assert rows[..i] == rows;
      calculatedFees := fees;
    }
  }
}
