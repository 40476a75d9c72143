/**
 * `ElectricityCalcViewModel`: the meter-entry screen's state machine. The
 * `UiState` record is replaced as a whole by every event; loading a month
 * reads the meter table, saving writes to it.
 */
module ElectricityCalcVm {
  import opened Options
  import opened Text
  import opened Maps
  import opened Dates
  import opened MeterStore
  import opened RoomStore

  datatype MessageType = Success | Error | Info

  /** The screen's state; fees are whole numbers here (5 per unit of usage). */
  datatype UiState = UiState(
    currentMonth: string,
    showMonthPicker: bool,
    roomList: seq<RoomEntity>,
    meterMap: map<string, string>,
    lockedRoomMap: map<string, bool>,
    usedMap: map<string, int>,
    feeMap: map<string, int>,
    canSave: bool,
    message: string,
    messageType: MessageType)

  /** `UiState()`: the current month is today's, everything else empty. */
  function InitialState(today: Date): (s: UiState)
    ensures s.currentMonth == MonthText(today) && !s.canSave && !s.showMonthPicker
    ensures s.meterMap == map[] && s.lockedRoomMap == map[] && s.roomList == []
  {
    UiState(MonthText(today), false, [], map[], map[], map[], map[], false, "", Info)
  }

  // ------------------------------------------------------------- loading

  /** A room's input after loading: its reading for the month as text, or "". */
  function LoadedText(rows: seq<MeterRecord>, room: string, month: string): (t: string)
    ensures GetRecord(rows, room, month).None? <==> t == ""
    ensures GetRecord(rows, room, month).Some? && IsInt32(GetRecord(rows, room, month).value.meterValue) ==>
      ToIntOrNull(t) == Some(GetRecord(rows, room, month).value.meterValue)
  {
    match GetRecord(rows, room, month)
    case None => ""
    case Some(x) =>
      PrintedReadsBack(x.meterValue);
      IntToString(x.meterValue)
  }

  lemma PrintedReadsBack(x: int)
    ensures IsInt32(x) ==> ToIntOrNull(IntToString(x)) == Some(x)
  {
    if IsInt32(x) { IntToStringRoundTrip(x); }
  }

  /**
   * The usage from a room's two latest readings `two`: only when they hold
   * `month` and another month, that month's value minus the other's, unclamped
   * and wrapped to a 32-bit `Int` as the subtraction in the source is.
   */
  function UsageOf(two: seq<MeterRecord>, month: string): (u: Option<int>)
    ensures u.Some? <==>
      |two| >= 2 && (exists x :: x in two && x.recordMonth == month) && (exists x :: x in two && x.recordMonth != month)
    ensures |two| == 2 && two[0].recordMonth == month && two[1].recordMonth != month ==>
      u == Some(Wrap32(two[0].meterValue - two[1].meterValue))
    ensures |two| == 2 && two[0].recordMonth != month && two[1].recordMonth == month ==>
      u == Some(Wrap32(two[1].meterValue - two[0].meterValue))
    ensures u.Some? ==> IsInt32(u.value)
  {
    if |two| >= 2 then
      var current := FindMonth(two, month);
      var previous := FindOtherMonth(two, month);
      if current.Some? && previous.Some? then Some(Wrap32(current.value.meterValue - previous.value.meterValue))
      else None
    else None
  }

  /** The usage of `room` for `month`, from its two latest readings. */
  function Usage(rows: seq<MeterRecord>, room: string, month: string): Option<int> {
    UsageOf(LastTwo(rows, room), month)
  }

  function Usages(rows: seq<MeterRecord>, month: string): string -> Option<int> {
    room => Usage(rows, room, month)
  }

  /** The fee of a room: 5 per unit of its usage, unclamped. */
  function FeeOf(usage: Option<int>): (f: Option<int>)
    ensures f.Some? <==> usage.Some?
    ensures f.Some? ==> f.value == 5 * usage.value
  {
    match usage
    case None => None
    case Some(u) => Some(u * 5)
  }

  function UsageFee(rows: seq<MeterRecord>, room: string, month: string): Option<int> {
    FeeOf(Usage(rows, room, month))
  }

  function UsageFees(rows: seq<MeterRecord>, month: string): string -> Option<int> {
    room => UsageFee(rows, room, month)
  }

  /** One room more in the loading loop: its usage and fee join the maps when it has both months. */
  lemma LoadStep(rows: seq<MeterRecord>, month: string, rooms: set<string>, room: string)
    ensures Usage(rows, room, month).Some? ==>
      Collect(rooms + {room}, Usages(rows, month)) ==
        Collect(rooms, Usages(rows, month))[room := Usage(rows, room, month).value] &&
      Collect(rooms + {room}, UsageFees(rows, month)) ==
        Collect(rooms, UsageFees(rows, month))[room := Usage(rows, room, month).value * 5]
    ensures Usage(rows, room, month).None? ==>
      Collect(rooms + {room}, Usages(rows, month)) == Collect(rooms, Usages(rows, month)) &&
      Collect(rooms + {room}, UsageFees(rows, month)) == Collect(rooms, UsageFees(rows, month))
  {
    CollectAdd(rooms, room, Usages(rows, month));
    CollectAdd(rooms, room, UsageFees(rows, month));
    assert Usages(rows, month)(room) == Usage(rows, room, month);
    assert UsageFees(rows, month)(room) == FeeOf(Usage(rows, room, month));
  }

  /** One room more in the saving loop. */
  lemma ToSaveStep(s: UiState, rooms: seq<RoomEntity>, i: nat)
    requires i < |rooms|
    ensures var room := rooms[i].roomNumber;
      ToSave(s, rooms[..i + 1]) ==
        ToSave(s, rooms[..i]) +
        (if Savable(s, room) then [NewRecord(room, s.currentMonth, ToIntOrNull(s.meterMap[room]).value)] else [])
  {
    assert rooms[..i + 1][..i] == rooms[..i];
  }

  /** A room counts as locked when its map entry is `true`. */
  predicate IsLocked(locked: map<string, bool>, room: string) {
    room in locked && locked[room]
  }

  /** The inputs after loading: each room's reading for the month as text, or "". */
  function LoadedTexts(rows: seq<MeterRecord>, rooms: set<string>, month: string): (m: map<string, string>)
    ensures m.Keys == rooms
  {
    map room | room in rooms :: LoadedText(rows, room, month)
  }

  /** The locks after loading: a room is locked when the month has a reading for it. */
  function LoadedLocks(rows: seq<MeterRecord>, rooms: set<string>, month: string): (m: map<string, bool>)
    ensures m.Keys == rooms
  {
    map room | room in rooms :: GetRecord(rows, room, month).Some?
  }

  /** `rooms.any { !isLocked && meterMap[it]?.toIntOrNull() != null }`. */
  predicate AnyUnlockedParses(rooms: set<string>, meterMap: map<string, string>, locked: map<string, bool>) {
    exists room :: room in rooms && room in meterMap && !IsLocked(locked, room) && ToIntOrNull(meterMap[room]).Some?
  }

  /** The state `loadInitialDataForCurrentMonth(month)` leaves, over the table's rows. */
  function Loaded(s: UiState, rows: seq<MeterRecord>, month: string): (r: UiState)
    ensures r.currentMonth == month && r.roomList == s.roomList && r.showMonthPicker == s.showMonthPicker
    ensures r.message == "" && r.messageType == Info
    ensures r.meterMap.Keys == RoomNumbers(s.roomList) && r.lockedRoomMap.Keys == RoomNumbers(s.roomList)
  {
    var rooms := RoomNumbers(s.roomList);
    var meterMap := LoadedTexts(rows, rooms, month);
    var locked := LoadedLocks(rows, rooms, month);
    s.(currentMonth := month, meterMap := meterMap, lockedRoomMap := locked,
       usedMap := Collect(rooms, Usages(rows, month)), feeMap := Collect(rooms, UsageFees(rows, month)),
       canSave := AnyUnlockedParses(rooms, meterMap, locked), message := "", messageType := Info)
  }

  /**
   * After loading, a room is locked exactly when the month has a reading for
   * it, its input shows that reading or is empty, and nothing can be saved:
   * every room with an input is locked.
   */
  lemma LoadedLocksReadings(s: UiState, rows: seq<MeterRecord>, month: string, room: string)
    requires room in RoomNumbers(s.roomList)
    ensures var r := Loaded(s, rows, month);
      && (r.lockedRoomMap[room] <==> GetRecord(rows, room, month).Some?)
      && (r.meterMap[room] == "" <==> !r.lockedRoomMap[room])
    ensures !Loaded(s, rows, month).canSave
  {
    var rooms := RoomNumbers(s.roomList);
    var texts, locks := LoadedTexts(rows, rooms, month), LoadedLocks(rows, rooms, month);
    forall q | q in rooms && !IsLocked(locks, q)
      ensures ToIntOrNull(texts[q]).None?
    {
      assert texts[q] == LoadedText(rows, q, month) == "";
    }
  }

  /** The fees after loading are five times the usages, room by room. */
  lemma LoadedFeesAreFiveTimesUsage(s: UiState, rows: seq<MeterRecord>, month: string)
    ensures var r := Loaded(s, rows, month);
      r.feeMap.Keys == r.usedMap.Keys && forall room :: room in r.feeMap ==> r.feeMap[room] == 5 * r.usedMap[room]
  {
    var rooms := RoomNumbers(s.roomList);
    var fees, used := Collect(rooms, UsageFees(rows, month)), Collect(rooms, Usages(rows, month));
    forall room ensures (room in fees <==> room in used) && (room in fees ==> fees[room] == 5 * used[room]) {
      assert UsageFees(rows, month)(room) == FeeOf(Usage(rows, room, month));
      assert Usages(rows, month)(room) == Usage(rows, room, month);
    }
  }

  // ---------------------------------------------------------- month change

  /** `_updateMonthAndResetState(newMonth)`. */
  function WithMonth(s: UiState, newMonth: string): (r: UiState)
    ensures !r.showMonthPicker && r.currentMonth == newMonth && r.roomList == s.roomList
    ensures newMonth != s.currentMonth ==>
      r.meterMap == map[] && r.lockedRoomMap == map[] && r.usedMap == map[] && r.feeMap == map[]
      && !r.canSave && r.message == "" && r.messageType == Info
    ensures newMonth == s.currentMonth ==> r == s.(showMonthPicker := false)
  {
    if newMonth != s.currentMonth then
      s.(currentMonth := newMonth, showMonthPicker := false, meterMap := map[], lockedRoomMap := map[],
         usedMap := map[], feeMap := map[], canSave := false, message := "", messageType := Info)
    else s.(showMonthPicker := false)
  }

  /** `String.format("%04d-%02d", year, month + 1)`, `month` counted from 0 as `Calendar.MONTH` is. */
  function SelectedMonthText(year: int, month: int): (t: string)
    ensures 0 <= year && 0 <= month < 12 ==> t == FormatYearMonth(MonthIndex(year, month + 1))
    ensures 0 <= year && 0 <= month < 12 ==> ParseYearMonth(t) == Some(MonthIndex(year, month + 1))
  {
    SelectedMonthReadsBack(year, month);
    FormatZeroPadded(year, 4) + "-" + FormatZeroPadded(month + 1, 2)
  }

  lemma SelectedMonthReadsBack(year: int, month: int)
    ensures 0 <= year && 0 <= month < 12 ==>
      FormatZeroPadded(year, 4) + "-" + FormatZeroPadded(month + 1, 2) == FormatYearMonth(MonthIndex(year, month + 1))
      && ParseYearMonth(FormatYearMonth(MonthIndex(year, month + 1))) == Some(MonthIndex(year, month + 1))
  {
    if 0 <= year && 0 <= month < 12 {
      var k := MonthIndex(year, month + 1);
      MonthIndexDivMod(year, month + 1);
      assert FormatYearMonth(k) == FormatZeroPadded(year, 4) + "-" + FormatZeroPadded(month + 1, 2);
      YearMonthRoundTrip(k);
    }
  }

  /** The day the calendar starts from: the 1st of the parsed month, or today when the text does not parse. */
  function MonthStart(text: string, today: Date): (d: Date)
    requires ValidDate(today)
    ensures ValidDate(d)
    ensures ParseYearMonth(text).Some? ==> MonthIndex(d.year, d.month) == ParseYearMonth(text).value && d.day == 1
    ensures ParseYearMonth(text).None? ==> d == today
  {
    match ParseYearMonth(text)
    case Some(k) => Date(k / 12, k % 12 + 1, 1)
    case None => today
  }

  /** Stepping from a month text that parses lands on the month `delta` away from it. */
  lemma StepFromParsedMonth(text: string, k: int, delta: int, today: Date)
    requires ParseYearMonth(text) == Some(k) && ValidDate(today)
    ensures MonthText(AddMonths(MonthStart(text, today), delta)) == FormatYearMonth(k + delta)
  {
    StepFromMonth(MonthStart(text, today), k, delta);
  }

  /** Stepping from a day of month `k` lands in month `k + delta`. */
  lemma StepFromMonth(d: Date, k: int, delta: int)
    requires ValidDate(d) && MonthIndex(d.year, d.month) == k
    ensures MonthText(AddMonths(d, delta)) == FormatYearMonth(k + delta)
  {
    var r := AddMonths(d, delta);
    assert MonthIndex(r.year, r.month) == k + delta;
  }

  /** Stepping from a month printed as "yyyy-MM" lands on the month `delta` away. */
  lemma StepFromPrintedMonth(k: int, delta: int, today: Date)
    requires k >= 0 && ValidDate(today)
    ensures MonthText(AddMonths(MonthStart(FormatYearMonth(k), today), delta)) == FormatYearMonth(k + delta)
  {
    YearMonthRoundTrip(k);
    StepFromParsedMonth(FormatYearMonth(k), k, delta, today);
  }

  // ----------------------------------------------------------- inputs

  /** `map.any { (_, v) -> v.toIntOrNull() != null && v.isNotBlank() }`. */
  predicate AnyParses(m: map<string, string>) {
    exists room :: room in m && ToIntOrNull(m[room]).Some? && !IsBlank(m[room])
  }

  /** The `isNotBlank` test adds nothing: text that parses is never blank. */
  lemma AnyParsesIff(m: map<string, string>)
    ensures AnyParses(m) <==> exists room :: room in m && ToIntOrNull(m[room]).Some?
  {
  }

  /** `onMeterValueChange(room, value)`. */
  function WithInput(s: UiState, room: string, value: string): (r: UiState)
    ensures r.meterMap == s.meterMap[room := value]
    ensures r.canSave <==> exists q :: q in r.meterMap && ToIntOrNull(r.meterMap[q]).Some?
    ensures r.(meterMap := s.meterMap, canSave := s.canSave) == s
  {
    var m := s.meterMap[room := value];
    AnyParsesIff(m);
    s.(meterMap := m, canSave := AnyParses(m))
  }

  /** `onLockToggle(room)`: flips the lock; a room being unlocked loses its input. */
  function WithLockToggled(s: UiState, room: string): (r: UiState)
    ensures IsLocked(r.lockedRoomMap, room) <==> !IsLocked(s.lockedRoomMap, room)
    ensures forall q :: q != room ==>
      (q in r.lockedRoomMap <==> q in s.lockedRoomMap) && (q in r.lockedRoomMap ==> r.lockedRoomMap[q] == s.lockedRoomMap[q])
    ensures IsLocked(s.lockedRoomMap, room) ==> r.meterMap == s.meterMap[room := ""]
    ensures !IsLocked(s.lockedRoomMap, room) ==> r.meterMap == s.meterMap
    ensures r.canSave <==> exists q :: q in r.meterMap && ToIntOrNull(r.meterMap[q]).Some?
    ensures r.(meterMap := s.meterMap, lockedRoomMap := s.lockedRoomMap, canSave := s.canSave) == s
  {
    var wasLocked := IsLocked(s.lockedRoomMap, room);
    var locked := s.lockedRoomMap[room := !wasLocked];
    var m := if wasLocked then s.meterMap[room := ""] else s.meterMap;
    AnyParsesIff(m);
    s.(lockedRoomMap := locked, meterMap := m, canSave := AnyParses(m))
  }

  /** Toggling a lock twice restores the locks. */
  lemma LockToggleTwice(s: UiState, room: string)
    ensures IsLocked(WithLockToggled(WithLockToggled(s, room), room).lockedRoomMap, room) == IsLocked(s.lockedRoomMap, room)
  {
  }

  // --------------------------------------------------------------- saving

  /** The room's input would be saved: it is not locked and its input parses. */
  predicate Savable(s: UiState, room: string) {
    !IsLocked(s.lockedRoomMap, room) && room in s.meterMap
    && ToIntOrNull(s.meterMap[room]).Some? && !IsBlank(s.meterMap[room])
  }

  /** The records `saveAndCalculate` builds from the rooms `rooms`, in room-list order. */
  function ToSave(s: UiState, rooms: seq<RoomEntity>): (r: seq<MeterRecord>)
    ensures |r| <= |rooms|
  {
    if rooms == [] then []
    else
      var front := ToSave(s, rooms[..|rooms| - 1]);
      var room := rooms[|rooms| - 1].roomNumber;
      if Savable(s, room) then front + [NewRecord(room, s.currentMonth, ToIntOrNull(s.meterMap[room]).value)]
      else front
  }

  /**
   * Every record to save is a fresh row for the current month holding the
   * parsed input of a savable room, and a room of the list gets one exactly
   * when it is savable.
   */
  lemma {:induction false} ToSaveSound(s: UiState, rooms: seq<RoomEntity>)
    ensures forall x :: x in ToSave(s, rooms) ==>
      x.id == 0 && x.recordMonth == s.currentMonth && Savable(s, x.roomNumber) &&
      x.meterValue == ToIntOrNull(s.meterMap[x.roomNumber]).value
    ensures forall room :: room in RoomNumbers(rooms) && Savable(s, room) <==>
      exists x :: x in ToSave(s, rooms) && x.roomNumber == room
  {
    if rooms != [] {
      var init := rooms[..|rooms| - 1];
      var room := rooms[|rooms| - 1];
      ToSaveSound(s, init);
      assert rooms == init + [room];
      assert RoomNumbers(rooms) == RoomNumbers(init) + {room.roomNumber};
      if Savable(s, room.roomNumber) {
        var x := NewRecord(room.roomNumber, s.currentMonth, ToIntOrNull(s.meterMap[room.roomNumber]).value);
        assert ToSave(s, rooms) == ToSave(s, init) + [x];
        assert x in ToSave(s, rooms);
      }
    }
  }

  /** The view model: its state and the meter table it reads and writes. */
  class ElectricityCalcViewModel {
    var uiState: UiState
    const meterDao: MeterTable

    /** A fresh view model on `today`'s month. */
    constructor (meterDao: MeterTable, today: Date)
      ensures uiState == InitialState(today) && this.meterDao == meterDao
    {
      this.meterDao := meterDao;
      uiState := InitialState(today);
    }

    /** `loadInitialDataForCurrentMonth(month)`. */
    method LoadInitialDataForCurrentMonth(month: string)
      modifies this
      ensures uiState == Loaded(old(uiState), meterDao.rows, month)
    {
      var rows := meterDao.rows;
      var rooms := uiState.roomList;
      var numbers := RoomNumbers(rooms);
      var meterMap := LoadedTexts(rows, numbers, month);
      var locked := LoadedLocks(rows, numbers, month);
      var used: map<string, int> := map[];
      var fees: map<string, int> := map[];
      var i := 0;
      while i < |rooms|
        invariant 0 <= i <= |rooms|
        invariant used == Collect(RoomNumbers(rooms[..i]), Usages(rows, month))
        invariant fees == Collect(RoomNumbers(rooms[..i]), UsageFees(rows, month))
        invariant unchanged(this)
      {
        var room := rooms[i].roomNumber;
        RoomNumbersAppend(rooms, i);
        LoadStep(rows, month, RoomNumbers(rooms[..i]), room);
        var lastTwo := LastTwo(rows, room);
        var usedVal := UsageOf(lastTwo, month);
        if usedVal.Some? {
          used := used[room := usedVal.value];
          fees := fees[room := usedVal.value * 5];
        }
        i := i + 1;
      }
      assert rooms[..i] == rooms;
      var canSave := exists room :: room in numbers && room in meterMap && !IsLocked(locked, room) && ToIntOrNull(meterMap[room]).Some?;
      assert canSave == AnyUnlockedParses(numbers, meterMap, locked);
      uiState := uiState.(currentMonth := month, meterMap := meterMap, lockedRoomMap := locked,
        usedMap := used, feeMap := fees, canSave := canSave, message := "", messageType := Info);
    }

    /** The room list arrives (the `getAllRooms()` collector): store it and reload the month. */
    method OnRoomListChanged(rooms: seq<RoomEntity>)
      modifies this
      ensures uiState == Loaded(old(uiState).(roomList := rooms), meterDao.rows, old(uiState).currentMonth)
    {
      uiState := uiState.(roomList := rooms);
      LoadInitialDataForCurrentMonth(uiState.currentMonth);
    }

    /** `_updateMonthAndResetState(newMonth)`. */
    method UpdateMonthAndResetState(newMonth: string)
      modifies this
      ensures uiState == WithMonth(old(uiState), newMonth)
    {
      if newMonth != uiState.currentMonth {
        uiState := uiState.(currentMonth := newMonth, showMonthPicker := false, meterMap := map[],
          lockedRoomMap := map[], usedMap := map[], feeMap := map[], canSave := false,
          message := "", messageType := Info);
      } else {
        uiState := uiState.(showMonthPicker := false);
      }
    }

    method OnShowMonthPicker()
      modifies this
      ensures uiState == old(uiState).(showMonthPicker := true)
    {
      uiState := uiState.(showMonthPicker := true);
    }

    method OnDismissMonthPicker()
      modifies this
      ensures uiState == old(uiState).(showMonthPicker := false)
    {
      uiState := uiState.(showMonthPicker := false);
    }

    /** `onMonthSelected(year, month)`, `month` counted from 0. */
    method OnMonthSelected(year: int, month: int)
      modifies this
      ensures uiState == WithMonth(old(uiState), SelectedMonthText(year, month))
    {
      var selected := FormatZeroPadded(year, 4) + "-" + FormatZeroPadded(month + 1, 2);
      UpdateMonthAndResetState(selected);
    }

    /** `onPreviousMonth()` (`delta` -1) and `onNextMonth()` (`delta` 1), starting from `today` when the month text does not parse. */
    method StepMonth(delta: int, today: Date)
      requires ValidDate(today)
      modifies this
      ensures uiState == WithMonth(old(uiState), MonthText(AddMonths(MonthStart(old(uiState).currentMonth, today), delta)))
    {
      var cal := new Calendar(MonthStart(uiState.currentMonth, today));
      cal.Add(Month, delta);
      var newMonth := FormatYearMonth(MonthIndex(cal.year, cal.month));
      UpdateMonthAndResetState(newMonth);
    }

    method OnPreviousMonth(today: Date)
      requires ValidDate(today)
      modifies this
      ensures uiState == WithMonth(old(uiState), MonthText(AddMonths(MonthStart(old(uiState).currentMonth, today), -1)))
    {
      StepMonth(-1, today);
    }

    method OnNextMonth(today: Date)
      requires ValidDate(today)
      modifies this
      ensures uiState == WithMonth(old(uiState), MonthText(AddMonths(MonthStart(old(uiState).currentMonth, today), 1)))
    {
      StepMonth(1, today);
    }

    /** `onMeterValueChange(room, value)`. */
    method OnMeterValueChange(room: string, value: string)
      modifies this
      ensures uiState == WithInput(old(uiState), room, value)
    {
      var m := uiState.meterMap[room := value];
      var canSave := exists q :: q in m && ToIntOrNull(m[q]).Some? && !IsBlank(m[q]);
      uiState := uiState.(meterMap := m, canSave := canSave);
    }

    /** `onLockToggle(room)`. */
    method OnLockToggle(room: string)
      modifies this
      ensures uiState == WithLockToggled(old(uiState), room)
    {
      var isLocked := room in uiState.lockedRoomMap && uiState.lockedRoomMap[room];
      var locked := uiState.lockedRoomMap[room := !isLocked];
      var m := uiState.meterMap;
      if isLocked {
        m := m[room := ""];
      }
      var canSave := exists q :: q in m && ToIntOrNull(m[q]).Some? && !IsBlank(m[q]);
      assert canSave == AnyParses(m);
      assert m == WithLockToggled(uiState, room).meterMap;
      uiState := uiState.(lockedRoomMap := locked, meterMap := m, canSave := canSave);
    }

    /**
     * `saveAndCalculate()`: one record per unlocked room whose input parses,
     * all stamped with the current month. With some, they are written and the
     * month reloaded (the reload clears the success message); with none,
     * nothing is written and the error message is shown.
     */
    method SaveAndCalculate()
      requires meterDao.Valid()
      modifies this, meterDao
      ensures meterDao.Valid()
      ensures var recs := ToSave(old(uiState), old(uiState).roomList);
        recs != [] ==>
          (meterDao.State() == InsertAll(old(meterDao.State()), recs)
           && uiState == Loaded(old(uiState).(message := "成功儲存" + IntToString(|recs|) + "筆", messageType := Success),
                                meterDao.rows, old(uiState).currentMonth))
      ensures var recs := ToSave(old(uiState), old(uiState).roomList);
        recs == [] ==>
          (meterDao.State() == old(meterDao.State())
           && uiState == old(uiState).(message := "請輸入有效數字", messageType := Error))
    {
      var rooms := uiState.roomList;
      var currentMonth := uiState.currentMonth;
      var meterMap := uiState.meterMap;
      var recordsToSave: seq<MeterRecord> := [];
      var i := 0;
      while i < |rooms|
        invariant 0 <= i <= |rooms|
        invariant recordsToSave == ToSave(old(uiState), rooms[..i])
        invariant unchanged(this) && unchanged(meterDao)
      {
        ToSaveStep(old(uiState), rooms, i);
        var room := rooms[i];
        if !(room.roomNumber in uiState.lockedRoomMap && uiState.lockedRoomMap[room.roomNumber]) {
          if room.roomNumber in meterMap {
            var text := meterMap[room.roomNumber];
            var v := ToIntOrNull(text);
            if v.Some? && !IsBlank(text) {
              assert Savable(old(uiState), room.roomNumber);
              recordsToSave := recordsToSave + [NewRecord(room.roomNumber, currentMonth, v.value)];
            } else {
              assert !Savable(old(uiState), room.roomNumber);
            }
          } else {
            assert !Savable(old(uiState), room.roomNumber);
          }
        } else {
          assert !Savable(old(uiState), room.roomNumber);
        }
        i := i + 1;
      }
      assert rooms[..i] == rooms;
      if recordsToSave != [] {
        meterDao.InsertOrUpdateRecords(recordsToSave);
        uiState := uiState.(message := "成功儲存" + IntToString(|recordsToSave|) + "筆", messageType := Success);
        LoadInitialDataForCurrentMonth(currentMonth);
      } else {
        uiState := uiState.(message := "請輸入有效數字", messageType := Error);
      }
    }
  }
}
