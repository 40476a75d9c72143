/**
 * The room management screen: the list of rooms, and the dialog that edits
 * one room. The dialog derives the deposit from the rent and the lease end
 * date from the start date and the chosen term, and saves or deletes the
 * room through the `rooms` table.
 */
module RoomManage {
  import opened Options
  import opened Text
  import opened Dates
  import opened RoomStore

  // ------------------------------------------------------------ rent/deposit

  /** `it.filter { c -> c.isDigit() }`: the digit characters of `s`, in order. */
  function DigitFilter(s: string): (r: string)
    ensures AllDigits(r) && |r| <= |s|
  {
    if s == [] then []
    else (if IsDigit(s[0]) then [s[0]] else []) + DigitFilter(s[1..])
  }

  /** The filter keeps every digit, as often as it occurs, and nothing else. */
  lemma {:induction false} DigitFilterKeepsDigits(s: string, c: char)
    ensures multiset(DigitFilter(s))[c] == if IsDigit(c) then multiset(s)[c] else 0
  {
    if s != [] {
      DigitFilterKeepsDigits(s[1..], c);
      assert s == [s[0]] + s[1..];
    }
  }

  /** Digits pass through unchanged, so filtering twice is filtering once. */
  lemma {:induction false} DigitFilterOfDigits(s: string)
    requires AllDigits(s)
    ensures DigitFilter(s) == s
  {
    if s != [] {
      DigitFilterOfDigits(s[1..]);
      assert s == [s[0]] + s[1..];
    }
  }

  /** `text.toIntOrNull() ?: 0`. */
  function AmountOrZero(text: string): int {
    match ToIntOrNull(text)
    case None => 0
    case Some(v) => v
  }

  /**
   * The deposit text as the rent field's handler computes it: twice the
   * rent when the rent is positive, else "". The doubling is `Int`
   * arithmetic and wraps past 2147483647.
   */
  function DepositTextAsWritten(rentText: string): string {
    var amount := AmountOrZero(rentText);
    if amount > 0 then IntToString(Wrap32(amount * 2)) else ""
  }

  /** A rent above 1073741823 shows a negative deposit. */
  lemma DepositAsWrittenOverflows(rent: int)
    requires 0x4000_0000 <= rent <= IntMax
    ensures AmountOrZero(DepositTextAsWritten(IntToString(rent))) < 0
  {
    IntToStringRoundTrip(rent);
    var w := Wrap32(rent * 2);
    assert w == rent * 2 - 0x1_0000_0000;
    IntToStringRoundTrip(w);
  }

  /** The rent of 1500000000 shows the deposit -1294967296. */
  lemma DepositAsWrittenExample()
    ensures Wrap32(1500000000 * 2) == -1294967296
  {
  }

  /** The deposit text: twice the rent when the rent is positive, else "". */
  function DepositText(rentText: string): (r: string)
    ensures AmountOrZero(rentText) <= 0 <==> r == []
  {
    var amount := AmountOrZero(rentText);
    if amount > 0 then NatToString(amount * 2) else ""
  }

  /** The deposit text spells out twice the rent, as a plain run of digits. */
  lemma DepositIsTwiceRent(rentText: string)
    requires AmountOrZero(rentText) > 0
    ensures AllDigits(DepositText(rentText))
    ensures DigitsValue(DepositText(rentText)) == 2 * AmountOrZero(rentText)
  {
    DigitsOfNatToString(AmountOrZero(rentText) * 2);
  }

  /** The text a stored amount starts the dialog with: "" for 0, else the number. */
  function InitialAmountText(amount: int): string {
    if amount == 0 then "" else IntToString(amount)
  }

  /** The initial text of a stored `Int` amount reads back as that amount when saved unchanged. */
  lemma InitialAmountRoundTrip(amount: int)
    requires IsInt32(amount)
    ensures AmountOrZero(InitialAmountText(amount)) == amount
  {
    if amount != 0 {
      IntToStringRoundTrip(amount);
    }
  }

  // --------------------------------------------------------------- end date

  /** The years the term option at `index` adds: 0.5, 1, 2 or 3 years; any other index one year. */
  function LeaseYears(index: int): int {
    if index == 0 then 0 else if 1 <= index <= 3 then index else 1
  }

  /** The months the term option adds on top: six for the half-year option. */
  function LeaseMonths(index: int): int {
    if index == 0 then 6 else 0
  }

  /** The last day of a lease starting on `start` for the term option `index`. */
  function LeaseEnd(start: Date, index: int): (r: Date)
    requires ValidDate(start)
    ensures ValidDate(r)
  {
    AddDays(AddMonths(AddYears(start, LeaseYears(index)), LeaseMonths(index)), -1)
  }

  /** A lease always ends after it starts, whatever the term option. */
  lemma LeaseEndAfterStart(start: Date, index: int)
    requires ValidDate(start)
    ensures Before(start, LeaseEnd(start, index))
  {
    var x := AddMonths(AddYears(start, LeaseYears(index)), LeaseMonths(index));
    assert MonthIndex(x.year, x.month) >= MonthIndex(start.year, start.month) + 6;
    assert AddDays(x, -1) == PreviousDay(x);
    PreviousDayMonth(x);
  }

  /** The day before a date lies in the same month or the one before. */
  lemma PreviousDayMonth(d: Date)
    requires ValidDate(d)
    ensures MonthIndex(PreviousDay(d).year, PreviousDay(d).month) >= MonthIndex(d.year, d.month) - 1
  {
  }

  /** A one-year lease from the first of July ends on the last of June. */
  lemma LeaseEndOneYearExample()
    ensures LeaseEnd(Date(2024, 7, 1), 1) == Date(2025, 6, 30)
  {
    var start := Date(2024, 7, 1);
    assert LeaseYears(1) == 1 && LeaseMonths(1) == 0;
    var y := AddYears(start, 1);
    assert DaysInMonth(2025, 7) == 31;
    assert y == Date(2025, 7, 1);
    var x := AddMonths(y, 0);
    assert MonthIndex(x.year, x.month) == MonthIndex(2025, 7);
    MonthIndexInjective(x.year, x.month, 2025, 7);
    assert x == y;
    assert AddDays(x, -1) == PreviousDay(x);
    assert DaysInMonth(2025, 6) == 30;
  }

  /** A half-year lease from 31 August is clamped to 28 February, then a day earlier. */
  lemma LeaseEndHalfYearClampExample()
    ensures LeaseEnd(Date(2024, 8, 31), 0) == Date(2025, 2, 27)
  {
    var start := Date(2024, 8, 31);
    assert LeaseYears(0) == 0 && LeaseMonths(0) == 6;
    var y := AddYears(start, 0);
    assert y == start;
    var x := AddMonths(y, 6);
    assert MonthIndex(x.year, x.month) == MonthIndex(2025, 2);
    MonthIndexInjective(x.year, x.month, 2025, 2);
    assert !IsLeapYear(2025) && DaysInMonth(2025, 2) == 28;
    assert x == Date(2025, 2, 28);
    assert AddDays(x, -1) == PreviousDay(x);
  }

  /** The end date text for a start date text: "" when the start does not parse. */
  function EndDateText(startText: string, index: int): string {
    match ParseDate(startText, '-')
    case None => ""
    case Some(d) => FormatDate(LeaseEnd(d, index), '-')
  }

  /** A start date picked from the calendar yields the printed end of its lease. */
  lemma EndDateOfPickedStart(d: Date, index: int)
    requires ValidDate(d) && d.year >= 0
    ensures EndDateText(FormatDate(d, '-'), index) == FormatDate(LeaseEnd(d, index), '-')
  {
    DateRoundTrip(d, '-');
  }

  /** A blank start date (a room never given one) yields no end date. */
  lemma BlankStartHasNoEnd(startText: string, index: int)
    requires IsBlank(startText)
    ensures EndDateText(startText, index) == ""
  {
    if startText != [] {
      assert IsWhitespace(startText[0]);
    }
  }

  // ----------------------------------------------------------------- dialog

  /** The dialog's remembered state, field by field. */
  datatype DialogFields = DialogFields(
    roomNumber: string,
    tenantName: string,
    roomType: string,
    note: string,
    rentAmount: string,
    deposit: string,
    status: string,
    rentEndDate: string,
    rentDuration: string,
    rentDurationIndex: int,
    rentStartDate: string)

  /** The free-text fields the user types into. */
  datatype TextField = RoomNumberField | TenantNameField | TypeField | StatusField | NoteField

  /** The fields after typing `value` into `field`. */
  function Typed(f: DialogFields, field: TextField, value: string): DialogFields {
    match field
    case RoomNumberField => f.(roomNumber := value)
    case TenantNameField => f.(tenantName := value)
    case TypeField => f.(roomType := value)
    case StatusField => f.(status := value)
    case NoteField => f.(note := value)
  }

  /** The room the save button hands over: none for a blank room number. */
  function SavedRoom(f: DialogFields): (r: Option<RoomEntity>)
    ensures r.Some? <==> !IsBlank(f.roomNumber)
  {
    if IsBlank(f.roomNumber) then None
    else Some(RoomEntity(
      roomNumber := f.roomNumber,
      tenantName := f.tenantName,
      roomType := f.roomType,
      note := f.note,
      rentAmount := AmountOrZero(f.rentAmount),
      deposit := AmountOrZero(f.deposit),
      status := f.status,
      rentStartDate := f.rentStartDate,
      rentEndDate := f.rentEndDate,
      rentDuration := f.rentDuration))
  }

  /**
   * A deposit derived from the rent is saved as twice the saved rent, as
   * long as twice the rent is an `Int`.
   */
  lemma SavedDepositIsTwiceRent(f: DialogFields)
    requires !IsBlank(f.roomNumber)
    requires f.deposit == DepositText(f.rentAmount)
    requires 0 < AmountOrZero(f.rentAmount) && 2 * AmountOrZero(f.rentAmount) <= IntMax
    ensures SavedRoom(f).value.deposit == 2 * SavedRoom(f).value.rentAmount
  {
    var n := 2 * AmountOrZero(f.rentAmount);
    DepositIsTwiceRent(f.rentAmount);
    IntToStringRoundTrip(n);
  }

  /** `RoomEditDialog`: the editing state of one room. */
  class RoomEditDialog {
    /** The room the dialog was opened on. */
    const room: RoomEntity
    var fields: DialogFields

    /**
     * The duration text is never edited, and the end date is always the
     * effect's result for the current start date and term option.
     */
    ghost predicate Valid()
      reads this
    {
      fields.rentDuration == room.rentDuration
      && fields.rentEndDate == EndDateText(fields.rentStartDate, fields.rentDurationIndex)
    }

    /** Opening the dialog: the room's fields, the one-year option, and the end date that option gives. */
    constructor (room: RoomEntity)
      ensures Valid() && this.room == room
      ensures fields == DialogFields(room.roomNumber, room.tenantName, room.roomType, room.note,
        InitialAmountText(room.rentAmount), InitialAmountText(room.deposit), room.status,
        EndDateText(room.rentStartDate, 1), room.rentDuration, 1, room.rentStartDate)
    {
      this.room := room;
      fields := DialogFields(room.roomNumber, room.tenantName, room.roomType, room.note,
        InitialAmountText(room.rentAmount), InitialAmountText(room.deposit), room.status,
        room.rentEndDate, room.rentDuration, 1, room.rentStartDate);
      new;
      RecomputeEndDate();
    }

    /** The end-date effect: parse the start, add the term on a `Calendar`, step back a day. */
    method RecomputeEndDate()
      modifies this
      ensures fields == old(fields).(rentEndDate := EndDateText(old(fields).rentStartDate, old(fields).rentDurationIndex))
    {
      var parsed := ParseDate(fields.rentStartDate, '-');
      if parsed.None? {
        fields := fields.(rentEndDate := "");
        return;
      }
      ghost var d := parsed.value;
      var start := new Calendar(parsed.value);
      var index := fields.rentDurationIndex;
      var years := if index == 0 then 0 else if index == 1 then 1 else if index == 2 then 2 else if index == 3 then 3 else 1;
      var months := if index == 0 then 6 else 0;
      var days := 1;
      assert years == LeaseYears(index) && months == LeaseMonths(index);
      start.Add(Year, years);
      start.Add(Month, months);
      start.Add(DayOfMonth, days - 2);
      assert start.Time() == LeaseEnd(d, index);
      var end := FormatDate(start.Time(), '-');
      assert end == EndDateText(fields.rentStartDate, index);
      fields := fields.(rentEndDate := end);
    }

    /** Typing into one of the free-text fields changes that field only. */
    method OnTextChange(field: TextField, value: string)
      requires Valid()
      modifies this
      ensures Valid()
      ensures fields == Typed(old(fields), field, value)
    {
      fields := Typed(fields, field, value);
    }

    /** Typing into the rent field keeps its digits and derives the deposit from them. */
    method OnRentAmountChange(text: string)
      requires Valid()
      modifies this
      ensures Valid()
      ensures fields == old(fields).(rentAmount := DigitFilter(text), deposit := DepositText(DigitFilter(text)))
    {
      var rent := DigitFilter(text);
      fields := fields.(rentAmount := rent, deposit := DepositText(rent));
    }

    /** Choosing a term option; the effect re-runs when the option changes. */
    method OnDurationSelected(index: int)
      requires Valid()
      modifies this
      ensures Valid()
      ensures fields == old(fields).(rentDurationIndex := index,
        rentEndDate := EndDateText(old(fields).rentStartDate, index))
    {
      if index != fields.rentDurationIndex {
        fields := fields.(rentDurationIndex := index);
        RecomputeEndDate();
      }
    }

    /** Picking a start date in the calendar; the effect re-runs when the text changes. */
    method OnStartDatePicked(d: Date)
      requires Valid() && ValidDate(d)
      modifies this
      ensures Valid()
      ensures fields == old(fields).(rentStartDate := FormatDate(d, '-'),
        rentEndDate := EndDateText(FormatDate(d, '-'), old(fields).rentDurationIndex))
    {
      var text := FormatDate(d, '-');
      if text != fields.rentStartDate {
        fields := fields.(rentStartDate := text);
        RecomputeEndDate();
      }
    }

    /** The dialog title: adding for a blank room number, editing otherwise. */
    function Title(): string
      reads this
    {
      if IsBlank(room.roomNumber) then "新增房間" else "編輯房間"
    }

    /** The delete button is there only for a room that has a number. */
    predicate DeleteOffered()
      reads this
    {
      !IsBlank(room.roomNumber)
    }

    /** The save button's room keeps the opened room's duration text: the term option is not saved. */
    lemma SaveKeepsDuration()
      requires Valid() && !IsBlank(fields.roomNumber)
      ensures SavedRoom(fields).value.rentDuration == room.rentDuration
    {
    }

    /** Delete is offered exactly when the title says the room is being edited. */
    lemma DeleteOfferedWhenEditing()
      ensures DeleteOffered() <==> Title() == "編輯房間"
    {
    }
  }

  // ----------------------------------------------------------------- screen

  /** `RoomManageScreen`: the room list and which room the dialog is open on. */
  class RoomManageScreen {
    const roomDao: RoomTable
    var editingRoom: Option<RoomEntity>
    var showDialog: bool

    constructor (roomDao: RoomTable)
      ensures this.roomDao == roomDao && editingRoom == None && !showDialog
    {
      this.roomDao := roomDao;
      editingRoom := None;
      showDialog := false;
    }

    /** The room the dialog opens on: the edited one, or a blank room. */
    function DialogRoom(): RoomEntity
      reads this
    {
      match editingRoom
      case Some(r) => r
      case None => BlankRoom("")
    }

    /** "新增房間": open the dialog on a room with a blank number. */
    method OnAddClicked()
      modifies this
      ensures editingRoom == Some(BlankRoom("")) && showDialog
    {
      editingRoom := Some(BlankRoom(""));
      showDialog := true;
    }

    /** A click on a room's card opens the dialog on that room. */
    method OnRoomClicked(room: RoomEntity)
      modifies this
      ensures editingRoom == Some(room) && showDialog
    {
      editingRoom := Some(room);
      showDialog := true;
    }

    method OnDismiss()
      modifies this
      ensures editingRoom == old(editingRoom) && !showDialog
    {
      showDialog := false;
    }

    /**
     * The save button: with a non-blank room number the room is written with
     * REPLACE under its (possibly new) number and the dialog closes;
     * otherwise nothing happens. Renaming a room leaves the row under its
     * old number in place.
     */
    method OnConfirm(dialog: RoomEditDialog)
      requires roomDao.Valid()
      modifies this, roomDao
      ensures roomDao.Valid()
      ensures SavedRoom(dialog.fields).None? ==>
        roomDao.rooms == old(roomDao.rooms) && showDialog == old(showDialog)
      ensures SavedRoom(dialog.fields).Some? ==>
        roomDao.rooms == Inserted(old(roomDao.rooms), SavedRoom(dialog.fields).value) && !showDialog
      ensures (SavedRoom(dialog.fields).Some? && dialog.room.roomNumber in old(roomDao.rooms)
               && dialog.fields.roomNumber != dialog.room.roomNumber) ==>
        roomDao.rooms[dialog.room.roomNumber] == old(roomDao.rooms)[dialog.room.roomNumber]
      ensures editingRoom == old(editingRoom)
    {
      var saved := SavedRoom(dialog.fields);
      if saved.Some? {
        roomDao.InsertRoom(saved.value);
        showDialog := false;
      }
    }

    /** The delete button, shown only for a numbered room: its row goes, and the dialog closes. */
    method OnDelete(dialog: RoomEditDialog)
      requires roomDao.Valid() && dialog.DeleteOffered()
      modifies this, roomDao
      ensures roomDao.Valid()
      ensures roomDao.rooms == Deleted(old(roomDao.rooms), dialog.room)
      ensures dialog.room.roomNumber !in roomDao.rooms && !showDialog
      ensures editingRoom == old(editingRoom)
    {
      roomDao.DeleteRoom(dialog.room);
      showDialog := false;
    }
  }
}
