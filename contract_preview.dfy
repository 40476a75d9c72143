/**
 * The contract preview screen: the masked landlord identity fields, the
 * contract's end date derived from its start date and period, and the room
 * the contract is for.
 */
module ContractPreview {
  import opened Text
  import opened Dates
  import opened RoomStore
  import RoomManage

  // ---------------------------------------------------------------- masking

  /** `maskId`: keep the first two and the last three characters, star the rest; star all of a short id. */
  function MaskId(id: string): (r: string)
    ensures |r| == |id|
  {
    if |id| >= 5 then id[..2] + Repeat('*', |id| - 5) + TakeLast(id, 3)
    else Repeat('*', |id|)
  }

  /** `maskPhone`, written out separately with the same rule. */
  function MaskPhone(phone: string): (r: string)
    ensures |r| == |phone|
  {
    if |phone| >= 5 then phone[..2] + Repeat('*', |phone| - 5) + TakeLast(phone, 3)
    else Repeat('*', |phone|)
  }

  /** Whether `maskId` keeps position `i` of a text of length `n`. */
  predicate KeptByMask(n: nat, i: nat) {
    n >= 5 && (i < 2 || i >= n - 3)
  }

  /** Character by character: a kept position shows the input, every other one a star. */
  lemma MaskIdAt(id: string, i: nat)
    requires i < |id|
    ensures MaskId(id)[i] == if KeptByMask(|id|, i) then id[i] else '*'
  {
    if |id| >= 5 {
      var stars := Repeat('*', |id| - 5);
      assert MaskId(id) == id[..2] + stars + id[|id| - 3..];
      if i < 2 {
        assert MaskId(id)[i] == id[..2][i];
      } else if i < |id| - 3 {
        assert MaskId(id)[i] == stars[i - 2];
      } else {
        assert MaskId(id)[i] == id[|id| - 3..][i - (|id| - 3)];
      }
    }
  }

  /** A five-character id has nothing in the middle to hide. */
  lemma MaskIdFiveUnchanged(id: string)
    requires |id| == 5
    ensures MaskId(id) == id
  {
    forall i | 0 <= i < 5
      ensures MaskId(id)[i] == id[i]
    {
      MaskIdAt(id, i);
    }
  }

  /** A short id is starred out completely. */
  lemma MaskIdShortAllStars(id: string)
    requires |id| < 5
    ensures forall i :: 0 <= i < |id| ==> MaskId(id)[i] == '*'
  {
  }

  /** Masking a masked id changes nothing. */
  lemma MaskIdIdempotent(id: string)
    ensures MaskId(MaskId(id)) == MaskId(id)
  {
    var m := MaskId(id);
    forall i | 0 <= i < |m|
      ensures MaskId(m)[i] == m[i]
    {
      MaskIdAt(m, i);
      MaskIdAt(id, i);
    }
  }

  /** `maskPhone` and `maskId` agree on every input. */
  lemma MaskPhoneIsMaskId(s: string)
    ensures MaskPhone(s) == MaskId(s)
  {
  }

  /** The landlord's id as the form shows it. */
  lemma LandlordIdShown()
    ensures MaskId("A123456789") == "A1*****789"
  {
    assert Repeat('*', 5) == "*****";
  }

  // --------------------------------------------------------------- end date

  /** The years the period option at `index` adds: half a year, one year or two; any other index one year. */
  function ContractYears(index: int): int {
    if index == 0 then 0 else if index == 2 then 2 else 1
  }

  /** The months on top: six for the half-year option. */
  function ContractMonths(index: int): int {
    if index == 0 then 6 else 0
  }

  /** The contract's end date: the start moved on by the period, with no day taken off. */
  function ContractEnd(start: Date, index: int): (r: Date)
    requires ValidDate(start)
    ensures ValidDate(r)
  {
    AddMonths(AddYears(start, ContractYears(index)), ContractMonths(index))
  }

  /** A contract runs at least six months. */
  lemma ContractRunsHalfYear(start: Date, index: int)
    requires ValidDate(start)
    ensures MonthIndex(ContractEnd(start, index).year, ContractEnd(start, index).month)
         >= MonthIndex(start.year, start.month) + 6
    ensures Before(start, ContractEnd(start, index))
  {
  }

  /**
   * For the periods both screens offer, the room dialog's lease ends the
   * day before the contract does.
   */
  lemma LeaseEndsDayBeforeContract(start: Date, index: int)
    requires ValidDate(start) && 0 <= index <= 2
    ensures RoomManage.LeaseEnd(start, index) == PreviousDay(ContractEnd(start, index))
  {
    var e := ContractEnd(start, index);
    assert RoomManage.LeaseYears(index) == ContractYears(index);
    assert AddDays(e, -1) == PreviousDay(e);
  }

  /** A two-year contract from 29 February 2024 ends on 28 February 2026. */
  lemma ContractEndLeapDayExample()
    ensures ContractEnd(Date(2024, 2, 29), 2) == Date(2026, 2, 28)
  {
  }

  /** The end date text for a start date text in "yyyy/MM/dd": "" when the start does not parse. */
  function ContractEndText(startText: string, index: int): string {
    match ParseDate(startText, '/')
    case None => ""
    case Some(d) => FormatDate(ContractEnd(d, index), '/')
  }

  /** A start date printed by the form yields the printed end of the contract. */
  lemma ContractEndOfPrintedStart(d: Date, index: int)
    requires ValidDate(d) && d.year >= 0
    ensures ContractEndText(FormatDate(d, '/'), index) == FormatDate(ContractEnd(d, index), '/')
  {
    DateRoundTrip(d, '/');
  }

  /** A start date text that does not begin with a digit yields no end date. */
  lemma UnparseableStartHasNoEnd(startText: string, index: int)
    requires startText == [] || !IsDigit(startText[0])
    ensures ContractEndText(startText, index) == ""
  {
  }

  // ------------------------------------------------------------------- form

  /** The contract form's remembered state. */
  class ContractForm {
    var startDate: string
    var endDate: string
    var periodIndex: int
    var selectedRoom: string

    /** The end date is always the effect's result for the current start date and period. */
    ghost predicate Valid()
      reads this
    {
      endDate == ContractEndText(startDate, periodIndex)
    }

    /** Opening the form on `today`: a one-year contract starting today, no room chosen yet. */
    constructor (today: Date)
      requires ValidDate(today) && today.year >= 0
      ensures Valid()
      ensures startDate == FormatDate(today, '/') && periodIndex == 1 && selectedRoom == ""
      ensures endDate == FormatDate(ContractEnd(today, 1), '/')
    {
      startDate := FormatDate(today, '/');
      endDate := "";
      periodIndex := 1;
      selectedRoom := "";
      new;
      RecomputeEndDate();
      ContractEndOfPrintedStart(today, 1);
    }

    /** The end-date effect: parse the start, add the period on a `Calendar`, print it. */
    method RecomputeEndDate()
      modifies this
      ensures Valid()
      ensures startDate == old(startDate) && periodIndex == old(periodIndex)
      ensures selectedRoom == old(selectedRoom)
    {
      var parsed := ParseDate(startDate, '/');
      if parsed.None? {
        endDate := "";
        return;
      }
      ghost var d := parsed.value;
      var start := new Calendar(parsed.value);
      var years := if periodIndex == 0 then 0 else if periodIndex == 1 then 1 else if periodIndex == 2 then 2 else 1;
      var months := if periodIndex == 0 then 6 else 0;
      assert years == ContractYears(periodIndex) && months == ContractMonths(periodIndex);
      start.Add(Year, years);
      start.Add(Month, months);
      assert start.Time() == ContractEnd(d, periodIndex);
      endDate := FormatDate(start.Time(), '/');
    }

    /** Choosing a period option; the effect re-runs when the option changes. */
    method OnPeriodSelected(index: int)
      requires Valid()
      modifies this
      ensures Valid()
      ensures periodIndex == index && startDate == old(startDate) && selectedRoom == old(selectedRoom)
    {
      if index != periodIndex {
        periodIndex := index;
        RecomputeEndDate();
      }
    }

    /** Picking a start date in the calendar; the end date follows it. */
    method OnStartDatePicked(d: Date)
      requires Valid() && ValidDate(d) && d.year >= 0
      modifies this
      ensures Valid()
      ensures startDate == FormatDate(d, '/') && endDate == FormatDate(ContractEnd(d, periodIndex), '/')
      ensures periodIndex == old(periodIndex) && selectedRoom == old(selectedRoom)
    {
      var text := FormatDate(d, '/');
      if text != startDate {
        startDate := text;
        RecomputeEndDate();
      }
      ContractEndOfPrintedStart(d, periodIndex);
    }

    /** The room-list effect: with no room chosen yet, the first listed room is chosen. */
    method OnRoomListChanged(rooms: seq<RoomEntity>)
      modifies this
      ensures old(selectedRoom) == "" && rooms != [] ==> selectedRoom == rooms[0].roomNumber
      ensures old(selectedRoom) != "" || rooms == [] ==> selectedRoom == old(selectedRoom)
      ensures startDate == old(startDate) && endDate == old(endDate) && periodIndex == old(periodIndex)
    {
      if selectedRoom == [] && rooms != [] {
        selectedRoom := rooms[0].roomNumber;
      }
    }

    /** Choosing a room from the drop-down menu. */
    method OnRoomPicked(room: RoomEntity)
      modifies this
      ensures selectedRoom == room.roomNumber
      ensures startDate == old(startDate) && endDate == old(endDate) && periodIndex == old(periodIndex)
    {
      selectedRoom := room.roomNumber;
    }
  }
}
