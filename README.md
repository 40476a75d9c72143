# Tenant app: rooms, meter readings and electricity fees

This project models in Dafny the core of an Android tenant-management app
written in Kotlin. A landlord keeps a table of rooms and a table of monthly
electricity-meter readings. The app shows fees at a flat 5 per unit, imports
rooms and readings from an Excel sheet, edits rooms in a dialog, previews a
lease contract, shows the landlord's code on the home screen and registers
users.

The model is split into these modules, one per source file or concern:

- `Text` (text.dfy) covers the Kotlin text and integer behaviour the screens use:
  - `trim`, `toIntOrNull` over 32-bit `Int` and `Int.toString`;
  - `%0Nd`, `uppercase`, `take`, `takeLast` and `repeat`;
  - 32-bit wrap-around;
  - the text order used by `ORDER BY` and `sorted`.
  `Options` and `Maps` hold the `Option` type and the map built by `associate`/`mutableMapOf`.
- `Dates` (dates.dfy) covers:
  - the Gregorian calendar;
  - `Calendar.add` for years, months and days, with day clamping;
  - lenient `SimpleDateFormat` parsing and printing of `yyyy-MM` and `yyyy-MM-dd`.
  A `Calendar` class holds the mutable calendar.
- `MeterStore` (meter_store.dfy) models the `electric_meter_records` table and `ElectricMeterDao`.
  It is a sequence of rows with an AUTOINCREMENT id and REPLACE on conflict of that id.
- `RoomStore` (room_store.dfy) models the `rooms` table and `RoomDao`.
  It is a map keyed by `roomNumber`, with REPLACE inserts and queries in ascending order.
- `ElectricityQuery` (electricity_query.dfy) models the fee query screen:
  - its first state, remembered from the still-empty collected lists (no room selected, no month);
  - the month list and the room chips;
  - the readings shown;
  - the fee loop.
- `ElectricityCalcVm` (electricity_calc_vm.dfy) models the `ElectricityCalcViewModel` and its `UiState`:
  - loading a month;
  - month navigation;
  - input and lock edits;
  - saving.
- `ElectricityCalc` (electricity_calc_screen.dfy) models the older meter entry screen:
  - its `LaunchedEffect` reset;
  - saving readings;
  - usage from the two latest readings.
- `ExcelImport` (excel_import.dfy) models Excel import:
  - the preview (header row as keys, trimmed cells);
  - conversion of rows into rooms or readings;
  - the two templates' demo content.
- `RoomManage` (room_manage.dfy) models the room list and the room edit dialog:
  - rent digits and the derived deposit;
  - the lease end date;
  - the saved room;
  - insert and delete.
- `ContractPreview` (contract_preview.dfy) models the contract form:
  - id and phone masking;
  - the contract end date;
  - the chosen room.
- `LandlordHome` (landlord_home.dfy) models the home screen:
  - the masked landlord code and its visibility toggle;
  - the first three announcements.
- `Register` (register.dfy) models registration:
  - the form's checks in order;
  - the username lookup;
  - the landlord code;
  - the `users` table insert.

The screens keep their state in Compose `remember` variables or in a view
model, and change it in place. They are modelled as classes whose methods
change those fields. Each method's contract ties the new state to a pure
function, and the lemmas state what the app promises about that function. A
`LaunchedEffect` re-runs only when one of its keys changes; the event methods
model that by re-running the effect only on a change.

A flat rate of 5 per unit is the only tariff in the code, and the fee depends
only on a room's own readings.

## Model

| member | source | states |
|---|---|---|
| Text.Wrap32 | app/src/main/java/com/stevedaydream/tenantapp/ui/ElectricityQueryScreen.kt:54-56 | the result is a 32-bit value congruent to the input modulo 2^32, and equal to it when it already fits: Kotlin `Int` overflow |
| Text.TrimShape | app/src/main/java/com/stevedaydream/tenantapp/ui/ExcelImportScreen.kt:196 | `trim()` never lengthens its text, leaves no whitespace at either end, and yields "" exactly for blank text |
| Text.TrimIdempotent | app/src/main/java/com/stevedaydream/tenantapp/ui/ExcelImportScreen.kt:200 | trimming a trimmed cell changes nothing |
| Text.ToIntOrNull | app/src/main/java/com/stevedaydream/tenantapp/ui/ElectricityCalcViewModel.kt:94 | `toIntOrNull()` yields only 32-bit values, and never for blank text |
| Text.IntToStringRoundTrip | app/src/main/java/com/stevedaydream/tenantapp/ui/ElectricityCalcViewModel.kt:69 | an `Int` printed with `toString()` parses back to itself with `toIntOrNull()` |
| Text.ZeroPaddedValue | app/src/main/java/com/stevedaydream/tenantapp/ui/ElectricityCalcViewModel.kt:148 | `%0Nd` of a non-negative number is a digit run whose value is that number |
| Text.ToUpper | app/src/main/java/com/stevedaydream/tenantapp/ui/RegisterScreen.kt:88 | upper-casing keeps the length, maps ASCII a-z to A-Z and keeps every other character |
| Text.LessEqTotal | app/src/main/java/com/stevedaydream/tenantapp/data/ElectricMeterDao.kt:15 | the text order used by `ORDER BY` and `sorted` is total |
| Text.LessEqTransitive | app/src/main/java/com/stevedaydream/tenantapp/data/ElectricMeterDao.kt:15 | the text order is transitive |
| Text.LessEqAntisymmetric | app/src/main/java/com/stevedaydream/tenantapp/data/RoomDao.kt:8-9 | two texts each below or equal to the other are equal, so room numbers sort without ties |
| Dates.DaysInMonth | app/src/main/java/com/stevedaydream/tenantapp/ui/ElectricityCalcViewModel.kt:159 | months have 28 to 31 days, and 29 exactly for February of a leap year |
| Dates.AddMonths | app/src/main/java/com/stevedaydream/tenantapp/ui/ElectricityCalcViewModel.kt:159 | `Calendar.add(MONTH, n)` moves the month index by exactly n and clamps the day to the new month's length |
| Dates.AddYears | app/src/main/java/com/stevedaydream/tenantapp/ui/RoomManageScreen.kt:183 | `Calendar.add(YEAR, n)` keeps the month and clamps the day (29 February to 28 February) |
| Dates.AddYearsIsTwelveMonths | app/src/main/java/com/stevedaydream/tenantapp/ui/RoomManageScreen.kt:183-184 | adding n years is adding 12n months |
| Dates.NextPreviousInverse | app/src/main/java/com/stevedaydream/tenantapp/ui/RoomManageScreen.kt:185 | the day before and the day after are inverse steps |
| Dates.AddDays | app/src/main/java/com/stevedaydream/tenantapp/ui/RoomManageScreen.kt:185 | `Calendar.add(DAY_OF_MONTH, n)` gives a valid date, later for n > 0 and earlier for n < 0 |
| Dates.Calendar.Add | app/src/main/java/com/stevedaydream/tenantapp/ui/RoomManageScreen.kt:183-185 | `add(field, amount)` moves the calendar's date by the field's arithmetic and keeps it valid |
| Dates.YearMonthRoundTrip | app/src/main/java/com/stevedaydream/tenantapp/ui/ElectricityCalcViewModel.kt:155-160 | a month printed as "yyyy-MM" parses back to the same month |
| Dates.ParseDigitsDashDigits | app/src/main/java/com/stevedaydream/tenantapp/ui/ElectricityCalcViewModel.kt:155 | lenient "yyyy-MM" parsing reads a digit run, a dash and a digit run, rolling an out-of-range month into the year |
| Dates.DateRoundTrip | app/src/main/java/com/stevedaydream/tenantapp/ui/RoomManageScreen.kt:164-173 | a date printed as "yyyy-MM-dd" (or "yyyy/MM/dd") parses back to the same date |
| Dates.LenientDateOfValid | app/src/main/java/com/stevedaydream/tenantapp/ui/RoomManageScreen.kt:173 | lenient parsing leaves a valid (year, month, day) unchanged |
| Dates.ParseDate | app/src/main/java/com/stevedaydream/tenantapp/ui/RoomManageScreen.kt:173 | a date text that parses yields a valid date |
| MeterStore.NewRecord | app/src/main/java/com/stevedaydream/tenantapp/data/ElectricMeterRecord.kt:8-13 | a reading built by the screens carries id 0 and the given room, month and value |
| MeterStore.AllForMonth | app/src/main/java/com/stevedaydream/tenantapp/data/ElectricMeterDao.kt:12-13 | `getAllForMonth` returns exactly the rows of that month, each as often as the table holds it |
| MeterStore.RecordsOf | app/src/main/java/com/stevedaydream/tenantapp/data/ElectricMeterDao.kt:15 | the rows of one room, exactly and with multiplicity |
| MeterStore.TopTwoByMonth | app/src/main/java/com/stevedaydream/tenantapp/data/ElectricMeterDao.kt:15-16 | `ORDER BY recordMonth DESC LIMIT 2`: at most two rows, newest first, none of the rest newer than the last |
| MeterStore.LastTwo | app/src/main/java/com/stevedaydream/tenantapp/data/ElectricMeterDao.kt:15-16 | `getLastTwoRecords` returns at most two of the room's rows, newest month first, and they are the room's newest |
| MeterStore.GetRecord | app/src/main/java/com/stevedaydream/tenantapp/data/ElectricMeterDao.kt:18-19 | `getRecord` returns a row of that room and month, and returns none exactly when no such row exists |
| MeterStore.FindMonth | app/src/main/java/com/stevedaydream/tenantapp/ui/ElectricityCalcViewModel.kt:81 | `find { recordMonth == month }` returns a matching row, the first when the first matches, and none exactly when none matches |
| MeterStore.FindOtherMonth | app/src/main/java/com/stevedaydream/tenantapp/ui/ElectricityQueryScreen.kt:52 | `find { recordMonth != month }` returns a row of another month, and none exactly when all rows are of that month |
| MeterStore.Insert | app/src/main/java/com/stevedaydream/tenantapp/data/ElectricMeterDao.kt:9-10 | REPLACE insert: a new reading (id 0) is appended with the next generated id; a reading with an explicit id ends up in the table and the generator moves past its id; ids stay distinct |
| MeterStore.InsertReplacesInPlace | app/src/main/java/com/stevedaydream/tenantapp/data/ElectricMeterDao.kt:9-10 | a reading with an explicit id takes the place of the row holding that id; every other row stays as and where it was; without such a row the reading is appended, and the row count grows by one exactly then |
| MeterStore.InsertAll | app/src/main/java/com/stevedaydream/tenantapp/data/ElectricMeterDao.kt:22-23 | inserting a list in order keeps every id non-zero, distinct and below the next generated id |
| MeterStore.InsertAllFresh | app/src/main/java/com/stevedaydream/tenantapp/data/ElectricMeterDao.kt:22-23 | inserting fresh readings appends them in order with consecutive new ids and leaves every existing row alone |
| MeterStore.InsertNeverReplacesByRoomMonth | app/src/main/java/com/stevedaydream/tenantapp/data/ElectricMeterRecord.kt:9 | the only key is the generated id, so saving a room and month again adds a second row for it |
| MeterStore.MeterTable.AllRecords | app/src/main/java/com/stevedaydream/tenantapp/data/ElectricMeterDao.kt:20-26 | `getAllRecords` and `getAll` both return every row of the table |
| MeterStore.MeterTable.InsertOrUpdate | app/src/main/java/com/stevedaydream/tenantapp/data/ElectricMeterDao.kt:9-10 | the table after `insertOrUpdate` is the REPLACE insert of the record |
| MeterStore.MeterTable.InsertOrUpdateRecords | app/src/main/java/com/stevedaydream/tenantapp/data/ElectricMeterDao.kt:22-23 | the table after `insertOrUpdateRecords` is each record inserted in order |
| RoomStore.BlankRoom | app/src/main/java/com/stevedaydream/tenantapp/data/Room.kt:7-18 | `RoomEntity(roomNumber = n)` has every other field at its default |
| RoomStore.Inserted | app/src/main/java/com/stevedaydream/tenantapp/data/RoomDao.kt:11-12 | REPLACE insert by `roomNumber`: the room is filed under its number and no other row changes |
| RoomStore.InsertedAll | app/src/main/java/com/stevedaydream/tenantapp/data/RoomDao.kt:15-16 | `insertRooms` keeps every row filed under its own number |
| RoomStore.InsertedAllLastWins | app/src/main/java/com/stevedaydream/tenantapp/data/RoomDao.kt:15-16 | after `insertRooms(rs)` a number in rs holds the last room of rs with it; every other row is unchanged |
| RoomStore.Deleted | app/src/main/java/com/stevedaydream/tenantapp/data/RoomDao.kt:19-20 | `deleteRoom` removes the row with the room's number and no other |
| RoomStore.SortedRooms | app/src/main/java/com/stevedaydream/tenantapp/data/RoomDao.kt:8-9 | `ORDER BY roomNumber ASC`: every room exactly once, strictly ascending by number |
| RoomStore.RoomTable.AllRooms | app/src/main/java/com/stevedaydream/tenantapp/data/RoomDao.kt:17-18 | `getAllRooms`/`getAllRoomsNow` list every room once, ascending by number |
| RoomStore.RoomTable.AllRoomsUnordered | app/src/main/java/com/stevedaydream/tenantapp/data/RoomDao.kt:24-25 | `getAll` lists the same rooms in no promised order |
| RoomStore.RoomTable.InsertRoom | app/src/main/java/com/stevedaydream/tenantapp/data/RoomDao.kt:11-12 | the table after `insertRoom` is the REPLACE insert of the room |
| RoomStore.RoomTable.InsertRooms | app/src/main/java/com/stevedaydream/tenantapp/data/RoomDao.kt:15-16 | the table after `insertRooms` is each room inserted in order |
| RoomStore.RoomTable.DeleteRoom | app/src/main/java/com/stevedaydream/tenantapp/data/RoomDao.kt:19-20 | the table after `deleteRoom` is the table without that room's number |
| ElectricityQuery.Months | app/src/main/java/com/stevedaydream/tenantapp/ui/ElectricityQueryScreen.kt:33 | the month list is strictly descending and holds exactly the recorded months |
| ElectricityQuery.InitialMonth | app/src/main/java/com/stevedaydream/tenantapp/ui/ElectricityQueryScreen.kt:33-36 | `months.firstOrNull() ?: ""` of the list it is given: the newest recorded month, or "" exactly when there are no readings |
| ElectricityQuery.Toggled | app/src/main/java/com/stevedaydream/tenantapp/ui/ElectricityQueryScreen.kt:140-144 | a chip click puts the room in the selection iff it was absent and changes nothing else |
| ElectricityQuery.ToggleTwice | app/src/main/java/com/stevedaydream/tenantapp/ui/ElectricityQueryScreen.kt:140-144 | clicking a chip twice restores the selection |
| ElectricityQuery.NoRecordsNoCalculation | app/src/main/java/com/stevedaydream/tenantapp/ui/ElectricityQueryScreen.kt:155 | the month remembered from the empty initial list is "", so the calculate button is disabled whatever rooms are selected |
| ElectricityQuery.RecordsEnableCalculation | app/src/main/java/com/stevedaydream/tenantapp/ui/ElectricityQueryScreen.kt:116-155 | after a month is picked from the menu (one of the recorded, non-blank months) and a chip is switched on, the button is enabled |
| ElectricityQuery.SortByKey | app/src/main/java/com/stevedaydream/tenantapp/ui/ElectricityQueryScreen.kt:202 | sorting by room then month yields a sorted permutation |
| ElectricityQuery.Selected | app/src/main/java/com/stevedaydream/tenantapp/ui/ElectricityQueryScreen.kt:201 | exactly the readings of selected rooms in the selected month |
| ElectricityQuery.ShowRecords | app/src/main/java/com/stevedaydream/tenantapp/ui/ElectricityQueryScreen.kt:200-202 | `showRecords` is exactly the selected readings, as a permutation, sorted by room then month |
| ElectricityQuery.FeeAsWritten | app/src/main/java/com/stevedaydream/tenantapp/ui/ElectricityQueryScreen.kt:54-58 | the fee with the screen's 32-bit arithmetic is an `Int` |
| ElectricityQuery.FeeAsWrittenOverflows | app/src/main/java/com/stevedaydream/tenantapp/ui/ElectricityQueryScreen.kt:54-56 | readings 500000000 and 0 give the fee -1794967296 as written, though the intended fee is 2500000000 |
| ElectricityQuery.FeeAsWrittenAgrees | app/src/main/java/com/stevedaydream/tenantapp/ui/ElectricityQueryScreen.kt:54-58 | where no arithmetic overflows, the written fee equals the intended one |
| ElectricityQuery.Fee | app/src/main/java/com/stevedaydream/tenantapp/ui/ElectricityQueryScreen.kt:55-59 | the fee is a non-negative multiple of 5, zero exactly when the usage is not positive, and at least the usage |
| ElectricityQuery.FeeMonotone | app/src/main/java/com/stevedaydream/tenantapp/ui/ElectricityQueryScreen.kt:55-59 | a larger usage never costs less |
| ElectricityQuery.FeeBetween | app/src/main/java/com/stevedaydream/tenantapp/ui/ElectricityQueryScreen.kt:53-60 | a fee exists exactly when there are a current and a previous reading, and it is never negative |
| ElectricityQuery.QueryFees | app/src/main/java/com/stevedaydream/tenantapp/ui/ElectricityQueryScreen.kt:42-65 | the fee map has an entry exactly for the rooms with a reading in the month and an earlier-listed other-month reading, all non-negative |
| ElectricityQuery.PreviousCanBeLater | app/src/main/java/com/stevedaydream/tenantapp/ui/ElectricityQueryScreen.kt:52 | the "previous" reading can be a later month: July's query takes August |
| ElectricityQuery.LaterPreviousBilledZero | app/src/main/java/com/stevedaydream/tenantapp/ui/ElectricityQueryScreen.kt:53-59 | with July and August readings, July's fee is billed 0 |
| ElectricityQuery.FeeStep | app/src/main/java/com/stevedaydream/tenantapp/ui/ElectricityQueryScreen.kt:48-60 | one group of `forEach` settles that room's fee from its first reading of the month |
| ElectricityQuery.QueryScreen.constructor | app/src/main/java/com/stevedaydream/tenantapp/ui/ElectricityQueryScreen.kt:29-37 | first composition: both collected lists are still empty, so no room is selected, the month is "", there are no fees and the button is disabled |
| ElectricityQuery.QueryScreen.ToggleRoom | app/src/main/java/com/stevedaydream/tenantapp/ui/ElectricityQueryScreen.kt:139-145 | a chip click toggles that room and changes nothing else |
| ElectricityQuery.QueryScreen.CalculateFees | app/src/main/java/com/stevedaydream/tenantapp/ui/ElectricityQueryScreen.kt:42-65 | the loop leaves exactly `QueryFees` of the table in `calculatedFees` |
| ElectricityCalcVm.InitialState | app/src/main/java/com/stevedaydream/tenantapp/ui/ElectricityCalcViewModel.kt:23-34 | `UiState()` holds today's month, no rooms, empty inputs and locks, the picker closed and nothing to save |
| ElectricityCalcVm.LoadedText | app/src/main/java/com/stevedaydream/tenantapp/ui/ElectricityCalcViewModel.kt:67-70 | a room's loaded input is "" exactly when the month has no reading, else that reading's printed value, which parses back |
| ElectricityCalcVm.PrintedReadsBack | app/src/main/java/com/stevedaydream/tenantapp/ui/ElectricityCalcViewModel.kt:69 | a printed `Int` reading parses back to itself |
| ElectricityCalcVm.UsageOf | app/src/main/java/com/stevedaydream/tenantapp/ui/ElectricityCalcViewModel.kt:80-88 | a usage exists only when the two latest readings hold the month and another month, and is the month's value minus the other's, wrapped to a 32-bit `Int` |
| ElectricityCalcVm.FeeOf | app/src/main/java/com/stevedaydream/tenantapp/ui/ElectricityCalcViewModel.kt:86 | the fee is exactly 5 times the usage whenever there is a usage |
| ElectricityCalcVm.LoadedTexts | app/src/main/java/com/stevedaydream/tenantapp/ui/ElectricityCalcViewModel.kt:67-70 | the loaded inputs have exactly the listed rooms as keys |
| ElectricityCalcVm.LoadedLocks | app/src/main/java/com/stevedaydream/tenantapp/ui/ElectricityCalcViewModel.kt:71-73 | the loaded locks have exactly the listed rooms as keys |
| ElectricityCalcVm.Loaded | app/src/main/java/com/stevedaydream/tenantapp/ui/ElectricityCalcViewModel.kt:61-110 | after loading: the month is set, the message cleared, and the inputs and locks cover exactly the listed rooms |
| ElectricityCalcVm.LoadedLocksReadings | app/src/main/java/com/stevedaydream/tenantapp/ui/ElectricityCalcViewModel.kt:64-95 | after loading a room is locked iff the month has its reading, and nothing can be saved |
| ElectricityCalcVm.LoadedFeesAreFiveTimesUsage | app/src/main/java/com/stevedaydream/tenantapp/ui/ElectricityCalcViewModel.kt:76-89 | after loading, the fee map is 5 times the usage map, room by room |
| ElectricityCalcVm.WithMonth | app/src/main/java/com/stevedaydream/tenantapp/ui/ElectricityCalcViewModel.kt:118-136 | a new month resets inputs, locks, usages, fees and message; the same month only closes the picker |
| ElectricityCalcVm.SelectedMonthText | app/src/main/java/com/stevedaydream/tenantapp/ui/ElectricityCalcViewModel.kt:147-150 | the picked year and 0-based month print as "yyyy-MM" of the next month number and parse back |
| ElectricityCalcVm.SelectedMonthReadsBack | app/src/main/java/com/stevedaydream/tenantapp/ui/ElectricityCalcViewModel.kt:148 | the printed picked month parses back to the picked month |
| ElectricityCalcVm.MonthStart | app/src/main/java/com/stevedaydream/tenantapp/ui/ElectricityCalcViewModel.kt:153-158 | the calendar starts on the 1st of the parsed month, or on today when the text does not parse |
| ElectricityCalcVm.StepFromPrintedMonth | app/src/main/java/com/stevedaydream/tenantapp/ui/ElectricityCalcViewModel.kt:152-174 | previous/next from a printed month lands exactly delta months away |
| ElectricityCalcVm.AnyParsesIff | app/src/main/java/com/stevedaydream/tenantapp/ui/ElectricityCalcViewModel.kt:180 | the `isNotBlank` test in `canSave` adds nothing |
| ElectricityCalcVm.WithInput | app/src/main/java/com/stevedaydream/tenantapp/ui/ElectricityCalcViewModel.kt:177-182 | an input edit changes that room's text only, and `canSave` holds iff some input parses |
| ElectricityCalcVm.WithLockToggled | app/src/main/java/com/stevedaydream/tenantapp/ui/ElectricityCalcViewModel.kt:184-201 | the lock flips for that room only; unlocking clears its input; `canSave` iff some input parses |
| ElectricityCalcVm.LockToggleTwice | app/src/main/java/com/stevedaydream/tenantapp/ui/ElectricityCalcViewModel.kt:184-201 | toggling a lock twice restores it |
| ElectricityCalcVm.ToSave | app/src/main/java/com/stevedaydream/tenantapp/ui/ElectricityCalcViewModel.kt:210-224 | no more records than listed rooms |
| ElectricityCalcVm.ToSaveSound | app/src/main/java/com/stevedaydream/tenantapp/ui/ElectricityCalcViewModel.kt:210-224 | each record to save is a fresh row of the current month holding a savable room's parsed input, and each savable room gets one |
| ElectricityCalcVm.ElectricityCalcViewModel.constructor | app/src/main/java/com/stevedaydream/tenantapp/ui/ElectricityCalcViewModel.kt:38 | the state starts as `UiState()` on today's month |
| ElectricityCalcVm.ElectricityCalcViewModel.LoadInitialDataForCurrentMonth | app/src/main/java/com/stevedaydream/tenantapp/ui/ElectricityCalcViewModel.kt:61-110 | the loops leave exactly the `Loaded` state for the table's rows |
| ElectricityCalcVm.ElectricityCalcViewModel.OnRoomListChanged | app/src/main/java/com/stevedaydream/tenantapp/ui/ElectricityCalcViewModel.kt:44-53 | a new room list is stored and the current month reloaded |
| ElectricityCalcVm.ElectricityCalcViewModel.UpdateMonthAndResetState | app/src/main/java/com/stevedaydream/tenantapp/ui/ElectricityCalcViewModel.kt:118-136 | the state becomes `WithMonth` of the new month |
| ElectricityCalcVm.ElectricityCalcViewModel.OnShowMonthPicker | app/src/main/java/com/stevedaydream/tenantapp/ui/ElectricityCalcViewModel.kt:139-141 | only the picker flag is set |
| ElectricityCalcVm.ElectricityCalcViewModel.OnDismissMonthPicker | app/src/main/java/com/stevedaydream/tenantapp/ui/ElectricityCalcViewModel.kt:143-145 | only the picker flag is cleared |
| ElectricityCalcVm.ElectricityCalcViewModel.OnMonthSelected | app/src/main/java/com/stevedaydream/tenantapp/ui/ElectricityCalcViewModel.kt:147-150 | the month becomes the picked month's text |
| ElectricityCalcVm.ElectricityCalcViewModel.StepMonth | app/src/main/java/com/stevedaydream/tenantapp/ui/ElectricityCalcViewModel.kt:152-174 | the month moves by delta on a calendar started from the current month text |
| ElectricityCalcVm.ElectricityCalcViewModel.OnPreviousMonth | app/src/main/java/com/stevedaydream/tenantapp/ui/ElectricityCalcViewModel.kt:152-162 | the month moves back by one |
| ElectricityCalcVm.ElectricityCalcViewModel.OnNextMonth | app/src/main/java/com/stevedaydream/tenantapp/ui/ElectricityCalcViewModel.kt:164-174 | the month moves on by one |
| ElectricityCalcVm.ElectricityCalcViewModel.OnMeterValueChange | app/src/main/java/com/stevedaydream/tenantapp/ui/ElectricityCalcViewModel.kt:177-182 | the state becomes `WithInput` |
| ElectricityCalcVm.ElectricityCalcViewModel.OnLockToggle | app/src/main/java/com/stevedaydream/tenantapp/ui/ElectricityCalcViewModel.kt:184-201 | the state becomes `WithLockToggled` |
| ElectricityCalcVm.ElectricityCalcViewModel.SaveAndCalculate | app/src/main/java/com/stevedaydream/tenantapp/ui/ElectricityCalcViewModel.kt:204-245 | with records to save they are inserted in order and the month reloaded; with none nothing is written and the error shows |
| ElectricityCalc.BlankInputs | app/src/main/java/com/stevedaydream/tenantapp/ui/ElectricityCalcScreen.kt:41-46 | the reset effect gives every listed room the input "" and no other key |
| ElectricityCalc.Readings | app/src/main/java/com/stevedaydream/tenantapp/ui/ElectricityCalcScreen.kt:96-109 | no more readings than listed rooms |
| ElectricityCalc.ReadingsSound | app/src/main/java/com/stevedaydream/tenantapp/ui/ElectricityCalcScreen.kt:96-109 | each written reading is a fresh row of the month text holding a parsed input, and a room gets one exactly when its input parses |
| ElectricityCalc.SaveWritesParsedRooms | app/src/main/java/com/stevedaydream/tenantapp/ui/ElectricityCalcScreen.kt:95-110 | a room whose input parses gets its reading written after the existing rows, even when other inputs fail |
| ElectricityCalc.LatestUsageDefined | app/src/main/java/com/stevedaydream/tenantapp/ui/ElectricityCalcScreen.kt:113-117 | a room shows a usage exactly when it has two readings or more |
| ElectricityCalc.LatestUsageNewestMinusNext | app/src/main/java/com/stevedaydream/tenantapp/ui/ElectricityCalcScreen.kt:114-116 | the usage is the newest reading minus the next newest, wrapped to a 32-bit `Int`, whatever their months: two different rows of the room, the first no older than any of its readings and every other reading no newer than the second |
| ElectricityCalc.NewestAndNextAreTwoRows | app/src/main/java/com/stevedaydream/tenantapp/ui/ElectricityCalcScreen.kt:114-116 | the newest and next-newest readings the usage is taken from are two different rows of the room |
| ElectricityCalc.LatestUsageAgrees | app/src/main/java/com/stevedaydream/tenantapp/ui/ElectricityCalcScreen.kt:114-116 | when the newest reading is the month's and the other is not, the screen agrees with the view model |
| ElectricityCalc.LatestUsageIgnoresMonth | app/src/main/java/com/stevedaydream/tenantapp/ui/ElectricityCalcScreen.kt:114-116 | otherwise they disagree: July entered with July and August readings shows 30 here, -30 in the view model |
| ElectricityCalc.CalcScreen.constructor | app/src/main/java/com/stevedaydream/tenantapp/ui/ElectricityCalcScreen.kt:34-37 | today's month, no rooms, no inputs, no usages, no message |
| ElectricityCalc.CalcScreen.ResetInputs | app/src/main/java/com/stevedaydream/tenantapp/ui/ElectricityCalcScreen.kt:41-46 | the effect blanks every listed room's input and clears the usages |
| ElectricityCalc.CalcScreen.OnRoomListChanged | app/src/main/java/com/stevedaydream/tenantapp/ui/ElectricityCalcScreen.kt:41-46 | a different room list re-runs the reset; the same list changes nothing |
| ElectricityCalc.CalcScreen.OnMonthTextChange | app/src/main/java/com/stevedaydream/tenantapp/ui/ElectricityCalcScreen.kt:71-75 | the month text is taken as typed; a change re-runs the reset |
| ElectricityCalc.CalcScreen.OnMeterEdit | app/src/main/java/com/stevedaydream/tenantapp/ui/ElectricityCalcScreen.kt:83-85 | only that room's input changes |
| ElectricityCalc.CalcScreen.Save | app/src/main/java/com/stevedaydream/tenantapp/ui/ElectricityCalcScreen.kt:93-120 | the readings are written, the message tells whether every input parsed, and the usages come from the new table |
| ElectricityCalc.CalcScreen.WriteReadings | app/src/main/java/com/stevedaydream/tenantapp/ui/ElectricityCalcScreen.kt:95-110 | the loop writes exactly `Readings` and reports an error iff some input fails |
| ElectricityCalc.CalcScreen.UsageOfRooms | app/src/main/java/com/stevedaydream/tenantapp/ui/ElectricityCalcScreen.kt:112-119 | the loop leaves each listed room's usage from its two newest readings |
| ExcelImport.Cells | app/src/main/java/com/stevedaydream/tenantapp/ui/ExcelImportScreen.kt:196 | a row read cell by cell has one value per column |
| ExcelImport.RowValues | app/src/main/java/com/stevedaydream/tenantapp/ui/ExcelImportScreen.kt:199-200 | one trimmed value per column |
| ExcelImport.Headers | app/src/main/java/com/stevedaydream/tenantapp/ui/ExcelImportScreen.kt:196 | one trimmed header per column |
| ExcelImport.Preview | app/src/main/java/com/stevedaydream/tenantapp/ui/ExcelImportScreen.kt:197-203 | one map per row below the header row |
| ExcelImport.RowMapKeys | app/src/main/java/com/stevedaydream/tenantapp/ui/ExcelImportScreen.kt:199-201 | a row's keys are exactly its columns' headers |
| ExcelImport.RowMapLastWins | app/src/main/java/com/stevedaydream/tenantapp/ui/ExcelImportScreen.kt:199-201 | for a repeated header the last column's value wins |
| ExcelImport.PreviewTrimmed | app/src/main/java/com/stevedaydream/tenantapp/ui/ExcelImportScreen.kt:200 | every preview value is trimmed |
| ExcelImport.HeaderInEveryRow | app/src/main/java/com/stevedaydream/tenantapp/ui/ExcelImportScreen.kt:196-201 | every header of the first row is a key of every preview row |
| ExcelImport.RowToRoom | app/src/main/java/com/stevedaydream/tenantapp/ui/ExcelImportScreen.kt:224-237 | a row gives a room exactly when it has a "房號" key |
| ExcelImport.RowToRecord | app/src/main/java/com/stevedaydream/tenantapp/ui/ExcelImportScreen.kt:244-247 | a row gives a reading exactly when it has "房號" and "月份" and a "度數" that parses |
| ExcelImport.RoomRowRoundTrip | app/src/main/java/com/stevedaydream/tenantapp/ui/ExcelImportScreen.kt:225-237 | a room written under the template's headers reads back as itself |
| ExcelImport.RecordRowRoundTrip | app/src/main/java/com/stevedaydream/tenantapp/ui/ExcelImportScreen.kt:244-247 | a fresh reading written under the template's headers reads back as itself |
| ExcelImport.Rooms | app/src/main/java/com/stevedaydream/tenantapp/ui/ExcelImportScreen.kt:223-238 | at most one room per row |
| ExcelImport.Records | app/src/main/java/com/stevedaydream/tenantapp/ui/ExcelImportScreen.kt:243-248 | at most one reading per row |
| ExcelImport.RoomsSound | app/src/main/java/com/stevedaydream/tenantapp/ui/ExcelImportScreen.kt:223-238 | every imported room comes from a row that converts to it |
| ExcelImport.RecordsSound | app/src/main/java/com/stevedaydream/tenantapp/ui/ExcelImportScreen.kt:243-248 | every imported reading comes from a row that converts to it |
| ExcelImport.RoomsComplete | app/src/main/java/com/stevedaydream/tenantapp/ui/ExcelImportScreen.kt:223-238 | every row that converts contributes its room |
| ExcelImport.RecordsComplete | app/src/main/java/com/stevedaydream/tenantapp/ui/ExcelImportScreen.kt:243-248 | every row that converts contributes its reading |
| ExcelImport.AllRowsAreRooms | app/src/main/java/com/stevedaydream/tenantapp/ui/ExcelImportScreen.kt:224 | when every row has "房號", every row becomes a room |
| ExcelImport.HeaderedSheetImportsEveryRow | app/src/main/java/com/stevedaydream/tenantapp/ui/ExcelImportScreen.kt:196-238 | a sheet with a "房號" header imports every data row as a room |
| ExcelImport.RoomTemplateImportsInFull | app/src/main/java/com/stevedaydream/tenantapp/ui/ExcelImportScreen.kt:36-43 | both demo rows of the room template import as rooms |
| ExcelImport.MeterTemplatePreview | app/src/main/java/com/stevedaydream/tenantapp/ui/ExcelImportScreen.kt:65-72 | the meter template previews as its demo rows keyed by its headers |
| ExcelImport.MeterTemplateRowsConvert | app/src/main/java/com/stevedaydream/tenantapp/ui/ExcelImportScreen.kt:69-72 | each meter demo row converts to its demo reading |
| ExcelImport.DemoReadingsParse | app/src/main/java/com/stevedaydream/tenantapp/ui/ExcelImportScreen.kt:70-71 | the demo readings "126" and "98" parse |
| ExcelImport.MeterTemplateImportsInFull | app/src/main/java/com/stevedaydream/tenantapp/ui/ExcelImportScreen.kt:65-72 | the meter template imports exactly its two demo readings |
| ExcelImport.ParseExcelPreview | app/src/main/java/com/stevedaydream/tenantapp/ui/ExcelImportScreen.kt:190-211 | the nested loops return exactly the preview of the sheet, and nothing without one |
| ExcelImport.ImportExcelToDb | app/src/main/java/com/stevedaydream/tenantapp/ui/ExcelImportScreen.kt:214-254 | "房間" inserts the converting rooms, "電表" the converting readings, anything else writes nothing; the message counts them |
| RoomManage.DigitFilter | app/src/main/java/com/stevedaydream/tenantapp/ui/RoomManageScreen.kt:209 | the rent text keeps only digits and never grows |
| RoomManage.DigitFilterKeepsDigits | app/src/main/java/com/stevedaydream/tenantapp/ui/RoomManageScreen.kt:209 | every digit is kept as often as it occurs, every other character dropped |
| RoomManage.DigitFilterOfDigits | app/src/main/java/com/stevedaydream/tenantapp/ui/RoomManageScreen.kt:209 | digits pass unchanged, so filtering is idempotent |
| RoomManage.DepositAsWrittenOverflows | app/src/main/java/com/stevedaydream/tenantapp/ui/RoomManageScreen.kt:210-211 | as written, any rent from 1073741824 up shows a negative deposit |
| RoomManage.DepositAsWrittenExample | app/src/main/java/com/stevedaydream/tenantapp/ui/RoomManageScreen.kt:211 | the rent 1500000000 doubles to -1294967296 in `Int` |
| RoomManage.DepositText | app/src/main/java/com/stevedaydream/tenantapp/ui/RoomManageScreen.kt:210-211 | the deposit is "" exactly when the rent is not positive |
| RoomManage.DepositIsTwiceRent | app/src/main/java/com/stevedaydream/tenantapp/ui/RoomManageScreen.kt:210-211 | the deposit text is a digit run whose value is twice the rent |
| RoomManage.InitialAmountRoundTrip | app/src/main/java/com/stevedaydream/tenantapp/ui/RoomManageScreen.kt:138-139 | a stored amount's initial text ("" for 0) saves back as that amount |
| RoomManage.LeaseEnd | app/src/main/java/com/stevedaydream/tenantapp/ui/RoomManageScreen.kt:174-186 | the end date is a valid date |
| RoomManage.LeaseEndAfterStart | app/src/main/java/com/stevedaydream/tenantapp/ui/RoomManageScreen.kt:174-186 | the lease ends after it starts for every term option |
| RoomManage.LeaseEndOneYearExample | app/src/main/java/com/stevedaydream/tenantapp/ui/RoomManageScreen.kt:174-186 | a one-year lease from 2024-07-01 ends on 2025-06-30 |
| RoomManage.LeaseEndHalfYearClampExample | app/src/main/java/com/stevedaydream/tenantapp/ui/RoomManageScreen.kt:174-186 | a half-year lease from 2024-08-31 is clamped to 2025-02-28, then ends on 2025-02-27 |
| RoomManage.EndDateOfPickedStart | app/src/main/java/com/stevedaydream/tenantapp/ui/RoomManageScreen.kt:164-186 | a picked start date yields the printed end of its lease |
| RoomManage.BlankStartHasNoEnd | app/src/main/java/com/stevedaydream/tenantapp/ui/RoomManageScreen.kt:187-189 | a blank start date (parse failure) yields the end date "" |
| RoomManage.SavedRoom | app/src/main/java/com/stevedaydream/tenantapp/ui/RoomManageScreen.kt:265-280 | the save button hands over a room exactly when the room number is not blank |
| RoomManage.SavedDepositIsTwiceRent | app/src/main/java/com/stevedaydream/tenantapp/ui/RoomManageScreen.kt:270-271 | a derived deposit is saved as twice the saved rent while that fits an `Int` |
| RoomManage.RoomEditDialog.constructor | app/src/main/java/com/stevedaydream/tenantapp/ui/RoomManageScreen.kt:134-147 | the dialog opens on the room's fields, amounts as initial texts, the one-year option and its end date |
| RoomManage.RoomEditDialog.RecomputeEndDate | app/src/main/java/com/stevedaydream/tenantapp/ui/RoomManageScreen.kt:170-190 | the Calendar steps leave exactly `EndDateText` of the start text and option |
| RoomManage.RoomEditDialog.OnTextChange | app/src/main/java/com/stevedaydream/tenantapp/ui/RoomManageScreen.kt:202-204 | typing changes that field only |
| RoomManage.RoomEditDialog.OnRentAmountChange | app/src/main/java/com/stevedaydream/tenantapp/ui/RoomManageScreen.kt:208-212 | the rent keeps its digits and the deposit follows from them |
| RoomManage.RoomEditDialog.OnDurationSelected | app/src/main/java/com/stevedaydream/tenantapp/ui/RoomManageScreen.kt:228 | the option changes and the end date follows it |
| RoomManage.RoomEditDialog.OnStartDatePicked | app/src/main/java/com/stevedaydream/tenantapp/ui/RoomManageScreen.kt:246 | the start text becomes the printed date and the end date follows it |
| RoomManage.RoomEditDialog.SaveKeepsDuration | app/src/main/java/com/stevedaydream/tenantapp/ui/RoomManageScreen.kt:277 | the saved duration text is the opened room's: the term option is never saved |
| RoomManage.RoomEditDialog.DeleteOfferedWhenEditing | app/src/main/java/com/stevedaydream/tenantapp/ui/RoomManageScreen.kt:194 | delete is offered exactly when the title reads "編輯房間" |
| RoomManage.RoomManageScreen.constructor | app/src/main/java/com/stevedaydream/tenantapp/ui/RoomManageScreen.kt:36-37 | no room being edited and no dialog |
| RoomManage.RoomManageScreen.OnAddClicked | app/src/main/java/com/stevedaydream/tenantapp/ui/RoomManageScreen.kt:69-70 | the dialog opens on a blank room |
| RoomManage.RoomManageScreen.OnRoomClicked | app/src/main/java/com/stevedaydream/tenantapp/ui/RoomManageScreen.kt:84-85 | the dialog opens on the clicked room |
| RoomManage.RoomManageScreen.OnDismiss | app/src/main/java/com/stevedaydream/tenantapp/ui/RoomManageScreen.kt:108 | the dialog closes |
| RoomManage.RoomManageScreen.OnConfirm | app/src/main/java/com/stevedaydream/tenantapp/ui/RoomManageScreen.kt:109-114 | a non-blank room is REPLACE-inserted and the dialog closes; a renamed room's old row stays |
| RoomManage.RoomManageScreen.OnDelete | app/src/main/java/com/stevedaydream/tenantapp/ui/RoomManageScreen.kt:115-120 | the room's row is removed and the dialog closes |
| ContractPreview.MaskId | app/src/main/java/com/stevedaydream/tenantapp/ui/ContractPreviewScreen.kt:51-55 | masking keeps the length |
| ContractPreview.MaskPhone | app/src/main/java/com/stevedaydream/tenantapp/ui/ContractPreviewScreen.kt:57-61 | masking keeps the length |
| ContractPreview.MaskIdAt | app/src/main/java/com/stevedaydream/tenantapp/ui/ContractPreviewScreen.kt:51-55 | each position shows the id's character when among the first two or last three of an id of 5 or more, else '*' |
| ContractPreview.MaskIdFiveUnchanged | app/src/main/java/com/stevedaydream/tenantapp/ui/ContractPreviewScreen.kt:52-53 | a five-character id comes back unchanged |
| ContractPreview.MaskIdShortAllStars | app/src/main/java/com/stevedaydream/tenantapp/ui/ContractPreviewScreen.kt:54 | an id shorter than 5 is all stars |
| ContractPreview.MaskIdIdempotent | app/src/main/java/com/stevedaydream/tenantapp/ui/ContractPreviewScreen.kt:51-55 | masking a masked id changes nothing |
| ContractPreview.MaskPhoneIsMaskId | app/src/main/java/com/stevedaydream/tenantapp/ui/ContractPreviewScreen.kt:57-61 | `maskPhone` and `maskId` agree on every input |
| ContractPreview.LandlordIdShown | app/src/main/java/com/stevedaydream/tenantapp/ui/ContractPreviewScreen.kt:49 | the landlord's id shows as "A1*****789" |
| ContractPreview.ContractEnd | app/src/main/java/com/stevedaydream/tenantapp/ui/ContractPreviewScreen.kt:110-118 | the contract end is a valid date |
| ContractPreview.ContractRunsHalfYear | app/src/main/java/com/stevedaydream/tenantapp/ui/ContractPreviewScreen.kt:110-118 | a contract runs at least six months and ends after it starts |
| ContractPreview.LeaseEndsDayBeforeContract | app/src/main/java/com/stevedaydream/tenantapp/ui/ContractPreviewScreen.kt:110-119 | for the shared options the room dialog's lease ends the day before the contract |
| ContractPreview.ContractEndLeapDayExample | app/src/main/java/com/stevedaydream/tenantapp/ui/ContractPreviewScreen.kt:117 | two years from 2024-02-29 ends on 2026-02-28 |
| ContractPreview.ContractEndOfPrintedStart | app/src/main/java/com/stevedaydream/tenantapp/ui/ContractPreviewScreen.kt:109-119 | a printed start date yields the printed end of the contract |
| ContractPreview.UnparseableStartHasNoEnd | app/src/main/java/com/stevedaydream/tenantapp/ui/ContractPreviewScreen.kt:120-122 | in the model, a start text not beginning with a digit yields "" |
| ContractPreview.ContractForm.constructor | app/src/main/java/com/stevedaydream/tenantapp/ui/ContractPreviewScreen.kt:66-90 | a one-year contract starting today, no room chosen, its end date computed |
| ContractPreview.ContractForm.RecomputeEndDate | app/src/main/java/com/stevedaydream/tenantapp/ui/ContractPreviewScreen.kt:106-123 | the Calendar steps leave exactly `ContractEndText` of the start text and period |
| ContractPreview.ContractForm.OnPeriodSelected | app/src/main/java/com/stevedaydream/tenantapp/ui/ContractPreviewScreen.kt:312 | the period changes and the end date follows it |
| ContractPreview.ContractForm.OnStartDatePicked | app/src/main/java/com/stevedaydream/tenantapp/ui/ContractPreviewScreen.kt:301 | the start becomes the printed date and the end date its contract end |
| ContractPreview.ContractForm.OnRoomListChanged | app/src/main/java/com/stevedaydream/tenantapp/ui/ContractPreviewScreen.kt:227-231 | with no room chosen and a non-empty list the first room is chosen; otherwise nothing changes |
| ContractPreview.ContractForm.OnRoomPicked | app/src/main/java/com/stevedaydream/tenantapp/ui/ContractPreviewScreen.kt:276-279 | the picked room's number becomes the selection |
| LandlordHome.MaskCode | app/src/main/java/com/stevedaydream/tenantapp/ui/LandlordHomeScreen.kt:37-40 | masking keeps the code's length |
| LandlordHome.MaskCodeAt | app/src/main/java/com/stevedaydream/tenantapp/ui/LandlordHomeScreen.kt:37-40 | each position shows the code's character when among the first two or last two of a code longer than 4, else '*' |
| LandlordHome.MaskCodeIdempotent | app/src/main/java/com/stevedaydream/tenantapp/ui/LandlordHomeScreen.kt:37-40 | masking a masked code changes nothing |
| LandlordHome.EightCharacterCodeMasked | app/src/main/java/com/stevedaydream/tenantapp/ui/LandlordHomeScreen.kt:39 | an eight-character code shows two characters, four stars, two characters |
| LandlordHome.ToggleVisible | app/src/main/java/com/stevedaydream/tenantapp/ui/LandlordHomeScreen.kt:81 | the button flips visibility |
| LandlordHome.ShownCodeToggle | app/src/main/java/com/stevedaydream/tenantapp/ui/LandlordHomeScreen.kt:78-81 | the raw code shows exactly when visible, and two presses restore the view |
| LandlordHome.ShownAnnouncements | app/src/main/java/com/stevedaydream/tenantapp/ui/LandlordHomeScreen.kt:100 | at most three announcements are listed |
| LandlordHome.ShownAnnouncementsArePrefix | app/src/main/java/com/stevedaydream/tenantapp/ui/LandlordHomeScreen.kt:100 | they are the first ones in order, all of them when there are at most three |
| Register.FindByUsername | app/src/main/java/com/stevedaydream/tenantapp/data/UserDao.kt:13-14 | a found user has that name; none is found exactly when no user has it |
| Register.LandlordCode | app/src/main/java/com/stevedaydream/tenantapp/ui/RegisterScreen.kt:88 | a code exists exactly for the role "landlord" |
| Register.LandlordCodeShape | app/src/main/java/com/stevedaydream/tenantapp/ui/RegisterScreen.kt:88 | the code has eight characters and no lower-case letter |
| Register.UserStore.Insert | app/src/main/java/com/stevedaydream/tenantapp/data/UserDao.kt:7-8 | the user is appended with the next generated id |
| Register.RegisterForm.constructor | app/src/main/java/com/stevedaydream/tenantapp/ui/RegisterScreen.kt:40-46 | empty fields, role "tenant", no message |
| Register.RegisterForm.NewUser | app/src/main/java/com/stevedaydream/tenantapp/ui/RegisterScreen.kt:89-96 | the row holds exactly the entered username, password, phone, ID number and role |
| Register.RegisterForm.Submit | app/src/main/java/com/stevedaydream/tenantapp/ui/RegisterScreen.kt:73-111 | blank fields first, then differing passwords, then a taken name are reported with nothing written; otherwise exactly the new user is appended |
| Register.RegistrationKeepsUsernamesUnique | app/src/main/java/com/stevedaydream/tenantapp/ui/RegisterScreen.kt:83-96 | registering through the check keeps usernames unique |
| Register.RegisteredNameIsTaken | app/src/main/java/com/stevedaydream/tenantapp/ui/RegisterScreen.kt:83-85 | a registered name is found taken by the next registration |
| ElectricityQuery.QueryScreen.SelectMonth | app/src/main/java/com/stevedaydream/tenantapp/ui/ElectricityQueryScreen.kt:119-122 | a month picked from the menu becomes the selection; nothing else changes |
| ElectricityQuery.RoomsWithMonthIff | app/src/main/java/com/stevedaydream/tenantapp/ui/ElectricityQueryScreen.kt:45-47 | a room is among the month's groups exactly when `getRecord` finds its reading for the month |
| MeterStore.CountRoomMonth | app/src/main/java/com/stevedaydream/tenantapp/data/ElectricMeterRecord.kt:8-13 | the number of rows for one room and month is zero exactly when `getRecord` finds none |
| ExcelImport.UntrimmedRow | app/src/main/java/com/stevedaydream/tenantapp/ui/ExcelImportScreen.kt:200 | a full-width row with no surrounding whitespace reads back as its cells |
| ExcelImport.TemplatePreview | app/src/main/java/com/stevedaydream/tenantapp/ui/ExcelImportScreen.kt:196-203 | a sheet written like a template previews as its header row keyed onto each data row |

## Left out

- I/O is not modelled:
  - File access and the Excel workbook library: a sheet is a grid of cell texts with its column count.
  - Writing the two template files: only their headers and demo rows are modelled.
  - PDF export and the contract's printed text.
  - The content resolver and the date-picker dialogs: a picked date is a parameter.
- Concurrency is not modelled: coroutines, `Flow` collection, and the gap between a check and an insert.
  - In particular, two registrations of the same name running at once can both pass the username check.
  - Each handler is modelled as one atomic step.
- The clock and randomness are parameters: "today" is a `Date` and the random UUID is a `string`.
- Toasts, navigation, snackbars and `messageType` colours are not modelled, beyond the message texts stored in state.
- Fees are not modelled as floating point. The view model stores `usedVal * 5.0f` as a `Float`; the model keeps the exact integer 5 × usage. `Float` rounding above 2^24 is not modelled.
- `Char.isDigit()` and the digits `toIntOrNull()` accepts are modelled as the ASCII digits 0-9 only. Kotlin also accepts other Unicode decimal digits (full-width "３" parses as 3), which the model rejects. `isWhitespace()` follows Kotlin's definition in full.
- Years before 1 and `SimpleDateFormat` details are not modelled: time zones, and text after the last field beyond the digit run. Dates are proleptic Gregorian.
- Dates.ParseDate: requires a digit at the start of each numeric field, and so does `Dates.ParseYearMonth`. `SimpleDateFormat` skips spaces and tabs before a numeric field, so "2024- 07-01" and " 2024/07/01" parse in the app but give no date in the model.
- ContractPreview.UnparseableStartHasNoEnd: holds in the model only. In the app, a start text of spaces or tabs followed by a date still parses and yields an end date.
- Text.ToUpper: maps only ASCII a-z. Kotlin's `uppercase()` covers all of Unicode and can change the length ("ß" becomes "SS"). It is exact for the hexadecimal UUID prefix it is applied to.
- Strings are sequences of Unicode scalar values, not UTF-16 code units. Lengths, substrings and `takeLast` in `ContractPreview.MaskId`, `ContractPreview.MaskPhone` and `LandlordHome.MaskCode`, and the order `Text.LessEq`, differ from Kotlin for characters beyond the Basic Multilingual Plane. The values the app passes them are ASCII in practice.
- `RoomDao.getRoomsByLandlordCode` and the `landlordCode` passed when importing a room are not modelled. `RoomEntity` has no such column in app/src/main/java/com/stevedaydream/tenantapp/data/Room.kt:7-18.
- `UserDao.login`, `UserDao.getUserById`, the announcement, repair-report and database-setup DAOs, and the screens built on them are not part of this model.
- Ties in `ORDER BY recordMonth DESC LIMIT 2` between two readings of the same month are not modelled. SQLite does not fix their order; the model promises only the ordering by month.
- ExcelImport.RoomTemplateImportsInFull: proves that both demo rows import as rooms, not the value of every field.
- RoomManage.DepositText: the corrected deposit is exact for any rent. When twice the rent exceeds `Int`, the saved deposit parses as 0.
- LandlordHome.ShownCodeToggle: requires a non-empty code with no `*`. A code made only of stars looks the same masked and unmasked.

## Findings

| source | as written | input that shows it | evidently intended | confidence | as-written member | corrected member |
|---|---|---|---|---|---|---|
| app/src/main/java/com/stevedaydream/tenantapp/ui/ElectricityQueryScreen.kt:54-56 | the usage and `usage * 5` are computed in 32-bit `Int` | readings 500000000 (current) and 0 (previous) give the fee -1794967296 | the fee is 5 × usage, never negative | not executed | ElectricityQuery.FeeAsWrittenOverflows | ElectricityQuery.Fee |
| app/src/main/java/com/stevedaydream/tenantapp/ui/RoomManageScreen.kt:210-211 | the deposit is `(amount * 2).toString()` in 32-bit `Int` | the rent "1500000000" shows the deposit "-1294967296" | the deposit is twice the rent | not executed | RoomManage.DepositAsWrittenOverflows | RoomManage.DepositText |
