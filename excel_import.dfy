/**
 * The Excel import screen: the first sheet of a workbook read as a list of
 * rows keyed by the header row, and those rows turned into rooms or meter
 * readings and written to their tables. The workbook itself is a grid of
 * cell texts; reading the file is outside the model.
 */
module ExcelImport {
  import opened Options
  import opened Text
  import opened MeterStore
  import opened RoomStore

  /**
   * The first sheet of a workbook: its column count and the cell texts row
   * by row. A cell a row does not store reads as "" (an empty cell).
   */
  datatype Sheet = Sheet(columns: nat, cells: seq<seq<string>>)

  /** `sheet.getCell(col, row).contents`. */
  function Contents(sheet: Sheet, col: nat, row: nat): string {
    if row < |sheet.cells| && col < |sheet.cells[row]| then sheet.cells[row][col] else ""
  }

  /** `sheet.getCell(col, row).contents.trim()`. */
  function Cell(sheet: Sheet, col: nat, row: nat): string {
    Trim(Contents(sheet, col, row))
  }

  /** The trimmed texts of the first `n` cells of a row, left to right. */
  function Cells(sheet: Sheet, row: nat, n: nat): (v: seq<string>)
    ensures |v| == n
  {
    if n == 0 then [] else Cells(sheet, row, n - 1) + [Cell(sheet, n - 1, row)]
  }

  lemma {:induction false} CellsAt(sheet: Sheet, row: nat, n: nat, c: nat)
    requires c < n
    ensures Cells(sheet, row, n)[c] == Cell(sheet, c, row)
  {
    if c < n - 1 {
      CellsAt(sheet, row, n - 1, c);
    }
  }

  /** The trimmed cell texts of one row, one per column. */
  function RowValues(sheet: Sheet, row: nat): (v: seq<string>)
    ensures |v| == sheet.columns
  {
    Cells(sheet, row, sheet.columns)
  }

  /** The header names: the trimmed cells of the first row. */
  function Headers(sheet: Sheet): (h: seq<string>)
    ensures |h| == sheet.columns
  {
    RowValues(sheet, 0)
  }

  /** The map a row gives once its first `n` values are stored under their headers, left to right. */
  function RowMap(headers: seq<string>, values: seq<string>, n: nat): map<string, string>
    requires n <= |headers| && n <= |values|
  {
    if n == 0 then map[]
    else RowMap(headers, values, n - 1)[headers[n - 1] := values[n - 1]]
  }

  /** The map of one row below the header row. */
  function PreviewRow(sheet: Sheet, row: nat): map<string, string> {
    RowMap(Headers(sheet), RowValues(sheet, row), sheet.columns)
  }

  /** The maps of rows 1 to `n`, in order. */
  function PreviewRows(sheet: Sheet, n: nat): (rows: seq<map<string, string>>)
    ensures |rows| == n
  {
    if n == 0 then [] else PreviewRows(sheet, n - 1) + [PreviewRow(sheet, n)]
  }

  lemma {:induction false} PreviewRowsAt(sheet: Sheet, n: nat, r: nat)
    requires r < n
    ensures PreviewRows(sheet, n)[r] == PreviewRow(sheet, r + 1)
  {
    if r < n - 1 {
      PreviewRowsAt(sheet, n - 1, r);
    }
  }

  /** What `parseExcelPreview` returns for a sheet: one map per row below the header row. */
  function Preview(sheet: Sheet): (rows: seq<map<string, string>>)
    ensures |rows| == if |sheet.cells| == 0 then 0 else |sheet.cells| - 1
  {
    PreviewRows(sheet, if |sheet.cells| == 0 then 0 else |sheet.cells| - 1)
  }

  /**
   * The preview of what the file chooser hands over: no sheet stands for a
   * null input stream or a file that is not a workbook, and gives no rows.
   */
  function PreviewOf(input: Option<Sheet>): seq<map<string, string>> {
    match input
    case None => []
    case Some(sheet) => Preview(sheet)
  }

  /** A row's keys are exactly the headers of its first `n` columns. */
  lemma {:induction false} RowMapKeys(headers: seq<string>, values: seq<string>, n: nat, key: string)
    requires n <= |headers| && n <= |values|
    ensures key in RowMap(headers, values, n) <==> key in headers[..n]
  {
    if n > 0 {
      RowMapKeys(headers, values, n - 1, key);
      assert headers[..n] == headers[..n - 1] + [headers[n - 1]];
    }
  }

  /**
   * A key's value is the value of the LAST column with that header: a later
   * duplicate column wins.
   */
  lemma {:induction false} RowMapLastWins(headers: seq<string>, values: seq<string>, n: nat, c: nat)
    requires c < n <= |headers| && n <= |values|
    requires forall d :: c < d < n ==> headers[d] != headers[c]
    ensures headers[c] in RowMap(headers, values, n)
    ensures RowMap(headers, values, n)[headers[c]] == values[c]
  {
    if c < n - 1 {
      RowMapLastWins(headers, values, n - 1, c);
    }
  }

  /** Every value in a preview row is trimmed: trimming it again changes nothing. */
  lemma PreviewTrimmed(sheet: Sheet, r: nat, key: string)
    requires r < |Preview(sheet)| && key in Preview(sheet)[r]
    ensures Trim(Preview(sheet)[r][key]) == Preview(sheet)[r][key]
  {
    var headers, values := Headers(sheet), RowValues(sheet, r + 1);
    PreviewRowsAt(sheet, |Preview(sheet)|, r);
    RowMapKeys(headers, values, |headers|, key);
    var c :| 0 <= c < |headers| && headers[c] == key;
    var last := LastColumn(headers, |headers|, c);
    RowMapLastWins(headers, values, |headers|, last);
    CellsAt(sheet, r + 1, sheet.columns, last);
    TrimIdempotent(Contents(sheet, last, r + 1));
  }

  /** The last column before `n` with the header of column `c`. */
  function LastColumn(headers: seq<string>, n: nat, c: nat): (last: nat)
    requires c < n <= |headers|
    ensures c <= last < n && headers[last] == headers[c]
    ensures forall d :: last < d < n ==> headers[d] != headers[last]
    decreases n - c
  {
    if exists d :: c < d < n && headers[d] == headers[c] then
      var d :| c < d < n && headers[d] == headers[c];
      LastColumn(headers, n, d)
    else c
  }

  /** A header of the first row is a key of every preview row. */
  lemma HeaderInEveryRow(sheet: Sheet, key: string, c: nat)
    requires c < sheet.columns && Headers(sheet)[c] == key
    ensures forall m :: m in Preview(sheet) ==> key in m
  {
    var headers := Headers(sheet);
    forall m | m in Preview(sheet) ensures key in m {
      var r :| 0 <= r < |Preview(sheet)| && Preview(sheet)[r] == m;
      PreviewRowsAt(sheet, |Preview(sheet)|, r);
      RowMapKeys(headers, RowValues(sheet, r + 1), |headers|, key);
      assert headers[..|headers|][c] == key;
    }
  }

  // ------------------------------------------------------------ conversion

  /** `row[key] ?: ""`. */
  function TextOr(row: map<string, string>, key: string): string {
    if key in row then row[key] else ""
  }

  /** `row[key]?.toIntOrNull() ?: 0`. */
  function IntOr(row: map<string, string>, key: string): int {
    if key in row && ToIntOrNull(row[key]).Some? then ToIntOrNull(row[key]).value else 0
  }

  /** A row as a room: none without a "房號" key; status and duration are always "". */
  function RowToRoom(row: map<string, string>): (r: Option<RoomEntity>)
    ensures r.Some? <==> "房號" in row
  {
    if "房號" !in row then None
    else Some(RoomEntity(
      roomNumber := row["房號"],
      tenantName := TextOr(row, "租客姓名"),
      roomType := TextOr(row, "房型"),
      note := TextOr(row, "備註"),
      rentAmount := IntOr(row, "租金"),
      deposit := IntOr(row, "押金"),
      status := "",
      rentStartDate := TextOr(row, "起租日"),
      rentEndDate := TextOr(row, "結束日"),
      rentDuration := ""))
  }

  /** A row as a meter reading: none unless "房號" and "月份" are there and "度數" parses. */
  function RowToRecord(row: map<string, string>): (r: Option<MeterRecord>)
    ensures r.Some? <==> "房號" in row && "月份" in row && "度數" in row && ToIntOrNull(row["度數"]).Some?
  {
    if "房號" !in row || "月份" !in row || "度數" !in row then None
    else match ToIntOrNull(row["度數"])
      case None => None
      case Some(v) => Some(NewRecord(row["房號"], row["月份"], v))
  }

  /** The row a room would be written as under the room template's headers. */
  function RoomRow(room: RoomEntity): map<string, string> {
    map["房號" := room.roomNumber, "租客姓名" := room.tenantName, "房型" := room.roomType,
        "租金" := IntToString(room.rentAmount), "押金" := IntToString(room.deposit),
        "起租日" := room.rentStartDate, "結束日" := room.rentEndDate, "備註" := room.note]
  }

  /** The row a reading would be written as under the meter template's headers. */
  function RecordRow(record: MeterRecord): map<string, string> {
    map["房號" := record.roomNumber, "月份" := record.recordMonth, "度數" := IntToString(record.meterValue)]
  }

  /**
   * A room written under the template's headers reads back as itself, as
   * long as its amounts fit in an `Int` and it has no status or duration,
   * which the importer never fills in.
   */
  lemma RoomRowRoundTrip(room: RoomEntity)
    requires IsInt32(room.rentAmount) && IsInt32(room.deposit)
    requires room.status == "" && room.rentDuration == ""
    ensures RowToRoom(RoomRow(room)) == Some(room)
  {
    IntToStringRoundTrip(room.rentAmount);
    IntToStringRoundTrip(room.deposit);
  }

  /** A fresh reading written under the template's headers reads back as itself. */
  lemma RecordRowRoundTrip(record: MeterRecord)
    requires IsInt32(record.meterValue) && record.id == 0
    ensures RowToRecord(RecordRow(record)) == Some(record)
  {
    IntToStringRoundTrip(record.meterValue);
  }

  /** `data.mapNotNull { ... }` for rooms: the rows that convert, in order. */
  function Rooms(data: seq<map<string, string>>): (r: seq<RoomEntity>)
    ensures |r| <= |data|
  {
    if data == [] then []
    else
      var rest := Rooms(data[1..]);
      match RowToRoom(data[0])
      case Some(x) => [x] + rest
      case None => rest
  }

  /** `data.mapNotNull { ... }` for readings: the rows that convert, in order. */
  function Records(data: seq<map<string, string>>): (r: seq<MeterRecord>)
    ensures |r| <= |data|
  {
    if data == [] then []
    else
      var rest := Records(data[1..]);
      match RowToRecord(data[0])
      case Some(x) => [x] + rest
      case None => rest
  }

  /** Every room imported comes from a row that converts to it. */
  lemma {:induction false} RoomsSound(data: seq<map<string, string>>, x: RoomEntity)
    requires x in Rooms(data)
    ensures exists row :: row in data && RowToRoom(row) == Some(x)
  {
    if RowToRoom(data[0]) != Some(x) {
      RoomsSound(data[1..], x);
      var row :| row in data[1..] && RowToRoom(row) == Some(x);
      assert row in data;
    }
  }

  /** Every reading imported comes from a row that converts to it. */
  lemma {:induction false} RecordsSound(data: seq<map<string, string>>, x: MeterRecord)
    requires x in Records(data)
    ensures exists row :: row in data && RowToRecord(row) == Some(x)
  {
    if RowToRecord(data[0]) != Some(x) {
      RecordsSound(data[1..], x);
      var row :| row in data[1..] && RowToRecord(row) == Some(x);
      assert row in data;
    }
  }

  /** Every row that converts contributes its room. */
  lemma {:induction false} RoomsComplete(data: seq<map<string, string>>, row: map<string, string>)
    requires row in data && RowToRoom(row).Some?
    ensures RowToRoom(row).value in Rooms(data)
  {
    if data[0] != row {
      RoomsComplete(data[1..], row);
    }
  }

  /** Every row that converts contributes its reading. */
  lemma {:induction false} RecordsComplete(data: seq<map<string, string>>, row: map<string, string>)
    requires row in data && RowToRecord(row).Some?
    ensures RowToRecord(row).value in Records(data)
  {
    if data[0] != row {
      RecordsComplete(data[1..], row);
    }
  }

  /** When every row has a "房號" key, every row becomes a room. */
  lemma {:induction false} AllRowsAreRooms(data: seq<map<string, string>>)
    requires forall row :: row in data ==> "房號" in row
    ensures |Rooms(data)| == |data|
  {
    if data != [] {
      assert data[0] in data;
      AllRowsAreRooms(data[1..]);
    }
  }

  /**
   * A sheet whose header row names "房號" in some column imports every one
   * of its data rows as a room, as a sheet made from the room template does.
   */
  lemma HeaderedSheetImportsEveryRow(sheet: Sheet, c: nat)
    requires c < sheet.columns && Headers(sheet)[c] == "房號"
    ensures |Rooms(Preview(sheet))| == |Preview(sheet)|
  {
    HeaderInEveryRow(sheet, "房號", c);
    AllRowsAreRooms(Preview(sheet));
  }

  // -------------------------------------------------------------- templates

  function RoomTemplateHeaders(): seq<string> {
    ["房號", "租客姓名", "房型", "租金", "押金", "起租日", "結束日", "備註"]
  }

  function RoomTemplateRows(): seq<seq<string>> {
    [["401", "張三", "雅房", "6000", "12000", "2024-07-01", "2025-06-30", ""],
     ["402", "李四", "套房", "8500", "17000", "2024-08-01", "2025-07-31", "頂樓加蓋"]]
  }

  function MeterTemplateHeaders(): seq<string> {
    ["房號", "月份", "度數"]
  }

  function MeterTemplateRows(): seq<seq<string>> {
    [["401", "2024-07", "126"], ["402", "2024-07", "98"]]
  }

  /** The sheet a template file holds: the header row, then the demo rows. */
  function TemplateSheet(headers: seq<string>, rows: seq<seq<string>>): Sheet {
    Sheet(|headers|, [headers] + rows)
  }

  /** The two demo readings of the meter template. */
  function MeterTemplateRecords(): seq<MeterRecord> {
    [NewRecord("401", "2024-07", 126), NewRecord("402", "2024-07", 98)]
  }

  /**
   * Every demo row of the room template becomes a room: its header row
   * starts with "房號", the one key a room needs.
   */
  lemma RoomTemplateImportsInFull(sheet: Sheet)
    requires sheet == TemplateSheet(RoomTemplateHeaders(), RoomTemplateRows())
    ensures |Rooms(Preview(sheet))| == |RoomTemplateRows()|
  {
    CellsAt(sheet, 0, sheet.columns, 0);
    TrimUnchanged("房號");
    HeaderedSheetImportsEveryRow(sheet, 0);
  }

  /** The meter template previews as its demo rows keyed by the template's headers. */
  lemma MeterTemplatePreview(sheet: Sheet)
    requires sheet == TemplateSheet(MeterTemplateHeaders(), MeterTemplateRows())
    ensures Preview(sheet) ==
      [RowMap(MeterTemplateHeaders(), MeterTemplateRows()[0], 3), RowMap(MeterTemplateHeaders(), MeterTemplateRows()[1], 3)]
  {
    MeterTemplateUntrimmable();
    TemplatePreview(MeterTemplateHeaders(), MeterTemplateRows());
  }

  lemma MeterTemplateUntrimmable()
    ensures AllUntrimmable(MeterTemplateHeaders())
    ensures forall r :: 0 <= r < |MeterTemplateRows()| ==>
      |MeterTemplateRows()[r]| == |MeterTemplateHeaders()| && AllUntrimmable(MeterTemplateRows()[r])
  {
    assert AllUntrimmable(MeterTemplateRows()[0]);
    assert AllUntrimmable(MeterTemplateRows()[1]);
  }

  /** Each demo row of the meter template converts to its demo reading. */
  lemma MeterTemplateRowsConvert()
    ensures RowToRecord(RowMap(MeterTemplateHeaders(), MeterTemplateRows()[0], 3)) == Some(MeterTemplateRecords()[0])
    ensures RowToRecord(RowMap(MeterTemplateHeaders(), MeterTemplateRows()[1], 3)) == Some(MeterTemplateRecords()[1])
  {
    DemoReadingsParse();
  }

  /** The demo readings "126" and "98" parse as numbers. */
  lemma DemoReadingsParse()
    ensures ToIntOrNull("126") == Some(126) && ToIntOrNull("98") == Some(98)
  {
    assert "126"[..2] == "12" && "12"[..1] == "1" && "98"[..1] == "9";
    assert DigitsValue("12") == 12;
  }

  /** The meter template's demo rows import in full. */
  lemma MeterTemplateImportsInFull(sheet: Sheet)
    requires sheet == TemplateSheet(MeterTemplateHeaders(), MeterTemplateRows())
    ensures Records(Preview(sheet)) == MeterTemplateRecords()
  {
    MeterTemplatePreview(sheet);
    MeterTemplateRowsConvert();
    var p := Preview(sheet);
    assert p[1..] == [p[1]];
  }

  /** Text with no whitespace at either end, as every template cell is. */
  predicate Untrimmable(s: string) {
    s != [] ==> !IsWhitespace(s[0]) && !IsWhitespace(s[|s| - 1])
  }

  /** Every cell of a row is untrimmable. */
  predicate AllUntrimmable(row: seq<string>) {
    row == [] || (Untrimmable(row[0]) && AllUntrimmable(row[1..]))
  }

  lemma {:induction false} AllUntrimmableAt(row: seq<string>, c: nat)
    requires AllUntrimmable(row) && c < |row|
    ensures Untrimmable(row[c])
  {
    if c > 0 {
      AllUntrimmableAt(row[1..], c - 1);
    }
  }

  /** A full-width row of untrimmable cells reads back as its cells. */
  lemma UntrimmedRow(sheet: Sheet, row: nat)
    requires row < |sheet.cells| && |sheet.cells[row]| == sheet.columns
    requires AllUntrimmable(sheet.cells[row])
    ensures RowValues(sheet, row) == sheet.cells[row]
  {
    forall c | 0 <= c < sheet.columns ensures RowValues(sheet, row)[c] == sheet.cells[row][c] {
      CellsAt(sheet, row, sheet.columns, c);
      AllUntrimmableAt(sheet.cells[row], c);
      TrimUnchanged(sheet.cells[row][c]);
    }
  }

  /** The header row of a sheet written like a template reads back as the headers. */
  lemma TemplateHeaders(headers: seq<string>, rows: seq<seq<string>>)
    requires AllUntrimmable(headers)
    ensures Headers(TemplateSheet(headers, rows)) == headers
  {
    var sheet := TemplateSheet(headers, rows);
    assert sheet.cells[0] == headers;
    UntrimmedRow(sheet, 0);
  }

  /** One data row of a sheet written like a template previews as that row keyed by the headers. */
  lemma TemplatePreviewRow(headers: seq<string>, rows: seq<seq<string>>, r: nat)
    requires AllUntrimmable(headers)
    requires r < |rows| && |rows[r]| == |headers| && AllUntrimmable(rows[r])
    ensures Preview(TemplateSheet(headers, rows))[r] == RowMap(headers, rows[r], |headers|)
  {
    var sheet := TemplateSheet(headers, rows);
    TemplateHeaders(headers, rows);
    assert sheet.cells[r + 1] == rows[r];
    UntrimmedRow(sheet, r + 1);
    assert |Preview(sheet)| == |rows|;
    PreviewRowsAt(sheet, |rows|, r);
  }

  /** A sheet of untrimmable cells, each row as wide as the header row, previews row by row. */
  lemma TemplatePreview(headers: seq<string>, rows: seq<seq<string>>)
    requires AllUntrimmable(headers)
    requires forall r :: 0 <= r < |rows| ==> |rows[r]| == |headers| && AllUntrimmable(rows[r])
    ensures Headers(TemplateSheet(headers, rows)) == headers
    ensures forall r :: 0 <= r < |rows| ==>
      Preview(TemplateSheet(headers, rows))[r] == RowMap(headers, rows[r], |headers|)
  {
    TemplateHeaders(headers, rows);
    forall r | 0 <= r < |rows|
      ensures Preview(TemplateSheet(headers, rows))[r] == RowMap(headers, rows[r], |headers|)
    {
      TemplatePreviewRow(headers, rows, r);
    }
  }

  // ----------------------------------------------------------------- screen

  /** `parseExcelPreview`: the header row, then one map per further row, filled column by column. */
  method ParseExcelPreview(input: Option<Sheet>) returns (result: seq<map<string, string>>)
    ensures result == PreviewOf(input)
  {
    if input.None? {
      return [];
    }
    var sheet := input.value;
    var headers := Headers(sheet);
    result := [];
    var row := 1;
    while row < |sheet.cells|
      invariant 1 <= row <= if |sheet.cells| == 0 then 1 else |sheet.cells|
      invariant result == PreviewRows(sheet, row - 1)
    {
      var m: map<string, string> := map[];
      var col := 0;
      while col < |headers|
        invariant 0 <= col <= |headers|
        invariant m == RowMap(headers, RowValues(sheet, row), col)
      {
        CellsAt(sheet, row, sheet.columns, col);
        m := m[headers[col] := Trim(Contents(sheet, col, row))];
        col := col + 1;
      }
      result := result + [m];
      row := row + 1;
    }
  }

  /** The message after an import. */
  function ImportMessage(kind: string, count: nat): string {
    "成功匯入 " + IntToString(count) + " 筆" + kind + "資料"
  }

  /**
   * `importExcelToDb`: "房間" writes the rows that convert to rooms, "電表"
   * the rows that convert to readings, and any other type writes nothing.
   */
  method ImportExcelToDb(data: seq<map<string, string>>, importType: string, roomDao: RoomTable, meterDao: MeterTable)
      returns (message: string)
    requires roomDao.Valid() && meterDao.Valid()
    modifies roomDao, meterDao
    ensures roomDao.Valid() && meterDao.Valid()
    ensures importType == "房間" ==>
      roomDao.rooms == InsertedAll(old(roomDao.rooms), Rooms(data)) &&
      meterDao.State() == old(meterDao.State()) &&
      message == ImportMessage("房間", |Rooms(data)|)
    ensures importType == "電表" ==>
      meterDao.State() == InsertAll(old(meterDao.State()), Records(data)) &&
      roomDao.rooms == old(roomDao.rooms) &&
      message == ImportMessage("電表", |Records(data)|)
    ensures importType != "房間" && importType != "電表" ==>
      roomDao.rooms == old(roomDao.rooms) && meterDao.State() == old(meterDao.State()) &&
      message == "型態錯誤"
  {
    if importType == "房間" {
      var rooms := Rooms(data);
      roomDao.InsertRooms(rooms);
      message := "成功匯入 " + IntToString(|rooms|) + " 筆房間資料";
    } else if importType == "電表" {
      var records := Records(data);
      meterDao.InsertOrUpdateRecords(records);
      message := "成功匯入 " + IntToString(|records|) + " 筆電表資料";
    } else {
      message := "型態錯誤";
    }
  }
}
