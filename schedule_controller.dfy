/**
 * The pure helpers of the schedule controller's spreadsheet export and the
 * export itself: one sheet row per schedule item, or one placeholder row
 * for a schedule without items.
 */
module ScheduleController {
  import opened Common
  import opened Text
  import opened Calendar
  import opened ExportFormat
  import opened ScheduleService

  // ---------------------------------------------------------------------
  // Cell formatting
  // ---------------------------------------------------------------------

  /**
   * `formatDateOnly`: `-` when the value is missing or not a valid date,
   * otherwise the UTC calendar day as `DD/MM/YYYY`.
   */
  function FormatDateOnly(v: Option<JsDate>): (r: string)
    ensures r == "-" <==> v.None? || v.value.InvalidDate?
  {
    match v
    case None => "-"
    case Some(InvalidDate) => "-"
    case Some(ValidDate(_, f, _)) => DayStamp(f)
  }

  /** The UTC day of a valid date as `DD/MM/YYYY`. */
  function DayStamp(f: DateFields): (r: string)
    ensures |r| >= 2
  {
    Pad(f.day) + "/" + Pad(f.month) + "/" + IntToString(f.year)
  }

  /** `r` is a 10-character `DD/MM/YYYY` date whose columns read back as the day of `f`. */
  ghost predicate ShowsDay(r: string, f: DateFields)
  {
    && |r| == 10
    && r[2] == '/' && r[5] == '/'
    && AllDigits(r[..2]) && AllDigits(r[3..5]) && AllDigits(r[6..])
    && DecimalValue(r[..2]) == f.day && DecimalValue(r[3..5]) == f.month && DecimalValue(r[6..]) == f.year
  }

  /**
   * For a valid date with a four-digit year the date is fixed-width and the
   * day, month and year read back from their own columns.
   */
  lemma FormatDateOnlyReadsBack(d: JsDate)
    requires d.ValidDate? && FieldsInRange(d.utc) && 1000 <= d.utc.year <= 9999
    ensures ShowsDay(FormatDateOnly(Some(d)), d.utc)
  {
    assert FormatDateOnly(Some(d)) == DayStamp(d.utc);
    DayStampReadsBack(d.utc);
  }

  lemma DayStampReadsBack(f: DateFields)
    requires FieldsInRange(f) && 1000 <= f.year <= 9999
    ensures ShowsDay(DayStamp(f), f)
  {
    NatToStringLength(f.year, 4);
    PadField(f.day);
    PadField(f.month);
    DaySlices(Pad(f.day), Pad(f.month), IntToString(f.year));
  }

  lemma DaySlices(d: string, m: string, y: string)
    requires |d| == 2 && |m| == 2 && |y| == 4
    ensures var r := d + "/" + m + "/" + y;
      && |r| == 10 && r[2] == '/' && r[5] == '/'
      && r[..2] == d && r[3..5] == m && r[6..] == y
  {
    var r := d + "/" + m + "/" + y;
    assert forall i :: 0 <= i < 2 ==> r[i] == d[i] && r[3 + i] == m[i];
    assert forall i :: 0 <= i < 4 ==> r[6 + i] == y[i];
  }

  /** `buildExportFilename` of the schedule export. */
  function BuildExportFilename(dateFrom: Option<string>, dateTo: Option<string>): (r: string)
    ensures Present(dateFrom) && Present(dateTo) ==> r == "schedule_pengiriman_" + dateFrom.value + "_sampai_" + dateTo.value + ".xlsx"
    ensures !(Present(dateFrom) && Present(dateTo)) ==> r == "schedule_pengiriman.xlsx"
  {
    RangeFilename("schedule_pengiriman", dateFrom, dateTo)
  }

  /**
   * `truckTypeLabel`: `OTHER` shows its free text when there is any; a
   * known code shows its label; an unknown code is shown as it is.
   */
  function TruckTypeLabel(item: Item): (r: string)
    ensures item.truckType == "OTHER" && Present(item.truckTypeOther) ==> r == "Other - " + item.truckTypeOther.value
    ensures item.truckType == "OTHER" && !Present(item.truckTypeOther) ==> r == "Other"
    ensures item.truckType != "OTHER" && item.truckType in TRUCK_TYPES ==>
      exists k :: 0 <= k < |TRUCK_TYPES| && TRUCK_TYPES[k] == item.truckType && r == TRUCK_LABELS[k]
    ensures item.truckType !in TRUCK_TYPES ==> r == item.truckType
  {
    if item.truckType == "OTHER" then
      if Present(item.truckTypeOther) then "Other - " + item.truckTypeOther.value else "Other"
    else
      var k := IndexOf(TRUCK_TYPES, item.truckType);
      if k >= 0 then TRUCK_LABELS[k] else item.truckType
  }

  /** Two different known codes never share a label, so the sheet tells them apart. */
  lemma TruckLabelsDistinct()
    ensures Distinct(TRUCK_LABELS)
  {
  }

  /** The store-type label, or the stored value itself when it has none. */
  function StoreTypeLabel(storeType: string): (r: string)
    ensures storeType == "STORE_IN" ==> r == "Store In"
    ensures storeType == "STORE_OUT" ==> r == "Store Out"
    ensures storeType != "STORE_IN" && storeType != "STORE_OUT" ==> r == storeType
  {
    if storeType == "STORE_IN" then "Store In"
    else if storeType == "STORE_OUT" then "Store Out"
    else storeType
  }

  // ---------------------------------------------------------------------
  // Export rows
  // ---------------------------------------------------------------------

  /** What the export reads of one schedule; missing items or customer are `None`. */
  datatype ExportSchedule = ExportSchedule(
    scheduleDate: Option<JsDate>,
    storeType: string,
    customerName: Option<string>,
    items: Option<seq<Item>>,
    createdAt: Option<JsDate>)

  /** One row of the "Schedule Pengiriman" sheet. */
  datatype SheetRow = SheetRow(scheduleDate: string, storeType: string, customerName: string, truckType: string, qty: int, createdAt: string)

  predicate HasItems(s: ExportSchedule)
  {
    s.items.Some? && s.items.value != []
  }

  /** The row for one item of a schedule; the schedule's own columns repeat on every row. */
  function ItemRow(s: ExportSchedule, item: Item): SheetRow
  {
    SheetRow(FormatDateOnly(s.scheduleDate), StoreTypeLabel(s.storeType), OrDash(s.customerName),
      TruckTypeLabel(item), item.qty, FormatDateTime(s.createdAt))
  }

  /** The single row of a schedule without items. */
  function PlaceholderRow(s: ExportSchedule): SheetRow
  {
    SheetRow(FormatDateOnly(s.scheduleDate), StoreTypeLabel(s.storeType), OrDash(s.customerName),
      "-", 0, FormatDateTime(s.createdAt))
  }

  /** One row per item, in item order. */
  function ItemRows(s: ExportSchedule, items: seq<Item>): (rows: seq<SheetRow>)
    ensures |rows| == |items|
    ensures forall i :: 0 <= i < |items| ==> rows[i] == ItemRow(s, items[i])
  {
    seq(|items|, i requires 0 <= i < |items| => ItemRow(s, items[i]))
  }

  /** One more item adds its row at the end. */
  lemma ItemRowsAppend(s: ExportSchedule, items: seq<Item>, item: Item)
    ensures ItemRows(s, items + [item]) == ItemRows(s, items) + [ItemRow(s, item)]
  {
    var a, b := ItemRows(s, items + [item]), ItemRows(s, items) + [ItemRow(s, item)];
    assert |a| == |b|;
    forall i | 0 <= i < |a|
      ensures a[i] == b[i]
    {
      if i < |items| {
        assert (items + [item])[i] == items[i];
      }
    }
  }

  /** The rows one schedule contributes: one per item in order, or one placeholder. */
  function ScheduleRows(s: ExportSchedule): (rows: seq<SheetRow>)
    ensures |rows| == if HasItems(s) then |s.items.value| else 1
    ensures !HasItems(s) ==> rows[0].truckType == "-" && rows[0].qty == 0
    ensures HasItems(s) ==> forall i :: 0 <= i < |rows| ==>
      rows[i].truckType == TruckTypeLabel(s.items.value[i]) && rows[i].qty == s.items.value[i].qty
    ensures forall i :: 0 <= i < |rows| ==>
      && rows[i].scheduleDate == FormatDateOnly(s.scheduleDate)
      && rows[i].storeType == StoreTypeLabel(s.storeType)
      && rows[i].customerName == OrDash(s.customerName)
      && rows[i].createdAt == FormatDateTime(s.createdAt)
  {
    if HasItems(s) then ItemRows(s, s.items.value) else [PlaceholderRow(s)]
  }

  /** The data rows of the sheet, schedule after schedule. */
  function ExportRowsOf(schedules: seq<ExportSchedule>): seq<SheetRow>
  {
    if schedules == [] then []
    else ExportRowsOf(schedules[..|schedules| - 1]) + ScheduleRows(schedules[|schedules| - 1])
  }

  /**
   * The export loop: every schedule appends its rows to the sheet, item
   * after item, or one placeholder row when it has no items.
   */
  method ExportSchedules(schedules: seq<ExportSchedule>) returns (rows: seq<SheetRow>)
    ensures rows == ExportRowsOf(schedules)
  {
    rows := [];
    for k := 0 to |schedules|
      invariant rows == ExportRowsOf(schedules[..k])
    {
      var s := schedules[k];
      assert schedules[..k + 1][..k] == schedules[..k];
      if s.items.None? || |s.items.value| == 0 {
        rows := rows + [PlaceholderRow(s)];
      } else {
        rows := AppendItemRows(rows, s, s.items.value);
      }
    }
    assert schedules[..|schedules|] == schedules;
  }

  /** The inner loop of the export: one row per item of the schedule, appended in order. */
  method AppendItemRows(rows0: seq<SheetRow>, s: ExportSchedule, items: seq<Item>) returns (rows: seq<SheetRow>)
    ensures rows == rows0 + ItemRows(s, items)
  {
    rows := rows0;
    for i := 0 to |items|
      invariant rows == rows0 + ItemRows(s, items[..i])
    {
      assert items[..i + 1] == items[..i] + [items[i]];
      ItemRowsAppend(s, items[..i], items[i]);
      rows := rows + [ItemRow(s, items[i])];
    }
    assert items[..|items|] == items;
  }

  /** The number of rows the export writes: every schedule counts its items, and at least one. */
  function RowCount(schedules: seq<ExportSchedule>): nat
  {
    if schedules == [] then 0
    else
      var s := schedules[|schedules| - 1];
      RowCount(schedules[..|schedules| - 1]) + (if HasItems(s) then |s.items.value| else 1)
  }

  lemma {:induction false} ExportRowCount(schedules: seq<ExportSchedule>)
    ensures |ExportRowsOf(schedules)| == RowCount(schedules)
    ensures |ExportRowsOf(schedules)| >= |schedules|
  {
    if schedules != [] {
      ExportRowCount(schedules[..|schedules| - 1]);
    }
  }

  function SheetQty(rows: seq<SheetRow>): int
  {
    if rows == [] then 0 else SheetQty(rows[..|rows| - 1]) + rows[|rows| - 1].qty
  }

  /** The quantity of all schedules' items. */
  function SchedulesQty(schedules: seq<ExportSchedule>): int
  {
    if schedules == [] then 0
    else
      var s := schedules[|schedules| - 1];
      SchedulesQty(schedules[..|schedules| - 1]) + (if s.items.Some? then SumQty(s.items.value) else 0)
  }

  /** The Qty column adds up to the quantity of all items: placeholder rows add nothing. */
  lemma {:induction false} ExportQtyTotal(schedules: seq<ExportSchedule>)
    ensures SheetQty(ExportRowsOf(schedules)) == SchedulesQty(schedules)
  {
    if schedules != [] {
      var init, s := schedules[..|schedules| - 1], schedules[|schedules| - 1];
      ExportQtyTotal(init);
      SheetQtyAppend(ExportRowsOf(init), ScheduleRows(s));
      if HasItems(s) {
        ItemRowsQty(s, s.items.value);
      }
    }
  }

  lemma {:induction false} ItemRowsQty(s: ExportSchedule, items: seq<Item>)
    ensures SheetQty(ItemRows(s, items)) == SumQty(items)
  {
    if items != [] {
      var init := items[..|items| - 1];
      ItemRowsQty(s, init);
      assert items == init + [items[|items| - 1]];
      ItemRowsAppend(s, init, items[|items| - 1]);
      SheetQtyAppend(ItemRows(s, init), [ItemRow(s, items[|items| - 1])]);
    }
  }

  lemma {:induction false} SheetQtyAppend(a: seq<SheetRow>, b: seq<SheetRow>)
    ensures SheetQty(a + b) == SheetQty(a) + SheetQty(b)
  {
    if b == [] {
      assert a + b == a;
    } else {
      SheetQtyAppend(a, b[..|b| - 1]);
      assert (a + b)[..|a + b| - 1] == a + b[..|b| - 1];
    }
  }
}
