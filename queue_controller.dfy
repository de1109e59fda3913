/**
 * The pure helpers of the queue controller's spreadsheet export: the
 * category label, the "register to finish" duration in words, the download
 * file name and the mapping of queue entries to export rows.
 */
module QueueController {
  import opened Common
  import opened Text
  import opened Calendar
  import opened ExportFormat

  /** `mapCategory`: the two known categories get a label, anything else `-`. */
  function MapCategory(category: string): (r: string)
    ensures r == "Receiving" <==> category == "RECEIVING"
    ensures r == "Delivery" <==> category == "DELIVERY"
    ensures r == "-" <==> category != "RECEIVING" && category != "DELIVERY"
  {
    if category == "RECEIVING" then "Receiving"
    else if category == "DELIVERY" then "Delivery"
    else "-"
  }

  /** Both times are present, valid dates, and the finish is not before the register time. */
  predicate Measurable(registerTime: Option<JsDate>, finishTime: Option<JsDate>)
  {
    && registerTime.Some? && registerTime.value.ValidDate?
    && finishTime.Some? && finishTime.value.ValidDate?
    && finishTime.value.ms >= registerTime.value.ms
  }

  /**
   * `formatDurationHuman`: `-` unless both times are known and in order,
   * otherwise the whole minutes between them in words.
   */
  function FormatDurationHuman(registerTime: Option<JsDate>, finishTime: Option<JsDate>): (r: string)
    ensures r == "-" <==> !Measurable(registerTime, finishTime)
  {
    if registerTime.None? || finishTime.None? then "-"
    else if registerTime.value.InvalidDate? || finishTime.value.InvalidDate? then "-"
    else
      var durationMs := finishTime.value.ms - registerTime.value.ms;
      if durationMs < 0 then "-" else DurationWords(durationMs / 60000)
  }

  /**
   * A number of whole minutes as hours and minutes in Indonesian, the words
   * of the template separated by single spaces; a zero part is left out,
   * and no minutes at all read "less than one minute".
   */
  function DurationWords(totalMinutes: nat): (r: string)
    ensures ' ' in r
  {
    var words := DurationParts(totalMinutes);
    assert Join(words, ' ') == words[0] + [' '] + Join(words[1..], ' ');
    assert Join(words, ' ')[|words[0]|] == ' ';
    Join(words, ' ')
  }

  function DurationParts(totalMinutes: nat): (words: seq<string>)
    ensures |words| >= 2
  {
    var hours := totalMinutes / 60;
    var minutes := totalMinutes % 60;
    if hours > 0 && minutes > 0 then [NatToString(hours), "jam", NatToString(minutes), "menit"]
    else if hours > 0 && minutes == 0 then [NatToString(hours), "jam"]
    else if hours == 0 && minutes > 0 then [NatToString(minutes), "menit"]
    else ["kurang", "dari", "1", "menit"]
  }

  predicate Numeral(s: string)
  {
    s != "" && AllDigits(s)
  }

  /** Reads a duration written by `DurationWords` back as a number of minutes. */
  function ReadDuration(text: string): Option<nat>
  {
    ReadParts(Split(text, ' '))
  }

  function ReadParts(w: seq<string>): Option<nat>
  {
    if w == ["kurang", "dari", "1", "menit"] then Some(0)
    else if |w| == 4 && Numeral(w[0]) && w[1] == "jam" && Numeral(w[2]) && w[3] == "menit" then
      Some(60 * DecimalValue(w[0]) + DecimalValue(w[2]))
    else if |w| == 2 && Numeral(w[0]) && w[1] == "jam" then Some(60 * DecimalValue(w[0]))
    else if |w| == 2 && Numeral(w[0]) && w[1] == "menit" then Some(DecimalValue(w[0]))
    else None
  }

  /** The words name the number of minutes they were written for, so no two durations read alike. */
  lemma DurationWordsReadBack(totalMinutes: nat)
    ensures ReadDuration(DurationWords(totalMinutes)) == Some(totalMinutes)
  {
    var words := DurationParts(totalMinutes);
    assert forall k :: 0 <= k < |words| ==> ' ' !in words[k] by {
      DigitsHaveNoBlank(NatToString(totalMinutes / 60));
      DigitsHaveNoBlank(NatToString(totalMinutes % 60));
    }
    JoinSplit(words, ' ');
    PartsReadBack(totalMinutes);
  }

  lemma PartsReadBack(totalMinutes: nat)
    ensures ReadParts(DurationParts(totalMinutes)) == Some(totalMinutes)
  {
    var hours := totalMinutes / 60;
    var minutes := totalMinutes % 60;
    var h, m := NatToString(hours), NatToString(minutes);
    assert h[0] != 'k' && m[0] != 'k';
  }

  lemma DigitsHaveNoBlank(s: string)
    requires AllDigits(s)
    ensures ' ' !in s
  {
  }

  /**
   * For two times in order the words give the whole minutes between them,
   * rounded down.
   */
  lemma FormatDurationReadsBack(registerTime: Option<JsDate>, finishTime: Option<JsDate>)
    requires Measurable(registerTime, finishTime)
    ensures var t := ReadDuration(FormatDurationHuman(registerTime, finishTime));
      && t.Some?
      && 60000 * t.value <= finishTime.value.ms - registerTime.value.ms < 60000 * (t.value + 1)
  {
    var d := finishTime.value.ms - registerTime.value.ms;
    var t := d / 60000;
    MeasurableWords(registerTime, finishTime, t);
    DurationWordsReadBack(t);
    MinuteBounds(d, t);
  }

  lemma MeasurableWords(registerTime: Option<JsDate>, finishTime: Option<JsDate>, t: nat)
    requires Measurable(registerTime, finishTime)
    requires t == (finishTime.value.ms - registerTime.value.ms) / 60000
    ensures FormatDurationHuman(registerTime, finishTime) == DurationWords(t)
  {
  }

  lemma MinuteBounds(d: int, t: int)
    requires d >= 0 && t == d / 60000
    ensures 60000 * t <= d < 60000 * (t + 1)
  {
  }

  /** `buildExportFilename` of the queue export. */
  function BuildExportFilename(dateFrom: Option<string>, dateTo: Option<string>): (r: string)
    ensures Present(dateFrom) && Present(dateTo) ==> r == "antrian_truk_" + dateFrom.value + "_sampai_" + dateTo.value + ".xlsx"
    ensures !(Present(dateFrom) && Present(dateTo)) ==> r == "antrian_truk.xlsx"
  {
    RangeFilename("antrian_truk", dateFrom, dateTo)
  }

  /** What the export reads of one queue entry; a missing relation or text is `None`. */
  datatype ExportEntry = ExportEntry(
    customerName: Option<string>,
    driverName: Option<string>,
    truckNumber: Option<string>,
    containerNumber: Option<string>,
    registerTime: Option<JsDate>,
    inWhTime: Option<JsDate>,
    startTime: Option<JsDate>,
    finishTime: Option<JsDate>,
    status: Option<string>,
    category: string)

  /** One row of the "Antrian Truk" sheet, column by column. */
  datatype ExportRow = ExportRow(
    no: nat,
    customerName: string,
    driverName: string,
    truckNumber: string,
    containerNumber: string,
    registerTime: string,
    inWhTime: string,
    startTime: string,
    finishTime: string,
    totalDuration: string,
    timeRemaining: string,
    status: string,
    category: string)

  function RowOf(e: ExportEntry, index: nat): ExportRow
  {
    ExportRow(
      index + 1,
      OrDash(e.customerName), OrDash(e.driverName), OrDash(e.truckNumber), OrDash(e.containerNumber),
      FormatDateTime(e.registerTime), FormatDateTime(e.inWhTime),
      FormatDateTime(e.startTime), FormatDateTime(e.finishTime),
      FormatDurationHuman(e.registerTime, e.finishTime),
      "-",
      OrDash(e.status),
      MapCategory(e.category))
  }

  /** A text cell of `value || "-"`: the value when it is there and non-empty, `-` when it is missing or empty. */
  predicate TextCell(v: Option<string>, cell: string)
  {
    && (v.Some? && v.value != "" ==> cell == v.value)
    && (v.None? || v.value == "" ==> cell == "-")
  }

  /**
   * The data rows of the queue export: one per entry in order, numbered
   * from 1, text copied or `-` when missing, the four times and the
   * duration formatted, the category labelled, and no time remaining.
   */
  function ExportRows(entries: seq<ExportEntry>): (rows: seq<ExportRow>)
    ensures |rows| == |entries|
    ensures forall i :: 0 <= i < |rows| ==> rows[i].no == i + 1 && rows[i].timeRemaining == "-"
    ensures forall i :: 0 <= i < |rows| ==>
      && TextCell(entries[i].customerName, rows[i].customerName)
      && TextCell(entries[i].driverName, rows[i].driverName)
      && TextCell(entries[i].truckNumber, rows[i].truckNumber)
      && TextCell(entries[i].containerNumber, rows[i].containerNumber)
      && TextCell(entries[i].status, rows[i].status)
    ensures forall i :: 0 <= i < |rows| ==>
      && rows[i].registerTime == FormatDateTime(entries[i].registerTime)
      && rows[i].inWhTime == FormatDateTime(entries[i].inWhTime)
      && rows[i].startTime == FormatDateTime(entries[i].startTime)
      && rows[i].finishTime == FormatDateTime(entries[i].finishTime)
    ensures forall i :: 0 <= i < |rows| ==>
      rows[i].totalDuration == FormatDurationHuman(entries[i].registerTime, entries[i].finishTime)
    ensures forall i :: 0 <= i < |rows| ==> rows[i].category == MapCategory(entries[i].category)
  {
    seq(|entries|, i requires 0 <= i < |entries| => RowOf(entries[i], i))
  }

  /** Every cell of the sheet is filled: a missing value is written as `-`, never left blank. */
  lemma ExportCellsFilled(entries: seq<ExportEntry>, i: nat)
    requires i < |entries|
    ensures var row := ExportRows(entries)[i];
      && row.customerName != "" && row.driverName != "" && row.truckNumber != "" && row.containerNumber != ""
      && row.registerTime != "" && row.inWhTime != "" && row.startTime != "" && row.finishTime != ""
      && row.totalDuration != "" && row.status != "" && row.category != ""
  {
    var e := entries[i];
    TimeCellFilled(e.registerTime);
    TimeCellFilled(e.inWhTime);
    TimeCellFilled(e.startTime);
    TimeCellFilled(e.finishTime);
  }

  lemma TimeCellFilled(v: Option<JsDate>)
    ensures FormatDateTime(v) != ""
  {
    if v.Some? && v.value.ValidDate? {
      assert |Timestamp(v.value.local)| >= 5;
    }
  }
}
