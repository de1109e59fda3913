/**
 * The gate controller's spreadsheet handling: the header normalisation and
 * lookup of an uploaded sheet, the upload checks, the mapping of data rows
 * to import rows, and the rows of the gate export.
 */
module GateController {
  import opened Common
  import opened Text
  import opened Calendar
  import opened ExportFormat
  import GateService

  const MSG_HEADER_MISSING := "Header Excel tidak ditemukan"
  const MSG_HEADER_INVALID := "Header Excel tidak sesuai. Wajib: Gate No, Area, Warehouse"
  const MSG_FILE_REQUIRED := "File Excel wajib diupload"
  const MSG_FILE_FORMAT := "File harus berformat .xlsx"

  // ---------------------------------------------------------------------
  // Header
  // ---------------------------------------------------------------------

  /**
   * `normalizeHeader` on the text of a cell: trimmed, lower-cased and every
   * run of white space turned into one space.
   */
  function NormalizeHeader(s: string): string
  {
    CollapseSpaces(ToLower(Trim(s)))
  }

  /**
   * The text `String(value || "")` gives for a header cell. A number or an
   * object cell is read as blank; see the README for why that does not
   * change which headers are found.
   */
  function HeaderText(v: JsValue): (r: string)
    ensures v.Str? ==> r == v.s
  {
    match v
    case Str(s) => s
    case Bool(b) => if b then "true" else ""
    case _ => ""
  }

  /**
   * A normalised header is single-spaced and lower-case, has no white space
   * at either end, and is empty exactly when the cell held only white space.
   */
  lemma NormalizeHeaderShape(s: string)
    ensures var r := NormalizeHeader(s);
      && SingleSpaced(r) && IsLower(r)
      && (r == [] <==> AllSpace(s))
      && (r != [] ==> !IsSpace(r[0]) && !IsSpace(r[|r| - 1]))
  {
    var t := Trim(s);
    var l := ToLower(t);
    var r := CollapseSpaces(l);
    assert IsLower(l);
    CollapseShape(l);
    CollapseKeepsLower(l);
    assert r == [] <==> t == [];
    if t != [] {
      LowerKeepsSpace(t[0]);
      LowerKeepsSpace(t[|t| - 1]);
      assert !IsSpace(l[0]) && !IsSpace(l[|l| - 1]);
      CollapseLast(l);
    }
  }

  lemma LowerKeepsSpace(c: char)
    ensures IsSpace(LowerChar(c)) == IsSpace(c)
  {
  }

  /** Normalising a header twice gives the same text as normalising it once. */
  lemma NormalizeHeaderIdempotent(s: string)
    ensures NormalizeHeader(NormalizeHeader(s)) == NormalizeHeader(s)
  {
    var r := NormalizeHeader(s);
    NormalizeHeaderShape(s);
    if r != [] {
      TrimNoop(r);
    }
    assert ToLower(r) == r;
    CollapseFixed(r);
  }

  /** The normalised headers of a row, column by column. */
  function HeaderNames(row: seq<JsValue>): (names: seq<string>)
    ensures |names| == |row|
    ensures forall i :: 0 <= i < |row| ==> names[i] == NormalizeHeader(HeaderText(row[i]))
  {
    seq(|row|, i requires 0 <= i < |row| => NormalizeHeader(HeaderText(row[i])))
  }

  /** The columns of the three required headers. */
  datatype HeaderIndexes = HeaderIndexes(gateNoIdx: nat, areaIdx: nat, warehouseIdx: nat)

  /** `i` is the first position of `x` in `xs`. */
  predicate FirstAt(xs: seq<string>, x: string, i: nat)
  {
    i < |xs| && xs[i] == x && forall j :: 0 <= j < i ==> xs[j] != x
  }

  /**
   * `ensureGateHeader`: an empty sheet has no header; otherwise the first
   * row must name "gate no", "area" and "warehouse", in any order and among
   * any other columns, and the first column of each is returned.
   */
  function EnsureGateHeader(rows: seq<seq<JsValue>>): (r: Result<HeaderIndexes>)
    ensures rows == [] ==> r == Err(Fail400(MSG_HEADER_MISSING))
    ensures rows != [] ==>
      var names := HeaderNames(rows[0]);
      && (r.Ok? <==> "gate no" in names && "area" in names && "warehouse" in names)
      && (r.Err? ==> r.error == Fail400(MSG_HEADER_INVALID))
      && (r.Ok? ==> FirstAt(names, "gate no", r.value.gateNoIdx) && FirstAt(names, "area", r.value.areaIdx)
                    && FirstAt(names, "warehouse", r.value.warehouseIdx))
  {
    if |rows| == 0 then Err(Fail400(MSG_HEADER_MISSING)) else FindHeaders(HeaderNames(rows[0]))
  }

  /** The lookup of the three required names among normalised headers. */
  function FindHeaders(headers: seq<string>): (r: Result<HeaderIndexes>)
    ensures r.Ok? <==> "gate no" in headers && "area" in headers && "warehouse" in headers
    ensures r.Err? ==> r.error == Fail400(MSG_HEADER_INVALID)
    ensures r.Ok? ==> FirstAt(headers, "gate no", r.value.gateNoIdx) && FirstAt(headers, "area", r.value.areaIdx)
                      && FirstAt(headers, "warehouse", r.value.warehouseIdx)
  {
    var gateNoIdx := IndexOf(headers, "gate no");
    var areaIdx := IndexOf(headers, "area");
    var warehouseIdx := IndexOf(headers, "warehouse");
    if gateNoIdx == -1 || areaIdx == -1 || warehouseIdx == -1 then Err(Fail400(MSG_HEADER_INVALID))
    else Ok(HeaderIndexes(gateNoIdx, areaIdx, warehouseIdx))
  }

  // ---------------------------------------------------------------------
  // Upload and data rows
  // ---------------------------------------------------------------------

  /** What the import reads of the uploaded file: whether it has content, and its name if any. */
  datatype Upload = Upload(hasBuffer: bool, originalName: Option<string>)

  /**
   * The checks before the workbook is read: a file with content is
   * required, and a file name, when there is one, must end in `.xlsx` in
   * any letter case.
   */
  function CheckUpload(file: Option<Upload>): (r: Option<HttpError>)
    ensures r == Some(Fail400(MSG_FILE_REQUIRED)) <==> file.None? || !file.value.hasBuffer
    ensures r == Some(Fail400(MSG_FILE_FORMAT)) <==>
      file.Some? && file.value.hasBuffer && Present(file.value.originalName) && !EndsWith(ToLower(file.value.originalName.value), ".xlsx")
    ensures r.None? || r == Some(Fail400(MSG_FILE_REQUIRED)) || r == Some(Fail400(MSG_FILE_FORMAT))
  {
    if file.None? || !file.value.hasBuffer then Some(Fail400(MSG_FILE_REQUIRED))
    else if Present(file.value.originalName) && !EndsWith(ToLower(file.value.originalName.value), ".xlsx") then
      Some(Fail400(MSG_FILE_FORMAT))
    else None
  }

  /** The extension check ignores letter case: a name in capitals passes as its lower-case form does. */
  lemma UpperCaseExtensionAccepted(base: string)
    ensures CheckUpload(Some(Upload(true, Some(base + ".XLSX")))).None?
  {
    LowerEndsWith(base, ".XLSX");
    LowerExtension();
  }

  lemma LowerExtension()
    ensures ToLower(".XLSX") == ".xlsx"
  {
  }

  /** `row[k]` of a sheet row, `undefined` past its end. */
  function CellAt(row: seq<JsValue>, k: nat): JsValue
  {
    if k < |row| then row[k] else Undefined
  }

  /**
   * The rows after the header as import rows: the i-th gets row number
   * i + 2 (its line in the sheet) and the cells under the three headers.
   */
  function DataRows(rows: seq<seq<JsValue>>, idx: HeaderIndexes): (data: seq<GateService.ImportRow>)
    requires rows != []
    ensures |data| == |rows| - 1
    ensures forall i :: 0 <= i < |data| ==>
      && data[i].rowNumber == i + 2
      && data[i].gateNo == CellAt(rows[i + 1], idx.gateNoIdx)
      && data[i].area == CellAt(rows[i + 1], idx.areaIdx)
      && data[i].warehouse == CellAt(rows[i + 1], idx.warehouseIdx)
  {
    seq(|rows| - 1, i requires 0 <= i < |rows| - 1 =>
      GateService.ImportRow(i + 2, CellAt(rows[i + 1], idx.gateNoIdx), CellAt(rows[i + 1], idx.areaIdx), CellAt(rows[i + 1], idx.warehouseIdx)))
  }

  /**
   * `importGates`: the upload checks, then the header, then the import of
   * the data rows by the gate service; the first failure is the answer.
   */
  method ImportGates(file: Option<Upload>, rows: seq<seq<JsValue>>, stored: set<string>, dbCount: nat)
    returns (r: Result<GateService.ImportResult>)
    ensures CheckUpload(file).Some? ==> r == Err(CheckUpload(file).value)
    ensures CheckUpload(file).None? && EnsureGateHeader(rows).Err? ==> r == Err(EnsureGateHeader(rows).error)
    ensures CheckUpload(file).None? && EnsureGateHeader(rows).Ok? ==>
      r == Ok(GateService.ImportOutcome(DataRows(rows, EnsureGateHeader(rows).value), stored, dbCount))
  {
    var uploadError := CheckUpload(file);
    if uploadError.Some? {
      return Err(uploadError.value);
    }
    var header := EnsureGateHeader(rows);
    if header.Err? {
      return Err(header.error);
    }
    var dataRows := DataRows(rows, header.value);
    r := GateService.ImportGates(GateService.Rows(dataRows), stored, dbCount);
  }

  // ---------------------------------------------------------------------
  // Template and export
  // ---------------------------------------------------------------------

  /** The downloadable template: the header and two sample gates. */
  const TEMPLATE_ROWS: seq<seq<JsValue>> := [
    [Str("Gate No"), Str("Area"), Str("Warehouse")],
    [Str("G1"), Str("Area A"), Str("WH1")],
    [Str("G2"), Str("Area B"), Str("DG")]
  ]

  /** A gate as the export reads it; `createdAt` is the ISO text of the creation time, if any. */
  datatype GateRecord = GateRecord(gateNo: string, area: string, warehouse: string, createdAt: Option<string>)

  /** A gate's row: its three fields, then the creation time or an empty cell. */
  function ExportRow(g: GateRecord): (row: seq<JsValue>)
    ensures |row| == 4
    ensures row[..3] == [Str(g.gateNo), Str(g.area), Str(g.warehouse)]
    ensures row[3] == Str(if g.createdAt.Some? then g.createdAt.value else "")
  {
    [Str(g.gateNo), Str(g.area), Str(g.warehouse), Str(if g.createdAt.Some? then g.createdAt.value else "")]
  }

  /** The rows of the gate export: a header row, then one row per gate in the order given. */
  function ExportGateRows(gates: seq<GateRecord>): (rows: seq<seq<JsValue>>)
    ensures |rows| == |gates| + 1
    ensures rows[0] == [Str("Gate No"), Str("Area"), Str("Warehouse"), Str("Created At")]
    ensures forall i :: 0 <= i < |gates| ==> rows[i + 1] == ExportRow(gates[i])
  {
    [[Str("Gate No"), Str("Area"), Str("Warehouse"), Str("Created At")]] + seq(|gates|, i requires 0 <= i < |gates| => ExportRow(gates[i]))
  }

  predicate Letters(s: string)
  {
    forall i :: 0 <= i < |s| ==> 'a' <= s[i] <= 'z' || 'A' <= s[i] <= 'Z'
  }

  /** One word of letters, or two joined by a space, is already single-spaced. */
  lemma WordsSingleSpaced(a: string, b: string)
    requires Letters(a) && Letters(b)
    ensures SingleSpaced(a) && SingleSpaced(a + " " + b)
  {
    var s := a + " " + b;
    assert forall i :: 0 <= i < |a| ==> s[i] == a[i];
    assert forall i :: 0 <= i < |b| ==> s[|a| + 1 + i] == b[i];
  }

  /** Text without white space at its ends whose lower-case form is single-spaced normalises to that form. */
  lemma NormalizedAs(s: string, lower: string)
    requires s != [] && !IsSpace(s[0]) && !IsSpace(s[|s| - 1])
    requires ToLower(s) == lower && SingleSpaced(lower)
    ensures NormalizeHeader(s) == lower
  {
    TrimNoop(s);
    CollapseFixed(lower);
  }

  lemma GateNoHeader()
    ensures NormalizeHeader("Gate No") == "gate no"
  {
    assert ToLower("Gate No") == "gate no";
    assert SingleSpaced("gate no") by {
      WordsSingleSpaced("gate", "no");
      assert "gate" + " " + "no" == "gate no";
    }
    NormalizedAs("Gate No", "gate no");
  }

  lemma AreaHeader()
    ensures NormalizeHeader("Area") == "area"
  {
    assert ToLower("Area") == "area";
    assert SingleSpaced("area") by {
      WordsSingleSpaced("area", "");
    }
    NormalizedAs("Area", "area");
  }

  lemma WarehouseHeader()
    ensures NormalizeHeader("Warehouse") == "warehouse"
  {
    assert ToLower("Warehouse") == "warehouse";
    assert SingleSpaced("warehouse") by {
      WordsSingleSpaced("warehouse", "");
    }
    NormalizedAs("Warehouse", "warehouse");
  }

  /** Headers that start with the three required names are found at columns 0, 1 and 2. */
  lemma LeadingHeadersFound(names: seq<string>)
    requires |names| >= 3 && names[0] == "gate no" && names[1] == "area" && names[2] == "warehouse"
    ensures FindHeaders(names) == Ok(HeaderIndexes(0, 1, 2))
  {
    assert IndexOf(names, "gate no") == 0;
    assert IndexOf(names, "area") == 1;
    assert IndexOf(names, "warehouse") == 2;
  }

  /** A sheet whose first row starts with the three header cells is accepted at columns 0, 1 and 2. */
  lemma LeadingHeaderAccepted(rows: seq<seq<JsValue>>)
    requires rows != [] && |rows[0]| >= 3
    requires rows[0][0] == Str("Gate No") && rows[0][1] == Str("Area") && rows[0][2] == Str("Warehouse")
    ensures EnsureGateHeader(rows) == Ok(HeaderIndexes(0, 1, 2))
  {
    HeaderCells(rows[0]);
    LeadingHeadersFound(HeaderNames(rows[0]));
  }

  lemma HeaderCells(row: seq<JsValue>)
    requires |row| >= 3 && row[0] == Str("Gate No") && row[1] == Str("Area") && row[2] == Str("Warehouse")
    ensures HeaderNames(row)[0] == "gate no" && HeaderNames(row)[1] == "area" && HeaderNames(row)[2] == "warehouse"
  {
    GateNoHeader();
    HeaderCellName(row, 0, "Gate No", "gate no");
    AreaHeader();
    HeaderCellName(row, 1, "Area", "area");
    WarehouseHeader();
    HeaderCellName(row, 2, "Warehouse", "warehouse");
  }

  lemma HeaderCellName(row: seq<JsValue>, i: nat, cell: string, name: string)
    requires i < |row| && row[i] == Str(cell) && NormalizeHeader(cell) == name
    ensures HeaderNames(row)[i] == name
  {
  }

  /** The template's header is accepted, with the three columns in template order. */
  lemma TemplateHeaderAccepted()
    ensures EnsureGateHeader(TEMPLATE_ROWS) == Ok(HeaderIndexes(0, 1, 2))
  {
    LeadingHeaderAccepted(TEMPLATE_ROWS);
  }

  /**
   * A sheet written by the export can be imported again: its header is
   * accepted and every gate comes back as the data row of its line.
   */
  lemma ExportReimports(gates: seq<GateRecord>)
    ensures EnsureGateHeader(ExportGateRows(gates)) == Ok(HeaderIndexes(0, 1, 2))
    ensures forall i :: 0 <= i < |gates| ==>
      DataRows(ExportGateRows(gates), HeaderIndexes(0, 1, 2))[i]
        == GateService.ImportRow(i + 2, Str(gates[i].gateNo), Str(gates[i].area), Str(gates[i].warehouse))
  {
    var rows := ExportGateRows(gates);
    LeadingHeaderAccepted(rows);
    forall i | 0 <= i < |gates|
      ensures DataRows(rows, HeaderIndexes(0, 1, 2))[i]
        == GateService.ImportRow(i + 2, Str(gates[i].gateNo), Str(gates[i].area), Str(gates[i].warehouse))
    {
      assert rows[i + 1] == ExportRow(gates[i]);
    }
  }

  /** `master-gate_YYYY-MM-DD.xlsx` for the local date of the export. */
  function ExportFilename(today: Ymd): (r: string)
    ensures StartsWith(r, "master-gate_") && EndsWith(r, ".xlsx")
  {
    var day := IntToString(today.year) + "-" + Pad(today.month) + "-" + Pad(today.day);
    Framed("master-gate_", day, ".xlsx");
    "master-gate_" + day + ".xlsx"
  }
}
