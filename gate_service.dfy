/**
 * The gate service: sort normalisation, input normalisation and validation,
 * and the spreadsheet import, which sorts the counted rows into errors and
 * rows to create, first by validation and duplicates within the file, then
 * by the gates already stored.
 */
module GateService {
  import opened Common
  import opened Text

  const WAREHOUSES: seq<string> := ["WH1", "WH2", "DG"]
  const SORTABLE_FIELDS: seq<string> := ["gateNo", "area", "warehouse", "createdAt", "updatedAt"]

  const MSG_GATE_NO_REQUIRED := "Gate No wajib diisi"
  const MSG_AREA_REQUIRED := "Area wajib diisi"
  const MSG_WAREHOUSE_REQUIRED := "Warehouse wajib diisi"
  const MSG_WAREHOUSE_INVALID := "Warehouse tidak valid"
  const MSG_DUPLICATE := "Duplicate gate (gateNo+warehouse) already exists"
  const MSG_EXCEL_INVALID := "Data Excel tidak valid"

  // ---------------------------------------------------------------------
  // normalizeSort, buildOrderBy
  // ---------------------------------------------------------------------

  datatype SortDir = Asc | Desc
  datatype GateSort = GateSort(sortBy: string, sortDir: SortDir)

  /** `normalizeSort`: a whitelisted field (default `createdAt`), ascending only on a case-insensitive "asc". */
  function NormalizeSort(sortBy: JsValue, sortDir: JsValue): (r: GateSort)
    ensures r.sortBy in SORTABLE_FIELDS
    ensures sortBy.Str? && sortBy.s in SORTABLE_FIELDS ==> r.sortBy == sortBy.s
    ensures !(sortBy.Str? && sortBy.s in SORTABLE_FIELDS) ==> r.sortBy == "createdAt"
    ensures r.sortDir == Asc <==> sortDir.Str? && ToLower(sortDir.s) == "asc"
  {
    var field := if sortBy.Str? && sortBy.s in SORTABLE_FIELDS then sortBy.s else "createdAt";
    var dir := if sortDir.Str? && ToLower(sortDir.s) == "asc" then Asc else Desc;
    GateSort(field, dir)
  }

  /** `buildOrderBy`: the chosen key, then `createdAt` descending unless that is the chosen key; no key twice. */
  method BuildOrderBy(s: GateSort) returns (orderBy: seq<(string, SortDir)>)
    ensures |orderBy| >= 1 && orderBy[0] == (s.sortBy, s.sortDir)
    ensures |orderBy| == if s.sortBy == "createdAt" then 1 else 2
    ensures |orderBy| == 2 ==> orderBy[1] == ("createdAt", Desc)
    ensures forall i, j :: 0 <= i < j < |orderBy| ==> orderBy[i].0 != orderBy[j].0
  {
    orderBy := [(s.sortBy, s.sortDir)];
    if s.sortBy != "createdAt" {
      orderBy := orderBy + [("createdAt", Desc)];
    }
  }

  // ---------------------------------------------------------------------
  // normalizeInput, validateInput
  // ---------------------------------------------------------------------

  /** The fields of a create or update body, as sent. */
  datatype GateData = GateData(gateNo: JsValue, area: JsValue, warehouse: JsValue)

  datatype GateInput = GateInput(gateNo: string, area: string, warehouse: string)

  /** `normalizeInput`: every field trimmed ("" when not a string), the warehouse upper-cased. */
  function NormalizeInput(data: GateData): (r: GateInput)
    ensures r.gateNo == TrimmedOrEmpty(data.gateNo) && r.area == TrimmedOrEmpty(data.area)
    ensures r.warehouse == ToUpper(TrimmedOrEmpty(data.warehouse))
    ensures r.gateNo != "" ==> !IsSpace(r.gateNo[0]) && !IsSpace(r.gateNo[|r.gateNo| - 1])
  {
    GateInput(TrimmedOrEmpty(data.gateNo), TrimmedOrEmpty(data.area), ToUpper(TrimmedOrEmpty(data.warehouse)))
  }

  /** `validateInput`: the first failing check, in the order gate number, area, warehouse. */
  function ValidateInput(input: GateInput): (r: Option<HttpError>)
    ensures r.None? <==> input.gateNo != "" && input.area != "" && input.warehouse in WAREHOUSES
    ensures input.gateNo == "" ==> r == Some(Fail400(MSG_GATE_NO_REQUIRED))
    ensures input.gateNo != "" && input.area == "" ==> r == Some(Fail400(MSG_AREA_REQUIRED))
    ensures input.gateNo != "" && input.area != "" && input.warehouse !in WAREHOUSES ==> r == Some(Fail400(MSG_WAREHOUSE_INVALID))
  {
    if input.gateNo == "" then Some(Fail400(MSG_GATE_NO_REQUIRED))
    else if input.area == "" then Some(Fail400(MSG_AREA_REQUIRED))
    else if input.warehouse == "" || input.warehouse !in WAREHOUSES then Some(Fail400(MSG_WAREHOUSE_INVALID))
    else None
  }

  // ---------------------------------------------------------------------
  // importGatesFromExcel
  // ---------------------------------------------------------------------

  /** A data row of the sheet, with its sheet row number. */
  datatype ImportRow = ImportRow(rowNumber: int, gateNo: JsValue, area: JsValue, warehouse: JsValue)

  /** The rows handed to the import: not an array, or a list of rows. */
  datatype ImportInput = NotArray | Rows(rows: seq<ImportRow>)

  /** A row with its fields normalised as the import reads them. */
  datatype GateRow = GateRow(rowNumber: int, gateNo: string, area: string, warehouse: string)

  datatype ImportError = ImportError(rowNumber: int, gateNo: string, warehouse: string, message: string)

  datatype ImportResult = ImportResult(totalRows: nat, successRows: int, failedRows: int, errors: seq<ImportError>)

  function Normalize(row: ImportRow): GateRow
  {
    GateRow(row.rowNumber, TrimmedOrEmpty(row.gateNo), TrimmedOrEmpty(row.area), ToUpper(TrimmedOrEmpty(row.warehouse)))
  }

  /** A row whose three cells are blank (or not text) is skipped and not counted. */
  predicate IsBlank(g: GateRow)
  {
    g.gateNo == "" && g.area == "" && g.warehouse == ""
  }

  /** The first check a counted row fails, in the order gate number, area, warehouse given, warehouse known. */
  function Issue(g: GateRow): (m: Option<string>)
    ensures m.None? <==> g.gateNo != "" && g.area != "" && g.warehouse in WAREHOUSES
    ensures g.gateNo == "" ==> m == Some(MSG_GATE_NO_REQUIRED)
    ensures g.gateNo != "" && g.area == "" ==> m == Some(MSG_AREA_REQUIRED)
    ensures g.gateNo != "" && g.area != "" && g.warehouse == "" ==> m == Some(MSG_WAREHOUSE_REQUIRED)
    ensures g.gateNo != "" && g.area != "" && g.warehouse != "" && g.warehouse !in WAREHOUSES ==> m == Some(MSG_WAREHOUSE_INVALID)
  {
    if g.gateNo == "" then Some(MSG_GATE_NO_REQUIRED)
    else if g.area == "" then Some(MSG_AREA_REQUIRED)
    else if g.warehouse == "" then Some(MSG_WAREHOUSE_REQUIRED)
    else if g.warehouse !in WAREHOUSES then Some(MSG_WAREHOUSE_INVALID)
    else None
  }

  /** `${gateNo}||${warehouse}` */
  function Key(g: GateRow): string
  {
    g.gateNo + "||" + g.warehouse
  }

  function ErrorFor(g: GateRow, message: string): ImportError
  {
    ImportError(g.rowNumber, g.gateNo, g.warehouse, message)
  }

  /** The rows of the sheet, normalised. */
  function NormalizeAll(rows: seq<ImportRow>): (gs: seq<GateRow>)
    ensures |gs| == |rows| && forall i :: 0 <= i < |rows| ==> gs[i] == Normalize(rows[i])
  {
    seq(|rows|, i requires 0 <= i < |rows| => Normalize(rows[i]))
  }

  /** The counted rows: every non-blank row, in sheet order. */
  function Counted(gs: seq<GateRow>): seq<GateRow>
  {
    if gs == [] then []
    else
      var g := gs[|gs| - 1];
      Counted(gs[..|gs| - 1]) + (if IsBlank(g) then [] else [g])
  }

  /** The counted rows that pass every check. */
  function ValidRows(gs: seq<GateRow>): seq<GateRow>
  {
    if gs == [] then []
    else
      var g := gs[|gs| - 1];
      ValidRows(gs[..|gs| - 1]) + (if IsBlank(g) || Issue(g).Some? then [] else [g])
  }

  /** The error, if any, the first pass reports for row `g` after the rows `init`. */
  function ScanError(init: seq<GateRow>, g: GateRow): seq<ImportError>
  {
    if IsBlank(g) then []
    else if Issue(g).Some? then [ErrorFor(g, Issue(g).value)]
    else if Key(g) in KeySet(ValidRows(init), Key) then [ErrorFor(g, MSG_DUPLICATE)]
    else []
  }

  /**
   * The errors of the first pass, in sheet order: a counted row that fails
   * a check, or a valid row whose key an earlier valid row already has.
   */
  function ScanErrors(gs: seq<GateRow>): seq<ImportError>
  {
    if gs == [] then [] else ScanErrors(gs[..|gs| - 1]) + ScanError(gs[..|gs| - 1], gs[|gs| - 1])
  }

  /** Every counted row is either an error or a row to create, never both. */
  lemma {:induction false} ScanPartitions(gs: seq<GateRow>)
    ensures |ScanErrors(gs)| + |FirstByKey(ValidRows(gs), Key)| == |Counted(gs)|
  {
    if gs != [] {
      var init := gs[..|gs| - 1];
      var g := gs[|gs| - 1];
      ScanPartitions(init);
      var v := ValidRows(init);
      assert ScanErrors(gs) == ScanErrors(init) + ScanError(init, g);
      if IsBlank(g) {
        assert ValidRows(gs) == v && Counted(gs) == Counted(init) && ScanError(init, g) == [];
      } else if Issue(g).Some? {
        assert ValidRows(gs) == v && Counted(gs) == Counted(init) + [g] && |ScanError(init, g)| == 1;
      } else {
        assert ValidRows(gs) == v + [g] && Counted(gs) == Counted(init) + [g];
        FirstByKeyKeys(v, Key);
        FirstByKeyAppend(v, g);
      }
    }
  }

  lemma FirstByKeyAppend(s: seq<GateRow>, g: GateRow)
    ensures FirstByKey(s + [g], Key) ==
      if Key(g) in KeySet(FirstByKey(s, Key), Key) then FirstByKey(s, Key) else FirstByKey(s, Key) + [g]
  {
    assert (s + [g])[..|s|] == s;
  }

  /** The errors and rows to create after the first pass over some rows. */
  ghost predicate ScanState(done: seq<GateRow>, totalRows: nat, errors: seq<ImportError>, toCreate: seq<GateRow>, seen: set<string>)
  {
    && totalRows == |Counted(done)|
    && errors == ScanErrors(done)
    && toCreate == FirstByKey(ValidRows(done), Key)
    && seen == KeySet(toCreate, Key)
  }

  /**
   * The first loop of `importGatesFromExcel`: blank rows skipped, every
   * other row counted and either reported or kept, the first row of each
   * key winning.
   */
  method ScanRows(rows: seq<ImportRow>) returns (totalRows: nat, errors: seq<ImportError>, toCreate: seq<GateRow>)
    ensures totalRows == |Counted(NormalizeAll(rows))|
    ensures errors == ScanErrors(NormalizeAll(rows))
    ensures toCreate == FirstByKey(ValidRows(NormalizeAll(rows)), Key)
  {
    ghost var gs := NormalizeAll(rows);
    totalRows, errors, toCreate := 0, [], [];
    var seen: set<string> := {};
    var i := 0;
    while i < |rows|
      invariant 0 <= i <= |rows|
      invariant ScanState(gs[..i], totalRows, errors, toCreate, seen)
    {
      var g := Normalize(rows[i]);
      totalRows, errors, toCreate, seen := ScanRow(gs[..i], totalRows, errors, toCreate, seen, g);
      SnocSlice(gs, i);
      ScanStateSame(gs[..i] + [g], gs[..i + 1], totalRows, errors, toCreate, seen);
      i := i + 1;
    }
    assert gs[..i] == gs;
  }

  lemma ScanStateSame(a: seq<GateRow>, b: seq<GateRow>, totalRows: nat, errors: seq<ImportError>, toCreate: seq<GateRow>, seen: set<string>)
    requires a == b && ScanState(a, totalRows, errors, toCreate, seen)
    ensures ScanState(b, totalRows, errors, toCreate, seen)
  {
  }

  /** One turn of the first loop. */
  method ScanRow(ghost done: seq<GateRow>, totalRows0: nat, errors0: seq<ImportError>, toCreate0: seq<GateRow>, seen0: set<string>, g: GateRow)
    returns (totalRows: nat, errors: seq<ImportError>, toCreate: seq<GateRow>, seen: set<string>)
    requires ScanState(done, totalRows0, errors0, toCreate0, seen0)
    ensures ScanState(done + [g], totalRows, errors, toCreate, seen)
  {
    ghost var v := ValidRows(done);
    var issue := Issue(g);
    var key := Key(g);
    if IsBlank(g) {
      totalRows, errors, toCreate, seen := totalRows0, errors0, toCreate0, seen0;
      assert ScanError(done, g) == [];
    } else if issue.Some? {
      totalRows, errors, toCreate, seen := totalRows0 + 1, errors0 + [ErrorFor(g, issue.value)], toCreate0, seen0;
      assert ScanError(done, g) == [ErrorFor(g, issue.value)];
    } else {
      FirstByKeyKeys(v, Key);
      assert key in seen0 <==> key in KeySet(v, Key);
      if key in seen0 {
        totalRows, errors, toCreate, seen := totalRows0 + 1, errors0 + [ErrorFor(g, MSG_DUPLICATE)], toCreate0, seen0;
        assert ScanError(done, g) == [ErrorFor(g, MSG_DUPLICATE)];
      } else {
        totalRows, errors, toCreate, seen := totalRows0 + 1, errors0, toCreate0 + [g], seen0 + {key};
        assert ScanError(done, g) == [];
        KeySetAppend(toCreate0, g);
      }
    }
    ScanRowState(done, totalRows0, errors0, toCreate0, seen0, g, totalRows, errors, toCreate, seen);
  }

  lemma ScanRowState(done: seq<GateRow>, totalRows0: nat, errors0: seq<ImportError>, toCreate0: seq<GateRow>, seen0: set<string>, g: GateRow,
                     totalRows: nat, errors: seq<ImportError>, toCreate: seq<GateRow>, seen: set<string>)
    requires ScanState(done, totalRows0, errors0, toCreate0, seen0)
    requires totalRows == totalRows0 + (if IsBlank(g) then 0 else 1)
    requires errors == errors0 + ScanError(done, g)
    requires toCreate == toCreate0 + (if IsBlank(g) || Issue(g).Some? || Key(g) in seen0 then [] else [g])
    requires seen == KeySet(toCreate, Key)
    ensures ScanState(done + [g], totalRows, errors, toCreate, seen)
  {
    ScanStep(done, g);
    var v := ValidRows(done);
    if IsBlank(g) || Issue(g).Some? {
      assert ValidRows(done + [g]) == v;
      assert toCreate == toCreate0;
    } else {
      assert ValidRows(done + [g]) == v + [g];
      FirstByKeyKeys(v, Key);
      FirstByKeyAppend(v, g);
      assert KeySet(FirstByKey(v, Key), Key) == seen0;
      if Key(g) in seen0 {
        assert toCreate == toCreate0;
      } else {
        assert toCreate == toCreate0 + [g];
      }
    }
  }

  lemma ScanStep(done: seq<GateRow>, g: GateRow)
    ensures Counted(done + [g]) == Counted(done) + (if IsBlank(g) then [] else [g])
    ensures ValidRows(done + [g]) == ValidRows(done) + (if IsBlank(g) || Issue(g).Some? then [] else [g])
    ensures ScanErrors(done + [g]) == ScanErrors(done) + ScanError(done, g)
  {
    assert (done + [g])[..|done|] == done;
  }

  lemma KeySetAppend(s: seq<GateRow>, g: GateRow)
    ensures KeySet(s + [g], Key) == KeySet(s, Key) + {Key(g)}
  {
    assert (s + [g])[..|s|] == s;
  }

  /** The rows to create whose key is not stored yet. */
  function Fresh(toCreate: seq<GateRow>, stored: set<string>): seq<GateRow>
  {
    if toCreate == [] then []
    else
      var g := toCreate[|toCreate| - 1];
      Fresh(toCreate[..|toCreate| - 1], stored) + (if Key(g) in stored then [] else [g])
  }

  /** A duplicate error for each row to create whose key is already stored. */
  function StoredErrors(toCreate: seq<GateRow>, stored: set<string>): seq<ImportError>
  {
    if toCreate == [] then []
    else
      var g := toCreate[|toCreate| - 1];
      StoredErrors(toCreate[..|toCreate| - 1], stored) + (if Key(g) in stored then [ErrorFor(g, MSG_DUPLICATE)] else [])
  }

  /** Every row to create is either sent for creation or reported as stored already. */
  lemma {:induction false} StoredPartitions(toCreate: seq<GateRow>, stored: set<string>)
    ensures |Fresh(toCreate, stored)| + |StoredErrors(toCreate, stored)| == |toCreate|
    ensures forall g :: g in Fresh(toCreate, stored) ==> g in toCreate && Key(g) !in stored
  {
    if toCreate != [] {
      StoredPartitions(toCreate[..|toCreate| - 1], stored);
    }
  }

  /** The second loop: rows whose key is stored become errors, the others are kept for creation. */
  method DropStored(toCreate: seq<GateRow>, stored: set<string>, errors0: seq<ImportError>)
    returns (finalRows: seq<GateRow>, errors: seq<ImportError>)
    ensures finalRows == Fresh(toCreate, stored)
    ensures errors == errors0 + StoredErrors(toCreate, stored)
  {
    finalRows, errors := [], errors0;
    var j := 0;
    while j < |toCreate|
      invariant 0 <= j <= |toCreate|
      invariant finalRows == Fresh(toCreate[..j], stored)
      invariant errors == errors0 + StoredErrors(toCreate[..j], stored)
    {
      var g := toCreate[j];
      assert toCreate[..j + 1][..j] == toCreate[..j];
      if Key(g) in stored {
        errors := errors + [ErrorFor(g, MSG_DUPLICATE)];
      } else {
        finalRows := finalRows + [g];
      }
      j := j + 1;
    }
    assert toCreate[..j] == toCreate;
  }

  function Max(a: int, b: int): int { if a >= b then a else b }

  /**
   * What `importGatesFromExcel` reports for the rows of a sheet. `stored`
   * is the set of keys of the gates already in the database; `dbCount` is
   * the count `createMany` reports.
   */
  function ImportOutcome(rows: seq<ImportRow>, stored: set<string>, dbCount: nat): ImportResult
  {
    var gs := NormalizeAll(rows);
    OutcomeOf(|Counted(gs)|, ScanErrors(gs), FirstByKey(ValidRows(gs), Key), stored, dbCount)
  }

  /** The outcome from what the first pass found: the counted rows, their errors and the rows to create. */
  function OutcomeOf(total: nat, scanErrors: seq<ImportError>, toCreate: seq<GateRow>, stored: set<string>, dbCount: nat): ImportResult
  {
    if toCreate == [] then ImportResult(total, 0, total, scanErrors)
    else
      var created := if Fresh(toCreate, stored) == [] then 0 else dbCount;
      ImportResult(total, created, Max(0, total - created), scanErrors + StoredErrors(toCreate, stored))
  }

  /** `importGatesFromExcel`: a non-array body is a 400, otherwise the outcome above. */
  method ImportGates(input: ImportInput, stored: set<string>, dbCount: nat) returns (r: Result<ImportResult>)
    ensures input.NotArray? ==> r == Err(Fail400(MSG_EXCEL_INVALID))
    ensures input.Rows? ==> r == Ok(ImportOutcome(input.rows, stored, dbCount))
  {
    if input.NotArray? {
      return Err(Fail400(MSG_EXCEL_INVALID));
    }
    var totalRows, errors, toCreate := ScanRows(input.rows);
    var result := FinishImport(totalRows, errors, toCreate, stored, dbCount);
    r := Ok(result);
  }

  /** The rest of `importGatesFromExcel` after the first pass: the second pass and the counts. */
  method FinishImport(totalRows: nat, errors: seq<ImportError>, toCreate: seq<GateRow>, stored: set<string>, dbCount: nat)
    returns (result: ImportResult)
    ensures result == OutcomeOf(totalRows, errors, toCreate, stored, dbCount)
  {
    if |toCreate| == 0 {
      return ImportResult(totalRows, 0, totalRows, errors);
    }
    var finalRows, allErrors := DropStored(toCreate, stored, errors);
    var createdCount: int := 0;
    if |finalRows| > 0 {
      createdCount := dbCount;
    }
    result := ImportResult(totalRows, createdCount, Max(0, totalRows - createdCount), allErrors);
  }

  /**
   * The report counts every non-blank row; when no row survives validation
   * and deduplication nothing is created and every counted row has failed;
   * the failed count never goes below zero.
   */
  lemma ImportOutcomeShape(rows: seq<ImportRow>, stored: set<string>, dbCount: nat)
    ensures var o := ImportOutcome(rows, stored, dbCount);
      && o.totalRows == |Counted(NormalizeAll(rows))|
      && o.failedRows == Max(0, o.totalRows - o.successRows) >= 0
      && (ValidRows(NormalizeAll(rows)) == [] <==> o.errors == ScanErrors(NormalizeAll(rows)) && o.successRows == 0 && o.failedRows == o.totalRows && FirstByKey(ValidRows(NormalizeAll(rows)), Key) == [])
  {
    FirstByKeyEmpty(ValidRows(NormalizeAll(rows)));
  }

  /**
   * When `createMany` reports no more rows than it was given, every counted
   * row is either reported as an error or counted as created.
   */
  lemma ImportAccountsForEveryRow(rows: seq<ImportRow>, stored: set<string>, dbCount: nat)
    requires var toCreate := FirstByKey(ValidRows(NormalizeAll(rows)), Key); dbCount <= |Fresh(toCreate, stored)|
    ensures var gs := NormalizeAll(rows);
      var toCreate := FirstByKey(ValidRows(gs), Key);
      var created := if Fresh(toCreate, stored) == [] then 0 else dbCount;
      created <= |Counted(gs)| && |ScanErrors(gs)| + |StoredErrors(toCreate, stored)| + |Fresh(toCreate, stored)| == |Counted(gs)|
  {
    var gs := NormalizeAll(rows);
    ScanPartitions(gs);
    StoredPartitions(FirstByKey(ValidRows(gs), Key), stored);
  }

  lemma FirstByKeyEmpty(s: seq<GateRow>)
    ensures FirstByKey(s, Key) == [] <==> s == []
  {
    if s != [] {
      FirstByKeyKeys(s, Key);
      assert Key(s[0]) in KeySet(s, Key);
    }
  }

  /**
   * For a known warehouse the key determines the pair: two rows share a
   * key exactly when they share gate number and warehouse.
   */
  lemma KeyInjective(a: GateRow, b: GateRow)
    requires a.warehouse in WAREHOUSES && b.warehouse in WAREHOUSES
    ensures Key(a) == Key(b) <==> (a.gateNo, a.warehouse) == (b.gateNo, b.warehouse)
  {
    if Key(a) == Key(b) {
      var k := Key(a);
      assert k[|k| - 1] == a.warehouse[|a.warehouse| - 1] == b.warehouse[|b.warehouse| - 1];
      assert a.warehouse == b.warehouse;
      assert a.gateNo == k[..|k| - |a.warehouse| - 2] == b.gateNo;
    }
  }
}
