/**
 * The customer service: creating a customer from a name, deleting one, and
 * importing customer names from the rows of a spreadsheet.
 */
module CustomerService {
  import opened Common
  import opened Text

  const MSG_NAME_REQUIRED := "Nama Customer wajib diisi"
  const MSG_ID_INVALID := "ID customer tidak valid"
  const MSG_DELETE_FAILED := "Customer tidak bisa dihapus (mungkin sudah dipakai)"
  const MSG_EXCEL_INVALID := "Data Excel tidak valid"
  const MSG_NO_NAMES := "Tidak ada data Nama Customer yang valid"

  // ---------------------------------------------------------------------
  // createCustomer / deleteCustomer
  // ---------------------------------------------------------------------

  /**
   * `createCustomer`: the name must be a string with some non-blank
   * character; the name stored is the trimmed text.
   */
  function CreateCustomer(name: JsValue): (r: Result<string>)
    ensures r.Ok? <==> name.Str? && !AllSpace(name.s)
    ensures r.Err? ==> r.error == Fail400(MSG_NAME_REQUIRED)
    ensures r.Ok? ==> r.value == Trim(name.s) && r.value != ""
  {
    if !Truthy(name) || !name.Str? || Trim(name.s) == "" then Err(Fail400(MSG_NAME_REQUIRED))
    else Ok(Trim(name.s))
  }

  /** Creating a customer from a stored name stores the same name again. */
  lemma CreateCustomerIdempotent(name: JsValue)
    requires CreateCustomer(name).Ok?
    ensures CreateCustomer(Str(CreateCustomer(name).value)) == CreateCustomer(name)
  {
    var stored := CreateCustomer(name).value;
    TrimNoop(stored);
  }

  datatype Deletion = Deletion(deleted: string, customers: map<string, string>)

  /**
   * `deleteCustomer` over a store of customer names by id: a missing id is
   * rejected; a delete the store refuses, because the id is unknown or the
   * customer is still referenced by other records, is reported as one 400.
   */
  function DeleteCustomer(id: Option<string>, customers: map<string, string>, inUse: set<string>): (r: Result<Deletion>)
    ensures !Present(id) ==> r == Err(Fail400(MSG_ID_INVALID))
    ensures Present(id) && (id.value !in customers || id.value in inUse) ==> r == Err(Fail400(MSG_DELETE_FAILED))
    ensures r.Ok? ==>
      && Present(id) && id.value in customers && id.value !in inUse
      && r.value.deleted == customers[id.value]
      && r.value.customers.Keys == customers.Keys - {id.value}
      && forall k :: k in r.value.customers ==> r.value.customers[k] == customers[k]
  {
    if !Present(id) then Err(Fail400(MSG_ID_INVALID))
    else if id.value !in customers || id.value in inUse then Err(Fail400(MSG_DELETE_FAILED))
    else Ok(Deletion(customers[id.value], customers - {id.value}))
  }

  // ---------------------------------------------------------------------
  // importCustomersFromExcel
  // ---------------------------------------------------------------------

  /**
   * A spreadsheet row: an object with the three columns a name may come
   * from, or something that is not an object (then every column reads as
   * `undefined`).
   */
  datatype CustomerRow = NotObject | RowObject(namaCustomer: JsValue, name: JsValue, nama: JsValue)

  datatype ImportInput = NotArray | Rows(rows: seq<CustomerRow>)

  datatype ImportSummary = ImportSummary(created: nat, skipped: nat)

  /**
   * The name of a row: the first truthy of "Nama Customer", `name` and
   * `Nama`, trimmed when it is a string and empty otherwise.
   */
  function RowName(row: CustomerRow): (r: string)
    ensures r != "" ==> !IsSpace(r[0]) && !IsSpace(r[|r| - 1])
  {
    TrimmedOrEmpty(RowValue(row))
  }

  /** The first truthy of the three name columns, or the empty string. */
  function RowValue(row: CustomerRow): JsValue
  {
    match row
    case NotObject => Str("")
    case RowObject(a, b, c) => if Truthy(a) then a else if Truthy(b) then b else if Truthy(c) then c else Str("")
  }

  /** The name of every row, in row order. */
  function Names(rows: seq<CustomerRow>): (names: seq<string>)
    ensures |names| == |rows|
    ensures forall i :: 0 <= i < |rows| ==> names[i] == RowName(rows[i])
  {
    seq(|rows|, i requires 0 <= i < |rows| => RowName(rows[i]))
  }

  /** The names that are not empty, in order. */
  function NonEmpty(names: seq<string>): (r: seq<string>)
    ensures forall x :: x in r <==> x in names && x != ""
  {
    if names == [] then []
    else
      var x := names[|names| - 1];
      NonEmpty(names[..|names| - 1]) + (if x != "" then [x] else [])
  }

  /** The non-empty row names, in row order. */
  function RowNames(rows: seq<CustomerRow>): seq<string>
  {
    NonEmpty(Names(rows))
  }

  function Identity(s: string): string { s }

  /** `Array.from(new Set(names))`: each name once, at its first occurrence. */
  function UniqueNames(names: seq<string>): seq<string>
  {
    FirstByKey(names, Identity)
  }

  /** The unique names hold each name exactly once, and no other. */
  lemma UniqueNamesSpec(names: seq<string>)
    ensures Distinct(UniqueNames(names))
    ensures forall x :: x in UniqueNames(names) <==> x in names
  {
    var u := UniqueNames(names);
    FirstByKeyDistinct(names, Identity);
    FirstByKeyKeys(names, Identity);
    forall x ensures x in u <==> x in names {
      if x in names {
        assert Identity(x) in KeySet(names, Identity);
      }
    }
  }

  /** The names not in `stored`, in order. */
  function NotStored(names: seq<string>, stored: set<string>): (r: seq<string>)
    ensures |r| <= |names|
    ensures forall x :: x in r <==> x in names && x !in stored
  {
    if names == [] then []
    else
      var x := names[|names| - 1];
      NotStored(names[..|names| - 1], stored) + (if x in stored then [] else [x])
  }

  lemma NotStoredNone(names: seq<string>, stored: set<string>)
    requires forall x :: x in names ==> x in stored
    ensures NotStored(names, stored) == []
  {
  }

  /** The names in `stored`, in order. */
  function OnlyStored(names: seq<string>, stored: set<string>): (r: seq<string>)
    ensures forall x :: x in r <==> x in names && x in stored
  {
    if names == [] then []
    else
      var x := names[|names| - 1];
      OnlyStored(names[..|names| - 1], stored) + (if x in stored then [x] else [])
  }

  /** Every name is either new or already stored. */
  lemma {:induction false} StoredPartition(names: seq<string>, stored: set<string>)
    ensures |NotStored(names, stored)| + |OnlyStored(names, stored)| == |names|
  {
    if names != [] {
      StoredPartition(names[..|names| - 1], stored);
    }
  }

  /**
   * `importCustomersFromExcel`: the non-empty names, each once, split into
   * the ones to create and the ones already stored.
   */
  function ImportCustomers(input: ImportInput, stored: set<string>): (r: Result<ImportSummary>)
    ensures input.NotArray? ==> r == Err(Fail400(MSG_EXCEL_INVALID))
    ensures input.Rows? ==>
      var unique := UniqueNames(RowNames(input.rows));
      && (unique == [] ==> r == Err(Fail400(MSG_NO_NAMES)))
      && (unique != [] ==> r == Ok(ImportSummary(|NotStored(unique, stored)|, |OnlyStored(unique, stored)|)))
  {
    if input.NotArray? then Err(Fail400(MSG_EXCEL_INVALID))
    else
      var unique := UniqueNames(RowNames(input.rows));
      if |unique| == 0 then Err(Fail400(MSG_NO_NAMES))
      else
        var toCreate := NotStored(unique, stored);
        StoredPartition(unique, stored);
        if |toCreate| == 0 then Ok(ImportSummary(0, |unique|))
        else Ok(ImportSummary(|toCreate|, |unique| - |toCreate|))
  }

  /** The rows that are created, each a distinct name that was not stored yet. */
  function ToCreate(rows: seq<CustomerRow>, stored: set<string>): seq<string>
  {
    NotStored(UniqueNames(RowNames(rows)), stored)
  }

  /**
   * Every name the sheet holds is created or skipped exactly once: the
   * counts add up to the number of different names.
   */
  lemma ImportCountsAddUp(rows: seq<CustomerRow>, stored: set<string>)
    requires ImportCustomers(Rows(rows), stored).Ok?
    ensures var s := ImportCustomers(Rows(rows), stored).value;
      s.created + s.skipped == |UniqueNames(RowNames(rows))|
  {
    StoredPartition(UniqueNames(RowNames(rows)), stored);
  }

  /**
   * Importing the same sheet again after its names were created creates
   * nothing and skips every name.
   */
  lemma ReimportCreatesNothing(rows: seq<CustomerRow>, stored: set<string>)
    requires ImportCustomers(Rows(rows), stored).Ok?
    ensures var unique := UniqueNames(RowNames(rows));
      var after := stored + set x | x in ToCreate(rows, stored);
      ImportCustomers(Rows(rows), after) == Ok(ImportSummary(0, |unique|))
  {
    var unique := UniqueNames(RowNames(rows));
    var after := stored + set x | x in ToCreate(rows, stored);
    NotStoredNone(unique, after);
    StoredPartition(unique, after);
  }

  /** A name is created exactly when some row holds it and it was not stored. */
  lemma ToCreateIff(rows: seq<CustomerRow>, stored: set<string>, x: string)
    ensures x in ToCreate(rows, stored) <==>
      x != "" && x !in stored && exists i :: 0 <= i < |rows| && RowName(rows[i]) == x
  {
    UniqueNamesSpec(RowNames(rows));
    if x in Names(rows) {
      var i :| 0 <= i < |rows| && Names(rows)[i] == x;
    }
  }
}
