/**
 * The shipment-schedule service: the date-only parser with its UTC calendar
 * round trip, the sort and pagination normalisers, the truck-type search
 * candidates, payload and item normalisation, the list and export filters,
 * the per-schedule totals and the per-customer print grouping.
 */
module ScheduleService {
  import opened Common
  import opened Text
  import opened Calendar

  const STORE_TYPES: seq<string> := ["STORE_IN", "STORE_OUT"]

  /** The allowed truck-type codes; the print summary has one column per code, in this order. */
  const TRUCK_TYPES: seq<string> := ["CDD", "CDE", "FUSO", "WB", "FT20", "FT40", "OTHER"]

  /** The display label of each code of `TRUCK_TYPES`, at the same index. */
  const TRUCK_LABELS: seq<string> := ["CDD", "CDE", "FUSO", "W/B", "20 ft", "40 ft", "Other"]

  /** The column of `OTHER`, where unknown codes are counted. */
  const OTHER_COLUMN: nat := 6

  const MSG_ITEMS_REQUIRED := "Items wajib diisi minimal 1"
  const MSG_TRUCK_TYPE := "truckType tidak valid"
  const MSG_QTY := "qty harus angka bulat minimal 1"
  const MSG_OTHER_REQUIRED := "truckTypeOther wajib diisi saat truckType OTHER"
  const MSG_DATE := "scheduleDate harus format YYYY-MM-DD"
  const MSG_STORE_TYPE := "storeType harus STORE_IN atau STORE_OUT"
  const MSG_CUSTOMER := "customerId wajib diisi"

  /** The `TypeError` that reading `item.truckType` of a `null` element throws (V8's wording). */
  const MSG_NULL_ITEM := "Cannot read properties of null (reading 'truckType')"

  lemma TruckTypesDistinct()
    ensures Distinct(TRUCK_TYPES)
  {
  }

  // ---------------------------------------------------------------------
  // parseDateOnly
  // ---------------------------------------------------------------------

  /**
   * A day at 00:00 UTC lies inside the range of ECMAScript time values,
   * -271821-04-20 to 275760-09-13; outside it `Date.UTC` gives NaN.
   */
  predicate InTimeRange(y: int, m: int, d: int)
  {
    && (y > -271821 || (y == -271821 && (m > 4 || (m == 4 && d >= 20))))
    && (y < 275760 || (y == 275760 && (m < 9 || (m == 9 && d <= 13))))
  }

  /**
   * `new Date(Date.UTC(y, m - 1, d))` reports `y`, `m - 1` and `d` back:
   * the day exists, the year is not one of 0..99 (which `Date.UTC` reads
   * as 1900..1999) and the instant is representable.
   */
  predicate UtcRoundTrips(y: int, m: int, d: int)
  {
    ValidYmd(y, m, d) && !(0 <= y <= 99) && InTimeRange(y, m, d)
  }

  /**
   * `parseDateOnly`: a string that, trimmed, is three dash-separated
   * integers naming a day the UTC calendar gives back unchanged; anything
   * else is null.
   */
  function ParseDateOnly(v: JsValue): (r: Option<Ymd>)
    ensures !v.Str? || AllSpace(v.s) ==> r.None?
    ensures r.Some? ==> UtcRoundTrips(r.value.year, r.value.month, r.value.day)
    ensures r.Some? ==>
      var parts := Split(Trim(v.s), '-');
      && |parts| == 3
      && StringToNumber(parts[0]) == Finite(r.value.year as real)
      && StringToNumber(parts[1]) == Finite(r.value.month as real)
      && StringToNumber(parts[2]) == Finite(r.value.day as real)
  {
    if !v.Str? || Trim(v.s) == "" then None
    else
      var parts := Split(Trim(v.s), '-');
      if |parts| != 3 then None
      else
        var y, m, d := StringToNumber(parts[0]), StringToNumber(parts[1]), StringToNumber(parts[2]);
        if !(y.IsInteger() && m.IsInteger() && d.IsInteger()) then None
        else if UtcRoundTrips(y.value.Floor, m.value.Floor, d.value.Floor) then
          Some(Ymd(y.value.Floor, m.value.Floor, d.value.Floor))
        else None
  }

  /** A date written `YYYY-MM-DD` (month and day zero-padded) parses back to that day. */
  lemma ParseDateOnlyOfPrinted(y: nat, m: nat, d: nat)
    requires UtcRoundTrips(y, m, d)
    ensures ParseDateOnly(Str(NatToString(y) + "-" + Pad2(m) + "-" + Pad2(d))) == Some(Ymd(y, m, d))
  {
    var ys, ms, ds := NatToString(y), Pad2(m), Pad2(d);
    var s := ys + "-" + ms + "-" + ds;
    Pad2Digits(m);
    Pad2Digits(d);
    PrintedTrimmed(ys, ms, ds);
    PrintedSplit(ys, ms, ds);
    NumberOfDigits(ys);
    NumberOfDigits(ms);
    NumberOfDigits(ds);
    ParseIntegerParts(s, ys, ms, ds, y, m, d);
  }

  /** A printed date has no white space at either end. */
  lemma PrintedTrimmed(ys: string, ms: string, ds: string)
    requires AllDigits(ys) && |ds| == 2 && AllDigits(ds) && ys != []
    ensures var s := ys + "-" + ms + "-" + ds; s != "" && Trim(s) == s
  {
    var s := ys + "-" + ms + "-" + ds;
    assert s[0] == ys[0] && s[|s| - 1] == ds[1];
    TrimNoop(s);
  }

  /** A printed date splits on `-` into its three digit runs. */
  lemma PrintedSplit(ys: string, ms: string, ds: string)
    requires AllDigits(ys) && AllDigits(ms) && AllDigits(ds)
    ensures Split(ys + "-" + ms + "-" + ds, '-') == [ys, ms, ds]
  {
    DigitsHaveNoDash(ys);
    DigitsHaveNoDash(ms);
    DigitsHaveNoDash(ds);
    SplitThree(ys, ms, ds);
  }

  lemma ParseIntegerParts(s: string, a: string, b: string, c: string, y: int, m: int, d: int)
    requires Trim(s) == s && s != "" && Split(s, '-') == [a, b, c]
    requires StringToNumber(a) == Finite(y as real)
    requires StringToNumber(b) == Finite(m as real)
    requires StringToNumber(c) == Finite(d as real)
    requires UtcRoundTrips(y, m, d)
    ensures ParseDateOnly(Str(s)) == Some(Ymd(y, m, d))
  {
    var v := Str(s);
    assert Trim(v.s) == s;
    var parts := Split(Trim(v.s), '-');
    assert parts == [a, b, c];
    var ny, nm, nd := StringToNumber(parts[0]), StringToNumber(parts[1]), StringToNumber(parts[2]);
    assert ny == Finite(y as real) && nm == Finite(m as real) && nd == Finite(d as real);
    assert (y as real).Floor == y && (m as real).Floor == m && (d as real).Floor == d;
    assert ny.IsInteger() && nm.IsInteger() && nd.IsInteger();
  }

  // ---------------------------------------------------------------------
  // normalizeSort, buildOrderBy
  // ---------------------------------------------------------------------

  datatype SortField = ScheduleDate | CreatedAt
  datatype SortDir = Asc | Desc
  datatype SortSpec = SortSpec(sortBy: SortField, sortDir: SortDir)
  datatype OrderKey = OrderKey(field: SortField, dir: SortDir)

  /** `normalizeSort`: a whitelisted field (default `createdAt`), ascending only on a case-insensitive "asc". */
  function NormalizeSort(sortBy: JsValue, sortDir: JsValue): (r: SortSpec)
    ensures r.sortBy == ScheduleDate <==> sortBy == Str("scheduleDate")
    ensures r.sortDir == Asc <==> sortDir.Str? && ToLower(sortDir.s) == "asc"
  {
    var field := if sortBy == Str("scheduleDate") then ScheduleDate else CreatedAt;
    var dir := if sortDir.Str? && ToLower(sortDir.s) == "asc" then Asc else Desc;
    SortSpec(field, dir)
  }

  /** `buildOrderBy`: the chosen key first, then the other field descending as a tiebreaker. */
  function BuildOrderBy(s: SortSpec): (r: seq<OrderKey>)
    ensures |r| == 2 && r[0] == OrderKey(s.sortBy, s.sortDir)
    ensures r[1].dir == Desc && r[1].field != r[0].field
  {
    match s.sortBy
    case ScheduleDate => [OrderKey(ScheduleDate, s.sortDir), OrderKey(CreatedAt, Desc)]
    case CreatedAt => [OrderKey(CreatedAt, s.sortDir), OrderKey(ScheduleDate, Desc)]
  }

  // ---------------------------------------------------------------------
  // mapTruckTypeCandidates
  // ---------------------------------------------------------------------

  /** For each truck type, whether its code or its label contains the lower-cased query. */
  function CandidateFlags(q: string): (flags: seq<bool>)
    ensures |flags| == |TRUCK_TYPES|
  {
    seq(|TRUCK_TYPES|, i requires 0 <= i < |TRUCK_TYPES| =>
      Contains(ToLower(TRUCK_TYPES[i]), q) || Contains(ToLower(TRUCK_LABELS[i]), q))
  }

  /** `mapTruckTypeCandidates`: the truck types, in list order, matching the trimmed, lower-cased search. */
  function MapTruckTypeCandidates(search: string): (r: seq<string>)
    ensures AllSpace(search) ==> r == []
  {
    var q := ToLower(Trim(search));
    if q == "" then [] else Selected(TRUCK_TYPES, CandidateFlags(q), |TRUCK_TYPES|)
  }

  /** A truck type is a candidate exactly when its code or label contains the query. */
  lemma CandidatesIff(search: string, i: nat)
    requires !AllSpace(search) && i < |TRUCK_TYPES|
    ensures TRUCK_TYPES[i] in MapTruckTypeCandidates(search) <==>
      var q := ToLower(Trim(search));
      Contains(ToLower(TRUCK_TYPES[i]), q) || Contains(ToLower(TRUCK_LABELS[i]), q)
  {
    TruckTypesDistinct();
    SelectedMembership(TRUCK_TYPES, CandidateFlags(ToLower(Trim(search))), |TRUCK_TYPES|, i);
  }

  /** Every candidate is an allowed truck type. */
  lemma CandidatesAllowed(search: string)
    ensures forall t :: t in MapTruckTypeCandidates(search) ==> t in TRUCK_TYPES
  {
    var q := ToLower(Trim(search));
    if q != "" {
      SelectedSubset(TRUCK_TYPES, CandidateFlags(q), |TRUCK_TYPES|);
    }
  }

  // ---------------------------------------------------------------------
  // normalizeItems, normalizeSchedulePayload
  // ---------------------------------------------------------------------

  /** An element of the request's `items` array: an object with its fields as sent, or `null`. */
  datatype RawItem = RawItem(truckType: JsValue, qty: JsValue, truckTypeOther: JsValue) | NullItem

  /** The `items` field of the body: not an array, or an array of items. */
  datatype RawItems = NotArray | Items(items: seq<RawItem>)

  /** A stored schedule item. */
  datatype Item = Item(truckType: string, truckTypeOther: Option<string>, qty: int)

  /** What the service guarantees about every item it stores. */
  predicate ItemValid(it: Item)
  {
    && it.truckType in TRUCK_TYPES
    && it.qty >= 1
    && (it.truckTypeOther.Some? <==> it.truckType == "OTHER")
    && (it.truckTypeOther.Some? ==> it.truckTypeOther.value != "")
  }

  /** `Number.isInteger(qty) && qty >= 1` of `Number(item.qty)`. */
  predicate QtyOk(qty: JsValue)
  {
    ToNumber(qty).IsInteger() && ToNumber(qty).value >= 1.0
  }

  /**
   * One item of `normalizeItems`: a `null` element throws a `TypeError`
   * (status 500 at the error handler); otherwise the first failing check,
   * in the order truck type, qty, other-type text, and the normalised item
   * when all three pass.
   */
  function NormalizeItem(raw: RawItem): (r: Result<Item>)
    ensures raw.NullItem? ==> r == Err(HttpError(500, MSG_NULL_ITEM, None))
    ensures r.Ok? <==>
      && raw.RawItem?
      && ToUpper(TrimmedOrEmpty(raw.truckType)) in TRUCK_TYPES
      && QtyOk(raw.qty)
      && (ToUpper(TrimmedOrEmpty(raw.truckType)) == "OTHER" ==> TrimmedOrEmpty(raw.truckTypeOther) != "")
    ensures r.Ok? ==> ItemValid(r.value)
    ensures r.Ok? ==> r.value.truckType == ToUpper(TrimmedOrEmpty(raw.truckType))
    ensures r.Ok? ==> ToNumber(raw.qty) == Finite(r.value.qty as real)
    ensures r.Ok? && r.value.truckTypeOther.Some? ==> r.value.truckTypeOther.value == TrimmedOrEmpty(raw.truckTypeOther)
    ensures raw.RawItem? && ToUpper(TrimmedOrEmpty(raw.truckType)) !in TRUCK_TYPES ==> r == Err(Fail400(MSG_TRUCK_TYPE))
    ensures raw.RawItem? && ToUpper(TrimmedOrEmpty(raw.truckType)) in TRUCK_TYPES && !QtyOk(raw.qty) ==>
      r == Err(Fail400(MSG_QTY))
    ensures (raw.RawItem? && ToUpper(TrimmedOrEmpty(raw.truckType)) == "OTHER" && QtyOk(raw.qty) &&
             TrimmedOrEmpty(raw.truckTypeOther) == "") ==> r == Err(Fail400(MSG_OTHER_REQUIRED))
  {
    if raw.NullItem? then Err(HttpError(500, MSG_NULL_ITEM, None))
    else
      var truckType := ToUpper(TrimmedOrEmpty(raw.truckType));
      var qty := ToNumber(raw.qty);
      var other := TrimmedOrEmpty(raw.truckTypeOther);
      if truckType !in TRUCK_TYPES then Err(Fail400(MSG_TRUCK_TYPE))
      else if !(qty.IsInteger() && qty.value >= 1.0) then Err(Fail400(MSG_QTY))
      else if truckType == "OTHER" && other == "" then Err(Fail400(MSG_OTHER_REQUIRED))
      else Ok(Item(truckType, if truckType == "OTHER" then Some(other) else None, qty.value.Floor))
  }

  /** `items.map(...)` where a failing item throws: every item, or the first error. */
  function MapItems(items: seq<RawItem>): (r: Result<seq<Item>>)
    ensures r.Ok? <==> forall i :: 0 <= i < |items| ==> NormalizeItem(items[i]).Ok?
    ensures r.Ok? ==> |r.value| == |items|
    ensures r.Ok? ==> forall i :: 0 <= i < |items| ==> NormalizeItem(items[i]) == Ok(r.value[i])
    ensures r.Err? ==> exists i :: 0 <= i < |items| && NormalizeItem(items[i]) == Err(r.error) &&
                        forall j :: 0 <= j < i ==> NormalizeItem(items[j]).Ok?
  {
    var r := MapAll(items, NormalizeItem);
    if r.Err? then MapAllFirstError(items, NormalizeItem); r else r
  }

  /** `normalizeItems`: a non-empty array whose items all normalise, in the same order. */
  function NormalizeItems(raw: RawItems): (r: Result<seq<Item>>)
    ensures raw.NotArray? || raw.items == [] ==> r == Err(Fail400(MSG_ITEMS_REQUIRED))
    ensures r.Ok? <==> raw.Items? && raw.items != [] && forall i :: 0 <= i < |raw.items| ==> NormalizeItem(raw.items[i]).Ok?
    ensures raw.Items? && raw.items != [] ==> r == MapItems(raw.items)
    ensures r.Ok? ==> |r.value| >= 1 && forall i :: 0 <= i < |r.value| ==> ItemValid(r.value[i])
  {
    if raw.NotArray? || raw.items == [] then Err(Fail400(MSG_ITEMS_REQUIRED))
    else MapItems(raw.items)
  }

  /** The body of a create or update request. */
  datatype SchedulePayload = SchedulePayload(scheduleDate: JsValue, storeType: JsValue, customerId: JsValue, items: RawItems)

  datatype Schedule = Schedule(scheduleDate: Ymd, storeType: string, customerId: string, items: seq<Item>)

  /**
   * `normalizeSchedulePayload`: the first failing check in the order date,
   * store type, customer, items; otherwise the normalised schedule.
   */
  function NormalizeSchedulePayload(data: SchedulePayload): (r: Result<Schedule>)
    ensures ParseDateOnly(data.scheduleDate).None? ==> r == Err(Fail400(MSG_DATE))
    ensures ParseDateOnly(data.scheduleDate).Some? && ToUpper(TrimmedOrEmpty(data.storeType)) !in STORE_TYPES ==>
      r == Err(Fail400(MSG_STORE_TYPE))
    ensures (ParseDateOnly(data.scheduleDate).Some? && ToUpper(TrimmedOrEmpty(data.storeType)) in STORE_TYPES &&
             TrimmedOrEmpty(data.customerId) == "") ==> r == Err(Fail400(MSG_CUSTOMER))
    ensures r.Ok? ==> r.value.scheduleDate == ParseDateOnly(data.scheduleDate).value
    ensures r.Ok? ==> r.value.storeType in STORE_TYPES && r.value.customerId != ""
    ensures r.Ok? ==> r.value.customerId == TrimmedOrEmpty(data.customerId)
    ensures r.Ok? ==> NormalizeItems(data.items) == Ok(r.value.items)
    ensures r.Err? && NormalizeItems(data.items).Ok? ==> r.error.message in {MSG_DATE, MSG_STORE_TYPE, MSG_CUSTOMER}
    ensures r.Ok? <==>
      && ParseDateOnly(data.scheduleDate).Some? && ToUpper(TrimmedOrEmpty(data.storeType)) in STORE_TYPES
      && TrimmedOrEmpty(data.customerId) != "" && NormalizeItems(data.items).Ok?
    ensures r.Ok? ==> r.value.storeType == ToUpper(TrimmedOrEmpty(data.storeType))
    ensures (ParseDateOnly(data.scheduleDate).Some? && ToUpper(TrimmedOrEmpty(data.storeType)) in STORE_TYPES &&
             TrimmedOrEmpty(data.customerId) != "" && NormalizeItems(data.items).Err?) ==>
      r == Err(NormalizeItems(data.items).error)
  {
    var date := ParseDateOnly(data.scheduleDate);
    var storeType := ToUpper(TrimmedOrEmpty(data.storeType));
    var customerId := TrimmedOrEmpty(data.customerId);
    if date.None? then Err(Fail400(MSG_DATE))
    else if storeType !in STORE_TYPES then Err(Fail400(MSG_STORE_TYPE))
    else if customerId == "" then Err(Fail400(MSG_CUSTOMER))
    else
      match NormalizeItems(data.items)
      case Err(e) => Err(e)
      case Ok(items) => Ok(Schedule(date.value, storeType, customerId, items))
  }

  // ---------------------------------------------------------------------
  // buildWhere, buildExportWhere
  // ---------------------------------------------------------------------

  /** The query parameters the list, export and print endpoints read. */
  datatype ScheduleQuery = ScheduleQuery(
    date: JsValue,
    storeType: JsValue,
    search: JsValue,
    dateFrom: JsValue,
    dateTo: JsValue)

  /** One alternative of `where.OR` (case-insensitive matching is the database's). */
  datatype SearchClause =
    | CustomerNameContains(text: string)
    | ItemOtherContains(text: string)
    | ItemTypeIn(types: seq<string>)

  /** The list filter; None is an absent key. */
  datatype ScheduleWhere = ScheduleWhere(scheduleDate: Option<Ymd>, storeType: Option<string>, anyOf: Option<seq<SearchClause>>)

  /** `buildWhere` */
  method BuildWhere(q: ScheduleQuery) returns (w: ScheduleWhere)
    ensures w.scheduleDate == ParseDateOnly(q.date)
    ensures w.storeType.Some? <==> q.storeType.Str? && q.storeType.s in STORE_TYPES
    ensures w.storeType.Some? ==> w.storeType == Some(q.storeType.s)
    ensures w.anyOf.Some? <==> q.search.Str? && !AllSpace(q.search.s)
    ensures w.anyOf.Some? ==> |w.anyOf.value| in {2, 3}
    ensures w.anyOf.Some? ==> w.anyOf.value[0] == CustomerNameContains(Trim(q.search.s))
    ensures w.anyOf.Some? ==> w.anyOf.value[1] == ItemOtherContains(Trim(q.search.s))
    ensures w.anyOf.Some? ==> (|w.anyOf.value| == 3 <==> MapTruckTypeCandidates(Trim(q.search.s)) != [])
    ensures w.anyOf.Some? && |w.anyOf.value| == 3 ==> w.anyOf.value[2] == ItemTypeIn(MapTruckTypeCandidates(Trim(q.search.s)))
  {
    w := ScheduleWhere(None, None, None);
    var scheduleDate := ParseDateOnly(q.date);
    if scheduleDate.Some? {
      w := w.(scheduleDate := scheduleDate);
    }
    if q.storeType.Str? && q.storeType.s in STORE_TYPES {
      w := w.(storeType := Some(q.storeType.s));
    }
    var search := TrimmedOrEmpty(q.search);
    assert search != "" <==> q.search.Str? && !AllSpace(q.search.s);
    if search != "" {
      var candidates := MapTruckTypeCandidates(search);
      var clauses := [CustomerNameContains(search), ItemOtherContains(search)];
      if |candidates| > 0 {
        clauses := clauses + [ItemTypeIn(candidates)];
      }
      w := w.(anyOf := Some(clauses));
    }
  }

  /** `buildExportWhere`: a date range only when both ends parse. */
  function BuildExportWhere(q: ScheduleQuery): (r: Option<(Ymd, Ymd)>)
    ensures r.Some? <==> ParseDateOnly(q.dateFrom).Some? && ParseDateOnly(q.dateTo).Some?
    ensures r.Some? ==> r.value == (ParseDateOnly(q.dateFrom).value, ParseDateOnly(q.dateTo).value)
  {
    match (ParseDateOnly(q.dateFrom), ParseDateOnly(q.dateTo))
    case (Some(f), Some(t)) => Some((f, t))
    case _ => None
  }

  // ---------------------------------------------------------------------
  // mapScheduleListItem
  // ---------------------------------------------------------------------

  /** The customer the list query includes with a schedule. */
  datatype CustomerRef = CustomerRef(id: string, name: string)

  /** A stored schedule with its customer and items; the two stamps are milliseconds. */
  datatype ScheduleRow = ScheduleRow(
    id: string,
    scheduleDate: Ymd,
    storeType: string,
    customer: CustomerRef,
    createdByUserId: Option<string>,
    createdAt: int,
    updatedAt: int,
    items: seq<Item>)

  /** A schedule as the list returns it. */
  datatype ScheduleSummary = ScheduleSummary(
    id: string,
    scheduleDate: Ymd,
    storeType: string,
    customer: CustomerRef,
    createdByUserId: Option<string>,
    createdAt: int,
    updatedAt: int,
    totalQty: int,
    totalTypes: nat)

  function SumQty(items: seq<Item>): int
  {
    if items == [] then 0 else SumQty(items[..|items| - 1]) + items[|items| - 1].qty
  }

  /** The text of `truckTypeOther || ""` lower-cased. */
  function OtherKey(it: Item): string
  {
    ToLower(if it.truckTypeOther.Some? then it.truckTypeOther.value else "")
  }

  /** The `Set` key of an item: `${truckType}::${other}`. */
  function TypeKey(it: Item): string
  {
    it.truckType + "::" + OtherKey(it)
  }

  /** An item's truck code with its lower-cased other-type text. */
  function TypePair(it: Item): (string, string)
  {
    (it.truckType, OtherKey(it))
  }

  /**
   * `mapScheduleListItem`: the row's own fields and customer, the summed
   * quantity, and as `totalTypes` the size of the `Set` of type keys, which
   * for stored codes is the number of distinct (code, lower-cased other
   * text) pairs.
   */
  function MapScheduleListItem(row: ScheduleRow): (r: ScheduleSummary)
    ensures (r.id, r.scheduleDate, r.storeType, r.customer) == (row.id, row.scheduleDate, row.storeType, row.customer)
    ensures (r.createdByUserId, r.createdAt, r.updatedAt) == (row.createdByUserId, row.createdAt, row.updatedAt)
    ensures r.totalQty == SumQty(row.items)
    ensures r.totalTypes == |KeySet(row.items, TypeKey)|
    ensures (forall i :: 0 <= i < |row.items| ==> row.items[i].truckType in TRUCK_TYPES) ==>
      r.totalTypes == |KeySet(row.items, TypePair)|
    ensures r.totalTypes <= |row.items|
    ensures row.items != [] ==> r.totalTypes >= 1
  {
    var keys := KeySet(row.items, TypeKey);
    KeySetSize(row.items, TypeKey);
    StoredTypeKeyCount(row.items);
    ScheduleSummary(row.id, row.scheduleDate, row.storeType, row.customer, row.createdByUserId, row.createdAt, row.updatedAt,
                    SumQty(row.items), |keys|)
  }

  /** For stored codes the `Set` of type keys has as many members as there are distinct (code, other text) pairs. */
  lemma StoredTypeKeyCount(items: seq<Item>)
    ensures (forall i :: 0 <= i < |items| ==> items[i].truckType in TRUCK_TYPES) ==>
      |KeySet(items, TypeKey)| == |KeySet(items, TypePair)|
  {
    if forall i :: 0 <= i < |items| ==> items[i].truckType in TRUCK_TYPES {
      forall i, j | 0 <= i < |items| && 0 <= j < |items|
        ensures TypeKey(items[i]) == TypeKey(items[j]) <==> TypePair(items[i]) == TypePair(items[j])
      {
        TypeKeyInjective(items[i], items[j]);
      }
      KeySetSameSize(items, TypeKey, TypePair);
    }
  }

  /** With valid items the total quantity is at least the number of items. */
  lemma {:induction false} SumQtyAtLeastCount(items: seq<Item>)
    requires forall i :: 0 <= i < |items| ==> ItemValid(items[i])
    ensures SumQty(items) >= |items|
  {
    if items != [] {
      SumQtyAtLeastCount(items[..|items| - 1]);
    }
  }

  lemma {:induction false} KeySetSize<T, K>(s: seq<T>, key: T -> K)
    ensures |KeySet(s, key)| <= |s|
    ensures s != [] ==> |KeySet(s, key)| >= 1
  {
    if s != [] {
      KeySetSize(s[..|s| - 1], key);
      assert key(s[0]) in KeySet(s, key);
    }
  }

  /** A code of `TRUCK_TYPES` holds no colon. */
  lemma CodesHaveNoColon(t: string)
    requires t in TRUCK_TYPES
    ensures ':' !in t
  {
  }

  /**
   * For stored items (codes from `TRUCK_TYPES`), two items share a `Set`
   * key exactly when they share the code and the lower-cased other-type
   * text, so `totalTypes` counts distinct such pairs.
   */
  lemma TypeKeyInjective(a: Item, b: Item)
    requires a.truckType in TRUCK_TYPES && b.truckType in TRUCK_TYPES
    ensures TypeKey(a) == TypeKey(b) <==> (a.truckType, OtherKey(a)) == (b.truckType, OtherKey(b))
  {
    if TypeKey(a) == TypeKey(b) {
      CodesHaveNoColon(a.truckType);
      CodesHaveNoColon(b.truckType);
      ColonAfterCode(a.truckType, OtherKey(a));
      ColonAfterCode(b.truckType, OtherKey(b));
      var k := TypeKey(a);
      assert a.truckType == k[..IndexOf(k, ':')] == b.truckType;
      assert OtherKey(a) == k[|a.truckType| + 2..] == OtherKey(b);
    }
  }

  lemma ColonAfterCode(t: string, o: string)
    requires ':' !in t
    ensures IndexOf(t + "::" + o, ':') == |t|
    ensures (t + "::" + o)[..|t|] == t && (t + "::" + o)[|t| + 2..] == o
  {
    var k := t + "::" + o;
    assert k[|t|] == ':';
    assert forall j :: 0 <= j < |t| ==> k[j] == t[j];
  }

  // ---------------------------------------------------------------------
  // Pagination in listSchedules
  // ---------------------------------------------------------------------

  /** `Number.isFinite(raw) && raw > 0 ? Math.floor(raw) : fallback`, as `listSchedules` reads `limit` and `page`. */
  function PositiveFloorOr(raw: Numeric, fallback: int): (r: int)
    ensures raw.Finite? && raw.value > 0.0 ==> r == raw.value.Floor && r >= 0
    ensures !(raw.Finite? && raw.value > 0.0) ==> r == fallback
  {
    if raw.Finite? && raw.value > 0.0 then raw.value.Floor else fallback
  }

  /** The page arithmetic of `listSchedules`, with the `Math.ceil(total / limit)` of a zero limit kept as a `Numeric`. */
  datatype PageMetaAsWritten = PageMetaAsWritten(page: int, limit: int, totalPages: Numeric, skip: int)

  /** `Math.ceil(total / limit)` for a positive limit. */
  function CeilDiv(total: nat, limit: nat): (q: nat)
    requires limit >= 1
    ensures q * limit >= total && (q == 0 || (q - 1) * limit < total)
  {
    (total + limit - 1) / limit
  }

  /**
   * The pagination of `listSchedules` as written: the `> 0` test comes
   * before `Math.floor`, so a fraction below 1 becomes a limit or page of 0.
   * A zero limit divides by zero (`Infinity`, or `NaN` when there are no
   * rows), which no page exceeds.
   */
  function PaginateAsWritten(rawPage: Numeric, rawLimit: Numeric, total: nat): (m: PageMetaAsWritten)
    ensures m.limit >= 0 && m.page >= 0
    ensures m.limit >= 1 ==> m.totalPages.Finite?
  {
    var limit := PositiveFloorOr(rawLimit, 15);
    var requested := PositiveFloorOr(rawPage, 1);
    var totalPages: Numeric :=
      if limit == 0 then (if total == 0 then NotANumber else Infinite(true))
      else Finite(Max(1, CeilDiv(total, limit)) as real);
    var page := if totalPages.Finite? && requested as real > totalPages.value then totalPages.value.Floor else requested;
    PageMetaAsWritten(page, limit, totalPages, (page - 1) * limit)
  }

  /** `?page=0.5` gives a negative `skip`; `?limit=0.5` takes no rows and reports `Infinity` pages. */
  lemma PaginateFractionCounterexample()
    ensures PaginateAsWritten(Finite(0.5), NotANumber, 40).skip == -15
    ensures PaginateAsWritten(Finite(2.0), Finite(0.5), 40).limit == 0
    ensures PaginateAsWritten(Finite(2.0), Finite(0.5), 40).totalPages == Infinite(true)
  {
  }

  function Max(a: int, b: int): int { if a >= b then a else b }

  /** `Number.isFinite(raw) && Math.floor(raw) >= 1 ? Math.floor(raw) : fallback`: only a positive whole part counts. */
  function AtLeastOneOr(raw: Numeric, fallback: int): (r: int)
    ensures raw.Finite? && raw.value >= 1.0 ==> r == raw.value.Floor && r >= 1
    ensures !(raw.Finite? && raw.value >= 1.0) ==> r == fallback
  {
    if raw.Finite? && raw.value >= 1.0 then raw.value.Floor else fallback
  }

  /** The corrected reading agrees with the written one on every input except a fraction in (0, 1). */
  lemma AtLeastOneAgrees(raw: Numeric, fallback: int)
    requires !(raw.Finite? && 0.0 < raw.value < 1.0)
    ensures AtLeastOneOr(raw, fallback) == PositiveFloorOr(raw, fallback)
  {
  }

  datatype PageMeta = PageMeta(page: nat, limit: nat, totalPages: nat, skip: nat)

  /**
   * The pagination of `listSchedules` with the whole part compared: `limit`
   * (default 15) and `page` (default 1) are at least 1, the page is
   * clamped to the last one, and the rows skipped lie before the total.
   */
  method Paginate(rawPage: Numeric, rawLimit: Numeric, total: nat) returns (m: PageMeta)
    ensures m.limit == AtLeastOneOr(rawLimit, 15) && m.limit >= 1
    ensures m.totalPages == Max(1, CeilDiv(total, m.limit))
    ensures 1 <= m.page <= m.totalPages
    ensures m.page == if AtLeastOneOr(rawPage, 1) > m.totalPages then m.totalPages else AtLeastOneOr(rawPage, 1)
    ensures m.skip == (m.page - 1) * m.limit
    ensures total > 0 ==> m.skip < total
  {
    var limit := AtLeastOneOr(rawLimit, 15);
    var page := AtLeastOneOr(rawPage, 1);
    var totalPages := Max(1, CeilDiv(total, limit));
    if page > totalPages {
      page := totalPages;
    }
    var skip := (page - 1) * limit;
    SkipInside(total, limit, page, totalPages, skip);
    m := PageMeta(page, limit, totalPages, skip);
  }

  /** A page no later than the last one starts inside the rows. */
  lemma SkipInside(total: nat, limit: int, page: int, totalPages: int, skip: int)
    requires limit >= 1 && totalPages == Max(1, CeilDiv(total, limit)) && 1 <= page <= totalPages
    requires skip == (page - 1) * limit
    ensures skip >= 0
    ensures total > 0 ==> skip < total
  {
    MulMono(0, page - 1, limit);
    if total > 0 {
      var q := CeilDiv(total, limit);
      CeilPositive(total, limit);
      MulMono(page - 1, q - 1, limit);
    }
  }

  lemma CeilPositive(total: nat, limit: nat)
    requires limit >= 1 && total > 0
    ensures CeilDiv(total, limit) >= 1
  {
  }

  lemma MulMono(a: int, b: int, c: int)
    requires 0 <= a <= b && c >= 0
    ensures a * c <= b * c
  {
  }

  // ---------------------------------------------------------------------
  // Grouping in listSchedulesForPrint
  // ---------------------------------------------------------------------

  /** An item as the print query selects it. */
  datatype PrintItem = PrintItem(truckType: string, qty: int)

  /** A schedule as the print query selects it; `customerName` is None when the customer or its name is missing. */
  datatype PrintRow = PrintRow(customerName: Option<string>, storeType: string, items: seq<PrintItem>)

  /** One customer's totals: one counter per column of `TRUCK_TYPES`, for each direction. */
  datatype PrintGroup = PrintGroup(customerName: string, storeIn: seq<int>, storeOut: seq<int>)

  /** `schedule.customer?.name?.trim() || "-"` */
  function DisplayName(row: PrintRow): (name: string)
    ensures name != ""
  {
    var n := if row.customerName.Some? then Trim(row.customerName.value) else "";
    if n == "" then "-" else n
  }

  /** The grouping key: the display name lower-cased. */
  function CustomerKey(row: PrintRow): string
  {
    ToLower(DisplayName(row))
  }

  predicate IsStoreOut(row: PrintRow)
  {
    row.storeType == "STORE_OUT"
  }

  /** The column an item counts under: its own code when it has a column, else `OTHER`. */
  function Column(truckType: string): (c: nat)
    ensures c < |TRUCK_TYPES|
    ensures truckType in TRUCK_TYPES ==> TRUCK_TYPES[c] == truckType
    ensures truckType !in TRUCK_TYPES ==> c == OTHER_COLUMN
  {
    if truckType in TRUCK_TYPES then IndexOf(TRUCK_TYPES, truckType) else OTHER_COLUMN
  }

  /** The quantity of the items counted under column `c`. */
  function ColumnQty(items: seq<PrintItem>, c: nat): int
  {
    if items == [] then 0
    else ColumnQty(items[..|items| - 1], c) + (if Column(items[|items| - 1].truckType) == c then items[|items| - 1].qty else 0)
  }

  function ItemsQty(items: seq<PrintItem>): int
  {
    if items == [] then 0 else ItemsQty(items[..|items| - 1]) + items[|items| - 1].qty
  }

  /** The quantity the rows contribute to one cell: customer `key`, direction `out`, column `c`. */
  function CellQty(rows: seq<PrintRow>, key: string, out: bool, c: nat): int
  {
    if rows == [] then 0
    else
      var row := rows[|rows| - 1];
      CellQty(rows[..|rows| - 1], key, out, c) + (if CustomerKey(row) == key && IsStoreOut(row) == out then ColumnQty(row.items, c) else 0)
  }

  function RowsQty(rows: seq<PrintRow>): int
  {
    if rows == [] then 0 else RowsQty(rows[..|rows| - 1]) + ItemsQty(rows[|rows| - 1].items)
  }

  function SumInts(xs: seq<int>): int
  {
    if xs == [] then 0 else SumInts(xs[..|xs| - 1]) + xs[|xs| - 1]
  }

  function GroupQty(g: PrintGroup): int
  {
    SumInts(g.storeIn) + SumInts(g.storeOut)
  }

  /** The sum of every counter of the groups listed in `keys`. */
  function GroupsQty(keys: seq<string>, groups: map<string, PrintGroup>): int
    requires forall k :: k in keys ==> k in groups
  {
    if keys == [] then 0 else GroupsQty(keys[..|keys| - 1], groups) + GroupQty(groups[keys[|keys| - 1]])
  }

  const EMPTY_COUNTS: seq<int> := [0, 0, 0, 0, 0, 0, 0]

  lemma {:induction false} SumIntsAdd(xs: seq<int>, c: nat, q: int)
    requires c < |xs|
    ensures SumInts(xs[c := xs[c] + q]) == SumInts(xs) + q
  {
    var ys := xs[c := xs[c] + q];
    if c < |xs| - 1 {
      assert ys[..|ys| - 1] == xs[..|xs| - 1][c := xs[c] + q];
      SumIntsAdd(xs[..|xs| - 1], c, q);
    } else {
      assert ys[..|ys| - 1] == xs[..|xs| - 1];
    }
  }

  /** Replacing a group that is not listed leaves the listed total alone. */
  lemma {:induction false} GroupsQtyOther(keys: seq<string>, groups: map<string, PrintGroup>, key: string, g: PrintGroup)
    requires forall k :: k in keys ==> k in groups
    requires key !in keys
    ensures GroupsQty(keys, groups[key := g]) == GroupsQty(keys, groups)
  {
    if keys != [] {
      GroupsQtyOther(keys[..|keys| - 1], groups, key, g);
    }
  }

  /** Replacing a listed group changes the listed total by the difference of the two groups. */
  lemma {:induction false} GroupsQtyReplace(keys: seq<string>, groups: map<string, PrintGroup>, key: string, g: PrintGroup)
    requires forall k :: k in keys ==> k in groups
    requires Distinct(keys) && key in keys
    ensures GroupsQty(keys, groups[key := g]) == GroupsQty(keys, groups) - GroupQty(groups[key]) + GroupQty(g)
  {
    var init := keys[..|keys| - 1];
    assert Distinct(init);
    if keys[|keys| - 1] == key {
      assert key !in init;
      GroupsQtyOther(init, groups, key, g);
    } else {
      assert key in init;
      GroupsQtyReplace(init, groups, key, g);
    }
  }

  lemma GroupsQtyAppend(keys: seq<string>, groups: map<string, PrintGroup>, key: string)
    requires forall k :: k in keys ==> k in groups
    requires key in groups
    ensures GroupsQty(keys + [key], groups) == GroupsQty(keys, groups) + GroupQty(groups[key])
  {
    assert (keys + [key])[..|keys|] == keys;
  }

  /**
   * `bucket[key] += item.qty` over the items of one schedule: each column
   * grows by the quantity of its items, and the bucket as a whole by the
   * quantity of all of them.
   */
  method AddItems(bucket: seq<int>, items: seq<PrintItem>) returns (b: seq<int>)
    requires |bucket| == |TRUCK_TYPES|
    ensures |b| == |TRUCK_TYPES|
    ensures forall c :: 0 <= c < |TRUCK_TYPES| ==> b[c] == bucket[c] + ColumnQty(items, c)
    ensures SumInts(b) == SumInts(bucket) + ItemsQty(items)
  {
    b := bucket;
    ItemsAddedStart(bucket, items);
    var j := 0;
    while j < |items|
      invariant 0 <= j <= |items|
      invariant ItemsAdded(bucket, items[..j], b)
    {
      var item := items[j];
      var c := Column(item.truckType);
      ItemsAddedStep(bucket, items, j, b, c);
      b := b[c := b[c] + item.qty];
      j := j + 1;
    }
    ItemsAddedEnd(bucket, items, b);
  }

  lemma ItemsAddedStart(bucket: seq<int>, items: seq<PrintItem>)
    requires |bucket| == |TRUCK_TYPES|
    ensures ItemsAdded(bucket, items[..0], bucket)
  {
    assert items[..0] == [];
  }

  lemma ItemsAddedEnd(bucket: seq<int>, items: seq<PrintItem>, b: seq<int>)
    requires ItemsAdded(bucket, items[..|items|], b)
    ensures |b| == |TRUCK_TYPES|
    ensures forall c :: 0 <= c < |TRUCK_TYPES| ==> b[c] == bucket[c] + ColumnQty(items, c)
    ensures SumInts(b) == SumInts(bucket) + ItemsQty(items)
  {
    assert items[..|items|] == items;
  }

  /** `b` is `bucket` with the quantity of every item added to its column. */
  predicate ItemsAdded(bucket: seq<int>, items: seq<PrintItem>, b: seq<int>)
  {
    && |b| == |TRUCK_TYPES| && |bucket| == |TRUCK_TYPES|
    && (forall c :: 0 <= c < |TRUCK_TYPES| ==> b[c] == bucket[c] + ColumnQty(items, c))
    && SumInts(b) == SumInts(bucket) + ItemsQty(items)
  }

  lemma ItemsAddedStep(bucket: seq<int>, items: seq<PrintItem>, j: nat, b: seq<int>, c: nat)
    requires j < |items| && ItemsAdded(bucket, items[..j], b) && c == Column(items[j].truckType)
    ensures ItemsAdded(bucket, items[..j + 1], b[c := b[c] + items[j].qty])
  {
    ColumnsStep(bucket, items, j, b, c);
    SumStep(bucket, items, j, b, c);
  }

  lemma ColumnsStep(bucket: seq<int>, items: seq<PrintItem>, j: nat, b: seq<int>, c: nat)
    requires j < |items| && |b| == |TRUCK_TYPES| && |bucket| == |TRUCK_TYPES| && c == Column(items[j].truckType)
    requires forall k :: 0 <= k < |TRUCK_TYPES| ==> b[k] == bucket[k] + ColumnQty(items[..j], k)
    ensures forall k :: 0 <= k < |TRUCK_TYPES| ==> b[c := b[c] + items[j].qty][k] == bucket[k] + ColumnQty(items[..j + 1], k)
  {
    ItemColumnStep(items, j);
  }

  lemma SumStep(bucket: seq<int>, items: seq<PrintItem>, j: nat, b: seq<int>, c: nat)
    requires j < |items| && c < |b|
    requires SumInts(b) == SumInts(bucket) + ItemsQty(items[..j])
    ensures SumInts(b[c := b[c] + items[j].qty]) == SumInts(bucket) + ItemsQty(items[..j + 1])
  {
    SumIntsAdd(b, c, items[j].qty);
    ItemQtyStep(items, j);
  }


  lemma ItemQtyStep(items: seq<PrintItem>, j: nat)
    requires j < |items|
    ensures ItemsQty(items[..j + 1]) == ItemsQty(items[..j]) + items[j].qty
  {
    assert items[..j + 1][..j] == items[..j];
  }

  lemma ItemColumnStep(items: seq<PrintItem>, j: nat)
    requires j < |items|
    ensures forall c :: ColumnQty(items[..j + 1], c) ==
                        ColumnQty(items[..j], c) + (if Column(items[j].truckType) == c then items[j].qty else 0)
  {
    assert items[..j + 1][..j] == items[..j];
  }

  /** The listed keys are exactly the keys of the groups, each once. */
  ghost predicate KeysListed(keys: seq<string>, groups: map<string, PrintGroup>)
  {
    Distinct(keys) && forall k :: k in groups <==> k in keys
  }

  /** Every group has one counter per column in each direction, and is keyed by its lower-cased name. */
  predicate GroupsShaped(groups: map<string, PrintGroup>)
  {
    forall k :: k in groups ==>
      |groups[k].storeIn| == |TRUCK_TYPES| && |groups[k].storeOut| == |TRUCK_TYPES| && ToLower(groups[k].customerName) == k
  }

  /** Each counter holds the quantity the rows contribute to its cell. */
  ghost predicate CellsCounted(rows: seq<PrintRow>, groups: map<string, PrintGroup>)
    requires GroupsShaped(groups)
  {
    forall k, c :: k in groups && 0 <= c < |TRUCK_TYPES| ==>
      groups[k].storeIn[c] == CellQty(rows, k, false, c) && groups[k].storeOut[c] == CellQty(rows, k, true, c)
  }

  /** Rows contribute nothing to a customer without a group. */
  ghost predicate NothingOutside(rows: seq<PrintRow>, groups: map<string, PrintGroup>)
  {
    forall k, out, c :: k !in groups && 0 <= c < |TRUCK_TYPES| ==> CellQty(rows, k, out, c) == 0
  }

  /** The counting state after some rows: listed keys, a group per key, every counter accounted for. */
  ghost predicate CountingInvariant(rows: seq<PrintRow>, keys: seq<string>, groups: map<string, PrintGroup>)
  {
    && KeysListed(keys, groups)
    && (forall i :: 0 <= i < |rows| ==> CustomerKey(rows[i]) in groups)
    && GroupsShaped(groups)
    && CellsCounted(rows, groups)
    && NothingOutside(rows, groups)
    && GroupsQty(keys, groups) == RowsQty(rows)
  }

  /** The index of the first row whose customer key is `k`, or `|rows|` when no row has it. */
  function FirstIndex(rows: seq<PrintRow>, k: string): nat
  {
    FirstIndexBy(rows, CustomerKey, k)
  }

  /**
   * Every group belongs to a customer some row has and carries the display
   * name of that customer's first row; the keys are listed in the order of
   * their first rows.
   */
  ghost predicate FirstSeen(rows: seq<PrintRow>, keys: seq<string>, groups: map<string, PrintGroup>)
  {
    FirstNamed(rows, CustomerKey, DisplayName, GroupName, groups) && FirstOrdered(rows, CustomerKey, keys)
  }

  /** The state of the grouping after some rows: the counting state, with groups named and ordered by first rows. */
  ghost predicate GroupingInvariant(rows: seq<PrintRow>, keys: seq<string>, groups: map<string, PrintGroup>)
  {
    CountingInvariant(rows, keys, groups) && FirstSeen(rows, keys, groups)
  }

  /**
   * The grouping of `listSchedulesForPrint`: one group per customer key some
   * row has, listed once each in order of first appearance and named after
   * that customer's first row, whose counters hold the quantity of that
   * customer's items per direction and column; the counters add up to the
   * quantity of all items.
   */
  method GroupForPrint(rows: seq<PrintRow>) returns (keys: seq<string>, groups: map<string, PrintGroup>)
    ensures GroupingInvariant(rows, keys, groups)
    ensures Distinct(keys) && forall k :: k in groups <==> k in keys
    ensures forall k :: k in groups <==> FirstIndex(rows, k) < |rows|
    ensures forall k :: k in groups ==> groups[k].customerName == DisplayName(rows[FirstIndex(rows, k)])
    ensures forall a, b :: 0 <= a < b < |keys| ==> FirstIndex(rows, keys[a]) < FirstIndex(rows, keys[b])
    ensures forall k, c :: k in groups && 0 <= c < |TRUCK_TYPES| ==>
      groups[k].storeIn[c] == CellQty(rows, k, false, c) && groups[k].storeOut[c] == CellQty(rows, k, true, c)
    ensures GroupsQty(keys, groups) == RowsQty(rows)
  {
    keys, groups := [], map[];
    EmptyGrouping();
    var i := 0;
    assert rows[..0] == [];
    while i < |rows|
      invariant 0 <= i <= |rows|
      invariant GroupingInvariant(rows[..i], keys, groups)
    {
      keys, groups := AddRow(rows, i, keys, groups);
      i := i + 1;
    }
    assert rows[..i] == rows;
    GroupingFacts(rows, keys, groups);
  }

  /**
   * What the grouping state says once every row is in: groups listed once
   * each, one per key some row has, named after and ordered by first rows.
   */
  lemma GroupingFacts(rows: seq<PrintRow>, keys: seq<string>, groups: map<string, PrintGroup>)
    requires GroupingInvariant(rows, keys, groups)
    ensures Distinct(keys) && forall k :: k in groups <==> k in keys
    ensures forall k :: k in groups <==> FirstIndex(rows, k) < |rows|
    ensures forall k :: k in groups ==> groups[k].customerName == DisplayName(rows[FirstIndex(rows, k)])
    ensures forall a, b :: 0 <= a < b < |keys| ==> FirstIndex(rows, keys[a]) < FirstIndex(rows, keys[b])
    ensures forall k, c :: k in groups && 0 <= c < |TRUCK_TYPES| ==>
      groups[k].storeIn[c] == CellQty(rows, k, false, c) && groups[k].storeOut[c] == CellQty(rows, k, true, c)
    ensures GroupsQty(keys, groups) == RowsQty(rows)
  {
    forall k | FirstIndex(rows, k) < |rows|
      ensures k in groups
    {
      assert CustomerKey(rows[FirstIndex(rows, k)]) == k;
    }
  }

  lemma EmptyGrouping()
    ensures GroupingInvariant([], [], map[])
  {
  }

  /** One turn of the outer `forEach`, keeping the grouping state. */
  method AddRow(rows: seq<PrintRow>, i: nat, keys0: seq<string>, groups0: map<string, PrintGroup>)
    returns (keys: seq<string>, groups: map<string, PrintGroup>)
    requires i < |rows|
    requires GroupingInvariant(rows[..i], keys0, groups0)
    ensures GroupingInvariant(rows[..i + 1], keys, groups)
  {
    keys, groups := CountRow(rows[..i], rows[i], keys0, groups0);
    FirstSeenStep(rows[..i], rows[i], keys0, groups0, keys, groups, groups[CustomerKey(rows[i])]);
    SnocSlice(rows, i);
    GroupingSame(rows[..i] + [rows[i]], rows[..i + 1], keys, groups);
  }

  /**
   * The body of that turn: find or create the customer's group, then count
   * the row's items; no other group changes, and a new group is named after
   * the row and listed last.
   */
  method CountRow(ghost done: seq<PrintRow>, row: PrintRow, keys0: seq<string>, groups0: map<string, PrintGroup>)
    returns (keys: seq<string>, groups: map<string, PrintGroup>)
    requires CountingInvariant(done, keys0, groups0)
    ensures CountingInvariant(done + [row], keys, groups)
    ensures CustomerKey(row) in groups && groups == groups0[CustomerKey(row) := groups[CustomerKey(row)]]
    ensures CustomerKey(row) in groups0 ==>
      keys == keys0 && groups[CustomerKey(row)].customerName == groups0[CustomerKey(row)].customerName
    ensures CustomerKey(row) !in groups0 ==>
      keys == keys0 + [CustomerKey(row)] && groups[CustomerKey(row)].customerName == DisplayName(row)
  {
    var name := DisplayName(row);
    var key := ToLower(name);
    keys, groups := keys0, groups0;
    if key !in groups {
      NewGroupKeepsInvariant(done, keys, groups, name);
      groups := groups[key := PrintGroup(name, EMPTY_COUNTS, EMPTY_COUNTS)];
      keys := keys + [key];
    }
    var target := groups[key];
    var out := IsStoreOut(row);
    var bucket := if out then target.storeOut else target.storeIn;
    var updated := AddItems(bucket, row.items);
    var g := if out then target.(storeOut := updated) else target.(storeIn := updated);
    CountRowKeepsInvariant(done, keys, groups, row, g);
    if key !in groups0 {
      UpdateTwice(groups0, key, target, g);
    }
    groups := groups[key := g];
  }

  /**
   * One more row keeps the groups named and ordered by first rows: an
   * existing group keeps its name and place, a new one is named after this
   * row and listed last.
   */
  lemma FirstSeenStep(done: seq<PrintRow>, row: PrintRow, keys0: seq<string>, groups0: map<string, PrintGroup>,
                      keys: seq<string>, groups: map<string, PrintGroup>, g: PrintGroup)
    requires FirstSeen(done, keys0, groups0) && KeysListed(keys0, groups0) && KeysIn(done, CustomerKey, groups0)
    requires groups == groups0[CustomerKey(row) := g]
    requires CustomerKey(row) in groups0 ==> keys == keys0 && g.customerName == groups0[CustomerKey(row)].customerName
    requires CustomerKey(row) !in groups0 ==> keys == keys0 + [CustomerKey(row)] && g.customerName == DisplayName(row)
    ensures FirstSeen(done + [row], keys, groups)
  {
    FirstSeenSnoc(done, row, CustomerKey, DisplayName, GroupName, groups0, groups, keys0, keys);
  }

  function GroupName(g: PrintGroup): string
  {
    g.customerName
  }

  lemma GroupingSame(a: seq<PrintRow>, b: seq<PrintRow>, keys: seq<string>, groups: map<string, PrintGroup>)
    requires a == b && GroupingInvariant(a, keys, groups)
    ensures GroupingInvariant(b, keys, groups)
  {
  }

  /** A group created with zero counters keeps the invariant. */
  lemma NewGroupKeepsInvariant(done: seq<PrintRow>, keys: seq<string>, groups: map<string, PrintGroup>, name: string)
    requires CountingInvariant(done, keys, groups)
    requires ToLower(name) !in groups
    ensures CountingInvariant(done, keys + [ToLower(name)], groups[ToLower(name) := PrintGroup(name, EMPTY_COUNTS, EMPTY_COUNTS)])
  {
    var key := ToLower(name);
    var created := PrintGroup(name, EMPTY_COUNTS, EMPTY_COUNTS);
    var groups' := groups[key := created];
    var keys' := keys + [key];
    NewKeyListed(keys, groups, key, created);
    assert GroupsShaped(groups');
    forall k, c | k in groups' && 0 <= c < |TRUCK_TYPES|
      ensures groups'[k].storeIn[c] == CellQty(done, k, false, c) && groups'[k].storeOut[c] == CellQty(done, k, true, c)
    {
      if k == key {
        assert CellQty(done, k, false, c) == 0 && CellQty(done, k, true, c) == 0;
      } else {
        assert groups'[k] == groups[k];
      }
    }
    SumIntsOfZeros(EMPTY_COUNTS);
    assert GroupQty(created) == 0;
    GroupsQtyOther(keys, groups, key, created);
    GroupsQtyAppend(keys, groups', key);
  }

  lemma NewKeyListed(keys: seq<string>, groups: map<string, PrintGroup>, key: string, g: PrintGroup)
    requires KeysListed(keys, groups) && key !in groups
    ensures KeysListed(keys + [key], groups[key := g])
  {
    var keys' := keys + [key];
    forall i, j | 0 <= i < j < |keys'|
      ensures keys'[i] != keys'[j]
    {
      if j == |keys| {
        assert keys'[i] == keys[i] && keys[i] in groups;
      } else {
        assert keys'[i] == keys[i] && keys'[j] == keys[j];
      }
    }
  }

  /**
   * Counting a row's items into the bucket of its customer and direction
   * extends the invariant from `done` to `done + [row]`.
   */
  lemma CountRowKeepsInvariant(done: seq<PrintRow>, keys: seq<string>, groups: map<string, PrintGroup>, row: PrintRow, g: PrintGroup)
    requires CountingInvariant(done, keys, groups)
    requires CustomerKey(row) in groups
    requires g.customerName == groups[CustomerKey(row)].customerName
    requires IsStoreOut(row) ==> g.storeIn == groups[CustomerKey(row)].storeIn
    requires !IsStoreOut(row) ==> g.storeOut == groups[CustomerKey(row)].storeOut
    requires |g.storeIn| == |TRUCK_TYPES| && |g.storeOut| == |TRUCK_TYPES|
    requires IsStoreOut(row) ==> forall c :: 0 <= c < |TRUCK_TYPES| ==>
                                   g.storeOut[c] == groups[CustomerKey(row)].storeOut[c] + ColumnQty(row.items, c)
    requires !IsStoreOut(row) ==> forall c :: 0 <= c < |TRUCK_TYPES| ==>
                                    g.storeIn[c] == groups[CustomerKey(row)].storeIn[c] + ColumnQty(row.items, c)
    requires GroupQty(g) == GroupQty(groups[CustomerKey(row)]) + ItemsQty(row.items)
    ensures CountingInvariant(done + [row], keys, groups[CustomerKey(row) := g])
  {
    var key := CustomerKey(row);
    var groups' := groups[key := g];
    var done' := done + [row];
    assert KeysListed(keys, groups');
    assert GroupsShaped(groups');
    forall i | 0 <= i < |done'|
      ensures CustomerKey(done'[i]) in groups'
    {
      if i < |done| {
        assert done'[i] == done[i];
      }
    }
    CountRowCells(done, groups, row, g);
    CountRowOutside(done, groups, row, g);
    CountRowQty(done, keys, groups, row, g);
  }

  /** Adding the row's items to its group's counters keeps every counter accounted for. */
  lemma CountRowCells(done: seq<PrintRow>, groups: map<string, PrintGroup>, row: PrintRow, g: PrintGroup)
    requires GroupsShaped(groups) && CellsCounted(done, groups)
    requires |g.storeIn| == |TRUCK_TYPES| && |g.storeOut| == |TRUCK_TYPES|
    requires CustomerKey(row) in groups && GroupsShaped(groups[CustomerKey(row) := g])
    requires IsStoreOut(row) ==> g.storeIn == groups[CustomerKey(row)].storeIn
    requires !IsStoreOut(row) ==> g.storeOut == groups[CustomerKey(row)].storeOut
    requires IsStoreOut(row) ==> forall c :: 0 <= c < |TRUCK_TYPES| ==>
                                   g.storeOut[c] == groups[CustomerKey(row)].storeOut[c] + ColumnQty(row.items, c)
    requires !IsStoreOut(row) ==> forall c :: 0 <= c < |TRUCK_TYPES| ==>
                                    g.storeIn[c] == groups[CustomerKey(row)].storeIn[c] + ColumnQty(row.items, c)
    ensures CellsCounted(done + [row], groups[CustomerKey(row) := g])
  {
    var key := CustomerKey(row);
    var groups' := groups[key := g];
    var done' := done + [row];
    CellStep(done, row);
    forall k, c | k in groups' && 0 <= c < |TRUCK_TYPES|
      ensures groups'[k].storeIn[c] == CellQty(done', k, false, c) && groups'[k].storeOut[c] == CellQty(done', k, true, c)
    {
      if k != key {
        assert groups'[k] == groups[k];
      }
    }
  }

  /** The row's customer has a group, so the row adds nothing outside the groups. */
  lemma CountRowOutside(done: seq<PrintRow>, groups: map<string, PrintGroup>, row: PrintRow, g: PrintGroup)
    requires NothingOutside(done, groups) && CustomerKey(row) in groups
    ensures NothingOutside(done + [row], groups[CustomerKey(row) := g])
  {
    CellStep(done, row);
  }

  /** The listed total grows by the row's quantity, as the rows' total does. */
  lemma CountRowQty(done: seq<PrintRow>, keys: seq<string>, groups: map<string, PrintGroup>, row: PrintRow, g: PrintGroup)
    requires KeysListed(keys, groups) && CustomerKey(row) in groups
    requires GroupsQty(keys, groups) == RowsQty(done)
    requires GroupQty(g) == GroupQty(groups[CustomerKey(row)]) + ItemsQty(row.items)
    ensures KeysListed(keys, groups[CustomerKey(row) := g])
    ensures GroupsQty(keys, groups[CustomerKey(row) := g]) == RowsQty(done + [row])
  {
    GroupsQtyReplace(keys, groups, CustomerKey(row), g);
    RowsStep(done, row);
  }


  /** A bucket of zeros sums to zero. */
  lemma {:induction false} SumIntsOfZeros(xs: seq<int>)
    requires forall i :: 0 <= i < |xs| ==> xs[i] == 0
    ensures SumInts(xs) == 0
  {
    if xs != [] {
      SumIntsOfZeros(xs[..|xs| - 1]);
    }
  }

  lemma CellStep(done: seq<PrintRow>, row: PrintRow)
    ensures forall k, out, c :: CellQty(done + [row], k, out, c) ==
                                CellQty(done, k, out, c) + (if CustomerKey(row) == k && IsStoreOut(row) == out then ColumnQty(row.items, c) else 0)
  {
    assert (done + [row])[..|done|] == done;
  }

  lemma RowsStep(done: seq<PrintRow>, row: PrintRow)
    ensures RowsQty(done + [row]) == RowsQty(done) + ItemsQty(row.items)
  {
    assert (done + [row])[..|done|] == done;
  }
}
