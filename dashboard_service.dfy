/**
 * The dashboard service: the day a request is about, and the counters the
 * dashboard shows for the queue entries registered on that day — a summary,
 * 24 hourly buckets and a count per status.
 *
 * The entries are those the database returns for the day's range; they are a
 * parameter here, as are the current day and the current instant.
 */
module DashboardService {
  import opened Common
  import opened Text
  import opened Calendar

  const STATUS_ORDER: seq<string> := ["MENUNGGU", "IN_WH", "PROSES", "SELESAI", "BATAL"]
  const MSG_DATE := "Format date tidak valid. Gunakan YYYY-MM-DD"

  // ---------------------------------------------------------------------
  // formatDateOnly, parseDateOnly
  // ---------------------------------------------------------------------

  /** `formatDateOnly`: the year as `String` prints it, month and day padded to two digits. */
  function FormatDateOnly(d: Ymd): string
    requires ValidYmd(d.year, d.month, d.day)
  {
    IntToString(d.year) + "-" + Pad2(d.month) + "-" + Pad2(d.day)
  }

  /** The regular expression `^\d{4}-\d{2}-\d{2}$`. */
  predicate DatePattern(s: string)
  {
    && |s| == 10
    && AllDigits(s[..4]) && s[4] == '-'
    && AllDigits(s[5..7]) && s[7] == '-'
    && AllDigits(s[8..])
  }

  /**
   * `new Date(y, m - 1, d)` reports `y`, `m - 1` and `d` back: the day
   * exists and the year is not one of 0..99, which the constructor reads as
   * 1900..1999.
   */
  predicate LocalRoundTrips(y: int, m: int, d: int)
  {
    ValidYmd(y, m, d) && !(0 <= y <= 99)
  }

  /**
   * `parseDateOnly`: a string matching the pattern whose three numbers are
   * non-zero and name a day the local calendar gives back; anything else is
   * null. The three numbers are the three parts `split("-")` yields (see
   * `PatternParts`), read by `Number`.
   */
  function ParseDateOnly(v: JsValue): (r: Option<Ymd>)
    ensures !v.Str? ==> r.None?
    ensures r.Some? ==> DatePattern(v.s) && LocalRoundTrips(r.value.year, r.value.month, r.value.day)
    ensures r.Some? ==> 100 <= r.value.year <= 9999
  {
    if !Truthy(v) || !v.Str? || !DatePattern(v.s) then None
    else
      var s := v.s;
      var year, month, day := DecimalValue(s[..4]), DecimalValue(s[5..7]), DecimalValue(s[8..]);
      assert year < 10000 by { FourDigitValue(s[..4]); }
      if year == 0 || month == 0 || day == 0 then None
      else if LocalRoundTrips(year, month, day) then Some(Ymd(year, month, day))
      else None
  }

  /** A string matching the pattern splits on `-` into its three digit runs, which `Number` reads as decimals. */
  lemma PatternParts(s: string)
    requires DatePattern(s)
    ensures Split(s, '-') == [s[..4], s[5..7], s[8..]]
    ensures StringToNumber(s[..4]) == Finite(DecimalValue(s[..4]) as real)
    ensures StringToNumber(s[5..7]) == Finite(DecimalValue(s[5..7]) as real)
    ensures StringToNumber(s[8..]) == Finite(DecimalValue(s[8..]) as real)
  {
    DigitsHaveNoDash(s[..4]);
    DigitsHaveNoDash(s[5..7]);
    DigitsHaveNoDash(s[8..]);
    assert s == s[..4] + "-" + s[5..7] + "-" + s[8..];
    SplitThree(s[..4], s[5..7], s[8..]);
    NumberOfDigits(s[..4]);
    NumberOfDigits(s[5..7]);
    NumberOfDigits(s[8..]);
  }

  function Digit(c: char): int { c as int - '0' as int }

  lemma FourDigitValue(t: string)
    requires |t| == 4 && AllDigits(t)
    ensures DecimalValue(t) == 1000 * Digit(t[0]) + 100 * Digit(t[1]) + 10 * Digit(t[2]) + Digit(t[3])
    ensures DecimalValue(t) < 10000
    ensures DecimalValue(t) >= 1000 ==> t[0] != '0'
  {
    assert t[..3][..2] == t[..2] && t[..2][..1] == t[..1] && t[..1][..0] == [];
    assert DecimalValue(t[..1]) == Digit(t[0]);
    assert DecimalValue(t[..2]) == 10 * Digit(t[0]) + Digit(t[1]);
    assert DecimalValue(t[..3]) == 100 * Digit(t[0]) + 10 * Digit(t[1]) + Digit(t[2]);
  }

  lemma TwoDigitValue(a: string)
    requires |a| == 2 && AllDigits(a)
    ensures DecimalValue(a) == 10 * Digit(a[0]) + Digit(a[1])
  {
    assert a[..1][..0] == [];
    assert DecimalValue(a[..1]) == Digit(a[0]);
  }

  /** Two two-digit strings with the same value are the same string. */
  lemma TwoDigitsEqual(a: string, b: string)
    requires |a| == 2 && |b| == 2 && AllDigits(a) && AllDigits(b)
    requires DecimalValue(a) == DecimalValue(b)
    ensures a == b
  {
    TwoDigitValue(a);
    TwoDigitValue(b);
  }

  /** Every accepted date with a four-digit year is printed back as the text it was read from. */
  lemma FormatOfParsed(s: string)
    requires ParseDateOnly(Str(s)).Some? && ParseDateOnly(Str(s)).value.year >= 1000
    ensures FormatDateOnly(ParseDateOnly(Str(s)).value) == s
  {
    var d := ParseDateOnly(Str(s)).value;
    FourDigitValue(s[..4]);
    NatToStringOfDecimal(s[..4]);
    Pad2Digits(d.month);
    Pad2Digits(d.day);
    TwoDigitsEqual(Pad2(d.month), s[5..7]);
    TwoDigitsEqual(Pad2(d.day), s[8..]);
    assert s == s[..4] + "-" + s[5..7] + "-" + s[8..];
  }

  /** Every day with a four-digit year that the local calendar gives back is parsed from its printed form. */
  lemma ParsedOfFormat(d: Ymd)
    requires ValidYmd(d.year, d.month, d.day) && 1000 <= d.year <= 9999
    ensures ParseDateOnly(Str(FormatDateOnly(d))) == Some(d)
  {
    var ys, ms, ds := IntToString(d.year), Pad2(d.month), Pad2(d.day);
    NatToStringLength(d.year, 4);
    Pad2Digits(d.month);
    Pad2Digits(d.day);
    PrintedSlices(ys, ms, ds);
    var s := FormatDateOnly(d);
    assert s == ys + "-" + ms + "-" + ds;
    ParseOfPattern(s, d);
  }

  /** A string of the pattern whose three digit runs read as a day that round-trips parses to that day. */
  lemma ParseOfPattern(s: string, d: Ymd)
    requires DatePattern(s)
    requires DecimalValue(s[..4]) == d.year && DecimalValue(s[5..7]) == d.month && DecimalValue(s[8..]) == d.day
    requires ValidYmd(d.year, d.month, d.day) && 1000 <= d.year
    ensures ParseDateOnly(Str(s)) == Some(d)
  {
    assert Truthy(Str(s));
  }

  lemma PrintedSlices(a: string, b: string, c: string)
    requires |a| == 4 && |b| == 2 && |c| == 2 && AllDigits(a) && AllDigits(b) && AllDigits(c)
    ensures var s := a + "-" + b + "-" + c;
      s[..4] == a && s[5..7] == b && s[8..] == c && DatePattern(s)
  {
  }

  // ---------------------------------------------------------------------
  // resolveDateRange
  // ---------------------------------------------------------------------

  /** A local time of day on a calendar day. */
  datatype LocalTime = LocalTime(day: Ymd, hour: int, minute: int, second: int, millisecond: int)

  datatype DayRange = DayRange(date: string, from: LocalTime, to: LocalTime)

  function WholeDay(d: Ymd): DayRange
    requires ValidYmd(d.year, d.month, d.day)
  {
    DayRange(FormatDateOnly(d), LocalTime(d, 0, 0, 0, 0), LocalTime(d, 23, 59, 59, 999))
  }

  /**
   * `resolveDateRange`: the whole of `today` when no date is asked for, a
   * 400 for a date that does not parse, and otherwise the whole of that day.
   */
  function ResolveDateRange(q: JsValue, today: Ymd): (r: Result<DayRange>)
    requires ValidYmd(today.year, today.month, today.day)
    ensures !Truthy(q) ==> r.Ok? && r.value.from.day == today && r.value.to.day == today
    ensures Truthy(q) ==> (r.Err? <==> ParseDateOnly(q).None?)
    ensures r.Err? ==> r.error == Fail400(MSG_DATE)
    ensures r.Ok? ==> (&& r.value.from.day == r.value.to.day
                       && r.value.from == LocalTime(r.value.from.day, 0, 0, 0, 0)
                       && r.value.to == LocalTime(r.value.to.day, 23, 59, 59, 999))
    ensures r.Ok? && Truthy(q) ==> Some(r.value.from.day) == ParseDateOnly(q)
  {
    if !Truthy(q) then Ok(WholeDay(today))
    else match ParseDateOnly(q)
      case None => Err(Fail400(MSG_DATE))
      case Some(d) => Ok(WholeDay(d))
  }

  /** A requested date with a four-digit year comes back unchanged as the range's `date`. */
  lemma ResolvedDateEchoes(q: JsValue, today: Ymd)
    requires ValidYmd(today.year, today.month, today.day)
    requires Truthy(q) && ResolveDateRange(q, today).Ok? && ResolveDateRange(q, today).value.from.day.year >= 1000
    ensures ResolveDateRange(q, today).value.date == q.s
  {
    FormatOfParsed(q.s);
  }

  // ---------------------------------------------------------------------
  // getSlaMinutes, durationMinutes
  // ---------------------------------------------------------------------

  /** `getSlaMinutes`: 60 for receiving, 45 for delivery, null otherwise; never a falsy 0. */
  function SlaMinutes(category: string): (r: Option<nat>)
    ensures r.Some? <==> category == "RECEIVING" || category == "DELIVERY"
    ensures r.Some? ==> r.value > 0
  {
    if category == "RECEIVING" then Some(60)
    else if category == "DELIVERY" then Some(45)
    else None
  }

  /** `durationMinutes` on epoch milliseconds: null when the end precedes the start, else whole minutes rounded down. */
  function DurationMinutes(startMs: int, endMs: int): (r: Option<nat>)
    ensures r.None? <==> endMs < startMs
    ensures r.Some? ==> r.value * 60000 <= endMs - startMs < (r.value + 1) * 60000
  {
    var diff := endMs - startMs;
    if diff < 0 then None else Some(diff / 60000)
  }

  // ---------------------------------------------------------------------
  // Counting
  // ---------------------------------------------------------------------

  /**
   * The columns the dashboard selects from a queue entry. `registerHour` is
   * `getHours()` of the registration time in the server's time zone.
   */
  datatype DashEntry = DashEntry(category: string, status: string, registerMs: int, finishMs: Option<int>, registerHour: int)

  function StatusOf(e: DashEntry): string { e.status }
  function CategoryOf(e: DashEntry): string { e.category }
  function HourOf(e: DashEntry): int { e.registerHour }
  function HourAndCategory(e: DashEntry): (int, string) { (e.registerHour, e.category) }

  /** How many elements of `xs` have their `f` in `keys`. */
  function CountIn<T, K>(xs: seq<T>, f: T -> K, keys: set<K>): (n: nat)
    ensures n <= |xs|
  {
    if xs == [] then 0
    else CountIn(xs[..|xs| - 1], f, keys) + (if f(xs[|xs| - 1]) in keys then 1 else 0)
  }

  lemma CountInAppend<T, K>(xs: seq<T>, x: T, f: T -> K, keys: set<K>)
    ensures CountIn(xs + [x], f, keys) == CountIn(xs, f, keys) + (if f(x) in keys then 1 else 0)
  {
    assert (xs + [x])[..|xs|] == xs;
  }

  /** Counting over two disjoint key sets adds up to counting over their union. */
  lemma {:induction false} CountInUnion<T, K>(xs: seq<T>, f: T -> K, a: set<K>, b: set<K>)
    requires a !! b
    ensures CountIn(xs, f, a) + CountIn(xs, f, b) == CountIn(xs, f, a + b)
  {
    if xs != [] {
      CountInUnion(xs[..|xs| - 1], f, a, b);
    }
  }

  lemma {:induction false} CountInNothing<T, K>(xs: seq<T>, f: T -> K)
    ensures CountIn(xs, f, {}) == 0
  {
    if xs != [] {
      CountInNothing(xs[..|xs| - 1], f);
    }
  }

  /** When every element's key is among `keys`, every element is counted. */
  lemma {:induction false} CountInAll<T, K>(xs: seq<T>, f: T -> K, keys: set<K>)
    requires forall i :: 0 <= i < |xs| ==> f(xs[i]) in keys
    ensures CountIn(xs, f, keys) == |xs|
  {
    if xs != [] {
      CountInAll(xs[..|xs| - 1], f, keys);
    }
  }

  /** The minutes of every entry that has finished no earlier than it registered. */
  function FinishedMinutes(es: seq<DashEntry>): (r: seq<nat>)
    ensures |r| <= |es|
  {
    if es == [] then []
    else
      var e := es[|es| - 1];
      FinishedMinutes(es[..|es| - 1]) + FinishedOf(e)
  }

  /** The minutes one entry contributes to the average: none unless it finished no earlier than it registered. */
  function FinishedOf(e: DashEntry): (r: seq<nat>)
    ensures |r| <= 1
  {
    match e.finishMs
    case None => []
    case Some(f) => (match DurationMinutes(e.registerMs, f) case None => [] case Some(m) => [m])
  }

  lemma FinishedAppend(es: seq<DashEntry>, e: DashEntry)
    ensures FinishedMinutes(es + [e]) == FinishedMinutes(es) + FinishedOf(e)
    ensures Sum(FinishedMinutes(es + [e])) == Sum(FinishedMinutes(es)) + (if FinishedOf(e) == [] then 0 else FinishedOf(e)[0])
  {
    assert (es + [e])[..|es|] == es;
    var f, g := FinishedMinutes(es), FinishedOf(e);
    assert FinishedMinutes(es + [e]) == f + g;
    if g != [] {
      assert (f + g)[..|f + g| - 1] == f;
      assert Sum(f + g) == Sum(f) + g[0];
    } else {
      assert f + g == f;
    }
  }

  function Sum(xs: seq<nat>): nat
  {
    if xs == [] then 0 else Sum(xs[..|xs| - 1]) + xs[|xs| - 1]
  }

  /**
   * An entry with an SLA is over it when the minutes from registration to
   * its finish, or to `now` while unfinished, reach the SLA.
   */
  predicate OverSla(e: DashEntry, now: int)
  {
    match SlaMinutes(e.category)
    case None => false
    case Some(sla) =>
      var end := if e.finishMs.Some? then e.finishMs.value else now;
      var m := DurationMinutes(e.registerMs, end);
      m.Some? && m.value >= sla
  }

  function OverSlaCount(es: seq<DashEntry>, now: int): (n: nat)
    ensures n <= |es|
  {
    if es == [] then 0
    else OverSlaCount(es[..|es| - 1], now) + (if OverSla(es[|es| - 1], now) then 1 else 0)
  }

  lemma OverSlaAppend(es: seq<DashEntry>, e: DashEntry, now: int)
    ensures OverSlaCount(es + [e], now) == OverSlaCount(es, now) + (if OverSla(e, now) then 1 else 0)
  {
    assert (es + [e])[..|es|] == es;
  }

  /** `Math.round(a / b)` for a non-negative numerator: halves round up. */
  function RoundDiv(a: nat, b: nat): (r: nat)
    requires b > 0
    ensures 2 * a - b < 2 * b * r <= 2 * a + b
  {
    (2 * a + b) / (2 * b)
  }

  /** A rounded share of a whole never exceeds one hundred percent. */
  lemma PercentAtMost100(part: nat, whole: nat)
    requires 0 < whole && part <= whole
    ensures RoundDiv(100 * part, whole) <= 100
  {
    var a, b := 2 * (100 * part) + whole, 2 * whole;
    assert a <= 201 * whole < b * 101;
    DivBelow(a, b, 101);
  }

  lemma DivBelow(a: nat, b: nat, c: nat)
    requires b > 0 && a < b * c
    ensures a / b < c
  {
    var q := a / b;
    assert b * q <= a;
  }

  datatype Summary = Summary(
    date: string, total: nat, delivery: nat, receiving: nat,
    waiting: nat, processing: nat, done: nat, cancelled: nat,
    avgProcessMinutes: nat, overSlaPercent: nat)

  /** What `getSummary` reports for the entries of a day. */
  function SummaryOf(date: string, es: seq<DashEntry>, now: int): Summary
  {
    var finished := FinishedMinutes(es);
    var over := OverSlaCount(es, now);
    Summary(
      date, |es|,
      CountIn(es, CategoryOf, {"DELIVERY"}), CountIn(es, CategoryOf, {"RECEIVING"}),
      CountIn(es, StatusOf, {"MENUNGGU"}), CountIn(es, StatusOf, {"IN_WH", "PROSES"}),
      CountIn(es, StatusOf, {"SELESAI"}), CountIn(es, StatusOf, {"BATAL"}),
      if |finished| == 0 then 0 else RoundDiv(Sum(finished), |finished|),
      if |es| == 0 then 0 else RoundDiv(100 * over, |es|))
  }

  /**
   * The status counters and the category counters never exceed the total,
   * the average is the finished minutes' mean rounded to the nearest whole
   * minute (0 when nothing finished), and the over-SLA share is a
   * percentage.
   */
  lemma SummaryBounds(date: string, es: seq<DashEntry>, now: int)
    ensures var s := SummaryOf(date, es, now);
      && s.waiting + s.processing + s.done + s.cancelled <= s.total
      && s.delivery + s.receiving <= s.total
      && 0 <= s.overSlaPercent <= 100
      && (s.total == 0 ==> s.overSlaPercent == 0)
      && (var f := FinishedMinutes(es);
          && (|f| == 0 ==> s.avgProcessMinutes == 0)
          && (|f| > 0 ==> 2 * Sum(f) - |f| < 2 * |f| * s.avgProcessMinutes <= 2 * Sum(f) + |f|))
  {
    CountInUnion(es, StatusOf, {"MENUNGGU"}, {"IN_WH", "PROSES"});
    CountInUnion(es, StatusOf, {"MENUNGGU", "IN_WH", "PROSES"}, {"SELESAI"});
    CountInUnion(es, StatusOf, {"MENUNGGU", "IN_WH", "PROSES", "SELESAI"}, {"BATAL"});
    CountInUnion(es, CategoryOf, {"DELIVERY"}, {"RECEIVING"});
    assert {"MENUNGGU"} + {"IN_WH", "PROSES"} == {"MENUNGGU", "IN_WH", "PROSES"};
    assert {"MENUNGGU", "IN_WH", "PROSES"} + {"SELESAI"} == {"MENUNGGU", "IN_WH", "PROSES", "SELESAI"};
    if |es| > 0 {
      PercentAtMost100(OverSlaCount(es, now), |es|);
    }
  }

  /** What one more entry adds to each of the category and status counters. */
  lemma KindsStep(es: seq<DashEntry>, e: DashEntry)
    ensures CountIn(es + [e], CategoryOf, {"DELIVERY"}) == CountIn(es, CategoryOf, {"DELIVERY"}) + (if e.category == "DELIVERY" then 1 else 0)
    ensures CountIn(es + [e], CategoryOf, {"RECEIVING"}) == CountIn(es, CategoryOf, {"RECEIVING"}) + (if e.category == "RECEIVING" then 1 else 0)
    ensures CountIn(es + [e], StatusOf, {"MENUNGGU"}) == CountIn(es, StatusOf, {"MENUNGGU"}) + (if e.status == "MENUNGGU" then 1 else 0)
    ensures CountIn(es + [e], StatusOf, {"IN_WH", "PROSES"}) == CountIn(es, StatusOf, {"IN_WH", "PROSES"}) + (if e.status == "IN_WH" || e.status == "PROSES" then 1 else 0)
    ensures CountIn(es + [e], StatusOf, {"SELESAI"}) == CountIn(es, StatusOf, {"SELESAI"}) + (if e.status == "SELESAI" then 1 else 0)
    ensures CountIn(es + [e], StatusOf, {"BATAL"}) == CountIn(es, StatusOf, {"BATAL"}) + (if e.status == "BATAL" then 1 else 0)
  {
    CountInAppend(es, e, CategoryOf, {"DELIVERY"});
    CountInAppend(es, e, CategoryOf, {"RECEIVING"});
    CountInAppend(es, e, StatusOf, {"MENUNGGU"});
    CountInAppend(es, e, StatusOf, {"IN_WH", "PROSES"});
    CountInAppend(es, e, StatusOf, {"SELESAI"});
    CountInAppend(es, e, StatusOf, {"BATAL"});
  }

  /** The category and status counters of `getSummary` for one more entry. */
  method CountKinds(ghost seen: seq<DashEntry>, entry: DashEntry,
                    delivery0: nat, receiving0: nat, waiting0: nat, processing0: nat, done0: nat, cancelled0: nat)
    returns (delivery: nat, receiving: nat, waiting: nat, processing: nat, done: nat, cancelled: nat)
    requires delivery0 == CountIn(seen, CategoryOf, {"DELIVERY"})
    requires receiving0 == CountIn(seen, CategoryOf, {"RECEIVING"})
    requires waiting0 == CountIn(seen, StatusOf, {"MENUNGGU"})
    requires processing0 == CountIn(seen, StatusOf, {"IN_WH", "PROSES"})
    requires done0 == CountIn(seen, StatusOf, {"SELESAI"})
    requires cancelled0 == CountIn(seen, StatusOf, {"BATAL"})
    ensures delivery == CountIn(seen + [entry], CategoryOf, {"DELIVERY"})
    ensures receiving == CountIn(seen + [entry], CategoryOf, {"RECEIVING"})
    ensures waiting == CountIn(seen + [entry], StatusOf, {"MENUNGGU"})
    ensures processing == CountIn(seen + [entry], StatusOf, {"IN_WH", "PROSES"})
    ensures done == CountIn(seen + [entry], StatusOf, {"SELESAI"})
    ensures cancelled == CountIn(seen + [entry], StatusOf, {"BATAL"})
  {
    KindsStep(seen, entry);
    delivery, receiving, waiting, processing, done, cancelled := delivery0, receiving0, waiting0, processing0, done0, cancelled0;
    if entry.category == "DELIVERY" { delivery := delivery + 1; }
    if entry.category == "RECEIVING" { receiving := receiving + 1; }
    if entry.status == "MENUNGGU" { waiting := waiting + 1; }
    if entry.status == "IN_WH" || entry.status == "PROSES" { processing := processing + 1; }
    if entry.status == "SELESAI" { done := done + 1; }
    if entry.status == "BATAL" { cancelled := cancelled + 1; }
  }

  /** The finished-minutes counters of `getSummary` for one more entry. */
  method CountFinished(ghost seen: seq<DashEntry>, entry: DashEntry, finishedCount0: nat, finishedMinutesSum0: nat)
    returns (finishedCount: nat, finishedMinutesSum: nat)
    requires finishedCount0 == |FinishedMinutes(seen)|
    requires finishedMinutesSum0 == Sum(FinishedMinutes(seen))
    ensures finishedCount == |FinishedMinutes(seen + [entry])|
    ensures finishedMinutesSum == Sum(FinishedMinutes(seen + [entry]))
  {
    FinishedAppend(seen, entry);
    finishedCount, finishedMinutesSum := finishedCount0, finishedMinutesSum0;
    if entry.finishMs.Some? {
      var minutes := DurationMinutes(entry.registerMs, entry.finishMs.value);
      if minutes.Some? {
        assert FinishedOf(entry) == [minutes.value];
        finishedMinutesSum := finishedMinutesSum + minutes.value;
        finishedCount := finishedCount + 1;
      } else {
        assert FinishedOf(entry) == [];
      }
    } else {
      assert FinishedOf(entry) == [];
    }
  }

  /** The over-SLA counter of `getSummary` for one more entry. */
  method CountOverSla(ghost seen: seq<DashEntry>, entry: DashEntry, now: int, overSlaCount0: nat)
    returns (overSlaCount: nat)
    requires overSlaCount0 == OverSlaCount(seen, now)
    ensures overSlaCount == OverSlaCount(seen + [entry], now)
  {
    OverSlaAppend(seen, entry, now);
    overSlaCount := overSlaCount0;
    var slaMinutes := SlaMinutes(entry.category);
    if slaMinutes.Some? {
      var end := if entry.finishMs.Some? then entry.finishMs.value else now;
      var minutes := DurationMinutes(entry.registerMs, end);
      if minutes.Some? && minutes.value >= slaMinutes.value {
        overSlaCount := overSlaCount + 1;
      }
    }
  }

  /** The counters `getSummary` keeps while it passes over the entries. */
  datatype Tally = Tally(
    delivery: nat, receiving: nat, waiting: nat, processing: nat, done: nat, cancelled: nat,
    finishedCount: nat, finishedMinutesSum: nat, overSlaCount: nat)

  /** The counters after passing over `es`. */
  function TallyOf(es: seq<DashEntry>, now: int): Tally
  {
    Tally(
      CountIn(es, CategoryOf, {"DELIVERY"}), CountIn(es, CategoryOf, {"RECEIVING"}),
      CountIn(es, StatusOf, {"MENUNGGU"}), CountIn(es, StatusOf, {"IN_WH", "PROSES"}),
      CountIn(es, StatusOf, {"SELESAI"}), CountIn(es, StatusOf, {"BATAL"}),
      |FinishedMinutes(es)|, Sum(FinishedMinutes(es)), OverSlaCount(es, now))
  }

  /** Every counter of `getSummary` after one more entry. */
  method CountEntry(ghost seen: seq<DashEntry>, entry: DashEntry, now: int, t0: Tally) returns (t: Tally)
    requires t0 == TallyOf(seen, now)
    ensures t == TallyOf(seen + [entry], now)
  {
    var delivery, receiving, waiting, processing, done, cancelled :=
      CountKinds(seen, entry, t0.delivery, t0.receiving, t0.waiting, t0.processing, t0.done, t0.cancelled);
    var finishedCount, finishedMinutesSum := CountFinished(seen, entry, t0.finishedCount, t0.finishedMinutesSum);
    var overSlaCount := CountOverSla(seen, entry, now, t0.overSlaCount);
    t := Tally(delivery, receiving, waiting, processing, done, cancelled, finishedCount, finishedMinutesSum, overSlaCount);
  }

  /** The one pass of `getSummary` over the entries, updating every counter. */
  method TallyEntries(entries: seq<DashEntry>, now: int) returns (t: Tally)
    ensures t == TallyOf(entries, now)
  {
    t := Tally(0, 0, 0, 0, 0, 0, 0, 0, 0);
    assert t == TallyOf([], now);
    var i := 0;
    while i < |entries|
      invariant 0 <= i <= |entries|
      invariant t == TallyOf(entries[..i], now)
    {
      assert entries[..i + 1] == entries[..i] + [entries[i]];
      t := CountEntry(entries[..i], entries[i], now, t);
      i := i + 1;
    }
    assert entries[..i] == entries;
  }

  /** `getSummary`: the day's range, then one pass over the entries updating the counters. */
  method GetSummary(q: JsValue, today: Ymd, entries: seq<DashEntry>, now: int) returns (r: Result<Summary>)
    requires ValidYmd(today.year, today.month, today.day)
    ensures ResolveDateRange(q, today).Err? ==> r == Err(ResolveDateRange(q, today).error)
    ensures ResolveDateRange(q, today).Ok? ==> r == Ok(SummaryOf(ResolveDateRange(q, today).value.date, entries, now))
  {
    var range := ResolveDateRange(q, today);
    if range.Err? {
      return Err(range.error);
    }
    var total := |entries|;
    var t := TallyEntries(entries, now);
    var avgProcessMinutes := if t.finishedCount > 0 then RoundDiv(t.finishedMinutesSum, t.finishedCount) else 0;
    var overSlaPercent := if total > 0 then RoundDiv(100 * t.overSlaCount, total) else 0;
    r := Ok(Summary(range.value.date, total, t.delivery, t.receiving, t.waiting, t.processing, t.done, t.cancelled,
                    avgProcessMinutes, overSlaPercent));
  }

  // ---------------------------------------------------------------------
  // getHourly
  // ---------------------------------------------------------------------

  datatype Bucket = Bucket(hour: string, total: nat, receiving: nat, delivery: nat)

  /** The label of hour `h`: two digits and ":00". */
  function HourLabel(h: nat): string
  {
    Pad2(h) + ":00"
  }

  /** Hours of the day have five-character labels whose two digits read back as the hour, so labels are distinct. */
  lemma HourLabelReadsBack(h: nat)
    requires h < 24
    ensures |HourLabel(h)| == 5 && HourLabel(h)[2..] == ":00"
    ensures AllDigits(HourLabel(h)[..2]) && DecimalValue(HourLabel(h)[..2]) == h
  {
    Pad2Digits(h);
    assert HourLabel(h)[..2] == Pad2(h);
  }

  /** What bucket `h` of `getHourly` holds for the entries of a day. */
  function BucketOf(es: seq<DashEntry>, h: nat): Bucket
  {
    Bucket(HourLabel(h), CountIn(es, HourOf, {h}),
           CountIn(es, HourAndCategory, {(h, "RECEIVING")}), CountIn(es, HourAndCategory, {(h, "DELIVERY")}))
  }

  /** An entry adds one to the bucket of its hour, and to that bucket's category column. */
  lemma BucketOfAppend(es: seq<DashEntry>, e: DashEntry, h: nat)
    ensures BucketOf(es + [e], h) == if e.registerHour != h then BucketOf(es, h) else Bumped(BucketOf(es, h), e)
  {
    CountInAppend(es, e, HourOf, {h});
    CountInAppend(es, e, HourAndCategory, {(h, "RECEIVING")});
    CountInAppend(es, e, HourAndCategory, {(h, "DELIVERY")});
  }

  /** The 24 buckets of `getHourly` for the entries of a day. */
  function BucketsOf(es: seq<DashEntry>): (bs: seq<Bucket>)
    ensures |bs| == 24 && forall h :: 0 <= h < 24 ==> bs[h] == BucketOf(es, h)
  {
    seq(24, h requires 0 <= h < 24 => BucketOf(es, h))
  }

  /** The bucket `h` after one more entry that counts in it. */
  function Bumped(b: Bucket, e: DashEntry): Bucket
  {
    Bucket(b.hour, b.total + 1,
      if e.category == "RECEIVING" then b.receiving + 1 else b.receiving,
      if e.category == "DELIVERY" then b.delivery + 1 else b.delivery)
  }

  /** The buckets after one more entry: only the bucket of its hour moves, and none when its hour is outside the day. */
  function CountedIn(bs: seq<Bucket>, e: DashEntry): seq<Bucket>
    requires |bs| == 24
  {
    if 0 <= e.registerHour < 24 then bs[e.registerHour := Bumped(bs[e.registerHour], e)] else bs
  }

  /** Counting the entries one at a time builds the buckets of all of them. */
  lemma BucketsStep(es: seq<DashEntry>, e: DashEntry)
    ensures BucketsOf(es + [e]) == CountedIn(BucketsOf(es), e)
  {
    var before, after := BucketsOf(es), BucketsOf(es + [e]);
    forall h | 0 <= h < 24
      ensures after[h] == if h == e.registerHour then Bumped(before[h], e) else before[h]
    {
      BucketOfAppend(es, e, h);
    }
  }

  /** Adds one entry to the bucket of its registration hour, in place. */
  method Bump(buckets: array<Bucket>, e: DashEntry)
    requires buckets.Length == 24
    modifies buckets
    ensures buckets[..] == CountedIn(old(buckets[..]), e)
  {
    var hour := e.registerHour;
    if 0 <= hour < 24 {
      var b := buckets[hour];
      buckets[hour] := Bucket(b.hour, b.total + 1,
        if e.category == "RECEIVING" then b.receiving + 1 else b.receiving,
        if e.category == "DELIVERY" then b.delivery + 1 else b.delivery);
    }
  }

  datatype HourlyReport = HourlyReport(date: string, items: seq<Bucket>)

  /** The loop of `getHourly`: each entry bumps the bucket of its registration hour in place. */
  method FillBuckets(entries: seq<DashEntry>) returns (items: seq<Bucket>)
    ensures items == BucketsOf(entries)
  {
    var buckets := new Bucket[24](h => Bucket(HourLabel(h), 0, 0, 0));
    assert buckets[..] == BucketsOf([]);
    var i := 0;
    while i < |entries|
      invariant 0 <= i <= |entries|
      invariant buckets[..] == BucketsOf(entries[..i])
    {
      BucketsStep(entries[..i], entries[i]);
      Bump(buckets, entries[i]);
      SnocSlice(entries, i);
      i := i + 1;
    }
    assert entries[..i] == entries;
    items := buckets[..];
  }

  /** `getHourly`: 24 buckets labelled by hour; each entry adds to the bucket of its registration hour. */
  method GetHourly(q: JsValue, today: Ymd, entries: seq<DashEntry>) returns (r: Result<HourlyReport>)
    requires ValidYmd(today.year, today.month, today.day)
    ensures ResolveDateRange(q, today).Err? ==> r == Err(ResolveDateRange(q, today).error)
    ensures ResolveDateRange(q, today).Ok? ==> r.Ok? && r.value.date == ResolveDateRange(q, today).value.date
    ensures r.Ok? ==> |r.value.items| == 24 && forall h :: 0 <= h < 24 ==> r.value.items[h] == BucketOf(entries, h)
  {
    var range := ResolveDateRange(q, today);
    if range.Err? {
      return Err(range.error);
    }
    var items := FillBuckets(entries);
    r := Ok(HourlyReport(range.value.date, items));
  }

  /** The hours `0 .. n - 1`. */
  function HoursBelow(n: nat): (hs: set<int>)
    ensures forall h :: h in hs <==> 0 <= h < n
  {
    if n == 0 then {} else HoursBelow(n - 1) + {n - 1}
  }

  function BucketTotals(es: seq<DashEntry>, n: nat): nat
  {
    if n == 0 then 0 else BucketTotals(es, n - 1) + CountIn(es, HourOf, {n - 1})
  }

  /** The first `n` buckets together count the entries registered in those hours. */
  lemma {:induction false} BucketTotalsCount(es: seq<DashEntry>, n: nat)
    ensures BucketTotals(es, n) == CountIn(es, HourOf, HoursBelow(n))
  {
    if n == 0 {
      CountInNothing(es, HourOf);
    } else {
      BucketTotalsCount(es, n - 1);
      CountInUnion(es, HourOf, HoursBelow(n - 1), {n - 1});
      assert HoursBelow(n) == HoursBelow(n - 1) + {n - 1};
    }
  }

  /** With every registration hour in 0..23, the 24 bucket totals add up to the number of entries. */
  lemma HourlyTotalsAddUp(es: seq<DashEntry>)
    requires forall i :: 0 <= i < |es| ==> 0 <= es[i].registerHour < 24
    ensures BucketTotals(es, 24) == |es|
  {
    BucketTotalsCount(es, 24);
    CountInAll(es, HourOf, HoursBelow(24));
  }

  // ---------------------------------------------------------------------
  // getStatus
  // ---------------------------------------------------------------------

  datatype StatusItem = StatusItem(name: string, value: nat)
  datatype StatusReport = StatusReport(date: string, items: seq<StatusItem>)

  /** The five status counters after one more entry: only the counter of its status moves. */
  method CountStatus(ghost seen: seq<DashEntry>, entry: DashEntry, counts0: map<string, nat>) returns (counts: map<string, nat>)
    requires forall s :: s in counts0 ==> counts0[s] == CountIn(seen, StatusOf, {s})
    ensures counts.Keys == counts0.Keys
    ensures forall s :: s in counts ==> counts[s] == CountIn(seen + [entry], StatusOf, {s})
  {
    counts := counts0;
    if entry.status in counts {
      counts := counts[entry.status := counts[entry.status] + 1];
    }
    forall s | s in counts
      ensures counts[s] == CountIn(seen + [entry], StatusOf, {s})
    {
      CountInAppend(seen, entry, StatusOf, {s});
    }
  }

  /** The loop of `getStatus`: a counter per known status, starting at 0. */
  method CountStatuses(entries: seq<DashEntry>) returns (counts: map<string, nat>)
    ensures counts.Keys == set s | s in STATUS_ORDER
    ensures forall s :: s in counts ==> counts[s] == CountIn(entries, StatusOf, {s})
  {
    counts := map["MENUNGGU" := 0, "IN_WH" := 0, "PROSES" := 0, "SELESAI" := 0, "BATAL" := 0];
    assert counts.Keys == set s | s in STATUS_ORDER;
    ghost var keys := counts.Keys;
    var i := 0;
    while i < |entries|
      invariant 0 <= i <= |entries|
      invariant counts.Keys == keys
      invariant forall s :: s in counts ==> counts[s] == CountIn(entries[..i], StatusOf, {s})
    {
      assert entries[..i + 1] == entries[..i] + [entries[i]];
      counts := CountStatus(entries[..i], entries[i], counts);
      i := i + 1;
    }
    assert entries[..i] == entries;
  }

  /** `getStatus`: one count per status, in the fixed status order; other statuses are not counted. */
  method GetStatus(q: JsValue, today: Ymd, entries: seq<DashEntry>) returns (r: Result<StatusReport>)
    requires ValidYmd(today.year, today.month, today.day)
    ensures ResolveDateRange(q, today).Err? ==> r == Err(ResolveDateRange(q, today).error)
    ensures ResolveDateRange(q, today).Ok? ==> r.Ok? && r.value.date == ResolveDateRange(q, today).value.date
    ensures r.Ok? ==> |r.value.items| == 5 && forall k :: 0 <= k < 5 ==>
      r.value.items[k] == StatusItem(STATUS_ORDER[k], CountIn(entries, StatusOf, {STATUS_ORDER[k]}))
  {
    var range := ResolveDateRange(q, today);
    if range.Err? {
      return Err(range.error);
    }
    var counts := CountStatuses(entries);
    var items := seq(5, k requires 0 <= k < 5 => StatusItem(STATUS_ORDER[k], counts[STATUS_ORDER[k]]));
    r := Ok(StatusReport(range.value.date, items));
  }

  /** The counts for each key of `ks` in turn, added up. */
  function CountEach<T, K(==)>(xs: seq<T>, f: T -> K, ks: seq<K>): nat
  {
    if ks == [] then 0 else CountEach(xs, f, ks[..|ks| - 1]) + CountIn(xs, f, {ks[|ks| - 1]})
  }

  /** Counting each of several distinct keys adds up to counting all of them at once. */
  lemma {:induction false} CountEachUnion<T, K>(xs: seq<T>, f: T -> K, ks: seq<K>)
    requires Distinct(ks)
    ensures CountEach(xs, f, ks) == CountIn(xs, f, set k | k in ks)
  {
    if ks == [] {
      assert (set k | k in ks) == {};
      CountInNothing(xs, f);
    } else {
      var init, last := ks[..|ks| - 1], ks[|ks| - 1];
      CountEachUnion(xs, f, init);
      assert last !in init;
      CountInUnion(xs, f, set k | k in init, {last});
      assert (set k | k in init) + {last} == set k | k in ks;
    }
  }

  /** The five statuses differ already in their first letters. */
  lemma StatusOrderDistinct()
    ensures Distinct(STATUS_ORDER)
  {
    assert forall i :: 0 <= i < 5 ==> STATUS_ORDER[i][0] == "MIPSB"[i];
  }

  /**
   * The five counts `getStatus` reports add up to the entries whose status is
   * one of the five, so never more than the entries, and exactly the entries
   * when every status is known.
   */
  lemma StatusCountsAddUp(es: seq<DashEntry>)
    ensures CountEach(es, StatusOf, STATUS_ORDER) == CountIn(es, StatusOf, set s | s in STATUS_ORDER) <= |es|
    ensures (forall i :: 0 <= i < |es| ==> es[i].status in STATUS_ORDER) ==> CountEach(es, StatusOf, STATUS_ORDER) == |es|
  {
    StatusOrderDistinct();
    CountEachUnion(es, StatusOf, STATUS_ORDER);
    if forall i :: 0 <= i < |es| ==> es[i].status in STATUS_ORDER {
      CountInAll(es, StatusOf, set s | s in STATUS_ORDER);
    }
  }
}
