/**
 * Formatting shared by the spreadsheet exports of the queue and the
 * schedule controllers: two-digit padding, the `YYYY-MM-DD HH:MM:SS`
 * timestamp, the `-` placeholder for missing text and the download file
 * name.
 */
module ExportFormat {
  import opened Common
  import opened Text
  import opened Calendar

  /** `String(n).padStart(2, "0")` on a number. */
  function Pad(n: int): string
  {
    PadStart(IntToString(n), 2, '0')
  }

  /**
   * A number below 100 is padded to exactly two digits that read back as the
   * number; a negative one, or one of two digits or more, is left as
   * `String` prints it.
   */
  lemma PadWidth(n: int)
    ensures 0 <= n < 100 ==> |Pad(n)| == 2 && AllDigits(Pad(n)) && DecimalValue(Pad(n)) == n
    ensures n < 0 || n >= 10 ==> Pad(n) == IntToString(n)
  {
    if 0 <= n < 100 {
      assert Pad(n) == Pad2(n);
      Pad2Digits(n);
    }
    if n >= 10 {
      assert NatToString(n) == NatToString(n / 10) + [DigitChar(n % 10)];
    }
  }

  /** The text of a field that `value || "-"` writes: the value itself unless it is missing or empty. */
  function OrDash(v: Option<string>): (r: string)
    ensures r != ""
    ensures v.Some? && v.value != "" ==> r == v.value
    ensures !(v.Some? && v.value != "") ==> r == "-"
  {
    if v.Some? && v.value != "" then v.value else "-"
  }

  /**
   * `formatDateTime` of the exports: `-` when the value is missing or not a
   * valid date, otherwise the local calendar fields as
   * `YYYY-MM-DD HH:MM:SS`.
   */
  function FormatDateTime(v: Option<JsDate>): (r: string)
    ensures r == "-" <==> v.None? || v.value.InvalidDate?
  {
    match v
    case None => "-"
    case Some(InvalidDate) => "-"
    case Some(ValidDate(_, _, f)) => Timestamp(f)
  }

  /** The local calendar fields of a valid date as `YYYY-MM-DD HH:MM:SS`. */
  function Timestamp(f: DateFields): string
  {
    Stamp(IntToString(f.year), Pad(f.month), Pad(f.day), Pad(f.hour), Pad(f.minute), Pad(f.second))
  }

  /** The `${y}-${mo}-${d} ${h}:${mi}:${s}` template. */
  function Stamp(y: string, mo: string, d: string, h: string, mi: string, s: string): (r: string)
    ensures |r| == |y| + |mo| + |d| + |h| + |mi| + |s| + 5
  {
    y + "-" + mo + "-" + d + " " + h + ":" + mi + ":" + s
  }

  /**
   * `r` is a 19-character `YYYY-MM-DD HH:MM:SS` timestamp whose columns read
   * back as the fields of `f`.
   */
  ghost predicate ShowsFields(r: string, f: DateFields)
  {
    && |r| == 19
    && r[4] == '-' && r[7] == '-' && r[10] == ' ' && r[13] == ':' && r[16] == ':'
    && AllDigits(r[..4]) && AllDigits(r[5..7]) && AllDigits(r[8..10])
    && AllDigits(r[11..13]) && AllDigits(r[14..16]) && AllDigits(r[17..])
    && DecimalValue(r[..4]) == f.year && DecimalValue(r[5..7]) == f.month && DecimalValue(r[8..10]) == f.day
    && DecimalValue(r[11..13]) == f.hour && DecimalValue(r[14..16]) == f.minute && DecimalValue(r[17..]) == f.second
  }

  /**
   * For a valid date with a four-digit year the timestamp is fixed-width and
   * each field reads back from its own columns.
   */
  lemma TimestampReadsBack(f: DateFields)
    requires FieldsInRange(f) && 1000 <= f.year <= 9999
    ensures ShowsFields(Timestamp(f), f)
  {
    var ys, mo, d, h, mi, s := IntToString(f.year), Pad(f.month), Pad(f.day), Pad(f.hour), Pad(f.minute), Pad(f.second);
    NatToStringLength(f.year, 4);
    PadField(f.month);
    PadField(f.day);
    PadField(f.hour);
    PadField(f.minute);
    PadField(f.second);
    StampReadsBack(ys, mo, d, h, mi, s, f);
  }

  /** The same for what `formatDateTime` writes for a valid date. */
  lemma FormatDateTimeReadsBack(d: JsDate)
    requires d.ValidDate? && FieldsInRange(d.local) && 1000 <= d.local.year <= 9999
    ensures ShowsFields(FormatDateTime(Some(d)), d.local)
  {
    assert FormatDateTime(Some(d)) == Timestamp(d.local);
    TimestampReadsBack(d.local);
  }

  lemma PadField(n: int)
    requires 0 <= n < 100
    ensures |Pad(n)| == 2 && AllDigits(Pad(n)) && DecimalValue(Pad(n)) == n
  {
    PadWidth(n);
  }

  lemma StampReadsBack(y: string, mo: string, d: string, h: string, mi: string, s: string, f: DateFields)
    requires |y| == 4 && |mo| == 2 && |d| == 2 && |h| == 2 && |mi| == 2 && |s| == 2
    requires AllDigits(y) && AllDigits(mo) && AllDigits(d) && AllDigits(h) && AllDigits(mi) && AllDigits(s)
    requires DecimalValue(y) == f.year && DecimalValue(mo) == f.month && DecimalValue(d) == f.day
    requires DecimalValue(h) == f.hour && DecimalValue(mi) == f.minute && DecimalValue(s) == f.second
    ensures ShowsFields(Stamp(y, mo, d, h, mi, s), f)
  {
    StampSlices(y, mo, d, h, mi, s);
  }

  lemma StampSlices(y: string, mo: string, d: string, h: string, mi: string, s: string)
    requires |y| == 4 && |mo| == 2 && |d| == 2 && |h| == 2 && |mi| == 2 && |s| == 2
    ensures var r := Stamp(y, mo, d, h, mi, s);
      && |r| == 19
      && r[4] == '-' && r[7] == '-' && r[10] == ' ' && r[13] == ':' && r[16] == ':'
      && r[..4] == y && r[5..7] == mo && r[8..10] == d && r[11..13] == h && r[14..16] == mi && r[17..] == s
  {
    var date := y + "-" + mo + "-" + d;
    var time := h + ":" + mi + ":" + s;
    var r := Stamp(y, mo, d, h, mi, s);
    assert r == date + " " + time;
    Separated(y, '-', mo, '-', d);
    Separated(h, ':', mi, ':', s);
    assert r[..10] == date;
    assert r[11..] == time;
  }

  /** Where the three parts of `a` + `p` + `b` + `q` + `c` sit. */
  lemma Separated(a: string, p: char, b: string, q: char, c: string)
    ensures var r := a + [p] + b + [q] + c;
      && r[|a|] == p && r[|a| + 1 + |b|] == q
      && r[..|a|] == a && r[|a| + 1..|a| + 1 + |b|] == b && r[|a| + 2 + |b|..] == c
  {
    var r := a + [p] + b + [q] + c;
    assert r[..|a|] == a;
    assert r[|a| + 1..|a| + 1 + |b|] == b;
    assert r[|a| + 2 + |b|..] == c;
  }

  /**
   * `buildExportFilename` of the exports: the date range is part of the
   * name exactly when both ends are given.
   */
  function RangeFilename(base: string, dateFrom: Option<string>, dateTo: Option<string>): (r: string)
    ensures StartsWith(r, base) && EndsWith(r, ".xlsx")
    ensures Present(dateFrom) && Present(dateTo) ==> r == base + "_" + dateFrom.value + "_sampai_" + dateTo.value + ".xlsx"
    ensures !(Present(dateFrom) && Present(dateTo)) ==> r == base + ".xlsx"
  {
    if Present(dateFrom) && Present(dateTo) then
      var middle := "_" + dateFrom.value + "_sampai_" + dateTo.value;
      Framed(base, middle, ".xlsx");
      base + middle + ".xlsx"
    else
      Framed(base, "", ".xlsx");
      base + ".xlsx"
  }

  /** A name that carries a range is never the plain name, so the two cases cannot be confused. */
  lemma RangedNameDiffers(base: string, dateFrom: Option<string>, dateTo: Option<string>)
    requires Present(dateFrom) && Present(dateTo)
    ensures RangeFilename(base, dateFrom, dateTo) != RangeFilename(base, None, None)
  {
    assert |RangeFilename(base, dateFrom, dateTo)| > |RangeFilename(base, None, None)|;
  }
}
