/**
 * The gateway's request timestamp. Both back ends read the clock, render it with
 * `Date.prototype.toISOString` and strip it down to `YYYYMMDDHHmmss`; they strip it in
 * two different ways (server.js keeps the digits and drops the three millisecond
 * digits; daraja.js removes `-`, `:` and `T` and keeps the first 14 characters).
 */
module IsoDate {
  import opened JsText

  /** A UTC calendar instant as `toISOString` reads it from a Date. */
  datatype DateTime = DateTime(year: int, month: int, day: int, hour: int, minute: int, second: int, millisecond: int)

  /** The fields of a Date: the range ECMAScript allows for years, and calendar ranges for the rest. */
  predicate Valid(d: DateTime) {
    && -271821 <= d.year <= 275760
    && 1 <= d.month <= 12 && 1 <= d.day <= 31
    && 0 <= d.hour < 24 && 0 <= d.minute < 60 && 0 <= d.second < 60
    && 0 <= d.millisecond < 1000
  }

  /** Years 0..9999 print as four digits; any other year as a sign and six digits. */
  function YearText(y: int): string
    requires -999999 <= y <= 999999
  {
    if 0 <= y <= 9999 then Pad(y, 4)
    else if y < 0 then "-" + Pad(-y, 6)
    else "+" + Pad(y, 6)
  }

  /** `toISOString()`: `YYYY-MM-DDTHH:mm:ss.sssZ`, with the extended year form outside 0..9999. */
  function IsoString(d: DateTime): string
    requires Valid(d)
  {
    DatePart(YearText(d.year), Pad(d.month, 2), Pad(d.day, 2)) + "T"
      + TimePart(Pad(d.hour, 2), Pad(d.minute, 2), Pad(d.second, 2))
      + "." + Pad(d.millisecond, 3) + "Z"
  }

  /** `YYYY-MM-DD` */
  function DatePart(year: string, month: string, day: string): string {
    year + "-" + month + "-" + day
  }

  /** `HH:mm:ss` */
  function TimePart(hour: string, minute: string, second: string): string {
    hour + ":" + minute + ":" + second
  }

  /** The intended gateway timestamp, `YYYYMMDDHHmmss`. */
  function Compact(d: DateTime): (r: string)
    requires Valid(d) && 0 <= d.year <= 9999
    ensures |r| == 14 && AllDigits(r)
  {
    Pad(d.year, 4) + Pad(d.month, 2) + Pad(d.day, 2) + Pad(d.hour, 2) + Pad(d.minute, 2) + Pad(d.second, 2)
  }

  /** Reading the six fields back out of a 14-digit timestamp. */
  function ParseCompact(s: string): (int, int, int, int, int, int)
    requires |s| == 14 && AllDigits(s)
  {
    (DecimalValue(s[..4]), DecimalValue(s[4..6]), DecimalValue(s[6..8]),
     DecimalValue(s[8..10]), DecimalValue(s[10..12]), DecimalValue(s[12..14]))
  }

  /** The compact timestamp determines the instant up to the second. */
  lemma CompactRoundTrip(d: DateTime)
    requires Valid(d) && 0 <= d.year <= 9999
    ensures ParseCompact(Compact(d)) == (d.year, d.month, d.day, d.hour, d.minute, d.second)
  {
    var s := Compact(d);
    assert s[..4] == Pad(d.year, 4);
    assert s[4..6] == Pad(d.month, 2);
    assert s[6..8] == Pad(d.day, 2);
    assert s[8..10] == Pad(d.hour, 2);
    assert s[10..12] == Pad(d.minute, 2);
    assert s[12..14] == Pad(d.second, 2);
    assert Pow10(4) == 10000 && Pow10(2) == 100;
    PadRoundTrip(d.year, 4);
    PadRoundTrip(d.month, 2);
    PadRoundTrip(d.day, 2);
    PadRoundTrip(d.hour, 2);
    PadRoundTrip(d.minute, 2);
    PadRoundTrip(d.second, 2);
  }

  /** server.js: `.replace(/[^0-9]/g, '').slice(0, -3)`. */
  function ServerTimestamp(iso: string): string {
    DropLast(Filter(iso, IsDigit), 3)
  }

  predicate NotSeparator(c: char) { c != '-' && c != ':' && c != 'T' }

  /** daraja.js: `.replace(/[-:T]/g, '').slice(0, 14)`. */
  function DarajaTimestamp(iso: string): string {
    Take(Filter(iso, NotSeparator), 14)
  }

  /** Both filters drop the separators of the date and of the time and keep the fields. */
  lemma {:induction false} FilterFields(a: string, sep: string, b: string, c: string, keep: char -> bool)
    requires Filter(sep, keep) == ""
    ensures Filter(a + sep + b + sep + c, keep) == Filter(a, keep) + Filter(b, keep) + Filter(c, keep)
  {
    FilterConcat(a, sep, keep);
    FilterConcat(a + sep, b, keep);
    FilterConcat(a + sep + b, sep, keep);
    FilterConcat(a + sep + b + sep, c, keep);
    DropEmpty(Filter(a, keep), Filter(b, keep), Filter(c, keep));
  }

  lemma DropEmpty(x: string, y: string, z: string)
    ensures x + "" + y + "" + z == x + y + z
  {
  }

  lemma Reassociate(x: string, a: string, b: string, c: string)
    ensures x + "" + (a + b + c) == x + a + b + c
  {
  }

  /** Filtering the whole string is filtering its five parts. */
  lemma {:induction false} FilterParts(date: string, time: string, ms: string, keep: char -> bool)
    ensures Filter(date + "T" + time + "." + ms + "Z", keep)
      == Filter(date, keep) + Filter("T", keep) + Filter(time, keep) + Filter(".", keep) + Filter(ms, keep) + Filter("Z", keep)
  {
    FilterConcat(date, "T", keep);
    FilterConcat(date + "T", time, keep);
    FilterConcat(date + "T" + time, ".", keep);
    FilterConcat(date + "T" + time + ".", ms, keep);
    FilterConcat(date + "T" + time + "." + ms, "Z", keep);
  }

  lemma Punctuation()
    ensures Filter("-", NotSeparator) == "" && Filter("T", NotSeparator) == "" && Filter(":", NotSeparator) == ""
    ensures Filter(".", NotSeparator) == "." && Filter("Z", NotSeparator) == "Z"
    ensures Filter("-", IsDigit) == "" && Filter("T", IsDigit) == "" && Filter(":", IsDigit) == ""
    ensures Filter(".", IsDigit) == "" && Filter("Z", IsDigit) == ""
  {
  }

  /** The fields, each filtered, with the separators gone and `.` and `Z` kept or dropped as `keep` says. */
  lemma FilterShape(y: string, mo: string, da: string, h: string, mi: string, se: string, ms: string, keep: char -> bool)
    requires Filter("-", keep) == "" && Filter(":", keep) == "" && Filter("T", keep) == ""
    ensures Filter(DatePart(y, mo, da) + "T" + TimePart(h, mi, se) + "." + ms + "Z", keep)
      == Filter(y, keep) + Filter(mo, keep) + Filter(da, keep) + Filter(h, keep) + Filter(mi, keep) + Filter(se, keep)
        + Filter(".", keep) + Filter(ms, keep) + Filter("Z", keep)
  {
    var date, time := DatePart(y, mo, da), TimePart(h, mi, se);
    FilterParts(date, time, ms, keep);
    FilterFields(y, "-", mo, da, keep);
    FilterFields(h, ":", mi, se, keep);
    Reassociate(Filter(date, keep), Filter(h, keep), Filter(mi, keep), Filter(se, keep));
  }

  lemma FilterIso(d: DateTime, keep: char -> bool)
    requires Valid(d)
    requires Filter("-", keep) == "" && Filter(":", keep) == "" && Filter("T", keep) == ""
    ensures Filter(IsoString(d), keep)
      == Filter(YearText(d.year), keep) + Filter(Pad(d.month, 2), keep) + Filter(Pad(d.day, 2), keep)
        + Filter(Pad(d.hour, 2), keep) + Filter(Pad(d.minute, 2), keep) + Filter(Pad(d.second, 2), keep)
        + Filter(".", keep) + Filter(Pad(d.millisecond, 3), keep) + Filter("Z", keep)
  {
    FilterShape(YearText(d.year), Pad(d.month, 2), Pad(d.day, 2), Pad(d.hour, 2), Pad(d.minute, 2), Pad(d.second, 2),
      Pad(d.millisecond, 3), keep);
  }

  /** Every digit is kept by both filters. */
  lemma DigitsKept(s: string)
    requires AllDigits(s)
    ensures Filter(s, IsDigit) == s && Filter(s, NotSeparator) == s
  {
    FilterKeepsAll(s, IsDigit);
    FilterKeepsAll(s, NotSeparator);
  }

  lemma FieldsKept(d: DateTime)
    requires Valid(d)
    ensures Filter(Pad(d.month, 2), IsDigit) == Pad(d.month, 2) && Filter(Pad(d.month, 2), NotSeparator) == Pad(d.month, 2)
    ensures Filter(Pad(d.day, 2), IsDigit) == Pad(d.day, 2) && Filter(Pad(d.day, 2), NotSeparator) == Pad(d.day, 2)
    ensures Filter(Pad(d.hour, 2), IsDigit) == Pad(d.hour, 2) && Filter(Pad(d.hour, 2), NotSeparator) == Pad(d.hour, 2)
    ensures Filter(Pad(d.minute, 2), IsDigit) == Pad(d.minute, 2) && Filter(Pad(d.minute, 2), NotSeparator) == Pad(d.minute, 2)
    ensures Filter(Pad(d.second, 2), IsDigit) == Pad(d.second, 2) && Filter(Pad(d.second, 2), NotSeparator) == Pad(d.second, 2)
    ensures Filter(Pad(d.millisecond, 3), IsDigit) == Pad(d.millisecond, 3)
    ensures Filter(Pad(d.millisecond, 3), NotSeparator) == Pad(d.millisecond, 3)
  {
    DigitsKept(Pad(d.month, 2));
    DigitsKept(Pad(d.day, 2));
    DigitsKept(Pad(d.hour, 2));
    DigitsKept(Pad(d.minute, 2));
    DigitsKept(Pad(d.second, 2));
    DigitsKept(Pad(d.millisecond, 3));
  }

  /** Keeping only the digits of the ISO string leaves the compact timestamp followed by the milliseconds. */
  lemma IsoDigits(d: DateTime)
    requires Valid(d) && 0 <= d.year <= 9999
    ensures Filter(IsoString(d), IsDigit) == Compact(d) + Pad(d.millisecond, 3)
  {
    Punctuation();
    FilterIso(d, IsDigit);
    FieldsKept(d);
    DigitsKept(Pad(d.year, 4));
    DropEmpty(Compact(d), Pad(d.millisecond, 3), "");
  }

  /** Removing `-`, `:` and `T` leaves the compact timestamp, then `.`, the milliseconds and `Z`. */
  lemma IsoWithoutSeparators(d: DateTime)
    requires Valid(d) && 0 <= d.year <= 9999
    ensures Filter(IsoString(d), NotSeparator) == Compact(d) + "." + Pad(d.millisecond, 3) + "Z"
  {
    Punctuation();
    FilterIso(d, NotSeparator);
    FieldsKept(d);
    DigitsKept(Pad(d.year, 4));
  }

  /** For years 0..9999 the server.js derivation yields exactly `YYYYMMDDHHmmss`. */
  lemma ServerTimestampIsCompact(d: DateTime)
    requires Valid(d) && 0 <= d.year <= 9999
    ensures ServerTimestamp(IsoString(d)) == Compact(d)
    ensures |ServerTimestamp(IsoString(d))| == 14 && AllDigits(ServerTimestamp(IsoString(d)))
  {
    IsoDigits(d);
    assert (Compact(d) + Pad(d.millisecond, 3))[..14] == Compact(d);
  }

  /** For years 0..9999 the daraja.js derivation yields exactly `YYYYMMDDHHmmss`. */
  lemma DarajaTimestampIsCompact(d: DateTime)
    requires Valid(d) && 0 <= d.year <= 9999
    ensures DarajaTimestamp(IsoString(d)) == Compact(d)
    ensures |DarajaTimestamp(IsoString(d))| == 14 && AllDigits(DarajaTimestamp(IsoString(d)))
  {
    IsoWithoutSeparators(d);
    assert (Compact(d) + "." + Pad(d.millisecond, 3) + "Z")[..14] == Compact(d);
  }

  /** The two derivations agree on every clock reading with a four-digit year. */
  lemma TimestampsAgree(d: DateTime)
    requires Valid(d) && 0 <= d.year <= 9999
    ensures ServerTimestamp(IsoString(d)) == DarajaTimestamp(IsoString(d))
  {
    ServerTimestampIsCompact(d);
    DarajaTimestampIsCompact(d);
  }

  /** Past year 9999 the extended year form makes the server.js timestamp 16 digits long. */
  lemma ServerTimestampExtendedYear(d: DateTime)
    requires Valid(d) && d.year > 9999
    ensures |ServerTimestamp(IsoString(d))| == 16
  {
    Punctuation();
    FilterIso(d, IsDigit);
    FieldsKept(d);
    DigitsKept(Pad(d.year, 6));
    FilterConcat("+", Pad(d.year, 6), IsDigit);
  }

  /** Past year 9999 the daraja.js timestamp begins with the year's `+` sign. */
  lemma DarajaTimestampExtendedYear(d: DateTime)
    requires Valid(d) && d.year > 9999
    ensures DarajaTimestamp(IsoString(d))[0] == '+'
  {
    Punctuation();
    FilterIso(d, NotSeparator);
    FilterConcat("+", Pad(d.year, 6), NotSeparator);
    assert Filter("+", NotSeparator) == "+";
  }
}
