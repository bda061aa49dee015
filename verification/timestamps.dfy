/** The timestamp parser and printer of the backup freshness task.

    Texts are byte strings: each `char` stands for one byte of the UTF-8 text. A
    slice that Rust refuses because it splits a character would hold a byte that
    is not a digit, and both forms of refusal give `None`. */
module Timestamps {
  import opened Wrappers
  import opened Calendar

  // ------------------------------------------------------------------
  // Decimal text
  // ------------------------------------------------------------------

  predicate IsDigit(c: char) { '0' <= c <= '9' }

  predicate AllDigits(s: string) { forall i :: 0 <= i < |s| ==> IsDigit(s[i]) }

  function DigitValue(c: char): nat
    requires IsDigit(c)
  {
    (c - '0') as nat
  }

  function DigitChar(d: nat): (c: char)
    requires d < 10
    ensures IsDigit(c) && DigitValue(c) == d
  {
    '0' + d as char
  }

  function Number(s: string): nat
    requires AllDigits(s)
  {
    if s == "" then 0 else 10 * Number(s[..|s| - 1]) + DigitValue(s[|s| - 1])
  }

  /** Rust's integer parser: an optional sign, then at least one digit. */
  function ParseInteger(s: string): Option<int> {
    if s == "" then None
    else if s[0] == '-' || s[0] == '+' then
      var digits := s[1..];
      if digits == "" || !AllDigits(digits) then None
      else
        var value: int := Number(digits);
        Some(if s[0] == '-' then -value else value)
    else if AllDigits(s) then Some(Number(s))
    else None
  }

  function Decimal(n: nat): (s: string)
    ensures s != "" && AllDigits(s)
  {
    if n < 10 then [DigitChar(n)] else Decimal(n / 10) + [DigitChar(n % 10)]
  }

  function Zeros(k: nat): (s: string)
    ensures |s| == k && AllDigits(s)
  {
    seq(k, _ => '0')
  }

  function PadLength(used: nat, width: nat): nat { if used < width then width - used else 0 }

  /** `{n:0width}`: zero-padded to `width` characters, the sign among them. */
  function Padded(n: int, width: nat): string {
    if 0 <= n then
      var d := Decimal(n);
      Zeros(PadLength(|d|, width)) + d
    else
      var d := Decimal(-n);
      "-" + (Zeros(PadLength(|d| + 1, width)) + d)
  }

  // ------------------------------------------------------------------
  // Printing and parsing, as the program does them
  // ------------------------------------------------------------------

  function FormatIso8601(epoch: int): string {
    var days := epoch / 86400;
    var secs := epoch % 86400;
    var date := CivilFromDays(days);
    Padded(date.year, 4) + "-" + Padded(date.month, 2) + "-" + Padded(date.day, 2) + "T"
    + Padded(secs / 3600, 2) + ":" + Padded(secs % 3600 / 60, 2) + ":" + Padded(secs % 60, 2) + "Z"
  }

  function LeadingDigits(s: string): (k: nat)
    ensures k <= |s| && AllDigits(s[..k])
    ensures k < |s| ==> !IsDigit(s[k])
  {
    if s == "" || !IsDigit(s[0]) then 0
    else
      var k := LeadingDigits(s[1..]);
      assert s[..k + 1] == [s[0]] + s[1..][..k];
      k + 1
  }

  function ParseOffset(s: string): Option<int> {
    if s == "Z" || s == "z" then Some(0)
    else if s == "" || (s[0] != '+' && s[0] != '-') then None
    else
      var sign := if s[0] == '+' then 1 else -1;
      var body := s[1..];
      if |body| == 5 && body[2] == ':' then SignedOffset(sign, body[0..2], body[3..5])
      else if |body| == 4 then SignedOffset(sign, body[0..2], body[2..4])
      else if |body| == 2 then SignedOffset(sign, body, "00")
      else None
  }

  function SignedOffset(sign: int, h: string, m: string): Option<int> {
    var hours :- ParseInteger(h);
    var minutes :- ParseInteger(m);
    if 23 < hours || 59 < minutes then None
    else Some(sign * (hours * 3600 + minutes * 60))
  }

  function ParseIso8601(s: string): (r: Option<int>)
    ensures r.Some? ==> 19 <= |s|
  {
    if |s| < 19 || s[4] != '-' || s[7] != '-' || s[13] != ':' || s[16] != ':' then None
    else if s[10] != 'T' && s[10] != ' ' then None
    else
      var year :- ParseInteger(s[0..4]);
      var month :- ParseInteger(s[5..7]);
      var day :- ParseInteger(s[8..10]);
      var hour :- ParseInteger(s[11..13]);
      var minute :- ParseInteger(s[14..16]);
      var second :- ParseInteger(s[17..19]);
      Instant(Date(year, month, day), hour, minute, second, s[19..])
  }

  /** The range checks, the fraction and the zone: what follows the six fields. */
  function Instant(date: Date, hour: int, minute: int, second: int, rest: string): Option<int> {
    if !(1 <= date.month <= 12) || !(1 <= date.day <= 31) || 23 < hour || 59 < minute || 60 < second then None
    else
      var zone :- SkipFraction(rest);
      var offset :- ParseOffset(zone);
      Some(DaysFromCivil(date) * 86400 + hour * 3600 + minute * 60 + second - offset)
  }

  /** Drops `.` and the digits after it; a lone `.` is refused. */
  function SkipFraction(rest: string): Option<string> {
    if rest == "" || rest[0] != '.' then Some(rest)
    else
      var digits := LeadingDigits(rest[1..]);
      if digits == 0 then None else Some(rest[1..][digits..])
  }

  // ------------------------------------------------------------------
  // Printed numbers read back
  // ------------------------------------------------------------------

  lemma {:induction false} NumberOfDecimal(n: nat)
    ensures Number(Decimal(n)) == n
  {
    if 10 <= n {
      NumberOfDecimal(n / 10);
      assert Decimal(n)[..|Decimal(n)| - 1] == Decimal(n / 10);
    }
  }

  lemma {:induction false} LeadingZeros(k: nat, s: string)
    requires AllDigits(s)
    ensures AllDigits(Zeros(k) + s) && Number(Zeros(k) + s) == Number(s)
    decreases k + |s|
  {
    var t := Zeros(k) + s;
    if s != "" {
      LeadingZeros(k, s[..|s| - 1]);
      assert t[..|t| - 1] == Zeros(k) + s[..|s| - 1];
    } else if 0 < k {
      LeadingZeros(k - 1, "");
      assert t[..|t| - 1] == Zeros(k - 1) + "";
    }
  }

  lemma {:induction false} DecimalWidth(n: nat, width: nat, limit: nat)
    requires 0 < width && limit == Power10(width)
    ensures |Decimal(n)| <= width <==> n < limit
    decreases width
  {
    if width == 1 {
    } else if 10 <= n {
      DecimalWidth(n / 10, width - 1, Power10(width - 1));
    }
  }

  function Power10(k: nat): (p: nat)
    ensures 0 < p && (0 < k ==> 10 <= p)
  {
    if k == 0 then 1 else 10 * Power10(k - 1)
  }

  /** A padded number reads back as itself, at any width. */
  lemma ParsePadded(n: int, width: nat)
    ensures ParseInteger(Padded(n, width)) == Some(n)
  {
    hide ParseInteger, Number, Zeros, Decimal;
    var d := Decimal(if 0 <= n then n else -n);
    var z := Zeros(if 0 <= n then PadLength(|d|, width) else PadLength(|d| + 1, width));
    NumberOfDecimal(if 0 <= n then n else -n);
    LeadingZeros(|z|, d);
    if 0 <= n {
      ReadsUnsigned(z + d);
    } else {
      ReadsNegative(z + d);
    }
  }

  lemma ReadsUnsigned(digits: string)
    requires digits != "" && AllDigits(digits)
    ensures ParseInteger(digits) == Some(Number(digits))
  {
    assert IsDigit(digits[0]);
  }

  lemma ReadsNegative(digits: string)
    requires digits != "" && AllDigits(digits)
    ensures ParseInteger("-" + digits) == Some(-(Number(digits) as int))
  {
    assert ("-" + digits)[1..] == digits;
  }

  /** Which years print in four characters. */
  lemma YearWidth(y: int)
    ensures |Padded(y, 4)| == 4 <==> -999 <= y <= 9999
    ensures !(-999 <= y <= 9999) ==> 5 <= |Padded(y, 4)| && IsDigit(Padded(y, 4)[4])
  {
    assert Power10(3) == 1000 && Power10(4) == 10000 by {
      assert Power10(1) == 10;
      assert Power10(2) == 100;
    }
    if 0 <= y {
      DecimalWidth(y, 4, 10000);
    } else {
      DecimalWidth(-y, 3, 1000);
    }
  }

  lemma FieldWidth(n: int)
    requires -10 < n < 100
    ensures |Padded(n, 2)| == 2
  {
    if n < 0 {
      return;
    }
    assert Power10(2) == 100 by { assert Power10(1) == 10; }
    DecimalWidth(n, 2, 100);
  }

  // ------------------------------------------------------------------
  // Every accepted form, and the round trip
  // ------------------------------------------------------------------

  datatype ZoneForm = Zulu(upper: bool) | Colon | Compact | HoursOnly

  function ZoneText(form: ZoneForm, east: bool, hours: int, minutes: int): string {
    match form
    case Zulu(upper) => if upper then "Z" else "z"
    case Colon => [if east then '+' else '-'] + (Padded(hours, 2) + ":" + Padded(minutes, 2))
    case Compact => [if east then '+' else '-'] + (Padded(hours, 2) + Padded(minutes, 2))
    case HoursOnly => [if east then '+' else '-'] + Padded(hours, 2)
  }

  /** Seconds east of UTC that a zone text stands for. */
  function ZoneSeconds(form: ZoneForm, east: bool, hours: int, minutes: int): int {
    match form
    case Zulu(_) => 0
    case HoursOnly => (if east then 1 else -1) * (hours * 3600)
    case _ => (if east then 1 else -1) * (hours * 3600 + minutes * 60)
  }

  lemma ReadsZone(form: ZoneForm, east: bool, hours: int, minutes: int)
    requires -10 < hours < 24 && -10 < minutes < 60
    ensures ParseOffset(ZoneText(form, east, hours, minutes)) == Some(ZoneSeconds(form, east, hours, minutes))
    ensures ZoneText(form, east, hours, minutes) != "" && ZoneText(form, east, hours, minutes)[0] != '.'
    ensures !IsDigit(ZoneText(form, east, hours, minutes)[0])
  {
    hide Padded, Number, ParseInteger, ParseOffset;
    if form.Zulu? {
      ReadsZulu();
    } else {
      FieldWidth(hours);
      FieldWidth(minutes);
      ParsePadded(hours, 2);
      ParsePadded(minutes, 2);
      ReadsZero();
      ReadsOffsetBody(form, if east then '+' else '-', Padded(hours, 2), Padded(minutes, 2));
    }
  }

  lemma ReadsZulu()
    ensures ParseOffset("Z") == Some(0) && ParseOffset("z") == Some(0)
  {
  }

  lemma ReadsZero()
    ensures ParseInteger("00") == Some(0)
  {
    assert "00"[..1] == "0" && "0"[..0] == "";
  }

  lemma ReadsOffsetBody(form: ZoneForm, sign: char, h: string, m: string)
    requires !form.Zulu? && (sign == '+' || sign == '-') && |h| == |m| == 2
    ensures
      var body := match form { case Colon => h + ":" + m case Compact => h + m case _ => h };
      ParseOffset([sign] + body)
        == SignedOffset(if sign == '+' then 1 else -1, h, if form.HoursOnly? then "00" else m)
  {
    match form
    case Colon =>
      var t := [sign] + (h + ":" + m);
      assert t[1..][0..2] == h && t[1..][3..5] == m;
    case Compact =>
      var t := [sign] + (h + m);
      assert t[1..][0..2] == h && t[1..][2..4] == m;
    case HoursOnly =>
      assert ([sign] + h)[1..] == h;
  }

  lemma {:induction false} LeadingDigitsOf(digits: string, rest: string)
    requires AllDigits(digits) && (rest == "" || !IsDigit(rest[0]))
    ensures LeadingDigits(digits + rest) == |digits|
  {
    if digits != "" {
      LeadingDigitsOf(digits[1..], rest);
      assert (digits + rest)[1..] == digits[1..] + rest;
    } else {
      assert digits + rest == rest;
    }
  }

  lemma SkipsFraction(digits: string, zone: string)
    requires AllDigits(digits) && digits != "" && zone != "" && !IsDigit(zone[0])
    ensures SkipFraction("." + digits + zone) == Some(zone)
  {
    var rest := "." + digits + zone;
    assert rest[1..] == digits + zone;
    LeadingDigitsOf(digits, zone);
    assert rest[1..][|digits|..] == zone;
  }

  function ClockText(date: Date, separator: char, h: int, m: int, s: int): string {
    Padded(date.year, 4) + "-" + Padded(date.month, 2) + "-" + Padded(date.day, 2) + [separator]
    + Padded(h, 2) + ":" + Padded(m, 2) + ":" + Padded(s, 2)
  }

  lemma ClockFields(date: Date, separator: char, h: int, m: int, s: int, tail: string)
    requires -999 <= date.year <= 9999 && 0 <= date.month < 100 && 0 <= date.day < 100
    requires -10 < h < 100 && -10 < m < 100 && -10 < s < 100
    ensures
      var t := ClockText(date, separator, h, m, s) + tail;
      && 19 <= |t|
      && t[0..4] == Padded(date.year, 4) && t[5..7] == Padded(date.month, 2) && t[8..10] == Padded(date.day, 2)
      && t[11..13] == Padded(h, 2) && t[14..16] == Padded(m, 2) && t[17..19] == Padded(s, 2)
      && t[4] == '-' && t[7] == '-' && t[10] == separator && t[13] == ':' && t[16] == ':'
      && t[19..] == tail
  {
    YearWidth(date.year);
    FieldWidth(date.month);
    FieldWidth(date.day);
    FieldWidth(h);
    FieldWidth(m);
    FieldWidth(s);
    hide Padded;
    SixFields(Padded(date.year, 4), Padded(date.month, 2), Padded(date.day, 2), separator,
              Padded(h, 2), Padded(m, 2), Padded(s, 2), tail);
  }

  lemma SixFields(y: string, mo: string, d: string, separator: char, h: string, m: string, s: string, tail: string)
    requires |y| == 4 && |mo| == |d| == |h| == |m| == |s| == 2
    ensures
      var t := y + "-" + mo + "-" + d + [separator] + h + ":" + m + ":" + s + tail;
      && 19 <= |t|
      && t[0..4] == y && t[5..7] == mo && t[8..10] == d && t[11..13] == h && t[14..16] == m && t[17..19] == s
      && t[4] == '-' && t[7] == '-' && t[10] == separator && t[13] == ':' && t[16] == ':'
      && t[19..] == tail
  {
    var date := y + "-" + mo + "-" + d + [separator];
    var clock := h + ":" + m + ":" + s;
    var t := y + "-" + mo + "-" + d + [separator] + h + ":" + m + ":" + s + tail;
    assert t == date + clock + tail;
    assert date[0..4] == y && date[5..7] == mo && date[8..10] == d;
    assert clock[0..2] == h && clock[3..5] == m && clock[6..8] == s;
    assert t[..11] == date && t[11..19] == clock && t[19..] == tail;
    assert t[0..4] == t[..11][0..4] && t[5..7] == t[..11][5..7] && t[8..10] == t[..11][8..10];
    assert t[11..13] == t[11..19][0..2] && t[14..16] == t[11..19][3..5] && t[17..19] == t[11..19][6..8];
  }

  /** Every text of the documented shape, with any fraction and any zone form, is read
      as the instant it denotes; and so is one with a minus sign in place of a leading
      digit. */
  lemma ReadsEveryForm(date: Date, separator: char, h: int, m: int, s: int,
                       fraction: string, form: ZoneForm, east: bool, zh: int, zm: int)
    requires -999 <= date.year <= 9999 && 1 <= date.month <= 12 && 1 <= date.day <= 31
    requires -10 < h < 24 && -10 < m < 60 && -10 < s <= 60
    requires separator == 'T' || separator == ' '
    requires fraction == "" || (2 <= |fraction| && fraction[0] == '.' && AllDigits(fraction[1..]))
    requires -10 < zh < 24 && -10 < zm < 60
    ensures ParseIso8601(ClockText(date, separator, h, m, s) + (fraction + ZoneText(form, east, zh, zm)))
            == Some(DaysFromCivil(date) * 86400 + h * 3600 + m * 60 + s - ZoneSeconds(form, east, zh, zm))
  {
    hide DaysFromCivil, ParseIso8601, ClockText, ZoneText, ParseOffset, ZoneSeconds;
    var zone := ZoneText(form, east, zh, zm);
    ReadsZone(form, east, zh, zm);
    if fraction == "" {
      assert fraction + zone == zone;
    } else {
      SkipsFraction(fraction[1..], zone);
      assert fraction + zone == "." + fraction[1..] + zone;
    }
    assert Instant(date, h, m, s, fraction + zone)
        == Some(DaysFromCivil(date) * 86400 + h * 3600 + m * 60 + s - ZoneSeconds(form, east, zh, zm));
    ReadsClock(date, separator, h, m, s, fraction + zone);
  }

  lemma ReadsClock(date: Date, separator: char, h: int, m: int, s: int, tail: string)
    requires -999 <= date.year <= 9999 && 0 <= date.month < 100 && 0 <= date.day < 100
    requires -10 < h < 100 && -10 < m < 100 && -10 < s < 100
    requires separator == 'T' || separator == ' '
    ensures ParseIso8601(ClockText(date, separator, h, m, s) + tail) == Instant(date, h, m, s, tail)
  {
    hide Instant, ParseInteger;
    ClockFields(date, separator, h, m, s, tail);
    ParsePadded(date.year, 4);
    ParsePadded(date.month, 2);
    ParsePadded(date.day, 2);
    ParsePadded(h, 2);
    ParsePadded(m, 2);
    ParsePadded(s, 2);
  }

  lemma SecondsOfDay(epoch: int)
    ensures
      var secs := epoch % 86400;
      && 0 <= secs / 3600 < 24 && 0 <= secs % 3600 / 60 < 60 && 0 <= secs % 60 < 60
      && epoch / 86400 * 86400 + secs / 3600 * 3600 + secs % 3600 / 60 * 60 + secs % 60 == epoch
  {
    var secs := epoch % 86400;
    assert secs % 3600 % 60 == secs % 60;
  }

  lemma FormatIsClockText(epoch: int)
    ensures
      var secs := epoch % 86400;
      FormatIso8601(epoch)
        == ClockText(CivilFromDays(epoch / 86400), 'T', secs / 3600, secs % 3600 / 60, secs % 60) + ("" + "Z")
  {
  }

  const FIRST_PRINTABLE := -93692592000   // -999-01-01T00:00:00Z
  const FIRST_UNPRINTABLE := 253402300800 // 10000-01-01T00:00:00Z

  /** The four-character years are exactly one interval of instants. */
  lemma PrintableYears(epoch: int)
    ensures -999 <= CivilFromDays(epoch / 86400).year <= 9999 <==> FIRST_PRINTABLE <= epoch < FIRST_UNPRINTABLE
  {
    hide CivilFromDays, DaysFromCivil;
    var days := epoch / 86400;
    var date := CivilFromDays(days);
    MutuallyInverse(days, date);
    StrictlyMonotone(date, Date(-999, 1, 1));
    StrictlyMonotone(date, Date(10000, 1, 1));
    BoundaryDays();
  }

  lemma BoundaryDays()
    ensures DaysFromCivil(Date(-999, 1, 1)) == -1084405 && DaysFromCivil(Date(10000, 1, 1)) == 2932897
  {
    assert Quot(-1000 - 399, 400) == -3 && Quot(200, 4) == 50 && Quot(200, 100) == 2;
    assert Quot(9999, 400) == 24 && Quot(399, 4) == 99 && Quot(399, 100) == 3;
    assert Quot(153 * 10 + 2, 5) == 306;
  }

  lemma PrintedInstant(epoch: int)
    ensures
      var secs := epoch % 86400;
      DaysFromCivil(CivilFromDays(epoch / 86400)) * 86400
        + secs / 3600 * 3600 + secs % 3600 / 60 * 60 + secs % 60 == epoch
    ensures ValidDate(CivilFromDays(epoch / 86400))
  {
    hide DaysFromCivil, CivilFromDays;
    MutuallyInverse(epoch / 86400, EPOCH);
    SecondsOfDay(epoch);
  }

  /** A printed instant reads back as itself exactly when its year takes four characters,
      the sign included; any other printed instant is refused. */
  lemma RoundTrip(epoch: int)
    ensures ParseIso8601(FormatIso8601(epoch))
            == if FIRST_PRINTABLE <= epoch < FIRST_UNPRINTABLE then Some(epoch) else None
  {
    hide DaysFromCivil, CivilFromDays, ParseIso8601, ClockText, Padded;
    var date := CivilFromDays(epoch / 86400);
    PrintableYears(epoch);
    FormatIsClockText(epoch);
    if FIRST_PRINTABLE <= epoch < FIRST_UNPRINTABLE {
      var secs := epoch % 86400;
      PrintedInstant(epoch);
      SecondsOfDay(epoch);
      ReadsEveryForm(date, 'T', secs / 3600, secs % 3600 / 60, secs % 60, "", Zulu(true), true, 0, 0);
    } else {
      RefusesWideYear(date, 'T', epoch % 86400 / 3600, epoch % 86400 % 3600 / 60, epoch % 86400 % 60, "" + "Z");
    }
  }

  lemma RefusesWideYear(date: Date, separator: char, h: int, m: int, s: int, tail: string)
    requires !(-999 <= date.year <= 9999)
    ensures ParseIso8601(ClockText(date, separator, h, m, s) + tail) == None
  {
    hide Instant, ParseInteger, Padded;
    YearWidth(date.year);
    assert (ClockText(date, separator, h, m, s) + tail)[4] == Padded(date.year, 4)[4];
  }

  // ------------------------------------------------------------------
  // How strict the parser is
  // ------------------------------------------------------------------

  predicate IsSign(c: char) { c == '+' || c == '-' }

  /** What a text without inner signs says: six fields, a fraction or none, and a zone. */
  datatype Stamp = Stamp(date: Date, separator: char, h: int, m: int, s: int, fraction: string,
                         form: ZoneForm, east: bool, zh: int, zm: int)

  predicate InRange(t: Stamp) {
    && 0 <= t.date.year <= 9999 && 1 <= t.date.month <= 12 && 1 <= t.date.day <= 31
    && 0 <= t.h < 24 && 0 <= t.m < 60 && 0 <= t.s <= 60
    && (t.separator == 'T' || t.separator == ' ')
    && (t.fraction == "" || (2 <= |t.fraction| && t.fraction[0] == '.' && AllDigits(t.fraction[1..])))
    && 0 <= t.zh < 24 && 0 <= t.zm < 60
  }

  function Text(t: Stamp): string {
    ClockText(t.date, t.separator, t.h, t.m, t.s) + (t.fraction + ZoneText(t.form, t.east, t.zh, t.zm))
  }

  ghost predicate Unsigned(s: string) { exists t :: InRange(t) && s == Text(t) }

  /** The documented shape, `YYYY-MM-DDTHH:MM:SS[.ffffff](Z|+HH:MM|+HHMM)` with either sign, of
      a date that exists. */
  predicate IsDocumented(t: Stamp) {
    && InRange(t) && t.separator == 'T' && ValidDate(t.date)
    && (t.fraction == "" || |t.fraction| == 7)
    && (t.form == Zulu(true) || t.form.Colon? || t.form.Compact?)
  }

  ghost predicate Documented(s: string) { exists t :: IsDocumented(t) && s == Text(t) }

  /** Where the zone begins: after the fraction, if there is one. */
  function ZoneStart(s: string): (k: nat)
    requires 19 <= |s|
    ensures 19 <= k <= |s|
  {
    if |s| == 19 || s[19] != '.' then 19 else 20 + LeadingDigits(s[20..])
  }

  /** The only signs are the dashes of the date and the first character of the zone. */
  predicate NoInnerSign(s: string)
    requires 19 <= |s|
  {
    forall i :: 0 <= i < |s| && IsSign(s[i]) ==> i == 4 || i == 7 || i == ZoneStart(s)
  }

  /** The date fields are digits, of a date that exists. */
  predicate DayExists(s: string)
    requires 19 <= |s|
  {
    && AllDigits(s[0..4]) && AllDigits(s[5..7]) && AllDigits(s[8..10])
    && ValidDate(Date(Number(s[0..4]), Number(s[5..7]), Number(s[8..10])))
  }

  /** What the parser does not look at: inner signs, the separator, the length of the fraction,
      the day in its month, and the short and lower-case zones. */
  predicate Strict(s: string)
    requires 19 <= |s|
  {
    && NoInnerSign(s) && s[10] == 'T' && DayExists(s)
    && (ZoneStart(s) == 19 || ZoneStart(s) == 26)
    && (s[ZoneStart(s)..] == "Z" || 5 <= |s| - ZoneStart(s))
  }

  /** Without inner signs, the parser accepts exactly the texts of unsigned fields. */
  lemma UnsignedLanguage(s: string)
    ensures ParseIso8601(s).Some? && NoInnerSign(s) <==> Unsigned(s)
  {
    if Unsigned(s) {
      var t :| InRange(t) && s == Text(t);
      ReadsEveryForm(t.date, t.separator, t.h, t.m, t.s, t.fraction, t.form, t.east, t.zh, t.zm);
      TextHasNoInnerSign(t);
    }
    if ParseIso8601(s).Some? && NoInnerSign(s) {
      var t := StampOf(s);
    }
  }

  /** An accepted text is a documented one exactly when it is strict. */
  lemma ExactLanguage(s: string)
    ensures ParseIso8601(s).Some? && Strict(s) <==> Documented(s)
  {
    hide ParseIso8601, InRange, Text, NoInnerSign, DayExists, ZoneStart, ValidDate;
    if Documented(s) {
      var t :| IsDocumented(t) && s == Text(t);
      UnsignedText(t);
      AcceptedTexts(t);
    }
    if ParseIso8601(s).Some? && Strict(s) {
      var t := StampOf(s);
      AcceptedTexts(t);
    }
  }

  lemma UnsignedText(t: Stamp)
    requires InRange(t)
    ensures 19 <= |Text(t)| && ParseIso8601(Text(t)).Some? && NoInnerSign(Text(t))
  {
    hide ParseIso8601, InRange, Text, NoInnerSign;
    TextHasNoInnerSign(t);
    assert Unsigned(Text(t));
    UnsignedLanguage(Text(t));
  }

  /** The texts the parser accepts beyond the documented ones, signs apart: of the stamps it
      reads, exactly those with another separator, fraction or zone form, or of a day its month
      does not have. */
  lemma AcceptedTexts(t: Stamp)
    requires InRange(t)
    ensures 19 <= |Text(t)| && ParseIso8601(Text(t)).Some? && (Strict(Text(t)) <==> IsDocumented(t))
  {
    UnsignedText(t);
    TextHasNoInnerSign(t);
    var zone := ZoneText(t.form, t.east, t.zh, t.zm);
    ClockFields(t.date, t.separator, t.h, t.m, t.s, t.fraction + zone);
    DateFields(t);
    ZoneLength(t.form, t.east, t.zh, t.zm);
    hide Padded, ClockText, ZoneText, ParseIso8601, Number, NoInnerSign, AllDigits, ValidDate, ZoneStart;
    var s := Text(t);
    assert s[19 + |t.fraction|..] == s[19..][|t.fraction|..] == zone;
  }

  lemma DateFields(t: Stamp)
    requires InRange(t)
    ensures 19 <= |Text(t)| && (DayExists(Text(t)) <==> ValidDate(t.date))
  {
    ClockFields(t.date, t.separator, t.h, t.m, t.s, t.fraction + ZoneText(t.form, t.east, t.zh, t.zm));
    FieldNumber(t.date.year, 4);
    FieldNumber(t.date.month, 2);
    FieldNumber(t.date.day, 2);
    hide Padded, ClockText, ZoneText, Number, AllDigits, ValidDate;
  }

  lemma FieldNumber(n: nat, width: nat)
    ensures AllDigits(Padded(n, width)) && Number(Padded(n, width)) == n
  {
    UnsignedDigits(n, width);
    ParsePadded(n, width);
    assert Decimal(n) != "";
    hide Number, Decimal;
    ReadsUnsigned(Padded(n, width));
  }

  lemma ZoneLength(form: ZoneForm, east: bool, hours: nat, minutes: nat)
    requires hours < 24 && minutes < 60
    ensures
      var zone := ZoneText(form, east, hours, minutes);
      zone == "Z" || 5 <= |zone| <==> form == Zulu(true) || form.Colon? || form.Compact?
  {
    FieldWidth(hours);
    FieldWidth(minutes);
  }

  // --- a text of unsigned fields has no inner sign ---

  lemma UnsignedDigits(n: nat, width: nat)
    ensures AllDigits(Padded(n, width))
  {
  }

  lemma ZoneBody(form: ZoneForm, east: bool, hours: nat, minutes: nat)
    ensures forall k :: 1 <= k < |ZoneText(form, east, hours, minutes)| ==> !IsSign(ZoneText(form, east, hours, minutes)[k])
  {
    UnsignedDigits(hours, 2);
    UnsignedDigits(minutes, 2);
    hide Padded;
    var h, m := Padded(hours, 2), Padded(minutes, 2);
    if form.Colon? {
      var body := h + ":" + m;
      assert forall k :: 0 <= k < |body| ==> IsDigit(body[k]) || body[k] == ':';
    } else if form.Compact? {
      var body := h + m;
      assert forall k :: 0 <= k < |body| ==> IsDigit(body[k]);
    }
  }

  lemma TextHasNoInnerSign(t: Stamp)
    requires InRange(t)
    ensures 19 <= |Text(t)| && ZoneStart(Text(t)) == 19 + |t.fraction| && NoInnerSign(Text(t))
  {
    var zone := ZoneText(t.form, t.east, t.zh, t.zm);
    var tail := t.fraction + zone;
    ReadsZone(t.form, t.east, t.zh, t.zm);
    ZoneBody(t.form, t.east, t.zh, t.zm);
    ClockFields(t.date, t.separator, t.h, t.m, t.s, tail);
    UnsignedDigits(t.date.year, 4);
    UnsignedDigits(t.date.month, 2);
    UnsignedDigits(t.date.day, 2);
    UnsignedDigits(t.h, 2);
    UnsignedDigits(t.m, 2);
    UnsignedDigits(t.s, 2);
    hide Padded, ClockText, ZoneText, ParseOffset;
    ClockHasNoSign(Text(t));
    TailHasNoSign(Text(t), t.fraction, zone);
  }

  lemma ClockHasNoSign(s: string)
    requires 19 <= |s| && AllDigits(s[0..4]) && AllDigits(s[5..7]) && AllDigits(s[8..10])
    requires AllDigits(s[11..13]) && AllDigits(s[14..16]) && AllDigits(s[17..19])
    requires !IsSign(s[10]) && !IsSign(s[13]) && !IsSign(s[16])
    ensures forall i :: 0 <= i < 19 && IsSign(s[i]) ==> i == 4 || i == 7
  {
    assert forall k :: 0 <= k < 4 ==> s[k] == s[0..4][k];
    assert s[5] == s[5..7][0] && s[6] == s[5..7][1] && s[8] == s[8..10][0] && s[9] == s[8..10][1];
    assert s[11] == s[11..13][0] && s[12] == s[11..13][1] && s[14] == s[14..16][0] && s[15] == s[14..16][1];
    assert s[17] == s[17..19][0] && s[18] == s[17..19][1];
  }

  lemma TailHasNoSign(s: string, fraction: string, zone: string)
    requires 19 <= |s| && s[19..] == fraction + zone
    requires fraction == "" || (2 <= |fraction| && fraction[0] == '.' && AllDigits(fraction[1..]))
    requires zone != "" && zone[0] != '.' && !IsDigit(zone[0])
    requires forall k :: 1 <= k < |zone| ==> !IsSign(zone[k])
    ensures ZoneStart(s) == 19 + |fraction|
    ensures forall i :: 19 <= i < |s| && IsSign(s[i]) ==> i == ZoneStart(s)
  {
    var tail := s[19..];
    assert forall i :: 19 <= i < |s| ==> s[i] == tail[i - 19];
    if fraction != "" {
      LeadingDigitsOf(fraction[1..], zone);
      assert s[20..] == fraction[1..] + zone;
    }
    forall i | 19 <= i < |s| && i != 19 + |fraction|
      ensures !IsSign(s[i])
    {
      if i < 19 + |fraction| {
        assert s[i] == fraction[i - 19];
        assert 19 < i ==> fraction[i - 19] == fraction[1..][i - 20];
      } else {
        assert s[i] == zone[i - 19 - |fraction|];
      }
    }
  }

  // --- an accepted text without inner signs is of unsigned fields ---

  lemma {:induction false} NumberBound(f: string)
    requires AllDigits(f)
    ensures Number(f) < Power10(|f|)
  {
    if f != "" {
      NumberBound(f[..|f| - 1]);
    }
  }

  lemma {:induction false} NumberInjective(a: string, b: string)
    requires AllDigits(a) && AllDigits(b) && |a| == |b| && Number(a) == Number(b)
    ensures a == b
  {
    if a != "" {
      var x, y := a[|a| - 1], b[|b| - 1];
      assert Number(a) == 10 * Number(a[..|a| - 1]) + DigitValue(x);
      assert Number(b) == 10 * Number(b[..|b| - 1]) + DigitValue(y);
      NumberInjective(a[..|a| - 1], b[..|b| - 1]);
      assert DigitValue(x) == DigitValue(y);
      assert x == y;
      assert a == a[..|a| - 1] + [x] && b == b[..|b| - 1] + [y];
    }
  }

  /** A field of digits is the padded text of its number. */
  lemma PaddedNumber(f: string)
    requires f != "" && AllDigits(f)
    ensures Padded(Number(f), |f|) == f
  {
    hide Number, Power10, Decimal, Zeros;
    var n := Number(f);
    NumberBound(f);
    DecimalWidth(n, |f|, Power10(|f|));
    var d := Decimal(n);
    NumberOfDecimal(n);
    LeadingZeros(|f| - |d|, d);
    NumberInjective(Padded(n, |f|), f);
  }

  lemma UnsignedField(s: string, lo: nat, hi: nat)
    requires lo < hi <= |s| && ParseInteger(s[lo..hi]).Some? && !IsSign(s[lo])
    ensures AllDigits(s[lo..hi]) && ParseInteger(s[lo..hi]) == Some(Number(s[lo..hi]))
    ensures Padded(Number(s[lo..hi]), hi - lo) == s[lo..hi]
  {
    var field := s[lo..hi];
    assert field[0] == s[lo];
    PaddedNumber(field);
  }

  /** What `parse_offset` accepts besides `Z`. */
  lemma OffsetFields(z: string)
    requires ParseOffset(z).Some? && z != "Z" && z != "z"
    ensures 3 <= |z| && (z[0] == '+' || z[0] == '-')
    ensures
      var body := z[1..];
      && ParseInteger(body[0..2]).Some? && ParseInteger(body[0..2]).value <= 23
      && (|body| == 2
          || (|body| == 4 && ParseInteger(body[2..4]).Some? && ParseInteger(body[2..4]).value <= 59)
          || (|body| == 5 && body[2] == ':' && ParseInteger(body[3..5]).Some? && ParseInteger(body[3..5]).value <= 59))
  {
    hide ParseInteger;
    var body := z[1..];
    assert |body| == 2 ==> body[0..2] == body;
  }

  lemma ZoneOf(z: string) returns (form: ZoneForm, east: bool, hours: nat, minutes: nat)
    requires ParseOffset(z).Some? && forall k :: 1 <= k < |z| ==> !IsSign(z[k])
    ensures hours < 24 && minutes < 60 && z == ZoneText(form, east, hours, minutes)
  {
    if z == "Z" || z == "z" {
      return Zulu(z == "Z"), true, 0, 0;
    }
    hide Padded, Number, ParseInteger, AllDigits, ParseOffset, IsSign;
    OffsetFields(z);
    east := z[0] == '+';
    var body := z[1..];
    assert z == [if east then '+' else '-'] + body;
    assert forall k :: 0 <= k < |body| ==> body[k] == z[k + 1];
    UnsignedField(body, 0, 2);
    hours := Number(body[0..2]);
    form, minutes := BodyOf(body);
  }

  lemma BodyOf(body: string) returns (form: ZoneForm, minutes: nat)
    requires |body| == 2
             || (|body| == 4 && ParseInteger(body[2..4]).Some? && ParseInteger(body[2..4]).value <= 59 && !IsSign(body[2]))
             || (|body| == 5 && body[2] == ':' && ParseInteger(body[3..5]).Some? && ParseInteger(body[3..5]).value <= 59
                 && !IsSign(body[3]))
    ensures minutes < 60 && !form.Zulu?
    ensures body == match form case Colon => body[0..2] + ":" + Padded(minutes, 2)
                               case Compact => body[0..2] + Padded(minutes, 2)
                               case _ => body[0..2]
  {
    hide Padded, Number, ParseInteger, AllDigits, IsSign;
    form, minutes := HoursOnly, 0;
    if |body| == 5 {
      UnsignedField(body, 3, 5);
      form, minutes := Colon, Number(body[3..5]);
      assert body == body[0..2] + ":" + body[3..5];
    } else if |body| == 4 {
      UnsignedField(body, 2, 4);
      form, minutes := Compact, Number(body[2..4]);
      assert body == body[0..2] + body[2..4];
    }
  }

  lemma FractionOf(s: string)
    requires 19 <= |s| && SkipFraction(s[19..]).Some? && NoInnerSign(s)
    ensures SkipFraction(s[19..]) == Some(s[ZoneStart(s)..])
    ensures forall k :: 1 <= k < |s[ZoneStart(s)..]| ==> !IsSign(s[ZoneStart(s)..][k])
    ensures
      var fraction := s[19..ZoneStart(s)];
      fraction == "" || (2 <= |fraction| && fraction[0] == '.' && AllDigits(fraction[1..]))
  {
    var rest := s[19..];
    if rest != "" && rest[0] == '.' {
      var digits := LeadingDigits(rest[1..]);
      assert rest[1..] == s[20..];
      assert s[20..][digits..] == s[20 + digits..];
      assert s[19..20 + digits][1..] == s[20..][..digits];
    }
    var start := ZoneStart(s);
    assert forall k :: 1 <= k < |s[start..]| ==> s[start..][k] == s[start + k];
  }

  lemma Rejoined(s: string)
    requires 19 <= |s| && s[4] == '-' && s[7] == '-' && s[13] == ':' && s[16] == ':'
    ensures s == s[0..4] + "-" + s[5..7] + "-" + s[8..10] + [s[10]] + s[11..13] + ":" + s[14..16] + ":" + s[17..19] + s[19..]
  {
    assert s[0..19] == s[0..4] + "-" + s[5..7] + "-" + s[8..10] + [s[10]] + s[11..13] + ":" + s[14..16] + ":" + s[17..19];
    assert s == s[0..19] + s[19..];
  }

  predicate FieldRanges(s: string)
    requires 19 <= |s|
  {
    && AllDigits(s[0..4]) && AllDigits(s[5..7]) && AllDigits(s[8..10])
    && AllDigits(s[11..13]) && AllDigits(s[14..16]) && AllDigits(s[17..19])
    && 1 <= Number(s[5..7]) <= 12 && 1 <= Number(s[8..10]) <= 31
    && Number(s[11..13]) < 24 && Number(s[14..16]) < 60 && Number(s[17..19]) <= 60
  }

  lemma FieldsOf(s: string)
    requires ParseIso8601(s).Some? && NoInnerSign(s)
    ensures 19 <= |s| && FieldRanges(s) && s[4] == '-' && s[7] == '-' && s[13] == ':' && s[16] == ':'
    ensures s[10] == 'T' || s[10] == ' '
    ensures SkipFraction(s[19..]).Some? && ParseOffset(SkipFraction(s[19..]).value).Some?
  {
    hide Padded, Number, ParseInteger, ParseOffset, LeadingDigits, DaysFromCivil, SkipFraction, AllDigits;
    UnsignedField(s, 0, 4);
    UnsignedField(s, 5, 7);
    UnsignedField(s, 8, 10);
    UnsignedField(s, 11, 13);
    UnsignedField(s, 14, 16);
    UnsignedField(s, 17, 19);
  }

  /** The first nineteen characters, as they would be printed. */
  lemma ClockOf(s: string)
    requires 19 <= |s| && FieldRanges(s) && s[4] == '-' && s[7] == '-' && s[13] == ':' && s[16] == ':'
    ensures
      var date := Date(Number(s[0..4]), Number(s[5..7]), Number(s[8..10]));
      s == ClockText(date, s[10], Number(s[11..13]), Number(s[14..16]), Number(s[17..19])) + s[19..]
  {
    PaddedNumber(s[0..4]);
    PaddedNumber(s[5..7]);
    PaddedNumber(s[8..10]);
    PaddedNumber(s[11..13]);
    PaddedNumber(s[14..16]);
    PaddedNumber(s[17..19]);
    hide Padded, Number, AllDigits;
    Rejoined(s);
  }

  /** What an accepted text without inner signs says. */
  lemma StampOf(s: string) returns (t: Stamp)
    requires ParseIso8601(s).Some? && NoInnerSign(s)
    ensures InRange(t) && s == Text(t)
  {
    hide Number, ClockText, ZoneText, ParseOffset, LeadingDigits, SkipFraction, ParseIso8601, NoInnerSign, IsSign, Power10;
    FieldsOf(s);
    ClockOf(s);
    YearOfFour(s[0..4]);
    FractionOf(s);
    var start := ZoneStart(s);
    var form, east, zh, zm := ZoneOf(s[start..]);
    var date := Date(Number(s[0..4]), Number(s[5..7]), Number(s[8..10]));
    t := Stamp(date, s[10], Number(s[11..13]), Number(s[14..16]), Number(s[17..19]), s[19..start], form, east, zh, zm);
    assert s[19..] == s[19..start] + s[start..];
  }

  lemma YearOfFour(f: string)
    requires |f| == 4 && AllDigits(f)
    ensures Number(f) <= 9999
  {
    NumberBound(f);
    assert Power10(2) == 100 by { assert Power10(1) == 10; }
    assert Power10(4) == 10 * Power10(3) && Power10(3) == 10 * Power10(2);
  }

  // --- the texts in between ---

  /** Not every accepted text is a documented one: a sign may stand for a digit of the hour. */
  lemma AcceptsSignedHour(h: int)
    requires -10 < h < 0
    ensures
      var t := ClockText(Date(2026, 2, 3), 'T', h, 5, 60) + ("" + "Z");
      ParseIso8601(t).Some? && !Documented(t)
  {
    var t := ClockText(Date(2026, 2, 3), 'T', h, 5, 60) + ("" + "Z");
    assert Padded(h, 2)[0] == '-';
    hide ClockText, ParseIso8601, Padded, ZoneStart, DaysFromCivil;
    ClockFields(Date(2026, 2, 3), 'T', h, 5, 60, "" + "Z");
    ReadsEveryForm(Date(2026, 2, 3), 'T', h, 5, 60, "", Zulu(true), true, 0, 0);
    assert t[11] == t[11..13][0] && IsSign(t[11]);
    ExactLanguage(t);
  }

  /** Or of the zone, after the zone's own sign. */
  lemma AcceptsSignedZone(zh: int, zm: int)
    requires -10 < zh < 0 && -10 < zm < 60
    ensures
      var t := ClockText(Date(2026, 2, 3), 'T', 10, 5, 0) + ("" + ZoneText(Colon, true, zh, zm));
      ParseIso8601(t).Some? && !Documented(t)
  {
    var zone := ZoneText(Colon, true, zh, zm);
    var t := ClockText(Date(2026, 2, 3), 'T', 10, 5, 0) + ("" + zone);
    ClockFields(Date(2026, 2, 3), 'T', 10, 5, 0, "" + zone);
    ReadsEveryForm(Date(2026, 2, 3), 'T', 10, 5, 0, "", Colon, true, zh, zm);
    assert zone[0] == '+' && zone[1] == '-';
    hide ClockText, ParseIso8601, Padded, ZoneText;
    assert t[19..] == zone && t[19] == t[19..][0] && t[20] == t[19..][1];
    assert ZoneStart(t) == 19 && IsSign(t[20]);
    ExactLanguage(t);
  }
}
