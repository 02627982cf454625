/** Days counted from 1 January 1970 (UTC), their proleptic Gregorian calendar dates, and
    the `YYYY-MM-DD` text that `Date.prototype.toISOString` begins with. */
module Calendar {
  import opened Wrappers
  import Text

  predicate Leap(y: int) {
    y % 4 == 0 && (y % 100 != 0 || y % 400 == 0)
  }

  function YearLength(y: int): nat {
    if Leap(y) then 366 else 365
  }

  function MonthLength(y: int, m: int): nat
    requires 1 <= m <= 12
  {
    if m == 2 then (if Leap(y) then 29 else 28)
    else if m == 4 || m == 6 || m == 9 || m == 11 then 30
    else 31
  }

  /** The number of days from 1 January of `y` to 1 January of `y2` (negative when `y2`
      comes first). */
  function Span(y: int, y2: int): int
    decreases if y <= y2 then y2 - y else y - y2
  {
    if y == y2 then 0
    else if y < y2 then YearLength(y) + Span(y + 1, y2)
    else Span(y - 1, y2) - YearLength(y - 1)
  }

  /** The year holding day `d` when day 0 is 1 January of `y`, with the day's index in it. */
  function YearOf(y: int, d: int): (r: (int, nat))
    ensures r.1 < YearLength(r.0)
    ensures d == Span(y, r.0) + r.1
    decreases if d < 0 then 1 else 0, if d < 0 then -d else d
  {
    if d < 0 then YearOf(y - 1, d + YearLength(y - 1))
    else if d < YearLength(y) then (y, d)
    else YearOf(y + 1, d - YearLength(y))
  }

  /** The days of year `y` from the first of month `m` to the year's end. */
  function RestOfYear(y: int, m: int): nat
    requires 1 <= m <= 12
    decreases 12 - m
  {
    if m == 12 then 31 else MonthLength(y, m) + RestOfYear(y, m + 1)
  }

  lemma RestOfYearIsYear(y: int)
    ensures RestOfYear(y, 1) == YearLength(y)
  {
  }

  /** The month holding day `d` of the year when day 0 is the first of month `m`, with the
      day's index in that month. */
  function MonthOf(y: int, m: int, d: nat): (r: (int, nat))
    requires 1 <= m <= 12 && d < RestOfYear(y, m)
    ensures m <= r.0 <= 12 && r.1 < MonthLength(y, r.0)
    ensures d == RestOfYear(y, m) - RestOfYear(y, r.0) + r.1
    decreases 12 - m
  {
    if m == 12 || d < MonthLength(y, m) then (m, d)
    else MonthOf(y, m + 1, d - MonthLength(y, m))
  }

  datatype Date = Date(year: int, month: int, day: int)

  predicate ValidDate(c: Date) {
    1 <= c.month <= 12 && 1 <= c.day <= MonthLength(c.year, c.month)
  }

  /** The calendar date of a day number. */
  function DateOf(days: int): (c: Date)
    ensures ValidDate(c)
  {
    var (y, dayOfYear) := YearOf(1970, days);
    RestOfYearIsYear(y);
    var (m, dayOfMonth) := MonthOf(y, 1, dayOfYear);
    Date(y, m, dayOfMonth + 1)
  }

  /** Distinct days have distinct dates. */
  lemma DateOfInjective(a: int, b: int)
    requires DateOf(a) == DateOf(b)
    ensures a == b
  {
    var (ya, da) := YearOf(1970, a);
    var (yb, db) := YearOf(1970, b);
    RestOfYearIsYear(ya);
    RestOfYearIsYear(yb);
    var (ma, ea) := MonthOf(ya, 1, da);
    var (mb, eb) := MonthOf(yb, 1, db);
    assert ya == yb && ma == mb && ea == eb;
  }

  // ---------------------------------------------------------------------------------------
  // Text

  function Zeros(k: nat): (r: string)
    ensures |r| == k && forall i :: 0 <= i < k ==> r[i] == '0'
  {
    if k == 0 then [] else Zeros(k - 1) + "0"
  }

  /** `n` in decimal with leading zeros up to `width` digits. */
  function Padded(n: nat, width: nat): (r: string)
    ensures Text.IsDigits(r)
    ensures |r| == if |Text.Decimal(n)| < width then width else |Text.Decimal(n)|
  {
    var d := Text.Decimal(n);
    if |d| < width then Zeros(width - |d|) + d else d
  }

  function Pow10(k: nat): nat {
    if k == 0 then 1 else 10 * Pow10(k - 1)
  }

  /** A number below `10^k` has at most `k` digits. */
  lemma {:induction false} DecimalLength(n: nat, k: nat)
    requires 1 <= k && n < Pow10(k)
    ensures |Text.Decimal(n)| <= k
  {
    assert Pow10(1) == 10;
    if n >= 10 {
      assert k >= 2;
      assert n / 10 < Pow10(k - 1);
      DecimalLength(n / 10, k - 1);
    }
  }

  /** Leading zeros do not change the value of a numeral. */
  lemma {:induction false} LeadingZeros(k: nat, s: string)
    requires Text.IsDigits(s)
    ensures Text.IsDigits(Zeros(k) + s)
    ensures Text.DigitsValue(Zeros(k) + s) == Text.DigitsValue(s)
  {
    var z := Zeros(k) + s;
    if s == [] {
      assert z == Zeros(k);
      ZerosValue(k);
    } else {
      assert z[..|z| - 1] == Zeros(k) + s[..|s| - 1];
      LeadingZeros(k, s[..|s| - 1]);
    }
  }

  lemma {:induction false} ZerosValue(k: nat)
    ensures Text.DigitsValue(Zeros(k)) == 0
  {
    if k > 0 {
      var z := Zeros(k);
      ZerosValue(k - 1);
      assert z[..k - 1] == Zeros(k - 1);
      assert Text.DigitsValue(z) == Text.DigitsValue(z[..k - 1]) * 10 + (z[k - 1] as int - '0' as int);
    }
  }

  lemma PaddedValue(n: nat, width: nat)
    ensures Text.DigitsValue(Padded(n, width)) == n
  {
    var d := Text.Decimal(n);
    Text.DecimalRoundTrip(n);
    if |d| < width {
      assert Padded(n, width) == Zeros(width - |d|) + d;
      LeadingZeros(width - |d|, d);
    } else {
      assert Padded(n, width) == d;
    }
  }

  /** The year as `toISOString` writes it: four digits for years 0 to 9999, otherwise a
      sign and six digits. */
  function YearText(y: int): (r: string)
    ensures 0 <= y <= 9999 ==> |r| == 4 && Text.IsDigits(r)
  {
    if 0 <= y <= 9999 then (DecimalLength(y, 4); Padded(y, 4))
    else (if y < 0 then "-" else "+") + Padded(if y < 0 then -y else y, 6)
  }

  /** No character of `s` is a `T`. */
  predicate NoT(s: string) {
    forall i :: 0 <= i < |s| ==> s[i] != 'T'
  }

  lemma DigitsNoT(s: string)
    requires Text.IsDigits(s)
    ensures NoT(s)
  {
  }

  lemma NoTJoin(a: string, b: string)
    requires NoT(a) && NoT(b)
    ensures NoT(a + b)
  {
    forall i | 0 <= i < |a + b| ensures (a + b)[i] != 'T' {
      if i < |a| { assert (a + b)[i] == a[i]; } else { assert (a + b)[i] == b[i - |a|]; }
    }
  }

  /** `YYYY-MM-DD` for a calendar date. */
  function DateText(c: Date): (r: string)
    requires ValidDate(c)
    ensures |r| == |YearText(c.year)| + 6 && r[|r| - 6] == '-' && r[|r| - 3] == '-'
    ensures |r| >= 10 && NoT(r)
  {
    DecimalLength(c.month, 2);
    DecimalLength(c.day, 2);
    YearTextNoT(c.year);
    var y, m, d := YearText(c.year), Padded(c.month, 2), Padded(c.day, 2);
    IsoParts(y, m, d);
    y + "-" + m + "-" + d
  }

  /** `YYYY-MM-DD` for a day number. */
  function IsoDate(days: int): (r: string)
    ensures |r| >= 10 && r[|r| - 6] == '-' && r[|r| - 3] == '-'
    ensures NoT(r)
  {
    DateText(DateOf(days))
  }

  /** For the years 0 to 9999 the text is exactly `YYYY-MM-DD`. */
  lemma FourDigitYear(days: int)
    requires 0 <= DateOf(days).year <= 9999
    ensures |IsoDate(days)| == 10 && IsoDate(days)[4] == '-' && IsoDate(days)[7] == '-'
  {
    assert |YearText(DateOf(days).year)| == 4;
  }

  /** The shape of `y-m-d` when the month and day have two digits each. */
  lemma IsoParts(y: string, m: string, d: string)
    requires |y| >= 4 && |m| == 2 && |d| == 2
    requires Text.IsDigits(m) && Text.IsDigits(d)
    requires NoT(y)
    ensures var s := y + "-" + m + "-" + d;
      && |s| == |y| + 6 && s[|s| - 6] == '-' && s[|s| - 3] == '-'
      && s[..|s| - 6] == y && s[|s| - 5..|s| - 3] == m && s[|s| - 2..] == d
      && NoT(s)
  {
    var s := y + "-" + m + "-" + d;
    DigitsNoT(m);
    DigitsNoT(d);
    NoTJoin(y, "-");
    NoTJoin(y + "-", m);
    NoTJoin(y + "-" + m, "-");
    NoTJoin(y + "-" + m + "-", d);
  }

  lemma YearTextNoT(y: int)
    ensures |YearText(y)| >= 4 && NoT(YearText(y))
  {
    var v := if y < 0 then -y else y;
    if 0 <= y <= 9999 {
      DigitsNoT(YearText(y));
    } else {
      DigitsNoT(Padded(v, 6));
      NoTJoin(if y < 0 then "-" else "+", Padded(v, 6));
    }
  }

  /** Reads a `YYYY-MM-DD` text (with an optional signed year) back into a date. */
  function ParseIsoDate(s: string): (r: Option<Date>)
  {
    if |s| < 10 || s[|s| - 6] != '-' || s[|s| - 3] != '-' then None
    else ParseParts(s[..|s| - 6], s[|s| - 5..|s| - 3], s[|s| - 2..])
  }

  function ParseParts(y: string, m: string, d: string): Option<Date> {
    if !Text.IsDigits(m) || !Text.IsDigits(d) then None
    else match ParseYear(y)
      case None => None
      case Some(year) => Some(Date(year, Text.DigitsValue(m), Text.DigitsValue(d)))
  }

  function ParseYear(y: string): Option<int> {
    if Text.IsDigits(y) then Some(Text.DigitsValue(y))
    else if |y| >= 1 && (y[0] == '+' || y[0] == '-') && Text.IsDigits(y[1..]) then
      var v: int := Text.DigitsValue(y[1..]);
      Some(if y[0] == '-' then -v else v)
    else None
  }

  /** A sign followed by digits is read as a signed year. */
  lemma ParseSigned(t: string)
    requires |t| >= 1 && (t[0] == '+' || t[0] == '-') && Text.IsDigits(t[1..])
    ensures ParseYear(t) == Some(if t[0] == '-' then -(Text.DigitsValue(t[1..]) as int) else Text.DigitsValue(t[1..]))
  {
    assert !Text.IsDigits(t);
  }

  lemma ParseYearText(y: int)
    ensures ParseYear(YearText(y)) == Some(y)
  {
    if 0 <= y <= 9999 {
      assert YearText(y) == Padded(y, 4);
      PaddedValue(y, 4);
    } else {
      var v: nat := if y < 0 then -y else y;
      var sign := if y < 0 then "-" else "+";
      var t := YearText(y);
      assert t == sign + Padded(v, 6);
      assert t[1..] == Padded(v, 6);
      ParseSigned(t);
      PaddedValue(v, 6);
    }
  }

  /** The text of a date reads back as that date. */
  lemma ParseDateText(c: Date)
    requires ValidDate(c)
    ensures ParseIsoDate(DateText(c)) == Some(c)
  {
    DecimalLength(c.month, 2);
    DecimalLength(c.day, 2);
    YearTextNoT(c.year);
    var y, m, d := YearText(c.year), Padded(c.month, 2), Padded(c.day, 2);
    PaddedValue(c.month, 2);
    PaddedValue(c.day, 2);
    ParseYearText(c.year);
    assert ParseParts(y, m, d) == Some(c);
    ParseOfParts(y, m, d);
  }

  /** `y-m-d` is read as its year, month and day parts. */
  lemma ParseOfParts(y: string, m: string, d: string)
    requires |y| >= 4 && |m| == 2 && |d| == 2
    requires Text.IsDigits(m) && Text.IsDigits(d)
    requires NoT(y)
    ensures ParseIsoDate(y + "-" + m + "-" + d) == ParseParts(y, m, d)
  {
    IsoParts(y, m, d);
  }

  /** The text of a day reads back as the date it was written from. */
  lemma ParseIsoDateRoundTrip(days: int)
    ensures ParseIsoDate(IsoDate(days)) == Some(DateOf(days))
  {
    ParseDateText(DateOf(days));
  }

  /** Distinct days have distinct `YYYY-MM-DD` texts. */
  lemma IsoDateInjective(a: int, b: int)
    requires IsoDate(a) == IsoDate(b)
    ensures a == b
  {
    ParseIsoDateRoundTrip(a);
    ParseIsoDateRoundTrip(b);
    DateOfInjective(a, b);
  }

  // ---------------------------------------------------------------------------------------
  // Instants

  const MsPerDay := 86400000

  /** `HH:MM:SS.mmmZ` for a millisecond of the day. */
  function TimeOfDay(ms: nat): (r: string)
    requires ms < MsPerDay
  {
    Padded(ms / 3600000, 2) + ":" + Padded(ms / 60000 % 60, 2) + ":" + Padded(ms / 1000 % 60, 2)
    + "." + Padded(ms % 1000, 3) + "Z"
  }

  /** `new Date(t).toISOString()` for a time value `t` in milliseconds since the epoch. */
  function IsoString(t: int): string {
    IsoDate(t / MsPerDay) + "T" + TimeOfDay(t % MsPerDay)
  }

  /** `s.split('T')[0]`: the text before the first `T`. */
  function BeforeT(s: string): (r: string)
    ensures |r| <= |s| && r == s[..|r|]
  {
    if s == [] || s[0] == 'T' then [] else [s[0]] + BeforeT(s[1..])
  }

  lemma {:induction false} BeforeTOf(a: string, b: string)
    requires NoT(a)
    ensures BeforeT(a + "T" + b) == a
  {
    if a != [] {
      assert (a + "T" + b)[1..] == a[1..] + "T" + b;
      BeforeTOf(a[1..], b);
    }
  }

  /** The date part of the ISO text is the day's `YYYY-MM-DD`. */
  lemma DatePart(t: int)
    ensures BeforeT(IsoString(t)) == IsoDate(t / MsPerDay)
  {
    BeforeTOf(IsoDate(t / MsPerDay), TimeOfDay(t % MsPerDay));
  }
}
