/** Time values as the request binding produces them, and the one layout it reads:
    `time.ParseInLocation("2006-01-02 15:04:05", s, time.Local)`. A time is kept
    abstract: either the epoch seconds given to `time.Unix(sec, 0)`, or the calendar
    fields read in the local zone (the zone and the conversion to an instant are not
    modelled). */
module GoTime {
  import opened Common
  import opened GoText

  datatype Time =
    | Unix(seconds: int)
    | Local(year: int, month: int, day: int, hour: int, minute: int, second: int, fraction: string)

  predicate IsLeap(year: int) {
    year % 4 == 0 && (year % 100 != 0 || year % 400 == 0)
  }

  function DaysIn(month: int, year: int): int {
    if month == 2 then (if IsLeap(year) then 29 else 28)
    else if month == 4 || month == 6 || month == 9 || month == 11 then 30
    else 31
  }

  /** The range checks Go's parser applies to the calendar fields. */
  predicate ValidCivil(year: int, month: int, day: int, hour: int, minute: int, second: int) {
    && 1 <= month <= 12
    && 1 <= day <= DaysIn(month, year)
    && 0 <= hour < 24
    && 0 <= minute < 60
    && 0 <= second < 60
  }

  /** A space in the layout: the input must not continue with a non-space, and then
      every leading space is dropped. */
  function SkipSpaces(s: string): Option<string> {
    if s != [] && s[0] != ' ' then None else Some(DropSpaces(s))
  }

  function DropSpaces(s: string): (r: string)
    ensures r == [] || r[0] != ' '
  {
    if s != [] && s[0] == ' ' then DropSpaces(s[1..]) else s
  }

  /** The hour field "15": one digit, or two when a second digit follows. */
  function OneOrTwoDigits(s: string): Option<(int, string)> {
    if s == [] || !IsDigit(s[0]) then None
    else if |s| >= 2 && IsDigit(s[1]) then Some((DigitVal(s[0]) * 10 + DigitVal(s[1]), s[2..]))
    else Some((DigitVal(s[0]), s[1..]))
  }

  function LeadingDigits(s: string): (n: nat)
    ensures n <= |s| && AllDigits(s[..n])
  {
    if s != [] && IsDigit(s[0]) then
      assert s[..1 + LeadingDigits(s[1..])] == [s[0]] + s[1..][..LeadingDigits(s[1..])];
      1 + LeadingDigits(s[1..])
    else 0
  }

  /** The fractional second Go accepts after the seconds field even when the layout
      has none: a '.' or ',' followed by at least one digit. Returns its digits and
      the rest of the input. */
  function Fraction(s: string): (string, string) {
    if |s| >= 2 && (s[0] == '.' || s[0] == ',') && IsDigit(s[1]) then
      var n := LeadingDigits(s[1..]);
      (s[1..][..n], s[1 + n..])
    else ("", s)
  }

  /** The clock part "15:04:05" after the layout's space, with Go's optional
      fractional second; nothing may follow. */
  function ParseClock(t: string): (r: Option<(int, int, int, string)>)
    ensures r.Some? ==> 0 <= r.value.0 < 100 && 0 <= r.value.1 < 100 && 0 <= r.value.2 < 100
  {
    match OneOrTwoDigits(t)
    case None => None
    case Some((hour, u)) =>
      if !(|u| >= 6 && u[0] == ':' && AllDigits(u[1..3]) && u[3] == ':' && AllDigits(u[4..6])) then None
      else
        HornerTwo(u[1..3], 0);
        HornerTwo(u[4..6], 0);
        var (frac, rest) := Fraction(u[6..]);
        if rest != [] then None
        else Some((hour, Horner(u[1..3], 0), Horner(u[4..6], 0), frac))
  }

  /** time.ParseInLocation("2006-01-02 15:04:05", s, time.Local). */
  function ParseLocal(s: string): (r: Option<Time>)
    ensures r.Some? ==> r.value.Local?
    ensures r.Some? ==> ValidCivil(r.value.year, r.value.month, r.value.day, r.value.hour, r.value.minute, r.value.second)
    ensures r.Some? ==> 0 <= r.value.year <= 9999
  {
    if !(|s| >= 10 && AllDigits(s[..4]) && s[4] == '-' && AllDigits(s[5..7]) && s[7] == '-' && AllDigits(s[8..10])) then None
    else
      var year, month, day := Horner(s[..4], 0), Horner(s[5..7], 0), Horner(s[8..10], 0);
      match SkipSpaces(s[10..])
      case None => None
      case Some(t) =>
        match ParseClock(t)
        case None => None
        case Some((hour, minute, second, frac)) =>
          if !ValidCivil(year, month, day, hour, minute, second) then None
          else
            assert year <= 9999 by { FourDigitsBound(s[..4]); }
            Some(Local(year, month, day, hour, minute, second, frac))
  }

  lemma HornerTwo(s: string, acc: nat)
    requires |s| == 2 && AllDigits(s)
    ensures Horner(s, acc) == (acc * 10 + DigitVal(s[0])) * 10 + DigitVal(s[1])
    ensures Horner(s, acc) == acc * 100 + Horner(s, 0)
  {
    var d0, d1 := DigitVal(s[0]), DigitVal(s[1]);
    assert s[1..][0] == s[1];
    assert s[1..][1..] == [];
    assert Horner(s, acc) == Horner(s[1..], acc * 10 + d0);
    assert Horner(s[1..], acc * 10 + d0) == Horner(s[1..][1..], (acc * 10 + d0) * 10 + d1);
    assert Horner(s, 0) == Horner(s[1..], d0);
    assert Horner(s[1..], d0) == Horner(s[1..][1..], d0 * 10 + d1);
  }

  lemma {:induction false} HornerConcat(a: string, b: string, acc: nat)
    requires AllDigits(a) && AllDigits(b)
    ensures AllDigits(a + b)
    ensures Horner(a + b, acc) == Horner(b, Horner(a, acc))
  {
    if a != [] {
      assert (a + b)[0] == a[0];
      assert (a + b)[1..] == a[1..] + b;
      HornerConcat(a[1..], b, acc * 10 + DigitVal(a[0]));
    } else {
      assert a + b == b;
    }
  }

  lemma FourDigitsBound(s: string)
    requires |s| == 4 && AllDigits(s)
    ensures Horner(s, 0) <= 9999
  {
    assert s == s[..2] + s[2..];
    HornerConcat(s[..2], s[2..], 0);
    HornerTwo(s[..2], 0);
    HornerTwo(s[2..], Horner(s[..2], 0));
  }

  function Pad2(n: int): (s: string)
    requires 0 <= n < 100
    ensures |s| == 2 && AllDigits(s)
  {
    [DigitChar(n / 10), DigitChar(n % 10)]
  }

  function Pad4(n: int): (s: string)
    requires 0 <= n < 10000
    ensures |s| == 4 && AllDigits(s)
  {
    Pad2(n / 100) + Pad2(n % 100)
  }

  /** time.Time.Format("2006-01-02 15:04:05") of a local time without fraction. */
  function FormatLocal(t: Time): string
    requires t.Local? && 0 <= t.year <= 9999
    requires ValidCivil(t.year, t.month, t.day, t.hour, t.minute, t.second)
  {
    Pad4(t.year) + "-" + Pad2(t.month) + "-" + Pad2(t.day) + " "
      + Pad2(t.hour) + ":" + Pad2(t.minute) + ":" + Pad2(t.second)
  }

  lemma Pad2Value(n: int)
    requires 0 <= n < 100
    ensures Horner(Pad2(n), 0) == n
  {
    HornerTwo(Pad2(n), 0);
  }

  lemma Pad4Value(n: int)
    requires 0 <= n < 10000
    ensures Horner(Pad4(n), 0) == n
  {
    var hi, lo := n / 100, n % 100;
    HornerConcat(Pad2(hi), Pad2(lo), 0);
    Pad2Value(hi);
    Pad2Value(lo);
    HornerTwo(Pad2(lo), hi);
  }

  lemma ParseClockFormat(h: int, mi: int, se: int)
    requires 0 <= h < 24 && 0 <= mi < 60 && 0 <= se < 60
    ensures ParseClock(Pad2(h) + ":" + Pad2(mi) + ":" + Pad2(se)) == Some((h, mi, se, ""))
  {
    var t := Pad2(h) + ":" + Pad2(mi) + ":" + Pad2(se);
    Pad2Value(h);
    Pad2Value(mi);
    Pad2Value(se);
    HornerTwo(Pad2(h), 0);
    assert t[0] == Pad2(h)[0] && t[1] == Pad2(h)[1];
    var u := t[2..];
    assert u == ":" + Pad2(mi) + ":" + Pad2(se);
    assert OneOrTwoDigits(t) == Some((h, u));
    assert u[1..3] == Pad2(mi) && u[4..6] == Pad2(se) && u[6..] == [];
  }

  /** Round trip: the layout parser reads back every valid local time that
      formatting with the same layout writes. */
  lemma ParseFormatLocal(t: Time)
    requires t.Local? && 0 <= t.year <= 9999 && t.fraction == ""
    requires ValidCivil(t.year, t.month, t.day, t.hour, t.minute, t.second)
    ensures ParseLocal(FormatLocal(t)) == Some(t)
  {
    var s := FormatLocal(t);
    var y, mo, d := Pad4(t.year), Pad2(t.month), Pad2(t.day);
    var clock := Pad2(t.hour) + ":" + Pad2(t.minute) + ":" + Pad2(t.second);
    assert s == y + "-" + mo + "-" + d + " " + clock;
    assert s[..4] == y && s[4] == '-' && s[5..7] == mo && s[7] == '-' && s[8..10] == d;
    Pad4Value(t.year);
    Pad2Value(t.month);
    Pad2Value(t.day);
    var tl := s[10..];
    assert tl == " " + clock;
    assert tl[1..] == clock;
    assert clock[0] != ' ';
    assert DropSpaces(clock) == clock;
    assert DropSpaces(tl) == DropSpaces(clock);
    assert SkipSpaces(tl) == Some(clock);
    ParseClockFormat(t.hour, t.minute, t.second);
  }
}
