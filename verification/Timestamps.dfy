/** The text form of a time (format_utc in core/models.py), and the string comparison that selects due queue rows. */
module Timestamps {
  import opened Domain
  import opened Ordering
  import opened CanonicalJson

  const SECOND: nat := 1_000_000

  /* ---------- The calendar ---------- */

  datatype Civil = Civil(year: nat, month: nat, day: nat, hour: nat, minute: nat, second: nat)

  predicate Leap(y: nat) {
    y % 4 == 0 && (y % 100 != 0 || y % 400 == 0)
  }

  function YearLength(y: nat): nat {
    if Leap(y) then 366 else 365
  }

  function MonthLength(y: nat, m: nat): nat {
    if m == 2 then (if Leap(y) then 29 else 28)
    else if m in {4, 6, 9, 11} then 30 else 31
  }

  /** The year reached after some days from the start of year y, and the days left in it. */
  function YearAfter(y: nat, days: nat): (nat, nat)
    decreases days
  {
    if days < YearLength(y) then (y, days) else YearAfter(y + 1, days - YearLength(y))
  }

  function MonthAfter(y: nat, m: nat, days: nat): (nat, nat)
    decreases 12 - m
  {
    if m >= 12 || days < MonthLength(y, m) then (m, days) else MonthAfter(y, m + 1, days - MonthLength(y, m))
  }

  /** Whole seconds since the start of 1970 as a UTC date and time of day. */
  function CivilOf(seconds: nat): Civil {
    var year := YearAfter(1970, seconds / 86_400);
    var month := MonthAfter(year.0, 1, year.1);
    var rest := seconds % 86_400;
    Civil(year.0, month.0, month.1 + 1, rest / 3600, rest / 60 % 60, rest % 60)
  }

  function YearsBefore(from: nat, y: nat): nat
    decreases y - from
  {
    if y <= from then 0 else YearLength(from) + YearsBefore(from + 1, y)
  }

  function MonthsBefore(y: nat, from: nat, m: nat): nat
    decreases m - from
  {
    if m <= from then 0 else MonthLength(y, from) + MonthsBefore(y, from + 1, m)
  }

  predicate Exists(c: Civil) {
    && 1970 <= c.year <= 9999 && 1 <= c.month <= 12 && 1 <= c.day <= MonthLength(c.year, c.month)
    && c.hour < 24 && c.minute < 60 && c.second < 60
  }

  function SecondsOf(c: Civil): nat
    requires c.day >= 1
  {
    (YearsBefore(1970, c.year) + MonthsBefore(c.year, 1, c.month) + c.day - 1) * 86_400
    + c.hour * 3600 + c.minute * 60 + c.second
  }

  /** Times that the date type can hold. */
  predicate Representable(t: Time) {
    CivilOf(t / SECOND).year <= 9999
  }

  /* ---------- Text ---------- */

  function Power10(w: nat): nat {
    if w == 0 then 1 else 10 * Power10(w - 1)
  }

  function Pad(n: nat, width: nat): (s: string)
    ensures |s| == width
  {
    if width == 0 then "" else Pad(n / 10, width - 1) + [DigitChar(n % 10)]
  }

  function TrimZeros(s: string): (r: string)
    ensures |r| <= |s|
  {
    if s != "" && s[|s| - 1] == '0' then TrimZeros(s[..|s| - 1]) else s
  }

  function FractionDigits(t: Time): string {
    TrimZeros(Pad(t % SECOND, 6))
  }

  /** The end of the text: the fraction, if there is one, and the zone. */
  function Ending(fraction: string): (r: string)
    ensures r != ""
  {
    if fraction == "" then "Z" else "." + fraction + "Z"
  }

  function CivilText(c: Civil, ending: string): string {
    Pad(c.year, 4) + ("-" + (Pad(c.month, 2) + ("-" + (Pad(c.day, 2) + ("T" + ClockText(c, ending))))))
  }

  function ClockText(c: Civil, ending: string): string {
    Pad(c.hour, 2) + (":" + (Pad(c.minute, 2) + (":" + (Pad(c.second, 2) + ending))))
  }

  function FormatUtc(t: Time): string {
    CivilText(CivilOf(t / SECOND), Ending(FractionDigits(t)))
  }

  /* ---------- Reading the text back ---------- */

  function Number(s: string): Option<nat> {
    if exists c <- s :: !IsDigit(c) then None else Some(ValueOf(s))
  }

  function Zeros(n: nat): string {
    seq(n, _ => '0')
  }

  /** A fraction of a second in microseconds; digits after the sixth are ignored. */
  function ReadFraction(digits: string): Option<nat> {
    if digits == "" then None
    else Number(if |digits| >= 6 then digits[..6] else digits + Zeros(6 - |digits|))
  }

  function ReadEnding(s: string): Option<nat> {
    if s == "Z" then Some(0)
    else if |s| >= 2 && s[0] == '.' && s[|s| - 1] == 'Z' then ReadFraction(s[1..|s| - 1])
    else None
  }

  function ReadCivil(s: string): Option<Civil>
    requires |s| >= 19
  {
    var y, mo, d := Number(s[..4]), Number(s[5..7]), Number(s[8..10]);
    var h, mi, sec := Number(s[11..13]), Number(s[14..16]), Number(s[17..19]);
    if s[4] != '-' || s[7] != '-' || s[10] != 'T' || s[13] != ':' || s[16] != ':' then None
    else if y.None? || mo.None? || d.None? || h.None? || mi.None? || sec.None? then None
    else
      var c := Civil(y.value, mo.value, d.value, h.value, mi.value, sec.value);
      if Exists(c) then Some(c) else None
  }

  function ParseUtc(s: string): Option<Time> {
    if |s| < 20 then None
    else
      var c, fraction := ReadCivil(s), ReadEnding(s[19..]);
      if c.None? || fraction.None? then None else Some(SecondsOf(c.value) * SECOND + fraction.value)
  }

  /* ---------- The calendar round trip and its order ---------- */

  lemma {:induction false} YearRound(y: nat, days: nat)
    ensures var r := YearAfter(y, days);
      r.0 >= y && r.1 < YearLength(r.0) && YearsBefore(y, r.0) + r.1 == days
    decreases days
  {
    if days >= YearLength(y) {
      YearRound(y + 1, days - YearLength(y));
    }
  }

  function DaysLeft(y: nat, m: nat): nat
    decreases 12 - m
  {
    if m > 12 then 0 else MonthLength(y, m) + DaysLeft(y, m + 1)
  }

  lemma YearIsMonths(y: nat)
    ensures DaysLeft(y, 1) == YearLength(y)
  {
    assert DaysLeft(y, 9) == 122 by {
      assert DaysLeft(y, 11) == 61;
    }
    assert DaysLeft(y, 5) == 245 by {
      assert DaysLeft(y, 7) == 184;
    }
    assert DaysLeft(y, 3) == 306;
  }

  lemma {:induction false} MonthRound(y: nat, m: nat, days: nat)
    requires 1 <= m <= 12 && days < DaysLeft(y, m)
    ensures var r := MonthAfter(y, m, days);
      m <= r.0 <= 12 && r.1 < MonthLength(y, r.0) && MonthsBefore(y, m, r.0) + r.1 == days
    decreases 12 - m
  {
    if m < 12 && days >= MonthLength(y, m) {
      MonthRound(y, m + 1, days - MonthLength(y, m));
    }
  }

  lemma CivilRound(seconds: nat)
    ensures var c := CivilOf(seconds);
      && 1970 <= c.year && 1 <= c.month <= 12 && 1 <= c.day <= MonthLength(c.year, c.month)
      && c.hour < 24 && c.minute < 60 && c.second < 60
      && SecondsOf(c) == seconds
  {
    var year := YearAfter(1970, seconds / 86_400);
    YearRound(1970, seconds / 86_400);
    YearIsMonths(year.0);
    MonthRound(year.0, 1, year.1);
  }

  predicate CivilLess(a: Civil, b: Civil) {
    if a.year != b.year then a.year < b.year
    else if a.month != b.month then a.month < b.month
    else if a.day != b.day then a.day < b.day
    else if a.hour != b.hour then a.hour < b.hour
    else if a.minute != b.minute then a.minute < b.minute
    else a.second < b.second
  }

  lemma {:induction false} YearOrder(y: nat, a: nat, b: nat)
    requires a < b
    ensures var p, q := YearAfter(y, a), YearAfter(y, b);
      p.0 < q.0 || (p.0 == q.0 && q.1 - p.1 == b - a)
    decreases b
  {
    if a >= YearLength(y) {
      YearOrder(y + 1, a - YearLength(y), b - YearLength(y));
    } else if b >= YearLength(y) {
      YearRound(y + 1, b - YearLength(y));
    }
  }

  lemma {:induction false} MonthOrder(y: nat, m: nat, a: nat, b: nat)
    requires 1 <= m <= 12 && a < b < DaysLeft(y, m)
    ensures var p, q := MonthAfter(y, m, a), MonthAfter(y, m, b);
      p.0 < q.0 || (p.0 == q.0 && p.1 < q.1)
    decreases 12 - m
  {
    hide MonthLength;
    var n := MonthLength(y, m);
    if m < 12 && a >= n {
      assert DaysLeft(y, m) == n + DaysLeft(y, m + 1);
      MonthOrder(y, m + 1, a - n, b - n);
    } else if m < 12 && b >= n {
      assert DaysLeft(y, m) == n + DaysLeft(y, m + 1);
      MonthRound(y, m + 1, b - n);
    }
  }

  /** The date of an earlier day is smaller. */
  lemma DateOrder(a: nat, b: nat)
    requires a < b
    ensures var p, q := YearAfter(1970, a), YearAfter(1970, b);
      p.0 < q.0 || (p.0 == q.0 && (
        var m, n := MonthAfter(p.0, 1, p.1), MonthAfter(q.0, 1, q.1);
        m.0 < n.0 || (m.0 == n.0 && m.1 < n.1)))
  {
    hide YearAfter, MonthAfter, MonthLength, YearLength, DaysLeft;
    YearOrder(1970, a, b);
    var p, q := YearAfter(1970, a), YearAfter(1970, b);
    if p.0 == q.0 {
      YearRound(1970, b);
      YearIsMonths(q.0);
      MonthOrder(p.0, 1, p.1, q.1);
    }
  }

  lemma ClockDigits(a: nat, b: nat)
    requires a < b
    ensures a / 3600 < b / 3600 || (a / 3600 == b / 3600 &&
      (a / 60 % 60 < b / 60 % 60 || (a / 60 % 60 == b / 60 % 60 && a % 60 < b % 60)))
  {
  }

  lemma CivilOrder(a: nat, b: nat)
    requires a < b
    ensures CivilLess(CivilOf(a), CivilOf(b))
  {
    hide YearAfter, MonthAfter;
    if a / 86_400 < b / 86_400 {
      DateOrder(a / 86_400, b / 86_400);
    } else {
      assert a / 86_400 == b / 86_400;
      ClockDigits(a % 86_400, b % 86_400);
    }
  }

  /* ---------- Digits ---------- */

  lemma {:induction false} PadRead(n: nat, width: nat)
    requires n < Power10(width)
    ensures forall c <- Pad(n, width) :: IsDigit(c)
    ensures ValueOf(Pad(n, width)) == n
  {
    if width > 0 {
      PadRead(n / 10, width - 1);
      var s := Pad(n, width);
      assert s[..|s| - 1] == Pad(n / 10, width - 1);
    }
  }

  lemma NumberOfPad(n: nat, width: nat)
    requires n < Power10(width)
    ensures Number(Pad(n, width)) == Some(n)
  {
    PadRead(n, width);
  }

  /** Comparing texts that start with parts of equal length compares those parts first. */
  lemma {:induction false} CompareParts(a: string, b: string, x: string, y: string)
    requires |a| == |b|
    ensures StringLe(a + x, b + y) <==> if a == b then StringLe(x, y) else StringLe(a, b)
  {
    if a == "" {
      assert a + x == x && b + y == y;
    } else {
      assert (a + x)[1..] == a[1..] + x && (b + y)[1..] == b[1..] + y;
      assert a == [a[0]] + a[1..] && b == [b[0]] + b[1..];
      CompareParts(a[1..], b[1..], x, y);
    }
  }

  lemma {:induction false} PadOrder(a: nat, b: nat, width: nat)
    requires a < b < Power10(width)
    ensures StringLe(Pad(a, width), Pad(b, width)) && Pad(a, width) != Pad(b, width)
  {
    CompareParts(Pad(a / 10, width - 1), Pad(b / 10, width - 1), [DigitChar(a % 10)], [DigitChar(b % 10)]);
    if a / 10 < b / 10 {
      PadOrder(a / 10, b / 10, width - 1);
    }
    PadRead(a, width);
    PadRead(b, width);
  }

  /** A padded number decides the order of two texts unless it is the same in both. */
  lemma CompareField(a: nat, b: nat, width: nat, x: string, y: string)
    requires a < Power10(width) && b < Power10(width)
    ensures StringLe(Pad(a, width) + x, Pad(b, width) + y) <==> a < b || (a == b && StringLe(x, y))
  {
    CompareParts(Pad(a, width), Pad(b, width), x, y);
    if a < b {
      PadOrder(a, b, width);
    } else if b < a {
      PadOrder(b, a, width);
      StringTotal(Pad(a, width), Pad(b, width));
    }
  }

  lemma Widths()
    ensures Power10(2) == 100 && Power10(4) == 10_000 && Power10(6) == 1_000_000
  {
    assert Power10(3) == 1000;
    assert Power10(5) == 100_000;
  }

  lemma ClockOrder(a: Civil, b: Civil, x: string, y: string)
    requires a.hour < 24 && a.minute < 60 && a.second < 60 && b.hour < 24 && b.minute < 60 && b.second < 60
    ensures StringLe(ClockText(a, x), ClockText(b, y)) <==>
      || a.hour < b.hour
      || (a.hour == b.hour && a.minute < b.minute)
      || (a.hour == b.hour && a.minute == b.minute && a.second < b.second)
      || (a.hour == b.hour && a.minute == b.minute && a.second == b.second && StringLe(x, y))
  {
    hide Pad;
    Widths();
    var s, t := Pad(a.second, 2) + x, Pad(b.second, 2) + y;
    var m, n := Pad(a.minute, 2) + (":" + s), Pad(b.minute, 2) + (":" + t);
    CompareField(a.second, b.second, 2, x, y);
    CompareParts(":", ":", s, t);
    CompareField(a.minute, b.minute, 2, ":" + s, ":" + t);
    CompareParts(":", ":", m, n);
    CompareField(a.hour, b.hour, 2, ":" + m, ":" + n);
  }

  /** The text compares as the dates do, and then as the endings. */
  lemma TextOrder(a: Civil, b: Civil, x: string, y: string)
    requires Exists(a) && Exists(b)
    ensures StringLe(CivilText(a, x), CivilText(b, y)) <==> CivilLess(a, b) || (a == b && StringLe(x, y))
  {
    hide Pad, ClockText;
    Widths();
    ClockOrder(a, b, x, y);
    var s, t := ClockText(a, x), ClockText(b, y);
    CompareParts("T", "T", s, t);
    CompareField(a.day, b.day, 2, "T" + s, "T" + t);
    var d, e := Pad(a.day, 2) + ("T" + s), Pad(b.day, 2) + ("T" + t);
    CompareParts("-", "-", d, e);
    CompareField(a.month, b.month, 2, "-" + d, "-" + e);
    var m, n := Pad(a.month, 2) + ("-" + d), Pad(b.month, 2) + ("-" + e);
    CompareParts("-", "-", m, n);
    CompareField(a.year, b.year, 4, "-" + m, "-" + n);
  }

  /* ---------- Trimmed fractions ---------- */

  lemma {:induction false} TrimFront(c: char, s: string)
    ensures TrimZeros([c] + s) == if TrimZeros(s) == "" && c == '0' then "" else [c] + TrimZeros(s)
    decreases |s|
  {
    var t := [c] + s;
    if s == "" {
      assert t[..0] == "";
    } else if s[|s| - 1] == '0' {
      assert t[..|t| - 1] == [c] + s[..|s| - 1];
      TrimFront(c, s[..|s| - 1]);
    }
  }

  lemma {:induction false} TrimPadded(s: string)
    ensures TrimZeros(s) + Zeros(|s| - |TrimZeros(s)|) == s
  {
    if s != "" && s[|s| - 1] == '0' {
      TrimPadded(s[..|s| - 1]);
    }
  }

  /** With trailing zeros trimmed, the digits of a smaller number come first unless they are a prefix of the larger. */
  lemma {:induction false} TrimmedOrder(m: string, n: string)
    requires |m| == |n| && m != n && StringLe(m, n) && (forall c <- m :: IsDigit(c)) && (forall c <- n :: IsDigit(c))
    ensures TrimZeros(n) != ""
    ensures StringLe(TrimZeros(m) + "Z", TrimZeros(n) + "Z") <==> !(TrimZeros(m) <= TrimZeros(n))
  {
    assert m == [m[0]] + m[1..] && n == [n[0]] + n[1..];
    TrimFront(m[0], m[1..]);
    TrimFront(n[0], n[1..]);
    var a, b := TrimZeros(m), TrimZeros(n);
    assert IsDigit(m[0]) && IsDigit(n[0]);
    if m[0] == n[0] {
      TrimmedOrder(m[1..], n[1..]);
      if a != "" {
        assert (a + "Z")[1..] == TrimZeros(m[1..]) + "Z" && (b + "Z")[1..] == TrimZeros(n[1..]) + "Z";
        assert a <= b <==> a[1..] <= b[1..];
      }
    }
  }

  lemma EndingOrder(a: string, b: string)
    requires b != "" && (forall c <- a :: IsDigit(c)) && (forall c <- b :: IsDigit(c))
    ensures StringLe(Ending(a), Ending(b)) <==> a != "" && StringLe(a + "Z", b + "Z")
  {
    if a != "" {
      assert Ending(a) == "." + (a + "Z") && Ending(b) == "." + (b + "Z");
      CompareParts(".", ".", a + "Z", b + "Z");
    }
  }

  /* ---------- Main results ---------- */

  /** Reading the text gives the time back, so no two times share a text. */
  lemma ParseUndoesFormat(t: Time)
    requires Representable(t)
    ensures ParseUtc(FormatUtc(t)) == Some(t)
  {
    hide CivilOf, SecondsOf, CivilText, Ending, FractionDigits, ReadCivil, ReadEnding;
    var c := CivilOf(t / SECOND);
    CivilRound(t / SECOND);
    ReadsCivil(c, Ending(FractionDigits(t)));
    ReadsEnding(t);
  }

  lemma ClockSlices(c: Civil, ending: string)
    ensures var t := ClockText(c, ending);
      && |t| == 8 + |ending| && t[8..] == ending && t[2] == ':' && t[5] == ':'
      && t[..2] == Pad(c.hour, 2) && t[3..5] == Pad(c.minute, 2) && t[6..8] == Pad(c.second, 2)
  {
    hide Pad;
  }

  lemma ReadsCivil(c: Civil, ending: string)
    requires Exists(c)
    ensures |CivilText(c, ending)| == 19 + |ending| && CivilText(c, ending)[19..] == ending
    ensures ReadCivil(CivilText(c, ending)) == Some(c)
  {
    hide Pad, Number, ClockText;
    Widths();
    var s := CivilText(c, ending);
    var t := ClockText(c, ending);
    ClockSlices(c, ending);
    assert s[11..] == t;
    assert s[11..13] == t[..2] && s[14..16] == t[3..5] && s[17..19] == t[6..8];
    assert s[13] == t[2] && s[16] == t[5] && s[19..] == t[8..];
    assert s[..4] == Pad(c.year, 4) && s[5..7] == Pad(c.month, 2) && s[8..10] == Pad(c.day, 2);
    NumberOfPad(c.year, 4);
    NumberOfPad(c.month, 2);
    NumberOfPad(c.day, 2);
    NumberOfPad(c.hour, 2);
    NumberOfPad(c.minute, 2);
    NumberOfPad(c.second, 2);
  }

  lemma ReadsEnding(t: Time)
    ensures ReadEnding(Ending(FractionDigits(t))) == Some(t % SECOND)
  {
    hide Pad, Number;
    Widths();
    var padded, digits := Pad(t % SECOND, 6), FractionDigits(t);
    NumberOfPad(t % SECOND, 6);
    TrimPadded(padded);
    if digits == "" {
      assert padded == Zeros(6);
      ZeroNumber();
    } else {
      assert Ending(digits)[1..|Ending(digits)| - 1] == digits;
      if |digits| == 6 {
        assert digits[..6] == padded;
      }
    }
  }

  lemma ZeroNumber()
    ensures Number(Zeros(6)) == Some(0)
  {
    assert Pad(0, 6) == Zeros(6) by {
      assert Pad(0, 3) == Zeros(3);
    }
    Widths();
    NumberOfPad(0, 6);
  }

  lemma SameTextSameTime(t: Time, u: Time)
    requires Representable(t) && Representable(u)
    ensures FormatUtc(t) == FormatUtc(u) <==> t == u
  {
    ParseUndoesFormat(t);
    ParseUndoesFormat(u);
  }

  /** An earlier time has the smaller text, exactly unless both fall in one second and the digits of the earlier
      fraction begin those of the later. */
  lemma TextOrderIsTimeOrder(t: Time, u: Time)
    requires Representable(t) && Representable(u) && t < u
    ensures StringLe(FormatUtc(t), FormatUtc(u)) <==> !(t / SECOND == u / SECOND && FractionDigits(t) <= FractionDigits(u))
  {
    hide CivilOf, CivilText, Ending, TrimZeros, Pad;
    var a, b := t / SECOND, u / SECOND;
    CivilRound(a);
    CivilRound(b);
    TextOrder(CivilOf(a), CivilOf(b), Ending(FractionDigits(t)), Ending(FractionDigits(u)));
    if a < b {
      CivilOrder(a, b);
    } else {
      FractionOrder(t, u);
    }
  }

  lemma FractionOrder(t: Time, u: Time)
    requires t % SECOND < u % SECOND
    ensures StringLe(Ending(FractionDigits(t)), Ending(FractionDigits(u))) <==> !(FractionDigits(t) <= FractionDigits(u))
  {
    hide Pad, Ending;
    Widths();
    var m, n := Pad(t % SECOND, 6), Pad(u % SECOND, 6);
    PadOrder(t % SECOND, u % SECOND, 6);
    PadRead(t % SECOND, 6);
    PadRead(u % SECOND, 6);
    TrimmedOrder(m, n);
    TrimPadded(m);
    TrimPadded(n);
    assert forall c <- TrimZeros(m) :: c in m;
    assert forall c <- TrimZeros(n) :: c in n;
    EndingOrder(TrimZeros(m), TrimZeros(n));
  }

  /** Half a second after the epoch has a smaller text than the epoch. */
  lemma HalfSecondFirst()
    ensures Representable(0) && Representable(500_000)
    ensures !StringLe(FormatUtc(0), FormatUtc(500_000))
  {
    assert CivilOf(0).year == 1970;
    NoFraction();
    TextOrderIsTimeOrder(0, 500_000);
  }

  lemma NoFraction()
    ensures FractionDigits(0) == ""
  {
    hide CivilOf;
    PadZero(6);
    TrimAllZeros(6);
  }

  lemma {:induction false} PadZero(width: nat)
    ensures Pad(0, width) == Zeros(width)
  {
    if width > 0 {
      PadZero(width - 1);
    }
  }

  lemma {:induction false} TrimAllZeros(n: nat)
    ensures TrimZeros(Zeros(n)) == ""
  {
    if n > 0 {
      assert Zeros(n)[..n - 1] == Zeros(n - 1);
      TrimAllZeros(n - 1);
    }
  }

  /** Selecting due rows by text is wrong by less than one second, and never when the whole seconds differ. */
  lemma DueWithinOneSecond(next: Time, now: Time)
    requires Representable(next) && Representable(now)
    ensures var selected := StringLe(FormatUtc(next), FormatUtc(now));
      && (selected ==> next < now + SECOND)
      && (!selected ==> now < next + SECOND)
      && (next / SECOND != now / SECOND ==> (selected <==> next <= now))
      && (next == now ==> selected)
  {
    hide FormatUtc;
    StringTotal(FormatUtc(next), FormatUtc(now));
    if next < now {
      TextOrderIsTimeOrder(next, now);
    } else if now < next {
      TextOrderIsTimeOrder(now, next);
      SameTextSameTime(next, now);
    }
  }
}
