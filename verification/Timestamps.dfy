/** Stored timestamps: fixed-width RFC 3339 text in UTC, compared by the database as text. */
module Timestamps {
  import opened Wrappers

  /** The civil fields of a UTC instant. */
  datatype Civil = Civil(year: nat, month: nat, day: nat, hour: nat, minute: nat, second: nat, nano: nat)

  predicate LeapYear(year: nat) {
    year % 4 == 0 && (year % 100 != 0 || year % 400 == 0)
  }

  function DaysIn(year: nat, month: nat): nat {
    if month == 2 then (if LeapYear(year) then 29 else 28)
    else if month in {4, 6, 9, 11} then 30
    else 31
  }

  /** A calendar date and time of day, in a year written with four digits. */
  predicate OnCalendar(t: Civil) {
    && t.year <= 9999
    && 1 <= t.month <= 12
    && 1 <= t.day <= DaysIn(t.year, t.month)
    && t.hour < 24 && t.minute < 60 && t.second < 60
    && t.nano < 1_000_000_000
  }

  type Time = t: Civil | OnCalendar(t) witness Civil(0, 1, 1, 0, 0, 0, 0)

  /** Time order on UTC civil fields. */
  predicate Before(a: Time, b: Time) {
    || a.year < b.year
    || (a.year == b.year && (
        || a.month < b.month
        || (a.month == b.month && (
            || a.day < b.day
            || (a.day == b.day && (
                || a.hour < b.hour
                || (a.hour == b.hour && (
                    || a.minute < b.minute
                    || (a.minute == b.minute && (
                        || a.second < b.second
                        || (a.second == b.second && a.nano < b.nano)))))))))))
  }

  function Digit(d: nat): char
    requires d < 10
  {
    '0' + d as char
  }

  predicate IsDigit(c: char) {
    '0' <= c <= '9'
  }

  /** The last `width` decimal digits of n, most significant first. */
  function Pad(n: nat, width: nat): (s: string)
    ensures |s| == width
    ensures forall i :: 0 <= i < width ==> IsDigit(s[i])
  {
    if width == 0 then "" else Pad(n / 10, width - 1) + [Digit(n % 10)]
  }

  /** The layout 2006-01-02T15:04:05.000000000Z. */
  function FormatTime(t: Time): (s: string)
    ensures |s| == 30
  {
    Pad(t.year, 4) + "-" + Pad(t.month, 2) + "-" + Pad(t.day, 2) + "T"
    + Pad(t.hour, 2) + ":" + Pad(t.minute, 2) + ":" + Pad(t.second, 2) + "."
    + Pad(t.nano, 9) + "Z"
  }

  /** Text order as the database compares it: code by code, a proper prefix first. */
  predicate TextLess(a: string, b: string) {
    if b == "" then false
    else if a == "" then true
    else if a[0] != b[0] then a[0] < b[0]
    else TextLess(a[1..], b[1..])
  }

  // ----- Parsing -----

  function Number(digits: string): nat
    requires AllDigits(digits)
  {
    if digits == "" then 0
    else 10 * Number(digits[..|digits| - 1]) + (digits[|digits| - 1] as int - '0' as int)
  }

  /** How many digits s starts with. */
  function DigitPrefix(s: string): (n: nat)
    ensures n <= |s|
    ensures forall i :: 0 <= i < n ==> IsDigit(s[i])
    ensures n < |s| ==> !IsDigit(s[n])
  {
    if s == "" || !IsDigit(s[0]) then 0 else 1 + DigitPrefix(s[1..])
  }

  function Scaled(n: nat, zeros: nat): nat
    decreases zeros
  {
    if zeros == 0 then n else Scaled(10 * n, zeros - 1)
  }

  /** The nanoseconds of a fraction; digits after the ninth are dropped. */
  function Nanos(digits: string): nat
    requires AllDigits(digits)
  {
    if |digits| > 9 then Number(digits[..9]) else Scaled(Number(digits), 9 - |digits|)
  }

  predicate AllDigits(s: string) {
    forall i :: 0 <= i < |s| ==> IsDigit(s[i])
  }

  predicate Layout(s: string) {
    && |s| >= 20
    && AllDigits(s[0..4]) && s[4] == '-' && AllDigits(s[5..7]) && s[7] == '-' && AllDigits(s[8..10])
    && s[10] == 'T' && AllDigits(s[11..13]) && s[13] == ':' && AllDigits(s[14..16]) && s[16] == ':'
    && AllDigits(s[17..19])
  }

  /** Reads the UTC form with any number of fraction digits, or none. */
  function ParseTime(s: string): Option<Time> {
    if !Layout(s) then None
    else
      var rest := s[19..];
      var width := if rest[0] == '.' then DigitPrefix(rest[1..]) else 0;
      var zone := if width > 0 then rest[1 + width..] else rest;
      var t := Civil(Number(s[0..4]), Number(s[5..7]), Number(s[8..10]),
                     Number(s[11..13]), Number(s[14..16]), Number(s[17..19]),
                     if width > 0 then Nanos(rest[1..1 + width]) else 0);
      if zone == "Z" && OnCalendar(t) then Some(t) else None
  }

  // ----- Text order is time order -----

  function Pow10(width: nat): (p: nat)
    ensures p >= 1
  {
    if width == 0 then 1 else 10 * Pow10(width - 1)
  }

  /** Texts with heads of equal length compare by their heads, and by their tails when the heads are equal. */
  lemma {:induction false} CompareConcat(a: string, b: string, x: string, y: string)
    requires |a| == |b|
    ensures TextLess(a + x, b + y) <==> TextLess(a, b) || (a == b && TextLess(x, y))
  {
    if a == "" {
      assert a + x == x && b + y == y;
    } else {
      assert (a + x)[1..] == a[1..] + x && (b + y)[1..] == b[1..] + y;
      CompareConcat(a[1..], b[1..], x, y);
      assert a == [a[0]] + a[1..] && b == [b[0]] + b[1..];
    }
  }

  /** Zero-padded numbers of one width are ordered as numbers, and equal only for equal numbers. */
  lemma {:induction false} PadOrder(m: nat, n: nat, width: nat)
    requires m < Pow10(width) && n < Pow10(width)
    ensures TextLess(Pad(m, width), Pad(n, width)) <==> m < n
    ensures Pad(m, width) == Pad(n, width) <==> m == n
  {
    if width > 0 {
      PadOrder(m / 10, n / 10, width - 1);
      CompareConcat(Pad(m / 10, width - 1), Pad(n / 10, width - 1), [Digit(m % 10)], [Digit(n % 10)]);
      assert Pad(m, width)[..width - 1] == Pad(m / 10, width - 1);
      assert Pad(n, width)[..width - 1] == Pad(n / 10, width - 1);
    }
  }

  /** A padded field followed by a separator and the rest compares by number, then by the rest. */
  lemma FieldOrder(m: nat, n: nat, width: nat, sep: string, x: string, y: string)
    requires m < Pow10(width) && n < Pow10(width)
    ensures TextLess(Pad(m, width) + sep + x, Pad(n, width) + sep + y) <==> m < n || (m == n && TextLess(x, y))
  {
    PadOrder(m, n, width);
    assert Pad(m, width) + sep + x == Pad(m, width) + (sep + x);
    assert Pad(n, width) + sep + y == Pad(n, width) + (sep + y);
    CompareConcat(Pad(m, width), Pad(n, width), sep + x, sep + y);
    CompareConcat(sep, sep, x, y);
    NeverLessItself(sep);
  }

  lemma NeverLessItself(s: string)
    ensures !TextLess(s, s)
  {
  }

  function TimeOfDay(t: Time): string {
    Pad(t.hour, 2) + ":" + (Pad(t.minute, 2) + ":" + (Pad(t.second, 2) + "." + (Pad(t.nano, 9) + "Z" + "")))
  }

  lemma FormatNested(t: Time)
    ensures FormatTime(t) == Pad(t.year, 4) + "-" + (Pad(t.month, 2) + "-" + (Pad(t.day, 2) + "T" + TimeOfDay(t)))
  {
  }

  lemma Widths()
    ensures Pow10(2) == 100 && Pow10(4) == 10_000 && Pow10(9) == 1_000_000_000
  {
    assert Pow10(5) == 100_000;
    assert Pow10(7) == 10_000_000;
  }

  lemma TimeOfDayOrder(a: Time, b: Time)
    ensures TextLess(TimeOfDay(a), TimeOfDay(b)) <==>
            || a.hour < b.hour
            || (a.hour == b.hour && (
                || a.minute < b.minute
                || (a.minute == b.minute && (
                    || a.second < b.second
                    || (a.second == b.second && a.nano < b.nano)))))
  {
    Widths();
    var na, nb := Pad(a.nano, 9) + "Z" + "", Pad(b.nano, 9) + "Z" + "";
    var sa, sb := Pad(a.second, 2) + "." + na, Pad(b.second, 2) + "." + nb;
    var ma, mb := Pad(a.minute, 2) + ":" + sa, Pad(b.minute, 2) + ":" + sb;
    FieldOrder(a.nano, b.nano, 9, "Z", "", "");
    FieldOrder(a.second, b.second, 2, ".", na, nb);
    FieldOrder(a.minute, b.minute, 2, ":", sa, sb);
    FieldOrder(a.hour, b.hour, 2, ":", ma, mb);
  }

  /** The text comparison of the expiry queries selects exactly the times that are before the cutoff. */
  lemma TextOrderIsTimeOrder(a: Time, b: Time)
    ensures TextLess(FormatTime(a), FormatTime(b)) <==> Before(a, b)
  {
    Widths();
    FormatNested(a);
    FormatNested(b);
    TimeOfDayOrder(a, b);
    var da, db := Pad(a.day, 2) + "T" + TimeOfDay(a), Pad(b.day, 2) + "T" + TimeOfDay(b);
    var ma, mb := Pad(a.month, 2) + "-" + da, Pad(b.month, 2) + "-" + db;
    FieldOrder(a.day, b.day, 2, "T", TimeOfDay(a), TimeOfDay(b));
    FieldOrder(a.month, b.month, 2, "-", da, db);
    FieldOrder(a.year, b.year, 4, "-", ma, mb);
  }

  // ----- Parsing undoes formatting -----

  lemma {:induction false} NumberOfPad(n: nat, width: nat)
    requires n < Pow10(width)
    ensures Number(Pad(n, width)) == n
  {
    if width > 0 {
      NumberOfPad(n / 10, width - 1);
      assert Pad(n, width)[..width - 1] == Pad(n / 10, width - 1);
    }
  }

  lemma {:induction false} DigitPrefixIs(digits: string, rest: string)
    requires AllDigits(digits)
    requires rest == "" || !IsDigit(rest[0])
    ensures DigitPrefix(digits + rest) == |digits|
  {
    if digits == "" {
      assert digits + rest == rest;
    } else {
      assert (digits + rest)[1..] == digits[1..] + rest;
      DigitPrefixIs(digits[1..], rest);
    }
  }

  lemma FormatHead(t: Time)
    ensures
      var s := FormatTime(t);
      && Layout(s)
      && s[0..4] == Pad(t.year, 4) && s[5..7] == Pad(t.month, 2) && s[8..10] == Pad(t.day, 2)
      && s[11..13] == Pad(t.hour, 2) && s[14..16] == Pad(t.minute, 2) && s[17..19] == Pad(t.second, 2)
  {
  }

  lemma FormatTail(t: Time)
    ensures
      var rest := FormatTime(t)[19..];
      && rest[0] == '.' && DigitPrefix(rest[1..]) == 9
      && rest[1..10] == Pad(t.nano, 9) && rest[10..] == "Z"
  {
    var rest := FormatTime(t)[19..];
    assert rest == "." + (Pad(t.nano, 9) + "Z");
    assert rest[1..] == Pad(t.nano, 9) + "Z";
    DigitPrefixIs(Pad(t.nano, 9), "Z");
  }

  lemma FieldNumbers(t: Time)
    ensures Number(Pad(t.year, 4)) == t.year && Number(Pad(t.month, 2)) == t.month && Number(Pad(t.day, 2)) == t.day
    ensures Number(Pad(t.hour, 2)) == t.hour && Number(Pad(t.minute, 2)) == t.minute
    ensures Number(Pad(t.second, 2)) == t.second && Number(Pad(t.nano, 9)) == t.nano
  {
    Widths();
    NumberOfPad(t.year, 4);
    NumberOfPad(t.month, 2);
    NumberOfPad(t.day, 2);
    NumberOfPad(t.hour, 2);
    NumberOfPad(t.minute, 2);
    NumberOfPad(t.second, 2);
    NumberOfPad(t.nano, 9);
  }

  /** Reading back a stored timestamp gives the time that was stored. */
  lemma ParseUndoesFormat(t: Time)
    ensures ParseTime(FormatTime(t)) == Some(t)
  {
    FormatHead(t);
    FormatTail(t);
    FieldNumbers(t);
  }

  // ----- Why the width is fixed -----

  /** Digits without their trailing zeros. */
  function Trim(digits: string): string {
    if digits == "" || (digits[0] == '0' && Trim(digits[1..]) == "") then "" else [digits[0]] + Trim(digits[1..])
  }

  /** The fraction and zone as RFC3339Nano writes them: no trailing zeros, and no point without digits. */
  function Trimmed(digits: string): string {
    (if Trim(digits) == "" then "" else "." + Trim(digits)) + "Z"
  }

  /** A time up to the second. */
  function Head(t: Time): string {
    FormatTime(t)[..19]
  }

  function FormatTrimmed(t: Time): string {
    Head(t) + Trimmed(Pad(t.nano, 9))
  }

  predicate SameSecond(a: Time, b: Time) {
    a.(nano := 0) == b.(nano := 0)
  }

  /** Heads are ordered as the seconds they name. */
  lemma HeadOrder(a: Time, b: Time)
    ensures TextLess(Head(a), Head(b)) <==> Before(a.(nano := 0), b.(nano := 0))
    ensures SameSecond(a, b) ==> Head(a) == Head(b)
  {
    var tail := "." + Pad(0, 9) + "Z";
    assert FormatTime(a.(nano := 0)) == Head(a) + tail && FormatTime(b.(nano := 0)) == Head(b) + tail;
    TextOrderIsTimeOrder(a.(nano := 0), b.(nano := 0));
    CompareConcat(Head(a), Head(b), tail, tail);
    NeverLessItself(tail);
  }

  /** A fraction that is not the least of its width is not all zeros. */
  lemma {:induction false} NotAllZeros(p: string, q: string)
    requires |p| == |q| && AllDigits(p) && AllDigits(q) && TextLess(p, q)
    ensures Trim(q) != ""
  {
    if p[0] == q[0] {
      NotAllZeros(p[1..], q[1..]);
    }
  }

  /** Of two fractions, the lesser comes first in text unless its trimmed digits begin those of the other. */
  lemma {:induction false} TrimOrder(p: string, q: string)
    requires |p| == |q| && AllDigits(p) && AllDigits(q) && TextLess(p, q)
    ensures TextLess(Trim(p) + "Z", Trim(q) + "Z") <==> !(Trim(p) <= Trim(q))
  {
    NotAllZeros(p, q);
    assert (Trim(q) + "Z")[1..] == Trim(q)[1..] + "Z";
    if Trim(p) != "" {
      assert (Trim(p) + "Z")[1..] == Trim(p)[1..] + "Z";
      if p[0] == q[0] {
        NotAllZeros(p[1..], q[1..]);
        TrimOrder(p[1..], q[1..]);
        assert Trim(p) <= Trim(q) <==> Trim(p)[1..] <= Trim(q)[1..] by {
          assert Trim(p) == [p[0]] + Trim(p)[1..] && Trim(q) == [p[0]] + Trim(q)[1..];
        }
      }
    }
  }

  lemma FractionOrder(p: string, q: string)
    requires |p| == |q| && AllDigits(p) && AllDigits(q) && TextLess(p, q)
    ensures TextLess(Trimmed(p), Trimmed(q)) <==> !(Trim(p) <= Trim(q))
  {
    NotAllZeros(p, q);
    TrimOrder(p, q);
    assert Trimmed(q) == "." + (Trim(q) + "Z");
    if Trim(p) != "" {
      assert Trimmed(p) == "." + (Trim(p) + "Z");
      CompareConcat(".", ".", Trim(p) + "Z", Trim(q) + "Z");
      NeverLessItself(".");
    }
  }

  /**
   * With a fraction of varying width, text order is not time order: the earlier of two times comes first exactly
   * unless both are in one second and the trimmed digits of its fraction begin those of the other's.
   */
  lemma TrimmedFractionsMisorder(a: Time, b: Time)
    requires Before(a, b)
    ensures TextLess(FormatTrimmed(a), FormatTrimmed(b)) <==>
            !SameSecond(a, b) || !(Trim(Pad(a.nano, 9)) <= Trim(Pad(b.nano, 9)))
  {
    HeadOrder(a, b);
    CompareConcat(Head(a), Head(b), Trimmed(Pad(a.nano, 9)), Trimmed(Pad(b.nano, 9)));
    if SameSecond(a, b) {
      Widths();
      PadOrder(a.nano, b.nano, 9);
      FractionOrder(Pad(a.nano, 9), Pad(b.nano, 9));
      NeverLessItself(Head(a));
    }
  }

  lemma {:induction false} PadZero(width: nat)
    ensures Trim(Pad(0, width)) == ""
  {
    if width > 0 {
      PadZero(width - 1);
      TrimZero(Pad(0, width - 1));
    }
  }

  lemma {:induction false} TrimZero(digits: string)
    requires Trim(digits) == ""
    ensures Trim(digits + "0") == ""
  {
    if digits == "" {
      assert digits + "0" == "0";
    } else {
      assert (digits + "0")[1..] == digits[1..] + "0";
      TrimZero(digits[1..]);
    }
  }

  /** So no whole second comes before the later times of that second. */
  lemma WholeSecondsMisorder(a: Time, b: Time)
    requires Before(a, b) && SameSecond(a, b) && a.nano == 0
    ensures !TextLess(FormatTrimmed(a), FormatTrimmed(b))
  {
    PadZero(9);
    TrimmedFractionsMisorder(a, b);
  }
}
