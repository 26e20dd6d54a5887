/** UTC timestamps, their fixed-width text (the "Z" form of section 5.6 of RFC 3339), and the
    order in which that text sorts. */
module Timestamps {
  import opened Prelude
  import opened Decimals

  datatype Timestamp = Timestamp(
    year: nat, month: nat, day: nat, hour: nat, minute: nat, second: nat, nanos: nat)

  predicate IsLeap(year: nat)
  {
    year % 4 == 0 && (year % 100 != 0 || year % 400 == 0)
  }

  function MonthLength(year: nat, month: nat): nat
  {
    if month == 2 then (if IsLeap(year) then 29 else 28)
    else if month == 4 || month == 6 || month == 9 || month == 11 then 30
    else 31
  }

  predicate Valid(t: Timestamp)
  {
    && t.year <= 9999 && 1 <= t.month <= 12 && 1 <= t.day <= MonthLength(t.year, t.month)
    && t.hour < 24 && t.minute < 60 && t.second < 60 && t.nanos < 1_000_000_000
  }

  type Instant = t: Timestamp | Valid(t) witness Timestamp(1970, 1, 1, 0, 0, 0, 0)

  // ---------------------------------------------------------------- chronology

  function DaysBeforeYear(year: nat): nat
  {
    if year == 0 then 0 else DaysBeforeYear(year - 1) + if IsLeap(year - 1) then 366 else 365
  }

  function DaysBeforeMonth(year: nat, month: nat): nat
  {
    if month <= 1 then 0 else DaysBeforeMonth(year, month - 1) + MonthLength(year, month - 1)
  }

  function Days(t: Timestamp): int
  {
    DaysBeforeYear(t.year) + DaysBeforeMonth(t.year, t.month) + t.day - 1
  }

  /** Seconds since the start of the year 0. */
  function Seconds(t: Timestamp): int
  {
    ((Days(t) * 24 + t.hour) * 60 + t.minute) * 60 + t.second
  }

  function Nanoseconds(t: Timestamp): int
  {
    Seconds(t) * 1_000_000_000 + t.nanos
  }

  lemma {:induction false} MonthsInOrder(year: nat, m: nat, n: nat)
    requires 1 <= m < n
    ensures DaysBeforeMonth(year, m) + MonthLength(year, m) <= DaysBeforeMonth(year, n)
    decreases n
  {
    if m < n - 1 {
      MonthsInOrder(year, m, n - 1);
    }
  }

  lemma YearEnd(year: nat)
    ensures DaysBeforeMonth(year, 12) + 31 == if IsLeap(year) then 366 else 365
  {
    assert DaysBeforeMonth(year, 2) == 31;
    assert DaysBeforeMonth(year, 3) == 31 + MonthLength(year, 2);
    assert DaysBeforeMonth(year, 5) == DaysBeforeMonth(year, 3) + 31 + 30;
    assert DaysBeforeMonth(year, 7) == DaysBeforeMonth(year, 5) + 31 + 30;
    assert DaysBeforeMonth(year, 9) == DaysBeforeMonth(year, 7) + 31 + 31;
    assert DaysBeforeMonth(year, 11) == DaysBeforeMonth(year, 9) + 30 + 31;
  }

  lemma {:induction false} YearsInOrder(y: nat, z: nat)
    requires y < z
    ensures DaysBeforeYear(y) + (if IsLeap(y) then 366 else 365) <= DaysBeforeYear(z)
    decreases z
  {
    if y < z - 1 {
      YearsInOrder(y, z - 1);
    }
  }

  predicate DateBefore(a: Timestamp, b: Timestamp)
  {
    a.year < b.year || (a.year == b.year && (a.month < b.month || (a.month == b.month && a.day < b.day)))
  }

  predicate SameDate(a: Timestamp, b: Timestamp)
  {
    a.year == b.year && a.month == b.month && a.day == b.day
  }

  /** The order of the fields, from the year down to the second. */
  predicate FieldsBefore(a: Timestamp, b: Timestamp)
  {
    || DateBefore(a, b)
    || (SameDate(a, b) && (a.hour < b.hour || (a.hour == b.hour &&
         (a.minute < b.minute || (a.minute == b.minute && a.second < b.second)))))
  }

  lemma DatesInOrder(a: Instant, b: Instant)
    requires DateBefore(a, b)
    ensures Days(a) < Days(b)
  {
    if a.year < b.year {
      YearsInOrder(a.year, b.year);
      YearEnd(a.year);
      if a.month < 12 {
        MonthsInOrder(a.year, a.month, 12);
      }
    } else if a.month < b.month {
      MonthsInOrder(a.year, a.month, b.month);
    }
  }

  lemma BeforeInOrder(a: Instant, b: Instant)
    requires FieldsBefore(a, b)
    ensures Seconds(a) < Seconds(b)
  {
    if DateBefore(a, b) {
      DatesInOrder(a, b);
    }
  }

  /** The field order is the chronological order at the granularity of a second. */
  lemma FieldsAreChronological(a: Instant, b: Instant)
    ensures FieldsBefore(a, b) <==> Seconds(a) < Seconds(b)
  {
    if FieldsBefore(a, b) {
      BeforeInOrder(a, b);
    } else if FieldsBefore(b, a) {
      BeforeInOrder(b, a);
    }
  }

  // ---------------------------------------------------------------- text

  function Pow10(w: nat): nat
  {
    if w == 0 then 1 else 10 * Pow10(w - 1)
  }

  /** n in w decimal digits. */
  function Fixed(n: nat, w: nat): (s: string)
    ensures |s| == w
  {
    if w == 0 then "" else Fixed(n / 10, w - 1) + [Digit(n % 10)]
  }

  lemma ValueSnoc(s: string, d: nat)
    requires d < 10
    ensures Value(s + [Digit(d)]) == 10 * Value(s) + d
  {
    assert (s + [Digit(d)])[..|s|] == s;
  }

  lemma {:induction false} ValueOfFixed(n: nat, w: nat)
    requires n < Pow10(w)
    ensures Value(Fixed(n, w)) == n
  {
    if w > 0 {
      ValueOfFixed(n / 10, w - 1);
      ValueSnoc(Fixed(n / 10, w - 1), n % 10);
    }
  }

  /** The order of texts byte by byte, as ORDER BY sorts them. */
  predicate TextBefore(a: string, b: string)
  {
    b != [] && (a == [] || a[0] < b[0] || (a[0] == b[0] && TextBefore(a[1..], b[1..])))
  }

  lemma {:induction false} TextIrreflexive(a: string)
    ensures !TextBefore(a, a)
  {
    if a != [] {
      TextIrreflexive(a[1..]);
    }
  }

  lemma {:induction false} TextTransitive(a: string, b: string, c: string)
    requires TextBefore(a, b) && TextBefore(b, c)
    ensures TextBefore(a, c)
  {
    if a != [] && a[0] == b[0] && b[0] == c[0] {
      TextTransitive(a[1..], b[1..], c[1..]);
    }
  }

  lemma {:induction false} ConcatOrder(a: string, b: string, x: string, y: string)
    requires |a| == |b|
    ensures TextBefore(a + x, b + y) <==> TextBefore(a, b) || (a == b && TextBefore(x, y))
  {
    if a == [] {
      assert a + x == x && b + y == y;
    } else {
      assert (a + x)[1..] == a[1..] + x && (b + y)[1..] == b[1..] + y;
      ConcatOrder(a[1..], b[1..], x, y);
      assert a[0] == b[0] && a[1..] == b[1..] ==> a == [a[0]] + a[1..] == b;
    }
  }

  lemma {:induction false} FixedOrder(m: nat, n: nat, w: nat)
    requires m < Pow10(w) && n < Pow10(w)
    ensures TextBefore(Fixed(m, w), Fixed(n, w)) <==> m < n
    ensures Fixed(m, w) == Fixed(n, w) <==> m == n
  {
    ValueOfFixed(m, w);
    ValueOfFixed(n, w);
    if w > 0 {
      FixedOrder(m / 10, n / 10, w - 1);
      ConcatOrder(Fixed(m / 10, w - 1), Fixed(n / 10, w - 1), [Digit(m % 10)], [Digit(n % 10)]);
      OneDigitOrder(m % 10, n % 10);
    }
  }

  lemma OneDigitOrder(c: nat, d: nat)
    requires c < 10 && d < 10
    ensures TextBefore([Digit(c)], [Digit(d)]) <==> c < d
  {
    assert DigitValue(Digit(c)) == c && DigitValue(Digit(d)) == d;
  }

  function DateText(t: Timestamp): (s: string)
    ensures |s| == 10
  {
    Fixed(t.year, 4) + ("-" + (Fixed(t.month, 2) + ("-" + Fixed(t.day, 2))))
  }

  function TimeText(t: Timestamp): (s: string)
    ensures |s| == 9
  {
    Fixed(t.hour, 2) + (":" + (Fixed(t.minute, 2) + (":" + (Fixed(t.second, 2) + "Z"))))
  }

  /** 2006-01-02T15:04:05Z */
  function Format(t: Timestamp): (s: string)
    ensures |s| == 20
  {
    DateText(t) + ("T" + TimeText(t))
  }

  lemma DateTextOrder(a: Instant, b: Instant)
    ensures TextBefore(DateText(a), DateText(b)) <==> DateBefore(a, b)
    ensures DateText(a) == DateText(b) <==> SameDate(a, b)
  {
    Powers();
    FixedOrder(a.year, b.year, 4);
    FixedOrder(a.month, b.month, 2);
    FixedOrder(a.day, b.day, 2);
    var (ya, ma, da) := (Fixed(a.year, 4), Fixed(a.month, 2), Fixed(a.day, 2));
    var (yb, mb, db) := (Fixed(b.year, 4), Fixed(b.month, 2), Fixed(b.day, 2));
    ConcatOrder(ya, yb, "-" + (ma + ("-" + da)), "-" + (mb + ("-" + db)));
    ConcatOrder("-", "-", ma + ("-" + da), mb + ("-" + db));
    ConcatOrder(ma, mb, "-" + da, "-" + db);
    ConcatOrder("-", "-", da, db);
    ConcatEqual(ya, yb, "-" + (ma + ("-" + da)), "-" + (mb + ("-" + db)));
    ConcatEqual("-", "-", ma + ("-" + da), mb + ("-" + db));
    ConcatEqual(ma, mb, "-" + da, "-" + db);
    ConcatEqual("-", "-", da, db);
  }

  lemma TimeTextOrder(a: Instant, b: Instant)
    ensures TextBefore(TimeText(a), TimeText(b)) <==>
      (a.hour < b.hour || (a.hour == b.hour && (a.minute < b.minute || (a.minute == b.minute && a.second < b.second))))
  {
    Powers();
    FixedOrder(a.hour, b.hour, 2);
    FixedOrder(a.minute, b.minute, 2);
    FixedOrder(a.second, b.second, 2);
    var (ha, ma, sa) := (Fixed(a.hour, 2), Fixed(a.minute, 2), Fixed(a.second, 2));
    var (hb, mb, sb) := (Fixed(b.hour, 2), Fixed(b.minute, 2), Fixed(b.second, 2));
    ConcatOrder(ha, hb, ":" + (ma + (":" + (sa + "Z"))), ":" + (mb + (":" + (sb + "Z"))));
    ConcatOrder(":", ":", ma + (":" + (sa + "Z")), mb + (":" + (sb + "Z")));
    ConcatOrder(ma, mb, ":" + (sa + "Z"), ":" + (sb + "Z"));
    ConcatOrder(":", ":", sa + "Z", sb + "Z");
    ConcatOrder(sa, sb, "Z", "Z");
    ConcatOrder("Z", "Z", "", "");
  }

  lemma Powers()
    ensures Pow10(2) == 100 && Pow10(4) == 10_000
  {
    assert Pow10(1) == 10;
    assert Pow10(3) == 1000;
  }

  lemma ConcatEqual(a: string, b: string, x: string, y: string)
    requires |a| == |b|
    ensures a + x == b + y <==> a == b && x == y
  {
    assert (a + x)[..|a|] == a && (a + x)[|a|..] == x;
    assert (b + y)[..|b|] == b && (b + y)[|b|..] == y;
  }

  /** Sorting the texts sorts the instants, to the second. */
  lemma TextOrderIsChronological(a: Instant, b: Instant)
    ensures TextBefore(Format(a), Format(b)) <==> Seconds(a) < Seconds(b)
  {
    DateTextOrder(a, b);
    TimeTextOrder(a, b);
    ConcatOrder(DateText(a), DateText(b), "T" + TimeText(a), "T" + TimeText(b));
    ConcatOrder("T", "T", TimeText(a), TimeText(b));
    FieldsAreChronological(a, b);
  }

  // ---------------------------------------------------------------- parsing

  predicate Digits(s: string, lo: nat, hi: nat)
    requires lo <= hi <= |s|
  {
    forall i :: lo <= i < hi ==> IsDigit(s[i])
  }

  function Number(s: string, lo: nat, hi: nat): (n: nat)
    requires lo <= hi <= |s|
    requires Digits(s, lo, hi)
    decreases hi
  {
    if lo == hi then 0 else 10 * Number(s, lo, hi - 1) + DigitValue(s[hi - 1])
  }

  predicate HasLayout(s: string)
  {
    && |s| == 20
    && s[4] == '-' && s[7] == '-' && s[10] == 'T' && s[13] == ':' && s[16] == ':' && s[19] == 'Z'
    && Digits(s, 0, 4) && Digits(s, 5, 7) && Digits(s, 8, 10)
    && Digits(s, 11, 13) && Digits(s, 14, 16) && Digits(s, 17, 19)
  }

  function Parse(s: string): Option<Instant>
  {
    if !HasLayout(s) then None
    else
      var t := Timestamp(Number(s, 0, 4), Number(s, 5, 7), Number(s, 8, 10),
                         Number(s, 11, 13), Number(s, 14, 16), Number(s, 17, 19), 0);
      if Valid(t) then Some(t) else None
  }

  /** The instant without its fraction of a second. */
  function Truncated(t: Instant): Instant
  {
    t.(nanos := 0)
  }

  lemma SliceOfSlice(s: string, part: string, m: nat, lo: nat, hi: nat)
    requires m + |part| <= |s| && s[m..m + |part|] == part && lo <= hi <= |part|
    ensures s[m + lo..m + hi] == part[lo..hi]
  {
    assert forall k :: lo <= k < hi ==> s[m + k] == part[k];
  }

  lemma {:induction false} NumberOfFixed(s: string, lo: nat, n: nat, w: nat)
    requires lo + w <= |s| && s[lo..lo + w] == Fixed(n, w) && n < Pow10(w)
    ensures Digits(s, lo, lo + w) && Number(s, lo, lo + w) == n
  {
    if w > 0 {
      assert s[lo + w - 1] == s[lo..lo + w][w - 1];
      SliceOfSlice(s, Fixed(n, w), lo, 0, w - 1);
      assert Fixed(n, w)[0..w - 1] == Fixed(n / 10, w - 1);
      NumberOfFixed(s, lo, n / 10, w - 1);
    }
  }

  lemma DateSlices(t: Instant)
    ensures
      var d := DateText(t);
      && d[0..4] == Fixed(t.year, 4) && d[5..7] == Fixed(t.month, 2) && d[8..10] == Fixed(t.day, 2)
      && d[4] == '-' && d[7] == '-'
  {
  }

  lemma TimeSlices(t: Instant)
    ensures
      var c := TimeText(t);
      && c[0..2] == Fixed(t.hour, 2) && c[3..5] == Fixed(t.minute, 2) && c[6..8] == Fixed(t.second, 2)
      && c[2] == ':' && c[5] == ':' && c[8] == 'Z'
  {
  }

  /** A number written at some place of a text, followed by a character. */
  lemma NumberAt(s: string, d: string, part: string, lo: nat, n: nat, w: nat)
    requires |d| + |part| <= |s| && s[|d|..|d| + |part|] == part
    requires lo + w < |part| && part[lo..lo + w] == Fixed(n, w) && n < Pow10(w)
    ensures Digits(s, |d| + lo, |d| + lo + w) && Number(s, |d| + lo, |d| + lo + w) == n
    ensures s[|d| + lo + w] == part[lo + w]
  {
    var m := |d|;
    SliceOfSlice(s, part, m, lo, lo + w);
    assert s[m..m + |part|][lo + w] == s[m + lo + w];
    NumberOfFixed(s, m + lo, n, w);
  }

  lemma DateNumbers(t: Instant)
    ensures
      var s := Format(t);
      && s[4] == '-' && s[7] == '-' && s[10] == 'T'
      && Digits(s, 0, 4) && Number(s, 0, 4) == t.year
      && Digits(s, 5, 7) && Number(s, 5, 7) == t.month
      && Digits(s, 8, 10) && Number(s, 8, 10) == t.day
  {
    var s, d := Format(t), DateText(t) + "T";
    Powers();
    DateSlices(t);
    assert s == d + TimeText(t);
    assert |""| == 0 && s[0..|d|] == d;
    assert d[0..4] == DateText(t)[0..4] && d[5..7] == DateText(t)[5..7] && d[8..10] == DateText(t)[8..10];
    NumberAt(s, "", d, 0, t.year, 4);
    NumberAt(s, "", d, 5, t.month, 2);
    NumberAt(s, "", d, 8, t.day, 2);
  }

  lemma TimeNumbers(t: Instant)
    ensures
      var s := Format(t);
      && s[13] == ':' && s[16] == ':' && s[19] == 'Z'
      && Digits(s, 11, 13) && Number(s, 11, 13) == t.hour
      && Digits(s, 14, 16) && Number(s, 14, 16) == t.minute
      && Digits(s, 17, 19) && Number(s, 17, 19) == t.second
  {
    var s, d, c := Format(t), DateText(t) + "T", TimeText(t);
    Powers();
    TimeSlices(t);
    assert s == d + c;
    assert s[|d|..|d| + |c|] == c;
    NumberAt(s, d, c, 0, t.hour, 2);
    NumberAt(s, d, c, 3, t.minute, 2);
    NumberAt(s, d, c, 6, t.second, 2);
  }

  /** Reading back what was written loses the fraction of a second and nothing else. */
  lemma ParseOfFormat(t: Instant)
    ensures Parse(Format(t)) == Some(Truncated(t))
  {
    DateNumbers(t);
    TimeNumbers(t);
    assert HasLayout(Format(t));
  }

  // ---------------------------------------------------------------- fixed points

  /** Nanoseconds order two times as their fields do, down to the fraction of the second. */
  lemma NanosecondsAreChronological(a: Instant, b: Instant)
    ensures Nanoseconds(a) < Nanoseconds(b)
      <==> FieldsBefore(a, b) || (!FieldsBefore(b, a) && a.nanos < b.nanos)
    ensures Nanoseconds(a) == Nanoseconds(b) <==> a == b
  {
    FieldsAreChronological(a, b);
    FieldsAreChronological(b, a);
  }
}
