/**
 The text unix_seconds_rfc3339 prints: six zero-padded decimal fields, each followed by its separator.
 Up to the end of year 9999 it is a date-time of section 5.6 of RFC 3339 that parses back to the same
 second and sorts as text in the order of time.
 */
module Rfc3339Text {
  import opened CivilCalendar

  // ---------------------------------------------------------------- zero-padded decimals

  function Digit(n: nat): char
    requires n < 10
  {
    "0123456789"[n]
  }

  function DigitValue(c: char): nat
  {
    if '0' <= c <= '9' then c as nat - '0' as nat else 0
  }

  predicate AllDigits(s: string)
  {
    forall i :: 0 <= i < |s| ==> '0' <= s[i] <= '9'
  }

  /** Rust's {n:0w}: decimal digits, with leading zeros up to width `w`. */
  function Padded(n: nat, w: nat): (s: string)
    ensures |s| >= w && |s| >= 1 && AllDigits(s)
    decreases n + w
  {
    if n < 10 && w <= 1 then [Digit(n)]
    else Padded(n / 10, if w == 0 then 0 else w - 1) + [Digit(n % 10)]
  }

  /** The number a string of digits stands for. */
  function Value(s: string): nat
  {
    if s == [] then 0 else 10 * Value(s[..|s| - 1]) + DigitValue(s[|s| - 1])
  }

  function Pow10(w: nat): nat
  {
    if w == 0 then 1 else 10 * Pow10(w - 1)
  }

  lemma ValueOneMore(p: string, d: nat)
    requires d < 10
    ensures Value(p + [Digit(d)]) == 10 * Value(p) + d
  {
    assert (p + [Digit(d)])[..|p|] == p;
  }

  lemma {:induction false} ValueOfPadded(n: nat, w: nat)
    ensures Value(Padded(n, w)) == n
    decreases n + w
  {
    if n < 10 && w <= 1 {
      ValueOneMore([], n);
      assert [] + [Digit(n)] == [Digit(n)];
    } else {
      var k := if w == 0 then 0 else w - 1;
      ValueOfPadded(n / 10, k);
      ValueOneMore(Padded(n / 10, k), n % 10);
    }
  }

  /** A number keeps to its field exactly when it has no more digits than the field is wide. */
  lemma {:induction false} WidthOfPadded(n: nat, w: nat)
    requires w >= 1
    ensures |Padded(n, w)| == w <==> n < Pow10(w)
    decreases n + w
  {
    if n < 10 && w <= 1 {
      assert Pow10(1) == 10;
    } else if w == 1 {
      assert Pow10(1) == 10;
      assert |Padded(n / 10, 0)| >= 1;
    } else {
      WidthOfPadded(n / 10, w - 1);
    }
  }

  // ---------------------------------------------------------------- comparing texts

  /** The order in which texts sort. */
  predicate Before(a: string, b: string)
  {
    b != [] && (a == [] || a[0] < b[0] || (a[0] == b[0] && Before(a[1..], b[1..])))
  }

  lemma {:induction false} BeforeByPrefix(a: string, b: string, x: string, y: string)
    requires |a| == |b| && Before(a, b)
    ensures Before(a + x, b + y)
    decreases |a|
  {
    assert (a + x)[1..] == a[1..] + x && (b + y)[1..] == b[1..] + y;
    if a[0] == b[0] && !(a[0] < b[0]) {
      BeforeByPrefix(a[1..], b[1..], x, y);
    }
  }

  lemma {:induction false} BeforeBySuffix(a: string, x: string, y: string)
    requires Before(x, y)
    ensures Before(a + x, a + y)
    decreases |a|
  {
    if a == [] {
      assert a + x == x && a + y == y;
    } else {
      assert (a + x)[1..] == a[1..] + x && (a + y)[1..] == a[1..] + y;
      BeforeBySuffix(a[1..], x, y);
    }
  }

  lemma LastDigitsOrder(p: string, x: nat, y: nat)
    requires x < y < 10
    ensures Before(p + [Digit(x)], p + [Digit(y)])
  {
    BeforeBySuffix(p, [Digit(x)], [Digit(y)]);
  }

  lemma TensOrder(n: nat, m: nat, p: nat)
    requires n < m < 10 * p
    ensures n / 10 <= m / 10 < p && (n / 10 == m / 10 ==> n % 10 < m % 10)
  {
  }

  lemma JoinOrder(p: string, q: string, x: nat, y: nat)
    requires x < 10 && y < 10
    requires (|p| == |q| && Before(p, q)) || (p == q && x < y)
    ensures Before(p + [Digit(x)], q + [Digit(y)])
  {
    if p == q && x < y {
      LastDigitsOrder(p, x, y);
    } else {
      BeforeByPrefix(p, q, [Digit(x)], [Digit(y)]);
    }
  }

  lemma OneDigitOrder(n: nat, m: nat)
    requires n < m < 10
    ensures Before(Padded(n, 1), Padded(m, 1))
  {
    LastDigitsOrder([], n, m);
    assert [] + [Digit(n)] == Padded(n, 1) && [] + [Digit(m)] == Padded(m, 1);
  }

  lemma PaddedSplits(n: nat, w: nat)
    requires w >= 2
    ensures Padded(n, w) == Padded(n / 10, w - 1) + [Digit(n % 10)]
    ensures Pow10(w) == 10 * Pow10(w - 1)
  {
  }

  /** Numbers of one width sort as their digits do. */
  lemma {:induction false} PaddedOrder(n: nat, m: nat, w: nat)
    requires w >= 1 && n < m < Pow10(w)
    ensures Before(Padded(n, w), Padded(m, w))
    decreases w
  {
    if w == 1 {
      assert Pow10(1) == 10;
      OneDigitOrder(n, m);
    } else {
      PaddedSplits(n, w);
      PaddedSplits(m, w);
      TensOrder(n, m, Pow10(w - 1));
      if n / 10 < m / 10 {
        WidthOfPadded(n / 10, w - 1);
        WidthOfPadded(m / 10, w - 1);
        PaddedOrder(n / 10, m / 10, w - 1);
      }
      JoinOrder(Padded(n / 10, w - 1), Padded(m / 10, w - 1), n % 10, m % 10);
    }
  }

  // ---------------------------------------------------------------- fields and layout

  /** Width and separator of each field of the format string. */
  const LAYOUT: seq<(nat, char)> := [(4, '-'), (2, '-'), (2, 'T'), (2, ':'), (2, ':'), (2, 'Z')]

  function Render(fields: seq<nat>, layout: seq<(nat, char)>): string
    requires |fields| == |layout|
  {
    if fields == [] then []
    else Padded(fields[0], layout[0].0) + [layout[0].1] + Render(fields[1..], layout[1..])
  }

  /** Reading fixed-width fields back, checking digits and separators. */
  function Scan(text: string, layout: seq<(nat, char)>): (fields: seq<nat>)
    decreases |layout|
  {
    if layout == [] || |text| <= layout[0].0 || text[layout[0].0] != layout[0].1 || !AllDigits(text[..layout[0].0])
      then []
    else [Value(text[..layout[0].0])] + Scan(text[layout[0].0 + 1..], layout[1..])
  }

  ghost predicate Fits(fields: seq<nat>, layout: seq<(nat, char)>)
  {
    |fields| == |layout| && forall i :: 0 <= i < |fields| ==> layout[i].0 >= 1 && fields[i] < Pow10(layout[i].0)
  }

  predicate FieldsBefore(a: seq<nat>, b: seq<nat>)
    requires |a| == |b|
  {
    a != [] && (a[0] < b[0] || (a[0] == b[0] && FieldsBefore(a[1..], b[1..])))
  }

  lemma {:induction false} ScanOfRender(fields: seq<nat>, layout: seq<(nat, char)>)
    requires Fits(fields, layout)
    ensures Scan(Render(fields, layout), layout) == fields
    decreases |fields|
  {
    if fields != [] {
      var head := Padded(fields[0], layout[0].0);
      WidthOfPadded(fields[0], layout[0].0);
      ValueOfPadded(fields[0], layout[0].0);
      var rest := Render(fields[1..], layout[1..]);
      var text := Render(fields, layout);
      assert text[..layout[0].0] == head && text[layout[0].0 + 1..] == rest;
      ScanOfRender(fields[1..], layout[1..]);
    }
  }

  lemma {:induction false} RenderOrder(a: seq<nat>, b: seq<nat>, layout: seq<(nat, char)>)
    requires Fits(a, layout) && Fits(b, layout) && FieldsBefore(a, b)
    ensures Before(Render(a, layout), Render(b, layout))
    decreases |a|
  {
    var w, sep := layout[0].0, [layout[0].1];
    var restA, restB := Render(a[1..], layout[1..]), Render(b[1..], layout[1..]);
    var headA, headB := Padded(a[0], w) + sep, Padded(b[0], w) + sep;
    assert Render(a, layout) == headA + restA && Render(b, layout) == headB + restB;
    if a[0] < b[0] {
      WidthOfPadded(a[0], w);
      WidthOfPadded(b[0], w);
      PaddedOrder(a[0], b[0], w);
      BeforeByPrefix(Padded(a[0], w), Padded(b[0], w), sep, sep);
      BeforeByPrefix(headA, headB, restA, restB);
    } else {
      RenderOrder(a[1..], b[1..], layout[1..]);
      BeforeBySuffix(headA, restA, restB);
    }
  }

  // ---------------------------------------------------------------- the time stamp

  function FieldsOf(date: Date, ofDay: nat): (fields: seq<int>)
  {
    [date.year, date.month, date.day, ofDay / 3600, ofDay % 3600 / 60, ofDay % 60]
  }

  /** Year, month, day, hour, minute and second of a count of seconds since the epoch. */
  function Fields(seconds: nat): (fields: seq<nat>)
    ensures |fields| == 6
  {
    DateBounds(seconds / 86400);
    FieldsOf(CivilFromDays(seconds / 86400), seconds % 86400)
  }

  /** unix_seconds_rfc3339. */
  function Timestamp(seconds: nat): string
  {
    Render(Fields(seconds), LAYOUT)
  }

  /** Seconds since the epoch of six fields. */
  function SecondsOf(fields: seq<nat>): int
    requires |fields| == 6
  {
    DaysFromCivil(Date(fields[0], fields[1], fields[2])) * 86400 + fields[3] * 3600 + fields[4] * 60 + fields[5]
  }

  predicate DateBefore(a: Date, b: Date)
  {
    a.year < b.year || (a.year == b.year && (a.month < b.month || (a.month == b.month && a.day < b.day)))
  }

  lemma NextIsLater(d: Date)
    requires ValidDate(d)
    ensures DateBefore(d, NextDay(d))
  {
  }

  lemma BeforeIsTransitive(a: Date, b: Date, c: Date)
    requires DateBefore(a, b) && DateBefore(b, c)
    ensures DateBefore(a, c)
  {
  }

  lemma {:induction false} DatesAscend(a: nat, b: nat)
    requires a < b
    ensures DateBefore(DateAfter(a), DateAfter(b))
    decreases b
  {
    DateAfterCounts(b - 1);
    NextIsLater(DateAfter(b - 1));
    if a < b - 1 {
      DatesAscend(a, b - 1);
      BeforeIsTransitive(DateAfter(a), DateAfter(b - 1), DateAfter(b));
    }
  }

  lemma DateAfterIs(d: Date, n: nat)
    requires ValidDate(d) && DaysFromCivil(d) == n
    ensures DateAfter(n) == d && CivilFromDays(n) == d
  {
    CivilOfDays(d);
    CivilIsGregorian(n);
  }

  lemma LastDayOf9999()
    ensures DaysFromCivil(Date(9999, 12, 31)) == 2932896
    ensures DaysFromCivil(Date(10000, 1, 1)) == 2932897
  {
  }

  lemma AfterYear9999(last: nat)
    requires last == 2932896
    ensures DateAfter(last) == Date(9999, 12, 31) == CivilFromDays(last)
    ensures DateAfter(last + 1) == Date(10000, 1, 1) == CivilFromDays(last + 1)
  {
    LastDayOf9999();
    var d, e := Date(9999, 12, 31), Date(10000, 1, 1);
    assert ValidDate(d) && ValidDate(e);
    DateAfterIs(d, last);
    DateAfterIs(e, last + 1);
  }

  lemma DateAfterBounds(days: nat)
    ensures ValidDate(DateAfter(days)) && DateAfter(days).year >= 1970
    ensures DateAfter(days).year <= 9999 <==> days < 2932897
  {
    DateAfterCounts(days);
    var last: nat :| last == 2932896;
    AfterYear9999(last);
    if days > 0 { DatesAscend(0, days); }
    if days < last { DatesAscend(days, last); }
    if days > last + 1 { DatesAscend(last + 1, days); }
  }

  lemma DateBounds(days: nat)
    ensures var d := CivilFromDays(days);
      ValidDate(d) && d.year >= 1970 && (d.year <= 9999 <==> days < 2932897)
  {
    CivilIsGregorian(days);
    DateAfterBounds(days);
  }

  /** The first second after the year 9999. */
  const END_OF_9999 := 253402300800

  lemma Powers()
    ensures Pow10(2) == 100 && Pow10(4) == 10000
  {
    assert Pow10(0) == 1 && Pow10(1) == 10 && Pow10(2) == 100 && Pow10(3) == 1000;
  }

  lemma FieldsFit(seconds: nat)
    ensures Fits(Fields(seconds), LAYOUT) <==> seconds < END_OF_9999
  {
    DateBounds(seconds / 86400);
    Powers();
    var f := Fields(seconds);
    assert f[0] < 10000 <==> seconds < END_OF_9999;
    assert f[1] < 100 && f[2] < 100 && f[3] < 100 && f[4] < 100 && f[5] < 100;
  }

  lemma SecondsOfFieldsOf(date: Date, days: nat, ofDay: nat)
    requires ofDay < 86400 && DaysFromCivil(date) == days
    requires date.year >= 0 && date.month >= 0 && date.day >= 0
    ensures SecondsOf(FieldsOf(date, ofDay)) == days * 86400 + ofDay
  {
    assert Date(date.year, date.month, date.day) == date;
  }

  /** The six fields determine the second, for every count of seconds. */
  lemma SecondsOfFields(seconds: nat)
    ensures SecondsOf(Fields(seconds)) == seconds
  {
    var days := seconds / 86400;
    DaysOfCivil(days);
    DateBounds(days);
    SecondsOfFieldsOf(CivilFromDays(days), days, seconds % 86400);
  }

  /** The restrictions of RFC 3339, section 5.7, hold of the fields of every time stamp. */
  lemma FieldRanges(seconds: nat)
    ensures var f := Fields(seconds);
      1 <= f[1] <= 12 && 1 <= f[2] <= DaysInMonth(f[0], f[1]) && f[3] <= 23 && f[4] <= 59 && f[5] <= 59
  {
    DaysOfCivil(seconds / 86400);
  }

  /** Until the end of year 9999 scanning the text gives back the fields, hence the second. */
  lemma RoundTrip(seconds: nat)
    requires seconds < END_OF_9999
    ensures Scan(Timestamp(seconds), LAYOUT) == Fields(seconds)
    ensures SecondsOf(Scan(Timestamp(seconds), LAYOUT)) == seconds
  {
    FieldsFit(seconds);
    ScanOfRender(Fields(seconds), LAYOUT);
    SecondsOfFields(seconds);
  }

  function WidthOf(layout: seq<(nat, char)>): nat
  {
    if layout == [] then 0 else layout[0].0 + 1 + WidthOf(layout[1..])
  }

  lemma {:induction false} RenderLength(fields: seq<nat>, layout: seq<(nat, char)>)
    requires |fields| == |layout| && forall i :: 0 <= i < |layout| ==> layout[i].0 >= 1
    ensures |Render(fields, layout)| >= WidthOf(layout)
    ensures |Render(fields, layout)| == WidthOf(layout) <==> Fits(fields, layout)
    decreases |fields|
  {
    if fields != [] {
      WidthOfPadded(fields[0], layout[0].0);
      RenderLength(fields[1..], layout[1..]);
      assert Fits(fields, layout) <==> fields[0] < Pow10(layout[0].0) && Fits(fields[1..], layout[1..]) by {
        assert fields == [fields[0]] + fields[1..] && layout == [layout[0]] + layout[1..];
      }
    }
  }

  /** The text starts with `w` digits and then this separator. */
  predicate StartsField(text: string, w: nat, separator: char)
  {
    |text| > w && AllDigits(text[..w]) && text[w] == separator
  }

  /** date-time of section 5.6 of RFC 3339, in universal time and without fractions of a second. */
  predicate LaidOut(text: string)
  {
    && |text| == 20
    && StartsField(text, 4, '-') && StartsField(text[5..], 2, '-') && StartsField(text[8..], 2, 'T')
    && StartsField(text[11..], 2, ':') && StartsField(text[14..], 2, ':') && StartsField(text[17..], 2, 'Z')
  }

  lemma ScanStep(text: string, layout: seq<(nat, char)>)
    requires layout != [] && |Scan(text, layout)| == |layout|
    ensures StartsField(text, layout[0].0, layout[0].1)
    ensures |Scan(text[layout[0].0 + 1..], layout[1..])| == |layout[1..]|
  {
  }

  lemma Drop(text: string, m: nat, n: nat)
    requires m + n <= |text|
    ensures text[m..][n..] == text[m + n..]
  {
  }

  /** What scans into six fields is laid out in them. */
  lemma ScannedIsLaidOut(text: string)
    requires |text| == 20 && |Scan(text, LAYOUT)| == 6
    ensures LaidOut(text)
  {
    ScanStep(text, LAYOUT);
    ScanStep(text[5..], LAYOUT[1..]);
    Drop(text, 5, 3);
    assert LAYOUT[1..][1..] == LAYOUT[2..] && LAYOUT[2..][1..] == LAYOUT[3..] && LAYOUT[3..][1..] == LAYOUT[4..];
    assert LAYOUT[4..][1..] == LAYOUT[5..];
    ScanStep(text[8..], LAYOUT[2..]);
    Drop(text, 8, 3);
    ScanStep(text[11..], LAYOUT[3..]);
    Drop(text, 11, 3);
    ScanStep(text[14..], LAYOUT[4..]);
    Drop(text, 14, 3);
    ScanStep(text[17..], LAYOUT[5..]);
  }

  lemma LayoutWidth()
    ensures WidthOf(LAYOUT) == 20
  {
    assert LAYOUT[1..] == [(2, '-'), (2, 'T'), (2, ':'), (2, ':'), (2, 'Z')];
    assert LAYOUT[1..][1..] == [(2, 'T'), (2, ':'), (2, ':'), (2, 'Z')];
    assert LAYOUT[1..][1..][1..] == [(2, ':'), (2, ':'), (2, 'Z')];
    assert LAYOUT[1..][1..][1..][1..] == [(2, ':'), (2, 'Z')];
    assert LAYOUT[1..][1..][1..][1..][1..] == [(2, 'Z')];
  }

  /** The text has the 20 characters of section 5.6, in its layout, exactly until the end of year 9999. */
  lemma TwentyCharacters(seconds: nat)
    ensures |Timestamp(seconds)| == 20 <==> seconds < END_OF_9999
    ensures LaidOut(Timestamp(seconds)) <==> seconds < END_OF_9999
  {
    RenderLength(Fields(seconds), LAYOUT);
    LayoutWidth();
    FieldsFit(seconds);
    if seconds < END_OF_9999 {
      RoundTrip(seconds);
      ScannedIsLaidOut(Timestamp(seconds));
    }
  }

  /** Hour, minute and second fields follow the order within a day. */
  lemma ClockAscends(a: nat, b: nat)
    requires a < b < 86400
    ensures FieldsBefore([a / 3600, a % 3600 / 60, a % 60], [b / 3600, b % 3600 / 60, b % 60])
  {
    var f, g := [a / 3600, a % 3600 / 60, a % 60], [b / 3600, b % 3600 / 60, b % 60];
    assert f[1..] == [f[1], f[2]] && f[1..][1..] == [f[2]];
    assert g[1..] == [g[1], g[2]] && g[1..][1..] == [g[2]];
  }

  lemma {:induction false} FieldsBeforeSuffix(p: seq<nat>, x: seq<nat>, y: seq<nat>)
    requires |x| == |y| && FieldsBefore(x, y)
    ensures FieldsBefore(p + x, p + y)
    decreases |p|
  {
    if p == [] {
      assert p + x == x && p + y == y;
    } else {
      assert (p + x)[1..] == p[1..] + x && (p + y)[1..] == p[1..] + y;
      FieldsBeforeSuffix(p[1..], x, y);
    }
  }

  lemma FieldsBeforeHead(h: nat, k: nat, x: seq<nat>, y: seq<nat>)
    requires |x| == |y| && (h < k || (h == k && FieldsBefore(x, y)))
    ensures FieldsBefore([h] + x, [k] + y)
  {
    assert ([h] + x)[1..] == x && ([k] + y)[1..] == y;
  }

  lemma DateFieldsAscend(a: Date, b: Date, x: seq<nat>, y: seq<nat>)
    requires DateBefore(a, b) && |x| == |y|
    requires a.year >= 0 && a.month >= 0 && a.day >= 0 && b.year >= 0 && b.month >= 0 && b.day >= 0
    ensures FieldsBefore([a.year, a.month, a.day] + x, [b.year, b.month, b.day] + y)
  {
    var days: seq<nat>, days': seq<nat> := [a.day] + x, [b.day] + y;
    var months: seq<nat>, months': seq<nat> := [a.month] + days, [b.month] + days';
    if a.year == b.year {
      if a.month == b.month {
        FieldsBeforeHead(a.day, b.day, x, y);
      }
      FieldsBeforeHead(a.month, b.month, days, days');
    }
    FieldsBeforeHead(a.year, b.year, months, months');
    assert [a.year] + months == [a.year, a.month, a.day] + x && [b.year] + months' == [b.year, b.month, b.day] + y;
  }

  lemma FieldsOfOrder(d: Date, e: Date, s: nat, t: nat)
    requires d.year >= 0 && d.month >= 0 && d.day >= 0 && e.year >= 0 && e.month >= 0 && e.day >= 0
    requires s < 86400 && t < 86400
    requires DateBefore(d, e) || (d == e && s < t)
    ensures FieldsBefore(FieldsOf(d, s), FieldsOf(e, t))
  {
    var x: seq<nat>, y: seq<nat> := [s / 3600, s % 3600 / 60, s % 60], [t / 3600, t % 3600 / 60, t % 60];
    assert FieldsOf(d, s) == [d.year, d.month, d.day] + x && FieldsOf(e, t) == [e.year, e.month, e.day] + y;
    if DateBefore(d, e) {
      DateFieldsAscend(d, e, x, y);
    } else {
      ClockAscends(s, t);
      FieldsBeforeSuffix([d.year, d.month, d.day], x, y);
    }
  }

  lemma FieldsStepped(seconds: nat) returns (date: Date)
    ensures date == DateAfter(seconds / 86400) && date.year >= 0 && date.month >= 0 && date.day >= 0
    ensures Fields(seconds) == FieldsOf(date, seconds % 86400)
  {
    CivilIsGregorian(seconds / 86400);
    DateAfterBounds(seconds / 86400);
    date := DateAfter(seconds / 86400);
  }

  lemma SteppedDatesAscend(a: nat, b: nat)
    requires a < b
    ensures DateBefore(DateAfter(a / 86400), DateAfter(b / 86400)) || (a / 86400 == b / 86400 && a % 86400 < b % 86400)
  {
    if a / 86400 < b / 86400 {
      DatesAscend(a / 86400, b / 86400);
    }
  }

  lemma FieldsAscend(a: nat, b: nat)
    requires a < b
    ensures FieldsBefore(Fields(a), Fields(b))
  {
    var d := FieldsStepped(a);
    var e := FieldsStepped(b);
    SteppedDatesAscend(a, b);
    FieldsOfOrder(d, e, a % 86400, b % 86400);
  }

  lemma {:induction false} BeforeIsAsymmetric(a: string, b: string)
    requires Before(a, b)
    ensures !Before(b, a)
    decreases |a|
  {
    if a != [] && a[0] == b[0] {
      BeforeIsAsymmetric(a[1..], b[1..]);
    }
  }

  lemma LaterSortsLater(a: nat, b: nat)
    requires a < b < END_OF_9999
    ensures Before(Timestamp(a), Timestamp(b))
  {
    FieldsFit(a);
    FieldsFit(b);
    FieldsAscend(a, b);
    RenderOrder(Fields(a), Fields(b), LAYOUT);
  }

  /** Until the end of year 9999, texts sort in the order of time, and only so. */
  lemma TextOrderIsTimeOrder(a: nat, b: nat)
    requires a < END_OF_9999 && b < END_OF_9999
    ensures Before(Timestamp(a), Timestamp(b)) <==> a < b
  {
    if a < b {
      LaterSortsLater(a, b);
    } else if Before(Timestamp(a), Timestamp(b)) {
      BeforeIsAsymmetric(Timestamp(a), Timestamp(b));
      if b < a {
        LaterSortsLater(b, a);
      }
    }
  }

  /** Why the bound is needed: the first second of year 10000 sorts before the last one of 9999. */
  lemma OrderBreaksAfter9999(end: nat)
    requires end == END_OF_9999
    ensures Before(Timestamp(end), Timestamp(end - 1))
  {
    var last := (end - 1) / 86400;
    AfterYear9999(last);
    assert Fields(end)[0] == 10000 && Fields(end - 1)[0] == 9999;
    LeadingDigits(10000, 9999);
  }

  /** The first `n` seconds of the epoch sort, as texts, in the order of time. */
  ghost predicate SortsInTime(n: nat)
  {
    forall a: nat, b: nat :: a < n && b < n ==> (Before(Timestamp(a), Timestamp(b)) <==> a < b)
  }

  /** The end of year 9999 is where that stops. */
  lemma SortsInTimeExactly(n: nat)
    ensures SortsInTime(n) <==> n <= END_OF_9999
  {
    if n <= END_OF_9999 {
      forall a: nat, b: nat | a < n && b < n ensures Before(Timestamp(a), Timestamp(b)) <==> a < b {
        TextOrderIsTimeOrder(a, b);
      }
    } else {
      OrderBreaksAfter9999(END_OF_9999);
      var a: nat, b: nat := END_OF_9999, END_OF_9999 - 1;
      assert a < n && b < n && Before(Timestamp(a), Timestamp(b)) && !(a < b);
    }
  }

  lemma LeadingDigits(n: nat, m: nat)
    requires n == 10000 && m == 9999
    ensures Padded(n, 4)[0] == '1' && Padded(m, 4)[0] == '9'
  {
    assert Padded(n / 1000, 1)[0] == '1' && Padded(m / 1000, 1)[0] == '9' by {
      assert n / 1000 / 10 == 1 && Padded(1, 0) == [Digit(1)];
    }
    assert n / 10 / 10 / 10 == n / 1000 && m / 10 / 10 / 10 == m / 1000;
  }
}
