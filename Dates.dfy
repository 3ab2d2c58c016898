/** Calendar dates and the date-fns behaviour the dashboard relies on: `parse` of a
    string against one numeric format pattern, `isValid`, trying an ordered list
    of patterns until one gives a valid date, and `format` into the `yyyy-MM`,
    `yyyy` and `MMM yyyy` bucket keys. */
module Dates {
  import opened Wrappers
  import opened JsText

  datatype CalendarDate = CalendarDate(year: nat, month: nat, day: nat, hour: nat, minute: nat, second: nat)

  predicate IsLeapYear(y: nat)
  {
    y % 4 == 0 && (y % 100 != 0 || y % 400 == 0)
  }

  function DaysInMonth(year: nat, month: nat): nat
    requires 1 <= month <= 12
  {
    if month == 2 then (if IsLeapYear(year) then 29 else 28)
    else if month == 4 || month == 6 || month == 9 || month == 11 then 30
    else 31
  }

  /** A real calendar date and time of day; `isValid` holds of it. Years are those a
      four-digit `yyyy` can spell, 1 to 9999. */
  predicate ValidDate(d: CalendarDate)
  {
    1 <= d.year <= 9999 && 1 <= d.month <= 12 && 1 <= d.day <= DaysInMonth(d.year, d.month)
    && d.hour < 24 && d.minute < 60 && d.second < 60
  }

  // ---------------------------------------------------------------------------
  // Format patterns
  // ---------------------------------------------------------------------------

  /** The numeric date-fns tokens the dashboard's patterns use. */
  datatype Numeric =
    | Year     // yyyy
    | Month2   // MM
    | Month1   // M
    | Day2     // dd
    | Day1     // d
    | Hour24   // HH
    | Hour12   // hh
    | Minute   // mm
    | Second   // ss

  /** One token of a pattern: a literal character (the letter T is quoted in the
      pattern text), a number, or the AM/PM marker `a`. */
  datatype Token = Lit(c: char) | Num(field: Numeric) | DayPeriod

  type Format = seq<Token>

  const DdMmYyyy: Format := [Num(Day2), Lit('/'), Num(Month2), Lit('/'), Num(Year)]           // dd/MM/yyyy
  const DdMmYyyyDash: Format := [Num(Day2), Lit('-'), Num(Month2), Lit('-'), Num(Year)]       // dd-MM-yyyy
  const DMYyyy: Format := [Num(Day1), Lit('/'), Num(Month1), Lit('/'), Num(Year)]             // d/M/yyyy
  const MmDdYyyy: Format := [Num(Month2), Lit('/'), Num(Day2), Lit('/'), Num(Year)]           // MM/dd/yyyy
  const MmDdYyyyDash: Format := [Num(Month2), Lit('-'), Num(Day2), Lit('-'), Num(Year)]       // MM-dd-yyyy
  const MDYyyy: Format := [Num(Month1), Lit('/'), Num(Day1), Lit('/'), Num(Year)]             // M/d/yyyy
  const YyyyMmDdSlash: Format := [Num(Year), Lit('/'), Num(Month2), Lit('/'), Num(Day2)]      // yyyy/MM/dd
  const YyyyMmDd: Format := [Num(Year), Lit('-'), Num(Month2), Lit('-'), Num(Day2)]           // yyyy-MM-dd
  const YyyyMD: Format := [Num(Year), Lit('/'), Num(Month1), Lit('/'), Num(Day1)]             // yyyy/M/d
  const DdMmYyyyTime: Format :=                                                               // dd/MM/yyyy HH:mm:ss
    DdMmYyyy + [Lit(' '), Num(Hour24), Lit(':'), Num(Minute), Lit(':'), Num(Second)]
  const MmDdYyyyTime12: Format :=                                                             // MM/dd/yyyy hh:mm:ss a
    MmDdYyyy + [Lit(' '), Num(Hour12), Lit(':'), Num(Minute), Lit(':'), Num(Second), Lit(' '), DayPeriod]
  const YyyyMmDdTime: Format :=                                                               // yyyy-MM-dd'T'HH:mm:ss
    YyyyMmDd + [Lit('T'), Num(Hour24), Lit(':'), Num(Minute), Lit(':'), Num(Second)]

  /** The candidate formats of `processDataForCharts`, in the order they are tried:
      day-first, then month-first, then year-first, then with a time of day. */
  const DateFormats: seq<Format> := [
    DdMmYyyy, DdMmYyyyDash, DMYyyy,
    MmDdYyyy, MmDdYyyyDash, MDYyyy,
    YyyyMmDdSlash, YyyyMmDd, YyyyMD,
    DdMmYyyyTime, MmDdYyyyTime12, YyyyMmDdTime]

  // ---------------------------------------------------------------------------
  // parse: matching one format
  // ---------------------------------------------------------------------------

  /** The fields read so far. Before a format sets them: 1 January 1970, midnight. */
  datatype Fields = Fields(year: nat, month: nat, day: nat, hour: nat, minute: nat, second: nat,
                           pm: Option<bool>)

  const NoFields := Fields(1970, 1, 1, 0, 0, 0, None)

  /** How many characters a numeric token takes from the front of `s` (0: no match).
      `yyyy` takes up to four digits and the doubled tokens up to two; `M` and `d`
      take what the patterns `1[0-2]|0?\d` and `3[0-1]|[0-2]?\d` match. */
  function NumberWidth(t: Numeric, s: string): (n: nat)
    ensures n <= |s| && AllDigits(s[..n])
  {
    var run := DigitRun(s);
    assert forall k :: 0 <= k <= run ==> AllDigits(s[..k]) by {
      forall k, i | 0 <= k <= run && 0 <= i < k ensures IsDigit(s[..k][i]) {
        assert s[..k][i] == s[..run][i];
      }
    }
    match t
    case Year => if run < 4 then run else 4
    case Month1 =>
      if run >= 2 && (s[0] == '0' || (s[0] == '1' && s[1] <= '2')) then 2
      else if run >= 1 then 1 else 0
    case Day1 =>
      if run >= 2 && (s[0] <= '2' || (s[0] == '3' && s[1] <= '1')) then 2
      else if run >= 1 then 1 else 0
    case _ => if run < 2 then run else 2
  }

  /** The values date-fns accepts for a numeric token. */
  predicate InRange(t: Numeric, v: nat)
  {
    match t
    case Year => 1 <= v
    case Month2 => 1 <= v <= 12
    case Month1 => 1 <= v <= 12
    case Day2 => 1 <= v <= 31
    case Day1 => 1 <= v <= 31
    case Hour24 => v <= 23
    case Hour12 => 1 <= v <= 12
    case Minute => v <= 59
    case Second => v <= 59
  }

  function SetField(f: Fields, t: Numeric, v: nat): Fields
  {
    match t
    case Year => f.(year := v)
    case Month2 => f.(month := v)
    case Month1 => f.(month := v)
    case Day2 => f.(day := v)
    case Day1 => f.(day := v)
    case Hour24 => f.(hour := v)
    case Hour12 => f.(hour := v)
    case Minute => f.(minute := v)
    case Second => f.(second := v)
  }

  /** Reads `s` token by token. Every token must match, every number must be in its
      range, and nothing may be left over. */
  function MatchTokens(s: string, toks: Format, f: Fields): Option<Fields>
    decreases |toks|
  {
    if toks == [] then (if s == [] then Some(f) else None)
    else
      match toks[0]
      case Lit(c) =>
        if s != [] && s[0] == c then MatchTokens(s[1..], toks[1..], f) else None
      case DayPeriod =>
        if |s| >= 2 && (s[..2] == "AM" || s[..2] == "am") then MatchTokens(s[2..], toks[1..], f.(pm := Some(false)))
        else if |s| >= 2 && (s[..2] == "PM" || s[..2] == "pm") then MatchTokens(s[2..], toks[1..], f.(pm := Some(true)))
        else None
      case Num(t) =>
        var n := NumberWidth(t, s);
        var v := DigitsValue(s[..n]);
        if n == 0 || !InRange(t, v) then None
        else MatchTokens(s[n..], toks[1..], SetField(f, t, v))
  }

  /** The hour of the day: with `a`, `hh` is 12 for midnight and for noon. */
  function HourOfDay(f: Fields): nat
  {
    if f.pm == Some(true) then f.hour % 12 + 12
    else if f.pm == Some(false) then f.hour % 12
    else f.hour
  }

  function DateOf(f: Fields): CalendarDate
  {
    CalendarDate(f.year, f.month, f.day, HourOfDay(f), f.minute, f.second)
  }

  /** `isValid(parse(s, pattern, referenceDate))`: the date `s` spells in the pattern,
      or `None` when it does not match the whole string or is not a calendar date
      (the day must exist in the month and year read). */
  function Parse(s: string, fmt: Format): (r: Option<CalendarDate>)
    ensures r.Some? ==> ValidDate(r.value)
  {
    var m := MatchTokens(s, fmt, NoFields);
    if m.Some? && ValidDate(DateOf(m.value)) then Some(DateOf(m.value)) else None
  }

  // ---------------------------------------------------------------------------
  // format: writing a date in a pattern
  // ---------------------------------------------------------------------------

  /** `hh`: the hour on a 12-hour clock, 12 for midnight and noon. */
  function Hour12Of(hour: nat): nat
  {
    if hour % 12 == 0 then 12 else hour % 12
  }

  /** The number a numeric token writes for `d`. */
  function FieldValue(t: Numeric, d: CalendarDate): nat
  {
    match t
    case Year => d.year
    case Month2 => d.month
    case Month1 => d.month
    case Day2 => d.day
    case Day1 => d.day
    case Hour24 => d.hour
    case Hour12 => Hour12Of(d.hour)
    case Minute => d.minute
    case Second => d.second
  }

  /** The minimum number of digits a numeric token writes. */
  function PadWidth(t: Numeric): nat
  {
    match t
    case Year => 4
    case Month1 => 1
    case Day1 => 1
    case _ => 2
  }

  function TokenOut(d: CalendarDate, t: Token): string
  {
    match t
    case Lit(c) => [c]
    case Num(n) => ZeroPad(FieldValue(n, d), PadWidth(n))
    case DayPeriod => if d.hour < 12 then "AM" else "PM"
  }

  /** `format(date, pattern)` in the en-US locale. */
  function Render(d: CalendarDate, fmt: Format): string
  {
    if fmt == [] then "" else TokenOut(d, fmt[0]) + Render(d, fmt[1..])
  }

  /** A pattern date-fns can read back: no number is directly followed by a digit. */
  predicate Separated(fmt: Format)
  {
    forall i :: 0 <= i < |fmt| - 1 && fmt[i].Num? ==>
      fmt[i + 1].DayPeriod? || (fmt[i + 1].Lit? && !IsDigit(fmt[i + 1].c))
  }

  /** What reading `Render(d, fmt)` with `fmt` stores. */
  function Fill(f: Fields, fmt: Format, d: CalendarDate): Fields
    decreases |fmt|
  {
    if fmt == [] then f
    else
      var g := match fmt[0]
        case Lit(_) => f
        case DayPeriod => f.(pm := Some(d.hour >= 12))
        case Num(t) => SetField(f, t, FieldValue(t, d));
      Fill(g, fmt[1..], d)
  }

  /** How many characters a numeric token takes when reading the text it wrote. */
  lemma NumberWidthOut(t: Numeric, d: CalendarDate, rest: string)
    requires ValidDate(d)
    requires rest == [] || !IsDigit(rest[0])
    ensures var out := ZeroPad(FieldValue(t, d), PadWidth(t));
            NumberWidth(t, out + rest) == |out| && InRange(t, DigitsValue(out))
  {
    var v := FieldValue(t, d);
    var out := ZeroPad(v, PadWidth(t));
    var s := out + rest;
    DigitRunOfDigits(out, rest);
    if t == Year {
      assert Pow10(4) == 10000;
      ZeroPadWidth(v, 4);
    } else if t == Month1 || t == Day1 {
      assert v < 100;
      if v < 10 {
        assert |out| == 1;
      } else {
        var front := ZeroPad(v / 10, 0);
        assert out == front + [DigitChar(v % 10)];
        assert |front| == 1;
        assert s[0] == front[0] && s[1] == DigitChar(v % 10);
        assert DigitsValue(front) == DigitValue(front[0]) by {
          assert front[..0] == [];
        }
      }
    } else {
      assert Pow10(2) == 100;
      ZeroPadWidth(v, 2);
    }
  }

  /** What reading one token stores. */
  function FillToken(f: Fields, tok: Token, d: CalendarDate): Fields
  {
    match tok
    case Lit(_) => f
    case DayPeriod => f.(pm := Some(d.hour >= 12))
    case Num(t) => SetField(f, t, FieldValue(t, d))
  }

  /** Reading the text one token wrote: a number must not run on into a digit. */
  lemma TokenRest(d: CalendarDate, tok: Token, toks: Format, f: Fields, rest: string)
    requires ValidDate(d)
    requires tok.Num? ==> rest == [] || !IsDigit(rest[0])
    ensures MatchTokens(TokenOut(d, tok) + rest, [tok] + toks, f) == MatchTokens(rest, toks, FillToken(f, tok, d))
  {
    var out := TokenOut(d, tok);
    assert ([tok] + toks)[0] == tok && ([tok] + toks)[1..] == toks;
    match tok
    case Lit(c) =>
      assert (out + rest)[1..] == rest;
    case DayPeriod =>
      assert (out + rest)[..2] == out && (out + rest)[2..] == rest;
    case Num(n) =>
      NumberWidthOut(n, d, rest);
      assert (out + rest)[..|out|] == out && (out + rest)[|out|..] == rest;
  }

  lemma SeparatedTail(fmt: Format)
    requires fmt != [] && Separated(fmt)
    ensures Separated(fmt[1..])
  {
    forall i | 0 <= i < |fmt[1..]| - 1 && fmt[1..][i].Num?
      ensures fmt[1..][i + 1].DayPeriod? || (fmt[1..][i + 1].Lit? && !IsDigit(fmt[1..][i + 1].c))
    {
      assert fmt[1..][i] == fmt[i + 1] && fmt[1..][i + 1] == fmt[i + 2];
    }
  }

  /** After a number, a separated pattern writes no digit next. */
  lemma NoDigitAfterNumber(d: CalendarDate, fmt: Format, t: string)
    requires |fmt| > 1 && Separated(fmt) && fmt[0].Num?
    ensures var r := Render(d, fmt[1..]) + t; r == [] || !IsDigit(r[0])
  {
    assert Render(d, fmt[1..]) == TokenOut(d, fmt[1]) + Render(d, fmt[2..]);
    assert fmt[1].DayPeriod? || (fmt[1].Lit? && !IsDigit(fmt[1].c));
  }

  /** Every separated pattern reads back what it wrote, and only when nothing follows
      it: text after the rendered date that does not continue its last number is
      left over, and the whole match fails. */
  lemma {:induction false} MatchRenderRest(d: CalendarDate, fmt: Format, f: Fields, t: string)
    requires ValidDate(d) && Separated(fmt)
    requires t == [] || !IsDigit(t[0])
    ensures MatchTokens(Render(d, fmt) + t, fmt, f) == if t == [] then Some(Fill(f, fmt, d)) else None
    decreases |fmt|
  {
    if fmt == [] {
      assert Render(d, fmt) + t == t;
    } else {
      var rest := Render(d, fmt[1..]) + t;
      SeparatedTail(fmt);
      if |fmt| > 1 && fmt[0].Num? {
        NoDigitAfterNumber(d, fmt, t);
      }
      assert Render(d, fmt) + t == TokenOut(d, fmt[0]) + rest;
      assert fmt == [fmt[0]] + fmt[1..];
      TokenRest(d, fmt[0], fmt[1..], f, rest);
      MatchRenderRest(d, fmt[1..], FillToken(f, fmt[0], d), t);
    }
  }

  /** Every separated pattern reads back what it wrote. */
  lemma MatchRender(d: CalendarDate, fmt: Format, f: Fields)
    requires ValidDate(d) && Separated(fmt)
    ensures MatchTokens(Render(d, fmt), fmt, f) == Some(Fill(f, fmt, d))
  {
    MatchRenderRest(d, fmt, f, []);
    assert Render(d, fmt) + [] == Render(d, fmt);
  }

  /** A format reads only the whole text: a valid date followed by anything that does
      not continue its last number is rejected. */
  lemma TrailingTextRejected(d: CalendarDate, fmt: Format, t: string)
    requires ValidDate(d) && Separated(fmt)
    requires t != [] && !IsDigit(t[0])
    ensures Parse(Render(d, fmt) + t, fmt) == None
  {
    MatchRenderRest(d, fmt, NoFields, t);
  }

  /** The fields a pattern fills recover the whole date. */
  predicate Recovers(fmt: Format, d: CalendarDate)
  {
    DateOf(Fill(NoFields, fmt, d)) == d
  }

  /** Round trip: reading what `format` wrote gives the date back, whenever the
      pattern is separated and carries every field of the date. */
  lemma ParseRender(d: CalendarDate, fmt: Format)
    requires ValidDate(d) && Separated(fmt) && Recovers(fmt, d)
    ensures Parse(Render(d, fmt), fmt) == Some(d)
  {
    MatchRender(d, fmt, NoFields);
  }

  lemma {:induction false} FillAppend(f: Fields, a: Format, b: Format, d: CalendarDate)
    ensures Fill(f, a + b, d) == Fill(Fill(f, a, d), b, d)
    decreases |a|
  {
    if a == [] {
      assert a + b == b;
    } else {
      assert (a + b)[0] == a[0] && (a + b)[1..] == a[1..] + b;
      FillAppend(match a[0]
        case Lit(_) => f
        case DayPeriod => f.(pm := Some(d.hour >= 12))
        case Num(t) => SetField(f, t, FieldValue(t, d)), a[1..], b, d);
    }
  }

  /** The date-only patterns fill the year, month and day of any date. */
  lemma DateOnlyFill(d: CalendarDate, k: nat)
    requires k < 9
    ensures var f := Fill(NoFields, DateFormats[k], d);
            f.year == d.year && f.month == d.month && f.day == d.day && f == NoFields.(year := d.year, month := d.month, day := d.day)
  {
    var fmt := DateFormats[k];
    assert fmt == [fmt[0], fmt[1], fmt[2], fmt[3], fmt[4]];
    FillThree(d, fmt[0], fmt[1], fmt[2], fmt[3], fmt[4]);
  }

  /** What a pattern of three numbers and two separators stores. */
  lemma FillThree(d: CalendarDate, a: Token, s1: Token, b: Token, s2: Token, c: Token)
    requires a.Num? && s1.Lit? && b.Num? && s2.Lit? && c.Num?
    ensures Fill(NoFields, [a, s1, b, s2, c], d)
         == SetField(SetField(SetField(NoFields, a.field, FieldValue(a.field, d)), b.field, FieldValue(b.field, d)),
                     c.field, FieldValue(c.field, d))
  {
    var fmt := [a, s1, b, s2, c];
    var g1 := SetField(NoFields, a.field, FieldValue(a.field, d));
    var g2 := SetField(g1, b.field, FieldValue(b.field, d));
    var g3 := SetField(g2, c.field, FieldValue(c.field, d));
    assert Fill(g2, fmt[4..], d) == g3;
    assert Fill(g2, fmt[3..], d) == g3;
    assert Fill(g1, fmt[2..], d) == g3;
    assert Fill(g1, fmt[1..], d) == g3;
  }

  /** The patterns with a time of day fill every field of any date. */
  lemma TimeFill(d: CalendarDate, k: nat)
    requires ValidDate(d) && 9 <= k < 12
    ensures DateOf(Fill(NoFields, DateFormats[k], d)) == d
  {
    var j := [0, 3, 7][k - 9];
    var time := DateFormats[k][5..];
    assert DateFormats[k] == DateFormats[j] + time;
    FillAppend(NoFields, DateFormats[j], time, d);
    DateOnlyFill(d, j);
    ClockFill(d, k);
  }

  /** The time part of a pattern fills the hour, minute and second. */
  lemma ClockFill(d: CalendarDate, k: nat)
    requires ValidDate(d) && 9 <= k < 12
    ensures var g := NoFields.(year := d.year, month := d.month, day := d.day);
            DateOf(Fill(g, DateFormats[k][5..], d)) == d
  {
    var g := NoFields.(year := d.year, month := d.month, day := d.day);
    if k == 9 {
      assert DateFormats[k][5..] == [Lit(' '), Num(Hour24), Lit(':'), Num(Minute), Lit(':'), Num(Second)];
      assert Fill(g, [Lit(' '), Num(Hour24), Lit(':'), Num(Minute), Lit(':'), Num(Second)], d)
          == g.(hour := d.hour, minute := d.minute, second := d.second);
    } else if k == 10 {
      Clock12Fill(d, g);
    } else {
      assert DateFormats[k][5..] == [Lit('T'), Num(Hour24), Lit(':'), Num(Minute), Lit(':'), Num(Second)];
      assert Fill(g, [Lit('T'), Num(Hour24), Lit(':'), Num(Minute), Lit(':'), Num(Second)], d)
          == g.(hour := d.hour, minute := d.minute, second := d.second);
    }
  }

  /** ` hh:mm:ss a` */
  lemma Clock12Fill(d: CalendarDate, g: Fields)
    requires ValidDate(d) && g == NoFields.(year := d.year, month := d.month, day := d.day)
    ensures DateOf(Fill(g, DateFormats[10][5..], d)) == d
  {
    var clock := [Lit(' '), Num(Hour12), Lit(':'), Num(Minute)];
    var rest := [Lit(':'), Num(Second), Lit(' '), DayPeriod];
    assert DateFormats[10][5..] == clock + rest;
    FillAppend(g, clock, rest, d);
    var g2 := g.(hour := Hour12Of(d.hour), minute := d.minute);
    assert Fill(g, clock, d) == g2;
    assert Fill(g2, rest, d) == g2.(second := d.second, pm := Some(d.hour >= 12));
    Hour12Round(d.hour);
  }

  lemma Hour12Round(h: nat)
    requires h < 24
    ensures Hour12Of(h) % 12 + (if h >= 12 then 12 else 0) == h
  {
    if h >= 12 {
      assert h % 12 == h - 12;
    } else {
      assert h % 12 == h;
    }
  }

  /** No number of the twelve patterns is directly followed by a digit. */
  lemma DateFormatsSeparated(k: nat)
    requires k < 12
    ensures Separated(DateFormats[k])
  {
    if k < 9 {
      var f := DateFormats[k];
      assert f == [f[0], f[1], f[2], f[3], f[4]];
      SeparatedThree(f[0], f[1], f[2], f[3], f[4]);
    } else {
      var time := DateFormats[k][5..];
      SeparatedTime(k);
      SeparatedThree(DateFormats[k][0], DateFormats[k][1], DateFormats[k][2], DateFormats[k][3], DateFormats[k][4]);
      assert DateFormats[k] == DateFormats[k][..5] + time;
      assert DateFormats[k][..5] == [DateFormats[k][0], DateFormats[k][1], DateFormats[k][2], DateFormats[k][3], DateFormats[k][4]];
      SeparatedAppend(DateFormats[k][..5], time);
    }
  }

  lemma SeparatedThree(a: Token, s1: Token, b: Token, s2: Token, c: Token)
    requires s1.Lit? && !IsDigit(s1.c) && s2.Lit? && !IsDigit(s2.c)
    requires a.Num? && b.Num? && c.Num?
    ensures Separated([a, s1, b, s2, c])
  {
  }

  lemma SeparatedTime(k: nat)
    requires 9 <= k < 12
    ensures Separated(DateFormats[k][5..]) && DateFormats[k][5].Lit? && !IsDigit(DateFormats[k][5].c)
  {
  }

  lemma SeparatedAppend(f: Format, g: Format)
    requires Separated(f) && Separated(g) && g != [] && g[0].Lit? && !IsDigit(g[0].c)
    ensures Separated(f + g)
  {
    forall i | 0 <= i < |f + g| - 1 && (f + g)[i].Num?
      ensures (f + g)[i + 1].DayPeriod? || ((f + g)[i + 1].Lit? && !IsDigit((f + g)[i + 1].c))
    {
      if i >= |f| {
        assert (f + g)[i] == g[i - |f|] && (f + g)[i + 1] == g[i + 1 - |f|];
      } else if i + 1 < |f| {
        assert (f + g)[i] == f[i] && (f + g)[i + 1] == f[i + 1];
      } else {
        assert (f + g)[i + 1] == g[0];
      }
    }
  }

  /** The twelve patterns of the dashboard are all separated; the date-only ones carry
      every field of a date at midnight, the others every field of any date. */
  lemma DateFormatsRecover(d: CalendarDate, k: nat)
    requires ValidDate(d) && k < 12
    requires k < 9 ==> d.hour == 0 && d.minute == 0 && d.second == 0
    ensures Separated(DateFormats[k]) && Recovers(DateFormats[k], d)
  {
    DateFormatsSeparated(k);
    if k < 9 {
      DateOnlyFill(d, k);
    } else {
      TimeFill(d, k);
    }
  }

  // ---------------------------------------------------------------------------
  // Trying the formats in order
  // ---------------------------------------------------------------------------

  /** The date of the first format that gives a valid date, or `None`. */
  function FirstMatch(s: string, formats: seq<Format>): (r: Option<CalendarDate>)
    ensures r.Some? ==> ValidDate(r.value)
  {
    if formats == [] then None
    else
      var d := Parse(s, formats[0]);
      if d.Some? then d else FirstMatch(s, formats[1..])
  }

  /** When the formats before `k` all fail and format `k` succeeds, its date wins. */
  lemma {:induction false} FirstMatchAt(s: string, formats: seq<Format>, k: nat)
    requires k < |formats|
    requires forall j :: 0 <= j < k ==> Parse(s, formats[j]).None?
    requires Parse(s, formats[k]).Some?
    ensures FirstMatch(s, formats) == Parse(s, formats[k])
  {
    if k > 0 {
      assert Parse(s, formats[0]).None?;
      FirstMatchAt(s, formats[1..], k - 1);
    }
  }

  /** When every format fails there is no date. */
  lemma {:induction false} FirstMatchNone(s: string, formats: seq<Format>)
    requires forall j :: 0 <= j < |formats| ==> Parse(s, formats[j]).None?
    ensures FirstMatch(s, formats) == None
  {
    if formats != [] {
      FirstMatchNone(s, formats[1..]);
    }
  }

  /** First match wins: a date is found exactly when some format succeeds, and it is
      the date of the first such format. */
  lemma {:induction false} FirstMatchIsFirst(s: string, formats: seq<Format>)
    ensures FirstMatch(s, formats).None? <==> forall j :: 0 <= j < |formats| ==> Parse(s, formats[j]).None?
    ensures FirstMatch(s, formats).Some? ==>
              exists k :: 0 <= k < |formats| && FirstMatch(s, formats) == Parse(s, formats[k])
                          && forall j :: 0 <= j < k ==> Parse(s, formats[j]).None?
  {
    if formats != [] {
      FirstMatchIsFirst(s, formats[1..]);
      if Parse(s, formats[0]).None? && FirstMatch(s, formats[1..]).Some? {
        var k :| 0 <= k < |formats[1..]| && FirstMatch(s, formats[1..]) == Parse(s, formats[1..][k])
                 && forall j :: 0 <= j < k ==> Parse(s, formats[1..][j]).None?;
        assert FirstMatch(s, formats) == Parse(s, formats[k + 1]);
        assert forall j :: 0 <= j < k + 1 ==> Parse(s, formats[j]).None? by {
          forall j | 0 <= j < k + 1 ensures Parse(s, formats[j]).None? {
            if j > 0 { assert formats[j] == formats[1..][j - 1]; }
          }
        }
      }
      if forall j :: 1 <= j < |formats| ==> Parse(s, formats[j]).None? {
        assert forall j :: 0 <= j < |formats[1..]| ==> Parse(s, formats[1..][j]).None?;
      }
      if FirstMatch(s, formats).None? {
        assert forall j :: 0 <= j < |formats| ==> Parse(s, formats[j]).None? by {
          forall j | 0 <= j < |formats| ensures Parse(s, formats[j]).None? {
            if j > 0 { assert formats[j] == formats[1..][j - 1]; }
          }
        }
      }
    }
  }

  // ---------------------------------------------------------------------------
  // Which format reads a string
  // ---------------------------------------------------------------------------

  /** Two-digit zero padding writes the tens digit, then the units digit. */
  lemma TwoDigits(v: nat)
    requires v < 100
    ensures ZeroPad(v, 2) == [DigitChar(v / 10), DigitChar(v % 10)]
  {
  }

  lemma DigitRunPrefix(s: string, i: nat)
    requires i < DigitRun(s)
    ensures IsDigit(s[i])
  {
    assert s[..DigitRun(s)][i] == s[i];
  }

  /** A token of at most two digits cannot be followed by a literal when three
      digits lead the text. */
  lemma {:induction false} ShortNumberThenLit(t: Numeric, s: string, c: char, toks: Format, f: Fields)
    requires t != Year && !IsDigit(c) && DigitRun(s) >= 3
    ensures MatchTokens(s, [Num(t), Lit(c)] + toks, f) == None
  {
    var fmt := [Num(t), Lit(c)] + toks;
    assert fmt[0] == Num(t) && fmt[1..] == [Lit(c)] + toks;
    var n := NumberWidth(t, s);
    assert n <= 2;
    DigitRunPrefix(s, n);
    assert s[n..][0] == s[n];
  }

  /** `yyyy` followed by a literal that is not the character after four digits. */
  lemma {:induction false} YearThenLit(s: string, c: char, toks: Format, f: Fields)
    requires DigitRun(s) == 4 && |s| > 4 && s[4] != c
    ensures MatchTokens(s, [Num(Year), Lit(c)] + toks, f) == None
  {
    var fmt := [Num(Year), Lit(c)] + toks;
    assert fmt[0] == Num(Year) && fmt[1..] == [Lit(c)] + toks;
    assert s[4..][0] == s[4];
  }

  /** What a pattern of three numbers and two separators writes. */
  lemma RenderThree(d: CalendarDate, a: Numeric, sep: char, b: Numeric, c: Numeric)
    ensures Render(d, [Num(a), Lit(sep), Num(b), Lit(sep), Num(c)])
         == TokenOut(d, Num(a)) + ([sep] + (TokenOut(d, Num(b)) + ([sep] + TokenOut(d, Num(c)))))
  {
    var fmt := [Num(a), Lit(sep), Num(b), Lit(sep), Num(c)];
    assert Render(d, fmt[4..]) == TokenOut(d, Num(c));
    assert Render(d, fmt[3..]) == [sep] + TokenOut(d, Num(c));
    assert Render(d, fmt[2..]) == TokenOut(d, Num(b)) + ([sep] + TokenOut(d, Num(c)));
    assert Render(d, fmt[1..]) == [sep] + (TokenOut(d, Num(b)) + ([sep] + TokenOut(d, Num(c))));
  }


  /** Writing three parts and two separators, grouped either way. */
  lemma Regroup(a: string, s: char, b: string, t: char, c: string)
    ensures a + ([s] + (b + ([t] + c))) == a + [s] + b + [t] + c
  {
  }

  /** A date at midnight written day-first is read day-first: the first format wins,
      whether or not the day could also be a month. */
  lemma {:induction false} DayFirstWins(d: CalendarDate)
    requires ValidDate(d) && d.hour == 0 && d.minute == 0 && d.second == 0
    ensures FirstMatch(Render(d, DdMmYyyy), DateFormats) == Some(d)
  {
    assert DateFormats[0] == DdMmYyyy;
    DateFormatsRecover(d, 0);
    ParseRender(d, DdMmYyyy);
  }

  /** A month-first string whose first number is at most 12 is read day-first: the
      day and month swap. */
  lemma {:induction false} AmbiguousReadsDayFirst(d: CalendarDate)
    requires ValidDate(d) && d.hour == 0 && d.minute == 0 && d.second == 0 && d.day <= 12
    ensures FirstMatch(Render(d, MmDdYyyy), DateFormats) == Some(CalendarDate(d.year, d.day, d.month, 0, 0, 0))
  {
    var e := CalendarDate(d.year, d.day, d.month, 0, 0, 0);
    assert ValidDate(e) by {
      assert DaysInMonth(e.year, e.month) >= 28;
    }
    SwappedText(d, e);
    DayFirstWins(e);
  }

  /** `MM/dd/yyyy` of a date writes what `dd/MM/yyyy` writes for the date with day
      and month swapped. */
  lemma SwappedText(d: CalendarDate, e: CalendarDate)
    requires e.year == d.year && e.month == d.day && e.day == d.month
    ensures Render(d, MmDdYyyy) == Render(e, DdMmYyyy)
  {
    RenderThree(d, Month2, '/', Day2, Year);
    RenderThree(e, Day2, '/', Month2, Year);
    assert TokenOut(d, Num(Month2)) == TokenOut(e, Num(Day2));
    assert TokenOut(d, Num(Day2)) == TokenOut(e, Num(Month2));
    assert TokenOut(d, Num(Year)) == TokenOut(e, Num(Year));
  }

  /** The text `MM/dd/yyyy` writes, digit by digit. */
  lemma {:induction false} MonthFirstText(d: CalendarDate)
    requires ValidDate(d)
    ensures Render(d, MmDdYyyy)
         == [DigitChar(d.month / 10), DigitChar(d.month % 10)]
            + (['/'] + ([DigitChar(d.day / 10), DigitChar(d.day % 10)] + (['/'] + ZeroPad(d.year, 4))))
  {
    RenderThree(d, Month2, '/', Day2, Year);
    TwoDigits(d.month);
    TwoDigits(d.day);
  }

  /** Reading one number: the token takes `NumberWidth` characters. */
  lemma NumStep(t: Numeric, s: string, toks: Format, f: Fields)
    ensures var n := NumberWidth(t, s);
            MatchTokens(s, [Num(t)] + toks, f)
            == if n == 0 || !InRange(t, DigitsValue(s[..n])) then None
               else MatchTokens(s[n..], toks, SetField(f, t, DigitsValue(s[..n])))
  {
    assert ([Num(t)] + toks)[0] == Num(t) && ([Num(t)] + toks)[1..] == toks;
  }

  /** Reading one literal character. */
  lemma LitStep(c: char, s: string, toks: Format, f: Fields)
    ensures MatchTokens(s, [Lit(c)] + toks, f)
            == if s != [] && s[0] == c then MatchTokens(s[1..], toks, f) else None
  {
    assert ([Lit(c)] + toks)[0] == Lit(c) && ([Lit(c)] + toks)[1..] == toks;
  }

  /** Two digits followed by a non-digit: a number token of width two reads both. */
  lemma TwoDigitRun(x: char, y: char, rest: string)
    requires IsDigit(x) && IsDigit(y) && (rest == [] || !IsDigit(rest[0]))
    ensures DigitRun([x, y] + rest) == 2
    ensures ([x, y] + rest)[..2] == [x, y] && ([x, y] + rest)[2..] == rest
    ensures DigitsValue([x, y]) == DigitValue(x) * 10 + DigitValue(y)
  {
    DigitRunOfDigits([x, y], rest);
    assert [x, y][..1] == [x] && [x][..0] == [];
    assert DigitsValue([x]) == DigitValue(x);
    assert ([x, y] + rest)[..2] == [x, y];
  }

  /** `MM/dd/yyyy` text, with the day above 12, is not a `dd/MM/yyyy` date. */
  lemma {:induction false} MonthFirstNotDdMm(d: CalendarDate, sep: char)
    requires ValidDate(d) && d.day > 12 && (sep == '/' || sep == '-')
    ensures MatchTokens(Render(d, MmDdYyyy), [Num(Day2), Lit(sep), Num(Month2), Lit(sep), Num(Year)], NoFields) == None
  {
    MonthFirstText(d);
    var m1, m2 := DigitChar(d.month / 10), DigitChar(d.month % 10);
    var d1, d2 := DigitChar(d.day / 10), DigitChar(d.day % 10);
    var rest := ['/'] + ZeroPad(d.year, 4);
    DayThenSep(m1, m2, [d1, d2] + rest, sep);
    if sep == '/' {
      MonthAboveTwelve(d.day, rest, sep, SetField(NoFields, Day2, DigitsValue([m1, m2])));
    }
  }

  /** `dd` and a separator on two digits and a slash: unless the number is out of
      range, the pattern goes on after the slash when the separator is a slash,
      and fails otherwise. */
  lemma {:induction false} DayThenSep(x: char, y: char, u: string, sep: char)
    requires IsDigit(x) && IsDigit(y)
    ensures var r := MatchTokens([x, y] + (['/'] + u), [Num(Day2), Lit(sep), Num(Month2), Lit(sep), Num(Year)], NoFields);
            r == None
            || (sep == '/' && r == MatchTokens(u, [Num(Month2), Lit(sep), Num(Year)], SetField(NoFields, Day2, DigitsValue([x, y]))))
  {
    var tail := ['/'] + u;
    TwoDigitRun(x, y, tail);
    NumStep(Day2, [x, y] + tail, [Lit(sep), Num(Month2), Lit(sep), Num(Year)], NoFields);
    LitStep(sep, tail, [Num(Month2), Lit(sep), Num(Year)], SetField(NoFields, Day2, DigitsValue([x, y])));
  }

  /** `MM` on the two digits of a day from 13 on: not a month. */
  lemma {:induction false} MonthAboveTwelve(v: nat, rest: string, sep: char, g: Fields)
    requires 12 < v < 100 && (rest == [] || !IsDigit(rest[0]))
    ensures MatchTokens([DigitChar(v / 10), DigitChar(v % 10)] + rest, [Num(Month2), Lit(sep), Num(Year)], g) == None
  {
    var x, y := DigitChar(v / 10), DigitChar(v % 10);
    TwoDigitRun(x, y, rest);
    assert DigitValue(x) * 10 + DigitValue(y) == v;
    NumStep(Month2, [x, y] + rest, [Lit(sep), Num(Year)], g);
  }

  /** `MM/dd/yyyy` text, with the day above 12, is not a `d/M/yyyy` date: `M` takes
      the first digit of the day and a digit follows instead of a slash. */
  lemma {:induction false} MonthFirstNotDMY(d: CalendarDate)
    requires ValidDate(d) && d.day > 12
    ensures MatchTokens(Render(d, MmDdYyyy), DMYyyy, NoFields) == None
  {
    MonthFirstText(d);
    var m1, m2 := DigitChar(d.month / 10), DigitChar(d.month % 10);
    var d1, d2 := DigitChar(d.day / 10), DigitChar(d.day % 10);
    var rest := ['/'] + ZeroPad(d.year, 4);
    DayOfTwoDigits(m1, m2, [d1, d2] + rest);
    DayAboveTwelve(d.day);
    MonthStopsBeforeDigit(d1, d2, rest, SetField(NoFields, Day1, DigitsValue([m1, m2])));
  }

  /** `d/` of `d/M/yyyy` on two digits that start with at most `2`: `d` takes both, and
      the rest of the pattern goes on after the slash, unless the number is out of
      range. */
  lemma {:induction false} DayOfTwoDigits(x: char, y: char, u: string)
    requires IsDigit(x) && IsDigit(y) && x <= '2'
    ensures var r := MatchTokens([x, y] + (['/'] + u), DMYyyy, NoFields);
            r == None
            || r == MatchTokens(u, [Num(Month1), Lit('/'), Num(Year)], SetField(NoFields, Day1, DigitsValue([x, y])))
  {
    var tail := ['/'] + u;
    var s := [x, y] + tail;
    TwoDigitRun(x, y, tail);
    assert NumberWidth(Day1, s) == 2;
    NumStep(Day1, s, [Lit('/'), Num(Month1), Lit('/'), Num(Year)], NoFields);
    LitStep('/', tail, [Num(Month1), Lit('/'), Num(Year)], SetField(NoFields, Day1, DigitsValue([x, y])));
  }

  /** The two digits of a day from 13 on do not start with `0`, nor with `1` and a
      digit up to `2`. */
  lemma DayAboveTwelve(day: nat)
    requires 12 < day < 100
    ensures var x, y := DigitChar(day / 10), DigitChar(day % 10);
            x != '0' && (x == '1' ==> y > '2')
  {
    assert day / 10 >= 1;
    if day / 10 == 1 {
      assert day % 10 == day - 10;
    }
  }

  /** `M/yyyy` on two digits that do not make a month from 10 to 12: `M` takes one
      digit and the slash meets the second. */
  lemma {:induction false} MonthStopsBeforeDigit(x: char, y: char, rest: string, g: Fields)
    requires IsDigit(x) && IsDigit(y) && x != '0' && (x == '1' ==> y > '2')
    ensures MatchTokens([x, y] + rest, [Num(Month1), Lit('/'), Num(Year)], g) == None
  {
    var u := [x, y] + rest;
    assert u[0] == x && u[1] == y && u[1..][0] == y;
    assert NumberWidth(Month1, u) == 1;
    NumStep(Month1, u, [Lit('/'), Num(Year)], g);
    LitStep('/', u[1..], [Num(Year)], SetField(g, Month1, DigitsValue(u[..1])));
  }

  lemma {:induction false} MonthFirstNotDayFirst(d: CalendarDate)
    requires ValidDate(d) && d.day > 12
    ensures forall j :: 0 <= j < 3 ==> Parse(Render(d, MmDdYyyy), DateFormats[j]).None?
  {
    forall j | 0 <= j < 3
      ensures Parse(Render(d, MmDdYyyy), DateFormats[j]).None?
    {
      if j == 2 {
        MonthFirstNotDMY(d);
      } else {
        MonthFirstNotDdMm(d, if j == 0 then '/' else '-');
      }
    }
  }

  /** A month-first string whose day cannot be a month fails the three day-first
      formats and is read by `MM/dd/yyyy`. */
  lemma {:induction false} MonthFirstFallback(d: CalendarDate)
    requires ValidDate(d) && d.hour == 0 && d.minute == 0 && d.second == 0 && d.day > 12
    ensures FirstMatch(Render(d, MmDdYyyy), DateFormats) == Some(d)
  {
    var s := Render(d, MmDdYyyy);
    MonthFirstNotDayFirst(d);
    assert DateFormats[3] == MmDdYyyy;
    DateFormatsRecover(d, 3);
    ParseRender(d, MmDdYyyy);
    FirstMatchAt(s, DateFormats, 3);
  }

  /** What `yyyy-MM-dd` writes: the year, then the dash-separated month and day. */
  lemma IsoParts(d: CalendarDate)
    ensures Render(d, YyyyMmDd) == ZeroPad(d.year, 4) + (['-'] + ZeroPad(d.month, 2) + ['-'] + ZeroPad(d.day, 2))
  {
    RenderThree(d, Year, '-', Month2, Day2);
  }

  /** `yyyy` writes exactly four digits for the years of a valid date. */
  lemma YearWidth(y: nat)
    requires y <= 9999
    ensures |ZeroPad(y, 4)| == 4
  {
    assert Pow10(4) == 10000;
    ZeroPadWidth(y, 4);
  }

  lemma {:induction false} YearThenDash(yyyy: string, after: string)
    requires |yyyy| == 4 && AllDigits(yyyy) && after != [] && after[0] == '-'
    ensures DigitRun(yyyy + after) == 4 && (yyyy + after)[4] == '-'
  {
    DigitRunOfDigits(yyyy, after);
  }

  /** An ISO date string starts with four digits and a dash. */
  lemma {:induction false} IsoText(d: CalendarDate)
    requires ValidDate(d)
    ensures var s := Render(d, YyyyMmDd);
            DigitRun(s) == 4 && |s| > 4 && s[4] == '-'
  {
    IsoParts(d);
    YearWidth(d.year);
    YearThenDash(ZeroPad(d.year, 4), ['-'] + ZeroPad(d.month, 2) + ['-'] + ZeroPad(d.day, 2));
  }

  /** Text with four leading digits and a dash fails the seven formats before
      `yyyy-MM-dd`: the first six stop a number of at most two digits before a
      third digit, and `yyyy/MM/dd` wants a slash after the year. */
  lemma {:induction false} YearFirstNotEarlier(s: string, k: nat)
    requires DigitRun(s) == 4 && |s| > 4 && s[4] == '-' && k < 7
    ensures MatchTokens(s, DateFormats[k], NoFields) == None
  {
    var fmt := DateFormats[k];
    assert fmt == fmt[..2] + fmt[2..];
    if k < 6 {
      assert fmt[0].Num? && fmt[0].field != Year && fmt[1].Lit? && !IsDigit(fmt[1].c);
      ShortNumberThenLit(fmt[0].field, s, fmt[1].c, fmt[2..], NoFields);
    } else {
      assert fmt[..2] == [Num(Year), Lit('/')];
      YearThenLit(s, '/', fmt[2..], NoFields);
    }
  }

  lemma {:induction false} IsoNotEarlier(d: CalendarDate)
    requires ValidDate(d)
    ensures forall k :: 0 <= k < 7 ==> Parse(Render(d, YyyyMmDd), DateFormats[k]) == None
  {
    var s := Render(d, YyyyMmDd);
    IsoText(d);
    forall k | 0 <= k < 7
      ensures Parse(s, DateFormats[k]) == None
    {
      YearFirstNotEarlier(s, k);
    }
  }

  /** A year-first ISO date string fails every earlier format and is read by
      `yyyy-MM-dd`. */
  lemma {:induction false} IsoFallback(d: CalendarDate)
    requires ValidDate(d) && d.hour == 0 && d.minute == 0 && d.second == 0
    ensures FirstMatch(Render(d, YyyyMmDd), DateFormats) == Some(d)
  {
    var s := Render(d, YyyyMmDd);
    IsoNotEarlier(d);
    assert DateFormats[7] == YyyyMmDd;
    DateFormatsRecover(d, 7);
    ParseRender(d, YyyyMmDd);
    FirstMatchAt(s, DateFormats, 7);
  }

  lemma Year2023()
    ensures ZeroPad(2023, 4) == "2023"
  {
    assert ZeroPad(2, 1) == "2";
    assert ZeroPad(20, 2) == "20";
    assert ZeroPad(202, 3) == "202";
  }

  /** `dd/MM/yyyy` of a date in 2023, written out character by character. */
  lemma {:induction false} DayFirstText2023(d: CalendarDate, dd: string, mm: string, s: string)
    requires d.year == 2023 && d.day < 100 && d.month < 100
    requires dd == [DigitChar(d.day / 10), DigitChar(d.day % 10)]
    requires mm == [DigitChar(d.month / 10), DigitChar(d.month % 10)]
    requires s == dd + "/" + mm + "/2023"
    ensures Render(d, DdMmYyyy) == s
  {
    RenderThree(d, Day2, '/', Month2, Year);
    Year2023();
    TwoDigits(d.day);
    TwoDigits(d.month);
  }

  /** The ambiguous `01/02/2023` is the first of February. */
  lemma {:induction false} FirstOfFebruary(s: string)
    requires s == "01/02/2023"
    ensures FirstMatch(s, DateFormats) == Some(CalendarDate(2023, 2, 1, 0, 0, 0))
  {
    assert DigitChar(0) == '0' && DigitChar(1) == '1' && DigitChar(2) == '2';
    DayFirstText2023(CalendarDate(2023, 2, 1, 0, 0, 0), "01", "02", s);
    DayFirstWins(CalendarDate(2023, 2, 1, 0, 0, 0));
  }

  /** `25/12/2023` is Christmas Day 2023. */
  lemma {:induction false} ChristmasDay(s: string)
    requires s == "25/12/2023"
    ensures FirstMatch(s, DateFormats) == Some(CalendarDate(2023, 12, 25, 0, 0, 0))
  {
    assert DigitChar(1) == '1' && DigitChar(2) == '2' && DigitChar(5) == '5';
    DayFirstText2023(CalendarDate(2023, 12, 25, 0, 0, 0), "25", "12", s);
    DayFirstWins(CalendarDate(2023, 12, 25, 0, 0, 0));
  }

  // ---------------------------------------------------------------------------
  // Bucket keys
  // ---------------------------------------------------------------------------

  /** `format(date, "yyyy")` */
  function YearKey(d: CalendarDate): string
  {
    ZeroPad(d.year, 4)
  }

  /** `format(date, "yyyy-MM")` */
  function MonthKey(d: CalendarDate): string
  {
    ZeroPad(d.year, 4) + "-" + ZeroPad(d.month, 2)
  }

  const MonthNames: seq<string> :=
    ["Jan", "Feb", "Mar", "Apr", "May", "Jun", "Jul", "Aug", "Sep", "Oct", "Nov", "Dec"]

  /** `format(date, "MMM yyyy")` in the en-US locale. */
  function MonthLabel(d: CalendarDate): string
    requires 1 <= d.month <= 12
  {
    MonthNames[d.month - 1] + " " + ZeroPad(d.year, 4)
  }

  /** Two valid dates share a month bucket exactly when they share year and month. */
  lemma {:induction false} MonthKeyEq(d: CalendarDate, e: CalendarDate)
    requires ValidDate(d) && ValidDate(e)
    ensures MonthKey(d) == MonthKey(e) <==> d.year == e.year && d.month == e.month
  {
    YearWidth(d.year);
    YearWidth(e.year);
    TwoDigitWidth(d.month);
    TwoDigitWidth(e.month);
    var yd, ye := ZeroPad(d.year, 4), ZeroPad(e.year, 4);
    var md, me := ZeroPad(d.month, 2), ZeroPad(e.month, 2);
    DigitsInjective(yd, ye);
    DigitsInjective(md, me);
    if MonthKey(d) == MonthKey(e) {
      assert yd == MonthKey(d)[..4] && ye == MonthKey(e)[..4];
      assert md == MonthKey(d)[5..] && me == MonthKey(e)[5..];
    }
  }

  /** `MM` and `dd` write exactly two digits for a month or a day. */
  lemma TwoDigitWidth(m: nat)
    requires m <= 31
    ensures |ZeroPad(m, 2)| == 2
  {
    assert Pow10(2) == 100;
    ZeroPadWidth(m, 2);
  }

  /** Sorting `yyyy-MM` keys as text sorts the months chronologically. */
  lemma {:induction false} MonthKeyOrder(d: CalendarDate, e: CalendarDate)
    requires ValidDate(d) && ValidDate(e)
    ensures Less(MonthKey(d), MonthKey(e))
            <==> d.year < e.year || (d.year == e.year && d.month < e.month)
  {
    YearWidth(d.year);
    YearWidth(e.year);
    TwoDigitWidth(d.month);
    TwoDigitWidth(e.month);
    var yd, ye := ZeroPad(d.year, 4), ZeroPad(e.year, 4);
    var md, me := ZeroPad(d.month, 2), ZeroPad(e.month, 2);
    assert MonthKey(d) == yd + (['-'] + md) && MonthKey(e) == ye + (['-'] + me);
    LessAppend(yd, ['-'] + md, ye, ['-'] + me);
    LessAppend(['-'], md, ['-'], me);
    assert !Less(['-'], ['-']);
    DigitsOrder(yd, ye);
    DigitsInjective(yd, ye);
    DigitsOrder(md, me);
  }

  /** Sorting `yyyy` keys as text sorts the years. */
  lemma {:induction false} YearKeyOrder(d: CalendarDate, e: CalendarDate)
    requires ValidDate(d) && ValidDate(e)
    ensures Less(YearKey(d), YearKey(e)) <==> d.year < e.year
    ensures YearKey(d) == YearKey(e) <==> d.year == e.year
  {
    YearWidth(d.year);
    YearWidth(e.year);
    DigitsOrder(YearKey(d), YearKey(e));
    DigitsInjective(YearKey(d), YearKey(e));
  }

  /** The year bucket is the first four characters of the month bucket. */
  lemma YearKeyPrefix(d: CalendarDate)
    requires ValidDate(d)
    ensures |YearKey(d)| == 4 && MonthKey(d)[..4] == YearKey(d)
    ensures MonthKey(d)[4] == '-' && |MonthKey(d)| == 7
  {
    YearWidth(d.year);
    TwoDigitWidth(d.month);
  }

  /** The `MMM yyyy` labels of one year sort by month name, not by month: February
      comes before January. */
  lemma MonthLabelNotChronological(d: CalendarDate, e: CalendarDate)
    requires d.month == 1 && e.month == 2 && d.year == e.year
    ensures Less(MonthLabel(e), MonthLabel(d))
  {
    var tail := " " + ZeroPad(d.year, 4);
    assert MonthLabel(d) == "Jan" + tail && MonthLabel(e) == "Feb" + tail;
    LessAppend("Feb", tail, "Jan", tail);
  }

  // ---------------------------------------------------------------------------
  // parseISO
  // ---------------------------------------------------------------------------

  /** `parseISO` on the two shapes the stored dates take: a calendar date
      `yyyy-MM-dd`, or one with a time of day `yyyy-MM-ddTHH:mm:ss`. Anything else is
      an invalid date (`None`). The length test makes every field take its full
      width. */
  function ParseIso(s: string): (r: Option<CalendarDate>)
    ensures r.Some? ==> ValidDate(r.value)
    ensures r.Some? ==> |s| == 10 || |s| == 19
  {
    if |s| == 10 then Parse(s, YyyyMmDd)
    else if |s| == 19 then Parse(s, YyyyMmDdTime)
    else None
  }

  /** `yyyy-MM-dd` writes ten characters. */
  lemma IsoLength(d: CalendarDate)
    requires ValidDate(d)
    ensures |Render(d, YyyyMmDd)| == 10
  {
    IsoParts(d);
    YearWidth(d.year);
    TwoDigitWidth(d.month);
    TwoDigitWidth(d.day);
  }

  /** `parseISO` reads back a calendar date written as `yyyy-MM-dd`. */
  lemma ParseIsoRender(d: CalendarDate)
    requires ValidDate(d) && d.hour == 0 && d.minute == 0 && d.second == 0
    ensures ParseIso(Render(d, YyyyMmDd)) == Some(d)
  {
    IsoLength(d);
    assert DateFormats[7] == YyyyMmDd;
    DateFormatsRecover(d, 7);
    ParseRender(d, YyyyMmDd);
  }
}
