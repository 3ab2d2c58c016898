/** The pieces of JavaScript's string handling the dashboard relies on:
    `parseInt(s, 10)`, decimal and zero-padded number text, `split` on one
    character and the default ordering used by `Array.prototype.sort`. */
module JsText {
  import opened Wrappers

  // ---------------------------------------------------------------------------
  // Digits and decimal text
  // ---------------------------------------------------------------------------

  predicate IsDigit(c: char) { '0' <= c <= '9' }

  predicate AllDigits(s: string) { forall i :: 0 <= i < |s| ==> IsDigit(s[i]) }

  function DigitValue(c: char): nat
    requires IsDigit(c)
  {
    c as int - '0' as int
  }

  function DigitChar(n: nat): char
    requires n < 10
  {
    (n + '0' as int) as char
  }

  /** The number a run of decimal digits denotes, most significant digit first. */
  function DigitsValue(s: string): nat
    requires AllDigits(s)
  {
    if s == [] then 0 else DigitsValue(s[..|s| - 1]) * 10 + DigitValue(s[|s| - 1])
  }

  function Pow10(n: nat): (p: nat)
    ensures p >= 1
  {
    if n == 0 then 1 else 10 * Pow10(n - 1)
  }

  /** Decimal text of `n`, padded with leading zeros to at least `width` characters
      (date-fns' `yyyy` and `MM`; with width 1 it is JavaScript's `String(n)`). */
  function ZeroPad(n: nat, width: nat): (s: string)
    ensures |s| >= 1 && |s| >= width && AllDigits(s)
    ensures DigitsValue(s) == n
    decreases n, width
  {
    if n < 10 && width <= 1 then [DigitChar(n)]
    else
      var front := ZeroPad(n / 10, if width > 0 then width - 1 else 0);
      var s := front + [DigitChar(n % 10)];
      assert s[..|s| - 1] == front;
      s
  }

  /** `String(n)` for a natural number. */
  function NatText(n: nat): string
  {
    ZeroPad(n, 1)
  }

  /** `String(n)` for an integer. */
  function IntText(n: int): string
  {
    if n < 0 then "-" + NatText(-n) else NatText(n)
  }

  lemma {:induction false} ZeroPadWidth(n: nat, width: nat)
    requires 1 <= width && n < Pow10(width)
    ensures |ZeroPad(n, width)| == width
    decreases width
  {
    if width > 1 {
      ZeroPadWidth(n / 10, width - 1);
    }
  }

  lemma {:induction false} DigitsValueBound(s: string)
    requires AllDigits(s)
    ensures DigitsValue(s) < Pow10(|s|)
  {
    if s != [] {
      DigitsValueBound(s[..|s| - 1]);
    }
  }

  /** Two digit strings of one length are equal exactly when their values are. */
  lemma {:induction false} DigitsInjective(x: string, y: string)
    requires AllDigits(x) && AllDigits(y) && |x| == |y|
    ensures DigitsValue(x) == DigitsValue(y) <==> x == y
  {
    if x != [] {
      var x', y' := x[..|x| - 1], y[..|y| - 1];
      DigitsInjective(x', y');
      DigitsValueBound(x');
      DigitsValueBound(y');
      if DigitsValue(x) == DigitsValue(y) {
        assert DigitValue(x[|x| - 1]) == DigitValue(y[|y| - 1]);
        assert x == x' + [x[|x| - 1]] && y == y' + [y[|y| - 1]];
      }
    }
  }

  // ---------------------------------------------------------------------------
  // parseInt(s, 10)
  // ---------------------------------------------------------------------------

  /** The characters `parseInt` skips before the number: ECMAScript's WhiteSpace
      and LineTerminator code points. */
  predicate IsJsSpace(c: char)
  {
    c == '\t' || c == '\n' || c == '\U{000B}' || c == '\U{000C}' || c == '\r' || c == ' '
    || c == '\U{00A0}' || c == '\U{1680}' || ('\U{2000}' <= c <= '\U{200A}')
    || c == '\U{2028}' || c == '\U{2029}' || c == '\U{202F}' || c == '\U{205F}'
    || c == '\U{3000}' || c == '\U{FEFF}'
  }

  function TrimStart(s: string): (t: string)
    ensures |t| <= |s| && t == s[|s| - |t|..]
    ensures t == [] || !IsJsSpace(t[0])
  {
    if s != [] && IsJsSpace(s[0]) then TrimStart(s[1..]) else s
  }

  lemma TrimSkipsSpace(c: char, s: string)
    requires IsJsSpace(c)
    ensures TrimStart([c] + s) == TrimStart(s)
  {
    assert ([c] + s)[1..] == s;
  }

  lemma TrimKeeps(s: string)
    requires s == [] || !IsJsSpace(s[0])
    ensures TrimStart(s) == s
  {
  }

  lemma DigitNotSpace(c: char)
    requires IsDigit(c)
    ensures !IsJsSpace(c)
  {
  }

  /** Length of the run of digits `s` starts with. */
  function DigitRun(s: string): (k: nat)
    ensures k <= |s| && AllDigits(s[..k])
    ensures k < |s| ==> !IsDigit(s[k])
  {
    if s != [] && IsDigit(s[0]) then
      var k := 1 + DigitRun(s[1..]);
      assert s[..k] == [s[0]] + s[1..][..k - 1];
      k
    else 0
  }

  /** `parseInt(s, 10)`: skip leading white space, take an optional sign, then the
      longest run of decimal digits; without any digit the result is NaN (`None`).
      Whatever follows the digits is ignored. */
  function ParseInt(s: string): Option<int>
  {
    var t := TrimStart(s);
    if t != [] && t[0] == '-' then Negate(ParseDigits(t[1..]))
    else if t != [] && t[0] == '+' then ParseDigits(t[1..])
    else ParseDigits(t)
  }

  /** The value of the digits `u` starts with, or NaN when it starts with none. */
  function ParseDigits(u: string): Option<int>
  {
    var k := DigitRun(u);
    if k == 0 then None else Some(DigitsValue(u[..k]))
  }

  function Negate(n: Option<int>): Option<int>
  {
    if n.None? then None else Some(-n.value)
  }

  /** `parseInt` applied to a missing value (`undefined`) is NaN. */
  function ParseIntOpt(s: Option<string>): Option<int>
  {
    if s.None? then None else ParseInt(s.value)
  }

  /** Reading back the text of an integer, followed by anything that does not
      start with a digit, gives the integer. */
  lemma ParseIntText(n: int, rest: string)
    requires rest == [] || !IsDigit(rest[0])
    ensures ParseInt(IntText(n) + rest) == Some(n)
  {
    var m: nat := if n < 0 then -n else n;
    var u := NatText(m) + rest;
    ParseDigitsText(m, rest);
    if n < 0 {
      assert IntText(n) + rest == ['-'] + u;
      ParseIntMinus(u);
    } else {
      assert IntText(n) + rest == u;
      ParseIntUnsigned(u);
    }
  }

  lemma ParseIntMinus(u: string)
    ensures ParseInt(['-'] + u) == Negate(ParseDigits(u))
  {
    var t := ['-'] + u;
    assert !IsJsSpace('-');
    assert TrimStart(t) == t;
    assert t[1..] == u;
  }

  lemma ParseIntUnsigned(u: string)
    requires u != [] && IsDigit(u[0])
    ensures ParseInt(u) == ParseDigits(u)
  {
    assert TrimStart(u) == u;
  }

  lemma {:induction false} ParseDigitsText(n: nat, rest: string)
    requires rest == [] || !IsDigit(rest[0])
    ensures ParseDigits(NatText(n) + rest) == Some(n)
  {
    var digits := NatText(n);
    var u := digits + rest;
    DigitRunOfDigits(digits, rest);
    assert u[..|digits|] == digits;
  }

  lemma {:induction false} DigitRunOfDigits(digits: string, rest: string)
    requires AllDigits(digits)
    requires rest == [] || !IsDigit(rest[0])
    ensures DigitRun(digits + rest) == |digits|
  {
    if digits != [] {
      assert (digits + rest)[1..] == digits[1..] + rest;
      DigitRunOfDigits(digits[1..], rest);
    } else {
      assert digits + rest == rest;
    }
  }

  /** `parseInt(n, 10)` on a number: the number's text is read back, and NaN's text
      `"NaN"` has no digits. */
  function ParseIntNumber(n: Option<int>): (r: Option<int>)
    ensures r == n
  {
    if n.Some? then
      ParseIntText(n.value, []);
      assert IntText(n.value) + [] == IntText(n.value);
      ParseInt(IntText(n.value))
    else
      assert TrimStart("NaN") == "NaN";
      assert DigitRun("NaN") == 0;
      ParseInt("NaN")
  }

  /** A count with no digit is NaN. */
  lemma ParseIntLetters()
    ensures ParseInt("abc") == None
  {
    assert TrimStart("abc") == "abc";
    assert DigitRun("abc") == 0;
  }

  /** A sign with no digit after it is NaN too. */
  lemma ParseIntSignOnly()
    ensures ParseInt(" -x") == None
  {
    assert " -x" == [' '] + "-x";
    TrimSkipsSpace(' ', "-x");
    TrimKeeps("-x");
    assert "-x"[1..] == "x";
    assert DigitRun("x") == 0;
  }

  // ---------------------------------------------------------------------------
  // String.prototype.split with a one-character separator
  // ---------------------------------------------------------------------------

  /** `s.split(sep)`: the pieces between occurrences of `sep`, always at least one. */
  function Split(s: string, sep: char): (parts: seq<string>)
    ensures |parts| >= 1
  {
    if s == [] then [""]
    else
      var rest := Split(s[1..], sep);
      if s[0] == sep then [""] + rest else [[s[0]] + rest[0]] + rest[1..]
  }

  /** `parts.join(sep)`. */
  function Join(parts: seq<string>, sep: char): string
    requires |parts| >= 1
  {
    if |parts| == 1 then parts[0] else parts[0] + [sep] + Join(parts[1..], sep)
  }

  /** Text without the separator is a single piece. */
  lemma {:induction false} SplitNoSeparator(s: string, sep: char)
    requires sep !in s
    ensures Split(s, sep) == [s]
  {
    if s != [] {
      SplitNoSeparator(s[1..], sep);
      assert [s[0]] + s[1..] == s;
    }
  }

  /** Splitting at a separator splits the two sides independently. */
  lemma {:induction false} SplitAppend(a: string, sep: char, b: string)
    ensures Split(a + [sep] + b, sep) == Split(a, sep) + Split(b, sep)
  {
    if a == [] {
      assert a + [sep] + b == [sep] + b;
      assert ([sep] + b)[1..] == b;
    } else {
      assert (a + [sep] + b)[1..] == a[1..] + [sep] + b;
      SplitAppend(a[1..], sep, b);
    }
  }

  /** Splitting undoes joining, as long as no piece contains the separator. */
  lemma {:induction false} SplitJoin(parts: seq<string>, sep: char)
    requires |parts| >= 1
    requires forall i :: 0 <= i < |parts| ==> sep !in parts[i]
    ensures Split(Join(parts, sep), sep) == parts
  {
    SplitNoSeparator(parts[0], sep);
    if |parts| > 1 {
      SplitJoin(parts[1..], sep);
      SplitAppend(parts[0], sep, Join(parts[1..], sep));
      assert parts == [parts[0]] + parts[1..];
    }
  }

  // ---------------------------------------------------------------------------
  // The default sort order: character by character
  // ---------------------------------------------------------------------------
  // JavaScript compares UTF-16 code units. A Dafny `char` is a Unicode scalar value,
  // so the two orders agree on text within the Basic Multilingual Plane. They can
  // differ when a character outside it is compared with one from U+E000 to U+FFFF.

  /** `a` sorts no later than `b` under `Array.prototype.sort()` without a comparator. */
  predicate Le(a: string, b: string)
  {
    if a == [] then true
    else if b == [] then false
    else if a[0] != b[0] then a[0] < b[0]
    else Le(a[1..], b[1..])
  }

  predicate Less(a: string, b: string) { Le(a, b) && a != b }

  lemma {:induction false} LeTotal(a: string, b: string)
    ensures Le(a, b) || Le(b, a)
  {
    if a != [] && b != [] && a[0] == b[0] {
      LeTotal(a[1..], b[1..]);
    }
  }

  lemma {:induction false} LeAntisymmetric(a: string, b: string)
    requires Le(a, b) && Le(b, a)
    ensures a == b
  {
    if a != [] && b != [] {
      LeAntisymmetric(a[1..], b[1..]);
      assert a == [a[0]] + a[1..] && b == [b[0]] + b[1..];
    }
  }

  lemma {:induction false} LeTransitive(a: string, b: string, c: string)
    requires Le(a, b) && Le(b, c)
    ensures Le(a, c)
  {
    if a != [] && b != [] && c != [] && a[0] == b[0] && b[0] == c[0] {
      LeTransitive(a[1..], b[1..], c[1..]);
    }
  }

  /** Comparing two texts whose first parts have the same length compares the first
      parts, and the rest only when the first parts agree. */
  lemma {:induction false} LessAppend(x: string, s: string, y: string, t: string)
    requires |x| == |y|
    ensures Less(x + s, y + t) <==> Less(x, y) || (x == y && Less(s, t))
  {
    if x == [] {
      assert x + s == s && y + t == t;
    } else {
      assert (x + s)[1..] == x[1..] + s && (y + t)[1..] == y[1..] + t;
      LessAppend(x[1..], s, y[1..], t);
      assert x == [x[0]] + x[1..] && y == [y[0]] + y[1..];
    }
  }

  /** On digit strings of one length the text order is the numeric order; this is
      why sorting zero-padded keys sorts them by value. */
  lemma {:induction false} DigitsOrder(x: string, y: string)
    requires AllDigits(x) && AllDigits(y) && |x| == |y|
    ensures Less(x, y) <==> DigitsValue(x) < DigitsValue(y)
  {
    if x != [] {
      var x', y' := x[..|x| - 1], y[..|y| - 1];
      var a, b := x[|x| - 1], y[|y| - 1];
      assert x == x' + [a] && y == y' + [b];
      LessAppend(x', [a], y', [b]);
      DigitsOrder(x', y');
      DigitsInjective(x', y');
    }
  }

  // ---------------------------------------------------------------------------
  // Array.prototype.sort() on strings
  // ---------------------------------------------------------------------------

  predicate Sorted(s: seq<string>)
  {
    forall i, j :: 0 <= i < j < |s| ==> Le(s[i], s[j])
  }

  function Insert(x: string, s: seq<string>): (r: seq<string>)
    requires Sorted(s)
    ensures Sorted(r) && multiset(r) == multiset(s) + multiset{x}
  {
    if s == [] then [x]
    else if Le(x, s[0]) then
      var r := [x] + s;
      assert forall j :: 0 < j < |r| ==> Le(x, r[j]) by {
        forall j | 0 < j < |r| ensures Le(x, r[j]) {
          if j > 1 { LeTransitive(x, s[0], s[j - 1]); }
        }
      }
      r
    else
      var tail := Insert(x, s[1..]);
      LeTotal(x, s[0]);
      var r := [s[0]] + tail;
      assert s == [s[0]] + s[1..];
      assert forall y :: y in multiset(tail) ==> Le(s[0], y);
      assert forall j :: 0 < j < |r| ==> Le(s[0], r[j]) by {
        forall j | 0 < j < |r| ensures Le(s[0], r[j]) {
          assert r[j] == tail[j - 1];
          assert tail[j - 1] in multiset(tail);
        }
      }
      r
  }

  /** `keys.sort()`: the same strings, in ascending character order. */
  function Sort(s: seq<string>): (r: seq<string>)
    ensures Sorted(r) && multiset(r) == multiset(s) && |r| == |s|
  {
    if s == [] then []
    else
      var r := Insert(s[0], Sort(s[1..]));
      assert s == [s[0]] + s[1..];
      assert |r| == |multiset(r)|;
      r
  }
}
