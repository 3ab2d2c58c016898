/** Colours as the charts write them, `rgba(r, g, b, a)` text, and the two ways the
    dashboard derives an opaque border colour from a background colour: a
    regular-expression match that rebuilds the colour with alpha 1, and a
    replacement of a trailing `0.5)` by `1)`. */
module Colors {
  import opened Wrappers
  import opened JsText

  /** A colour with its channels and its alpha as the text the template writes. */
  datatype Rgba = Rgba(r: nat, g: nat, b: nat, alpha: string)

  /** The channel text of an `rgba(...)` string, in the order red, green, blue. */
  datatype Channels = Channels(r: string, g: string, b: string)

  /** `rgba(${r}, ${g}, ${b}, ${alpha})` */
  function RgbaText(r: string, g: string, b: string, alpha: string): string
  {
    "rgba(" + r + ", " + g + ", " + b + ", " + alpha + ")"
  }

  function Show(c: Rgba): string
  {
    RgbaText(NatText(c.r), NatText(c.g), NatText(c.b), c.alpha)
  }

  /** What `Math.floor(Math.random() * 255)` can give. */
  type Channel = x: nat | x < 255

  /** The three random channels of one `generateRandomColor()` / `getRandomColor()`
      call. Randomness is not modelled: the draws are parameters. */
  datatype Draw = Draw(r: Channel, g: Channel, b: Channel)

  /** A random colour: the three drawn channels and alpha 0.5. */
  function RandomColor(d: Draw): (c: string)
    ensures c == Show(Rgba(d.r, d.g, d.b, "0.5"))
  {
    RgbaText(NatText(d.r), NatText(d.g), NatText(d.b), "0.5")
  }

  // ---------------------------------------------------------------------------
  // color.match(/rgba\((\d+),\s*(\d+),\s*(\d+),\s*(\d?.\d+)\)/)
  // ---------------------------------------------------------------------------

  /** The characters `.` does not match. */
  predicate IsLineTerminator(c: char)
  {
    c == '\n' || c == '\r' || c == '\U{2028}' || c == '\U{2029}'
  }

  /** `(\d+),` at the start of `s`: the digits and the text after the comma. The
      digit run cannot give back a digit, since a comma must follow it. */
  function DigitsComma(s: string): (r: Option<(string, string)>)
    ensures r.Some? ==> r.value.0 != [] && AllDigits(r.value.0) && s == r.value.0 + [','] + r.value.1
  {
    var n := DigitRun(s);
    if n >= 1 && n < |s| && s[n] == ',' then
      assert s == s[..n] + [','] + s[n + 1..];
      Some((s[..n], s[n + 1..]))
    else None
  }

  /** `.\d+\)` at the start of `u`. */
  predicate AnyDigitsParen(u: string)
  {
    |u| >= 1 && !IsLineTerminator(u[0])
    && var n := DigitRun(u[1..]); n >= 1 && 1 + n < |u| && u[1 + n] == ')'
  }

  /** `\d?.\d+\)` at the start of `u`: with the optional digit, or without it. */
  predicate AlphaAt(u: string)
  {
    (u != [] && IsDigit(u[0]) && AnyDigitsParen(u[1..])) || AnyDigitsParen(u)
  }

  /** `\s*(\d?.\d+)\)` at the start of `u`: the white space may give characters back
      to the `.` after it. */
  predicate AlphaTail(u: string)
  {
    AlphaAt(u) || (u != [] && IsJsSpace(u[0]) && AlphaTail(u[1..]))
  }

  /** Three channels of decimal digits. */
  predicate DigitChannels(ch: Channels)
  {
    ch.r != [] && AllDigits(ch.r) && ch.g != [] && AllDigits(ch.g) && ch.b != [] && AllDigits(ch.b)
  }

  /** The whole pattern at the start of `s`: its first three groups. */
  function MatchAt(s: string): (r: Option<Channels>)
    ensures r.Some? ==> DigitChannels(r.value)
  {
    if |s| >= 5 && s[..5] == "rgba(" then Groups(s[5..]) else None
  }

  /** `(\d+),\s*(\d+),\s*(\d+),\s*(\d?.\d+)\)` at the start of `u`. */
  function Groups(u: string): (r: Option<Channels>)
    ensures r.Some? ==> DigitChannels(r.value)
  {
    match DigitsComma(u)
    case None => None
    case Some(p1) =>
      match DigitsComma(TrimStart(p1.1))
      case None => None
      case Some(p2) =>
        match DigitsComma(TrimStart(p2.1))
        case None => None
        case Some(p3) => if AlphaTail(p3.1) then Some(Channels(p1.0, p2.0, p3.0)) else None
  }

  /** `String.prototype.match` without the global flag: the leftmost match. */
  function Search(s: string): (r: Option<Channels>)
    ensures r.Some? ==> DigitChannels(r.value)
  {
    if MatchAt(s).Some? then MatchAt(s)
    else if s == [] then None
    else Search(s[1..])
  }

  /** The border colour of `generateChartData`: the matched channels with alpha 1,
      or the colour unchanged when the pattern does not match. */
  function Border(color: string): string
  {
    match Search(color)
    case Some(ch) => RgbaText(ch.r, ch.g, ch.b, "1")
    case None => color
  }

  // ---------------------------------------------------------------------------
  // color.replace(/0.5\)$/, "1)")
  // ---------------------------------------------------------------------------

  /** The border colour of `prepareChartData` and of the type-of-insight and age-range
      charts. The pattern is anchored at the end, so only the last four characters
      can match, and its `.` matches any character. */
  function ReplaceHalfAlpha(color: string): string
  {
    var n := |color|;
    if n >= 4 && color[n - 4] == '0' && !IsLineTerminator(color[n - 3]) && color[n - 2] == '5' && color[n - 1] == ')'
    then color[..n - 4] + "1)"
    else color
  }

  // ---------------------------------------------------------------------------
  // What the rewrites do
  // ---------------------------------------------------------------------------

  lemma DigitsCommaOf(x: string, y: string)
    requires x != [] && AllDigits(x)
    ensures DigitsComma(x + [','] + y) == Some((x, y))
  {
    var s := x + [','] + y;
    DigitRunOfDigits(x, [','] + y);
    assert s == x + ([','] + y);
    assert s[..|x|] == x && s[|x|] == ',' && s[|x| + 1..] == y;
  }

  lemma TrimOneSpace(y: string)
    requires y != [] && IsDigit(y[0])
    ensures TrimStart([' '] + y) == y
  {
    TrimSkipsSpace(' ', y);
    DigitNotSpace(y[0]);
    TrimKeeps(y);
  }

  /** The pattern reads its three channels back out of `rgba(...)` text, whenever
      the alpha text satisfies `\s*\d?.\d+\)` after its comma. */
  lemma {:induction false} MatchRgbaText(a: string, b: string, c: string, alpha: string)
    requires DigitChannels(Channels(a, b, c))
    requires AlphaTail(" " + alpha + ")")
    ensures MatchAt(RgbaText(a, b, c, alpha)) == Some(Channels(a, b, c))
  {
    var tail3 := " " + alpha + ")";
    var tail2 := [' '] + (c + [','] + tail3);
    var tail1 := [' '] + (b + [','] + tail2);
    var u := a + [','] + tail1;
    assert RgbaText(a, b, c, alpha) == "rgba(" + u;
    PrefixRgba(u);
    DigitsCommaOf(a, tail1);
    TrimOneSpace(b + [','] + tail2);
    DigitsCommaOf(b, tail2);
    TrimOneSpace(c + [','] + tail3);
    DigitsCommaOf(c, tail3);
  }

  lemma PrefixRgba(u: string)
    ensures MatchAt("rgba(" + u) == Groups(u)
  {
    assert ("rgba(" + u)[..5] == "rgba(" && ("rgba(" + u)[5..] == u;
  }

  /** Text that starts with a match is matched there: the leftmost match wins. */
  lemma MatchFirst(s: string)
    requires MatchAt(s).Some?
    ensures Search(s) == MatchAt(s)
  {
  }

  /** `, 0.5)` and `, 1)` both end the pattern: the first with the optional digit, the
      second with the space taken by the `.`. */
  lemma AlphaTails()
    ensures AlphaTail(" 0.5)") && AlphaTail(" 1)")
  {
    assert AnyDigitsParen(".5)") by {
      assert ".5)"[1..] == "5)";
      assert DigitRun("5)") == 1;
    }
    assert AlphaAt("0.5)") by {
      assert "0.5)"[1..] == ".5)";
    }
    assert " 0.5)"[1..] == "0.5)";
    assert AnyDigitsParen(" 1)") by {
      assert " 1)"[1..] == "1)";
      assert DigitRun("1)") == 1;
    }
  }

  /** A half-transparent colour gets the same colour, opaque, as its border. */
  lemma BorderOfHalfAlpha(r: nat, g: nat, b: nat)
    ensures Border(Show(Rgba(r, g, b, "0.5"))) == Show(Rgba(r, g, b, "1"))
  {
    AlphaTails();
    MatchRgbaText(NatText(r), NatText(g), NatText(b), "0.5");
    MatchFirst(Show(Rgba(r, g, b, "0.5")));
  }

  /** The pattern reads the channel texts back out of a half-transparent colour. */
  lemma MatchHalfAlpha(c: Rgba)
    requires c.alpha == "0.5"
    ensures MatchAt(Show(c)) == Some(Channels(NatText(c.r), NatText(c.g), NatText(c.b)))
  {
    AlphaTails();
    MatchRgbaText(NatText(c.r), NatText(c.g), NatText(c.b), "0.5");
  }

  /** A channel text reads back as its number, so equal texts have equal numbers. */
  lemma NatTextInjective(x: nat, y: nat)
    ensures NatText(x) == NatText(y) <==> x == y
  {
    ParseDigitsText(x, []);
    ParseDigitsText(y, []);
    assert NatText(x) + [] == NatText(x) && NatText(y) + [] == NatText(y);
  }

  /** Two half-transparent colours have the same text only when their channels
      agree. */
  lemma HalfAlphaTextInjective(c: Rgba, d: Rgba)
    requires c.alpha == "0.5" && d.alpha == "0.5"
    ensures Show(c) == Show(d) <==> c == d
  {
    if Show(c) == Show(d) {
      MatchHalfAlpha(c);
      MatchHalfAlpha(d);
      NatTextInjective(c.r, d.r);
      NatTextInjective(c.g, d.g);
      NatTextInjective(c.b, d.b);
    }
  }

  /** An opaque colour is its own border. */
  lemma {:induction false} BorderOfOpaque(ch: Channels)
    requires DigitChannels(ch)
    ensures Border(RgbaText(ch.r, ch.g, ch.b, "1")) == RgbaText(ch.r, ch.g, ch.b, "1")
  {
    var out := RgbaText(ch.r, ch.g, ch.b, "1");
    AlphaTails();
    MatchRgbaText(ch.r, ch.g, ch.b, "1");
    MatchFirst(out);
  }

  /** Rebuilding a border colour again changes nothing. */
  lemma {:induction false} BorderIdempotent(color: string)
    ensures Border(Border(color)) == Border(color)
  {
    if Search(color).Some? {
      BorderOfOpaque(Search(color).value);
    }
  }

  /** Text without an opening parenthesis never matches and is returned unchanged. */
  lemma {:induction false} NoMatchWithoutParen(color: string)
    requires '(' !in color
    ensures Search(color) == None
    ensures Border(color) == color
  {
    if |color| >= 5 {
      assert color[4] in color;
      assert color[..5] != "rgba(" by {
        assert color[..5][4] == color[4];
      }
    }
    if color != [] {
      assert forall c :: c in color[1..] ==> c in color;
      NoMatchWithoutParen(color[1..]);
    }
  }

  /** The end-anchored replacement makes a half-transparent colour opaque. */
  lemma ReplaceHalfAlphaOpaque(r: nat, g: nat, b: nat)
    ensures ReplaceHalfAlpha(Show(Rgba(r, g, b, "0.5"))) == Show(Rgba(r, g, b, "1"))
  {
    var front := "rgba(" + NatText(r) + ", " + NatText(g) + ", " + NatText(b) + ", ";
    assert Show(Rgba(r, g, b, "0.5")) == front + "0.5)";
    assert Show(Rgba(r, g, b, "1")) == front + "1)";
    assert (front + "0.5)")[..|front|] == front;
  }

  /** On the random colours the two ways of deriving a border agree. */
  lemma BordersAgree(d: Draw)
    ensures ReplaceHalfAlpha(RandomColor(d)) == Border(RandomColor(d))
  {
    BorderOfHalfAlpha(d.r, d.g, d.b);
    ReplaceHalfAlphaOpaque(d.r, d.g, d.b);
  }

  /** The replacement never applies twice: what it writes ends in `1)`. */
  lemma ReplaceHalfAlphaIdempotent(color: string)
    ensures ReplaceHalfAlpha(ReplaceHalfAlpha(color)) == ReplaceHalfAlpha(color)
  {
  }

  /** The unescaped `.` of the pattern matches any character, so `0,5)` is rewritten
      too. */
  lemma ReplaceAnyMiddle(front: string)
    ensures ReplaceHalfAlpha(front + "0,5)") == front + "1)"
  {
    assert (front + "0,5)")[..|front|] == front;
  }
}
