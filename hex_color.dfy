/**
 * `hexToRgb`: recognise `#?` followed by three pairs of hex digits (either
 * case, nothing before or after) and render the three byte values as the
 * decimal text "R, G, B"; anything else gives `null`.
 */
module HexColor {
  import opened Util

  predicate IsDigit(c: char) { '0' <= c <= '9' }

  /** `[a-f\d]` under the case-insensitive flag. */
  predicate IsHexDigit(c: char) { '0' <= c <= '9' || 'a' <= c <= 'f' || 'A' <= c <= 'F' }

  predicate AllHex(s: string) { forall i :: 0 <= i < |s| ==> IsHexDigit(s[i]) }

  predicate AllDigits(s: string) { forall i :: 0 <= i < |s| ==> IsDigit(s[i]) }

  /** Declarative statement of which inputs the pattern accepts. */
  predicate Matches(s: string)
  {
    || (|s| == 6 && AllHex(s))
    || (|s| == 7 && s[0] == '#' && AllHex(s[1..]))
  }

  /** The six hex digits of an accepted input. */
  function HexDigits(s: string): (d: string)
    requires Matches(s)
    ensures |d| == 6 && AllHex(d)
  {
    if |s| == 7 then s[1..] else s
  }

  function HexDigitValue(c: char): (v: nat)
    requires IsHexDigit(c)
    ensures v < 16
  {
    if '0' <= c <= '9' then c as int - '0' as int
    else if 'a' <= c <= 'f' then c as int - 'a' as int + 10
    else c as int - 'A' as int + 10
  }

  /**
   * `exec` of the pattern: `#?` is greedy, and giving the `#` back cannot
   * help because `#` is not a hex digit; then exactly six hex digits must
   * end the input. Returns the three two-character captures.
   */
  function Exec(s: string): (r: Option<(string, string, string)>)
    ensures r.Some? <==> Matches(s)
    ensures r.Some? ==> var d := HexDigits(s); r.value == (d[0..2], d[2..4], d[4..6])
  {
    var body := if |s| > 0 && s[0] == '#' then s[1..] else s;
    if |body| == 6 && IsHexDigit(body[0]) && IsHexDigit(body[1]) && IsHexDigit(body[2])
       && IsHexDigit(body[3]) && IsHexDigit(body[4]) && IsHexDigit(body[5])
    then Some((body[0..2], body[2..4], body[4..6]))
    else None
  }

  /** `parseInt(g, 16)` of a two-digit capture. */
  function ParseHexPair(g: string): (v: nat)
    requires |g| == 2 && IsHexDigit(g[0]) && IsHexDigit(g[1])
    ensures v < 256
  {
    16 * HexDigitValue(g[0]) + HexDigitValue(g[1])
  }

  function DigitChar(k: nat): (c: char)
    requires k < 10
    ensures IsDigit(c)
  {
    ('0' as int + k) as char
  }

  /** JavaScript's decimal rendering of a non-negative integer. */
  function DecimalString(n: nat): (r: string)
    ensures |r| >= 1 && AllDigits(r)
    ensures |r| > 1 ==> r[0] != '0'
    ensures n < 10 ==> |r| == 1
    ensures n < 1000 ==> |r| <= 3
    decreases n
  {
    if n < 10 then [DigitChar(n)] else DecimalString(n / 10) + [DigitChar(n % 10)]
  }

  /** Reading a string of decimal digits back as a number. */
  function ParseDecimal(s: string): nat
    requires AllDigits(s)
    decreases |s|
  {
    if s == [] then 0
    else 10 * ParseDecimal(s[..|s| - 1]) + (s[|s| - 1] as int - '0' as int)
  }

  /** The decimal rendering reads back as the number rendered. */
  lemma {:induction false} DecimalRoundTrip(n: nat)
    ensures ParseDecimal(DecimalString(n)) == n
    decreases n
  {
    var r := DecimalString(n);
    if n >= 10 {
      DecimalRoundTrip(n / 10);
      assert r[..|r| - 1] == DecimalString(n / 10);
    }
  }

  /** The text `${r}, ${g}, ${b}`. */
  function RgbText(r: nat, g: nat, b: nat): string
  {
    DecimalString(r) + ", " + DecimalString(g) + ", " + DecimalString(b)
  }

  /** `hexToRgb`: the decimal components of an accepted colour, `null` otherwise. */
  function HexToRgb(hex: string): (r: Option<string>)
    ensures r.Some? <==> Matches(hex)
  {
    match Exec(hex)
    case None => None
    case Some(groups) =>
      Some(RgbText(ParseHexPair(groups.0), ParseHexPair(groups.1), ParseHexPair(groups.2)))
  }

  // ---- An encoder for colours and a reader for the output text, used to
  // ---- state what HexToRgb computes ----

  /** One hex digit in the chosen case. */
  function HexChar(k: nat, upper: bool): (c: char)
    requires k < 16
    ensures IsHexDigit(c) && HexDigitValue(c) == k
  {
    if k < 10 then DigitChar(k)
    else if upper then ('A' as int + k - 10) as char
    else ('a' as int + k - 10) as char
  }

  /** A byte as two hex digits. */
  function HexByte(b: nat, upper: bool): (s: string)
    requires b < 256
    ensures |s| == 2 && AllHex(s)
  {
    [HexChar(b / 16, upper), HexChar(b % 16, upper)]
  }

  /** The colour written as hex, with or without `#`, in either case. */
  function HexColorText(r: nat, g: nat, b: nat, withHash: bool, upper: bool): string
    requires r < 256 && g < 256 && b < 256
  {
    (if withHash then "#" else "") + HexByte(r, upper) + HexByte(g, upper) + HexByte(b, upper)
  }

  /**
   * Every colour written as hex, with or without `#` and in either case,
   * is accepted and converted to its own three byte values.
   */
  lemma HexToRgbRoundTrip(r: nat, g: nat, b: nat, withHash: bool, upper: bool)
    requires r < 256 && g < 256 && b < 256
    ensures HexToRgb(HexColorText(r, g, b, withHash, upper)) == Some(RgbText(r, g, b))
  {
    var x, y, z := HexByte(r, upper), HexByte(g, upper), HexByte(b, upper);
    var d := x + y + z;
    var s := HexColorText(r, g, b, withHash, upper);
    assert s == (if withHash then "#" else "") + d;
    assert AllHex(d);
    assert Matches(s) && HexDigits(s) == d;
    assert d[0..2] == x && d[2..4] == y && d[4..6] == z;
    HexToRgbOfDigits(s);
    HexPairRoundTrip(r, upper);
    HexPairRoundTrip(g, upper);
    HexPairRoundTrip(b, upper);
  }

  /** Two hex digits read back as the byte they spell. */
  lemma HexPairRoundTrip(v: nat, upper: bool)
    requires v < 256
    ensures ParseHexPair(HexByte(v, upper)) == v
  {
  }

  /** Splitting a string at every occurrence of `sep`. */
  function Split(s: string, sep: char): (parts: seq<string>)
    ensures |parts| >= 1
    decreases |s|
  {
    if s == [] then [""]
    else
      var rest := Split(s[1..], sep);
      if s[0] == sep then [""] + rest else [[s[0]] + rest[0]] + rest[1..]
  }

  lemma {:induction false} SplitNoSeparator(a: string, sep: char)
    requires forall i :: 0 <= i < |a| ==> a[i] != sep
    ensures Split(a, sep) == [a]
    decreases |a|
  {
    if a != [] {
      SplitNoSeparator(a[1..], sep);
      assert [a[0]] + a[1..] == a;
    }
  }

  lemma {:induction false} SplitAtSeparator(a: string, sep: char, rest: string)
    requires forall i :: 0 <= i < |a| ==> a[i] != sep
    ensures Split(a + [sep] + rest, sep) == [a] + Split(rest, sep)
    decreases |a|
  {
    if a == [] {
      assert a + [sep] + rest == [sep] + rest;
      assert ([sep] + rest)[1..] == rest;
    } else {
      SplitAtSeparator(a[1..], sep, rest);
      assert (a + [sep] + rest)[1..] == a[1..] + [sep] + rest;
      assert [a[0]] + a[1..] == a;
    }
  }

  /** Reads text of the form "R, G, B" back into three numbers. */
  function ParseRgbText(t: string): Option<(nat, nat, nat)>
  {
    var parts := Split(t, ',');
    if |parts| == 3 && |parts[0]| >= 1 && AllDigits(parts[0])
       && |parts[1]| >= 2 && parts[1][0] == ' ' && AllDigits(parts[1][1..])
       && |parts[2]| >= 2 && parts[2][0] == ' ' && AllDigits(parts[2][1..])
    then Some((ParseDecimal(parts[0]), ParseDecimal(parts[1][1..]), ParseDecimal(parts[2][1..])))
    else None
  }

  /** Digits contain no comma. */
  lemma NoCommaInDigits(a: string)
    requires AllDigits(a)
    ensures forall i :: 0 <= i < |a| ==> a[i] != ','
  {
  }

  /** "a, m, z" is a, a comma, " m", a comma, " z". */
  lemma CommaListShape(a: string, m: string, z: string)
    ensures a + ", " + m + ", " + z == a + [','] + ((" " + m) + [','] + (" " + z))
  {
  }

  /** The output text splits at its commas into the three rendered numbers. */
  lemma SplitRgbText(r: nat, g: nat, b: nat)
    ensures Split(RgbText(r, g, b), ',') == [DecimalString(r), " " + DecimalString(g), " " + DecimalString(b)]
  {
    var a, m, z := DecimalString(r), DecimalString(g), DecimalString(b);
    var mid, last := " " + m, " " + z;
    NoCommaInDigits(a);
    NoCommaInDigits(m);
    NoCommaInDigits(z);
    var tail := mid + [','] + last;
    CommaListShape(a, m, z);
    SplitNoSeparator(last, ',');
    SplitAtSeparator(mid, ',', last);
    assert Split(tail, ',') == [mid, last];
    SplitAtSeparator(a, ',', tail);
  }

  /** The conversion's output is exactly the three numbers, comma-separated. */
  lemma RgbTextParses(r: nat, g: nat, b: nat)
    ensures ParseRgbText(RgbText(r, g, b)) == Some((r, g, b))
  {
    SplitRgbText(r, g, b);
    var m, z := DecimalString(g), DecimalString(b);
    assert (" " + m)[1..] == m && (" " + z)[1..] == z;
    DecimalRoundTrip(r);
    DecimalRoundTrip(g);
    DecimalRoundTrip(b);
  }

  function LowerChar(c: char): char
  {
    if 'A' <= c <= 'Z' then (c as int + 32) as char else c
  }

  function Lower(s: string): (r: string)
    ensures |r| == |s|
  {
    seq(|s|, i requires 0 <= i < |s| => LowerChar(s[i]))
  }

  lemma HexPairLower(g: string)
    requires |g| == 2 && IsHexDigit(g[0]) && IsHexDigit(g[1])
    ensures HexByte(ParseHexPair(g), false) == Lower(g)
  {
    var v := ParseHexPair(g);
    assert v / 16 == HexDigitValue(g[0]);
    assert v % 16 == HexDigitValue(g[1]);
  }

  /** An accepted input converts its three digit pairs. */
  lemma HexToRgbOfDigits(s: string)
    requires Matches(s)
    ensures var d := HexDigits(s);
            HexToRgb(s) == Some(RgbText(ParseHexPair(d[0..2]), ParseHexPair(d[2..4]), ParseHexPair(d[4..6])))
  {
    var d := HexDigits(s);
    var body := if |s| > 0 && s[0] == '#' then s[1..] else s;
    assert body == d;
    assert IsHexDigit(d[0]) && IsHexDigit(d[1]) && IsHexDigit(d[2]);
    assert IsHexDigit(d[3]) && IsHexDigit(d[4]) && IsHexDigit(d[5]);
  }

  lemma LowerSplits(d: string)
    requires |d| == 6
    ensures Lower(d) == Lower(d[0..2]) + Lower(d[2..4]) + Lower(d[4..6])
  {
  }

  /**
   * What an accepted input converts to: text that reads back as three bytes
   * whose lower-case hex spelling is the input's six digits.
   */
  lemma HexToRgbMeaning(s: string)
    requires Matches(s)
    ensures HexToRgb(s).Some?
    ensures ParseRgbText(HexToRgb(s).value).Some?
    ensures var c := ParseRgbText(HexToRgb(s).value).value;
            && c.0 < 256 && c.1 < 256 && c.2 < 256
            && HexByte(c.0, false) + HexByte(c.1, false) + HexByte(c.2, false) == Lower(HexDigits(s))
  {
    var d := HexDigits(s);
    var p0, p1, p2 := d[0..2], d[2..4], d[4..6];
    assert IsHexDigit(p0[0]) && IsHexDigit(p0[1]) && IsHexDigit(p1[0]);
    assert IsHexDigit(p1[1]) && IsHexDigit(p2[0]) && IsHexDigit(p2[1]);
    HexToRgbOfDigits(s);
    RgbTextParses(ParseHexPair(p0), ParseHexPair(p1), ParseHexPair(p2));
    HexPairLower(p0);
    HexPairLower(p1);
    HexPairLower(p2);
    LowerSplits(d);
  }
}
