/**
 * Terminal colours (`color.py`): a hex colour such as `#1a2b3c` or `fff`
 * becomes the ANSI SGR escape sequence selecting that 24-bit colour, as
 * foreground (parameter 38) or background (parameter 48), and `reset`
 * gives the sequence that restores the default rendition.  Only lower-case
 * hex digits are recognised; the colour must start the string, after an
 * optional `#`, and whatever follows it is ignored.
 */
module Color {
  import opened Wrappers

  /** The escape character that introduces a control sequence. */
  const Esc: char := '\U{1B}'

  predicate IsDigit(c: char) {
    '0' <= c <= '9'
  }

  /** The class `[a-f0-9]`. */
  predicate IsHexDigit(c: char) {
    IsDigit(c) || 'a' <= c <= 'f'
  }

  function HexValue(c: char): (v: nat)
    requires IsHexDigit(c)
    ensures v < 16
  {
    if IsDigit(c) then c as int - '0' as int else c as int - 'a' as int + 10
  }

  /** The lower-case hex digit of a value below 16. */
  function HexDigit(v: nat): (c: char)
    requires v < 16
    ensures IsHexDigit(c) && HexValue(c) == v
  {
    if v < 10 then ('0' as int + v) as char else ('a' as int + v - 10) as char
  }

  /** Whether `t` starts with `n` hex digits. */
  predicate HexRun(t: string, n: nat) {
    n <= |t| && forall i :: 0 <= i < n ==> IsHexDigit(t[i])
  }

  /** What `#?` leaves: the text after one leading `#`, if there is one. */
  function Body(s: string): string {
    if |s| > 0 && s[0] == '#' then s[1..] else s
  }

  datatype Rgb = Rgb(r: nat, g: nat, b: nat)

  /** The six-digit pattern, each pair of digits read as a number in base 16. */
  function MatchLong(s: string): (r: Option<Rgb>)
    ensures r.Some? <==> HexRun(Body(s), 6)
    ensures r.Some? ==> IsByteColor(r.value)
  {
    var t := Body(s);
    if HexRun(t, 6) then
      Some(Rgb(16 * HexValue(t[0]) + HexValue(t[1]),
               16 * HexValue(t[2]) + HexValue(t[3]),
               16 * HexValue(t[4]) + HexValue(t[5])))
    else None
  }

  /** The three-digit pattern, each digit `d` read as the number `d` followed by `f`. */
  function MatchShort(s: string): (r: Option<Rgb>)
    ensures r.Some? <==> HexRun(Body(s), 3)
    ensures r.Some? ==> IsByteColor(r.value)
    ensures r.Some? ==> r.value.r % 16 == 15 && r.value.g % 16 == 15 && r.value.b % 16 == 15
  {
    var t := Body(s);
    if HexRun(t, 3) then
      Some(Rgb(16 * HexValue(t[0]) + 15, 16 * HexValue(t[1]) + 15, 16 * HexValue(t[2]) + 15))
    else None
  }

  function DecimalDigit(d: nat): (c: char)
    requires d < 10
    ensures IsDigit(c)
  {
    ('0' as int + d) as char
  }

  /** `str(n)`: decimal digits without leading zeros. */
  function Decimal(n: nat): (s: string)
    ensures |s| >= 1
    ensures forall i :: 0 <= i < |s| ==> IsDigit(s[i])
    ensures s[0] == '0' ==> n == 0
  {
    if n < 10 then [DecimalDigit(n)] else Decimal(n / 10) + [DecimalDigit(n % 10)]
  }

  predicate AllDigits(s: string) {
    forall i :: 0 <= i < |s| ==> IsDigit(s[i])
  }

  /** The number a string of decimal digits denotes. */
  function DecimalValue(s: string): nat
    requires AllDigits(s)
  {
    if s == [] then 0 else 10 * DecimalValue(s[..|s| - 1]) + (s[|s| - 1] as int - '0' as int)
  }

  lemma {:induction false} DecimalRoundTrip(n: nat)
    ensures DecimalValue(Decimal(n)) == n
  {
    if n >= 10 {
      DecimalRoundTrip(n / 10);
      var s := Decimal(n);
      assert s[..|s| - 1] == Decimal(n / 10);
    }
  }

  /** SGR parameters, written in decimal and separated by `;`. */
  function Params(ps: seq<nat>): string {
    if ps == [] then [] else if |ps| == 1 then Decimal(ps[0]) else Decimal(ps[0]) + ";" + Params(ps[1..])
  }

  /** The Select Graphic Rendition control sequence `ESC [ params m`. */
  function Sgr(ps: seq<nat>): string {
    [Esc, '['] + Params(ps) + "m"
  }

  /** The SGR parameter that selects a foreground (38) or background (48) colour. */
  function ColorCode(foreground: bool): nat {
    if foreground then 38 else 48
  }

  /**
   * `hex_to_ansi(hex, foreground)`: the six-digit form is tried first and the
   * three-digit form only when it fails; with neither, the result is empty.
   */
  function HexToAnsi(hex: string, foreground: bool): (r: string)
    ensures r == "" <==> !HexRun(Body(hex), 3)
    ensures r != "" ==> exists x: nat, y: nat, z: nat :: x < 256 && y < 256 && z < 256
                                  && r == Sgr([ColorCode(foreground), 2, x, y, z])
  {
    match MatchLong(hex)
    case Some(c) => Sgr([ColorCode(foreground), 2, c.r, c.g, c.b])
    case None =>
      match MatchShort(hex)
      case Some(c) => Sgr([ColorCode(foreground), 2, c.r, c.g, c.b])
      case None => ""
  }

  /** `reset()`: the sequence with the single parameter 0. */
  function Reset(): (r: string)
    ensures r == Sgr([0])
  {
    [Esc] + "[0m"
  }

  /** Two lower-case hex digits for a byte. */
  function HexByte(n: nat): (s: string)
    requires n < 256
    ensures |s| == 2 && IsHexDigit(s[0]) && IsHexDigit(s[1])
    ensures 16 * HexValue(s[0]) + HexValue(s[1]) == n
  {
    [HexDigit(n / 16), HexDigit(n % 16)]
  }

  predicate IsByteColor(c: Rgb) {
    c.r < 256 && c.g < 256 && c.b < 256
  }

  /** The six-digit hex spelling of a colour. */
  function HexColor(c: Rgb): string
    requires IsByteColor(c)
  {
    HexByte(c.r) + HexByte(c.g) + HexByte(c.b)
  }

  /**
   * Spelling a colour in six hex digits, with or without `#` and followed by
   * anything at all, gives back the sequence for exactly that colour.
   */
  lemma LongFormRoundTrip(c: Rgb, hash: bool, rest: string, foreground: bool)
    requires IsByteColor(c)
    ensures HexToAnsi((if hash then "#" else "") + HexColor(c) + rest, foreground)
         == Sgr([ColorCode(foreground), 2, c.r, c.g, c.b])
  {
    var s := (if hash then "#" else "") + HexColor(c) + rest;
    var t := HexColor(c) + rest;
    assert Body(s) == t by {
      if hash {
        assert s == "#" + t;
        assert s[1..] == t;
      } else {
        assert s == t;
      }
    }
    assert t[0..2] == HexByte(c.r) && t[2..4] == HexByte(c.g) && t[4..6] == HexByte(c.b);
    assert HexRun(t, 6);
    assert MatchLong(s) == Some(c);
  }

  /**
   * When no six-digit colour starts the text, three hex digits are read as
   * the channels `16 * d + 15`: each digit followed by `f`, not doubled.
   */
  lemma ShortForm(x: nat, y: nat, z: nat, hash: bool, rest: string, foreground: bool)
    requires x < 16 && y < 16 && z < 16
    requires !HexRun(rest, 3)
    ensures HexToAnsi((if hash then "#" else "") + [HexDigit(x), HexDigit(y), HexDigit(z)] + rest, foreground)
         == Sgr([ColorCode(foreground), 2, 16 * x + 15, 16 * y + 15, 16 * z + 15])
  {
    var digits := [HexDigit(x), HexDigit(y), HexDigit(z)];
    var s := (if hash then "#" else "") + digits + rest;
    var t := digits + rest;
    assert Body(s) == t by {
      if hash {
        assert s == "#" + t;
        assert s[1..] == t;
      } else {
        assert s == t;
      }
    }
    assert t[..3] == digits && t[3..] == rest;
    assert !HexRun(t, 6);
    assert MatchShort(s) == Some(Rgb(16 * x + 15, 16 * y + 15, 16 * z + 15));
  }

  lemma SmallDecimals()
    ensures Decimal(1) == "1" && Decimal(2) == "2"
    ensures Decimal(38) == "38" && Decimal(48) == "48" && Decimal(255) == "255"
  {
    assert Decimal(25) == Decimal(2) + [DecimalDigit(5)];
    assert Decimal(255) == Decimal(25) + [DecimalDigit(5)];
    assert Decimal(38) == Decimal(3) + [DecimalDigit(8)];
    assert Decimal(48) == Decimal(4) + [DecimalDigit(8)];
  }

  lemma {:induction false} ParamsCons(p: nat, ps: seq<nat>)
    requires ps != []
    ensures Params([p] + ps) == Decimal(p) + ";" + Params(ps)
  {
    assert ([p] + ps)[1..] == ps;
  }

  lemma ParamsBytes(n: nat)
    ensures Params([n, n, n]) == Decimal(n) + ";" + Decimal(n) + ";" + Decimal(n)
  {
    ParamsCons(n, [n]);
    assert [n] + [n] == [n, n];
    ParamsCons(n, [n, n]);
    assert [n] + [n, n] == [n, n, n];
  }

  lemma {:induction false} SgrColor(code: nat, n: nat)
    ensures Sgr([code, 2, n, n, n])
         == [Esc] + "[" + Decimal(code) + ";2;" + Decimal(n) + ";" + Decimal(n) + ";" + Decimal(n) + "m"
  {
    var d := Decimal(n);
    var tail := d + ";" + d + ";" + d;
    ParamsBytes(n);
    assert Params([2, n, n, n]) == ";2;"[1..] + tail by {
      ParamsCons(2, [n, n, n]);
      assert [2] + [n, n, n] == [2, n, n, n];
      assert Decimal(2) == "2" == ";2;"[1..2];
      assert ";2;"[1..] == "2" + ";";
    }
    var c := Decimal(code);
    assert Params([code, 2, n, n, n]) == c + ";2;" + tail by {
      ParamsCons(code, [2, n, n, n]);
      assert [code] + [2, n, n, n] == [code, 2, n, n, n];
      assert ";" + ";2;"[1..] == ";2;";
    }
    SgrLayout(c, d);
  }

  lemma SgrLayout(c: string, d: string)
    ensures [Esc, '['] + (c + ";2;" + (d + ";" + d + ";" + d)) + "m"
         == [Esc] + "[" + c + ";2;" + d + ";" + d + ";" + d + "m"
  {
    assert [Esc, '['] == [Esc] + "[";
  }

  lemma WhiteText(c: string, d: string)
    requires c == "38" && d == "255"
    ensures [Esc] + "[" + c + ";2;" + d + ";" + d + ";" + d + "m" == [Esc] + "[38;2;255;255;255m"
  {
  }

  lemma SgrWhite()
    ensures Sgr([38, 2, 255, 255, 255]) == [Esc] + "[38;2;255;255;255m"
  {
    var c, d := Decimal(38), Decimal(255);
    SmallDecimals();
    SgrColor(38, 255);
    WhiteText(c, d);
  }

  lemma SgrOnes(code: nat, c: string, text: string)
    requires Decimal(code) == c
    requires text == "[" + c + ";2;1;1;1m"
    ensures Sgr([code, 2, 1, 1, 1]) == [Esc] + text
  {
    SgrColor(code, 1);
    var one := Decimal(1);
    assert one == "1";
    assert [Esc] + "[" + c + ";2;" + one + ";" + one + ";" + one + "m" == [Esc] + text;
  }

  lemma HexOne()
    ensures HexColor(Rgb(1, 1, 1)) == "010101"
  {
    assert HexDigit(0) == '0' && HexDigit(1) == '1';
    assert HexByte(1) == "01";
  }

  /** `'fff'` gives white: each digit `f` is read as `ff`. */
  lemma ExampleShortWhite()
    ensures HexToAnsi("fff", true) == [Esc] + "[38;2;255;255;255m"
  {
    assert [HexDigit(15), HexDigit(15), HexDigit(15)] == "fff";
    ShortForm(15, 15, 15, false, "", true);
    assert "" + "fff" + "" == "fff";
    SgrWhite();
  }

  /** `'#fff'` gives white too. */
  lemma ExampleShortWhiteHash()
    ensures HexToAnsi("#fff", true) == [Esc] + "[38;2;255;255;255m"
  {
    ExampleShortWhite();
    HashIsOptional("fff", true);
    assert "#" + "fff" == "#fff";
  }

  lemma {:induction false} OnesAsSgr(foreground: bool)
    ensures HexToAnsi("010101", foreground) == Sgr([ColorCode(foreground), 2, 1, 1, 1])
  {
    HexOne();
    LongFormRoundTrip(Rgb(1, 1, 1), false, "", foreground);
    assert "" + "010101" + "" == "010101";
  }

  lemma OnesExample(foreground: bool, c: string, text: string)
    requires Decimal(ColorCode(foreground)) == c
    requires text == "[" + c + ";2;1;1;1m"
    ensures HexToAnsi("010101", foreground) == [Esc] + text
  {
    OnesAsSgr(foreground);
    SgrOnes(ColorCode(foreground), c, text);
  }

  /** `'010101'` gives 1;1;1. */
  lemma ExampleLongForm()
    ensures HexToAnsi("010101", true) == [Esc] + "[38;2;1;1;1m"
  {
    SmallDecimals();
    OnesExample(true, "38", "[38;2;1;1;1m");
  }

  /** A leading `#` is optional: it does not change the result. */
  lemma HashIsOptional(hex: string, foreground: bool)
    requires hex == [] || hex[0] != '#'
    ensures HexToAnsi("#" + hex, foreground) == HexToAnsi(hex, foreground)
  {
    assert ("#" + hex)[1..] == hex;
    assert Body("#" + hex) == hex == Body(hex);
    assert MatchLong("#" + hex) == MatchLong(hex);
    assert MatchShort("#" + hex) == MatchShort(hex);
  }

  /** `'#010101'` gives 1;1;1 too. */
  lemma ExampleLongFormHash()
    ensures HexToAnsi("#010101", true) == [Esc] + "[38;2;1;1;1m"
  {
    ExampleLongForm();
    HashIsOptional("010101", true);
    assert "#" + "010101" == "#010101";
  }

  lemma OnesBackground()
    ensures HexToAnsi("010101", false) == [Esc] + "[48;2;1;1;1m"
  {
    SmallDecimals();
    OnesExample(false, "48", "[48;2;1;1;1m");
  }

  /** As a background colour, `'#010101'` gives code 48. */
  lemma ExampleBackground()
    ensures HexToAnsi("#010101", false) == [Esc] + "[48;2;1;1;1m"
  {
    OnesBackground();
    HashIsOptional("010101", false);
    assert "#" + "010101" == "#010101";
  }

  /** `'#'` and `''` hold no colour and give the empty string. */
  lemma ExampleNoColor(foreground: bool)
    ensures HexToAnsi("#", foreground) == "" && HexToAnsi("", foreground) == ""
  {
    assert Body("#") == [];
  }

  /** Upper-case hex digits are not recognised. */
  lemma UpperCaseRejected(foreground: bool)
    ensures HexToAnsi("#FFFFFF", foreground) == ""
  {
    assert Body("#FFFFFF")[0] == 'F';
  }

  /** The index of the first `;` in `t`, or `|t|` when there is none. */
  function SemicolonIndex(t: string): (k: nat)
    ensures k <= |t|
    ensures k < |t| ==> t[k] == ';'
    ensures forall i :: 0 <= i < k ==> t[i] != ';'
  {
    if t == [] || t[0] == ';' then 0 else 1 + SemicolonIndex(t[1..])
  }

  /** Reads `;`-separated decimal parameters, each of at least one digit. */
  function ParseParams(t: string): Option<seq<nat>>
    decreases |t|
  {
    var k := SemicolonIndex(t);
    var field := t[..k];
    if field == [] || !AllDigits(field) then None
    else if k == |t| then Some([DecimalValue(field)])
    else match ParseParams(t[k + 1..])
      case None => None
      case Some(ps) => Some([DecimalValue(field)] + ps)
  }

  /** The parameters of an SGR control sequence, if `s` is one. */
  function ParseSgr(s: string): Option<seq<nat>> {
    if |s| >= 3 && s[0] == Esc && s[1] == '[' && s[|s| - 1] == 'm' then ParseParams(s[2..|s| - 1])
    else None
  }

  lemma {:induction false} SemicolonAfterDigits(d: string, x: string)
    requires AllDigits(d)
    ensures SemicolonIndex(d + x) == |d| + SemicolonIndex(x)
  {
    if d != [] {
      assert (d + x)[0] == d[0];
      assert (d + x)[1..] == d[1..] + x;
      SemicolonAfterDigits(d[1..], x);
    } else {
      assert d + x == x;
    }
  }

  lemma {:induction false} ParamsRoundTrip(ps: seq<nat>)
    requires ps != []
    ensures ParseParams(Params(ps)) == Some(ps)
    decreases |ps|
  {
    var d := Decimal(ps[0]);
    DecimalRoundTrip(ps[0]);
    if |ps| == 1 {
      SemicolonAfterDigits(d, []);
      assert d + [] == d;
      assert Params(ps) == d;
      assert SemicolonIndex(d) == |d|;
      assert d[..|d|] == d;
      assert AllDigits(d);
      assert ps == [ps[0]];
    } else {
      var t := d + ";" + Params(ps[1..]);
      assert t == d + (";" + Params(ps[1..]));
      SemicolonAfterDigits(d, ";" + Params(ps[1..]));
      assert t[..|d|] == d;
      assert t[|d| + 1..] == Params(ps[1..]);
      ParamsRoundTrip(ps[1..]);
      assert [ps[0]] + ps[1..] == ps;
    }
  }

  /** Distinct parameter lists give distinct sequences: the parameters can be read back. */
  lemma SgrRoundTrip(ps: seq<nat>)
    requires ps != []
    ensures ParseSgr(Sgr(ps)) == Some(ps)
  {
    var s := Sgr(ps);
    assert s[2..|s| - 1] == Params(ps);
    ParamsRoundTrip(ps);
  }

  /** The colour a hex string selects is read back from the sequence it yields. */
  lemma ColorReadBack(c: Rgb, hash: bool, rest: string, foreground: bool)
    requires IsByteColor(c)
    ensures ParseSgr(HexToAnsi((if hash then "#" else "") + HexColor(c) + rest, foreground))
         == Some([ColorCode(foreground), 2, c.r, c.g, c.b])
  {
    LongFormRoundTrip(c, hash, rest, foreground);
    SgrRoundTrip([ColorCode(foreground), 2, c.r, c.g, c.b]);
  }
}
