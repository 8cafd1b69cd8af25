/** The m:ss time labels under the tape (`format`, src/App.jsx:802-807):
    whole seconds split into minutes and seconds, the seconds padded to two
    digits. */
module Clock {
  import opened Helpers

  predicate IsDigit(c: char) { '0' <= c <= '9' }

  predicate AllDigits(s: seq<char>) { forall k :: 0 <= k < |s| ==> IsDigit(s[k]) }

  function DigitChar(d: int): (c: char)
    requires 0 <= d < 10
    ensures IsDigit(c)
  {
    (('0' as int) + d) as char
  }

  function DigitValue(c: char): (d: int)
    requires IsDigit(c)
    ensures 0 <= d < 10
  {
    c as int - '0' as int
  }

  /** Decimal digits of a natural number, most significant first, without
      leading zeros. */
  function Digits(n: nat): (s: seq<char>)
    ensures |s| >= 1 && AllDigits(s)
    ensures n < 10 <==> |s| == 1
    ensures 10 <= n < 100 ==> |s| == 2
    decreases n
  {
    if n < 10 then [DigitChar(n)] else Digits(n / 10) + [DigitChar(n % 10)]
  }

  /** `String(n)` for an integer: a minus sign before the digits when n is
      negative. Either way the digits read back as the magnitude of n. */
  function IntToString(n: int): (s: seq<char>)
    ensures n >= 0 ==> |s| >= 1 && AllDigits(s) && ParseDigits(s) == n
    ensures n < 0 ==> |s| >= 2 && s[0] == '-' && AllDigits(s[1..]) && ParseDigits(s[1..]) == -n
  {
    if n < 0 then
      var d := Digits(-n);
      DigitsRoundTrip(-n);
      assert (['-'] + d)[1..] == d;
      ['-'] + d
    else
      DigitsRoundTrip(n);
      Digits(n)
  }

  /** `padStart(width, c)` with a one-character pad: s, preceded by as many
      copies of c as it lacks to reach `width`. */
  function PadStart(s: seq<char>, width: nat, c: char): (r: seq<char>)
    ensures |s| >= width ==> r == s
    ensures |s| < width ==> |r| == width
    ensures r[|r| - |s|..] == s
    ensures forall k :: 0 <= k < |r| - |s| ==> r[k] == c
  {
    if |s| >= width then s else seq(width - |s|, _ => c) + s
  }

  /** JavaScript's `a % 60`: the remainder takes the sign of the dividend. */
  function JsRem60(a: int): (r: int)
    ensures a >= 0 ==> 0 <= r < 60
    ensures a < 0 ==> -60 < r <= 0
    ensures (a - r) % 60 == 0
  {
    if a >= 0 then a % 60 else -((-a) % 60)
  }

  /** `format(sec)`: the whole seconds (rounded down) as minutes, a colon and
      the remaining seconds padded to two digits. A non-negative time gives
      digits, a colon and exactly two digits; a negative one starts with a
      minus sign. */
  function Format(sec: real): (t: seq<char>)
    ensures sec >= 0.0 ==> |t| >= 4 && t[|t| - 3] == ':' && AllDigits(t[..|t| - 3]) && AllDigits(t[|t| - 2..])
    ensures sec < 0.0 ==> |t| >= 2 && t[0] == '-'
  {
    var s := sec.Floor;
    var m, r := s / 60, JsRem60(s);
    if s >= 0 then
      PaddedValue(IntToString(r));
      LabelShape(IntToString(m), PadStart(IntToString(r), 2, '0'));
      Label(m, r)
    else
      Label(m, r)
  }

  /** The text of a label with minutes m and seconds r. */
  function Label(m: int, r: int): seq<char> {
    IntToString(m) + [':'] + PadStart(IntToString(r), 2, '0')
  }

  /** Minutes, a colon and two seconds digits read as digits, a colon three
      places from the end, and two digits. */
  lemma LabelShape(mins: seq<char>, secs: seq<char>)
    requires |mins| >= 1 && AllDigits(mins) && |secs| == 2 && AllDigits(secs)
    ensures var t := mins + [':'] + secs;
            |t| >= 4 && t[|t| - 3] == ':' && AllDigits(t[..|t| - 3]) && AllDigits(t[|t| - 2..])
  {
    var t := mins + [':'] + secs;
    assert t[..|t| - 3] == mins;
    assert t[|t| - 2..] == secs;
  }

  /** The number a string of decimal digits spells. */
  function ParseDigits(s: seq<char>): (n: nat)
    requires AllDigits(s)
    decreases |s|
  {
    if s == [] then 0 else ParseDigits(s[..|s| - 1]) * 10 + DigitValue(s[|s| - 1])
  }

  /** Reading the digits of n back gives n. */
  lemma {:induction false} DigitsRoundTrip(n: nat)
    ensures ParseDigits(Digits(n)) == n
    decreases n
  {
    var s := Digits(n);
    if n >= 10 {
      DigitsRoundTrip(n / 10);
      assert s[..|s| - 1] == Digits(n / 10);
    }
  }

  /** Reading an m:ss label: the minutes before the first colon, exactly two
      digits after it, seconds below 60. Anything else is not a label. */
  function ParseClock(t: seq<char>): (r: Option<nat>)
  {
    var i := ColonAt(t);
    if i.None? then None
    else
      var mins, secs := t[..i.value], t[i.value + 1..];
      if |mins| >= 1 && AllDigits(mins) && |secs| == 2 && AllDigits(secs) && ParseDigits(secs) < 60
      then Some(ParseDigits(mins) * 60 + ParseDigits(secs))
      else None
  }

  /** The position of the first colon. */
  function ColonAt(t: seq<char>): (r: Option<nat>)
    ensures r.Some? ==> r.value < |t| && t[r.value] == ':' && forall k :: 0 <= k < r.value ==> t[k] != ':'
    ensures r.None? ==> forall k :: 0 <= k < |t| ==> t[k] != ':'
    decreases |t|
  {
    if t == [] then None
    else if t[0] == ':' then Some(0)
    else
      var rest := ColonAt(t[1..]);
      if rest.None? then None else Some(rest.value + 1)
  }

  /** For a non-negative time, the label reads back as the whole seconds. */
  lemma FormatRoundTrip(sec: real)
    requires sec >= 0.0
    ensures ParseClock(Format(sec)) == Some(sec.Floor)
  {
    var s := sec.Floor;
    var m, r := s / 60, JsRem60(s);
    assert s == m * 60 + r;
    assert Format(sec) == Label(m, r);
    PaddedValue(IntToString(r));
    ParseLabel(IntToString(m), PadStart(IntToString(r), 2, '0'), m, r);
  }

  /** Minutes digits, a colon and two seconds digits below 60 read back as
      the total number of seconds. */
  lemma ParseLabel(mins: seq<char>, secs: seq<char>, m: nat, r: nat)
    requires |mins| >= 1 && AllDigits(mins) && ParseDigits(mins) == m
    requires |secs| == 2 && AllDigits(secs) && ParseDigits(secs) == r && r < 60
    ensures ParseClock(mins + [':'] + secs) == Some(m * 60 + r)
  {
    var t := mins + [':'] + secs;
    ColonAfterDigits(mins, secs);
    assert t[..|mins|] == mins;
    assert t[|mins| + 1..] == secs;
  }

  /** A label's first colon is the one after the minutes. */
  lemma ColonAfterDigits(mins: seq<char>, secs: seq<char>)
    requires AllDigits(mins)
    ensures ColonAt(mins + [':'] + secs) == Some(|mins|)
    decreases |mins|
  {
    var t := mins + [':'] + secs;
    if mins != [] {
      assert t[1..] == mins[1..] + [':'] + secs;
      ColonAfterDigits(mins[1..], secs);
    }
  }

  /** Padding a single digit with a leading zero keeps its value. */
  lemma PaddedValue(s: seq<char>)
    requires AllDigits(s) && 1 <= |s| <= 2
    ensures |PadStart(s, 2, '0')| == 2 && AllDigits(PadStart(s, 2, '0'))
    ensures ParseDigits(PadStart(s, 2, '0')) == ParseDigits(s)
  {
    if |s| == 1 {
      var p := PadStart(s, 2, '0');
      assert p == ['0'] + s;
      assert p[..1] == ['0'];
    }
  }

  /** Two non-negative times get the same label exactly when they fall in
      the same whole second. */
  lemma FormatSameSecond(a: real, b: real)
    requires a >= 0.0 && b >= 0.0
    ensures Format(a) == Format(b) <==> a.Floor == b.Floor
  {
    FormatRoundTrip(a);
    FormatRoundTrip(b);
  }

  /** The text of a one-digit number. */
  lemma OneDigit(n: int)
    requires 0 <= n < 10
    ensures IntToString(n) == [DigitChar(n)]
  {
  }

  /** The text of a two-digit number. */
  lemma TwoDigits(n: int)
    requires 10 <= n < 100
    ensures IntToString(n) == [DigitChar(n / 10), DigitChar(n % 10)]
  {
    assert Digits(n / 10) == [DigitChar(n / 10)];
  }

  /** Ninety-five seconds read 1:35. */
  lemma FormatMinutesAndSeconds()
    ensures Format(95.0) == "1:35"
  {
    var s := (95.0).Floor;
    assert s == 95;
    assert s / 60 == 1 && JsRem60(s) == 35;
    assert Format(95.0) == Label(s / 60, JsRem60(s));
    OneDigit(1);
    TwoDigits(35);
    assert DigitChar(1) == '1' && DigitChar(3) == '3' && DigitChar(5) == '5';
  }

  /** A time just under a minute reads 0:59. */
  lemma FormatRoundsDown()
    ensures Format(59.99) == "0:59"
  {
    var s := (59.99).Floor;
    assert s == 59;
    assert s / 60 == 0 && JsRem60(s) == 59;
    assert Format(59.99) == Label(s / 60, JsRem60(s));
    OneDigit(0);
    TwoDigits(59);
    assert DigitChar(0) == '0' && DigitChar(5) == '5' && DigitChar(9) == '9';
  }

  /** Seven seconds read 0:07. */
  lemma FormatPadsSeconds()
    ensures Format(7.0) == "0:07"
  {
    var s := (7.0).Floor;
    assert s == 7;
    assert s / 60 == 0 && JsRem60(s) == 7;
    assert Format(7.0) == Label(s / 60, JsRem60(s));
    OneDigit(0);
    OneDigit(7);
    assert DigitChar(0) == '0' && DigitChar(7) == '7';
    assert PadStart("7", 2, '0') == "07";
  }

  /** A negative time keeps the signs of floor division and of `%`: minus one
      second reads -1:-1. */
  lemma FormatNegative()
    ensures Format(-1.0) == "-1:-1"
  {
    var s := (-1.0).Floor;
    assert s == -1;
    assert s / 60 == -1 && JsRem60(s) == -1;
    assert Format(-1.0) == Label(s / 60, JsRem60(s));
    assert Digits(1) == [DigitChar(1)] && DigitChar(1) == '1';
    assert IntToString(-1) == "-1";
  }
}
