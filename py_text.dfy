/**
 * The parts of Python's `str` and `int` behaviour that the exporter and the
 * validator rely on, over text decoded as latin-1 (every character is at most
 * U+00FF; classifications of characters above that are not needed).
 */
module PyText {
  import opened Wrappers

  /** `c.isspace()` for the characters latin-1 decoding can produce. */
  predicate IsSpace(c: char) {
    c == ' ' || '\t' <= c <= '\r' || '\U{1c}' <= c <= '\U{1f}' || c == '\U{85}' || c == '\U{a0}'
  }

  /** A string that `strip()` reduces to the empty string. */
  predicate IsBlank(s: string) {
    forall i :: 0 <= i < |s| ==> IsSpace(s[i])
  }

  /** `s.lstrip()`. */
  function LStrip(s: string): (r: string)
    ensures |r| <= |s|
  {
    if s != [] && IsSpace(s[0]) then LStrip(s[1..]) else s
  }

  /** `lstrip()` removes a blank prefix and stops at the first non-space. */
  lemma {:induction false} LStripShape(s: string)
    ensures LStrip(s) == s[|s| - |LStrip(s)|..]
    ensures IsBlank(s[..|s| - |LStrip(s)|])
    ensures LStrip(s) != [] ==> !IsSpace(LStrip(s)[0])
  {
    if s != [] && IsSpace(s[0]) {
      LStripShape(s[1..]);
    }
  }

  /** `s.rstrip()`. */
  function RStrip(s: string): (r: string)
    ensures |r| <= |s|
  {
    if s != [] && IsSpace(s[|s| - 1]) then RStrip(s[..|s| - 1]) else s
  }

  /** `rstrip()` removes a blank suffix and stops at the last non-space. */
  lemma {:induction false} RStripShape(s: string)
    ensures RStrip(s) == s[..|RStrip(s)|]
    ensures IsBlank(s[|RStrip(s)|..])
    ensures RStrip(s) != [] ==> !IsSpace(RStrip(s)[|RStrip(s)| - 1])
  {
    if s != [] && IsSpace(s[|s| - 1]) {
      var p := s[..|s| - 1];
      RStripShape(p);
      assert s[|RStrip(s)|..] == p[|RStrip(p)|..] + [s[|s| - 1]];
    }
  }

  /** `s.strip()`. */
  function Strip(s: string): string {
    RStrip(LStrip(s))
  }

  /** `s.rstrip('\r\n')`: only carriage returns and line feeds are removed. */
  function RStripNewlines(s: string): (r: string)
    ensures |r| <= |s| && r == s[..|r|]
    ensures forall i :: |r| <= i < |s| ==> s[i] == '\r' || s[i] == '\n'
    ensures r != [] ==> r[|r| - 1] != '\r' && r[|r| - 1] != '\n'
  {
    if s != [] && (s[|s| - 1] == '\r' || s[|s| - 1] == '\n') then RStripNewlines(s[..|s| - 1]) else s
  }

  /** `s.strip()` is empty exactly when every character of `s` is whitespace. */
  lemma {:induction false} StripEmptyIffBlank(s: string)
    ensures Strip(s) == [] <==> IsBlank(s)
  {
    var l := LStrip(s);
    LStripShape(s);
    RStripShape(l);
    if Strip(s) == [] {
      assert s == s[..|s| - |l|] + l;
      assert l == l[|RStrip(l)|..];
    } else {
      var r := RStrip(l);
      assert r[0] == l[0];
      assert l[0] == s[|s| - |l|];
    }
  }

  /** Every character of `s` is `c`. */
  predicate AllChar(s: string, c: char) {
    forall i :: 0 <= i < |s| ==> s[i] == c
  }

  /** A string made of `n` copies of `c`. */
  function Repeat(c: char, n: nat): (r: string)
    ensures |r| == n && AllChar(r, c)
  {
    if n == 0 then [] else Repeat(c, n - 1) + [c]
  }

  /** `s.ljust(w)`: pads with spaces on the right up to width `w`, never truncates. */
  function LJust(s: string, w: nat): (r: string)
    ensures |r| == if |s| >= w then |s| else w
    ensures r[..|s|] == s
    ensures AllChar(r[|s|..], ' ')
  {
    if |s| >= w then s else s + Repeat(' ', w - |s|)
  }

  /** `s.zfill(w)`: pads with zeros on the left up to width `w`, after a leading sign if any. */
  function ZFill(s: string, w: nat): (r: string)
    ensures |r| == if |s| >= w then |s| else w
  {
    if |s| >= w then s
    else if s != [] && (s[0] == '+' || s[0] == '-') then [s[0]] + Repeat('0', w - |s|) + s[1..]
    else Repeat('0', w - |s|) + s
  }

  /** `s.zfill(w)` starts with the sign of `s` if any, ends with the rest of `s`, and holds only zeros in between. */
  lemma {:induction false} ZFillContents(s: string, w: nat)
    ensures var r, k := ZFill(s, w), SignWidth(s);
      r[..k] == s[..k] && r[|r| - (|s| - k)..] == s[k..] && AllChar(r[k..|r| - (|s| - k)], '0')
  {
  }

  /** 1 when `s` starts with a sign `zfill` keeps in front, else 0. */
  function SignWidth(s: string): nat {
    if s != [] && (s[0] == '+' || s[0] == '-') then 1 else 0
  }

  /** `s[:n]`. */
  function Take(s: string, n: nat): (r: string)
    ensures |r| == if |s| <= n then |s| else n
    ensures r == s[..|r|]
  {
    if |s| <= n then s else s[..n]
  }

  /** `s[i:j]` for non-negative bounds: both bounds are clipped to the length. */
  function Slice(s: string, i: nat, j: nat): (r: string)
    ensures i <= j <= |s| ==> r == s[i..j]
    ensures |r| <= |s|
  {
    var hi := if j <= |s| then j else |s|;
    if i >= hi then [] else s[i..hi]
  }

  /** `s[-n:]`: the last `n` characters, or all of `s` when it is shorter. */
  function TakeLast(s: string, n: nat): (r: string)
    ensures |r| == if |s| <= n then |s| else n
    ensures r == s[|s| - |r|..]
  {
    if |s| <= n then s else s[|s| - n..]
  }

  /** Removes every occurrence of `c` (`s.replace(c, '')`). */
  function Without(s: string, c: char): (r: string)
    ensures |r| <= |s|
    ensures c !in r
  {
    if s == [] then []
    else if s[|s| - 1] == c then Without(s[..|s| - 1], c)
    else Without(s[..|s| - 1], c) + [s[|s| - 1]]
  }

  /** The ten decimal digits matched by the regular expression `\d` in latin-1 text. */
  predicate IsDecimal(c: char) {
    '0' <= c <= '9'
  }

  predicate AllDecimal(s: string) {
    forall i :: 0 <= i < |s| ==> IsDecimal(s[i])
  }

  /** `c.isdigit()`: the decimal digits and the superscripts one, two and three. */
  predicate IsPyDigit(c: char) {
    IsDecimal(c) || c == '\U{b2}' || c == '\U{b3}' || c == '\U{b9}'
  }

  /** `s.isdigit()`: non-empty and every character a digit. */
  predicate PyIsDigit(s: string) {
    |s| > 0 && forall i :: 0 <= i < |s| ==> IsPyDigit(s[i])
  }

  /** `''.join(filter(str.isdigit, s))`. */
  function DigitsOnly(s: string): (r: string)
    ensures |r| <= |s|
    ensures |r| > 0 ==> PyIsDigit(r)
  {
    if s == [] then []
    else if IsPyDigit(s[|s| - 1]) then DigitsOnly(s[..|s| - 1]) + [s[|s| - 1]]
    else DigitsOnly(s[..|s| - 1])
  }

  function DigitValue(c: char): nat
    requires IsDecimal(c)
  {
    c as int - '0' as int
  }

  function DigitChar(d: nat): (c: char)
    requires d < 10
    ensures IsDecimal(c) && DigitValue(c) == d
  {
    ('0' as int + d) as char
  }

  /** The number a string of decimal digits denotes (most significant first). */
  function DecimalValue(s: string): nat
    requires AllDecimal(s)
  {
    if s == [] then 0 else DecimalValue(s[..|s| - 1]) * 10 + DigitValue(s[|s| - 1])
  }

  function Pow10(n: nat): (p: nat)
    ensures p >= 1
  {
    if n == 0 then 1 else 10 * Pow10(n - 1)
  }

  /** `str(n)` for a non-negative integer. */
  function NatToStr(n: nat): (r: string)
    ensures |r| > 0 && AllDecimal(r)
    ensures DecimalValue(r) == n
    decreases n
  {
    if n < 10 then [DigitChar(n)]
    else
      var p := NatToStr(n / 10);
      var r := p + [DigitChar(n % 10)];
      assert r[..|r| - 1] == p;
      r
  }

  /** `str(i)` for any integer. */
  function IntToStr(i: int): string {
    if i < 0 then "-" + NatToStr(-i) else NatToStr(i)
  }

  /**
   * The body `int()` accepts after an optional sign: decimal digits, with single
   * underscores allowed between two digits.
   */
  predicate IsDigitGroups(s: string) {
    |s| > 0 && IsDecimal(s[0]) && IsDecimal(s[|s| - 1]) &&
    (forall i :: 0 <= i < |s| ==> IsDecimal(s[i]) || s[i] == '_') &&
    (forall i :: 0 <= i < |s| ==> SeparatorOk(s, i))
  }

  /** An underscore at `i` must be followed by a digit. */
  predicate SeparatorOk(s: string, i: nat)
    requires i < |s|
  {
    s[i] == '_' ==> i + 1 < |s| && IsDecimal(s[i + 1])
  }

  lemma {:induction false} WithoutUnderscoreDecimal(s: string)
    requires forall i :: 0 <= i < |s| ==> IsDecimal(s[i]) || s[i] == '_'
    ensures AllDecimal(Without(s, '_'))
  {
    if s != [] {
      WithoutUnderscoreDecimal(s[..|s| - 1]);
    }
  }

  /**
   * The information separators U+001C..U+001F: `isspace()` accepts them, but
   * `int()` leaves ASCII characters as they are and skips only ASCII blanks,
   * so it does not skip these.
   */
  predicate IsSeparatorControl(c: char) {
    '\U{1c}' <= c <= '\U{1f}'
  }

  /**
   * `int(s)` on a string: surrounding whitespace is ignored, one optional sign,
   * then digit groups; anything else raises `ValueError` (here `None`). An
   * information separator can be neither whitespace `int()` skips nor part of
   * a number, so one anywhere in `s` makes `int()` raise.
   */
  function PyInt(s: string): (r: Option<int>)
    ensures r.Some? ==> Strip(s) != []
    ensures (exists i :: 0 <= i < |s| && IsSeparatorControl(s[i])) ==> r.None?
  {
    if exists i :: 0 <= i < |s| && IsSeparatorControl(s[i]) then None
    else SignedValue(Strip(s))
  }

  /**
   * `int()` raises on a separator that `strip()` would remove, and skips the
   * non-ASCII whitespace latin-1 decoding yields.
   */
  lemma {:induction false} PyIntSurroundings()
    ensures PyInt("1\U{1c}") == None && PyInt("\U{1f}1") == None
    ensures Strip("1\U{1c}") == "1"
    ensures PyInt("\U{a0}5") == Some(5) && PyInt("7\U{85}") == Some(7)
  {
    SeparatorAt("1\U{1c}", 1);
    SeparatorAt("\U{1f}1", 0);
    StripOneSpace("1\U{1c}", '1');
    SpacedDigit("\U{a0}5", '5');
    SpacedDigit("7\U{85}", '7');
  }

  lemma {:induction false} SeparatorAt(s: string, i: nat)
    requires i < |s| && IsSeparatorControl(s[i])
    ensures PyInt(s) == None
  {
  }

  /** A decimal digit with one whitespace character before or after it strips to the digit. */
  lemma {:induction false} StripOneSpace(s: string, d: char)
    requires IsDecimal(d) && |s| == 2
    requires (s[0] == d && IsSpace(s[1])) || (IsSpace(s[0]) && s[1] == d)
    ensures Strip(s) == [d]
  {
    assert !IsSpace(d);
    if s[0] == d {
      assert LStrip(s) == s;
      assert s[..1] == [d];
      assert RStrip(s) == RStrip([d]);
    } else {
      assert s[1..] == [d];
      assert LStrip(s) == LStrip([d]);
    }
  }

  /** `int()` reads such a digit when the whitespace is not an information separator. */
  lemma {:induction false} SpacedDigit(s: string, d: char)
    requires IsDecimal(d) && |s| == 2 && !IsSeparatorControl(s[0]) && !IsSeparatorControl(s[1])
    requires (s[0] == d && IsSpace(s[1])) || (IsSpace(s[0]) && s[1] == d)
    ensures PyInt(s) == Some(DigitValue(d))
  {
    StripOneSpace(s, d);
    NoSeparatorReadsStripped(s);
    PyIntOfDecimal([d]);
    NoSeparatorReadsStripped([d]);
    assert Strip([d]) == [d] by { StripOneSpace([d, ' '], d); }
    assert DecimalValue([d]) == DigitValue(d) by { assert [d][..0] == []; }
  }

  /** Without an information separator `int()` reads the stripped text. */
  lemma {:induction false} NoSeparatorReadsStripped(s: string)
    requires forall i :: 0 <= i < |s| ==> !IsSeparatorControl(s[i])
    ensures PyInt(s) == SignedValue(Strip(s))
  {
  }

  /** The value of a stripped string: an optional sign, then digit groups. */
  function SignedValue(t: string): (r: Option<int>)
    ensures r.Some? ==> t != []
  {
    if t == [] then None
    else if t[0] == '-' then
      match GroupsValue(t[1..])
      case Some(v) => Some(-(v as int))
      case None => None
    else if t[0] == '+' then
      match GroupsValue(t[1..])
      case Some(v) => Some(v)
      case None => None
    else
      match GroupsValue(t)
      case Some(v) => Some(v)
      case None => None
  }

  /** The value of digit groups, with the separating underscores dropped. */
  function GroupsValue(b: string): Option<nat> {
    if IsDigitGroups(b) then
      WithoutUnderscoreDecimal(b);
      Some(DecimalValue(Without(b, '_')))
    else None
  }

  // ---------------------------------------------------------------------------
  // Facts about rendering and reading back decimal numbers.

  lemma {:induction false} DecimalValueAppend(a: string, b: string)
    requires AllDecimal(a) && AllDecimal(b)
    ensures AllDecimal(a + b)
    ensures DecimalValue(a + b) == DecimalValue(a) * Pow10(|b|) + DecimalValue(b)
    decreases |b|
  {
    assert AllDecimal(a + b) by {
      forall i | 0 <= i < |a + b| ensures IsDecimal((a + b)[i]) {
        if i >= |a| {
          assert (a + b)[i] == b[i - |a|];
        }
      }
    }
    if b == [] {
      assert a + b == a;
    } else {
      var b', c := b[..|b| - 1], b[|b| - 1];
      assert (a + b)[..|a + b| - 1] == a + b';
      assert (a + b)[|a + b| - 1] == c;
      DecimalValueAppend(a, b');
      ShiftDigit(DecimalValue(a), DecimalValue(b'), Pow10(|b'|), DigitValue(c));
    }
  }

  /** The arithmetic step of appending one digit. */
  lemma {:induction false} ShiftDigit(x: int, y: int, p: int, d: int)
    ensures (x * p + y) * 10 + d == x * (10 * p) + (y * 10 + d)
  {
  }

  lemma {:induction false} ZerosValue(n: nat)
    ensures AllDecimal(Repeat('0', n)) && DecimalValue(Repeat('0', n)) == 0
  {
    if n > 0 {
      ZerosValue(n - 1);
      assert Repeat('0', n)[..n - 1] == Repeat('0', n - 1);
    }
  }

  /** A number below `10^w` needs at most `w` characters. */
  lemma {:induction false} NatToStrLength(n: nat, w: nat)
    requires n < Pow10(w) && w > 0
    ensures |NatToStr(n)| <= w
    decreases n
  {
    if n >= 10 {
      assert n / 10 < Pow10(w - 1) by {
        assert Pow10(w) == 10 * Pow10(w - 1);
      }
      NatToStrLength(n / 10, w - 1);
    }
  }

  /** `str(n).zfill(w)` for `0 <= n < 10^w`: exactly `w` decimal digits. */
  lemma {:induction false} ZeroPaddedShape(n: nat, w: nat)
    requires n < Pow10(w) && w > 0
    ensures |ZFill(NatToStr(n), w)| == w
    ensures AllDecimal(ZFill(NatToStr(n), w))
    ensures DecimalValue(ZFill(NatToStr(n), w)) == n
  {
    var s := NatToStr(n);
    NatToStrLength(n, w);
    var z := Repeat('0', w - |s|);
    assert ZFill(s, w) == z + s by {
      assert s[0] != '+' && s[0] != '-' by { assert IsDecimal(s[0]); }
      if |s| == w {
        assert z == [];
      }
    }
    ZerosValue(w - |s|);
    DecimalValueAppend(z, s);
  }

  /** A non-empty run of decimal digits is left alone by `strip()` and read back exactly by `int()`. */
  lemma {:induction false} PyIntOfDecimal(s: string)
    requires |s| > 0 && AllDecimal(s)
    ensures PyInt(s) == Some(DecimalValue(s))
  {
    assert !exists i :: 0 <= i < |s| && IsSeparatorControl(s[i]) by {
      forall i | 0 <= i < |s| ensures !IsSeparatorControl(s[i]) {
        assert IsDecimal(s[i]);
      }
    }
    StripDecimal(s);
    assert s[0] != '-' && s[0] != '+' by { assert IsDecimal(s[0]); }
    assert IsDigitGroups(s) by {
      forall i | 0 <= i < |s| ensures SeparatorOk(s, i) {
        assert IsDecimal(s[i]);
      }
    }
    WithoutDecimalIdentity(s);
    assert GroupsValue(s) == Some(DecimalValue(s));
  }

  lemma {:induction false} StripDecimal(s: string)
    requires |s| > 0 && AllDecimal(s)
    ensures Strip(s) == s
  {
    assert !IsSpace(s[0]) by { assert IsDecimal(s[0]); }
    assert LStrip(s) == s;
    assert !IsSpace(s[|s| - 1]) by { assert IsDecimal(s[|s| - 1]); }
    assert RStrip(s) == s;
  }

  lemma {:induction false} WithoutDecimalIdentity(s: string)
    requires AllDecimal(s)
    ensures Without(s, '_') == s
  {
    if s != [] {
      WithoutDecimalIdentity(s[..|s| - 1]);
      assert s[..|s| - 1] + [s[|s| - 1]] == s;
    }
  }

  /** Round trip used for every counter field: `int(str(n).zfill(w)) == n` when `n` fits. */
  lemma {:induction false} ZeroPaddedRoundTrip(n: nat, w: nat)
    requires n < Pow10(w) && w > 0
    ensures PyInt(ZFill(NatToStr(n), w)) == Some(n)
    ensures PyIsDigit(ZFill(NatToStr(n), w))
  {
    ZeroPaddedShape(n, w);
    PyIntOfDecimal(ZFill(NatToStr(n), w));
  }

  /** A number of at least `10^w` needs more than `w` characters. */
  lemma {:induction false} NatToStrLengthAbove(n: nat, w: nat)
    requires n >= Pow10(w)
    ensures |NatToStr(n)| > w
    decreases w
  {
    if w > 0 {
      assert n / 10 >= Pow10(w - 1) by {
        assert Pow10(w) == 10 * Pow10(w - 1);
      }
      NatToStrLengthAbove(n / 10, w - 1);
    }
  }

  /** `str(n).zfill(w)` for a non-negative number. */
  function Padded(n: nat, w: nat): string {
    ZFill(NatToStr(n), w)
  }

  /**
   * `str(n).zfill(w)` for any `n >= 0`: at least `w` decimal digits that
   * `int()` reads back as `n`, and exactly `w` of them just when `n < 10^w`.
   */
  lemma {:induction false} PaddedDigits(n: nat, w: nat)
    requires w > 0
    ensures var z := Padded(n, w);
      |z| >= w && AllDecimal(z) && PyInt(z) == Some(n) && (|z| == w <==> n < Pow10(w))
  {
    if n < Pow10(w) {
      ZeroPaddedShape(n, w);
      ZeroPaddedRoundTrip(n, w);
    } else {
      NatToStrLengthAbove(n, w);
      PyIntOfDecimal(NatToStr(n));
    }
  }

  // ---------------------------------------------------------------------------
  // Reading a file in text mode.

  predicate IsLineBreak(c: char) {
    c == '\r' || c == '\n'
  }

  /** No carriage return and no line feed anywhere in `s`. */
  predicate NoLineBreak(s: string) {
    forall i :: 0 <= i < |s| ==> !IsLineBreak(s[i])
  }

  /** The index of the first CR or LF of `s`, or `|s|` when it has none. */
  function FirstBreak(s: string): (n: nat)
    ensures n <= |s| && NoLineBreak(s[..n]) && (n < |s| ==> IsLineBreak(s[n]))
  {
    if s == [] || IsLineBreak(s[0]) then 0
    else
      var m := FirstBreak(s[1..]);
      assert forall i :: 0 <= i < m ==> s[1..][..m][i] == s[..m + 1][i + 1];
      m + 1
  }

  /**
   * `for line in f` over a file opened in text mode with universal newlines:
   * CR LF, a lone CR and a lone LF each end a line and are read as one LF, and
   * text after the last break is a last line of its own. Every line is
   * non-empty, has no break but at its end, and all but the last end in LF.
   */
  function UniversalLines(text: string): (lines: seq<string>)
    ensures lines == [] <==> text == []
    ensures forall k :: 0 <= k < |lines| ==> lines[k] != [] && NoLineBreak(lines[k][..|lines[k]| - 1])
    ensures forall k :: 0 <= k < |lines| - 1 ==> lines[k][|lines[k]| - 1] == '\n'
    decreases |text|
  {
    if text == [] then []
    else
      var n := FirstBreak(text);
      if n == |text| then
        assert text[..n] == text;
        [text]
      else
        var next := if text[n] == '\r' && n + 1 < |text| && text[n + 1] == '\n' then n + 2 else n + 1;
        var line := text[..n] + "\n";
        assert line[..|line| - 1] == text[..n];
        var rest := UniversalLines(text[next..]);
        assert forall k :: 1 <= k < |rest| + 1 ==> ([line] + rest)[k] == rest[k - 1];
        [line] + rest
  }

  /** The first break of text without breaks followed by a break is where that text ends. */
  lemma {:induction false} FirstBreakAfter(b: string, t: string)
    requires NoLineBreak(b) && t != [] && IsLineBreak(t[0])
    ensures FirstBreak(b + t) == |b|
  {
    var s := b + t;
    var n := FirstBreak(s);
    if n > |b| {
      NoBreakBefore(s, n, |b|);
      assert false;
    }
  }

  lemma {:induction false} NoBreakBefore(s: string, n: nat, j: nat)
    requires n <= |s| && NoLineBreak(s[..n]) && j < n
    ensures !IsLineBreak(s[j])
  {
    assert s[..n][j] == s[j];
  }

  /** `ljust` adds only spaces, so it adds no line break. */
  lemma {:induction false} LJustNoBreak(s: string, w: nat)
    requires NoLineBreak(s)
    ensures NoLineBreak(LJust(s, w))
  {
    var r := LJust(s, w);
    forall i | 0 <= i < |r| ensures !IsLineBreak(r[i]) {
      if i < |s| {
        assert r[i] == r[..|s|][i];
      } else {
        assert r[i] == r[|s|..][i - |s|];
      }
    }
  }

  /** `zfill` adds only zeros, so it adds no line break. */
  lemma {:induction false} ZFillNoBreak(s: string, w: nat)
    requires NoLineBreak(s)
    ensures NoLineBreak(ZFill(s, w))
  {
    var r := ZFill(s, w);
    var k := SignWidth(s);
    ZFillContents(s, w);
    var j := |r| - (|s| - k);
    forall i | 0 <= i < |r| ensures !IsLineBreak(r[i]) {
      if i < k {
        assert r[i] == r[..k][i] == s[..k][i];
      } else if i >= j {
        assert r[i] == r[j..][i - j] == s[k..][i - j];
      } else {
        assert r[i] == r[k..j][i - k];
      }
    }
  }

  lemma {:induction false} DecimalNoBreak(s: string)
    requires AllDecimal(s)
    ensures NoLineBreak(s)
  {
    forall i | 0 <= i < |s| ensures !IsLineBreak(s[i]) {
      assert IsDecimal(s[i]);
    }
  }

  // ---------------------------------------------------------------------------
  // Values read from database rows.

  /** A column value as the database driver hands it over: text or an integer. */
  datatype PyValue = Text(s: string) | Integer(i: int)

  /** Python truthiness of an optional column: `None`, `''` and `0` are false. */
  predicate Truthy(v: Option<PyValue>) {
    match v
    case None => false
    case Some(Text(s)) => s != []
    case Some(Integer(i)) => i != 0
  }

  /** `str(v)`. */
  function Str(v: PyValue): string {
    match v
    case Text(s) => s
    case Integer(i) => IntToStr(i)
  }

  /** `str(v or default)`. */
  function StrOr(v: Option<PyValue>, default: string): (r: string)
    ensures !Truthy(v) ==> r == default
  {
    if Truthy(v) then Str(v.value) else default
  }
}
