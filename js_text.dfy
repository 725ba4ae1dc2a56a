/** The few JavaScript string and number built-ins the core relies on:
    decimal rendering of integers, `parseFloat`, `trim`, `split`, `join`
    and `toUpperCase`, over Dafny strings (`seq<char>`). */
module JsText {
  import opened Wrappers

  predicate IsDigit(c: char) { '0' <= c <= '9' }

  function DigitValue(c: char): nat
    requires IsDigit(c)
  {
    c as int - '0' as int
  }

  function DigitChar(d: nat): (c: char)
    requires d < 10
    ensures IsDigit(c) && DigitValue(c) == d
  {
    ('0' as int + d) as char
  }

  predicate AllDigits(s: string) {
    forall i :: 0 <= i < |s| ==> IsDigit(s[i])
  }

  /** Decimal rendering of a non-negative integer, as `String(n)` or a
      template literal gives it. */
  function NatToString(n: nat): (s: string)
    ensures |s| > 0 && AllDigits(s)
    ensures (s[0] == '0') == (n == 0)
    decreases n
  {
    if n < 10 then [DigitChar(n)] else NatToString(n / 10) + [DigitChar(n % 10)]
  }

  /** Decimal rendering of any integer, with a leading '-' when negative. */
  function IntToString(i: int): (s: string)
    ensures |s| > 0
    ensures (s[0] == '-') == (i < 0)
  {
    if i < 0 then "-" + NatToString(-i) else NatToString(i)
  }

  /** The number a string of decimal digits denotes. */
  function DigitsValue(d: string): nat
    requires AllDigits(d)
  {
    if |d| == 0 then 0 else DigitsValue(d[..|d| - 1]) * 10 + DigitValue(d[|d| - 1])
  }

  lemma {:induction false} DigitsValueOfNatToString(n: nat)
    ensures DigitsValue(NatToString(n)) == n
    decreases n
  {
    var s := NatToString(n);
    if n >= 10 {
      DigitsValueOfNatToString(n / 10);
      assert s[..|s| - 1] == NatToString(n / 10);
    }
  }

  /** Length of the run of decimal digits at the start of `s`. */
  function LeadingDigits(s: string): (n: nat)
    ensures n <= |s|
    ensures AllDigits(s[..n])
    ensures n < |s| ==> !IsDigit(s[n])
  {
    if |s| > 0 && IsDigit(s[0]) then 1 + LeadingDigits(s[1..]) else 0
  }

  /** The digits after a '.' that opens `rest`, or nothing. */
  function FractionDigits(rest: string): (f: string)
    ensures AllDigits(f)
  {
    if |rest| > 0 && rest[0] == '.' then rest[1..][..LeadingDigits(rest[1..])] else ""
  }

  /** An unsigned decimal literal at the start of `body`: digits, then an
      optional '.' and digits, with at least one digit in all. */
  function UnsignedPrefix(body: string): Option<real>
  {
    var n := LeadingDigits(body);
    var fraction := FractionDigits(body[n..]);
    if n == 0 && |fraction| == 0 then None
    else if |fraction| == 0 then Some(DigitsValue(body[..n]) as real)
    else Some(DigitsValue(body[..n]) as real + FractionValue(fraction))
  }

  /** The value of the digits after the decimal point: `0.d1d2...` is
      `(d1 + 0.d2...) / 10`. */
  function FractionValue(f: string): (v: real)
    requires AllDigits(f)
    ensures 0.0 <= v < 1.0
    ensures f == "" ==> v == 0.0
  {
    if f == "" then 0.0 else (DigitValue(f[0]) as real + FractionValue(f[1..])) / 10.0
  }

  /** `parseFloat`: leading whitespace is skipped, then an optional sign and
      the longest unsigned decimal literal are read; anything after it is
      ignored. `None` stands for NaN. */
  function ParseFloat(s: string): Option<real>
  {
    ParseSigned(s[LeadingWhitespace(s)..])
  }

  function ParseSigned(s: string): Option<real>
  {
    if |s| > 0 && s[0] == '-' then
      match UnsignedPrefix(s[1..])
      case Some(m) => Some(-m)
      case None => None
    else if |s| > 0 && s[0] == '+' then UnsignedPrefix(s[1..])
    else UnsignedPrefix(s)
  }

  lemma {:induction false} LeadingDigitsOfDigitsThen(d: string, t: string)
    requires AllDigits(d)
    requires t == [] || !IsDigit(t[0])
    ensures LeadingDigits(d + t) == |d|
  {
    if |d| > 0 {
      assert (d + t)[1..] == d[1..] + t;
      LeadingDigitsOfDigitsThen(d[1..], t);
    }
  }

  /** A run of digits followed by anything that does not continue a number
      parses to the run's value: `parseFloat("13") == 13`,
      `parseFloat("1/2") == 1`. */
  lemma ParseFloatOfDigitsThen(d: string, t: string)
    requires |d| > 0 && AllDigits(d)
    requires t == [] || (!IsDigit(t[0]) && t[0] != '.')
    ensures ParseFloat(d + t) == Some(DigitsValue(d) as real)
  {
    var s := d + t;
    assert s[0] == d[0];
    assert LeadingWhitespace(s) == 0;
    assert s[0..] == s;
    assert ParseFloat(s) == UnsignedPrefix(s);
    UnsignedPrefixOfDigitsThen(d, t);
  }

  lemma UnsignedPrefixOfDigitsThen(d: string, t: string)
    requires |d| > 0 && AllDigits(d)
    requires t == [] || (!IsDigit(t[0]) && t[0] != '.')
    ensures UnsignedPrefix(d + t) == Some(DigitsValue(d) as real)
  {
    var s := d + t;
    LeadingDigitsOfDigitsThen(d, t);
    assert s[..|d|] == d && s[|d|..] == t;
    UnsignedPrefixOfWhole(s, |d|);
  }

  /** A literal of `n` digits with no fraction after it. */
  lemma UnsignedPrefixOfWhole(body: string, n: nat)
    requires n > 0 && LeadingDigits(body) == n
    requires |body| == n || body[n] != '.'
    ensures UnsignedPrefix(body) == Some(DigitsValue(body[..n]) as real)
  {
    NoFractionAfter(body, n);
  }

  lemma NoFractionAfter(body: string, n: nat)
    requires n <= |body|
    requires |body| == n || body[n] != '.'
    ensures FractionDigits(body[n..]) == ""
  {
    var rest := body[n..];
    if |rest| > 0 {
      assert rest[0] == body[n];
    }
  }

  /** Parsing a rendered integer gives the integer back. */
  lemma ParseFloatOfIntToString(i: int)
    ensures ParseFloat(IntToString(i)) == Some(i as real)
  {
    var m: nat := if i < 0 then -i else i;
    var d := NatToString(m);
    DigitsValueOfNatToString(m);
    ParseFloatOfDigitsThen(d, "");
    assert d + "" == d;
    var s := IntToString(i);
    if i < 0 {
      assert s == "-" + d && s[1..] == d;
      assert LeadingWhitespace(s) == 0 && s[0..] == s;
    }
  }

  // ---------------------------------------------------------------------
  // trim

  /** The characters `String.prototype.trim` removes: the ECMAScript
      WhiteSpace and LineTerminator code points. */
  predicate IsJsWhitespace(c: char) {
    c == '\t' || c == '\n' || c == '\U{000B}' || c == '\U{000C}' || c == '\r' || c == ' '
    || c == '\U{00A0}' || c == '\U{1680}' || ('\U{2000}' <= c <= '\U{200A}')
    || c == '\U{2028}' || c == '\U{2029}' || c == '\U{202F}' || c == '\U{205F}'
    || c == '\U{3000}' || c == '\U{FEFF}'
  }

  /** No whitespace at either end. */
  predicate IsTrimmed(s: string) {
    s == [] || (!IsJsWhitespace(s[0]) && !IsJsWhitespace(s[|s| - 1]))
  }

  /** Number of whitespace characters at the start of `s`. */
  function LeadingWhitespace(s: string): (n: nat)
    ensures n <= |s|
    ensures forall i :: 0 <= i < n ==> IsJsWhitespace(s[i])
    ensures n < |s| ==> !IsJsWhitespace(s[n])
  {
    if |s| > 0 && IsJsWhitespace(s[0]) then 1 + LeadingWhitespace(s[1..]) else 0
  }

  /** Number of whitespace characters at the end of `s`. */
  function TrailingWhitespace(s: string): (n: nat)
    ensures n <= |s|
    ensures forall i :: |s| - n <= i < |s| ==> IsJsWhitespace(s[i])
    ensures n < |s| ==> !IsJsWhitespace(s[|s| - n - 1])
  {
    if |s| > 0 && IsJsWhitespace(s[|s| - 1]) then 1 + TrailingWhitespace(s[..|s| - 1]) else 0
  }

  /** `s.trim()`: the part of `s` between its leading and its trailing
      whitespace; only whitespace is cut off, and none is left at the ends. */
  function Trim(s: string): (r: string)
    ensures IsTrimmed(r)
    ensures var a := LeadingWhitespace(s);
            && a + |r| <= |s| && r == s[a..a + |r|]
            && (forall i :: a + |r| <= i < |s| ==> IsJsWhitespace(s[i]))
  {
    var a := LeadingWhitespace(s);
    var m := TrailingWhitespace(s);
    if a == |s| then ""
    else
      assert !IsJsWhitespace(s[a]);
      s[a..|s| - m]
  }

  lemma TrimOfTrimmed(s: string)
    requires IsTrimmed(s)
    ensures Trim(s) == s
  {
  }

  /** A single leading space is cut off a word that is already trimmed. */
  lemma TrimOfSpaced(s: string)
    requires IsTrimmed(s)
    ensures Trim(" " + s) == s
  {
    assert (" " + s)[1..] == s;
  }

  // ---------------------------------------------------------------------
  // split and join

  /** `s.split(sep)` for a one-character separator: the pieces between the
      separators, in order; an empty string gives `[""]`. */
  function Split(s: string, sep: char): (parts: seq<string>)
    ensures |parts| > 0
    ensures forall i :: 0 <= i < |parts| ==> sep !in parts[i]
  {
    if |s| == 0 then [""]
    else
      var tail := Split(s[1..], sep);
      if s[0] == sep then [""] + tail else [[s[0]] + tail[0]] + tail[1..]
  }

  /** `parts.join(sep)`. */
  function Join(parts: seq<string>, sep: string): string
  {
    if |parts| == 0 then ""
    else if |parts| == 1 then parts[0]
    else parts[0] + sep + Join(parts[1..], sep)
  }

  /** Joining the pieces with the separator gives back the split string. */
  lemma {:induction false} JoinOfSplit(s: string, sep: char)
    ensures Join(Split(s, sep), [sep]) == s
  {
    if |s| > 0 {
      var tail := Split(s[1..], sep);
      JoinOfSplit(s[1..], sep);
      if s[0] == sep {
        assert Split(s, sep) == [""] + tail;
        assert ([""] + tail)[1..] == tail;
        assert s == [sep] + s[1..];
      } else {
        var parts := [[s[0]] + tail[0]] + tail[1..];
        if |tail| == 1 {
          assert s == [s[0]] + s[1..];
        } else {
          assert parts[1..] == tail[1..];
          assert Join(tail, [sep]) == tail[0] + [sep] + Join(tail[1..], [sep]);
          assert s == [s[0]] + s[1..];
        }
      }
    }
  }

  /** Splitting a separator-free prefix followed by more text extends the
      first piece. */
  lemma {:induction false} SplitOfFreePrefix(a: string, t: string, sep: char)
    requires sep !in a
    ensures Split(a + t, sep) == [a + Split(t, sep)[0]] + Split(t, sep)[1..]
  {
    if |a| > 0 {
      var st := Split(t, sep);
      assert (a + t)[1..] == a[1..] + t;
      SplitOfFreePrefix(a[1..], t, sep);
      var tail := Split(a[1..] + t, sep);
      assert tail[0] == a[1..] + st[0] && tail[1..] == st[1..];
      assert (a + t)[0] == a[0] && a[0] != sep;
      assert Split(a + t, sep) == [[a[0]] + tail[0]] + tail[1..];
      assert [a[0]] + (a[1..] + st[0]) == a + st[0];
    } else {
      var st := Split(t, sep);
      assert a + t == t && a + st[0] == st[0];
      assert st == [st[0]] + st[1..];
    }
  }

  /** Pieces that do not contain the separator survive a join and a split. */
  lemma {:induction false} SplitOfJoin(parts: seq<string>, sep: char)
    requires |parts| > 0
    requires forall i :: 0 <= i < |parts| ==> sep !in parts[i]
    ensures Split(Join(parts, [sep]), sep) == parts
  {
    if |parts| == 1 {
      SplitOfFreePrefix(parts[0], "", sep);
      assert parts[0] + "" == parts[0];
    } else {
      var rest := Join(parts[1..], [sep]);
      SplitOfJoin(parts[1..], sep);
      SplitOfFreePrefix(parts[0], [sep] + rest, sep);
      assert parts[0] + [sep] + rest == parts[0] + ([sep] + rest);
      assert ([sep] + rest)[1..] == rest;
      var st := Split([sep] + rest, sep);
      assert st == [""] + Split(rest, sep);
      assert st[0] == "" && st[1..] == parts[1..];
      assert parts[0] + "" == parts[0];
      assert parts == [parts[0]] + parts[1..];
    }
  }

  // ---------------------------------------------------------------------
  // toUpperCase

  function UpperChar(c: char): char {
    if IsLowerAscii(c) then (c as int - 32) as char else c
  }

  predicate IsLowerAscii(c: char) { 'a' <= c <= 'z' }

  /** `s.toUpperCase()` on ASCII letters: no lower-case letter is left and
      every other character is kept where it was. */
  function ToUpper(s: string): (r: string)
    ensures |r| == |s|
    ensures forall i :: 0 <= i < |r| ==> !IsLowerAscii(r[i])
    ensures forall i :: 0 <= i < |s| && !IsLowerAscii(s[i]) ==> r[i] == s[i]
  {
    seq(|s|, i requires 0 <= i < |s| => UpperChar(s[i]))
  }

  /** Upper-casing twice is upper-casing once. */
  lemma ToUpperIdempotent(s: string)
    ensures ToUpper(ToUpper(s)) == ToUpper(s)
  {
  }

  // ---------------------------------------------------------------------
  // Object keys

  /** A canonical decimal string of an integer in [0, 2^32 - 2]: the keys an
      object enumerates first, in ascending numeric order, before all its
      other string keys (which follow in insertion order). */
  predicate IsArrayIndex(k: string) {
    |k| > 0 && AllDigits(k) && (k[0] != '0' || |k| == 1) && DigitsValue(k) < 0xFFFF_FFFF
  }

  /** A digit string denoting zero is all zeros. */
  lemma {:induction false} ZeroDigits(d: string)
    requires AllDigits(d) && DigitsValue(d) == 0
    ensures forall i :: 0 <= i < |d| ==> d[i] == '0'
  {
    if |d| > 0 {
      ZeroDigits(d[..|d| - 1]);
      assert forall i :: 0 <= i < |d| - 1 ==> d[i] == d[..|d| - 1][i];
    }
  }

  /** A canonical digit string is the rendering of its own value. */
  lemma {:induction false} CanonicalDigits(d: string)
    requires |d| > 0 && AllDigits(d) && (d[0] != '0' || |d| == 1)
    ensures NatToString(DigitsValue(d)) == d
  {
    var n := DigitsValue(d);
    if |d| == 1 {
      assert d == [d[0]];
      assert DigitsValue(d[..0]) == 0;
      assert n == DigitValue(d[0]);
    } else {
      var p := d[..|d| - 1];
      assert p[0] == d[0];
      CanonicalDigits(p);
      if DigitsValue(p) == 0 {
        ZeroDigits(p);
        assert false;
      }
      assert n / 10 == DigitsValue(p) && n % 10 == DigitValue(d[|d| - 1]);
      assert d == p + [d[|d| - 1]];
    }
  }

  /** Distinct array-index keys have distinct numeric values. */
  lemma ArrayIndexInjective(a: string, b: string)
    requires IsArrayIndex(a) && IsArrayIndex(b)
    requires DigitsValue(a) == DigitsValue(b)
    ensures a == b
  {
    CanonicalDigits(a);
    CanonicalDigits(b);
  }

  /** `x || fallback` for a nullable string: null, undefined and "" are
      falsy. */
  function OrDefault(x: Option<string>, fallback: string): (r: string)
    ensures x.Some? && x.value != "" ==> r == x.value
    ensures x.None? || x.value == "" ==> r == fallback
  {
    if x.Some? && x.value != "" then x.value else fallback
  }
}
