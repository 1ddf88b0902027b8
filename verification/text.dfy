/**
 * The string operations of the .NET runtime that the modelled code relies on:
 * decimal and upper-case hexadecimal formatting, ushort parsing under
 * NumberStyles.Integer and NumberStyles.HexNumber, Trim, Split on one
 * character, and ASCII case folding.
 */
module Text {
  import W = Wrappers

  const UShortMax: nat := 65535

  predicate IsDigit(c: char) { '0' <= c <= '9' }

  predicate AllDigits(s: string) { forall i :: 0 <= i < |s| ==> IsDigit(s[i]) }

  function DigitValue(c: char): (d: nat)
    requires IsDigit(c)
    ensures d < 10
  {
    (c as int) - ('0' as int)
  }

  function DigitChar(d: nat): (c: char)
    requires d < 10
    ensures IsDigit(c) && DigitValue(c) == d
  {
    (('0' as int) + d) as char
  }

  /** The decimal text of a natural number, as ToString() writes it: no sign, no leading zero. */
  function NatToString(n: nat): (s: string)
    ensures |s| >= 1 && AllDigits(s)
    ensures n > 0 ==> s[0] != '0'
  {
    if n < 10 then [DigitChar(n)] else NatToString(n / 10) + [DigitChar(n % 10)]
  }

  /** The decimal text of an integer, with a leading '-' when negative. */
  function IntToString(i: int): (s: string)
    ensures |s| >= 1
    ensures i < 0 <==> s[0] == '-'
  {
    if i < 0 then "-" + NatToString(-i) else NatToString(i)
  }

  /** The value of a string of decimal digits. */
  function DecimalValue(s: string): nat
    requires AllDigits(s)
  {
    if s == [] then 0 else DecimalValue(s[..|s| - 1]) * 10 + DigitValue(s[|s| - 1])
  }

  lemma {:induction false} DecimalRoundTrip(n: nat)
    ensures DecimalValue(NatToString(n)) == n
  {
    if n >= 10 {
      DecimalRoundTrip(n / 10);
      var s := NatToString(n);
      assert s[..|s| - 1] == NatToString(n / 10);
    }
  }

  predicate IsHexDigit(c: char) { '0' <= c <= '9' || 'a' <= c <= 'f' || 'A' <= c <= 'F' }

  predicate AllHexDigits(s: string) { forall i :: 0 <= i < |s| ==> IsHexDigit(s[i]) }

  function HexDigitValue(c: char): (d: nat)
    requires IsHexDigit(c)
    ensures d < 16
  {
    if '0' <= c <= '9' then (c as int) - ('0' as int)
    else if 'a' <= c <= 'f' then (c as int) - ('a' as int) + 10
    else (c as int) - ('A' as int) + 10
  }

  /** An upper-case hexadecimal digit. */
  function HexDigitChar(d: nat): (c: char)
    requires d < 16
    ensures IsHexDigit(c) && HexDigitValue(c) == d
  {
    if d < 10 then (('0' as int) + d) as char else (('A' as int) + d - 10) as char
  }

  function HexValue(s: string): nat
    requires AllHexDigits(s)
  {
    if s == [] then 0 else HexValue(s[..|s| - 1]) * 16 + HexDigitValue(s[|s| - 1])
  }

  function Pow16(k: nat): (p: nat)
    ensures p >= 1
  {
    if k == 0 then 1 else 16 * Pow16(k - 1)
  }

  /** The last `width` hexadecimal digits of n, upper case, most significant first. */
  function HexDigits(n: nat, width: nat): (s: string)
    ensures |s| == width && AllHexDigits(s)
  {
    if width == 0 then [] else HexDigits(n / 16, width - 1) + [HexDigitChar(n % 16)]
  }

  /** ToString("X4") of a ushort: exactly four upper-case hexadecimal digits. */
  function ToHexX4(n: nat): (s: string)
    requires n <= UShortMax
    ensures |s| == 4 && AllHexDigits(s)
  {
    HexDigits(n, 4)
  }

  lemma {:induction false} HexDigitsRoundTrip(n: nat, width: nat)
    requires n < Pow16(width)
    ensures HexValue(HexDigits(n, width)) == n
  {
    if width > 0 {
      var q, r, p := n / 16, n % 16, Pow16(width - 1);
      assert n == q * 16 + r;
      assert Pow16(width) == 16 * p;
      assert q < p;
      HexDigitsRoundTrip(q, width - 1);
      var s := HexDigits(n, width);
      assert s == HexDigits(q, width - 1) + [HexDigitChar(r)];
      assert s[..|s| - 1] == HexDigits(q, width - 1);
      assert HexDigitValue(s[|s| - 1]) == r;
    }
  }

  /** The white space NumberStyles allows around a number: U+0009 to U+000D and U+0020. */
  predicate IsNumberWhiteSpace(c: char) { c == ' ' || '\t' <= c <= '\r' }

  /** TrimStart(c): every leading c removed. */
  function TrimStart(s: string, c: char): (r: string)
    ensures |r| <= |s|
    ensures r != [] ==> r[0] != c
  {
    if s != [] && s[0] == c then TrimStart(s[1..], c) else s
  }

  /** TrimEnd(c): every trailing c removed. */
  function TrimEnd(s: string, c: char): (r: string)
    ensures |r| <= |s| && r == s[..|r|]
    ensures r != [] ==> r[|r| - 1] != c
  {
    if s != [] && s[|s| - 1] == c then TrimEnd(s[..|s| - 1], c) else s
  }

  /** String.Trim(c): every leading and trailing c removed. */
  function Trim(s: string, c: char): (r: string)
    ensures |r| <= |s|
    ensures r != [] ==> r[0] != c && r[|r| - 1] != c
  {
    TrimEnd(TrimStart(s, c), c)
  }

  /** A string without c at either end is its own trim. */
  lemma TrimUnchanged(s: string, c: char)
    requires s != [] ==> s[0] != c && s[|s| - 1] != c
    ensures Trim(s, c) == s
  {
  }

  function TrimStartWhiteSpace(s: string): (r: string)
    ensures |r| <= |s|
  {
    if s != [] && IsNumberWhiteSpace(s[0]) then TrimStartWhiteSpace(s[1..]) else s
  }

  function TrimEndWhiteSpace(s: string): (r: string)
    ensures |r| <= |s|
  {
    if s != [] && IsNumberWhiteSpace(s[|s| - 1]) then TrimEndWhiteSpace(s[..|s| - 1]) else s
  }

  /** A c in front of a string without c at either end is trimmed away. */
  lemma TrimLeading(c: char, h: string)
    requires h != [] && h[0] != c && h[|h| - 1] != c
    ensures Trim([c] + h, c) == h
  {
    var s := [c] + h;
    assert s[1..] == h;
    assert TrimStart(s, c) == TrimStart(h, c) == h;
    assert TrimEnd(h, c) == h;
  }

  /** A c after a string without c at either end is trimmed away. */
  lemma TrimTrailing(h: string, c: char)
    requires h != [] && h[0] != c && h[|h| - 1] != c
    ensures Trim(h + [c], c) == h
  {
    var s := h + [c];
    assert s[0] == h[0];
    assert TrimStart(s, c) == s;
    assert s[..|s| - 1] == h;
    assert TrimEnd(s, c) == TrimEnd(h, c) == h;
  }

  /** The number white space at both ends removed. */
  function TrimNumberWhiteSpace(s: string): (r: string)
    ensures |r| <= |s|
  {
    TrimEndWhiteSpace(TrimStartWhiteSpace(s))
  }

  /**
   * ushort.TryParse(s) under NumberStyles.Integer: optional surrounding white
   * space, an optional '+' or '-', then at least one decimal digit; a value
   * above 65535, or a nonzero one after '-', fails.
   */
  function ParseUShort(s: string): (r: W.Option<nat>)
    ensures r.Some? ==> r.value <= UShortMax
  {
    var t := TrimNumberWhiteSpace(s);
    var negative := |t| > 0 && t[0] == '-';
    var digits := if |t| > 0 && (t[0] == '-' || t[0] == '+') then t[1..] else t;
    if digits == [] || !AllDigits(digits) then W.None
    else
      var v := DecimalValue(digits);
      if v > UShortMax || (negative && v != 0) then W.None else W.Some(v)
  }

  /** ushort.TryParse(s, NumberStyles.HexNumber): optional surrounding white space and at least one hexadecimal digit of either case, no sign. */
  function ParseUShortHex(s: string): (r: W.Option<nat>)
    ensures r.Some? ==> r.value <= UShortMax
  {
    var t := TrimNumberWhiteSpace(s);
    if t == [] || !AllHexDigits(t) then W.None
    else
      var v := HexValue(t);
      if v > UShortMax then W.None else W.Some(v)
  }

  lemma TrimNumberWhiteSpaceUnchanged(s: string)
    requires s != [] && !IsNumberWhiteSpace(s[0]) && !IsNumberWhiteSpace(s[|s| - 1])
    ensures TrimNumberWhiteSpace(s) == s
  {
    assert TrimStartWhiteSpace(s) == s;
  }

  /** ParseUShort reads back what NatToString writes for every ushort. */
  lemma ParseUShortRoundTrip(n: nat)
    requires n <= UShortMax
    ensures ParseUShort(NatToString(n)) == W.Some(n)
  {
    var s := NatToString(n);
    TrimNumberWhiteSpaceUnchanged(s);
    assert s[0] != '-' && s[0] != '+';
    DecimalRoundTrip(n);
  }

  /** ParseUShortHex reads back what ToHexX4 writes for every ushort. */
  lemma ParseUShortHexRoundTrip(n: nat)
    requires n <= UShortMax
    ensures ParseUShortHex(ToHexX4(n)) == W.Some(n)
  {
    var s := ToHexX4(n);
    TrimNumberWhiteSpaceUnchanged(s);
    assert Pow16(4) == 65536;
    HexDigitsRoundTrip(n, 4);
  }

  /** String.Split(sep): the pieces between the separators, empty ones included. */
  function Split(s: string, sep: char): (r: seq<string>)
    ensures |r| >= 1
    ensures forall i :: 0 <= i < |r| ==> sep !in r[i]
  {
    if s == [] then [""]
    else
      var rest := Split(s[1..], sep);
      if s[0] == sep then [""] + rest else [[s[0]] + rest[0]] + rest[1..]
  }

  /** String.Join(sep, parts). */
  function Join(parts: seq<string>, sep: char): string
    requires |parts| >= 1
  {
    if |parts| == 1 then parts[0] else parts[0] + [sep] + Join(parts[1..], sep)
  }

  /** Splitting and joining again gives back the original string. */
  lemma {:induction false} JoinSplit(s: string, sep: char)
    ensures Join(Split(s, sep), sep) == s
  {
    if s != [] {
      JoinSplit(s[1..], sep);
      var rest := Split(s[1..], sep);
      if s[0] != sep {
        if |rest| > 1 {
          assert rest[1..][0] == rest[1];
          assert ([[s[0]] + rest[0]] + rest[1..])[1..] == rest[1..];
        }
      }
    }
  }

  /** Splitting a join of separator-free pieces gives back the pieces. */
  lemma {:induction false} SplitJoin(parts: seq<string>, sep: char)
    requires |parts| >= 1
    requires forall i :: 0 <= i < |parts| ==> sep !in parts[i]
    ensures Split(Join(parts, sep), sep) == parts
  {
    if |parts| == 1 {
      SplitNoSeparator(parts[0], sep);
    } else {
      SplitJoin(parts[1..], sep);
      SplitPrefix(parts[0], Join(parts[1..], sep), sep);
      assert Join(parts, sep) == parts[0] + ([sep] + Join(parts[1..], sep));
    }
  }

  lemma {:induction false} SplitNoSeparator(s: string, sep: char)
    requires sep !in s
    ensures Split(s, sep) == [s]
  {
    if s != [] {
      SplitNoSeparator(s[1..], sep);
      assert [s[0]] + s[1..] == s;
    }
  }

  /** Splitting p + sep + t, with no separator in p, puts p in front of the pieces of t. */
  lemma {:induction false} SplitPrefix(p: string, t: string, sep: char)
    requires sep !in p
    ensures Split(p + ([sep] + t), sep) == [p] + Split(t, sep)
  {
    if p == [] {
      assert p + ([sep] + t) == [sep] + t;
      assert ([sep] + t)[1..] == t;
    } else {
      SplitPrefix(p[1..], t, sep);
      assert (p + ([sep] + t))[1..] == p[1..] + ([sep] + t);
      assert [p[0]] + p[1..] == p;
    }
  }

  function ToLowerChar(c: char): char {
    if 'A' <= c <= 'Z' then ((c as int) - ('A' as int) + ('a' as int)) as char else c
  }

  /** ToLower() restricted to ASCII letters. */
  function ToLower(s: string): (r: string)
    ensures |r| == |s|
    ensures forall i :: 0 <= i < |s| ==> r[i] == ToLowerChar(s[i])
  {
    if s == [] then [] else [ToLowerChar(s[0])] + ToLower(s[1..])
  }

  /** ToLower of a concatenation is the concatenation of the ToLowers. */
  lemma ToLowerAppend(a: string, b: string)
    ensures ToLower(a + b) == ToLower(a) + ToLower(b)
  {
    assert forall i :: 0 <= i < |a + b| ==> ToLower(a + b)[i] == (ToLower(a) + ToLower(b))[i];
  }

  /**
   * Char.IsWhiteSpace: the Unicode space separators, U+2028 and U+2029, and
   * the controls U+0009 to U+000D and U+0085.
   */
  predicate IsWhiteSpace(c: char) {
    IsNumberWhiteSpace(c) || c == '\U{85}' || c == '\U{A0}' || c == '\U{1680}' ||
    '\U{2000}' <= c <= '\U{200A}' || c == '\U{2028}' || c == '\U{2029}' ||
    c == '\U{202F}' || c == '\U{205F}' || c == '\U{3000}'
  }

  /** Lower-casing neither creates nor removes white space. */
  lemma ToLowerCharWhiteSpace(c: char)
    ensures IsWhiteSpace(ToLowerChar(c)) <==> IsWhiteSpace(c)
    ensures IsWhiteSpace(c) ==> ToLowerChar(c) == c
  {
  }

  /** White space is its own lower case. */
  lemma ToLowerWhiteSpace(pad: string)
    requires forall i :: 0 <= i < |pad| ==> IsWhiteSpace(pad[i])
    ensures ToLower(pad) == pad
  {
    forall i | 0 <= i < |pad|
      ensures ToLower(pad)[i] == pad[i]
    {
      ToLowerCharWhiteSpace(pad[i]);
    }
  }

  /** The string after its leading white space. */
  function TrimStartAll(s: string): (r: string)
    ensures |r| <= |s| && r == s[|s| - |r|..]
    ensures r != [] ==> !IsWhiteSpace(r[0])
  {
    if s != [] && IsWhiteSpace(s[0]) then TrimStartAll(s[1..]) else s
  }

  /** The string before its trailing white space. */
  function TrimEndAll(s: string): (r: string)
    ensures |r| <= |s| && r == s[..|r|]
    ensures r != [] ==> !IsWhiteSpace(r[|r| - 1])
  {
    if s != [] && IsWhiteSpace(s[|s| - 1]) then TrimEndAll(s[..|s| - 1]) else s
  }

  /** String.Trim(): the white space at both ends removed. */
  function TrimWhiteSpace(s: string): (r: string)
    ensures |r| <= |s|
    ensures r != [] ==> !IsWhiteSpace(r[0]) && !IsWhiteSpace(r[|r| - 1])
  {
    TrimEndAll(TrimStartAll(s))
  }

  /** Leading white space stops at the first other character, wherever the rest comes from. */
  lemma {:induction false} TrimStartAllAppend(a: string, b: string)
    requires b != [] && !IsWhiteSpace(b[0])
    ensures TrimStartAll(a + b) == TrimStartAll(a) + b
  {
    if a == [] {
      assert a + b == b;
    } else if IsWhiteSpace(a[0]) {
      assert (a + b)[1..] == a[1..] + b;
      TrimStartAllAppend(a[1..], b);
    }
  }

  /** Trailing white space after a string that ends in another character is removed, and nothing more. */
  lemma {:induction false} TrimEndAllPadding(a: string, pad: string)
    requires a != [] && !IsWhiteSpace(a[|a| - 1])
    requires forall i :: 0 <= i < |pad| ==> IsWhiteSpace(pad[i])
    ensures TrimEndAll(a + pad) == a
    decreases |pad|
  {
    if pad == [] {
      assert a + pad == a;
    } else {
      var s := a + pad;
      assert s[|s| - 1] == pad[|pad| - 1];
      assert s[..|s| - 1] == a + pad[..|pad| - 1];
      TrimEndAllPadding(a, pad[..|pad| - 1]);
    }
  }

  /** String.EndsWith, ordinal. */
  predicate EndsWith(s: string, suffix: string) {
    |s| >= |suffix| && s[|s| - |suffix|..] == suffix
  }

  /**
   * Trimming a string that ends with a tail starting and ending in other
   * characters than white space, then white space, leaves it ending with the tail.
   */
  lemma TrimPadded(head: string, tail: string, pad: string)
    requires tail != [] && !IsWhiteSpace(tail[0]) && !IsWhiteSpace(tail[|tail| - 1])
    requires forall i :: 0 <= i < |pad| ==> IsWhiteSpace(pad[i])
    ensures EndsWith(TrimWhiteSpace(head + (tail + pad)), tail)
  {
    var h := TrimStartAll(head);
    TrimStartAllAppend(head, tail + pad);
    var t := h + tail;
    ConcatAssociates(h, tail, pad);
    assert t[|t| - 1] == tail[|tail| - 1];
    TrimEndAllPadding(t, pad);
    assert t[|t| - |tail|..] == tail;
  }

  lemma ConcatAssociates(a: string, b: string, c: string)
    ensures a + (b + c) == (a + b) + c
  {
  }

  /** Equality ignoring the case of ASCII letters. */
  predicate EqualsIgnoreCase(a: string, b: string) {
    ToLower(a) == ToLower(b)
  }

  /** Whether sub occurs in s at some position. */
  predicate ContainsSubstring(s: string, sub: string)
    decreases |s|
  {
    sub <= s || (s != [] && ContainsSubstring(s[1..], sub))
  }

  lemma {:induction false} ContainsSubstringAt(s: string, sub: string, k: nat)
    requires k + |sub| <= |s| && s[k..k + |sub|] == sub
    ensures ContainsSubstring(s, sub)
    decreases k
  {
    if k > 0 {
      assert s[1..][k - 1..k - 1 + |sub|] == s[k..k + |sub|];
      ContainsSubstringAt(s[1..], sub, k - 1);
    } else {
      assert sub <= s;
    }
  }
}
