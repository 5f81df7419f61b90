/** The JavaScript string operations the application relies on, on `seq<char>`. */
module Strings {
  import opened Common

  /** JavaScript's `\s` class: the ECMAScript white space and line terminator characters. */
  predicate IsSpace(c: char) {
    c == ' ' || c == '\t' || c == '\n' || c == '\r' || c == '\U{000B}' || c == '\U{000C}'
    || c == '\U{00A0}' || c == '\U{1680}' || ('\U{2000}' <= c <= '\U{200A}')
    || c == '\U{2028}' || c == '\U{2029}' || c == '\U{202F}' || c == '\U{205F}' || c == '\U{3000}' || c == '\U{FEFF}'
  }

  predicate IsDigit(c: char) { '0' <= c <= '9' }
  predicate IsAsciiLower(c: char) { 'a' <= c <= 'z' }
  predicate IsAsciiUpper(c: char) { 'A' <= c <= 'Z' }

  /** JavaScript's `\w` class (without the `u` flag): `[A-Za-z0-9_]`. */
  predicate IsWordChar(c: char) { IsAsciiLower(c) || IsAsciiUpper(c) || IsDigit(c) || c == '_' }

  /** `toLowerCase` on one character, for ASCII and the basic Cyrillic alphabet. */
  function LowerChar(c: char): (r: char)
    ensures IsAsciiUpper(c) ==> IsAsciiLower(r)
    ensures !IsAsciiUpper(c) && c != 'Ё' && !('А' <= c <= 'Я') ==> r == c
  {
    if IsAsciiUpper(c) then (c as int + 32) as char
    else if 'А' <= c <= 'Я' then (c as int + 32) as char
    else if c == 'Ё' then 'ё'
    else c
  }

  function ToLower(s: string): (r: string)
    ensures |r| == |s|
    ensures forall i | 0 <= i < |s| :: r[i] == LowerChar(s[i])
  {
    seq(|s|, i requires 0 <= i < |s| => LowerChar(s[i]))
  }

  /** `needle` occurs in `hay` starting at index `i`. */
  predicate OccursAt(hay: string, needle: string, i: int) {
    0 <= i && i + |needle| <= |hay| && hay[i..i + |needle|] == needle
  }

  /** `hay.includes(needle)`. */
  predicate Contains(hay: string, needle: string) {
    exists i | 0 <= i <= |hay| - |needle| :: OccursAt(hay, needle, i)
  }

  /** `String.prototype.trim`: drops leading and trailing white space. */
  function TrimStart(s: string): (r: string)
    ensures |r| <= |s| && r == s[|s| - |r|..]
    ensures forall i | 0 <= i < |s| - |r| :: IsSpace(s[i])
    ensures r == [] || !IsSpace(r[0])
  {
    if s != [] && IsSpace(s[0]) then TrimStart(s[1..]) else s
  }

  function TrimEnd(s: string): (r: string)
    ensures |r| <= |s| && r == s[..|r|]
    ensures forall i | |r| <= i < |s| :: IsSpace(s[i])
    ensures r == [] || !IsSpace(r[|r| - 1])
  {
    if s != [] && IsSpace(s[|s| - 1]) then TrimEnd(s[..|s| - 1]) else s
  }

  /** Both ends: the white space that `TrimStart` leaves at the end goes too, so what is left is the middle of
      `s`, with only white space on either side, neither starting nor ending with white space. */
  function Trim(s: string): (r: string)
    ensures |r| <= |TrimStart(s)| && r == TrimStart(s)[..|r|]
    ensures forall i | |r| <= i < |TrimStart(s)| :: IsSpace(TrimStart(s)[i])
    ensures r == [] || (!IsSpace(r[0]) && !IsSpace(r[|r| - 1]))
  {
    TrimEnd(TrimStart(s))
  }

  /** Decimal rendering of a natural number, as `String(n)` / template interpolation writes it. */
  function NatToString(n: nat): (r: string)
    ensures |r| >= 1
    ensures forall i | 0 <= i < |r| :: IsDigit(r[i])
    decreases n
  {
    if n < 10 then [('0' as int + n) as char]
    else NatToString(n / 10) + [('0' as int + n % 10) as char]
  }

  /** Decimal rendering of an integer, with a leading `-` for negatives. */
  function IntToString(n: int): string {
    if n < 0 then "-" + NatToString(-n) else NatToString(n)
  }

  /** `s.split(d)` for a one-character separator: the pieces between occurrences of `d`. */
  function Split(s: string, d: char): (r: seq<string>)
    ensures |r| >= 1
    ensures forall k | 0 <= k < |r| :: d !in r[k]
    decreases |s|
  {
    if s == [] then [""]
    else
      var rest := Split(s[1..], d);
      if s[0] == d then [""] + rest else [[s[0]] + rest[0]] + rest[1..]
  }

  /** `pieces.join(d)`. */
  function Join(pieces: seq<string>, d: char): string {
    if pieces == [] then "" else if |pieces| == 1 then pieces[0] else pieces[0] + [d] + Join(pieces[1..], d)
  }

  /** Splitting and joining on the same separator gives the string back. */
  lemma {:induction false} JoinSplit(s: string, d: char)
    ensures Join(Split(s, d), d) == s
    decreases |s|
  {
    if s != [] {
      JoinSplit(s[1..], d);
      var rest := Split(s[1..], d);
      if s[0] == d {
        assert s == [d] + s[1..];
      } else {
        if |rest| == 1 {
          assert s == [s[0]] + s[1..];
        } else {
          assert Join(rest, d) == rest[0] + [d] + Join(rest[1..], d);
          assert s == [s[0]] + s[1..];
        }
      }
    }
  }

  /** A string without the separator is its own single piece. */
  lemma {:induction false} SplitWithoutSeparator(s: string, d: char)
    requires d !in s
    ensures Split(s, d) == [s]
    decreases |s|
  {
    if s != [] {
      SplitWithoutSeparator(s[1..], d);
      assert s == [s[0]] + s[1..];
    }
  }

  /** Splitting at the first separator: the text before it is the first piece. */
  lemma {:induction false} SplitAround(a: string, d: char, b: string)
    requires d !in a
    ensures Split(a + [d] + b, d) == [a] + Split(b, d)
    decreases |a|
  {
    if a == [] {
      assert a + [d] + b == [d] + b;
      assert ([d] + b)[1..] == b;
    } else {
      SplitAround(a[1..], d, b);
      var s := a + [d] + b;
      assert s[1..] == a[1..] + [d] + b;
      assert [a[0]] + a[1..] == a;
    }
  }

  /** Whatever comes before it, the text after a last separator is the last piece. */
  lemma {:induction false} SplitLast(s: string, d: char, e: string)
    requires d !in e
    ensures var pieces := Split(s + [d] + e, d); |pieces| >= 2 && pieces[|pieces| - 1] == e
    decreases |s|
  {
    var t := s + [d] + e;
    if s == [] {
      assert t == [d] + e && t[1..] == e;
      SplitWithoutSeparator(e, d);
    } else {
      assert t[1..] == s[1..] + [d] + e;
      SplitLast(s[1..], d, e);
    }
  }

  /** `s.replace(pat, rep)` with a string pattern: only the first occurrence is replaced. */
  function ReplaceFirst(s: string, pat: string, rep: string): (r: string)
    decreases |s|
  {
    if |pat| <= |s| && s[..|pat|] == pat then rep + s[|pat|..]
    else if s == [] then s
    else [s[0]] + ReplaceFirst(s[1..], pat, rep)
  }

  /** Where the pattern does not occur, the replacement changes nothing. */
  lemma {:induction false} ReplaceFirstAbsent(s: string, pat: string, rep: string)
    requires pat != [] && !Contains(s, pat)
    ensures ReplaceFirst(s, pat, rep) == s
    decreases |s|
  {
    if |pat| <= |s| {
      assert !OccursAt(s, pat, 0);
      assert s[..|pat|] == s[0..0 + |pat|];
    }
    if s != [] {
      if Contains(s[1..], pat) {
        var i :| 0 <= i <= |s[1..]| - |pat| && OccursAt(s[1..], pat, i);
        assert s[i + 1..i + 1 + |pat|] == s[1..][i..i + |pat|];
        assert OccursAt(s, pat, i + 1);
      }
      ReplaceFirstAbsent(s[1..], pat, rep);
    }
  }

  /** The text before the first occurrence is kept and exactly one occurrence is replaced. */
  lemma {:induction false} ReplaceFirstAt(s: string, pat: string, rep: string, i: nat)
    requires OccursAt(s, pat, i)
    requires forall j | 0 <= j < i :: !OccursAt(s, pat, j)
    ensures ReplaceFirst(s, pat, rep) == s[..i] + rep + s[i + |pat|..]
    decreases i
  {
    if i == 0 {
      assert s[..|pat|] == s[0..0 + |pat|];
    } else {
      assert !OccursAt(s, pat, 0);
      assert s[..|pat|] != pat by { assert s[0..0 + |pat|] == s[..|pat|]; }
      var t := s[1..];
      assert OccursAt(t, pat, i - 1) by { assert t[i - 1..i - 1 + |pat|] == s[i..i + |pat|]; }
      forall j | 0 <= j < i - 1
        ensures !OccursAt(t, pat, j)
      {
        assert !OccursAt(s, pat, j + 1);
        if j + |pat| <= |t| {
          assert t[j..j + |pat|] == s[j + 1..j + 1 + |pat|];
        }
      }
      ReplaceFirstAt(t, pat, rep, i - 1);
      calc {
        ReplaceFirst(s, pat, rep);
        [s[0]] + ReplaceFirst(t, pat, rep);
        [s[0]] + (t[..i - 1] + rep + t[i - 1 + |pat|..]);
        { assert [s[0]] + t[..i - 1] == s[..i]; assert t[i - 1 + |pat|..] == s[i + |pat|..]; }
        s[..i] + rep + s[i + |pat|..];
      }
    }
  }

  /** The leading run of decimal digits. */
  function DigitPrefix(s: string): (r: string)
    ensures |r| <= |s| && r == s[..|r|]
    ensures forall i | 0 <= i < |r| :: IsDigit(r[i])
    ensures |r| < |s| ==> !IsDigit(s[|r|])
  {
    if s != [] && IsDigit(s[0]) then [s[0]] + DigitPrefix(s[1..]) else []
  }

  /** The value of a string of decimal digits. */
  function DigitsValue(ds: string): nat
    requires forall i | 0 <= i < |ds| :: IsDigit(ds[i])
  {
    if ds == [] then 0
    else
      assert IsDigit(ds[|ds| - 1]);
      var d := ds[|ds| - 1] as int - '0' as int;
      DigitsValue(ds[..|ds| - 1]) * 10 + d
  }

  predicate IsHexDigit(c: char) { IsDigit(c) || 'a' <= c <= 'f' || 'A' <= c <= 'F' }

  /** The end of the run of hexadecimal digits that starts at index `i` of `u`. */
  function HexRunEnd(u: string, i: nat): (j: nat)
    requires i <= |u|
    ensures i <= j <= |u|
    ensures j < |u| ==> !IsHexDigit(u[j])
    decreases |u| - i
  {
    if i < |u| && IsHexDigit(u[i]) then HexRunEnd(u, i + 1) else i
  }

  /** Every character between `i` and the end of its run is a hexadecimal digit. */
  lemma {:induction false} HexRunIsHex(u: string, i: nat)
    requires i <= |u|
    ensures forall k | i <= k < HexRunEnd(u, i) :: IsHexDigit(u[k])
    decreases |u| - i
  {
    if i < |u| && IsHexDigit(u[i]) {
      HexRunIsHex(u, i + 1);
    }
  }

  /** The value of a hexadecimal digit; other characters count as 0 and never occur in a run. */
  function HexDigitValue(c: char): nat {
    if IsDigit(c) then c as int - '0' as int
    else if 'a' <= c <= 'f' then c as int - 'a' as int + 10
    else if 'A' <= c <= 'F' then c as int - 'A' as int + 10
    else 0
  }

  /** The base-16 value of `u[i..j]`. */
  function HexDigitsValue(u: string, i: nat, j: nat): nat
    requires i <= j <= |u|
    decreases j - i
  {
    if i == j then 0 else HexDigitsValue(u, i, j - 1) * 16 + HexDigitValue(u[j - 1])
  }

  /** Text that `parseInt` without a radix reads in base 16: it starts with `0x` or `0X`. */
  predicate HexLed(u: string) {
    |u| >= 2 && u[0] == '0' && (u[1] == 'x' || u[1] == 'X')
  }

  /** `Number.parseInt(s)` without a radix: skips leading white space and reads an optional sign; after it,
      `0x` or `0X` switches to base 16 for the digits that follow, otherwise the decimal digits are read.
      `None` stands for `NaN` (no digit where one is needed). */
  function ParseInt(s: string): (r: Option<int>)
    ensures r.None? <==> Magnitude(SignStripped(TrimStart(s))).None?
    ensures r.Some? && r.value < 0 ==> TrimStart(s)[0] == '-'
  {
    var t := TrimStart(s);
    match Magnitude(SignStripped(t))
    case None => None
    case Some(v) => if t[0] == '-' then Some(-(v as int)) else Some(v as int)
  }

  /** The unsigned number after the sign, in base 16 after `0x`/`0X` and in base 10 otherwise. */
  function Magnitude(u: string): (r: Option<nat>)
    ensures !HexLed(u) ==> (r.None? <==> u == [] || !IsDigit(u[0]))
    ensures HexLed(u) ==> (r.None? <==> |u| == 2 || !IsHexDigit(u[2]))
  {
    if HexLed(u) then
      var j := HexRunEnd(u, 2);
      if j == 2 then None else Some(HexDigitsValue(u, 2, j))
    else
      var ds := DigitPrefix(u);
      if ds == [] then None else Some(DigitsValue(ds))
  }

  /** After `0x` or `0X` the run of hexadecimal digits is read in base 16. */
  lemma ParseIntOfHex(s: string, v: nat)
    requires HexLed(s) && 2 < HexRunEnd(s, 2) && v == HexDigitsValue(s, 2, HexRunEnd(s, 2))
    ensures ParseInt(s) == Some(v as int)
  {
    TrimStartOfSignedDigits(s);
    assert SignStripped(s) == s;
  }

  /** A minus sign before `0x` negates the base-16 value. */
  lemma ParseIntOfNegativeHex(s: string, v: nat)
    requires |s| >= 1 && s[0] == '-' && HexLed(s[1..]) && 2 < HexRunEnd(s[1..], 2)
    requires v == HexDigitsValue(s[1..], 2, HexRunEnd(s[1..], 2))
    ensures ParseInt(s) == Some(-(v as int))
  {
    TrimStartOfSignedDigits(s);
    assert SignStripped(s) == s[1..];
  }

  /** `parseInt("0x10")` is 16, while a bare `"0x"` is `NaN`. */
  lemma ParseIntReadsHex()
    ensures ParseInt("0x10") == Some(16)
    ensures ParseInt("0x") == None
  {
    HexMagnitude("0x10", 16);
    TrimStartOfSignedDigits("0x10");
    TrimStartOfSignedDigits("0x");
    assert SignStripped("0x10") == "0x10" && SignStripped("0x") == "0x";
  }

  lemma HexMagnitude(u: string, v: nat)
    requires |u| == 4 && HexLed(u) && IsDigit(u[2]) && IsHexDigit(u[3])
    requires v == (u[2] as int - '0' as int) * 16 + HexDigitValue(u[3])
    ensures Magnitude(u) == Some(v)
  {
    assert HexRunEnd(u, 3) == 4;
    assert HexDigitsValue(u, 2, 3) == u[2] as int - '0' as int;
  }

  /** The text after an optional leading `+` or `-`. */
  function SignStripped(t: string): string {
    if t != [] && (t[0] == '+' || t[0] == '-') then t[1..] else t
  }

  /** Reading back a rendered natural number gives the number. */
  lemma {:induction false} DigitsValueOfNatToString(n: nat)
    ensures DigitsValue(NatToString(n)) == n
    decreases n
  {
    if n >= 10 {
      DigitsValueOfNatToString(n / 10);
      var s := NatToString(n);
      assert s[..|s| - 1] == NatToString(n / 10);
    }
  }

  lemma DigitPrefixOfDigits(ds: string)
    requires forall i | 0 <= i < |ds| :: IsDigit(ds[i])
    ensures DigitPrefix(ds) == ds
  {
  }

  /** A run of decimal digits never starts with `0x`, so it is read in base 10. */
  lemma MagnitudeOfDigits(ds: string)
    requires ds != [] && forall i | 0 <= i < |ds| :: IsDigit(ds[i])
    ensures Magnitude(ds) == Some(DigitsValue(ds))
  {
    assert |ds| >= 2 ==> IsDigit(ds[1]);
    assert !HexLed(ds);
    DigitPrefixOfDigits(ds);
  }

  /** White space never starts a rendered number, so `trimStart` leaves it alone. */
  lemma TrimStartOfSignedDigits(s: string)
    requires s != [] && (s[0] == '-' || IsDigit(s[0]))
    ensures TrimStart(s) == s
  {
    assert !IsSpace(s[0]);
  }

  /** A run of decimal digits reads as its value. */
  lemma ParseIntOfDigits(ds: string)
    requires ds != [] && forall i | 0 <= i < |ds| :: IsDigit(ds[i])
    ensures ParseInt(ds) == Some(DigitsValue(ds) as int)
  {
    MagnitudeOfDigits(ds);
    ParseIntOfMagnitude(ds, DigitsValue(ds));
  }

  /** Without white space or a sign in front, the number read is the magnitude. */
  lemma ParseIntOfMagnitude(s: string, v: nat)
    requires s != [] && IsDigit(s[0]) && Magnitude(s) == Some(v)
    ensures ParseInt(s) == Some(v as int)
  {
    TrimStartOfSignedDigits(s);
    assert SignStripped(s) == s;
  }

  /** With a minus sign in front, the number read is the negated magnitude of the rest. */
  lemma ParseIntOfNegatedMagnitude(s: string, v: nat)
    requires |s| >= 1 && s[0] == '-' && Magnitude(s[1..]) == Some(v)
    ensures ParseInt(s) == Some(-(v as int))
  {
    TrimStartOfSignedDigits(s);
    assert SignStripped(s) == s[1..];
  }

  /** A minus sign before a run of decimal digits negates its value. */
  lemma ParseIntOfNegativeDigits(s: string, v: nat)
    requires |s| >= 2 && s[0] == '-' && forall i | 1 <= i < |s| :: IsDigit(s[i])
    requires DigitsValue(s[1..]) == v
    ensures ParseInt(s) == Some(-(v as int))
  {
    MagnitudeOfDigits(s[1..]);
    ParseIntOfNegatedMagnitude(s, v);
  }

  /** Reading back a rendered natural number. */
  lemma ParseIntOfNatToString(m: nat)
    ensures ParseInt(NatToString(m)) == Some(m)
  {
    ParseIntOfDigits(NatToString(m));
    DigitsValueOfNatToString(m);
  }

  lemma TailOfCons(c: char, t: string)
    ensures ([c] + t)[0] == c && ([c] + t)[1..] == t
  {
  }

  /** `parseInt(String(n)) == n` for every integer. */
  lemma ParseIntOfIntToString(n: int)
    ensures ParseInt(IntToString(n)) == Some(n)
  {
    if n < 0 {
      var ds := NatToString(-n);
      TailOfCons('-', ds);
      DigitsValueOfNatToString(-n);
      ParseIntOfNegativeDigits("-" + ds, -n);
    } else {
      ParseIntOfNatToString(n);
    }
  }
}
