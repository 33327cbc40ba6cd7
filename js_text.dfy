/** The JavaScript string operations the pages and the update script rely
    on: `trim`, `split`, `join`, `replace(/\D/g, '')`, `String(n)` of an
    integer and `parseInt(s)` without a radix. */
module JsText {
  import opened Options

  /** The characters `trim` and `parseInt` skip: ECMAScript's WhiteSpace
      and LineTerminator code points. */
  predicate IsWhiteSpace(c: char) {
    c == '\t' || c == '\n' || c == '\U{000B}' || c == '\U{000C}' || c == '\r' ||
    c == ' ' || c == '\U{00A0}' || c == '\U{1680}' ||
    ('\U{2000}' <= c <= '\U{200A}') ||
    c == '\U{2028}' || c == '\U{2029}' || c == '\U{202F}' || c == '\U{205F}' ||
    c == '\U{3000}' || c == '\U{FEFF}'
  }

  predicate AllWhiteSpace(s: string) {
    forall i :: 0 <= i < |s| ==> IsWhiteSpace(s[i])
  }

  /** `s.trimStart()`: a suffix of `s` that does not start with white
      space. */
  function TrimStart(s: string): (r: string)
    ensures r == [] || !IsWhiteSpace(r[0])
    ensures |r| <= |s|
  {
    if s == [] || !IsWhiteSpace(s[0]) then s
    else TrimStart(s[1..])
  }

  /** What `trimStart` keeps is a suffix of its input. */
  lemma {:induction false} TrimStartIsSuffix(s: string)
    ensures TrimStart(s) == s[|s| - |TrimStart(s)|..]
  {
    if s != [] && IsWhiteSpace(s[0]) {
      TrimStartIsSuffix(s[1..]);
    }
  }

  /** What `trimStart` removes is white space. */
  lemma {:induction false} TrimStartDropsWhiteSpace(s: string)
    ensures AllWhiteSpace(s[..|s| - |TrimStart(s)|])
  {
    if s != [] && IsWhiteSpace(s[0]) {
      TrimStartDropsWhiteSpace(s[1..]);
      var r := TrimStart(s);
      assert s[..|s| - |r|] == [s[0]] + s[1..][..|s[1..]| - |r|];
    }
  }

  /** `s.trimEnd()`: a prefix of `s` that does not end with white space. */
  function TrimEnd(s: string): (r: string)
    ensures r == [] || !IsWhiteSpace(r[|r| - 1])
    ensures r <= s
  {
    if s == [] || !IsWhiteSpace(s[|s| - 1]) then s
    else TrimEnd(s[..|s| - 1])
  }

  /** What `trimEnd` removes is white space. */
  lemma {:induction false} TrimEndDropsWhiteSpace(s: string)
    ensures AllWhiteSpace(s[|TrimEnd(s)|..])
  {
    if s != [] && IsWhiteSpace(s[|s| - 1]) {
      TrimEndDropsWhiteSpace(s[..|s| - 1]);
      var r := TrimEnd(s);
      assert s[|r|..] == s[..|s| - 1][|r|..] + [s[|s| - 1]];
    }
  }

  /** `s.trim()`: `s` without leading and trailing white space. */
  function Trim(s: string): (r: string)
    ensures r == [] || (!IsWhiteSpace(r[0]) && !IsWhiteSpace(r[|r| - 1]))
  {
    var t := TrimStart(s);
    TrimEndKeepsStart(t);
    TrimEnd(t)
  }

  /** `trimEnd` leaves the first character of what it keeps alone. */
  lemma TrimEndKeepsStart(t: string)
    ensures TrimEnd(t) == [] || TrimEnd(t)[0] == t[0]
  {
    var r := TrimEnd(t);
    if r != [] {
      assert r <= t;
    }
  }

  /** `trim` removes white space at both ends and nothing else: the result
      sits in `s` between two runs of white space. */
  lemma TrimRemovesOnlyWhiteSpace(s: string)
    ensures var i := |s| - |TrimStart(s)|;
      i + |Trim(s)| <= |s| && s[i..i + |Trim(s)|] == Trim(s) &&
      AllWhiteSpace(s[..i]) && AllWhiteSpace(s[i + |Trim(s)|..])
  {
    var t := TrimStart(s);
    var i := |s| - |t|;
    TrimStartIsSuffix(s);
    TrimStartDropsWhiteSpace(s);
    TrimEndDropsWhiteSpace(t);
    var r := Trim(s);
    assert r == TrimEnd(t) && r <= t;
    SliceOfSuffix(s, i, t, |r|);
  }

  /** Slicing a suffix `t == s[i..]` is slicing `s` shifted by `i`. */
  lemma SliceOfSuffix(s: string, i: nat, t: string, k: nat)
    requires i <= |s| && t == s[i..] && k <= |t|
    ensures s[i..i + k] == t[..k] && s[i + k..] == t[k..]
  {
  }



  lemma {:induction false} TrimStartSkipsPadding(pad: string, s: string)
    requires AllWhiteSpace(pad)
    ensures TrimStart(pad + s) == TrimStart(s)
  {
    if pad != [] {
      assert (pad + s)[1..] == pad[1..] + s;
      TrimStartSkipsPadding(pad[1..], s);
    } else {
      assert pad + s == s;
    }
  }

  lemma {:induction false} TrimEndSkipsPadding(s: string, pad: string)
    requires AllWhiteSpace(pad)
    ensures TrimEnd(s + pad) == TrimEnd(s)
  {
    if pad != [] {
      var n := |pad|;
      assert (s + pad)[..|s + pad| - 1] == s + pad[..n - 1];
      TrimEndSkipsPadding(s, pad[..n - 1]);
    } else {
      assert s + pad == s;
    }
  }

  /** A text of white space only trims to nothing. */
  lemma {:induction false} TrimStartOfWhiteSpace(s: string)
    requires AllWhiteSpace(s)
    ensures TrimStart(s) == []
  {
    if s != [] {
      TrimStartOfWhiteSpace(s[1..]);
    }
  }

  lemma TrimStartOfLeadingText(t: string, after: string)
    requires t != [] && !IsWhiteSpace(t[0])
    ensures TrimStart(t + after) == t + after
  {
    assert (t + after)[0] == t[0];
  }

  /** A text with no white space at either end is its own trim. */
  lemma TrimOfTrimmed(s: string)
    requires s == [] || (!IsWhiteSpace(s[0]) && !IsWhiteSpace(s[|s| - 1]))
    ensures Trim(s) == s
  {
  }

  /** Trimming the start of `s` first does not change where the start of
      `s + after` trims to. */
  lemma {:induction false} TrimStartAppend(s: string, after: string)
    ensures TrimStart(s + after) == TrimStart(TrimStart(s) + after)
  {
    if s != [] && IsWhiteSpace(s[0]) {
      assert (s + after)[0] == s[0];
      assert (s + after)[1..] == s[1..] + after;
      TrimStartAppend(s[1..], after);
    } else if s == [] {
      assert s + after == after;
    }
  }

  /** Leading padding, and the white space that starts `s`, are skipped. */
  lemma TrimStartOfPadded(before: string, s: string, after: string)
    requires AllWhiteSpace(before)
    ensures TrimStart(before + (s + after)) == TrimStart(TrimStart(s) + after)
  {
    TrimStartSkipsPadding(before, s + after);
    TrimStartAppend(s, after);
  }

  /** White space around a text does not change what `trim` yields. */
  lemma TrimIgnoresPadding(before: string, s: string, after: string)
    requires AllWhiteSpace(before) && AllWhiteSpace(after)
    ensures Trim(before + s + after) == Trim(s)
  {
    var t := TrimStart(s);
    assert before + s + after == before + (s + after);
    TrimStartOfPadded(before, s, after);
    if t == [] {
      assert t + after == after;
      TrimStartOfWhiteSpace(after);
    } else {
      TrimStartOfLeadingText(t, after);
      TrimEndSkipsPadding(t, after);
    }
  }

  /** A text is blank when nothing is left after `trim`, which is the case
      exactly when it is made of white space only. */
  predicate IsBlank(s: string) {
    Trim(s) == ""
  }

  lemma BlankIffWhiteSpace(s: string)
    ensures IsBlank(s) <==> AllWhiteSpace(s)
  {
    var t := TrimStart(s);
    TrimStartIsSuffix(s);
    var w := s[..|s| - |t|];
    assert s == w + t;
    if AllWhiteSpace(s) {
      TrimStartOfWhiteSpace(s);
    }
    if IsBlank(s) {
      TrimStartDropsWhiteSpace(s);
      TrimEndDropsWhiteSpace(t);
      assert t[|TrimEnd(t)|..] == t;
    }
  }

  /** `s.split(sep)[0]`: the text before the first `sep`, or all of `s`. */
  function BeforeFirst(s: string, sep: char): (r: string)
    ensures r <= s && sep !in r
    ensures |r| < |s| ==> s[|r|] == sep
  {
    if s == [] || s[0] == sep then []
    else [s[0]] + BeforeFirst(s[1..], sep)
  }

  /** A text without the separator is its own first piece. */
  lemma BeforeFirstWithout(s: string, sep: char)
    requires sep !in s
    ensures BeforeFirst(s, sep) == s
  {
  }

  lemma {:induction false} BeforeFirstOfJoined(a: string, sep: char, b: string)
    requires sep !in a
    ensures BeforeFirst(a + [sep] + b, sep) == a
  {
    if a != [] {
      assert (a + [sep] + b)[1..] == a[1..] + [sep] + b;
      BeforeFirstOfJoined(a[1..], sep, b);
    }
  }

  /** `s.split(sep)` for a one-character separator: the pieces between the
      separators, in order; the empty text gives one empty piece. */
  function Split(s: string, sep: char): (parts: seq<string>)
    ensures |parts| >= 1 && parts[0] == BeforeFirst(s, sep)
    ensures forall i :: 0 <= i < |parts| ==> sep !in parts[i]
    decreases |s|
  {
    var head := BeforeFirst(s, sep);
    if |head| == |s| then [s]
    else [head] + Split(s[|head| + 1..], sep)
  }

  /** `parts.join(sep)`. */
  function Join(parts: seq<string>, sep: char): string {
    if parts == [] then ""
    else if |parts| == 1 then parts[0]
    else parts[0] + [sep] + Join(parts[1..], sep)
  }

  /** Splitting and joining with the same separator gives back the text. */
  lemma {:induction false} JoinSplit(s: string, sep: char)
    ensures Join(Split(s, sep), sep) == s
    decreases |s|
  {
    var head := BeforeFirst(s, sep);
    if |head| < |s| {
      var rest := s[|head| + 1..];
      var parts := Split(rest, sep);
      assert Split(s, sep) == [head] + parts;
      assert ([head] + parts)[1..] == parts;
      assert Join([head] + parts, sep) == head + [sep] + Join(parts, sep);
      JoinSplit(rest, sep);
      assert s == head + [sep] + rest;
    } else {
      assert Split(s, sep) == [s];
    }
  }


  predicate IsDigit(c: char) {
    '0' <= c <= '9'
  }

  /** `s.replace(/\D/g, '')`: the decimal digits of `s`, in order. */
  function DigitsOnly(s: string): (r: string)
    ensures forall i :: 0 <= i < |r| ==> IsDigit(r[i])
    ensures forall c :: IsDigit(c) ==> multiset(r)[c] == multiset(s)[c]
  {
    if s == [] then []
    else
      assert s == [s[0]] + s[1..];
      (if IsDigit(s[0]) then [s[0]] else []) + DigitsOnly(s[1..])
  }

  /** Removing non-digits works piece by piece, so the digits keep their
      order. */
  lemma {:induction false} DigitsOnlyAppend(a: string, b: string)
    ensures DigitsOnly(a + b) == DigitsOnly(a) + DigitsOnly(b)
  {
    if a == [] {
      assert a + b == b;
    } else {
      assert (a + b)[1..] == a[1..] + b;
      DigitsOnlyAppend(a[1..], b);
    }
  }

  /** A text of digits passes through unchanged. */
  lemma {:induction false} DigitsOnlyOfDigits(s: string)
    requires forall i :: 0 <= i < |s| ==> IsDigit(s[i])
    ensures DigitsOnly(s) == s
  {
    if s != [] {
      DigitsOnlyOfDigits(s[1..]);
    }
  }

  function DigitChar(d: nat): (c: char)
    requires d < 10
    ensures IsDigit(c) && c as int - '0' as int == d
  {
    ('0' as int + d) as char
  }

  /** `String(n)` for a non-negative integer: its decimal digits, with no
      leading zero. */
  function NatText(n: nat): (r: string)
    ensures |r| >= 1
    ensures forall i :: 0 <= i < |r| ==> IsDigit(r[i])
    ensures |r| > 1 ==> r[0] != '0'
  {
    if n < 10 then [DigitChar(n)]
    else NatText(n / 10) + [DigitChar(n % 10)]
  }

  /** `String(n)` for an integer. */
  function IntText(n: int): string {
    if n < 0 then "-" + NatText(-n) else NatText(n)
  }

  /** The text of an integer is a non-empty run of digits, with a minus
      sign in front when negative. */
  lemma IntTextShape(n: int)
    ensures IntText(n) != ""
    ensures forall i :: 0 <= i < |IntText(n)| ==> IsDigit(IntText(n)[i]) || IntText(n)[i] == '-'
  {
  }

  /** The value of digit `c` in base `radix`, if it is one. */
  function DigitValue(c: char, radix: nat): (r: Option<nat>)
    ensures r.Some? ==> r.value < radix
  {
    var d :=
      if '0' <= c <= '9' then (c as int) - ('0' as int)
      else if 'a' <= c <= 'z' then (c as int) - ('a' as int) + 10
      else if 'A' <= c <= 'Z' then (c as int) - ('A' as int) + 10
      else 36;
    if d < radix then Some(d) else None
  }

  /** The longest prefix of `s` made of base-`radix` digits. */
  function DigitPrefix(s: string, radix: nat): (r: string)
    ensures r <= s
    ensures forall i :: 0 <= i < |r| ==> DigitValue(r[i], radix).Some?
    ensures |r| < |s| ==> DigitValue(s[|r|], radix).None?
  {
    if s == [] || DigitValue(s[0], radix).None? then []
    else [s[0]] + DigitPrefix(s[1..], radix)
  }

  /** Keeps the solver's non-linear arithmetic out of DigitsValue. */
  lemma NatProduct(a: nat, b: nat)
    ensures a * b >= 0
  {
  }

  /** The number written by the digits `ds` in base `radix`. */
  function DigitsValue(ds: string, radix: nat): nat
    requires forall i :: 0 <= i < |ds| ==> DigitValue(ds[i], radix).Some?
  {
    if ds == [] then 0
    else
      var init := ds[..|ds| - 1];
      assert forall i :: 0 <= i < |init| ==> init[i] == ds[i];
      var high := DigitsValue(init, radix);
      var low := DigitValue(ds[|ds| - 1], radix).value;
      NatProduct(high, radix);
      high * radix + low
  }

  /** The leading base-`radix` digits of `u` read as a number; `NaN` when
      there are none. */
  function ReadDigits(u: string, radix: nat): Option<nat> {
    var ds := DigitPrefix(u, radix);
    if ds == [] then None else Some(DigitsValue(ds, radix))
  }

  /** An unsigned numeral: hexadecimal after `0x`/`0X`, decimal otherwise. */
  function ReadUnsigned(u: string): Option<nat> {
    if |u| >= 2 && u[0] == '0' && (u[1] == 'x' || u[1] == 'X') then ReadDigits(u[2..], 16)
    else ReadDigits(u, 10)
  }

  /** `parseInt(s)` with no radix: skip leading white space, take an
      optional sign, read hexadecimal after `0x`/`0X` and decimal
      otherwise, and stop at the first character that is not a digit;
      `NaN` (here `None`) when no digit is read. */
  function ParseInt(s: string): Option<int> {
    var t := TrimStart(s);
    if t != [] && t[0] == '-' then
      match ReadUnsigned(t[1..])
      case None => None
      case Some(v) => Some(-(v as int))
    else if t != [] && t[0] == '+' then ReadUnsigned(t[1..])
    else ReadUnsigned(t)
  }

  /** `parseInt` skips any white space in front of the numeral. */
  lemma ParseIntSkipsWhiteSpace(pad: string, s: string)
    requires AllWhiteSpace(pad)
    ensures ParseInt(pad + s) == ParseInt(s)
  {
    TrimStartSkipsPadding(pad, s);
  }

  lemma {:induction false} NatTextValue(n: nat)
    ensures forall i :: 0 <= i < |NatText(n)| ==> DigitValue(NatText(n)[i], 10).Some?
    ensures DigitsValue(NatText(n), 10) == n
  {
    if n >= 10 {
      NatTextValue(n / 10);
      var t := NatText(n);
      assert t[..|t| - 1] == NatText(n / 10);
    }
  }

  lemma {:induction false} DigitPrefixOfDigits(s: string, radix: nat)
    requires forall i :: 0 <= i < |s| ==> DigitValue(s[i], radix).Some?
    ensures DigitPrefix(s, radix) == s
  {
    if s != [] {
      DigitPrefixOfDigits(s[1..], radix);
    }
  }

  lemma ReadUnsignedNatText(m: nat)
    ensures ReadUnsigned(NatText(m)) == Some(m)
  {
    var d := NatText(m);
    NatTextValue(m);
    DigitPrefixOfDigits(d, 10);
    assert |d| >= 2 ==> d[1] != 'x' && d[1] != 'X' by {
      if |d| >= 2 { assert IsDigit(d[1]); }
    }
  }

  lemma DigitNotWhiteSpace(c: char)
    requires IsDigit(c)
    ensures !IsWhiteSpace(c)
  {
  }

  lemma TrimStartNatText(m: nat)
    ensures TrimStart(NatText(m)) == NatText(m)
  {
    var d := NatText(m);
    DigitNotWhiteSpace(d[0]);
  }

  lemma ParseIntNatText(m: nat)
    ensures ParseInt(NatText(m)) == Some(m)
  {
    TrimStartNatText(m);
    assert ParseInt(NatText(m)) == ReadUnsigned(NatText(m));
    ReadUnsignedNatText(m);
  }

  lemma TrimStartNegativeText(m: nat)
    ensures TrimStart("-" + NatText(m)) == "-" + NatText(m)
  {
    assert ("-" + NatText(m))[0] == '-';
  }

  lemma ParseIntNegativeText(m: nat)
    ensures ParseInt("-" + NatText(m)) == Some(-(m as int))
  {
    TrimStartNegativeText(m);
    assert ("-" + NatText(m))[1..] == NatText(m);
    ReadUnsignedNatText(m);
  }

  /** `parseInt(String(n)) === n` for every integer `n`: a path segment
      written from an integer id is read back as that id. */
  lemma ParseIntText(n: int)
    ensures ParseInt(IntText(n)) == Some(n)
  {
    if n < 0 {
      var m: nat := -n;
      assert IntText(n) == "-" + NatText(m);
      ParseIntNegativeText(m);
    } else {
      var m: nat := n;
      assert IntText(n) == NatText(m);
      ParseIntNatText(m);
    }
  }
}
