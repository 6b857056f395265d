/** The Python string operations the core relies on: `str.strip()`,
    `str.split(sep)` with a one-character separator, `sep.join(parts)`,
    `str(int)`, and a decimal reader that inverts `str(int)`. */
module Strings {
  import opened Common

  /** Python's `str.isspace` for one character: bidirectional class WS, B
      or S, or general category Zs. */
  predicate IsSpace(c: char) {
    c == ' ' || '\t' <= c <= '\r' || '\U{1C}' <= c <= '\U{1F}' ||
    c == '\U{85}' || c == '\U{A0}' || c == '\U{1680}' ||
    '\U{2000}' <= c <= '\U{200A}' || c == '\U{2028}' || c == '\U{2029}' ||
    c == '\U{202F}' || c == '\U{205F}' || c == '\U{3000}'
  }

  /** The first index at or after `i` where `s` holds no whitespace, or
      `|s|`. */
  function SkipSpace(s: string, i: nat): (k: nat)
    requires i <= |s|
    ensures i <= k <= |s|
    decreases |s| - i
  {
    if i < |s| && IsSpace(s[i]) then SkipSpace(s, i + 1) else i
  }

  /** The end of `s[..j]` once its trailing whitespace is dropped. */
  function SkipSpaceBack(s: string, j: nat): (k: nat)
    requires j <= |s|
    ensures k <= j
  {
    if j > 0 && IsSpace(s[j - 1]) then SkipSpaceBack(s, j - 1) else j
  }

  /** `s.lstrip()`. */
  function TrimStart(s: string): string {
    s[SkipSpace(s, 0)..]
  }

  /** `s.rstrip()`. */
  function TrimEnd(s: string): string {
    s[..SkipSpaceBack(s, |s|)]
  }

  /** `s.strip()`. */
  function Strip(s: string): string {
    TrimEnd(TrimStart(s))
  }

  /** `SkipSpace` passes over whitespace only, and stops at a character
      that is not whitespace unless it reached the end. */
  lemma {:induction false} SkipSpaceStops(s: string, i: nat)
    requires i <= |s|
    ensures forall k | i <= k < SkipSpace(s, i) :: IsSpace(s[k])
    ensures SkipSpace(s, i) < |s| ==> !IsSpace(s[SkipSpace(s, i)])
    decreases |s| - i
  {
    if i < |s| && IsSpace(s[i]) {
      SkipSpaceStops(s, i + 1);
    }
  }

  /** `SkipSpaceBack` passes back over whitespace only, and stops after a
      character that is not whitespace unless it reached the start. */
  lemma {:induction false} SkipSpaceBackStops(s: string, j: nat)
    requires j <= |s|
    ensures forall k | SkipSpaceBack(s, j) <= k < j :: IsSpace(s[k])
    ensures SkipSpaceBack(s, j) > 0 ==> !IsSpace(s[SkipSpaceBack(s, j) - 1])
  {
    if j > 0 && IsSpace(s[j - 1]) {
      SkipSpaceBackStops(s, j - 1);
    }
  }

  /** `SkipSpaceBack` only looks at the characters before `j`. */
  lemma {:induction false} SkipSpaceBackPrefix(s: string, t: string, j: nat)
    requires j <= |s| && j <= |t| && s[..j] == t[..j]
    ensures SkipSpaceBack(s, j) == SkipSpaceBack(t, j)
  {
    if j > 0 {
      assert s[j - 1] == s[..j][j - 1] == t[..j][j - 1] == t[j - 1];
      assert s[..j - 1] == s[..j][..j - 1];
      assert t[..j - 1] == t[..j][..j - 1];
      SkipSpaceBackPrefix(s, t, j - 1);
    }
  }

  /** A trailing whitespace character only moves `SkipSpace` when it
      would have reached the end anyway. */
  lemma {:induction false} SkipSpaceAppendSpace(s: string, c: char, i: nat)
    requires IsSpace(c) && i <= |s|
    ensures SkipSpace(s + [c], i) == if SkipSpace(s, i) < |s| then SkipSpace(s, i) else |s| + 1
    decreases |s| - i
  {
    var u := s + [c];
    assert u[i] == if i < |s| then s[i] else c;
    if i < |s| && IsSpace(s[i]) {
      SkipSpaceAppendSpace(s, c, i + 1);
    } else if i == |s| {
      assert SkipSpace(u, i + 1) == |s| + 1;
    }
  }

  /** `s.strip()` keeps a contiguous middle part `s[i..j]` of `s`. */
  lemma StripIsSlice(s: string)
    ensures var i := |s| - |TrimStart(s)|; var j := i + |Strip(s)|;
      j <= |s| && Strip(s) == s[i..j]
  {
    var i := SkipSpace(s, 0);
    var t := s[i..];
    var j := i + SkipSpaceBack(t, |t|);
    assert t[..j - i] == s[i..j];
  }

  /** Everything `s.strip()` removes, before and after the part it keeps,
      is whitespace. */
  lemma StripRemovesOnlySpace(s: string)
    ensures var i := |s| - |TrimStart(s)|; var j := i + |Strip(s)|;
      && (forall k | 0 <= k < i :: IsSpace(s[k]))
      && (forall k | j <= k < |s| :: IsSpace(s[k]))
  {
    var i := SkipSpace(s, 0);
    var t := s[i..];
    var e := SkipSpaceBack(t, |t|);
    SkipSpaceStops(s, 0);
    SkipSpaceBackStops(t, |t|);
    forall k | i + e <= k < |s|
      ensures IsSpace(s[k])
    {
      assert s[k] == t[k - i];
    }
  }

  /** What `s.strip()` keeps neither starts nor ends with whitespace. */
  lemma StripEndsNonSpace(s: string)
    ensures |Strip(s)| > 0 ==> !IsSpace(Strip(s)[0]) && !IsSpace(Strip(s)[|Strip(s)| - 1])
  {
    var i := SkipSpace(s, 0);
    var t := s[i..];
    var e := SkipSpaceBack(t, |t|);
    SkipSpaceStops(s, 0);
    SkipSpaceBackStops(t, |t|);
    if e > 0 {
      assert Strip(s)[0] == t[0] == s[i];
      assert Strip(s)[e - 1] == t[e - 1];
    }
  }

  /** Stripping twice is stripping once. */
  lemma StripIdempotent(s: string)
    ensures Strip(Strip(s)) == Strip(s)
  {
    var r := Strip(s);
    StripEndsNonSpace(s);
    if |r| > 0 {
      assert TrimStart(r) == r;
      assert TrimEnd(r) == r;
    }
  }

  /** A trailing whitespace character makes no difference to `strip()`. */
  lemma StripAppendSpace(s: string, c: char)
    requires IsSpace(c)
    ensures Strip(s + [c]) == Strip(s)
  {
    var u := s + [c];
    SkipSpaceAppendSpace(s, c, 0);
    var i := SkipSpace(s, 0);
    if i < |s| {
      var t := s[i..];
      var v := u[i..];
      assert v == t + [c];
      assert SkipSpaceBack(v, |v|) == SkipSpaceBack(v, |t|);
      assert v[..|t|] == t[..|t|];
      SkipSpaceBackPrefix(v, t, |t|);
      assert TrimEnd(v) == v[..SkipSpaceBack(t, |t|)] == TrimEnd(t);
    }
  }

  /** `s.split(sep)` for a one-character separator: the pieces between
      separators, always at least one (`"".split(sep) == [""]`). */
  function Split(s: string, sep: char): (r: seq<string>)
    ensures |r| >= 1
    ensures forall i | 0 <= i < |r| :: sep !in r[i]
  {
    if |s| == 0 then [""]
    else
      var rest := Split(s[1..], sep);
      if s[0] == sep then [""] + rest
      else [[s[0]] + rest[0]] + rest[1..]
  }

  /** `sep.join(parts)` for a one-character separator. */
  function Join(parts: seq<string>, sep: char): string {
    if |parts| == 0 then ""
    else if |parts| == 1 then parts[0]
    else parts[0] + [sep] + Join(parts[1..], sep)
  }

  lemma {:induction false} JoinCons(p: string, parts: seq<string>, sep: char)
    requires |parts| >= 1
    ensures Join([p] + parts, sep) == p + [sep] + Join(parts, sep)
  {
    assert ([p] + parts)[1..] == parts;
  }

  /** Joining the pieces of a split with the same separator gives back the
      text. */
  lemma {:induction false} JoinSplit(s: string, sep: char)
    ensures Join(Split(s, sep), sep) == s
  {
    if |s| > 0 {
      var rest := Split(s[1..], sep);
      JoinSplit(s[1..], sep);
      if s[0] == sep {
        JoinCons("", rest, sep);
      } else if |rest| == 1 {
        assert Split(s, sep) == [[s[0]] + rest[0]];
      } else {
        assert rest == [rest[0]] + rest[1..];
        JoinCons(rest[0], rest[1..], sep);
        JoinCons([s[0]] + rest[0], rest[1..], sep);
      }
    }
  }

  /** Splitting a join gives back the parts, provided no part contains the
      separator. */
  lemma {:induction false} SplitJoin(parts: seq<string>, sep: char)
    requires |parts| >= 1
    requires forall i | 0 <= i < |parts| :: sep !in parts[i]
    ensures Split(Join(parts, sep), sep) == parts
  {
    if |parts| == 1 {
      SplitNoSeparator(parts[0], sep);
    } else {
      JoinCons(parts[0], parts[1..], sep);
      SplitJoin(parts[1..], sep);
      SplitPrefix(parts[0], Join(parts[1..], sep), sep);
      assert [parts[0]] + parts[1..] == parts;
    }
  }

  /** Text without the separator splits to itself. */
  lemma {:induction false} SplitNoSeparator(s: string, sep: char)
    requires sep !in s
    ensures Split(s, sep) == [s]
  {
    if |s| > 0 {
      SplitNoSeparator(s[1..], sep);
      assert [s[0]] + s[1..] == s;
    }
  }

  /** A separator-free prefix followed by the separator becomes the first piece. */
  lemma {:induction false} SplitPrefix(p: string, t: string, sep: char)
    requires sep !in p
    ensures Split(p + [sep] + t, sep) == [p] + Split(t, sep)
  {
    if |p| == 0 {
      assert p + [sep] + t == [sep] + t;
      assert ([sep] + t)[1..] == t;
    } else {
      assert (p + [sep] + t)[1..] == p[1..] + [sep] + t;
      SplitPrefix(p[1..], t, sep);
      assert [p[0]] + p[1..] == p;
    }
  }

  // ---- decimal integers ----

  predicate IsDigit(c: char) {
    '0' <= c <= '9'
  }

  predicate AllDigits(s: string) {
    forall i | 0 <= i < |s| :: IsDigit(s[i])
  }

  function DigitChar(d: nat): (c: char)
    requires d < 10
    ensures IsDigit(c)
  {
    (48 + d) as char
  }

  function DigitValue(c: char): nat
    requires IsDigit(c)
  {
    c as int - 48
  }

  /** The decimal digits of a natural number, most significant first, with
      no leading zero. */
  function NatDigits(n: nat): (r: string)
    ensures |r| >= 1 && AllDigits(r)
  {
    if n < 10 then [DigitChar(n)] else NatDigits(n / 10) + [DigitChar(n % 10)]
  }

  /** The value of a string of decimal digits. */
  function DigitsValue(s: string): nat
    requires AllDigits(s)
  {
    if |s| == 0 then 0 else DigitsValue(s[..|s| - 1]) * 10 + DigitValue(s[|s| - 1])
  }

  /** `str(n)`. */
  function DecimalString(n: int): string {
    if n < 0 then "-" + NatDigits(-n) else NatDigits(n)
  }

  /** Reads an optionally negative, non-empty run of decimal digits. */
  function ParseDecimal(s: string): Option<int> {
    if |s| > 0 && s[0] == '-' then
      if |s| > 1 && AllDigits(s[1..]) then Some(0 - DigitsValue(s[1..]) as int) else None
    else if |s| > 0 && AllDigits(s) then Some(DigitsValue(s))
    else None
  }

  lemma {:induction false} DigitsValueOfNatDigits(n: nat)
    ensures DigitsValue(NatDigits(n)) == n
  {
    if n >= 10 {
      var s := NatDigits(n);
      DigitsValueOfNatDigits(n / 10);
      assert s[..|s| - 1] == NatDigits(n / 10);
    }
  }

  /** `str(n)` loses nothing: the decimal reader recovers `n`. */
  lemma ParseDecimalString(n: int)
    ensures ParseDecimal(DecimalString(n)) == Some(n)
  {
    if n < 0 {
      DigitsValueOfNatDigits(-n);
      assert DecimalString(n)[1..] == NatDigits(-n);
    } else {
      DigitsValueOfNatDigits(n);
    }
  }
}
