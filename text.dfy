/**
 * The handful of Python string operations the engine relies on: `int()` on
 * digit strings and `str()` of integers, `str.split`, `str.replace`,
 * `str.join`, `str.strip`, `in`, and ASCII case mapping.
 */
module Text {
  import opened Wrappers

  // ---------------------------------------------------------------------------
  // Decimal numerals
  // ---------------------------------------------------------------------------

  predicate IsDigit(c: char) {
    '0' <= c <= '9'
  }

  /** A non-empty run of ASCII digits: the strings this model lets `int()` accept. */
  predicate IsDigits(s: string) {
    |s| > 0 && forall i :: 0 <= i < |s| ==> IsDigit(s[i])
  }

  function DigitValue(c: char): (d: nat)
    requires IsDigit(c)
    ensures d < 10
  {
    (c as int) - ('0' as int)
  }

  function DigitChar(d: nat): (c: char)
    requires d < 10
    ensures IsDigit(c) && DigitValue(c) == d
  {
    (('0' as int) + d) as char
  }

  /** Decimal value of a string of digits, most significant digit first. */
  function DigitsValue(s: string): nat
    requires forall i :: 0 <= i < |s| ==> IsDigit(s[i])
  {
    if s == [] then 0 else 10 * DigitsValue(s[..|s| - 1]) + DigitValue(s[|s| - 1])
  }

  /** Python's `int(s)` on a digit string; `None` where `int` would raise. */
  function ParseNat(s: string): Option<nat> {
    if IsDigits(s) then Some(DigitsValue(s)) else None
  }

  /** Python's `str(n)` for a natural number: digits without leading zeros, which parse back to `n`. */
  function NatToString(n: nat): (s: string)
    ensures IsDigits(s)
    ensures ParseNat(s) == Some(n)
    ensures s[0] != '0' || s == "0"
  {
    if n < 10 then
      var s := [DigitChar(n)];
      assert s[..0] == [];
      assert DigitsValue(s) == 10 * DigitsValue(s[..0]) + DigitValue(s[0]);
      s
    else
      var prefix := NatToString(n / 10);
      var s := prefix + [DigitChar(n % 10)];
      assert s[..|s| - 1] == prefix;
      assert prefix != "0" by {
        assert ParseNat("0") == Some(0) by { assert DigitsValue("0") == DigitsValue("") * 10 + 0; }
      }
      s
  }

  /** Python's `str(i)` for an integer. */
  function IntToString(i: int): (s: string)
    ensures |s| > 0
    ensures i >= 0 ==> ParseNat(s) == Some(i)
    ensures i < 0 ==> s[0] == '-' && ParseNat(s[1..]) == Some(-i)
  {
    if i < 0 then "-" + NatToString(-i) else NatToString(i)
  }

  // ---------------------------------------------------------------------------
  // Prefixes, suffixes, substrings
  // ---------------------------------------------------------------------------

  predicate StartsWith(s: string, prefix: string) {
    |prefix| <= |s| && s[..|prefix|] == prefix
  }

  predicate EndsWith(s: string, suffix: string) {
    |suffix| <= |s| && s[|s| - |suffix|..] == suffix
  }

  /** Python's `sub in s`. */
  predicate Contains(s: string, sub: string) {
    exists i :: 0 <= i <= |s| && StartsWith(s[i..], sub)
  }

  lemma ContainsWithin(p: string, sub: string, q: string)
    ensures Contains(p + sub + q, sub)
  {
    var s := p + sub + q;
    assert s[|p|..][..|sub|] == sub;
    assert StartsWith(s[|p|..], sub);
  }

  lemma ContainsExtend(a: string, b: string, sub: string)
    requires Contains(a, sub)
    ensures Contains(a + b, sub)
  {
    var i :| 0 <= i <= |a| && StartsWith(a[i..], sub);
    assert (a + b)[i..][..|sub|] == a[i..][..|sub|];
    assert StartsWith((a + b)[i..], sub);
  }

  // ---------------------------------------------------------------------------
  // join and split
  // ---------------------------------------------------------------------------

  /** Python's `sep.join(parts)`. */
  function Join(parts: seq<string>, sep: string): string {
    if |parts| == 0 then ""
    else if |parts| == 1 then parts[0]
    else parts[0] + sep + Join(parts[1..], sep)
  }

  lemma {:induction false} JoinStartsWith(parts: seq<string>, sep: string)
    requires |parts| > 0
    ensures StartsWith(Join(parts, sep), parts[0])
  {
    if |parts| > 1 {
      assert (parts[0] + sep + Join(parts[1..], sep))[..|parts[0]|] == parts[0];
    }
  }

  lemma {:induction false} JoinEndsWith(parts: seq<string>, sep: string)
    requires |parts| > 0
    ensures EndsWith(Join(parts, sep), parts[|parts| - 1])
  {
    if |parts| > 1 {
      JoinEndsWith(parts[1..], sep);
      var tail := Join(parts[1..], sep);
      var s := parts[0] + sep + tail;
      var last := parts[|parts| - 1];
      assert s[|s| - |last|..] == tail[|tail| - |last|..];
    }
  }

  /** First position of `c` in `s`. */
  function IndexOf(s: string, c: char): (i: nat)
    requires c in s
    ensures i < |s| && s[i] == c && c !in s[..i]
  {
    if s[0] == c then 0 else 1 + IndexOf(s[1..], c)
  }

  lemma {:induction false} IndexOfAt(s: string, c: char, j: nat)
    requires j < |s| && s[j] == c
    requires forall k :: 0 <= k < j ==> s[k] != c
    ensures c in s && IndexOf(s, c) == j
  {
    if j > 0 {
      IndexOfAt(s[1..], c, j - 1);
    }
  }

  /** Python's `s.split(sep)` for a one-character separator: joining the parts with `sep` gives `s` back. */
  function Split(s: string, sep: char): (parts: seq<string>)
    ensures |parts| >= 1
    ensures Join(parts, [sep]) == s
    ensures forall k :: 0 <= k < |parts| ==> sep !in parts[k]
    decreases |s|
  {
    if sep !in s then
      [s]
    else
      var i := IndexOf(s, sep);
      var rest := Split(s[i + 1..], sep);
      assert s == s[..i] + [sep] + s[i + 1..];
      [s[..i]] + rest
  }

  /** Splitting what was joined with a separator that no part contains gives the parts back. */
  lemma {:induction false} SplitJoin(parts: seq<string>, sep: char)
    requires |parts| >= 1
    requires forall k :: 0 <= k < |parts| ==> sep !in parts[k]
    ensures Split(Join(parts, [sep]), sep) == parts
  {
    if |parts| > 1 {
      var tail := Join(parts[1..], [sep]);
      var s := parts[0] + [sep] + tail;
      assert sep in s by { assert s[|parts[0]|] == sep; }
      assert s[|parts[0]|] == sep;
      assert forall k :: 0 <= k < |parts[0]| ==> s[k] == parts[0][k];
      IndexOfAt(s, sep, |parts[0]|);
      var i := IndexOf(s, sep);
      assert s[..i] == parts[0];
      assert s[i + 1..] == tail;
      SplitJoin(parts[1..], sep);
    }
  }

  // ---------------------------------------------------------------------------
  // replace
  // ---------------------------------------------------------------------------

  /** Python's `s.replace(pat, rep)` for a non-empty pattern: left to right, non-overlapping. */
  function ReplaceAll(s: string, pat: string, rep: string): string
    requires |pat| > 0
    decreases |s|
  {
    if |pat| <= |s| && s[..|pat|] == pat then rep + ReplaceAll(s[|pat|..], pat, rep)
    else if s == [] then []
    else [s[0]] + ReplaceAll(s[1..], pat, rep)
  }

  /** A stretch that cannot start the pattern passes through `replace` unchanged. */
  lemma {:induction false} ReplaceAllSkips(s: string, t: string, pat: string, rep: string)
    requires |pat| > 0
    requires forall k :: 0 <= k < |s| ==> s[k] != pat[0]
    ensures ReplaceAll(s + t, pat, rep) == s + ReplaceAll(t, pat, rep)
  {
    if s != [] {
      var st := s + t;
      assert st[0] == s[0];
      assert |pat| <= |st| ==> st[..|pat|][0] == s[0];
      assert !(|pat| <= |st| && st[..|pat|] == pat);
      assert st[1..] == s[1..] + t;
      ReplaceAllSkips(s[1..], t, pat, rep);
      calc {
        ReplaceAll(st, pat, rep);
        [st[0]] + ReplaceAll(st[1..], pat, rep);
        [s[0]] + (s[1..] + ReplaceAll(t, pat, rep));
        { assert [s[0]] + s[1..] == s; }
        s + ReplaceAll(t, pat, rep);
      }
    } else {
      assert s + t == t;
    }
  }

  /** Replacing a one-character pattern by one character substitutes it wherever it occurs. */
  lemma {:induction false} ReplaceCharAt(s: string, c: char, d: char)
    ensures |ReplaceAll(s, [c], [d])| == |s|
    ensures forall i :: 0 <= i < |s| ==> ReplaceAll(s, [c], [d])[i] == if s[i] == c then d else s[i]
  {
    if s != [] {
      ReplaceCharAt(s[1..], c, d);
      var head := if s[0] == c then [d] else [s[0]];
      assert s[..1] == [s[0]];
      assert ReplaceAll(s, [c], [d]) == head + ReplaceAll(s[1..], [c], [d]);
    }
  }

  // ---------------------------------------------------------------------------
  // Case mapping and whitespace
  // ---------------------------------------------------------------------------

  function UpperChar(c: char): char {
    if 'a' <= c <= 'z' then ((c as int) - 32) as char else c
  }

  function LowerChar(c: char): char {
    if 'A' <= c <= 'Z' then ((c as int) + 32) as char else c
  }

  /** Python's `s.upper()` restricted to ASCII letters. */
  function ToUpper(s: string): (r: string)
    ensures |r| == |s|
    ensures forall i :: 0 <= i < |s| ==> r[i] == UpperChar(s[i])
  {
    seq(|s|, i requires 0 <= i < |s| => UpperChar(s[i]))
  }

  /** Python's `s.lower()` restricted to ASCII letters. */
  function ToLower(s: string): (r: string)
    ensures |r| == |s|
    ensures forall i :: 0 <= i < |s| ==> r[i] == LowerChar(s[i])
  {
    seq(|s|, i requires 0 <= i < |s| => LowerChar(s[i]))
  }

  /** The characters Python's `str.isspace` accepts. */
  predicate IsSpace(c: char) {
    var n := c as int;
    (9 <= n <= 13) || (28 <= n <= 32) || n == 0x85 || n == 0xA0 || n == 0x1680
    || (0x2000 <= n <= 0x200A) || n == 0x2028 || n == 0x2029 || n == 0x202F
    || n == 0x205F || n == 0x3000
  }

  /** Python's `s.lstrip()`: drops the leading whitespace and nothing else. */
  function TrimStart(s: string): (r: string)
    ensures |r| <= |s| && r == s[|s| - |r|..]
    ensures r == [] || !IsSpace(r[0])
    ensures forall k :: 0 <= k < |s| - |r| ==> IsSpace(s[k])
  {
    if s != [] && IsSpace(s[0]) then TrimStart(s[1..]) else s
  }

  /** Python's `s.rstrip()`: drops the trailing whitespace and nothing else. */
  function TrimEnd(s: string): (r: string)
    ensures |r| <= |s| && r == s[..|r|]
    ensures r == [] || !IsSpace(r[|r| - 1])
    ensures forall k :: |r| <= k < |s| ==> IsSpace(s[k])
  {
    if s != [] && IsSpace(s[|s| - 1]) then TrimEnd(s[..|s| - 1]) else s
  }

  /** Python's `s.strip()`. */
  function Strip(s: string): (r: string)
    ensures |r| <= |s|
    ensures r == [] || (!IsSpace(r[0]) && !IsSpace(r[|r| - 1]))
  {
    TrimEnd(TrimStart(s))
  }

  /** Stripping a string twice is stripping it once. */
  lemma StripIdempotent(s: string)
    ensures Strip(Strip(s)) == Strip(s)
  {
    var r := Strip(s);
    assert TrimStart(r) == r;
    assert TrimEnd(r) == r;
  }

  /** Every character is its own upper case. */
  predicate IsUpper(s: string) {
    forall i :: 0 <= i < |s| ==> UpperChar(s[i]) == s[i]
  }

  /** Upper-casing gives an upper-case string, and leaves one unchanged. */
  lemma UpperCaseStable(s: string)
    ensures IsUpper(ToUpper(s))
    ensures IsUpper(s) ==> ToUpper(s) == s
  {
  }

  /** Stripping keeps a contiguous stretch of the string. */
  lemma StripIsSlice(s: string)
    ensures exists a, b :: 0 <= a <= b <= |s| && Strip(s) == s[a..b]
  {
    var t := TrimStart(s);
    var r := TrimEnd(t);
    var a := |s| - |t|;
    var b := a + |r|;
    assert t == s[a..];
    assert r == t[..|r|];
    assert r == s[a..b];
  }

  /** Stripping an upper-case string leaves it upper-case. */
  lemma StripKeepsUpper(s: string)
    requires IsUpper(s)
    ensures IsUpper(Strip(s))
  {
    StripIsSlice(s);
    var a, b :| 0 <= a <= b <= |s| && Strip(s) == s[a..b];
    UpperSlice(s, a, b);
  }

  /** A slice of an upper-case string is upper-case. */
  lemma UpperSlice(s: string, a: nat, b: nat)
    requires IsUpper(s) && a <= b <= |s|
    ensures IsUpper(s[a..b])
  {
    forall i | 0 <= i < b - a ensures UpperChar(s[a..b][i]) == s[a..b][i] {
      assert s[a..b][i] == s[a + i];
    }
  }
}
