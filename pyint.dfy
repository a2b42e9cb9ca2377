/**
 * Python's `int(s)` on a string, as the experience comparison uses it:
 * surrounding whitespace is stripped, an optional sign is allowed, and the
 * rest must be decimal digits with single underscores between digits.
 * Anything else is a `ValueError`, modelled as `None`.
 */
module PyInt {
  import opened Wrappers

  /**
   * The whitespace `int()` skips around the number: the C-locale blanks (tab,
   * line feed, vertical tab, form feed, carriage return, space) and the
   * non-ASCII characters `str.isspace` accepts, which `int()` first turns into
   * spaces. The ASCII separators U+001C to U+001F, which `str.isspace` also
   * accepts, are not skipped.
   */
  predicate IsSpace(c: char) {
    var n := c as int;
    (9 <= n <= 13) || n == 32 || n == 0x85 || n == 0xA0 || n == 0x1680
    || (0x2000 <= n <= 0x200A) || n == 0x2028 || n == 0x2029 || n == 0x202F
    || n == 0x205F || n == 0x3000
  }

  predicate IsDigit(c: char) {
    '0' <= c <= '9'
  }

  function DigitValue(c: char): nat
    requires IsDigit(c)
  {
    c as int - '0' as int
  }

  function DigitChar(d: nat): (c: char)
    requires d < 10
    ensures IsDigit(c) && DigitValue(c) == d
  {
    ('0' as int + d) as char
  }

  /** Drops leading whitespace. */
  function TrimStart(s: string): string {
    if s != [] && IsSpace(s[0]) then TrimStart(s[1..]) else s
  }

  /** Drops trailing whitespace. */
  function TrimEnd(s: string): string {
    if s != [] && IsSpace(s[|s| - 1]) then TrimEnd(s[..|s| - 1]) else s
  }

  /** The whitespace skipping `int()` does at both ends of its argument. */
  function Strip(s: string): string {
    TrimEnd(TrimStart(s))
  }

  /** Trimming the start keeps a suffix that does not start with whitespace, and drops only whitespace. */
  lemma {:induction false} TrimStartSpec(s: string)
    ensures var r := TrimStart(s);
            && |r| <= |s| && r == s[|s| - |r|..]
            && (r == [] || !IsSpace(r[0]))
            && forall i :: 0 <= i < |s| - |r| ==> IsSpace(s[i])
  {
    if s != [] && IsSpace(s[0]) {
      var t := s[1..];
      TrimStartSpec(t);
      var r := TrimStart(t);
      assert TrimStart(s) == r;
      assert s[|s| - |r|..] == t[|t| - |r|..];
      forall i | 0 <= i < |s| - |r|
        ensures IsSpace(s[i])
      {
        if i > 0 {
          assert s[i] == t[i - 1];
        }
      }
    }
  }

  /** Trimming the end keeps a prefix that does not end with whitespace, and drops only whitespace. */
  lemma {:induction false} TrimEndSpec(s: string)
    ensures var r := TrimEnd(s);
            && |r| <= |s| && r == s[..|r|]
            && (r == [] || !IsSpace(r[|r| - 1]))
            && forall i :: |r| <= i < |s| ==> IsSpace(s[i])
  {
    if s != [] && IsSpace(s[|s| - 1]) {
      var t := s[..|s| - 1];
      TrimEndSpec(t);
      var r := TrimEnd(t);
      assert TrimEnd(s) == r;
      assert s[..|r|] == t[..|r|];
      forall i | |r| <= i < |s|
        ensures IsSpace(s[i])
      {
        if i < |t| {
          assert s[i] == t[i];
        }
      }
    }
  }

  /** Skipping whitespace keeps a slice of the input that neither starts nor ends with whitespace. */
  lemma StripSpec(s: string)
    ensures forall c :: c in Strip(s) ==> c in s
    ensures Strip(s) == [] || (!IsSpace(Strip(s)[0]) && !IsSpace(Strip(s)[|Strip(s)| - 1]))
  {
    var t := TrimStart(s);
    TrimStartSpec(s);
    TrimEndSpec(t);
    assert forall c :: c in Strip(s) ==> c in t;
  }

  /** Decimal digits, optionally grouped by single underscores between digits. */
  predicate IsDigitString(t: string) {
    |t| > 0 && IsDigit(t[0]) &&
    forall i {:trigger t[i]} :: 0 <= i < |t| ==> IsDigit(t[i]) || (t[i] == '_' && i + 1 < |t| && IsDigit(t[i + 1]))
  }

  /** An accepted digit string contains no `_` at its end, nor two in a row. */
  lemma DigitStringShape(t: string)
    requires IsDigitString(t)
    ensures IsDigit(t[|t| - 1])
    ensures forall i :: 0 <= i < |t| - 1 && t[i] == '_' ==> t[i + 1] != '_'
  {
  }

  /** The number the digits of `t` spell, underscores skipped. */
  function DigitsValue(t: string): nat {
    if t == [] then 0
    else if IsDigit(t[|t| - 1]) then 10 * DigitsValue(t[..|t| - 1]) + DigitValue(t[|t| - 1])
    else DigitsValue(t[..|t| - 1])
  }

  /** `int(s)` for a string `s`; `None` where Python raises `ValueError`. */
  function ParseInt(s: string): Option<int> {
    var t := Strip(s);
    if t != [] && (t[0] == '+' || t[0] == '-') then
      if IsDigitString(t[1..]) then
        var v: int := DigitsValue(t[1..]);
        Some(if t[0] == '-' then -v else v)
      else None
    else if IsDigitString(t) then Some(DigitsValue(t))
    else None
  }

  /** Whatever `int()` accepts contains a decimal digit. */
  lemma ParsedHasDigit(s: string)
    ensures ParseInt(s).Some? ==> exists i :: 0 <= i < |s| && IsDigit(s[i])
  {
    if ParseInt(s).Some? {
      var t := Strip(s);
      StripSpec(s);
      var d := if t[0] == '+' || t[0] == '-' then t[1] else t[0];
      assert IsDigit(d) && d in t;
    }
  }

  /** The decimal rendering of a natural number, as `str(n)` prints it. */
  function Decimal(n: nat): (r: string)
    ensures |r| > 0
    ensures forall i :: 0 <= i < |r| ==> IsDigit(r[i])
  {
    if n < 10 then [DigitChar(n)] else Decimal(n / 10) + [DigitChar(n % 10)]
  }

  /** `str(i)` for any integer. */
  function Show(i: int): string {
    if i < 0 then "-" + Decimal(-i) else Decimal(i)
  }

  lemma {:induction false} DecimalValue(n: nat)
    ensures IsDigitString(Decimal(n)) && DigitsValue(Decimal(n)) == n
  {
    var d := Decimal(n);
    if n >= 10 {
      DecimalValue(n / 10);
      assert d[..|d| - 1] == Decimal(n / 10);
    }
  }

  lemma DigitsHaveNoSpace(t: string)
    requires forall i :: 0 <= i < |t| ==> IsDigit(t[i]) || t[i] == '-'
    ensures Strip(t) == t
  {
  }

  /** `int(str(i)) == i`: parsing inverts printing. */
  lemma {:induction false} ParseShow(i: int)
    ensures ParseInt(Show(i)) == Some(i)
  {
    var s := Show(i);
    if i < 0 {
      DecimalValue(-i);
      assert s[1..] == Decimal(-i);
    } else {
      DecimalValue(i);
    }
    DigitsHaveNoSpace(s);
  }

  lemma {:induction false} TrimStartPadded(pre: string, t: string)
    requires forall i :: 0 <= i < |pre| ==> IsSpace(pre[i])
    requires t == [] || !IsSpace(t[0])
    ensures TrimStart(pre + t) == t
    decreases |pre|
  {
    if pre == [] {
      assert pre + t == t;
    } else {
      assert (pre + t)[1..] == pre[1..] + t;
      TrimStartPadded(pre[1..], t);
    }
  }

  lemma {:induction false} TrimEndPadded(t: string, post: string)
    requires forall i :: 0 <= i < |post| ==> IsSpace(post[i])
    requires t == [] || !IsSpace(t[|t| - 1])
    ensures TrimEnd(t + post) == t
    decreases |post|
  {
    if post == [] {
      assert t + post == t;
    } else {
      assert (t + post)[..|t + post| - 1] == t + post[..|post| - 1];
      TrimEndPadded(t, post[..|post| - 1]);
    }
  }

  /** Whitespace around a text that neither starts nor ends with whitespace is exactly what the skipping removes. */
  lemma StripPadded(pre: string, t: string, post: string)
    requires forall i :: 0 <= i < |pre| ==> IsSpace(pre[i])
    requires forall i :: 0 <= i < |post| ==> IsSpace(post[i])
    requires t != [] && !IsSpace(t[0]) && !IsSpace(t[|t| - 1])
    ensures Strip(pre + t + post) == t
  {
    assert pre + t + post == pre + (t + post);
    TrimStartPadded(pre, t + post);
    TrimEndPadded(t, post);
  }

  /** `int()` ignores whitespace around a printed integer: `int(" 42\n") == 42`. */
  lemma ParsePadded(pre: string, i: int, post: string)
    requires forall k :: 0 <= k < |pre| ==> IsSpace(pre[k])
    requires forall k :: 0 <= k < |post| ==> IsSpace(post[k])
    ensures ParseInt(pre + Show(i) + post) == Some(i)
  {
    var s := Show(i);
    ParseShow(i);
    DigitsHaveNoSpace(s);
    StripPadded(pre, s, post);
  }

  /** The information separators are not skipped: `int("\x1c5")` is a `ValueError`. */
  lemma SeparatorIsNotSkipped()
    ensures !IsSpace('\U{1C}') && ParseInt(['\U{1C}', '5']) == None
  {
    var s := ['\U{1C}', '5'];
    assert TrimStart(s) == s;
    assert TrimEnd(s) == s;
    assert !IsDigit(s[0]);
  }
}
