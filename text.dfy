/**
 * The few pieces of Python's string handling the controller relies on:
 * `str.isspace`, `str.strip`, `file.readline` and `str.split(sep)`,
 * plus plain decimal digit strings.
 *
 * Text is a `seq<char>` as Python's text-mode file reading delivers it,
 * i.e. after universal-newline translation, so a line ends at '\n'.
 */
module Text {

  /** Python's `str.isspace` on one character, restricted to the Latin-1 range:
      space, \t \n \v \f \r, the separators 0x1c-0x1f, NEL (0x85) and NBSP (0xa0). */
  predicate IsSpace(c: char): (b: bool)
    // the line-ending and blank characters a record may carry are whitespace
    ensures c == ' ' || c == '\t' || c == '\n' || c == '\r' ==> b
    // no printable ASCII character other than the blank is
    ensures b ==> c as int <= 0x20 || c as int == 0x85 || c as int == 0xA0
  {
    var n := c as int;
    n == 0x20 || 0x09 <= n <= 0x0D || 0x1C <= n <= 0x1F || n == 0x85 || n == 0xA0
  }

  predicate NoSpace(s: string) {
    forall i :: 0 <= i < |s| ==> !IsSpace(s[i])
  }

  /** Drops leading whitespace. */
  function TrimStart(s: string): (r: string)
    ensures |r| <= |s| && r == s[|s| - |r|..]
    ensures forall i :: 0 <= i < |s| - |r| ==> IsSpace(s[i])
    ensures |r| > 0 ==> !IsSpace(r[0])
  {
    if |s| > 0 && IsSpace(s[0]) then TrimStart(s[1..]) else s
  }

  /** Drops trailing whitespace. */
  function TrimEnd(s: string): (r: string)
    ensures |r| <= |s| && r == s[..|r|]
    ensures forall i :: |r| <= i < |s| ==> IsSpace(s[i])
    ensures |r| > 0 ==> !IsSpace(r[|r| - 1])
  {
    if |s| > 0 && IsSpace(s[|s| - 1]) then TrimEnd(s[..|s| - 1]) else s
  }

  /** `r` is the slice of `s` starting at `i`, and everything of `s` before
      and after that slice is whitespace. */
  predicate StrippedAt(s: string, r: string, i: int) {
    0 <= i <= |s| - |r| && r == s[i..i + |r|] &&
    (forall k :: 0 <= k < i ==> IsSpace(s[k])) &&
    (forall k :: i + |r| <= k < |s| ==> IsSpace(s[k]))
  }

  /** Python's `s.strip()`: the result neither starts nor ends with whitespace,
      and a string that already has no whitespace at its ends is kept as it is. */
  function Strip(s: string): (r: string)
    ensures |r| > 0 ==> !IsSpace(r[0]) && !IsSpace(r[|r| - 1])
    ensures |s| == 0 || (!IsSpace(s[0]) && !IsSpace(s[|s| - 1])) ==> r == s
    // the result is `s` with only leading and trailing whitespace removed
    ensures exists i :: StrippedAt(s, r, i)
  {
    TrimmedBothEnds(s);
    TrimEnd(TrimStart(s))
  }

  lemma TrimmedBothEnds(s: string)
    ensures StrippedAt(s, TrimEnd(TrimStart(s)), |s| - |TrimStart(s)|)
  {
    var t := TrimStart(s);
    var r := TrimEnd(t);
    var i := |s| - |t|;
    PrefixOfSuffix(s, t, r, i);
    forall k | i + |r| <= k < |s|
      ensures IsSpace(s[k])
    {
      assert s[k] == t[k - i];
    }
  }

  /** A prefix of the suffix of `s` from `i` is the slice of `s` at `i`. */
  lemma PrefixOfSuffix(s: string, t: string, r: string, i: int)
    requires 0 <= i <= |s| && t == s[i..] && |r| <= |t| && r == t[..|r|]
    ensures r == s[i..i + |r|]
  {
  }

  /** Python's `f.readline()` on a file holding `s`: everything up to and
      including the first '\n', or all of `s` when it has no '\n'. */
  function FirstLine(s: string): (r: string)
    ensures r <= s
    ensures forall i :: 0 <= i < |r| - 1 ==> r[i] != '\n'
    ensures r == s || (|r| > 0 && r[|r| - 1] == '\n')
  {
    if |s| == 0 then ""
    else if s[0] == '\n' then "\n"
    else [s[0]] + FirstLine(s[1..])
  }

  lemma {:induction false} FirstLineOfLine(line: string, rest: string)
    requires '\n' !in line
    ensures FirstLine(line + "\n" + rest) == line + "\n"
  {
    if |line| > 0 {
      assert (line + "\n" + rest)[1..] == line[1..] + "\n" + rest;
      FirstLineOfLine(line[1..], rest);
    } else {
      assert line + "\n" + rest == "\n" + rest;
    }
  }

  function Count(s: string, c: char): nat {
    if |s| == 0 then 0 else (if s[0] == c then 1 else 0) + Count(s[1..], c)
  }

  /** Python's `s.split(sep)` for a one-character separator: one field more
      than there are separators, and no field contains the separator. */
  function Split(s: string, sep: char): (r: seq<string>)
    ensures |r| == Count(s, sep) + 1
    ensures forall f :: f in r ==> sep !in f
  {
    if |s| == 0 then [""]
    else if s[0] == sep then [""] + Split(s[1..], sep)
    else
      var rest := Split(s[1..], sep);
      [[s[0]] + rest[0]] + rest[1..]
  }

  lemma {:induction false} SplitNoSeparator(s: string, sep: char)
    requires sep !in s
    ensures Split(s, sep) == [s]
  {
    if |s| > 0 {
      SplitNoSeparator(s[1..], sep);
      assert [s[0]] + s[1..] == s;
    }
  }

  /** Splitting `field + sep + rest` yields `field` and then the fields of `rest`. */
  lemma {:induction false} SplitField(field: string, sep: char, rest: string)
    requires sep !in field
    ensures Split(field + [sep] + rest, sep) == [field] + Split(rest, sep)
  {
    var s := field + [sep] + rest;
    if |field| == 0 {
      assert s == [sep] + rest;
      assert s[1..] == rest;
    } else {
      assert s[1..] == field[1..] + [sep] + rest;
      SplitField(field[1..], sep, rest);
      assert [s[0]] + field[1..] == field;
    }
  }

  predicate IsDigit(c: char) {
    '0' <= c <= '9'
  }

  predicate IsDigits(s: string) {
    |s| > 0 && forall i :: 0 <= i < |s| ==> IsDigit(s[i])
  }

  function Pow10(n: nat): (r: nat)
    ensures r >= 1
  {
    if n == 0 then 1 else 10 * Pow10(n - 1)
  }

  /** The value of a string of decimal digits, most significant first. */
  function DigitsValue(s: string): (n: nat)
    requires forall i :: 0 <= i < |s| ==> IsDigit(s[i])
    ensures n < Pow10(|s|)
  {
    if |s| == 0 then 0
    else
      var high, low := DigitsValue(s[..|s| - 1]), s[|s| - 1] as int - '0' as int;
      assert IsDigit(s[|s| - 1]) && 0 <= low <= 9;
      assert high * 10 <= (Pow10(|s| - 1) - 1) * 10;
      high * 10 + low
  }

  function Digit(d: nat): (c: char)
    requires d < 10
    ensures IsDigit(c) && c as int - '0' as int == d
  {
    (d + '0' as int) as char
  }

  /** Two-digit zero-padded decimal, as in "07". */
  function TwoDigits(n: nat): (s: string)
    requires n < 100
    ensures IsDigits(s) && |s| == 2 && DigitsValue(s) == n
  {
    [Digit(n / 10), Digit(n % 10)]
  }
}
