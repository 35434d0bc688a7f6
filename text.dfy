/** Text building blocks shared by every line the screen output prints:
    the indentation unit, the separator, lower-casing of protocol names,
    decimal rendering of integers and the re-indentation of payload text. */
module Text {

  /** The basic indentation level: four spaces. */
  const Indent: string := "    "

  /** Two indentation levels, used by every detail line. */
  const Indent2: string := Indent + Indent

  /** `n` copies of the character `c`. */
  function Repeat(c: char, n: nat): (r: string)
    ensures |r| == n
    ensures forall j :: 0 <= j < n ==> r[j] == c
  {
    if n == 0 then "" else Repeat(c, n - 1) + [c]
  }

  /** The fifty-dash line that opens and closes every frame. */
  const Separator: string := Repeat('-', 50)

  // ----- lines at one or two indentation levels -----

  /** A line at exactly `n` indentation levels: `4 * n` spaces, then something else. */
  predicate AtLevel(line: string, n: nat)
  {
    |line| > 4 * n && line[..4 * n] == Repeat(' ', 4 * n) && line[4 * n] != ' '
  }

  /** A line printed at the first indentation level. */
  function TopLine(text: string): (line: string)
    ensures |text| > 0 && text[0] != ' ' ==> AtLevel(line, 1)
  {
    assert Indent == Repeat(' ', 4);
    Indent + text
  }

  /** A line printed at the second indentation level. */
  function DetailLine(text: string): (line: string)
    ensures |text| > 0 && text[0] != ' ' ==> AtLevel(line, 2)
  {
    assert Indent2 == Repeat(' ', 8);
    Indent2 + text
  }

  /** A line at the second level is never one at the first level. */
  lemma LevelsDiffer(line: string)
    requires AtLevel(line, 2)
    ensures !AtLevel(line, 1)
  {
    assert line[4] == line[..8][4] == ' ';
  }

  // ----- ASCII lower-casing (str.lower restricted to ASCII) -----

  predicate IsUpper(c: char) { 'A' <= c <= 'Z' }

  function LowerChar(c: char): (d: char)
    ensures !IsUpper(d)
    ensures IsUpper(c) ==> d as int == c as int + 32
    ensures !IsUpper(c) ==> d == c
  {
    if IsUpper(c) then (c as int - 'A' as int + 'a' as int) as char else c
  }

  /** The name with every ASCII capital replaced by its small letter. */
  function Lower(s: string): (r: string)
    ensures |r| == |s|
    ensures forall j :: 0 <= j < |s| ==> r[j] == LowerChar(s[j])
  {
    if s == [] then "" else [LowerChar(s[0])] + Lower(s[1..])
  }

  // ----- decimal rendering, as Python's str() of a non-negative int -----

  predicate IsDigit(c: char) { '0' <= c <= '9' }

  function DigitChar(d: nat): (c: char)
    requires d < 10
    ensures IsDigit(c) && c as int - '0' as int == d
  {
    ('0' as int + d) as char
  }

  /** The shortest decimal numeral of `n`. */
  function Decimal(n: nat): (r: string)
    ensures |r| > 0
    ensures forall j :: 0 <= j < |r| ==> IsDigit(r[j])
    ensures r[0] == '0' ==> n == 0
  {
    if n < 10 then [DigitChar(n)] else Decimal(n / 10) + [DigitChar(n % 10)]
  }

  /** The value of a numeral, the inverse of `Decimal`. */
  function ParseDecimal(s: string): nat
    requires forall j :: 0 <= j < |s| ==> IsDigit(s[j])
  {
    if s == [] then 0
    else
      assert IsDigit(s[|s| - 1]);
      ParseDecimal(s[..|s| - 1]) * 10 + (s[|s| - 1] as int - '0' as int)
  }

  lemma {:induction false} DecimalRoundTrip(n: nat)
    ensures ParseDecimal(Decimal(n)) == n
  {
    if n >= 10 {
      var s := Decimal(n);
      assert s[..|s| - 1] == Decimal(n / 10);
      DecimalRoundTrip(n / 10);
    }
  }

  /** The run of digits at the start of `s`: how a reader takes a number
      off the front of a line. */
  function LeadingDigits(s: string): (r: string)
    ensures r <= s
    ensures forall j :: 0 <= j < |r| ==> IsDigit(r[j])
  {
    if s == [] || !IsDigit(s[0]) then "" else [s[0]] + LeadingDigits(s[1..])
  }

  /** A numeral followed by something that is not a digit is read off whole. */
  lemma {:induction false} LeadingDigitsOfNumeral(d: string, rest: string)
    requires forall j :: 0 <= j < |d| ==> IsDigit(d[j])
    requires rest == [] || !IsDigit(rest[0])
    ensures LeadingDigits(d + rest) == d
  {
    if d != [] {
      assert (d + rest)[1..] == d[1..] + rest;
      LeadingDigitsOfNumeral(d[1..], rest);
    }
  }

  /** The number printed in decimal in front of `rest` is read back. */
  lemma ReadNumber(n: nat, rest: string)
    requires rest == [] || !IsDigit(rest[0])
    ensures ParseDecimal(LeadingDigits(Decimal(n) + rest)) == n
  {
    LeadingDigitsOfNumeral(Decimal(n), rest);
    DecimalRoundTrip(n);
  }

  // ----- payload re-indentation: replace("\n", "\n" + 8 spaces) -----

  /** What every newline of the payload becomes. */
  const IndentedNewline: string := "\n" + Indent2

  function NewlineCount(s: string): nat
  {
    if s == [] then 0 else (if s[0] == '\n' then 1 else 0) + NewlineCount(s[1..])
  }

  /** The text with every newline followed by two indentation levels. */
  function Reindent(s: string): (r: string)
    ensures |r| == |s| + 8 * NewlineCount(s)
  {
    if s == [] then ""
    else (if s[0] == '\n' then IndentedNewline else [s[0]]) + Reindent(s[1..])
  }

  /** The inverse of `Reindent`: every newline drops the eight spaces after it. */
  function Dedent(r: string): string
  {
    if r == [] then ""
    else if IndentedNewline <= r then "\n" + Dedent(r[|IndentedNewline|..])
    else [r[0]] + Dedent(r[1..])
  }

  lemma {:induction false} ReindentRoundTrip(s: string)
    ensures Dedent(Reindent(s)) == s
  {
    if s != [] {
      var r := Reindent(s);
      ReindentRoundTrip(s[1..]);
      if s[0] == '\n' {
        assert r == IndentedNewline + Reindent(s[1..]);
        assert IndentedNewline <= r;
        assert r[|IndentedNewline|..] == Reindent(s[1..]);
      } else {
        assert r == [s[0]] + Reindent(s[1..]);
        assert r[0] != '\n';
        assert r[1..] == Reindent(s[1..]);
      }
    }
  }

  /** Text without newlines is printed unchanged. */
  lemma {:induction false} ReindentSingleLine(s: string)
    requires forall j :: 0 <= j < |s| ==> s[j] != '\n'
    ensures Reindent(s) == s
  {
    if s != [] {
      ReindentSingleLine(s[1..]);
    }
  }

  /** Every newline of `r` is followed by two indentation levels. */
  predicate NewlinesIndented(r: string)
  {
    forall j :: 0 <= j < |r| && r[j] == '\n' ==> j + 9 <= |r| && r[j + 1..j + 9] == Indent2
  }

  /** In re-indented text every newline is followed by two indentation levels. */
  lemma {:induction false} ReindentedNewlinesIndented(s: string)
    ensures NewlinesIndented(Reindent(s))
  {
    if s != [] {
      var r := Reindent(s);
      var rest := Reindent(s[1..]);
      var head := if s[0] == '\n' then IndentedNewline else [s[0]];
      assert r == head + rest;
      ReindentedNewlinesIndented(s[1..]);
      forall j | 0 <= j < |r| && r[j] == '\n'
        ensures j + 9 <= |r| && r[j + 1..j + 9] == Indent2
      {
        if j < |head| {
          assert head[j] == '\n';
          assert s[0] == '\n' && j == 0;
          assert r[1..9] == head[1..9];
        } else {
          var k := j - |head|;
          assert rest[k] == r[j] == '\n';
          assert k + 9 <= |rest| && rest[k + 1..k + 9] == Indent2;
          assert r[j + 1..j + 9] == rest[k + 1..k + 9];
        }
      }
    }
  }
}
