/** The message of PrintIncludeError and the decimal writing of the line number. */
module Diagnostics {
  import opened Paths

  predicate IsDigit(c: char) {
    '0' <= c <= '9'
  }

  function DigitChar(d: nat): (c: char)
    requires d < 10
    ensures IsDigit(c) && DigitValue(c) == d
  {
    ('0' as int + d) as char
  }

  function DigitValue(c: char): (d: nat)
    requires IsDigit(c)
    ensures d < 10
  {
    c as int - '0' as int
  }

  /** `operator<<` on an int: the decimal digits, most significant first, no leading zero. */
  function DecimalString(n: nat): (s: string)
    ensures |s| >= 1 && forall i :: 0 <= i < |s| ==> IsDigit(s[i])
    ensures |s| > 1 ==> s[0] != '0'
  {
    if n < 10 then [DigitChar(n)] else DecimalString(n / 10) + [DigitChar(n % 10)]
  }

  /** The number a string of decimal digits denotes. */
  function DecimalValue(s: string): nat
    requires forall i :: 0 <= i < |s| ==> IsDigit(s[i])
  {
    if s == [] then 0 else 10 * DecimalValue(s[..|s| - 1]) + DigitValue(s[|s| - 1])
  }

  /** Reading the written line number back gives the line number. */
  lemma {:induction false} DecimalRoundTrip(n: nat)
    ensures DecimalValue(DecimalString(n)) == n
  {
    var s := DecimalString(n);
    if n >= 10 {
      assert s[..|s| - 1] == DecimalString(n / 10);
      DecimalRoundTrip(n / 10);
    }
  }

  const Prefix := "unknown include file "
  const FileWord := " at file "
  const LineWord := " at line "

  /** The diagnostic line for an include of `filename` at `line` of `file` that nothing resolves. */
  function Diagnostic(filename: string, file: Path, line: nat): string {
    Prefix + filename + FileWord + PathString(file) + LineWord + DecimalString(line)
  }

  /**
   * The diagnostic starts with the fixed prefix and the filename, and ends
   * with " at line " and digits that read back as the line number.
   */
  lemma {:induction false} DiagnosticShape(filename: string, file: Path, line: nat)
    ensures var r := Diagnostic(filename, file, line);
      |r| > |Prefix| + |filename| && r[..|Prefix| + |filename|] == Prefix + filename
    ensures var r := Diagnostic(filename, file, line); var d := DecimalString(line);
      |r| > |LineWord| + |d| && r[|r| - |d| - |LineWord|..] == LineWord + d && DecimalValue(d) == line
  {
    var r := Diagnostic(filename, file, line);
    var digits := DecimalString(line);
    assert r[..|Prefix| + |filename|] == Prefix + filename;
    assert r[|r| - |digits| - |LineWord|..] == LineWord + digits;
    DecimalRoundTrip(line);
  }
}
