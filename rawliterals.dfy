/**
 * How C++ delimits a raw string literal `R"d(` … `)d"`: its text runs from
 * the opening parenthesis to the first `)` followed by the delimiter `d`
 * and a quote. The two include patterns of ProcessFile are written as raw
 * literals with an empty delimiter, so the first `)"` inside the quote
 * pattern ends that literal early.
 */
module RawLiterals {
  import opened Wrappers

  /** `c` occurs in `s` at index `j`. */
  predicate OccursAt(s: string, c: string, j: nat)
  {
    j + |c| <= |s| && s[j..j + |c|] == c
  }

  /** The first index at or after `i` where `c` occurs in `s`, or `|s|` when there is none. */
  function FindFrom(s: string, c: string, i: nat): (k: nat)
    requires i <= |s|
    ensures i <= k <= |s|
    ensures k < |s| ==> OccursAt(s, c, k)
    ensures k == |s| ==> !OccursAt(s, c, |s|) || c == []
    ensures forall j :: i <= j < k ==> !OccursAt(s, c, j)
    decreases |s| - i
  {
    if i == |s| then |s|
    else if OccursAt(s, c, i) then i
    else FindFrom(s, c, i + 1)
  }

  /** The text of a raw literal, and the source text after it. */
  datatype Literal = Literal(body: string, rest: string)

  function Opening(d: string): string { "R\"" + d + "(" }
  function Closing(d: string): string { ")" + d + "\"" }

  /**
   * Reads a raw literal with delimiter `d` at the start of `s`; None when
   * `s` does not start with its opening or the literal is not closed.
   */
  function ReadRaw(d: string, s: string): (r: Option<Literal>)
    ensures r.Some? ==> s == Opening(d) + r.value.body + Closing(d) + r.value.rest
    ensures r.Some? ==> NoClosingIn(d, r.value.body)
  {
    var o := Opening(d);
    if |s| < |o| || s[..|o|] != o then None
    else
      var k := FindFrom(s, Closing(d), |o|);
      if k == |s| then None
      else
        var body := s[|o|..k];
        var rest := s[k + |Closing(d)|..];
        assert s == o + body + Closing(d) + rest by {
          assert s[k..k + |Closing(d)|] == Closing(d);
          assert s == s[..|o|] + s[|o|..k] + s[k..k + |Closing(d)|] + s[k + |Closing(d)|..];
        }
        ShiftOccurrence(s, o, body, Closing(d), rest);
        Some(Literal(body, rest))
  }

  /** An occurrence of `c` in `body + c` is one in `o + body + c + rest`, shifted by `|o|`. */
  lemma ShiftOccurrence(s: string, o: string, body: string, c: string, rest: string)
    requires s == o + body + c + rest
    ensures forall j :: 0 <= j <= |body| && OccursAt(body + c, c, j) ==> OccursAt(s, c, |o| + j)
  {
    forall j | 0 <= j <= |body| && OccursAt(body + c, c, j)
      ensures OccursAt(s, c, |o| + j)
    {
      assert s[|o| + j..|o| + j + |c|] == (body + c)[j..j + |c|];
    }
  }

  /** FindFrom stops at the first occurrence. */
  lemma {:induction false} FindFromIs(s: string, c: string, i: nat, k: nat)
    requires i <= k < |s| && OccursAt(s, c, k)
    requires forall j :: i <= j < k ==> !OccursAt(s, c, j)
    ensures FindFrom(s, c, i) == k
    decreases k - i
  {
    if i < k {
      FindFromIs(s, c, i + 1, k);
    }
  }

  /** The character that follows `)` in the closing of a literal with delimiter `d`. */
  function CloseNext(d: string): (ch: char)
    ensures ch == Closing(d)[1]
  {
    if d == [] then '"' else d[0]
  }

  /** No closing of a literal with delimiter `d` starts inside `body`, even one that runs into the closing after it. */
  predicate NoClosingIn(d: string, body: string)
  {
    forall j :: 0 <= j < |body| ==> !OccursAt(body + Closing(d), Closing(d), j)
  }

  /**
   * The converse of ReadRaw's contract: a literal whose text holds no
   * closing reads back as that text, whatever follows it.
   */
  lemma {:induction false} ReadsAs(d: string, body: string, rest: string)
    requires NoClosingIn(d, body)
    ensures ReadRaw(d, Opening(d) + body + Closing(d) + rest) == Some(Literal(body, rest))
  {
    var o, c := Opening(d), Closing(d);
    var s := o + body + c + rest;
    assert s[..|o|] == o;
    var k := |o| + |body|;
    assert s[k..k + |c|] == c;
    forall j | |o| <= j < k
      ensures !OccursAt(s, c, j)
    {
      assert s[j..j + |c|] == (body + c)[j - |o|..j - |o| + |c|];
      assert !OccursAt(body + c, c, j - |o|);
    }
    FindFromIs(s, c, |o|, k);
    assert s[|o|..k] == body;
    assert s[k + |c|..] == rest;
  }

  /** A text in which every `)` is followed by a character other than the one after `)` in the closing holds no closing. */
  lemma {:induction false} NoEarlyCloseSuffices(d: string, body: string)
    requires NoEarlyClose(d, body)
    ensures NoClosingIn(d, body)
  {
    var c := Closing(d);
    var t := body + c;
    forall j | 0 <= j < |body|
      ensures !OccursAt(t, c, j)
    {
      assert t[j] == body[j];
      if body[j] == ')' {
        assert t[j + 1] == body[j + 1] != c[1];
        assert j + |c| <= |t| ==> t[j..j + |c|][1] == t[j + 1];
      } else {
        assert j + |c| <= |t| ==> t[j..j + |c|][0] == t[j] != c[0];
      }
    }
  }

  /** The patterns the two include forms are matched against (Directives.MatchDirective). */
  const QuotePattern := "\\s*#\\s*include\\s*\"([^\"]*)\"\\s*"
  const AnglePattern := "\\s*#\\s*include\\s*<([^>]*)>\\s*"
  /** The quote pattern up to its first `)"`. */
  const QuoteCut := "\\s*#\\s*include\\s*\"([^\"]*"
  /** What follows the first `)"` of the quote source. */
  const QuoteTail := "\\s*)\");"

  /** The source text of the quote pattern, from `R` to the end of the statement. */
  const QuoteSource := "R\"(" + QuoteCut + ")\"" + QuoteTail
  /** The source text of the angle pattern, from `R` to the end of the statement. */
  const AngleSource := "R\"(" + AnglePattern + ")\"" + ");"
  /** The quote pattern in a raw literal with the delimiter `re`. */
  const DelimitedSource := "R\"re(" + QuotePattern + ")re\"" + ");"

  /** The quote source is the quote pattern with its last `)"\s*` taken out of the literal. */
  lemma {:induction false} QuoteSourceSpelling()
    ensures QuotePattern == QuoteCut + ")\"" + "\\s*"
    ensures QuoteSource == "R\"(" + QuotePattern + ")\");"
  {
  }

  /** A text in which every `)` is followed by a character other than the one after `)` in the closing. */
  predicate NoEarlyClose(d: string, body: string)
  {
    forall j :: 0 <= j < |body| && body[j] == ')' ==> j + 1 < |body| && body[j + 1] != CloseNext(d)
  }

  lemma {:induction false} EmptyDelimiter()
    ensures Opening("") == "R\"(" && Closing("") == ")\""
  {
  }

  lemma {:induction false} ReDelimiter()
    ensures Opening("re") == "R\"re(" && Closing("re") == ")re\""
  {
  }

  lemma {:induction false} QuoteCutOpen()
    ensures NoEarlyClose("", QuoteCut)
  {
  }

  lemma {:induction false} AnglePatternOpen()
    ensures NoEarlyClose("", AnglePattern)
  {
  }

  lemma {:induction false} QuotePatternOpen()
    ensures NoEarlyClose("re", QuotePattern)
  {
  }

  /**
   * As written, the quote literal ends right after `([^"]*`: its text lacks
   * the closing `)"\s*` of the pattern, and a stray `\` follows it outside
   * any literal, so the statement is not well-formed C++.
   */
  lemma {:induction false} QuoteLiteralEndsEarly()
    ensures ReadRaw("", QuoteSource) == Some(Literal(QuoteCut, QuoteTail))
    ensures ReadRaw("", QuoteSource).value.body != QuotePattern
    ensures ReadRaw("", QuoteSource).value.rest[0] == '\\'
  {
    EmptyDelimiter();
    QuoteCutOpen();
    NoEarlyCloseSuffices("", QuoteCut);
    ReadsAs("", QuoteCut, QuoteTail);
    assert |QuoteCut| != |QuotePattern|;
  }

  /** The angle literal has no `)"` inside, so it reads as its pattern. */
  lemma {:induction false} AngleLiteralAsIntended()
    ensures ReadRaw("", AngleSource) == Some(Literal(AnglePattern, ");"))
  {
    EmptyDelimiter();
    AnglePatternOpen();
    NoEarlyCloseSuffices("", AnglePattern);
    ReadsAs("", AnglePattern, ");");
  }

  /** With the delimiter `re`, the quote literal reads as the intended pattern. */
  lemma {:induction false} QuoteLiteralDelimited()
    ensures ReadRaw("re", DelimitedSource) == Some(Literal(QuotePattern, ");"))
  {
    ReDelimiter();
    QuotePatternOpen();
    NoEarlyCloseSuffices("re", QuotePattern);
    ReadsAs("re", QuotePattern, ");");
  }
}
