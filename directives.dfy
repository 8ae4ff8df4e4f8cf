/**
 * The directive matcher: the two anchored patterns of ProcessFile,
 *   \s*#\s*include\s*"([^"]*)"\s*     (local include; the pattern the
 *                                    quote literal evidently means, see
 *                                    RawLiterals)
 *   \s*#\s*include\s*<([^>]*)>\s*     (system include)
 * written as a deterministic grammar over characters, and the three-way
 * classification of a line (quote form tried first).
 */
module Directives {
  import opened Wrappers

  /** The `\s` class of the ECMAScript grammar in the "C" locale. */
  predicate IsSpace(c: char) {
    c == ' ' || c == '\t' || c == '\n' || c == '\r' || c == 11 as char || c == 12 as char
  }

  predicate AllSpaces(s: string) {
    forall i :: 0 <= i < |s| ==> IsSpace(s[i])
  }

  const Keyword := "include"

  /** `\s*`: the suffix left after the longest run of leading whitespace. */
  function DropSpaces(s: string): string {
    if s != [] && IsSpace(s[0]) then DropSpaces(s[1..]) else s
  }

  /**
   * `([^c]*)c\s*` anchored at the end of the line: the name runs up to the
   * first closing delimiter, and only whitespace may follow that delimiter.
   */
  function TakeName(s: string, close: char): Option<string> {
    if s == [] then None
    else if s[0] == close then (if AllSpaces(s[1..]) then Some([]) else None)
    else match TakeName(s[1..], close)
      case None => None
      case Some(n) => Some([s[0]] + n)
  }

  /** `c(name)c\s*` once the opening delimiter is due. */
  function MatchFromOpen(s: string, open: char, close: char): Option<string> {
    if s == [] || s[0] != open then None else TakeName(s[1..], close)
  }

  /** `include\s*c(name)c\s*` once the keyword is due. */
  function MatchFromWord(s: string, open: char, close: char): Option<string> {
    if |s| < |Keyword| || s[..|Keyword|] != Keyword then None
    else MatchFromOpen(DropSpaces(s[|Keyword|..]), open, close)
  }

  /** `#\s*include\s*c(name)c\s*` once the hash is due. */
  function MatchFromHash(s: string, open: char, close: char): Option<string> {
    if s == [] || s[0] != '#' then None
    else MatchFromWord(DropSpaces(s[1..]), open, close)
  }

  /** regex_match of the whole line against one of the two patterns; the captured group on success. */
  function MatchDirective(line: string, open: char, close: char): Option<string> {
    MatchFromHash(DropSpaces(line), open, close)
  }

  datatype Directive = Local(name: string) | System(name: string) | Plain

  /** The line kinds of ProcessFile: the quote form is tried before the angle form. */
  function Classify(line: string): Directive {
    match MatchDirective(line, '"', '"')
    case Some(name) => Local(name)
    case None =>
      match MatchDirective(line, '<', '>')
      case Some(name) => System(name)
      case None => Plain
  }

  // ---------------------------------------------------------------------------
  // The grammar the patterns accept, written as a printer.

  /** The four places where the patterns allow whitespace. */
  datatype Spacing = Spacing(lead: string, afterHash: string, afterWord: string, trail: string)

  predicate ValidSpacing(sp: Spacing) {
    AllSpaces(sp.lead) && AllSpaces(sp.afterHash) && AllSpaces(sp.afterWord) && AllSpaces(sp.trail)
  }

  function RenderFromOpen(open: char, name: string, close: char, trail: string): string {
    [open] + name + [close] + trail
  }

  function RenderFromWord(afterWord: string, open: char, name: string, close: char, trail: string): string {
    Keyword + afterWord + RenderFromOpen(open, name, close, trail)
  }

  function RenderFromHash(afterHash: string, afterWord: string, open: char, name: string, close: char, trail: string): string {
    "#" + afterHash + RenderFromWord(afterWord, open, name, close, trail)
  }

  /** The directive line with the given spacing, delimiters and filename. */
  function Render(sp: Spacing, open: char, name: string, close: char): string {
    sp.lead + RenderFromHash(sp.afterHash, sp.afterWord, open, name, close, sp.trail)
  }

  /** `line` is a directive with delimiters `open`/`close` whose captured filename is `name`. */
  ghost predicate HasForm(line: string, open: char, close: char, name: string) {
    close !in name && exists sp :: ValidSpacing(sp) && line == Render(sp, open, name, close)
  }

  /** `\s*` removes a whitespace prefix and stops at the first other character. */
  lemma {:induction false} DropSpacesSpec(s: string)
    ensures var r := DropSpaces(s);
      |r| <= |s| && r == s[|s| - |r|..] && AllSpaces(s[..|s| - |r|]) && (r != [] ==> !IsSpace(r[0]))
  {
    if s != [] && IsSpace(s[0]) {
      DropSpacesSpec(s[1..]);
      var r := DropSpaces(s);
      assert s[..|s| - |r|] == [s[0]] + s[1..][..|s| - 1 - |r|];
    }
  }

  /**
   * The captured name is the text before the first closing delimiter, that
   * delimiter follows it, and only whitespace follows the delimiter.
   */
  lemma {:induction false} TakeNameSpec(s: string, close: char)
    ensures var r := TakeName(s, close);
      r.Some? ==> (|r.value| < |s| && s[..|r.value|] == r.value && close !in r.value &&
                   s[|r.value|] == close && AllSpaces(s[|r.value| + 1..]))
  {
    if s != [] && s[0] != close {
      TakeNameSpec(s[1..], close);
      var r := TakeName(s, close);
      if r.Some? {
        var n := r.value[1..];
        assert TakeName(s[1..], close) == Some(n);
        assert s[..|r.value|] == [s[0]] + s[1..][..|n|];
        assert s[|r.value| + 1..] == s[1..][|n| + 1..];
      }
    }
  }

  lemma {:induction false} DropSpacesBefore(ws: string, t: string)
    requires AllSpaces(ws)
    requires t != [] ==> !IsSpace(t[0])
    ensures DropSpaces(ws + t) == t
  {
    if ws != [] {
      assert (ws + t)[1..] == ws[1..] + t;
      DropSpacesBefore(ws[1..], t);
    }
  }

  lemma {:induction false} TakeNameBefore(name: string, close: char, trail: string)
    requires close !in name && AllSpaces(trail)
    ensures TakeName(name + [close] + trail, close) == Some(name)
  {
    var s := name + [close] + trail;
    if name == [] {
      assert s[0] == close && s[1..] == trail;
    } else {
      assert s[0] == name[0] && s[1..] == name[1..] + [close] + trail;
      TakeNameBefore(name[1..], close, trail);
      assert [name[0]] + name[1..] == name;
    }
  }

  lemma {:induction false} MatchFromOpenRender(open: char, name: string, close: char, trail: string)
    requires close !in name && AllSpaces(trail)
    ensures MatchFromOpen(RenderFromOpen(open, name, close, trail), open, close) == Some(name)
  {
    var s := RenderFromOpen(open, name, close, trail);
    assert s[1..] == name + [close] + trail;
    TakeNameBefore(name, close, trail);
  }

  /** After `#`, whitespace and the keyword, matching continues at the next non-space. */
  lemma {:induction false} WordStage(w: string, fromOpen: string, open: char, close: char)
    requires AllSpaces(w) && (fromOpen != [] ==> !IsSpace(fromOpen[0]))
    ensures MatchFromWord(Keyword + w + fromOpen, open, close) == MatchFromOpen(fromOpen, open, close)
  {
    var s := Keyword + w + fromOpen;
    assert s[..|Keyword|] == Keyword && s[|Keyword|..] == w + fromOpen;
    DropSpacesBefore(w, fromOpen);
  }

  lemma {:induction false} HashStage(h: string, fromWord: string, open: char, close: char)
    requires AllSpaces(h) && (fromWord != [] ==> !IsSpace(fromWord[0]))
    ensures MatchFromHash("#" + h + fromWord, open, close) == MatchFromWord(fromWord, open, close)
  {
    var s := "#" + h + fromWord;
    assert s[0] == '#' && s[1..] == h + fromWord;
    DropSpacesBefore(h, fromWord);
  }

  lemma {:induction false} LeadStage(lead: string, fromHash: string, open: char, close: char)
    requires AllSpaces(lead) && (fromHash != [] ==> !IsSpace(fromHash[0]))
    ensures MatchDirective(lead + fromHash, open, close) == MatchFromHash(fromHash, open, close)
  {
    DropSpacesBefore(lead, fromHash);
  }

  /** Every rendering is matched, and the captured group is exactly the filename. */
  lemma {:induction false} MatchRender(sp: Spacing, open: char, name: string, close: char)
    requires ValidSpacing(sp) && close !in name && !IsSpace(open)
    ensures MatchDirective(Render(sp, open, name, close), open, close) == Some(name)
  {
    var fromOpen := RenderFromOpen(open, name, close, sp.trail);
    var fromWord := RenderFromWord(sp.afterWord, open, name, close, sp.trail);
    var fromHash := RenderFromHash(sp.afterHash, sp.afterWord, open, name, close, sp.trail);
    MatchFromOpenRender(open, name, close, sp.trail);
    WordStage(sp.afterWord, fromOpen, open, close);
    HashStage(sp.afterHash, fromWord, open, close);
    LeadStage(sp.lead, fromHash, open, close);
  }

  lemma {:induction false} SplitSpaces(s: string) returns (ws: string)
    ensures AllSpaces(ws) && s == ws + DropSpaces(s)
  {
    DropSpacesSpec(s);
    ws := s[..|s| - |DropSpaces(s)|];
  }

  lemma {:induction false} MatchFromOpenSound(s: string, open: char, close: char, name: string) returns (trail: string)
    requires MatchFromOpen(s, open, close) == Some(name)
    ensures close !in name && AllSpaces(trail) && s == RenderFromOpen(open, name, close, trail)
  {
    var rest := s[1..];
    TakeNameSpec(rest, close);
    trail := rest[|name| + 1..];
    assert rest == name + [close] + trail;
    assert s == RenderFromOpen(open, name, close, trail);
  }

  lemma {:induction false} MatchFromWordSound(s: string, open: char, close: char, name: string) returns (w: string, trail: string)
    requires MatchFromWord(s, open, close) == Some(name)
    ensures close !in name && AllSpaces(w) && AllSpaces(trail) && s == RenderFromWord(w, open, name, close, trail)
  {
    var afterKeyword := s[|Keyword|..];
    w := SplitSpaces(afterKeyword);
    trail := MatchFromOpenSound(DropSpaces(afterKeyword), open, close, name);
    assert s == Keyword + afterKeyword;
  }

  lemma {:induction false} RenderFromHashSplit(s: string, h: string, w: string, open: char, name: string, close: char, trail: string)
    requires |s| > 0 && s[0] == '#' && s[1..] == h + RenderFromWord(w, open, name, close, trail)
    ensures s == RenderFromHash(h, w, open, name, close, trail)
  {
    assert s == "#" + s[1..];
  }

  lemma {:induction false} MatchFromHashSound(s: string, open: char, close: char, name: string) returns (h: string, w: string, trail: string)
    requires MatchFromHash(s, open, close) == Some(name)
    ensures close !in name && AllSpaces(h) && AllSpaces(w) && AllSpaces(trail)
    ensures s == RenderFromHash(h, w, open, name, close, trail)
  {
    var afterHash := s[1..];
    h := SplitSpaces(afterHash);
    w, trail := MatchFromWordSound(DropSpaces(afterHash), open, close, name);
    RenderFromHashSplit(s, h, w, open, name, close, trail);
  }

  /** Every match is a rendering of the captured filename with some valid spacing. */
  lemma {:induction false} MatchSound(line: string, open: char, close: char, name: string)
    requires MatchDirective(line, open, close) == Some(name)
    ensures HasForm(line, open, close, name)
  {
    var lead := SplitSpaces(line);
    var h, w, trail := MatchFromHashSound(DropSpaces(line), open, close, name);
    var sp := Spacing(lead, h, w, trail);
    assert ValidSpacing(sp) && line == Render(sp, open, name, close);
  }

  lemma {:induction false} MatchExclusive(line: string)
    ensures !(MatchDirective(line, '"', '"').Some? && MatchDirective(line, '<', '>').Some?)
  {
  }

  /** A quoted rendering is a local include of exactly its filename. */
  lemma {:induction false} RenderedLocal(sp: Spacing, name: string)
    requires ValidSpacing(sp) && '"' !in name
    ensures Classify(Render(sp, '"', name, '"')) == Local(name)
  {
    MatchRender(sp, '"', name, '"');
  }

  /** An angled rendering is a system include of exactly its filename. */
  lemma {:induction false} RenderedSystem(sp: Spacing, name: string)
    requires ValidSpacing(sp) && '>' !in name
    ensures Classify(Render(sp, '<', name, '>')) == System(name)
  {
    var line := Render(sp, '<', name, '>');
    MatchRender(sp, '<', name, '>');
    MatchExclusive(line);
  }

  /** A line is a local include of `name` exactly when it has the quoted shape around `name`. */
  lemma {:induction false} ClassifyLocal(line: string, name: string)
    ensures Classify(line) == Local(name) <==> HasForm(line, '"', '"', name)
  {
    if Classify(line) == Local(name) {
      MatchSound(line, '"', '"', name);
    }
    if HasForm(line, '"', '"', name) {
      var sp :| ValidSpacing(sp) && line == Render(sp, '"', name, '"');
      MatchRender(sp, '"', name, '"');
    }
  }

  /** A line is a system include of `name` exactly when it has the angle shape around `name`. */
  lemma {:induction false} ClassifySystem(line: string, name: string)
    ensures Classify(line) == System(name) <==> HasForm(line, '<', '>', name)
  {
    if Classify(line) == System(name) {
      MatchSound(line, '<', '>', name);
    }
    if HasForm(line, '<', '>', name) {
      var sp :| ValidSpacing(sp) && line == Render(sp, '<', name, '>');
      MatchRender(sp, '<', name, '>');
      MatchExclusive(line);
    }
  }

  /** Every line that has neither shape, for any filename, is plain content. */
  lemma {:induction false} ClassifyPlain(line: string)
    ensures Classify(line) == Plain <==>
      forall name :: !HasForm(line, '"', '"', name) && !HasForm(line, '<', '>', name)
  {
    if Classify(line) == Plain {
      forall name ensures !HasForm(line, '"', '"', name) && !HasForm(line, '<', '>', name) {
        ClassifyLocal(line, name);
        ClassifySystem(line, name);
      }
    } else {
      var name := Classify(line).name;
      ClassifyLocal(line, name);
      ClassifySystem(line, name);
    }
  }

  /** A line without any '#' is always plain content. */
  lemma {:induction false} NoHashIsPlain(line: string)
    requires '#' !in line
    ensures Classify(line) == Plain
  {
    var afterLead := DropSpaces(line);
    DropSpacesSpec(line);
    if afterLead != [] {
      assert afterLead[0] == line[|line| - |afterLead|];
    }
  }

  lemma {:induction false} TakeNameRejects(name: string, close: char, rest: string)
    requires close !in name && !AllSpaces(rest)
    ensures TakeName(name + [close] + rest, close) == None
  {
    var s := name + [close] + rest;
    if name == [] {
      assert s[0] == close && s[1..] == rest;
    } else {
      assert s[0] == name[0] && s[1..] == name[1..] + [close] + rest;
      TakeNameRejects(name[1..], close, rest);
    }
  }

  /**
   * A directive-shaped line with anything but whitespace after its closing
   * delimiter is plain content, whichever of the two forms it imitates.
   */
  lemma {:induction false} TrailingTextIsPlain(sp: Spacing, open: char, name: string, close: char)
    requires (open, close) == ('"', '"') || (open, close) == ('<', '>')
    requires AllSpaces(sp.lead) && AllSpaces(sp.afterHash) && AllSpaces(sp.afterWord)
    requires close !in name && !AllSpaces(sp.trail)
    ensures Classify(Render(sp, open, name, close)) == Plain
  {
    var fromOpen := RenderFromOpen(open, name, close, sp.trail);
    var fromWord := RenderFromWord(sp.afterWord, open, name, close, sp.trail);
    var fromHash := RenderFromHash(sp.afterHash, sp.afterWord, open, name, close, sp.trail);
    assert fromOpen[1..] == name + [close] + sp.trail;
    TakeNameRejects(name, close, sp.trail);
    assert MatchFromOpen(fromOpen, '"', '"') == None && MatchFromOpen(fromOpen, '<', '>') == None;
    WordStage(sp.afterWord, fromOpen, '"', '"');
    WordStage(sp.afterWord, fromOpen, '<', '>');
    HashStage(sp.afterHash, fromWord, '"', '"');
    HashStage(sp.afterHash, fromWord, '<', '>');
    LeadStage(sp.lead, fromHash, '"', '"');
    LeadStage(sp.lead, fromHash, '<', '>');
  }

  lemma {:induction false} CommentedLineShape()
    ensures Render(Spacing("", "", " ", " // c"), '"', "x.h", '"') == "#include \"x.h\" // c"
  {
  }

  /** The example of a commented directive: `#include "x.h" // c` is passed through. */
  lemma {:induction false} TrailingCommentIsPlain()
    ensures Classify("#include \"x.h\" // c") == Plain
  {
    var sp := Spacing("", "", " ", " // c");
    assert !IsSpace(sp.trail[1]);
    assert AllSpaces(" ") && AllSpaces("");
    TrailingTextIsPlain(sp, '"', "x.h", '"');
    CommentedLineShape();
  }
}
