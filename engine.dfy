/**
 * The preprocessor itself, written the way the source runs it: output and
 * console are streams that only grow, ProcessFile walks the lines of a
 * file with a counter and recurses into every resolved include, and
 * Preprocess opens the two files. Each method is proved to produce exactly
 * what the specification function `Expand` says.
 */
module Engine {
  import opened Wrappers
  import opened Paths
  import opened Directives
  import opened Diagnostics
  import opened Resolver
  import opened Expansion

  /** A text stream that is only appended to: the output file, or `cout`. */
  class Sink {
    var text: string

    constructor()
      ensures text == []
    {
      text := [];
    }

    /** `stream << line << endl` */
    method WriteLine(line: string)
      modifies this
      ensures text == old(text) + line + "\n"
    {
      text := text + line + "\n";
    }
  }

  lemma AppendAssoc(a: string, b: string, c: string)
    ensures a + b + c == a + (b + c)
  {
  }

  /** Prints the diagnostic for an include of `filename`, at `currentLine` of `currentFilePath`, that nothing resolves. */
  method PrintIncludeError(console: Sink, filename: string, currentFilePath: Path, currentLine: nat)
    modifies console
    ensures console.text == old(console.text) + Diagnostic(filename, currentFilePath, currentLine) + "\n"
  {
    console.WriteLine(Diagnostic(filename, currentFilePath, currentLine));
  }

  /**
   * Processes the lines of the file `currentFilePath`, whose directory is
   * `currentDir`, one after the other, counting them from 1; the first line
   * whose processing fails ends the processing with `false`.
   */
  method ProcessFile(fs: FileSystem, lines: seq<string>, out: Sink, console: Sink, currentDir: Path,
                     dirs: seq<Path>, currentFilePath: Path, fuel: nat) returns (ok: bool)
    requires out != console
    modifies out, console
    ensures var r := Expand(fs, dirs, lines, 0, currentDir, currentFilePath, fuel);
      ok == r.status.Success? && out.text == old(out.text) + r.out && console.text == old(console.text) + r.log
    decreases fuel, 2
  {
    var currentLine := 0;
    ghost var written := "";
    ghost var logged := "";
    while currentLine < |lines|
      invariant currentLine <= |lines|
      invariant out.text == old(out.text) + written && console.text == old(console.text) + logged
      invariant Expand(fs, dirs, lines, 0, currentDir, currentFilePath, fuel) ==
        Then(Run(Success, written, logged), Expand(fs, dirs, lines, currentLine, currentDir, currentFilePath, fuel))
    {
      var line := lines[currentLine];
      ghost var k := currentLine;
      currentLine := currentLine + 1;
      ghost var r := LineRun(fs, dirs, currentDir, currentFilePath, line, currentLine, fuel);
      var processed := ProcessLine(fs, line, currentLine, out, console, currentDir, dirs, currentFilePath, fuel);
      ExpandStep(fs, dirs, lines, k, currentDir, currentFilePath, fuel);
      ThenAssoc(Run(Success, written, logged), r, Expand(fs, dirs, lines, currentLine, currentDir, currentFilePath, fuel));
      AppendAssoc(old(out.text), written, r.out);
      AppendAssoc(old(console.text), logged, r.log);
      if !processed {
        return false;
      }
      written := written + r.out;
      logged := logged + r.log;
    }
    return true;
  }

  /**
   * The body of the loop of ProcessFile for line `currentLine`: a plain line
   * is copied to `out`; an include is resolved, for the quote form next to
   * the current file first and then in the search directories, for the angle
   * form in the search directories only, and the file found is processed in
   * place; an include that nothing resolves is reported on `console`.
   */
  method ProcessLine(fs: FileSystem, line: string, currentLine: nat, out: Sink, console: Sink, currentDir: Path,
                     dirs: seq<Path>, currentFilePath: Path, fuel: nat) returns (ok: bool)
    requires out != console
    modifies out, console
    ensures var r := LineRun(fs, dirs, currentDir, currentFilePath, line, currentLine, fuel);
      ok == r.status.Success? && out.text == old(out.text) + r.out && console.text == old(console.text) + r.log
    decreases fuel, 1
  {
    var quoted := MatchDirective(line, '"', '"');
    if quoted.Some? {
      var filename := quoted.value;
      var filePath := Join(currentDir, filename);
      var found := true;
      if filePath in fs {
        QuotedHere(fs, dirs, currentDir, line, filename);
      } else {
        found, filePath := SearchDirectories(fs, dirs, filename);
        QuotedSearched(fs, dirs, currentDir, line, filename, found, filePath);
      }
      ok := ProcessInclude(fs, line, filename, found, filePath, currentLine, out, console, currentDir, dirs, currentFilePath, fuel);
    } else {
      var angled := MatchDirective(line, '<', '>');
      if angled.Some? {
        var filename := angled.value;
        var found, filePath := SearchDirectories(fs, dirs, filename);
        AngledSearched(fs, dirs, currentDir, line, filename, found, filePath);
        ok := ProcessInclude(fs, line, filename, found, filePath, currentLine, out, console, currentDir, dirs, currentFilePath, fuel);
      } else {
        NeitherForm(fs, dirs, currentDir, line);
        LineRunEmit(fs, dirs, currentDir, currentFilePath, line, currentLine, fuel);
        out.WriteLine(line);
        AppendAssoc(old(out.text), line, "\n");
        ok := true;
      }
    }
  }

  /**
   * What both include branches of the loop do once the search is over: an
   * include of `filename` that nothing resolves is reported, and a resolved
   * one has the file at `filePath` processed in place, with its own
   * directory as context.
   */
  method ProcessInclude(fs: FileSystem, line: string, filename: string, found: bool, filePath: Path, currentLine: nat,
                        out: Sink, console: Sink, currentDir: Path, dirs: seq<Path>, currentFilePath: Path, fuel: nat)
    returns (ok: bool)
    requires out != console
    requires LineStep(fs, dirs, currentDir, line) == if found then Enter(filePath) else Missing(filename)
    modifies out, console
    ensures var r := LineRun(fs, dirs, currentDir, currentFilePath, line, currentLine, fuel);
      ok == r.status.Success? && out.text == old(out.text) + r.out && console.text == old(console.text) + r.log
    decreases fuel, 0
  {
    if !found {
      LineRunMissing(fs, dirs, currentDir, currentFilePath, line, currentLine, fuel, filename);
      PrintIncludeError(console, filename, currentFilePath, currentLine);
      AppendAssoc(old(console.text), Diagnostic(filename, currentFilePath, currentLine), "\n");
      return false;
    }
    LineRunEnter(fs, dirs, currentDir, currentFilePath, line, currentLine, fuel, filePath);
    if fuel == 0 {
      return false;
    }
    ok := ProcessFile(fs, fs[filePath], out, console, Parent(filePath), dirs, filePath, fuel - 1);
  }

  /**
   * Opens `inFile` and the output file and processes `inFile` with its own
   * directory as context. Nothing is produced when either file does not
   * open; otherwise the output holds what was written before the
   * processing ended, whether it succeeded or not.
   */
  method Preprocess(fs: FileSystem, inFile: Path, outFileOpens: bool, dirs: seq<Path>, console: Sink, fuel: nat)
    returns (ok: bool, output: Option<string>)
    modifies console
    ensures inFile !in fs || !outFileOpens ==> !ok && output == None && console.text == old(console.text)
    ensures inFile in fs && outFileOpens ==>
      var r := ExpandFile(fs, dirs, inFile, fuel);
      ok == r.status.Success? && output == Some(r.out) && console.text == old(console.text) + r.log
  {
    if inFile !in fs {
      return false, None;
    }
    if !outFileOpens {
      return false, None;
    }
    var out := new Sink();
    ok := ProcessFile(fs, fs[inFile], out, console, Parent(inFile), dirs, inFile, fuel);
    ghost var r := ExpandFile(fs, dirs, inFile, fuel);
    assert out.text == [] + r.out == r.out;
    output := Some(out.text);
  }
}
