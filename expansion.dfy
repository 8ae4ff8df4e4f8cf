/**
 * What ProcessFile computes, as a function: the outcome of processing the
 * lines of one file from a given index on, the text it appends to the
 * output stream and the text it prints on the console. A resolved include
 * is expanded in place, depth first, with the directory of the included
 * file as its context; an unresolved one prints one diagnostic and stops
 * every enclosing frame.
 *
 * The source has no bound on the include depth: an include cycle recurses
 * until the call stack or the limit on open files runs out. `fuel` bounds
 * the depth here, and `DepthExceeded` stands for running out of it.
 */
module Expansion {
  import opened Wrappers
  import opened Paths
  import opened Directives
  import opened Diagnostics
  import opened Resolver

  /** `true` of the source is `Success`; every other status is its `false`. */
  datatype Status =
    | Success
    | Unresolved(name: string, file: Path, line: nat)  // the include that nothing resolves
    | DepthExceeded                                    // more nested includes than the fuel allows

  /** The outcome, the text appended to the output and the text printed on the console. */
  datatype Run = Run(status: Status, out: string, log: string)

  const Done := Run(Success, "", "")

  /** `first` and then `rest`, unless `first` stopped the processing. */
  function Then(first: Run, rest: Run): Run {
    if first.status.Success? then Run(rest.status, first.out + rest.out, first.log + rest.log) else first
  }

  /** Every line followed by one newline (`out << line << endl`). */
  function Unlines(lines: seq<string>): string {
    if lines == [] then "" else lines[0] + "\n" + Unlines(lines[1..])
  }

  /** What one line of the current file calls for. */
  datatype Step =
    | Emit(text: string)    // plain content, copied to the output
    | Missing(name: string) // an include that nothing resolves
    | Enter(path: Path)     // an include resolved to the file at `path`

  function LineStep(fs: FileSystem, dirs: seq<Path>, currentDir: Path, line: string): (s: Step)
    ensures s.Enter? ==> s.path in fs
  {
    var d := Classify(line);
    if d.Plain? then Emit(line)
    else match Resolve(fs, currentDir, dirs, d)
      case None => Missing(d.name)
      case Some(p) => Enter(p)
  }

  // The branches of ProcessLine, each tied to the step the line calls for.

  lemma {:induction false} QuotedHere(fs: FileSystem, dirs: seq<Path>, currentDir: Path, line: string, name: string)
    requires MatchDirective(line, '"', '"') == Some(name) && Join(currentDir, name) in fs
    ensures LineStep(fs, dirs, currentDir, line) == Enter(Join(currentDir, name))
  {
  }

  lemma {:induction false} QuotedSearched(fs: FileSystem, dirs: seq<Path>, currentDir: Path, line: string, name: string,
                                          found: bool, p: Path)
    requires MatchDirective(line, '"', '"') == Some(name) && Join(currentDir, name) !in fs
    requires found == FirstIndex(fs, dirs, name).Some?
    requires found ==> p == Join(dirs[FirstIndex(fs, dirs, name).value], name)
    ensures LineStep(fs, dirs, currentDir, line) == if found then Enter(p) else Missing(name)
  {
  }

  lemma {:induction false} AngledSearched(fs: FileSystem, dirs: seq<Path>, currentDir: Path, line: string, name: string,
                                          found: bool, p: Path)
    requires MatchDirective(line, '"', '"') == None && MatchDirective(line, '<', '>') == Some(name)
    requires found == FirstIndex(fs, dirs, name).Some?
    requires found ==> p == Join(dirs[FirstIndex(fs, dirs, name).value], name)
    ensures LineStep(fs, dirs, currentDir, line) == if found then Enter(p) else Missing(name)
  {
  }

  lemma {:induction false} NeitherForm(fs: FileSystem, dirs: seq<Path>, currentDir: Path, line: string)
    requires MatchDirective(line, '"', '"') == None && MatchDirective(line, '<', '>') == None
    ensures LineStep(fs, dirs, currentDir, line) == Emit(line)
  {
  }

  /** Processing lines[k..] of `file`, whose directory is `currentDir`; line k is line k + 1 of the file. */
  function Expand(fs: FileSystem, dirs: seq<Path>, lines: seq<string>, k: nat,
                  currentDir: Path, file: Path, fuel: nat): Run
    requires k <= |lines|
    decreases fuel, |lines| - k
  {
    if k == |lines| then Done
    else match LineStep(fs, dirs, currentDir, lines[k])
      case Emit(text) => Then(Run(Success, text + "\n", ""), Expand(fs, dirs, lines, k + 1, currentDir, file, fuel))
      case Missing(name) => Run(Unresolved(name, file, k + 1), "", Diagnostic(name, file, k + 1) + "\n")
      case Enter(p) =>
        if fuel == 0 then Run(DepthExceeded, "", "")
        else Then(ExpandFile(fs, dirs, p, fuel - 1), Expand(fs, dirs, lines, k + 1, currentDir, file, fuel))
  }

  /** Processing a whole file, as Preprocess and an include do. */
  function ExpandFile(fs: FileSystem, dirs: seq<Path>, file: Path, fuel: nat): Run
    requires file in fs
    decreases fuel, |fs[file]| + 1
  {
    Expand(fs, dirs, fs[file], 0, Parent(file), file, fuel)
  }

  lemma ThenAssoc(a: Run, b: Run, c: Run)
    ensures Then(Then(a, b), c) == Then(a, Then(b, c))
  {
  }

  /** A plain line is written, then the rest of the file is processed. */
  lemma {:induction false} EmitStep(fs: FileSystem, dirs: seq<Path>, lines: seq<string>, k: nat,
                                    currentDir: Path, file: Path, fuel: nat, text: string)
    requires k < |lines| && LineStep(fs, dirs, currentDir, lines[k]) == Emit(text)
    ensures Expand(fs, dirs, lines, k, currentDir, file, fuel) ==
      Then(Run(Success, text + "\n", ""), Expand(fs, dirs, lines, k + 1, currentDir, file, fuel))
  {
  }

  /** A resolved include is processed, then the rest of the file. */
  lemma {:induction false} EnterStep(fs: FileSystem, dirs: seq<Path>, lines: seq<string>, k: nat,
                                     currentDir: Path, file: Path, fuel: nat, p: Path)
    requires k < |lines| && fuel > 0 && LineStep(fs, dirs, currentDir, lines[k]) == Enter(p)
    ensures Expand(fs, dirs, lines, k, currentDir, file, fuel) ==
      Then(ExpandFile(fs, dirs, p, fuel - 1), Expand(fs, dirs, lines, k + 1, currentDir, file, fuel))
  {
  }

  /**
   * What line `number` of `file`, whose text is `line`, contributes on its
   * own: the line itself, the diagnostic for an include nothing resolves, or
   * the processing of the included file.
   */
  function LineRun(fs: FileSystem, dirs: seq<Path>, currentDir: Path, file: Path, line: string, number: nat, fuel: nat): Run {
    match LineStep(fs, dirs, currentDir, line)
    case Emit(text) => Run(Success, text + "\n", "")
    case Missing(name) => Run(Unresolved(name, file, number), "", Diagnostic(name, file, number) + "\n")
    case Enter(p) => if fuel == 0 then Run(DepthExceeded, "", "") else ExpandFile(fs, dirs, p, fuel - 1)
  }

  lemma {:induction false} LineRunEmit(fs: FileSystem, dirs: seq<Path>, currentDir: Path, file: Path, line: string, number: nat, fuel: nat)
    requires LineStep(fs, dirs, currentDir, line) == Emit(line)
    ensures LineRun(fs, dirs, currentDir, file, line, number, fuel) == Run(Success, line + "\n", "")
  {
  }

  lemma {:induction false} LineRunMissing(fs: FileSystem, dirs: seq<Path>, currentDir: Path, file: Path, line: string, number: nat,
                                          fuel: nat, name: string)
    requires LineStep(fs, dirs, currentDir, line) == Missing(name)
    ensures LineRun(fs, dirs, currentDir, file, line, number, fuel) ==
      Run(Unresolved(name, file, number), "", Diagnostic(name, file, number) + "\n")
  {
  }

  lemma {:induction false} LineRunEnter(fs: FileSystem, dirs: seq<Path>, currentDir: Path, file: Path, line: string, number: nat,
                                        fuel: nat, p: Path)
    requires LineStep(fs, dirs, currentDir, line) == Enter(p)
    ensures p in fs
    ensures LineRun(fs, dirs, currentDir, file, line, number, fuel) ==
      if fuel == 0 then Run(DepthExceeded, "", "") else Expand(fs, dirs, fs[p], 0, Parent(p), p, fuel - 1)
  {
  }

  lemma {:induction false} LineRunOther(fs: FileSystem, dirs: seq<Path>, currentDir: Path, file: Path, line: string, number: nat,
                                        fuel: nat, more: nat)
    requires !LineStep(fs, dirs, currentDir, line).Enter?
    ensures LineRun(fs, dirs, currentDir, file, line, number, more) == LineRun(fs, dirs, currentDir, file, line, number, fuel)
  {
  }

  lemma {:induction false} LineRunInclude(fs: FileSystem, dirs: seq<Path>, currentDir: Path, file: Path, line: string, number: nat,
                                          fuel: nat, more: nat, p: Path)
    requires 0 < fuel <= more && LineStep(fs, dirs, currentDir, line) == Enter(p)
    ensures p in fs
    ensures LineRun(fs, dirs, currentDir, file, line, number, fuel) == ExpandFile(fs, dirs, p, fuel - 1)
    ensures LineRun(fs, dirs, currentDir, file, line, number, more) == ExpandFile(fs, dirs, p, more - 1)
  {
  }

  /** Processing lines[k..] is processing line k on its own and then, when that succeeds, the lines after it. */
  lemma {:induction false} ExpandStep(fs: FileSystem, dirs: seq<Path>, lines: seq<string>, k: nat,
                                      currentDir: Path, file: Path, fuel: nat)
    requires k < |lines|
    ensures Expand(fs, dirs, lines, k, currentDir, file, fuel) ==
      Then(LineRun(fs, dirs, currentDir, file, lines[k], k + 1, fuel), Expand(fs, dirs, lines, k + 1, currentDir, file, fuel))
  {
  }

  /** A file without directives is copied line by line, each line followed by one newline. */
  lemma {:induction false} PlainLinesVerbatim(fs: FileSystem, dirs: seq<Path>, lines: seq<string>, k: nat,
                                              currentDir: Path, file: Path, fuel: nat)
    requires k <= |lines|
    requires forall i :: k <= i < |lines| ==> Classify(lines[i]) == Plain
    ensures Expand(fs, dirs, lines, k, currentDir, file, fuel) == Run(Success, Unlines(lines[k..]), "")
    decreases |lines| - k
  {
    if k < |lines| {
      PlainLinesVerbatim(fs, dirs, lines, k + 1, currentDir, file, fuel);
      assert lines[k..][1..] == lines[k + 1..];
    }
  }

  lemma {:induction false} SplitEmit(fs: FileSystem, dirs: seq<Path>, lines: seq<string>, pre: seq<string>, k: nat, m: nat,
                                     currentDir: Path, file: Path, fuel: nat, text: string)
    requires k < m <= |lines| && pre == lines[..m] && LineStep(fs, dirs, currentDir, lines[k]) == Emit(text)
    requires Expand(fs, dirs, lines, k + 1, currentDir, file, fuel) ==
      Then(Expand(fs, dirs, pre, k + 1, currentDir, file, fuel), Expand(fs, dirs, lines, m, currentDir, file, fuel))
    ensures Expand(fs, dirs, lines, k, currentDir, file, fuel) ==
      Then(Expand(fs, dirs, pre, k, currentDir, file, fuel), Expand(fs, dirs, lines, m, currentDir, file, fuel))
  {
    assert pre[k] == lines[k];
    EmitStep(fs, dirs, lines, k, currentDir, file, fuel, text);
    EmitStep(fs, dirs, pre, k, currentDir, file, fuel, text);
    ThenAssoc(Run(Success, text + "\n", ""), Expand(fs, dirs, pre, k + 1, currentDir, file, fuel),
      Expand(fs, dirs, lines, m, currentDir, file, fuel));
  }

  lemma {:induction false} SplitStop(fs: FileSystem, dirs: seq<Path>, lines: seq<string>, pre: seq<string>, k: nat, m: nat,
                                     currentDir: Path, file: Path, fuel: nat)
    requires k < m <= |lines| && pre == lines[..m]
    requires var s := LineStep(fs, dirs, currentDir, lines[k]); s.Missing? || (s.Enter? && fuel == 0)
    ensures Expand(fs, dirs, lines, k, currentDir, file, fuel) ==
      Then(Expand(fs, dirs, pre, k, currentDir, file, fuel), Expand(fs, dirs, lines, m, currentDir, file, fuel))
  {
    assert pre[k] == lines[k];
  }

  lemma {:induction false} SplitEnter(fs: FileSystem, dirs: seq<Path>, lines: seq<string>, pre: seq<string>, k: nat, m: nat,
                                      currentDir: Path, file: Path, fuel: nat, p: Path)
    requires k < m <= |lines| && pre == lines[..m] && fuel > 0 && LineStep(fs, dirs, currentDir, lines[k]) == Enter(p)
    requires Expand(fs, dirs, lines, k + 1, currentDir, file, fuel) ==
      Then(Expand(fs, dirs, pre, k + 1, currentDir, file, fuel), Expand(fs, dirs, lines, m, currentDir, file, fuel))
    ensures Expand(fs, dirs, lines, k, currentDir, file, fuel) ==
      Then(Expand(fs, dirs, pre, k, currentDir, file, fuel), Expand(fs, dirs, lines, m, currentDir, file, fuel))
  {
    assert pre[k] == lines[k];
    EnterStep(fs, dirs, lines, k, currentDir, file, fuel, p);
    EnterStep(fs, dirs, pre, k, currentDir, file, fuel, p);
    ThenAssoc(ExpandFile(fs, dirs, p, fuel - 1), Expand(fs, dirs, pre, k + 1, currentDir, file, fuel),
      Expand(fs, dirs, lines, m, currentDir, file, fuel));
  }

  /** The step of Split: what holds from line k + 1 on holds from line k on. */
  lemma {:induction false} SplitStep(fs: FileSystem, dirs: seq<Path>, lines: seq<string>, pre: seq<string>, k: nat, m: nat,
                                     currentDir: Path, file: Path, fuel: nat)
    requires k < m <= |lines| && pre == lines[..m]
    requires Expand(fs, dirs, lines, k + 1, currentDir, file, fuel) ==
      Then(Expand(fs, dirs, pre, k + 1, currentDir, file, fuel), Expand(fs, dirs, lines, m, currentDir, file, fuel))
    ensures Expand(fs, dirs, lines, k, currentDir, file, fuel) ==
      Then(Expand(fs, dirs, pre, k, currentDir, file, fuel), Expand(fs, dirs, lines, m, currentDir, file, fuel))
  {
    match LineStep(fs, dirs, currentDir, lines[k])
    case Emit(text) =>
      SplitEmit(fs, dirs, lines, pre, k, m, currentDir, file, fuel, text);
    case Missing(_) =>
      SplitStop(fs, dirs, lines, pre, k, m, currentDir, file, fuel);
    case Enter(p) =>
      if fuel > 0 {
        SplitEnter(fs, dirs, lines, pre, k, m, currentDir, file, fuel, p);
      } else {
        SplitStop(fs, dirs, lines, pre, k, m, currentDir, file, fuel);
      }
  }

  /**
   * Processing lines[k..] is processing lines[k..m] and then lines[m..]:
   * output keeps the order of the lines, and once a line stops the
   * processing nothing after it contributes.
   */
  lemma {:induction false} Split(fs: FileSystem, dirs: seq<Path>, lines: seq<string>, k: nat, m: nat,
                                 currentDir: Path, file: Path, fuel: nat)
    requires k <= m <= |lines|
    ensures Expand(fs, dirs, lines, k, currentDir, file, fuel) ==
      Then(Expand(fs, dirs, lines[..m], k, currentDir, file, fuel), Expand(fs, dirs, lines, m, currentDir, file, fuel))
    decreases m - k
  {
    if k < m {
      Split(fs, dirs, lines, k + 1, m, currentDir, file, fuel);
      SplitStep(fs, dirs, lines, lines[..m], k, m, currentDir, file, fuel);
    }
  }

  /**
   * Depth first, pre-order: an include at line m resolved to `p` is replaced
   * by the complete expansion of that file, between the expansion of the
   * lines before it and that of the lines after it.
   */
  lemma {:induction false} IncludeInPlace(fs: FileSystem, dirs: seq<Path>, lines: seq<string>, m: nat,
                                          currentDir: Path, file: Path, fuel: nat, p: Path)
    requires m < |lines| && fuel > 0
    requires LineStep(fs, dirs, currentDir, lines[m]) == Enter(p)
    ensures Expand(fs, dirs, lines, 0, currentDir, file, fuel) ==
      Then(Expand(fs, dirs, lines[..m], 0, currentDir, file, fuel),
        Then(ExpandFile(fs, dirs, p, fuel - 1), Expand(fs, dirs, lines, m + 1, currentDir, file, fuel)))
  {
    Split(fs, dirs, lines, 0, m, currentDir, file, fuel);
  }

  /**
   * An include of `name` that nothing resolves, at line m + 1, ends the
   * processing of the file: the output holds exactly the expansion of the
   * lines before it, and the console gains the diagnostic naming this file
   * and line.
   */
  lemma {:induction false} UnresolvedStops(fs: FileSystem, dirs: seq<Path>, lines: seq<string>, m: nat,
                                           currentDir: Path, file: Path, fuel: nat, name: string)
    requires m < |lines| && LineStep(fs, dirs, currentDir, lines[m]) == Missing(name)
    requires Expand(fs, dirs, lines[..m], 0, currentDir, file, fuel).status.Success?
    ensures var before := Expand(fs, dirs, lines[..m], 0, currentDir, file, fuel);
      Expand(fs, dirs, lines, 0, currentDir, file, fuel) ==
        Run(Unresolved(name, file, m + 1), before.out, before.log + Diagnostic(name, file, m + 1) + "\n")
  {
    Split(fs, dirs, lines, 0, m, currentDir, file, fuel);
  }

  /**
   * `false` propagates: when the file included at line m + 1 fails, the
   * including file fails with the same status, after the expansion of the
   * lines before the include and whatever the included file produced.
   */
  lemma {:induction false} FailurePropagates(fs: FileSystem, dirs: seq<Path>, lines: seq<string>, m: nat,
                                             currentDir: Path, file: Path, fuel: nat, p: Path)
    requires m < |lines| && fuel > 0 && LineStep(fs, dirs, currentDir, lines[m]) == Enter(p)
    requires Expand(fs, dirs, lines[..m], 0, currentDir, file, fuel).status.Success?
    requires !ExpandFile(fs, dirs, p, fuel - 1).status.Success?
    ensures var before := Expand(fs, dirs, lines[..m], 0, currentDir, file, fuel);
      var child := ExpandFile(fs, dirs, p, fuel - 1);
      Expand(fs, dirs, lines, 0, currentDir, file, fuel) ==
        Run(child.status, before.out + child.out, before.log + child.log)
  {
    IncludeInPlace(fs, dirs, lines, m, currentDir, file, fuel, p);
  }

  /** What the console shows for a final status: the diagnostic line of an unresolved include, else nothing. */
  function Report(status: Status): string {
    if status.Unresolved? then Diagnostic(status.name, status.file, status.line) + "\n" else ""
  }

  /** The console holds exactly what the outcome calls for: nothing, or the one diagnostic. */
  predicate Reported(r: Run) {
    r.log == Report(r.status)
  }

  /** Both runs report their own outcome, so their composition does. */
  lemma ThenReports(a: Run, b: Run)
    requires Reported(a) && Reported(b)
    ensures Reported(Then(a, b))
  {
    if a.status.Success? {
      assert a.log + b.log == b.log;
    }
  }

  lemma {:induction false} EmitReports(fs: FileSystem, dirs: seq<Path>, lines: seq<string>, k: nat,
                                       currentDir: Path, file: Path, fuel: nat, text: string)
    requires k < |lines| && LineStep(fs, dirs, currentDir, lines[k]) == Emit(text)
    requires Reported(Expand(fs, dirs, lines, k + 1, currentDir, file, fuel))
    ensures Reported(Expand(fs, dirs, lines, k, currentDir, file, fuel))
  {
    EmitStep(fs, dirs, lines, k, currentDir, file, fuel, text);
    ThenReports(Run(Success, text + "\n", ""), Expand(fs, dirs, lines, k + 1, currentDir, file, fuel));
  }

  lemma {:induction false} EnterReports(fs: FileSystem, dirs: seq<Path>, lines: seq<string>, k: nat,
                                        currentDir: Path, file: Path, fuel: nat, p: Path)
    requires k < |lines| && fuel > 0 && LineStep(fs, dirs, currentDir, lines[k]) == Enter(p)
    requires Reported(ExpandFile(fs, dirs, p, fuel - 1))
    requires Reported(Expand(fs, dirs, lines, k + 1, currentDir, file, fuel))
    ensures Reported(Expand(fs, dirs, lines, k, currentDir, file, fuel))
  {
    EnterStep(fs, dirs, lines, k, currentDir, file, fuel, p);
    ThenReports(ExpandFile(fs, dirs, p, fuel - 1), Expand(fs, dirs, lines, k + 1, currentDir, file, fuel));
  }

  /** The console receives nothing, or exactly the one diagnostic of the include that failed. */
  lemma {:induction false} OneDiagnostic(fs: FileSystem, dirs: seq<Path>, lines: seq<string>, k: nat,
                                         currentDir: Path, file: Path, fuel: nat)
    requires k <= |lines|
    ensures Reported(Expand(fs, dirs, lines, k, currentDir, file, fuel))
    decreases fuel, |lines| - k
  {
    if k < |lines| {
      OneDiagnostic(fs, dirs, lines, k + 1, currentDir, file, fuel);
      match LineStep(fs, dirs, currentDir, lines[k])
      case Emit(text) =>
        EmitReports(fs, dirs, lines, k, currentDir, file, fuel, text);
      case Missing(name) =>
      case Enter(p) =>
        if fuel > 0 {
          OneDiagnostic(fs, dirs, fs[p], 0, Parent(p), p, fuel - 1);
          EnterReports(fs, dirs, lines, k, currentDir, file, fuel, p);
        }
    }
  }

  /** Line `line` (1-based) of `file` is an include of `name` that the search policy cannot resolve. */
  predicate FailsAt(fs: FileSystem, dirs: seq<Path>, file: Path, line: nat, name: string) {
    file in fs && 1 <= line <= |fs[file]| &&
    LineStep(fs, dirs, Parent(file), fs[file][line - 1]) == Missing(name)
  }

  /** A line calls for `Missing(name)` exactly when it is an include of `name` that does not resolve. */
  lemma {:induction false} MissingMeansUnresolvable(fs: FileSystem, dirs: seq<Path>, currentDir: Path, line: string, name: string)
    ensures LineStep(fs, dirs, currentDir, line) == Missing(name) <==>
      var d := Classify(line); !d.Plain? && d.name == name && Resolve(fs, currentDir, dirs, d).None?
  {
  }

  /**
   * The diagnostic names the immediate containing file and the 1-based line
   * of an include that really cannot be resolved from that file.
   */
  lemma {:induction false} UnresolvedIsGenuine(fs: FileSystem, dirs: seq<Path>, file: Path, k: nat, fuel: nat)
    requires file in fs && k <= |fs[file]|
    ensures var s := Expand(fs, dirs, fs[file], k, Parent(file), file, fuel).status;
      s.Unresolved? ==> FailsAt(fs, dirs, s.file, s.line, s.name)
    decreases fuel, |fs[file]| - k
  {
    var lines := fs[file];
    if k < |lines| {
      var s := Expand(fs, dirs, lines, k, Parent(file), file, fuel).status;
      var rest := Expand(fs, dirs, lines, k + 1, Parent(file), file, fuel).status;
      UnresolvedIsGenuine(fs, dirs, file, k + 1, fuel);
      match LineStep(fs, dirs, Parent(file), lines[k])
      case Emit(_) =>
        assert s == rest;
      case Missing(_) =>
      case Enter(p) =>
        if fuel > 0 {
          var child := ExpandFile(fs, dirs, p, fuel - 1).status;
          assert s == if child.Success? then rest else child;
          UnresolvedIsGenuine(fs, dirs, p, 0, fuel - 1);
        }
    }
  }

  // The cases of FuelMonotone, one line at a time.

  /** More fuel changes nothing about one line once its processing stayed within the depth bound. */
  lemma {:induction false} LineRunFuel(fs: FileSystem, dirs: seq<Path>, currentDir: Path, file: Path, line: string, number: nat,
                                       fuel: nat, more: nat)
    requires fuel <= more
    requires !LineRun(fs, dirs, currentDir, file, line, number, fuel).status.DepthExceeded?
    ensures LineRun(fs, dirs, currentDir, file, line, number, more) == LineRun(fs, dirs, currentDir, file, line, number, fuel)
    decreases fuel, 0
  {
    var s := LineStep(fs, dirs, currentDir, line);
    if s.Enter? {
      LineRunEnter(fs, dirs, currentDir, file, line, number, fuel, s.path);
      LineRunInclude(fs, dirs, currentDir, file, line, number, fuel, more, s.path);
      FileFuelMonotone(fs, dirs, s.path, fuel - 1, more - 1);
    } else {
      LineRunOther(fs, dirs, currentDir, file, line, number, fuel, more);
    }
  }

  lemma {:induction false} FileFuelMonotone(fs: FileSystem, dirs: seq<Path>, file: Path, fuel: nat, more: nat)
    requires file in fs && fuel <= more
    requires !ExpandFile(fs, dirs, file, fuel).status.DepthExceeded?
    ensures ExpandFile(fs, dirs, file, more) == ExpandFile(fs, dirs, file, fuel)
    decreases fuel, |fs[file]| + 2
  {
    FuelMonotone(fs, dirs, fs[file], 0, Parent(file), file, fuel, more);
  }

  /** More fuel changes nothing once the expansion stayed within the depth bound. */
  lemma {:induction false} FuelMonotone(fs: FileSystem, dirs: seq<Path>, lines: seq<string>, k: nat,
                                        currentDir: Path, file: Path, fuel: nat, more: nat)
    requires k <= |lines| && fuel <= more
    requires !Expand(fs, dirs, lines, k, currentDir, file, fuel).status.DepthExceeded?
    ensures Expand(fs, dirs, lines, k, currentDir, file, more) == Expand(fs, dirs, lines, k, currentDir, file, fuel)
    decreases fuel, |lines| - k + 1
  {
    if k < |lines| {
      ExpandStep(fs, dirs, lines, k, currentDir, file, fuel);
      ExpandStep(fs, dirs, lines, k, currentDir, file, more);
      LineRunFuel(fs, dirs, currentDir, file, lines[k], k + 1, fuel, more);
      if LineRun(fs, dirs, currentDir, file, lines[k], k + 1, fuel).status.Success? {
        FuelMonotone(fs, dirs, lines, k + 1, currentDir, file, fuel, more);
      }
    }
  }
}
