# cpp-preprocessor in Dafny

A model of the `#include` expander in `cpp-preprocessor/main.cpp`. It has three parts:

- `ProcessFile` reads a file line by line and counts the lines from 1.
- A line that matches one of the two include patterns is resolved and expanded recursively in place:
  - the quote form `#include "x"` looks next to the current file first, then in the include directories, in order;
  - the angle form `#include <x>` looks in the include directories only.
- Every other line goes to the output followed by one newline.

An include that nothing resolves prints one diagnostic, `unknown include file <name> at file <path> at line <n>`, and makes every enclosing frame return `false`. `Preprocess` opens the input and the output file and runs `ProcessFile` on the input with its own directory as context.

The modules follow that structure:

- `RawLiterals` reads the C++ raw string literals that hold the two patterns, and shows that the quote literal as written ends early (see Findings).
- `Directives` is the line matcher. The two anchored patterns, the quote one as `main.cpp:45` evidently means it, are written as a small deterministic grammar over characters. Every match is proved to be a rendering of the captured filename with allowed whitespace, and every rendering is proved to match.
- `Paths` holds paths as sequences of components. It covers `dir / filename`, `parent_path()` and `string()`.
- `Diagnostics` holds the message of `PrintIncludeError` and the decimal writing of the line number.
- `Resolver` holds the search policy as a function (`FirstIndex`, `Resolve`) and the search loop as a method (`SearchDirectories`).
- `Expansion` holds `Expand`, the function ProcessFile computes: the outcome, the text written to the output and the text printed on the console. It also holds the lemmas about `Expand`.
- `Engine` holds the imperative code:
  - `Sink` is an append-only stream.
  - `ProcessFile` is the `while (getline…)` loop. Its body is `ProcessLine`, and `ProcessInclude` is the tail that both include branches share.
  - `Preprocess` opens the two files.

  Each method is proved to produce exactly what `Expand` prescribes.
- `Fixture` holds the repository's own test scenario, proved end to end.

The file system is a map from a path to the lines of the file stored there. "The file opens" is membership in that map. The source has no bound on the include depth: a cycle recurses until the stack or the limit on open files runs out. Each frame keeps its include stream open across the recursive call, so under a common limit of 1024 open files the open fails first, and the source then reports the include as unknown. Here `fuel` bounds the depth, and the status `DepthExceeded` stands for running out of it. `FuelMonotone` shows that more fuel changes nothing once a run stayed within the bound.

## Model

| member | source | states |
|---|---|---|
| RawLiterals.ReadRaw | cpp-preprocessor/main.cpp:45-46 | a raw literal `R"d(`…`)d"` reads as the text up to the first `)d"`: the source is the opening, that text, the closing and the rest, and no closing occurs earlier in the text |
| RawLiterals.ReadsAs | cpp-preprocessor/main.cpp:45-46 | conversely, a text in which no closing `)d"` starts, counting one that runs into the literal's own closing, reads back as itself, whatever follows the literal; with ReadRaw this is an if-and-only-if |
| RawLiterals.QuoteSourceSpelling | cpp-preprocessor/main.cpp:45 | the source text of the quote literal is `R"(` + the intended pattern + `)");`, and the intended pattern has a `)"` before its last `\s*` |
| RawLiterals.QuoteLiteralEndsEarly | cpp-preprocessor/main.cpp:45 | as written, the quote literal reads as `\s*#\s*include\s*"([^"]*`, not the intended pattern, and a stray `\` follows it outside any literal |
| RawLiterals.AngleLiteralAsIntended | cpp-preprocessor/main.cpp:46 | the angle literal reads as exactly its pattern |
| RawLiterals.QuoteLiteralDelimited | cpp-preprocessor/main.cpp:45 | written with the delimiter `re`, the quote literal reads as exactly the intended pattern |
| Directives.DropSpacesSpec | cpp-preprocessor/main.cpp:45-46 | `\s*` removes exactly the longest whitespace prefix: what remains is a suffix that does not start with whitespace, and what was removed is all whitespace |
| Directives.TakeNameSpec | cpp-preprocessor/main.cpp:45-46 | the captured group `([^"]*)` / `([^>]*)` is the text before the first closing delimiter, contains no such delimiter, and only whitespace follows the delimiter |
| Directives.MatchRender | cpp-preprocessor/main.cpp:45-46 | every line of the form `\s*#\s*include\s*` + open + name + close + `\s*` matches, and the captured group is exactly `name` |
| Directives.MatchSound | cpp-preprocessor/main.cpp:45-46 | every match is such a rendering of its captured group with some whitespace |
| Directives.MatchExclusive | cpp-preprocessor/main.cpp:45-46 | no line matches both the quote and the angle pattern |
| Directives.RenderedLocal | cpp-preprocessor/main.cpp:45-53 | a quote-form rendering of `name` is classified as a local include of `name` |
| Directives.RenderedSystem | cpp-preprocessor/main.cpp:78-79 | an angle-form rendering of `name` is classified as a system include of `name` |
| Directives.ClassifyLocal | cpp-preprocessor/main.cpp:52-53 | a line is a local include of `name` if and only if it has the quote form around `name` |
| Directives.ClassifySystem | cpp-preprocessor/main.cpp:78-79 | a line is a system include of `name` if and only if it has the angle form around `name` (the quote form is tried first, and the two never both match) |
| Directives.ClassifyPlain | cpp-preprocessor/main.cpp:103-104 | a line is plain content if and only if it has neither form for any filename |
| Directives.NoHashIsPlain | cpp-preprocessor/main.cpp:103-104 | a line without `#` is plain content |
| Directives.TrailingTextIsPlain | cpp-preprocessor/main.cpp:45-46 | a directive-shaped line with anything but whitespace after the closing delimiter is plain content |
| Directives.TrailingCommentIsPlain | cpp-preprocessor/main.cpp:45 | `#include "x.h" // c` is plain content |
| Paths.FirstSlash | cpp-preprocessor/main.cpp:54 | the first component ends at the first `/` |
| Paths.SingleComponent | cpp-preprocessor/main.cpp:54 | a filename without `/` is one component |
| Paths.ComponentsOfSlash | cpp-preprocessor/main.cpp:54 | a filename is split at its first `/` |
| Paths.ComponentsValid | cpp-preprocessor/main.cpp:54 | splitting a filename never yields an empty component or one holding `/` |
| Paths.JoinValid | cpp-preprocessor/main.cpp:54 | `dir / filename` is a well-formed path that starts with `dir` |
| Paths.ComponentsOfPathString | cpp-preprocessor/main.cpp:18-19 | writing a path with `string()` and splitting it again gives the same components |
| Paths.ParentOfJoin | cpp-preprocessor/main.cpp:73 | the parent of `dir / filename` is `dir` followed by all but the last component of the filename |
| Paths.Parent | cpp-preprocessor/main.cpp:73 | `parent_path()` drops exactly the last component |
| Diagnostics.DigitChar | cpp-preprocessor/main.cpp:18-19 | a digit below ten is written as the character that reads back as it |
| Diagnostics.DecimalString | cpp-preprocessor/main.cpp:18-19 | the line number is written as one or more decimal digits without a leading zero |
| Diagnostics.DecimalRoundTrip | cpp-preprocessor/main.cpp:18-19 | reading the written line number back gives the line number |
| Diagnostics.DiagnosticShape | cpp-preprocessor/main.cpp:17-19 | the message starts with `unknown include file ` and the filename, and ends with ` at line ` and the digits of the line number |
| Resolver.FirstIndex | cpp-preprocessor/main.cpp:84-91 | the index found holds the file and no earlier directory does; no index means that no directory holds it |
| Resolver.SearchDirectories | cpp-preprocessor/main.cpp:58-66 | the loop with `found` and `break` finds a file exactly when some directory holds it, and then returns the path under the first such directory |
| Resolver.Resolve | cpp-preprocessor/main.cpp:54-66 | the resolved path, when there is one, is a file that exists |
| Resolver.ResolvePolicy | cpp-preprocessor/main.cpp:54-66 | a local include takes the current directory when the file is there; otherwise, and always for a system include, the first directory in order that holds the file wins, and nothing is found exactly when no directory holds it |
| Expansion.LineStep | cpp-preprocessor/main.cpp:52-104 | a line calls for entering a file only when that file exists |
| Expansion.QuotedHere | cpp-preprocessor/main.cpp:52-56 | helper, one step of the definition: a quote-form include whose file is next to the current file enters that file |
| Expansion.QuotedSearched | cpp-preprocessor/main.cpp:56-71 | helper, one step of the definition: otherwise it enters the first file found in the directories, or is unresolved |
| Expansion.AngledSearched | cpp-preprocessor/main.cpp:78-96 | helper, one step of the definition: an angle-form include enters the first file found in the directories, or is unresolved |
| Expansion.NeitherForm | cpp-preprocessor/main.cpp:103-104 | helper, one step of the definition: a line of neither form is copied |
| Expansion.EmitStep | cpp-preprocessor/main.cpp:103-104 | helper, one step of the definition: a plain line is written, followed by one newline, before the rest of the file |
| Expansion.EnterStep | cpp-preprocessor/main.cpp:73-76 | helper, one step of the definition: a resolved include is processed, then the rest of the file |
| Expansion.ExpandStep | cpp-preprocessor/main.cpp:48-106 | helper, one step of the definition: processing the lines from k on is processing line k on its own, then the rest when line k succeeds |
| Expansion.LineRunMissing | cpp-preprocessor/main.cpp:67-70 | helper, one step of the definition: an unresolved include contributes the diagnostic for its 1-based line and nothing else, and fails |
| Expansion.LineRunEnter | cpp-preprocessor/main.cpp:73-76 | helper, one step of the definition: a resolved include contributes the processing of the whole included file, with its parent directory as context |
| Expansion.ThenAssoc | cpp-preprocessor/main.cpp:74 | helper: running three parts one after another does not depend on grouping |
| Expansion.PlainLinesVerbatim | cpp-preprocessor/main.cpp:103-104 | a file without directives comes out line by line, in order, each line followed by exactly one newline |
| Expansion.Split | cpp-preprocessor/main.cpp:48-106 | processing lines[k..] is processing lines[k..m] and then lines[m..]: output keeps line order, and nothing after a stop contributes |
| Expansion.IncludeInPlace | cpp-preprocessor/main.cpp:73-76 | depth first, pre-order: an include resolved to `p` is replaced by the complete expansion of `p`, between the lines before it and the lines after it |
| Expansion.UnresolvedStops | cpp-preprocessor/main.cpp:67-70 | an unresolved include at line m + 1 ends the file: the output is exactly the expansion of the lines before it, and the console gains one diagnostic naming this file and line |
| Expansion.FailurePropagates | cpp-preprocessor/main.cpp:74-76 | when an included file fails, the including file fails with the same status, and nothing after the include is processed |
| Expansion.ThenReports | cpp-preprocessor/main.cpp:67-70 | helper: composing two runs whose console text is exactly the diagnostic of their own outcome gives a run whose console text is exactly the diagnostic of the composed outcome |
| Expansion.OneDiagnostic | cpp-preprocessor/main.cpp:67-70 | the console receives nothing when processing succeeds, and exactly the one diagnostic of the failing include when it does not |
| Expansion.MissingMeansUnresolvable | cpp-preprocessor/main.cpp:52-71 | helper, one step of the definition: a line calls for a diagnostic about `name` exactly when it is an include of `name` that the search policy cannot resolve |
| Expansion.UnresolvedIsGenuine | cpp-preprocessor/main.cpp:67-70 | the file and line in the diagnostic are the immediate containing file and the 1-based line of an include that really does not resolve from there |
| Expansion.LineRunFuel | cpp-preprocessor/main.cpp:73-76 | more fuel changes nothing about a line whose processing stayed within the depth bound |
| Expansion.FileFuelMonotone | cpp-preprocessor/main.cpp:40-109 | more fuel changes nothing about a whole file once its processing stayed within the bound |
| Expansion.FuelMonotone | cpp-preprocessor/main.cpp:40-109 | more fuel changes nothing once the processing did not end in `DepthExceeded`; a run that reaches an include nested deeper than the fuel ends in `DepthExceeded` by the definition of `Expand`, even when it has no cycle |
| Engine.Sink.WriteLine | cpp-preprocessor/main.cpp:104 | `stream << line << endl` appends the line and one newline and changes nothing else |
| Engine.PrintIncludeError | cpp-preprocessor/main.cpp:17-20 | the console gains exactly the diagnostic line |
| Engine.ProcessFile | cpp-preprocessor/main.cpp:40-109 | the loop returns `true` exactly when `Expand` succeeds; the output gains exactly the text of `Expand` and the console exactly its log |
| Engine.ProcessLine | cpp-preprocessor/main.cpp:49-105 | one pass of the loop body produces exactly what the line contributes on its own |
| Engine.ProcessInclude | cpp-preprocessor/main.cpp:67-76 | reports an unresolved include, or processes the file found in place with its parent directory as context |
| Engine.Preprocess | cpp-preprocessor/main.cpp:25-38 | nothing is processed and the result is `false` when the input or the output does not open; otherwise the result, the output file and the console are those of processing the input with its own directory as context |
| Fixture.PlainFile | cpp-preprocessor/main.cpp:103-104 | a file of plain lines expands to its lines, each followed by a newline |
| Fixture.CExpansion | cpp-preprocessor/main.cpp:142-145 | c.h expands to its first line, std1.h, then its last line |
| Fixture.BExpansion | cpp-preprocessor/main.cpp:136-139 | b.h expands to its first line, all of c.h, then its last line |
| Fixture.DExpansion | cpp-preprocessor/main.cpp:148-151 | d.h expands to its first line, std2.h (found under the second directory), then its last line |
| Fixture.MainExpansion | cpp-preprocessor/main.cpp:116-178 | processing sources/a.cpp fails at the include of dummy.txt on line 8, having written exactly the expected text, and logs the one diagnostic |
| Fixture.Test | cpp-preprocessor/main.cpp:162-180 | `Preprocess` returns `false`, the output file holds exactly the expected text, and the console gains `unknown include file dummy.txt at file sources/a.cpp at line 8` |

## Left out

- Real I/O is not modelled: `ifstream`/`ofstream`, `endl` flushing and `cout`. A file "opens" when its path is in the file-system map. The output file's opening is a `bool` parameter of `Preprocess`. Streams are `Sink` objects that only grow.
- `std::regex` is replaced by a hand-written matcher for the two anchored patterns: for the angle form the pattern at main.cpp:46, for the quote form the pattern main.cpp:45 evidently means, `\s*#\s*include\s*"([^"]*)"\s*`, since the literal written there ends early (see Findings). `\s` is the "C"-locale whitespace set: space, tab, newline, vertical tab, form feed and carriage return.
- Full `std::filesystem::path` semantics are not modelled: an absolute filename replacing the directory, `.` and `..`, normalisation and root names. A filename is split at `/` into non-empty components, so repeated separators and a trailing `/` are dropped: `#include "b.h/"` finds `b.h` here, while the source fails to open `dir/b.h/`.
- Directories are not modelled: the model looks up every path in the map of files, and a path opens only when the map holds it. In the source, an `ifstream` on a directory opens, and the first `getline` fails. So `#include ""` and `#include "dir1"` expand to nothing and succeed in the source when the directory exists, while the model reports them unresolved unless the map has an entry at that path. The map may hold both a path and a longer path below it; nothing here requires the map to be a tree of directories.
- `getline` details are not modelled: a trailing `\r` stays part of the line, and a missing final newline is the same as a present one. Each file is already a sequence of lines.
- Unbounded include depth is not modelled: the source has no depth bound, and a cycle of includes recurses until the stack or the open-file limit runs out; in the second case the open at main.cpp:55 and the search after it fail, and the include is reported as unknown. Here the depth is bounded by `fuel`, and a run that reaches an include nested deeper than `fuel`, cyclic or not, ends with `DepthExceeded`, which the source does not have. `FuelMonotone` shows that a run that stays within the bound gives the same result under any larger bound.
- The `bool` result is modelled as a `Status`, which also carries the place of the unresolved include. `true` is `Success`.
- `current_line` is an unbounded natural number, not a 32-bit `int`.
- The test harness is not modelled: directory creation, `GetFileContents`, the `_p` literal and `main`. The scenario is stated for every file system that holds the six files and lacks the probed paths (`TestTree`). `Fixture.Tree` is one such map.
- Engine.Preprocess: the output path is assumed to differ from every path read. The output file is only a `bool` saying whether it opens, and the file system is fixed for the whole run. In the source, `ofstream` truncates the output file before processing starts, and each `endl` flushes a line. So when the output is the input, the source reads the empty truncated file and returns `true` with empty output. An include that resolves to the output file reads the partial output flushed so far. The model expands the file's contents from before the run instead.
- Fixture.MainExpansion: requires fuel of at least 3. That is the include depth of the scenario, and `FuelMonotone` carries the result to any larger bound.

## Findings

| source | as written | input that shows it | evidently intended | confidence | as-written member | corrected member |
|---|---|---|---|---|---|---|
| cpp-preprocessor/main.cpp:45 | the quote pattern is a raw literal with an empty delimiter, `R"(`…`)"`, and the pattern itself holds `)"`, so the literal ends right after `([^"]*`; the text after it, `\s*)");`, starts with a stray `\`, and the file does not build | the literal's own text | the pattern `\s*#\s*include\s*"([^"]*)"\s*`, written with a delimiter such as `R"re(`…`)re"`; the expected output of the test at main.cpp:165-178 needs this pattern | high; not executed | RawLiterals.QuoteLiteralEndsEarly | RawLiterals.QuoteLiteralDelimited |

The matcher in `Directives` implements the intended quote pattern, and `Directives.ClassifyLocal` proves that it accepts exactly the quote-form lines.
