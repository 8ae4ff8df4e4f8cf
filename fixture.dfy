/**
 * The scenario of the repository's own test: a main file that includes two
 * headers by relative path, headers that include further files from their
 * own directory and from the search directories, and, on line 8 of the
 * main file, an include that nothing resolves.
 */
module Fixture {
  import opened Wrappers
  import opened Paths
  import opened Directives
  import opened Diagnostics
  import opened Resolver
  import opened Expansion
  import opened Engine

  const MainFile: Path := ["sources", "a.cpp"]
  const BHeader: Path := ["sources", "dir1", "b.h"]
  const CHeader: Path := ["sources", "dir1", "subdir", "c.h"]
  const DHeader: Path := ["sources", "dir1", "d.h"]
  const Std1: Path := ["sources", "include1", "std1.h"]
  const Std2: Path := ["sources", "include2", "lib", "std2.h"]
  const SearchDirs: seq<Path> := [["sources", "include1"], ["sources", "include2"]]

  /** Line i + 1 of sources/a.cpp is Ai; likewise for b.h (Bi), c.h (Ci) and d.h (Di). */
  const A0 := "// this comment before include"
  const A1 := "#include \"dir1/b.h\""
  const A2 := "// text between b.h and c.h"
  const A3 := "#include \"dir1/d.h\""
  const A4 := ""
  const A5 := "int SayHello() {"
  const A6 := "    cout << \"hello, world!\" << endl;"
  const A7 := "#   include<dummy.txt>"
  const A8 := "}"
  const MainLines: seq<string> := [A0, A1, A2, A3, A4, A5, A6, A7, A8]

  const B0 := "// text from b.h before include"
  const B1 := "#include \"subdir/c.h\""
  const B2 := "// text from b.h after include"
  const BLines: seq<string> := [B0, B1, B2]

  const C0 := "// text from c.h before include"
  const C1 := "#include <std1.h>"
  const C2 := "// text from c.h after include"
  const CLines: seq<string> := [C0, C1, C2]

  const D0 := "// text from d.h before include"
  const D1 := "#include \"lib/std2.h\""
  const D2 := "// text from d.h after include"
  const DLines: seq<string> := [D0, D1, D2]

  const Tree: FileSystem := map[
    MainFile := MainLines, BHeader := BLines, CHeader := CLines,
    DHeader := DLines, Std1 := ["// std1"], Std2 := ["// std2"]]

  /** The lines the output file must hold when processing stops at line 8 of the main file. */
  const Expected: seq<string> := [
    "// this comment before include",
    "// text from b.h before include",
    "// text from c.h before include",
    "// std1",
    "// text from c.h after include",
    "// text from b.h after include",
    "// text between b.h and c.h",
    "// text from d.h before include",
    "// std2",
    "// text from d.h after include",
    "",
    "int SayHello() {",
    "    cout << \"hello, world!\" << endl;"]

  lemma {:induction false} UnlinesAppend(a: seq<string>, b: seq<string>)
    ensures Unlines(a + b) == Unlines(a) + Unlines(b)
  {
    if a == [] {
      assert a + b == b;
    } else {
      assert (a + b)[1..] == a[1..] + b;
      UnlinesAppend(a[1..], b);
    }
  }

  lemma {:induction false} ComponentsB()
    ensures Components("dir1/b.h") == ["dir1", "b.h"]
  {
    assert "dir1/b.h" == "dir1" + "/" + "b.h";
    TwoComponents("dir1", "b.h");
  }

  lemma {:induction false} ComponentsD()
    ensures Components("dir1/d.h") == ["dir1", "d.h"]
  {
    assert "dir1/d.h" == "dir1" + "/" + "d.h";
    TwoComponents("dir1", "d.h");
  }

  lemma {:induction false} ComponentsC()
    ensures Components("subdir/c.h") == ["subdir", "c.h"]
  {
    assert "subdir/c.h" == "subdir" + "/" + "c.h";
    TwoComponents("subdir", "c.h");
  }

  lemma {:induction false} JoinB()
    ensures Join(["sources"], "dir1/b.h") == BHeader
  {
    ComponentsB();
  }

  lemma {:induction false} JoinD()
    ensures Join(["sources"], "dir1/d.h") == DHeader
  {
    ComponentsD();
  }

  lemma {:induction false} JoinC()
    ensures Join(["sources", "dir1"], "subdir/c.h") == CHeader
  {
    ComponentsC();
  }

  lemma {:induction false} JoinStd1()
    ensures Join(SearchDirs[0], "std1.h") == Std1
  {
    SingleComponent("std1.h");
  }

  lemma {:induction false} ComponentsStd2()
    ensures Components("lib/std2.h") == ["lib", "std2.h"]
  {
    assert "lib/std2.h" == "lib" + "/" + "std2.h";
    TwoComponents("lib", "std2.h");
  }

  lemma {:induction false} JoinStd2()
    ensures Join(["sources", "dir1"], "lib/std2.h") == ["sources", "dir1", "lib", "std2.h"]
    ensures Join(SearchDirs[0], "lib/std2.h") == ["sources", "include1", "lib", "std2.h"]
    ensures Join(SearchDirs[1], "lib/std2.h") == Std2
  {
    ComponentsStd2();
  }

  lemma {:induction false} ComponentsDummy()
    ensures Components("dummy.txt") == ["dummy.txt"]
  {
    SingleComponent("dummy.txt");
  }

  lemma {:induction false} JoinDummy()
    ensures Join(SearchDirs[0], "dummy.txt") == ["sources", "include1", "dummy.txt"]
    ensures Join(SearchDirs[1], "dummy.txt") == ["sources", "include2", "dummy.txt"]
  {
    ComponentsDummy();
  }

  lemma {:induction false} ShapeB()
    ensures Render(Spacing("", "", " ", ""), '"', "dir1/b.h", '"') == "#include \"dir1/b.h\""
  {
  }

  lemma {:induction false} ShapeD()
    ensures Render(Spacing("", "", " ", ""), '"', "dir1/d.h", '"') == "#include \"dir1/d.h\""
  {
  }

  lemma {:induction false} ShapeC()
    ensures Render(Spacing("", "", " ", ""), '"', "subdir/c.h", '"') == "#include \"subdir/c.h\""
  {
  }

  lemma {:induction false} ShapeStd1()
    ensures Render(Spacing("", "", " ", ""), '<', "std1.h", '>') == "#include <std1.h>"
  {
  }

  lemma {:induction false} ShapeStd2()
    ensures Render(Spacing("", "", " ", ""), '"', "lib/std2.h", '"') == "#include \"lib/std2.h\""
  {
  }

  lemma {:induction false} ShapeDummy()
    ensures Render(Spacing("", "   ", "", ""), '<', "dummy.txt", '>') == "#   include<dummy.txt>"
  {
  }

  lemma {:induction false} ClassifyB()
    ensures Classify(A1) == Local("dir1/b.h")
  {
    ShapeB();
    RenderedLocal(Spacing("", "", " ", ""), "dir1/b.h");
  }

  lemma {:induction false} ClassifyD()
    ensures Classify(A3) == Local("dir1/d.h")
  {
    ShapeD();
    RenderedLocal(Spacing("", "", " ", ""), "dir1/d.h");
  }

  lemma {:induction false} ClassifyC()
    ensures Classify(B1) == Local("subdir/c.h")
  {
    ShapeC();
    RenderedLocal(Spacing("", "", " ", ""), "subdir/c.h");
  }

  lemma {:induction false} ClassifyStd2()
    ensures Classify(D1) == Local("lib/std2.h")
  {
    ShapeStd2();
    RenderedLocal(Spacing("", "", " ", ""), "lib/std2.h");
  }

  lemma {:induction false} ClassifyStd1()
    ensures Classify(C1) == System("std1.h")
  {
    ShapeStd1();
    RenderedSystem(Spacing("", "", " ", ""), "std1.h");
  }

  lemma {:induction false} ClassifyDummy()
    ensures Classify(A7) == System("dummy.txt")
  {
    ShapeDummy();
    RenderedSystem(Spacing("", "   ", "", ""), "dummy.txt");
  }

  /**
   * A file system that holds the six files of the scenario and lacks the
   * places the resolver probes in vain before it finds std2.h, and the two
   * places it probes for dummy.txt.
   */
  predicate TestTree(fs: FileSystem) {
    MainFile in fs && fs[MainFile] == MainLines &&
    BHeader in fs && fs[BHeader] == BLines &&
    CHeader in fs && fs[CHeader] == CLines &&
    DHeader in fs && fs[DHeader] == DLines &&
    Std1 in fs && fs[Std1] == ["// std1"] &&
    Std2 in fs && fs[Std2] == ["// std2"] &&
    ["sources", "dir1", "lib", "std2.h"] !in fs &&
    ["sources", "include1", "lib", "std2.h"] !in fs &&
    ["sources", "include1", "dummy.txt"] !in fs &&
    ["sources", "include2", "dummy.txt"] !in fs
  }

  lemma {:induction false} TreeIsTestTree()
    ensures TestTree(Tree)
  {
  }

  /** A file of plain lines comes out verbatim. */
  lemma {:induction false} PlainFile(fs: FileSystem, dirs: seq<Path>, file: Path, fuel: nat)
    requires file in fs && forall i :: 0 <= i < |fs[file]| ==> Classify(fs[file][i]) == Plain
    ensures ExpandFile(fs, dirs, file, fuel) == Run(Success, Unlines(fs[file]), "")
  {
    PlainLinesVerbatim(fs, dirs, fs[file], 0, Parent(file), file, fuel);
    assert fs[file][0..] == fs[file];
  }

  lemma EmptyBefore(s: string)
    ensures "" + s == s
  {
  }

  lemma EmptyAfter(s: string)
    ensures s + "" == s
  {
  }

  /** A plain line in front of what the rest of the file gives. */
  lemma {:induction false} PlainHead(fs: FileSystem, dirs: seq<Path>, lines: seq<string>, k: nat, next: nat,
                                     cd: Path, file: Path, fuel: nat, rest: string)
    requires k < |lines| && next == k + 1 && Classify(lines[k]) == Plain
    requires Expand(fs, dirs, lines, next, cd, file, fuel) == Run(Success, rest, "")
    ensures Expand(fs, dirs, lines, k, cd, file, fuel) == Run(Success, lines[k] + "\n" + rest, "")
  {
  }
  /** An include whose file expands silently, in front of what the rest of the file gives. */
  lemma {:induction false} IncludeHead(fs: FileSystem, dirs: seq<Path>, lines: seq<string>, k: nat, next: nat,
                                       cd: Path, file: Path, fuel: nat, p: Path, child: string, rest: string)
    requires k < |lines| && next == k + 1 && fuel >= 1 && LineStep(fs, dirs, cd, lines[k]) == Enter(p)
    requires ExpandFile(fs, dirs, p, fuel - 1) == Run(Success, child, "")
    requires Expand(fs, dirs, lines, next, cd, file, fuel) == Run(Success, rest, "")
    ensures Expand(fs, dirs, lines, k, cd, file, fuel) == Run(Success, child + rest, "")
  {
  }
  /** A plain last line. */
  lemma {:induction false} PlainLast(fs: FileSystem, dirs: seq<Path>, lines: seq<string>, cd: Path, file: Path, fuel: nat)
    requires |lines| >= 1 && Classify(lines[|lines| - 1]) == Plain
    ensures Expand(fs, dirs, lines, |lines| - 1, cd, file, fuel) == Run(Success, lines[|lines| - 1] + "\n", "")
  {
    EmptyAfter(lines[|lines| - 1] + "\n");
    EmptyBefore("");
  }

  /** The last two lines of a three-line file whose middle line is an include. */
  lemma {:induction false} IncludeThenLast(fs: FileSystem, dirs: seq<Path>, lines: seq<string>, cd: Path, file: Path,
                                           fuel: nat, p: Path, child: string)
    requires |lines| == 3 && Classify(lines[2]) == Plain
    requires fuel >= 1 && LineStep(fs, dirs, cd, lines[1]) == Enter(p)
    requires ExpandFile(fs, dirs, p, fuel - 1) == Run(Success, child, "")
    ensures Expand(fs, dirs, lines, 1, cd, file, fuel) == Run(Success, child + (lines[2] + "\n"), "")
  {
    PlainLast(fs, dirs, lines, cd, file, fuel);
    IncludeHead(fs, dirs, lines, 1, 2, cd, file, fuel, p, child, lines[2] + "\n");
  }

  /** A three-line file whose middle line is an include: the included text between the two other lines. */
  lemma {:induction false} IncludeInMiddle(fs: FileSystem, dirs: seq<Path>, file: Path, fuel: nat, p: Path, child: string)
    requires file in fs && |fs[file]| == 3
    requires Classify(fs[file][0]) == Plain && Classify(fs[file][2]) == Plain
    requires fuel >= 1 && LineStep(fs, dirs, Parent(file), fs[file][1]) == Enter(p)
    requires ExpandFile(fs, dirs, p, fuel - 1) == Run(Success, child, "")
    ensures ExpandFile(fs, dirs, file, fuel) == Run(Success, fs[file][0] + "\n" + (child + (fs[file][2] + "\n")), "")
  {
    var lines := fs[file];
    IncludeThenLast(fs, dirs, lines, Parent(file), file, fuel, p, child);
    PlainHead(fs, dirs, lines, 0, 1, Parent(file), file, fuel, child + (lines[2] + "\n"));
  }

  lemma {:induction false} Std1Expansion(fs: FileSystem, fuel: nat)
    requires TestTree(fs)
    ensures ExpandFile(fs, SearchDirs, Std1, fuel) == Run(Success, Unlines(["// std1"]), "")
  {
    NoHashIsPlain("// std1");
    PlainFile(fs, SearchDirs, Std1, fuel);
  }

  lemma {:induction false} Std2Expansion(fs: FileSystem, fuel: nat)
    requires TestTree(fs)
    ensures ExpandFile(fs, SearchDirs, Std2, fuel) == Run(Success, Unlines(["// std2"]), "")
  {
    NoHashIsPlain("// std2");
    PlainFile(fs, SearchDirs, Std2, fuel);
  }

  const COut: seq<string> := ["// text from c.h before include", "// std1", "// text from c.h after include"]

  lemma {:induction false} CLine1(fs: FileSystem)
    requires Std1 in fs
    ensures LineStep(fs, SearchDirs, Parent(CHeader), C1) == Enter(Std1)
  {
    ClassifyStd1();
    JoinStd1();
  }

  lemma {:induction false} PlainC0()
    ensures Classify(C0) == Plain
  {
    NoHashIsPlain(C0);
  }

  lemma {:induction false} PlainC2()
    ensures Classify(C2) == Plain
  {
    NoHashIsPlain(C2);
  }

  lemma {:induction false} CText()
    ensures C0 + "\n" + (Unlines(["// std1"]) + (C2 + "\n")) == Unlines(COut)
  {
  }

  lemma {:induction false} CRaw(fs: FileSystem, fuel: nat, so: string)
    requires TestTree(fs) && fuel >= 1
    requires ExpandFile(fs, SearchDirs, Std1, fuel - 1) == Run(Success, so, "")
    ensures ExpandFile(fs, SearchDirs, CHeader, fuel) ==
      Run(Success, C0 + "\n" + (so + (C2 + "\n")), "")
  {
    CLine1(fs);
    PlainC0();
    PlainC2();
    IncludeInMiddle(fs, SearchDirs, CHeader, fuel, Std1, so);
  }

  lemma {:induction false} CExpansion(fs: FileSystem, fuel: nat)
    requires TestTree(fs) && fuel >= 1
    ensures ExpandFile(fs, SearchDirs, CHeader, fuel) == Run(Success, Unlines(COut), "")
  {
    Std1Expansion(fs, fuel - 1);
    CRaw(fs, fuel, Unlines(["// std1"]));
    CText();
  }

  const BOut: seq<string> := ["// text from b.h before include"] + COut + ["// text from b.h after include"]

  lemma {:induction false} BLine1(fs: FileSystem)
    requires CHeader in fs
    ensures LineStep(fs, SearchDirs, Parent(BHeader), B1) == Enter(CHeader)
  {
    ClassifyC();
    JoinC();
    assert Parent(BHeader) == ["sources", "dir1"];
  }

  lemma {:induction false} PlainB0()
    ensures Classify(B0) == Plain
  {
    NoHashIsPlain(B0);
  }

  lemma {:induction false} PlainB2()
    ensures Classify(B2) == Plain
  {
    NoHashIsPlain(B2);
  }

  lemma {:induction false} BText()
    ensures B0 + "\n" + (Unlines(COut) + (B2 + "\n")) == Unlines(BOut)
  {
    UnlinesAppend([B0] + COut, [B2]);
    UnlinesAppend([B0], COut);
  }

  lemma {:induction false} BRaw(fs: FileSystem, fuel: nat, co: string)
    requires TestTree(fs) && fuel >= 2
    requires ExpandFile(fs, SearchDirs, CHeader, fuel - 1) == Run(Success, co, "")
    ensures ExpandFile(fs, SearchDirs, BHeader, fuel) ==
      Run(Success, B0 + "\n" + (co + (B2 + "\n")), "")
  {
    BLine1(fs);
    PlainB0();
    PlainB2();
    IncludeInMiddle(fs, SearchDirs, BHeader, fuel, CHeader, co);
  }


  lemma {:induction false} BExpansion(fs: FileSystem, fuel: nat)
    requires TestTree(fs) && fuel >= 2
    ensures ExpandFile(fs, SearchDirs, BHeader, fuel) == Run(Success, Unlines(BOut), "")
  {
    CExpansion(fs, fuel - 1);
    BRaw(fs, fuel, Unlines(COut));
    BText();
  }

  const DOut: seq<string> := ["// text from d.h before include", "// std2", "// text from d.h after include"]

  lemma {:induction false} DLine1(fs: FileSystem)
    requires Std2 in fs && ["sources", "dir1", "lib", "std2.h"] !in fs && ["sources", "include1", "lib", "std2.h"] !in fs
    ensures LineStep(fs, SearchDirs, Parent(DHeader), D1) == Enter(Std2)
  {
    ClassifyStd2();
    JoinStd2();
    assert Parent(DHeader) == ["sources", "dir1"];
    assert FirstIndex(fs, SearchDirs, "lib/std2.h") == Some(1);
  }

  lemma {:induction false} PlainD0()
    ensures Classify(D0) == Plain
  {
    NoHashIsPlain(D0);
  }

  lemma {:induction false} PlainD2()
    ensures Classify(D2) == Plain
  {
    NoHashIsPlain(D2);
  }

  lemma {:induction false} DText()
    ensures D0 + "\n" + (Unlines(["// std2"]) + (D2 + "\n")) == Unlines(DOut)
  {
  }

  lemma {:induction false} DRaw(fs: FileSystem, fuel: nat, so: string)
    requires TestTree(fs) && fuel >= 1
    requires ExpandFile(fs, SearchDirs, Std2, fuel - 1) == Run(Success, so, "")
    ensures ExpandFile(fs, SearchDirs, DHeader, fuel) ==
      Run(Success, D0 + "\n" + (so + (D2 + "\n")), "")
  {
    DLine1(fs);
    PlainD0();
    PlainD2();
    IncludeInMiddle(fs, SearchDirs, DHeader, fuel, Std2, so);
  }

  lemma {:induction false} DExpansion(fs: FileSystem, fuel: nat)
    requires TestTree(fs) && fuel >= 1
    ensures ExpandFile(fs, SearchDirs, DHeader, fuel) == Run(Success, Unlines(DOut), "")
  {
    Std2Expansion(fs, fuel - 1);
    DRaw(fs, fuel, Unlines(["// std2"]));
    DText();
  }



  lemma {:induction false} PlainA0()
    ensures Classify(A0) == Plain
  {
    NoHashIsPlain(A0);
  }

  lemma {:induction false} PlainA2()
    ensures Classify(A2) == Plain
  {
    NoHashIsPlain(A2);
  }

  lemma {:induction false} PlainA4()
    ensures Classify(A4) == Plain
  {
    NoHashIsPlain(A4);
  }

  lemma {:induction false} PlainA5()
    ensures Classify(A5) == Plain
  {
    NoHashIsPlain(A5);
  }

  lemma {:induction false} PlainA6()
    ensures Classify(A6) == Plain
  {
    NoHashIsPlain(A6);
  }

  lemma {:induction false} MainLine1(fs: FileSystem)
    requires BHeader in fs
    ensures LineStep(fs, SearchDirs, Parent(MainFile), A1) == Enter(BHeader)
  {
    ClassifyB();
    JoinB();
    assert Parent(MainFile) == ["sources"];
  }

  lemma {:induction false} MainLine3(fs: FileSystem)
    requires DHeader in fs
    ensures LineStep(fs, SearchDirs, Parent(MainFile), A3) == Enter(DHeader)
  {
    ClassifyD();
    JoinD();
    assert Parent(MainFile) == ["sources"];
  }

  lemma {:induction false} DummyNowhere(fs: FileSystem)
    requires ["sources", "include1", "dummy.txt"] !in fs && ["sources", "include2", "dummy.txt"] !in fs
    ensures FirstIndex(fs, SearchDirs, "dummy.txt") == None
  {
    JoinDummy();
  }

  lemma {:induction false} MainLine7(fs: FileSystem)
    requires ["sources", "include1", "dummy.txt"] !in fs && ["sources", "include2", "dummy.txt"] !in fs
    ensures LineStep(fs, SearchDirs, Parent(MainFile), A7) == Missing("dummy.txt")
  {
    ClassifyDummy();
    DummyNowhere(fs);
  }

  /** A plain line, then an include whose file expands silently, in front of what the rest of the file gives. */
  lemma {:induction false} PlainThenInclude(fs: FileSystem, dirs: seq<Path>, lines: seq<string>, k: nat, inc: nat, after: nat,
                                            cd: Path, file: Path, fuel: nat, p: Path, child: string, rest: string)
    requires inc == k + 1 && after == k + 2 && after <= |lines| && Classify(lines[k]) == Plain
    requires fuel >= 1 && LineStep(fs, dirs, cd, lines[inc]) == Enter(p)
    requires ExpandFile(fs, dirs, p, fuel - 1) == Run(Success, child, "")
    requires Expand(fs, dirs, lines, after, cd, file, fuel) == Run(Success, rest, "")
    ensures Expand(fs, dirs, lines, k, cd, file, fuel) == Run(Success, lines[k] + "\n" + (child + rest), "")
  {
    IncludeHead(fs, dirs, lines, inc, after, cd, file, fuel, p, child, rest);
    PlainHead(fs, dirs, lines, k, inc, cd, file, fuel, child + rest);
  }

  /**
   * Seven lines, plain but for includes on lines 2 and 4 whose files expand
   * silently, and lines 5 to 7 giving `tail`: the text of line 1, the first
   * included text, line 3, the second included text, then `tail`.
   */
  lemma {:induction false} HeadShape(fs: FileSystem, dirs: seq<Path>, lines: seq<string>, cd: Path, file: Path,
                                     fuel: nat, b: Path, d: Path, bOut: string, dOut: string, tail: string)
    requires |lines| == 7 && fuel >= 1
    requires Classify(lines[0]) == Plain && Classify(lines[2]) == Plain
    requires LineStep(fs, dirs, cd, lines[1]) == Enter(b) && LineStep(fs, dirs, cd, lines[3]) == Enter(d)
    requires ExpandFile(fs, dirs, b, fuel - 1) == Run(Success, bOut, "")
    requires ExpandFile(fs, dirs, d, fuel - 1) == Run(Success, dOut, "")
    requires Expand(fs, dirs, lines, 4, cd, file, fuel) == Run(Success, tail, "")
    ensures Expand(fs, dirs, lines, 0, cd, file, fuel) ==
      Run(Success, lines[0] + "\n" + (bOut + (lines[2] + "\n" + (dOut + tail))), "")
  {
    PlainThenInclude(fs, dirs, lines, 2, 3, 4, cd, file, fuel, d, dOut, tail);
    PlainThenInclude(fs, dirs, lines, 0, 1, 2, cd, file, fuel, b, bOut, lines[2] + "\n" + (dOut + tail));
  }

  /** Lines 5 to 7 of the main file are plain. */
  lemma {:induction false} HeadTail(fs: FileSystem, dirs: seq<Path>, lines: seq<string>, cd: Path, file: Path, fuel: nat)
    requires |lines| == 9
    requires Classify(lines[4]) == Plain && Classify(lines[5]) == Plain && Classify(lines[6]) == Plain
    ensures Expand(fs, dirs, lines[..7], 4, cd, file, fuel) == Run(Success, Unlines(lines[4..7]), "")
  {
    var head := lines[..7];
    assert head[4..] == lines[4..7];
    PlainLinesVerbatim(fs, dirs, head, 4, cd, file, fuel);
  }

  /** The first seven of nine lines, shaped as HeadShape requires. */
  lemma {:induction false} HeadOf(fs: FileSystem, dirs: seq<Path>, lines: seq<string>, cd: Path, file: Path,
                                  fuel: nat, b: Path, d: Path, bOut: string, dOut: string)
    requires |lines| == 9 && fuel >= 1
    requires Classify(lines[0]) == Plain && Classify(lines[2]) == Plain
    requires Classify(lines[4]) == Plain && Classify(lines[5]) == Plain && Classify(lines[6]) == Plain
    requires LineStep(fs, dirs, cd, lines[1]) == Enter(b) && LineStep(fs, dirs, cd, lines[3]) == Enter(d)
    requires ExpandFile(fs, dirs, b, fuel - 1) == Run(Success, bOut, "")
    requires ExpandFile(fs, dirs, d, fuel - 1) == Run(Success, dOut, "")
    ensures Expand(fs, dirs, lines[..7], 0, cd, file, fuel) ==
      Run(Success, lines[0] + "\n" + (bOut + (lines[2] + "\n" + (dOut + Unlines(lines[4..7])))), "")
  {
    var head := lines[..7];
    HeadTail(fs, dirs, lines, cd, file, fuel);
    assert head[0] == lines[0] && head[1] == lines[1] && head[2] == lines[2] && head[3] == lines[3];
    HeadShape(fs, dirs, head, cd, file, fuel, b, d, bOut, dOut, Unlines(lines[4..7]));
  }

  /**
   * The shape of the main file: the seven lines of HeadShape, then an
   * include that nothing resolves on line 8. Processing stops there with
   * the text of the seven lines written and the one diagnostic logged.
   */
  lemma {:induction false} StopShape(fs: FileSystem, dirs: seq<Path>, file: Path, fuel: nat,
                                     b: Path, d: Path, name: string, bOut: string, dOut: string)
    requires file in fs && |fs[file]| == 9 && fuel >= 1
    requires Classify(fs[file][0]) == Plain && Classify(fs[file][2]) == Plain
    requires Classify(fs[file][4]) == Plain && Classify(fs[file][5]) == Plain && Classify(fs[file][6]) == Plain
    requires LineStep(fs, dirs, Parent(file), fs[file][1]) == Enter(b)
    requires LineStep(fs, dirs, Parent(file), fs[file][3]) == Enter(d)
    requires LineStep(fs, dirs, Parent(file), fs[file][7]) == Missing(name)
    requires ExpandFile(fs, dirs, b, fuel - 1) == Run(Success, bOut, "")
    requires ExpandFile(fs, dirs, d, fuel - 1) == Run(Success, dOut, "")
    ensures var lines := fs[file];
      ExpandFile(fs, dirs, file, fuel) ==
        Run(Unresolved(name, file, 8),
            lines[0] + "\n" + (bOut + (lines[2] + "\n" + (dOut + Unlines(lines[4..7])))),
            Diagnostic(name, file, 8) + "\n")
  {
    var lines := fs[file];
    HeadOf(fs, dirs, lines, Parent(file), file, fuel, b, d, bOut, dOut);
    UnresolvedStops(fs, dirs, lines, 7, Parent(file), file, fuel, name);
    EmptyBefore(Diagnostic(name, file, 8));
  }

  lemma {:induction false} MainLinesAt(lines: seq<string>)
    requires lines == MainLines
    ensures |lines| == 9
    ensures lines[0] == A0 && lines[1] == A1 && lines[2] == A2 && lines[3] == A3
    ensures lines[4] == A4 && lines[5] == A5 && lines[6] == A6 && lines[7] == A7
  {
  }

  lemma {:induction false} MainRaw(fs: FileSystem, fuel: nat, bOut: string, dOut: string)
    requires TestTree(fs) && fuel >= 1
    requires ExpandFile(fs, SearchDirs, BHeader, fuel - 1) == Run(Success, bOut, "")
    requires ExpandFile(fs, SearchDirs, DHeader, fuel - 1) == Run(Success, dOut, "")
    ensures ExpandFile(fs, SearchDirs, MainFile, fuel) ==
      Run(Unresolved("dummy.txt", MainFile, 8),
          A0 + "\n" + (bOut + (A2 + "\n" + (dOut + Unlines(MainLines[4..7])))),
          Diagnostic("dummy.txt", MainFile, 8) + "\n")
  {
    MainLinesAt(fs[MainFile]);
    PlainA0();
    PlainA2();
    PlainA4();
    PlainA5();
    PlainA6();
    MainLine1(fs);
    MainLine3(fs);
    MainLine7(fs);
    StopShape(fs, SearchDirs, MainFile, fuel, BHeader, DHeader, "dummy.txt", bOut, dOut);
  }

  lemma {:induction false} UnlinesFront(a: string, b: seq<string>, rest: seq<string>)
    ensures Unlines([a] + b + rest) == a + "\n" + (Unlines(b) + Unlines(rest))
  {
    assert ([a] + b + rest)[1..] == b + rest;
    UnlinesAppend(b, rest);
  }

  lemma {:induction false} MainText()
    ensures A0 + "\n" + (Unlines(BOut) + (A2 + "\n" + (Unlines(DOut) + Unlines(MainLines[4..7])))) ==
      Unlines(Expected)
  {
    var tail := [A2] + DOut + MainLines[4..7];
    assert Expected == [A0] + BOut + tail;
    UnlinesFront(A0, BOut, tail);
    UnlinesFront(A2, DOut, MainLines[4..7]);
  }


  /** The message the test expects on the console. */
  const Message := Prefix + "dummy.txt" + FileWord + "sources/a.cpp" + LineWord + "8"

  lemma {:induction false} MainFileString()
    ensures PathString(MainFile) == "sources/a.cpp"
  {
  }

  lemma {:induction false} EightString()
    ensures DecimalString(8) == "8"
  {
  }

  lemma {:induction false} MessageText()
    ensures Diagnostic("dummy.txt", MainFile, 8) == Message
  {
    MainFileString();
    EightString();
  }

  /**
   * The repository's test: processing sources/a.cpp fails at the include of
   * dummy.txt on line 8, after writing the expected text, and prints the one
   * diagnostic for that line.
   */
  lemma {:induction false} MainExpansion(fs: FileSystem, fuel: nat)
    requires TestTree(fs) && fuel >= 3
    ensures ExpandFile(fs, SearchDirs, MainFile, fuel) ==
      Run(Unresolved("dummy.txt", MainFile, 8), Unlines(Expected), Message + "\n")
  {
    BExpansion(fs, fuel - 1);
    DExpansion(fs, fuel - 1);
    MainRaw(fs, fuel, Unlines(BOut), Unlines(DOut));
    MainText();
    MessageText();
  }

  /**
   * The repository's test: preprocessing the main file with the two search
   * directories fails, the output file holds everything written before the
   * unresolved include on line 8, and the console holds its one diagnostic.
   */
  method Test(fs: FileSystem, console: Sink) returns (ok: bool, output: Option<string>)
    requires TestTree(fs)
    modifies console
    ensures !ok && output == Some(Unlines(Expected))
    ensures console.text == old(console.text) + Message + "\n"
  {
    ghost var before := console.text;
    MainExpansion(fs, 3);
    ok, output := Preprocess(fs, MainFile, true, SearchDirs, console, 3);
    AppendAssoc(before, Message, "\n");
  }
}
