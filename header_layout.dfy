/**
 * The line structure of the header printAsClangHeader writes: each section as lines, the
 * include guard and diagnostic push/pop around everything, and the gating of the C++ section.
 */
module HeaderLayout {
  import opened Wrappers
  import opened TextLines
  import opened Emitters
  import opened Prologue
  import opened ImportOrder
  import opened ImportWriter
  import opened ClangHeader

  /** A block under one of the two language macros, without an alternative, as lines. */
  lemma GuardedLines(macro: string, body: string)
    requires macro == "__OBJC__" || macro == "__cplusplus"
    requires LineTerminated(body)
    ensures Lines(IfDefined(macro, body, None)) == [IfLine(macro)] + Lines(body) + ["#endif"]
    ensures LineTerminated(IfDefined(macro, body, None)) && IfDefined(macro, body, None) != []
  {
    IfDefinedLines(macro, body, None);
    IfDefinedLineTerminated(macro, body, None);
  }

  /** The head as lines: the prologue's, then the imports between `#if defined(__OBJC__)` and `#endif`. */
  lemma HeadLines(
    version: string, m: ModuleDecl, bridgingHeader: string, importedHeaderModule: Option<nat>,
    blocks: HeaderBlocks, mappings: seq<SimdMapping>, imports: set<ImportModule>)
    requires OneLineNames(imports, m, bridgingHeader)
    ensures LineTerminated(HeadText(version, m, bridgingHeader, importedHeaderModule, blocks, mappings, imports))
    ensures Lines(HeadText(version, m, bridgingHeader, importedHeaderModule, blocks, mappings, imports)) ==
      Lines(PrologueText(version, ComputeMacroGuard(m.name), blocks, mappings))
      + ([IfLine("__OBJC__")] + Lines(ImportsBlock(imports, m, bridgingHeader, importedHeaderModule)) + ["#endif"])
  {
    var prologue := PrologueText(version, ComputeMacroGuard(m.name), blocks, mappings);
    var block := ImportsBlock(imports, m, bridgingHeader, importedHeaderModule);
    ImportsBlockLines(imports, m, bridgingHeader, importedHeaderModule);
    PrologueLineTerminated(version, ComputeMacroGuard(m.name), blocks, mappings);
    GuardedLines("__OBJC__", block);
    LinesAppend(prologue, IfDefined("__OBJC__", block, None));
    LineTerminatedAppend(prologue, IfDefined("__OBJC__", block, None));
  }

  /**
   * The tail as lines: the post-import prologue's; the Objective-C declarations between
   * `#if defined(__OBJC__)` and `#endif`; the C++ declarations, only when exposed, between
   * `#if defined(__cplusplus)` and `#endif`; the epilogue's.
   */
  lemma TailLines(name: string, blocks: HeaderBlocks, objcBody: string, cxxBody: string, expose: bool)
    requires LineTerminated(objcBody) && LineTerminated(cxxBody)
    ensures Lines(TailText(name, blocks, objcBody, cxxBody, expose)) ==
      Lines(PostImportPrologueText(blocks, name))
      + ([IfLine("__OBJC__")] + Lines(objcBody) + ["#endif"])
      + ([IfLine("__cplusplus")] + (if expose then Lines(cxxBody) else []) + ["#endif"])
      + Lines(EpilogueText(blocks))
  {
    var b, c, d := PostImportPrologueText(blocks, name), IfDefined("__OBJC__", objcBody, None), CxxSection(cxxBody, expose);
    PostImportPrologueLineTerminated(blocks, name);
    GuardedLines("__OBJC__", objcBody);
    GuardedLines("__cplusplus", if expose then cxxBody else "");
    LinesAppend(b, c);
    LineTerminatedAppend(b, c);
    LinesAppend(b + c, d);
    LineTerminatedAppend(b + c, d);
    LinesAppend(b + c + d, EpilogueText(blocks));
  }

  /**
   * The header as lines, section by section: the prologue; the imports between
   * `#if defined(__OBJC__)` and `#endif`; the post-import prologue; the Objective-C
   * declarations between `#if defined(__OBJC__)` and `#endif`; the C++ declarations, only
   * when exposed, between `#if defined(__cplusplus)` and `#endif`; the epilogue.
   */
  lemma HeaderLines(
    version: string, m: ModuleDecl, bridgingHeader: string, importedHeaderModule: Option<nat>,
    blocks: HeaderBlocks, mappings: seq<SimdMapping>,
    imports: set<ImportModule>, objcBody: string, cxxBody: string, expose: bool)
    requires OneLineNames(imports, m, bridgingHeader)
    requires LineTerminated(objcBody) && LineTerminated(cxxBody)
    ensures Lines(HeaderText(version, m, bridgingHeader, importedHeaderModule, blocks, mappings, imports, objcBody, cxxBody, expose)) ==
      (Lines(PrologueText(version, ComputeMacroGuard(m.name), blocks, mappings))
       + ([IfLine("__OBJC__")] + Lines(ImportsBlock(imports, m, bridgingHeader, importedHeaderModule)) + ["#endif"]))
      + (Lines(PostImportPrologueText(blocks, m.name))
         + ([IfLine("__OBJC__")] + Lines(objcBody) + ["#endif"])
         + ([IfLine("__cplusplus")] + (if expose then Lines(cxxBody) else []) + ["#endif"])
         + Lines(EpilogueText(blocks)))
  {
    HeadLines(version, m, bridgingHeader, importedHeaderModule, blocks, mappings, imports);
    TailLines(m.name, blocks, objcBody, cxxBody, expose);
    LinesAppend(HeadText(version, m, bridgingHeader, importedHeaderModule, blocks, mappings, imports),
      TailText(m.name, blocks, objcBody, cxxBody, expose));
  }

  /** The head opens with the generator line, `#ifndef G`, `#define G` and the diagnostic push. */
  lemma HeadOpening(
    version: string, m: ModuleDecl, bridgingHeader: string, importedHeaderModule: Option<nat>,
    blocks: HeaderBlocks, mappings: seq<SimdMapping>, imports: set<ImportModule>)
    requires '\n' !in version && '\n' !in m.name
    ensures LineTerminated(HeadText(version, m, bridgingHeader, importedHeaderModule, blocks, mappings, imports))
    ensures var lines := Lines(HeadText(version, m, bridgingHeader, importedHeaderModule, blocks, mappings, imports));
      var g := ComputeMacroGuard(m.name);
      |lines| >= 4 && lines[..4] == ["// Generated by " + version, "#ifndef " + g, "#define " + g, "#pragma clang diagnostic push"]
  {
    var g := ComputeMacroGuard(m.name);
    var prologue := PrologueText(version, g, blocks, mappings);
    var opening := ["// Generated by " + version, "#ifndef " + g, "#define " + g, "#pragma clang diagnostic push"];
    GuardOneLine(m.name);
    PrologueLineTerminated(version, g, blocks, mappings);
    IfDefinedLineTerminated("__OBJC__", ImportsBlock(imports, m, bridgingHeader, importedHeaderModule), None);
    assert |Lines(prologue)| >= 4 && Lines(prologue)[..4] == opening by {
      PrologueOpening(version, g, blocks, mappings);
      OpeningOfLines(Lines(prologue), Lines(prologue), opening, Lines(PrologueBody(blocks, mappings)), []);
    }
    OpeningKept(prologue, IfDefined("__OBJC__", ImportsBlock(imports, m, bridgingHeader, importedHeaderModule), None), opening);
  }

  /** Appending a line-terminated text keeps the first lines of a line-terminated one. */
  lemma OpeningKept(p: string, q: string, opening: seq<string>)
    requires LineTerminated(p) && LineTerminated(q) && q != []
    requires |Lines(p)| >= |opening| && Lines(p)[..|opening|] == opening
    ensures LineTerminated(p + q)
    ensures |Lines(p + q)| >= |opening| && Lines(p + q)[..|opening|] == opening
  {
    LinesAppend(p, q);
    LineTerminatedAppend(p, q);
    assert Lines(p + q)[..|opening|] == Lines(p)[..|opening|];
  }

  /** The tail closes with the diagnostic pop and the `#endif` of the include guard. */
  lemma TailClosing(name: string, blocks: HeaderBlocks, objcBody: string, cxxBody: string, expose: bool)
    ensures var lines := Lines(TailText(name, blocks, objcBody, cxxBody, expose));
      |lines| >= 2 && lines[|lines| - 2..] == ["#pragma clang diagnostic pop", "#endif"]
  {
    var b, c, d := PostImportPrologueText(blocks, name), IfDefined("__OBJC__", objcBody, None), CxxSection(cxxBody, expose);
    PostImportPrologueLineTerminated(blocks, name);
    IfDefinedLineTerminated("__OBJC__", objcBody, None);
    IfDefinedLineTerminated("__cplusplus", if expose then cxxBody else "", None);
    LineTerminatedAppend(b, c);
    LineTerminatedAppend(b + c, d);
    LinesAppend(b + c + d, EpilogueText(blocks));
    EpilogueClosing(blocks);
    SuffixOfConcat(Lines(b + c + d), Lines(EpilogueText(blocks)));
  }

  /** Lines that start with `opening` followed by more still start with `opening`. */
  lemma OpeningOfLines(lines: seq<string>, first: seq<string>, opening: seq<string>, body: seq<string>, rest: seq<string>)
    requires lines == first + rest && first == opening + body
    ensures |lines| >= |opening| && lines[..|opening|] == opening
  {
    assert lines == opening + (body + rest);
  }

  /** The last two lines of `x + e` are those of `e`, when `e` has two. */
  lemma SuffixOfConcat(x: seq<string>, e: seq<string>)
    requires |e| >= 2
    ensures |x + e| >= 2 && (x + e)[|x + e| - 2..] == e[|e| - 2..]
  {
  }

  /**
   * The header opens with the generator line, `#ifndef G`, `#define G` and the diagnostic
   * push, where G is the module's guard, and closes with the diagnostic pop and the `#endif`
   * of the guard.
   */
  lemma HeaderFrame(
    version: string, m: ModuleDecl, bridgingHeader: string, importedHeaderModule: Option<nat>,
    blocks: HeaderBlocks, mappings: seq<SimdMapping>,
    imports: set<ImportModule>, objcBody: string, cxxBody: string, expose: bool)
    requires '\n' !in version && '\n' !in m.name
    ensures var lines := Lines(HeaderText(version, m, bridgingHeader, importedHeaderModule, blocks, mappings, imports, objcBody, cxxBody, expose));
      var g := ComputeMacroGuard(m.name);
      && |lines| >= 6
      && lines[..4] == ["// Generated by " + version, "#ifndef " + g, "#define " + g, "#pragma clang diagnostic push"]
      && lines[|lines| - 2..] == ["#pragma clang diagnostic pop", "#endif"]
  {
    HeadOpening(version, m, bridgingHeader, importedHeaderModule, blocks, mappings, imports);
    TailClosing(m.name, blocks, objcBody, cxxBody, expose);
    EnclosedLines(
      HeadText(version, m, bridgingHeader, importedHeaderModule, blocks, mappings, imports),
      TailText(m.name, blocks, objcBody, cxxBody, expose));
  }

  /** Joining a line-terminated text to another keeps the first one's first lines and the second one's last lines. */
  lemma EnclosedLines(head: string, tail: string)
    requires LineTerminated(head)
    requires |Lines(head)| >= 4 && |Lines(tail)| >= 2
    ensures var lines := Lines(head + tail);
      && |lines| >= 6
      && lines[..4] == Lines(head)[..4]
      && lines[|lines| - 2..] == Lines(tail)[|Lines(tail)| - 2..]
  {
    LinesAppend(head, tail);
  }

  /**
   * The C++ section is `#if defined(__cplusplus)`, the C++ declarations' lines only when they
   * are exposed, and `#endif`; unexposed declarations leave no trace in the header.
   */
  lemma ExposureGating(
    version: string, m: ModuleDecl, bridgingHeader: string, importedHeaderModule: Option<nat>,
    blocks: HeaderBlocks, mappings: seq<SimdMapping>,
    imports: set<ImportModule>, objcBody: string, cxxBody: string, otherCxxBody: string, expose: bool)
    requires LineTerminated(cxxBody)
    ensures Lines(CxxSection(cxxBody, expose)) == [IfLine("__cplusplus")] + (if expose then Lines(cxxBody) else []) + ["#endif"]
    ensures HeaderText(version, m, bridgingHeader, importedHeaderModule, blocks, mappings, imports, objcBody, cxxBody, false)
      == HeaderText(version, m, bridgingHeader, importedHeaderModule, blocks, mappings, imports, objcBody, otherCxxBody, false)
  {
    IfDefinedLines("__cplusplus", if expose then cxxBody else "", None);
    assert CxxSection(cxxBody, false) == CxxSection(otherCxxBody, false);
  }
}
