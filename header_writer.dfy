/** printAsClangHeader: writes the header section by section into the output stream. */
module HeaderWriter {
  import opened Wrappers
  import opened RawOstream
  import opened Emitters
  import opened Prologue
  import opened ImportOrder
  import opened ImportWriter
  import opened ClangHeader

  /**
   * printAsClangHeader: writes the header for module `m` and reports no failure. `blocks` is
   * the fixed text of the prologue and epilogue (`SourceBlocks()` for the compiler's own);
   * `imports`, `objcBody` and `cxxBody` are what the Objective-C and C++ declaration printers
   * produce.
   */
  method PrintAsClangHeader(
    os: Stream, blocks: HeaderBlocks, version: string, m: ModuleDecl, bridgingHeader: string,
    importedHeaderModule: Option<nat>, expose: bool, mappings: seq<SimdMapping>,
    imports: set<ImportModule>, objcBody: string, cxxBody: string)
    returns (failed: bool)
    requires forall x | x in imports :: IsSubmoduleOrSwift(x)
    modifies os
    ensures !failed
    ensures os.text == old(os.text)
      + HeaderText(version, m, bridgingHeader, importedHeaderModule, blocks, mappings, imports, objcBody, cxxBody, expose)
  {
    WriteHead(os, blocks, version, m, bridgingHeader, importedHeaderModule, mappings, imports);
    WriteTail(os, blocks, m.name, expose, objcBody, cxxBody);
    AppendAssoc(old(os.text), HeadText(version, m, bridgingHeader, importedHeaderModule, blocks, mappings, imports),
      TailText(m.name, blocks, objcBody, cxxBody, expose));
    failed := false;
  }

  /** The prologue, then the imports section. */
  method WriteHead(
    os: Stream, blocks: HeaderBlocks, version: string, m: ModuleDecl, bridgingHeader: string,
    importedHeaderModule: Option<nat>, mappings: seq<SimdMapping>, imports: set<ImportModule>)
    requires forall x | x in imports :: IsSubmoduleOrSwift(x)
    modifies os
    ensures os.text == old(os.text) + HeadText(version, m, bridgingHeader, importedHeaderModule, blocks, mappings, imports)
  {
    ghost var start := os.text;
    ghost var prologue := PrologueText(version, ComputeMacroGuard(m.name), blocks, mappings);
    ghost var importsSection := IfDefined("__OBJC__", ImportsBlock(imports, m, bridgingHeader, importedHeaderModule), None);
    WritePrologue(os, version, ComputeMacroGuard(m.name), blocks, mappings);
    WriteImportsSection(os, imports, m, bridgingHeader, importedHeaderModule);
    AppendAssoc(start, prologue, importsSection);
  }

  /** The imports, collected into a buffer of their own by writeImports, then wrapped for Objective-C. */
  method WriteImportsSection(
    os: Stream, imports: set<ImportModule>, m: ModuleDecl, bridgingHeader: string, importedHeaderModule: Option<nat>)
    requires forall x | x in imports :: IsSubmoduleOrSwift(x)
    modifies os
    ensures os.text == old(os.text) + IfDefined("__OBJC__", ImportsBlock(imports, m, bridgingHeader, importedHeaderModule), None)
  {
    var importsBuffer := new Stream();
    WriteImports(importsBuffer, imports, m, bridgingHeader, importedHeaderModule);
    assert importsBuffer.text == ImportsBlock(imports, m, bridgingHeader, importedHeaderModule) by {
      assert [] + ImportsBlock(imports, m, bridgingHeader, importedHeaderModule) == ImportsBlock(imports, m, bridgingHeader, importedHeaderModule);
    }
    EmitObjCConditional(os, importsBuffer.text);
  }

  /** The post-import prologue, the Objective-C declarations, the C++ section (its body only when exposed), the epilogue. */
  method WriteTail(os: Stream, blocks: HeaderBlocks, name: string, expose: bool, objcBody: string, cxxBody: string)
    modifies os
    ensures os.text == old(os.text) + TailText(name, blocks, objcBody, cxxBody, expose)
  {
    ghost var start := os.text;
    ghost var b, c, d, e := PostImportPrologueText(blocks, name), IfDefined("__OBJC__", objcBody, None),
      CxxSection(cxxBody, expose), EpilogueText(blocks);
    WritePostImportPrologue(os, blocks, name);
    EmitObjCConditional(os, objcBody);
    var cxxContents := if expose then cxxBody else "";
    EmitCxxConditional(os, cxxContents);
    WriteEpilogue(os, blocks);
    AppendAssoc(start, b, c);
    AppendAssoc(start, b + c, d);
    AppendAssoc(start, b + c + d, e);
  }
}
