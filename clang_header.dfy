/**
 * printAsClangHeader: the compatibility header of a Swift module, section by section, and the
 * include-guard macro it is wrapped in (computeMacroGuard).
 *
 * What the declaration printers produce is an input: the import set they collect, the
 * Objective-C declarations and the C++ declarations, each as the text it is.
 */
module ClangHeader {
  import opened Wrappers
  import opened RawOstream
  import opened TextLines
  import opened Emitters
  import opened Prologue
  import opened ImportOrder
  import opened ImportWriter

  /** StringRef::upper on one character: ASCII lower-case letters become upper-case, everything else is kept. */
  function ToUpper(c: char): char {
    if 'a' <= c <= 'z' then (c as int - 32) as char else c
  }

  predicate IsLower(c: char) {
    'a' <= c <= 'z'
  }

  /** StringRef::upper: every character upper-cased, nothing added or dropped. */
  function Upper(s: string): (u: string)
    ensures |u| == |s|
    ensures forall i | 0 <= i < |s| :: u[i] == ToUpper(s[i])
  {
    if s == [] then [] else [ToUpper(s[0])] + Upper(s[1..])
  }

  /** computeMacroGuard: the upper-cased module name followed by `_SWIFT_H`. */
  function ComputeMacroGuard(name: string): (g: string)
    ensures |g| == |name| + 8
    ensures g[|name|..] == "_SWIFT_H"
    ensures forall i | 0 <= i < |name| :: g[i] == ToUpper(name[i])
  {
    Upper(name) + "_SWIFT_H"
  }

  /** Upper-casing leaves no lower-case letter, and upper-casing again changes nothing. */
  lemma {:induction false} UpperIsUpper(s: string)
    ensures forall i | 0 <= i < |Upper(s)| :: !IsLower(Upper(s)[i])
    ensures Upper(Upper(s)) == Upper(s)
  {
    var u := Upper(s);
    assert forall i | 0 <= i < |u| :: ToUpper(u[i]) == u[i];
  }

  /** The guard holds no lower-case letter, and no newline when the name holds none. */
  lemma GuardShape(name: string)
    ensures var g := ComputeMacroGuard(name);
      && (forall i | 0 <= i < |g| :: !IsLower(g[i]))
      && ('\n' !in name ==> '\n' !in g)
  {
    var g := ComputeMacroGuard(name);
    var suffix := "_SWIFT_H";
    UpperIsUpper(name);
    assert forall i | 0 <= i < |suffix| :: !IsLower(suffix[i]) && suffix[i] != '\n';
    forall i | 0 <= i < |g| ensures !IsLower(g[i]) && ('\n' !in name ==> g[i] != '\n') {
      if i < |name| {
        assert name[i] in name;
      } else {
        assert g[i] == suffix[i - |name|];
      }
    }
  }

  /** A module name without a newline gives a guard without one. */
  lemma GuardOneLine(name: string)
    requires '\n' !in name
    ensures '\n' !in ComputeMacroGuard(name)
  {
    GuardShape(name);
  }

  /** Two modules get the same guard exactly when their names agree up to the case of ASCII letters. */
  lemma GuardCollision(a: string, b: string)
    ensures ComputeMacroGuard(a) == ComputeMacroGuard(b) <==> Upper(a) == Upper(b)
  {
    if ComputeMacroGuard(a) == ComputeMacroGuard(b) {
      var n := |Upper(a)|;
      assert |ComputeMacroGuard(a)| == n + 8;
      assert Upper(a) == ComputeMacroGuard(a)[..n];
      assert Upper(b) == ComputeMacroGuard(b)[..n];
    }
  }

  /** The module Foo gets `FOO_SWIFT_H`, the same guard as a module named FOO would. */
  lemma GuardExample()
    ensures ComputeMacroGuard("Foo") == "FOO_SWIFT_H"
    ensures ComputeMacroGuard("Foo") == ComputeMacroGuard("FOO")
  {
    assert Upper("Foo") == "FOO";
    assert Upper("FOO") == "FOO";
  }

  /** The C++ section: its declarations when they are exposed; otherwise an empty `__cplusplus` block. */
  function CxxSection(cxxBody: string, expose: bool): (r: string)
    ensures expose ==> r == "#if defined(__cplusplus)\n" + cxxBody + "#endif\n"
    ensures !expose ==> r == "#if defined(__cplusplus)\n#endif\n"
  {
    IfDefined("__cplusplus", if expose then cxxBody else "", None)
  }

  /** The opening half of the header: the prologue, then the imports for Objective-C. */
  ghost function HeadText(
    version: string, m: ModuleDecl, bridgingHeader: string, importedHeaderModule: Option<nat>,
    blocks: HeaderBlocks, mappings: seq<SimdMapping>, imports: set<ImportModule>): string
  {
    PrologueText(version, ComputeMacroGuard(m.name), blocks, mappings)
    + IfDefined("__OBJC__", ImportsBlock(imports, m, bridgingHeader, importedHeaderModule), None)
  }

  /** The closing half: the post-import prologue, the Objective-C declarations, the C++ section, the epilogue. */
  function TailText(name: string, blocks: HeaderBlocks, objcBody: string, cxxBody: string, expose: bool): string {
    PostImportPrologueText(blocks, name)
    + IfDefined("__OBJC__", objcBody, None)
    + CxxSection(cxxBody, expose)
    + EpilogueText(blocks)
  }

  /**
   * The whole header: prologue, the imports for Objective-C, the post-import prologue, the
   * Objective-C declarations, the C++ section, the epilogue.
   */
  ghost function HeaderText(
    version: string, m: ModuleDecl, bridgingHeader: string, importedHeaderModule: Option<nat>,
    blocks: HeaderBlocks, mappings: seq<SimdMapping>,
    imports: set<ImportModule>, objcBody: string, cxxBody: string, expose: bool): string
  {
    HeadText(version, m, bridgingHeader, importedHeaderModule, blocks, mappings, imports)
    + TailText(m.name, blocks, objcBody, cxxBody, expose)
  }
}
