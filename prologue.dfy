/**
 * The fixed text around the imports: the prologue (writePrologue, with its pointer-auth
 * helper writePtrauthPrologue), the post-import prologue (writePostImportPrologue) and
 * the epilogue (writeEpilogue). The fixed macro text is a record of blocks whose source
 * content is SourceBlocks(); the SIMD typedefs come from a list of type mappings that is
 * an input of the model.
 */
module Prologue {
  import opened Wrappers
  import opened RawOstream
  import opened Emitters
  import opened TextLines

  /** One entry of the SIMD type mapping list: the C spelling of the vector's name and its scalar type. */
  datatype SimdMapping = SimdMapping(cType: string, scalarType: string)

  /**
   * The fixed text of the prologue, block by block. The prologue's structure (which block
   * goes where, under which conditional) is the model's; the literal content of each block
   * as the compiler writes it is SourceBlocks().
   */
  datatype HeaderBlocks = HeaderBlocks(
    featureTests: string,
    foundationInclude: string,
    cxxIncludes: string,
    cIncludes: string,
    ptrauthCase: string,
    typedefsOpening: string,
    attributeMacros: string,
    ibSegueAction: string,
    swiftExtern: string,
    cxxIntAliases: string,
    postImportWarnings: string,
    attributePushOpening: string,
    attributePushClosing: string,
    attributePop: string)

  /** The blocks exactly as the compiler writes them. */
  function SourceBlocks(): HeaderBlocks {
    HeaderBlocks(
      // Fallbacks for the feature-test macros and the optional Objective-C prologue.
      featureTests :=
        "#pragma clang diagnostic ignored \"-Wgcc-compat\"\n"
        + "\n"
        + "#if !defined(__has_include)\n"
        + "# define __has_include(x) 0\n"
        + "#endif\n"
        + "#if !defined(__has_attribute)\n"
        + "# define __has_attribute(x) 0\n"
        + "#endif\n"
        + "#if !defined(__has_feature)\n"
        + "# define __has_feature(x) 0\n"
        + "#endif\n"
        + "#if !defined(__has_warning)\n"
        + "# define __has_warning(x) 0\n"
        + "#endif\n"
        + "\n"
        + "#if __has_include(<swift/objc-prologue.h>)\n"
        + "# include <swift/objc-prologue.h>\n"
        + "#endif\n"
        + "\n"
        + "#pragma clang diagnostic ignored \"-Wauto-import\"\n",
      // The Objective-C case of the first conditional.
      foundationInclude :=
        "#include <Foundation/Foundation.h>\n",
      // The C++ standard headers.
      cxxIncludes :=
        "#include <cstdint>\n"
        + "#include <cstddef>\n"
        + "#include <cstdbool>\n"
        + "#include <cstring>\n"
        + "#include <cstdlib>\n",
      // The C standard headers.
      cIncludes :=
        "#include <stdint.h>\n"
        + "#include <stddef.h>\n"
        + "#include <stdbool.h>\n"
        + "#include <string.h>\n",
      // The pointer-authentication header, or an empty qualifier macro when it is missing.
      ptrauthCase :=
        "#if __has_include(<ptrauth.h>)\n"
        + "# include <ptrauth.h>\n"
        + "#else\n"
        + "# ifndef __ptrauth_swift_value_witness_function_pointer\n"
        + "#  define __ptrauth_swift_value_witness_function_pointer(x)\n"
        + "# endif\n"
        + "#endif\n",
      // The start of the SWIFT_TYPEDEFS block, up to the SIMD typedefs.
      typedefsOpening :=
        "\n"
        + "#if !defined(SWIFT_TYPEDEFS)\n"
        + "# define SWIFT_TYPEDEFS 1\n"
        + "# if __has_include(<uchar.h>)\n"
        + "#  include <uchar.h>\n"
        + "# elif !defined(__cplusplus)\n"
        + "typedef uint_least16_t char16_t;\n"
        + "typedef uint_least32_t char32_t;\n"
        + "# endif\n",
      // The end of the SWIFT_TYPEDEFS block and the fixed attribute macros.
      attributeMacros :=
        "#endif\n"
        + "\n"
        + "#if !defined(SWIFT_PASTE)\n"
        + "# define SWIFT_PASTE_HELPER(x, y) x##y\n"
        + "# define SWIFT_PASTE(x, y) SWIFT_PASTE_HELPER(x, y)\n"
        + "#endif"
        + "\n"
        + "#if !defined(SWIFT_METATYPE)\n"
        + "# define SWIFT_METATYPE(X) Class\n"
        + "#endif\n"
        + "#if !defined(SWIFT_CLASS_PROPERTY)\n"
        + "# if __has_feature(objc_class_property)\n"
        + "#  define SWIFT_CLASS_PROPERTY(...) __VA_ARGS__\n"
        + "# else\n"
        + "#  define SWIFT_CLASS_PROPERTY(...)\n"
        + "# endif\n"
        + "#endif\n"
        + "\n"
        + "#if __has_attribute(objc_runtime_name)\n"
        + "# define SWIFT_RUNTIME_NAME(X) "
        + "__attribute__((objc_runtime_name(X)))\n"
        + "#else\n"
        + "# define SWIFT_RUNTIME_NAME(X)\n"
        + "#endif\n"
        + "#if __has_attribute(swift_name)\n"
        + "# define SWIFT_COMPILE_NAME(X) "
        + "__attribute__((swift_name(X)))\n"
        + "#else\n"
        + "# define SWIFT_COMPILE_NAME(X)\n"
        + "#endif\n"
        + "#if __has_attribute(objc_method_family)\n"
        + "# define SWIFT_METHOD_FAMILY(X) "
        + "__attribute__((objc_method_family(X)))\n"
        + "#else\n"
        + "# define SWIFT_METHOD_FAMILY(X)\n"
        + "#endif\n"
        + "#if __has_attribute(noescape)\n"
        + "# define SWIFT_NOESCAPE __attribute__((noescape))\n"
        + "#else\n"
        + "# define SWIFT_NOESCAPE\n"
        + "#endif\n"
        + "#if __has_attribute(ns_consumed)\n"
        + "# define SWIFT_RELEASES_ARGUMENT __attribute__((ns_consumed))\n"
        + "#else\n"
        + "# define SWIFT_RELEASES_ARGUMENT\n"
        + "#endif\n"
        + "#if __has_attribute(warn_unused_result)\n"
        + "# define SWIFT_WARN_UNUSED_RESULT "
        + "__attribute__((warn_unused_result))\n"
        + "#else\n"
        + "# define SWIFT_WARN_UNUSED_RESULT\n"
        + "#endif\n"
        + "#if __has_attribute(noreturn)\n"
        + "# define SWIFT_NORETURN __attribute__((noreturn))\n"
        + "#else\n"
        + "# define SWIFT_NORETURN\n"
        + "#endif\n"
        + "#if !defined(SWIFT_CLASS_EXTRA)\n"
        + "# define SWIFT_CLASS_EXTRA\n"
        + "#endif\n"
        + "#if !defined(SWIFT_PROTOCOL_EXTRA)\n"
        + "# define SWIFT_PROTOCOL_EXTRA\n"
        + "#endif\n"
        + "#if !defined(SWIFT_ENUM_EXTRA)\n"
        + "# define SWIFT_ENUM_EXTRA\n"
        + "#endif\n"
        + "#if !defined(SWIFT_CLASS)\n"
        + "# if __has_attribute(objc_subclassing_restricted)\n"
        + "#  define SWIFT_CLASS(SWIFT_NAME) SWIFT_RUNTIME_NAME(SWIFT_NAME) "
        + "__attribute__((objc_subclassing_restricted)) "
        + "SWIFT_CLASS_EXTRA\n"
        + "#  define SWIFT_CLASS_NAMED(SWIFT_NAME) "
        + "__attribute__((objc_subclassing_restricted)) "
        + "SWIFT_COMPILE_NAME(SWIFT_NAME) "
        + "SWIFT_CLASS_EXTRA\n"
        + "# else\n"
        + "#  define SWIFT_CLASS(SWIFT_NAME) SWIFT_RUNTIME_NAME(SWIFT_NAME) "
        + "SWIFT_CLASS_EXTRA\n"
        + "#  define SWIFT_CLASS_NAMED(SWIFT_NAME) "
        + "SWIFT_COMPILE_NAME(SWIFT_NAME) "
        + "SWIFT_CLASS_EXTRA\n"
        + "# endif\n"
        + "#endif\n"
        + "#if !defined(SWIFT_RESILIENT_CLASS)\n"
        + "# if __has_attribute(objc_class_stub)\n"
        + "#  define SWIFT_RESILIENT_CLASS(SWIFT_NAME) SWIFT_CLASS(SWIFT_NAME) "
        + "__attribute__((objc_class_stub))\n"
        + "#  define SWIFT_RESILIENT_CLASS_NAMED(SWIFT_NAME) "
        + "__attribute__((objc_class_stub)) "
        + "SWIFT_CLASS_NAMED(SWIFT_NAME)\n"
        + "# else\n"
        + "#  define SWIFT_RESILIENT_CLASS(SWIFT_NAME) "
        + "SWIFT_CLASS(SWIFT_NAME)\n"
        + "#  define SWIFT_RESILIENT_CLASS_NAMED(SWIFT_NAME) "
        + "SWIFT_CLASS_NAMED(SWIFT_NAME)\n"
        + "# endif\n"
        + "#endif\n"
        + "\n"
        + "#if !defined(SWIFT_PROTOCOL)\n"
        + "# define SWIFT_PROTOCOL(SWIFT_NAME) SWIFT_RUNTIME_NAME(SWIFT_NAME) "
        + "SWIFT_PROTOCOL_EXTRA\n"
        + "# define SWIFT_PROTOCOL_NAMED(SWIFT_NAME) "
        + "SWIFT_COMPILE_NAME(SWIFT_NAME) "
        + "SWIFT_PROTOCOL_EXTRA\n"
        + "#endif\n"
        + "\n"
        + "#if !defined(SWIFT_EXTENSION)\n"
        + "# define SWIFT_EXTENSION(M) SWIFT_PASTE(M##_Swift_, __LINE__)\n"
        + "#endif\n"
        + "\n"
        + "#if !defined(OBJC_DESIGNATED_INITIALIZER)\n"
        + "# if __has_attribute(objc_designated_initializer)\n"
        + "#  define OBJC_DESIGNATED_INITIALIZER "
        + "__attribute__((objc_designated_initializer))\n"
        + "# else\n"
        + "#  define OBJC_DESIGNATED_INITIALIZER\n"
        + "# endif\n"
        + "#endif\n"
        + "#if !defined(SWIFT_ENUM_ATTR)\n"
        + "# if defined(__has_attribute) && "
        + "__has_attribute(enum_extensibility)\n"
        + "#  define SWIFT_ENUM_ATTR(_extensibility) "
        + "__attribute__((enum_extensibility(_extensibility)))\n"
        + "# else\n"
        + "#  define SWIFT_ENUM_ATTR(_extensibility)\n"
        + "# endif\n"
        + "#endif\n"
        + "#if !defined(SWIFT_ENUM)\n"
        + "# define SWIFT_ENUM(_type, _name, _extensibility) "
        + "enum _name : _type _name; "
        + "enum SWIFT_ENUM_ATTR(_extensibility) SWIFT_ENUM_EXTRA "
        + "_name : _type\n"
        + "# if __has_feature(generalized_swift_name)\n"
        + "#  define SWIFT_ENUM_NAMED(_type, _name, SWIFT_NAME, "
        + "_extensibility) "
        + "enum _name : _type _name SWIFT_COMPILE_NAME(SWIFT_NAME); "
        + "enum SWIFT_COMPILE_NAME(SWIFT_NAME) "
        + "SWIFT_ENUM_ATTR(_extensibility) SWIFT_ENUM_EXTRA _name : _type\n"
        + "# else\n"
        + "#  define SWIFT_ENUM_NAMED(_type, _name, SWIFT_NAME, "
        + "_extensibility) SWIFT_ENUM(_type, _name, _extensibility)\n"
        + "# endif\n"
        + "#endif\n"
        + "#if !defined(SWIFT_UNAVAILABLE)\n"
        + "# define SWIFT_UNAVAILABLE __attribute__((unavailable))\n"
        + "#endif\n"
        + "#if !defined(SWIFT_UNAVAILABLE_MSG)\n"
        + "# define SWIFT_UNAVAILABLE_MSG(msg) "
        + "__attribute__((unavailable(msg)))\n"
        + "#endif\n"
        + "#if !defined(SWIFT_AVAILABILITY)\n"
        + "# define SWIFT_AVAILABILITY(plat, ...) "
        + "__attribute__((availability(plat, __VA_ARGS__)))\n"
        + "#endif\n"
        + "#if !defined(SWIFT_WEAK_IMPORT)\n"
        + "# define SWIFT_WEAK_IMPORT __attribute__((weak_import))\n"
        + "#endif\n"
        + "#if !defined(SWIFT_DEPRECATED)\n"
        + "# define SWIFT_DEPRECATED __attribute__((deprecated))\n"
        + "#endif\n"
        + "#if !defined(SWIFT_DEPRECATED_MSG)\n"
        + "# define SWIFT_DEPRECATED_MSG(...) "
        + "__attribute__((deprecated(__VA_ARGS__)))\n"
        + "#endif\n"
        + "#if __has_feature(attribute_diagnose_if_objc)\n"
        + "# define SWIFT_DEPRECATED_OBJC(Msg) __attribute__((diagnose_if(1, "
        + "Msg, \"warning\")))\n"
        + "#else\n"
        + "# define SWIFT_DEPRECATED_OBJC(Msg) SWIFT_DEPRECATED_MSG(Msg)\n"
        + "#endif\n",
      // The Objective-C case that defines IBSegueAction.
      ibSegueAction :=
        "#if !defined(IBSegueAction)\n"
        + "# define IBSegueAction\n"
        + "#endif\n",
      // SWIFT_EXTERN: C linkage under C++, plain extern otherwise.
      swiftExtern :=
        "#if !defined(SWIFT_EXTERN)\n"
        + "# if defined(__cplusplus)\n"
        + "#  define SWIFT_EXTERN extern \"C\"\n"
        + "# else\n"
        + "#  define SWIFT_EXTERN extern\n"
        + "# endif\n"
        + "#endif\n",
      // The C++ case that makes swift::Int and swift::UInt available.
      cxxIntAliases :=
        "#if !defined(SWIFT_CXX_INT_DEFINED)\n"
        + "#define SWIFT_CXX_INT_DEFINED\n"
        + "namespace swift {\n"
        + "using Int = ptrdiff_t;\n"
        + "using UInt = size_t;\n"
        + "}\n"
        + "#endif\n",
      // The warnings silenced for the declarations that follow the imports.
      postImportWarnings :=
        "#pragma clang diagnostic ignored \"-Wproperty-attribute-mismatch\"\n"
        + "#pragma clang diagnostic ignored \"-Wduplicate-method-arg\"\n"
        + "#if __has_warning(\"-Wpragma-clang-attribute\")\n"
        + "# pragma clang diagnostic ignored \"-Wpragma-clang-attribute\"\n"
        + "#endif\n"
        + "#pragma clang diagnostic ignored \"-Wunknown-pragmas\"\n"
        + "#pragma clang diagnostic ignored \"-Wnullability\"\n"
        + "#pragma clang diagnostic ignored "
        + "\"-Wdollar-in-identifier-extension\"\n"
        + "\n",
      // The external-source attribute block, up to the module name.
      attributePushOpening :=
        "#if __has_attribute(external_source_symbol)\n"
        + "# pragma push_macro(\"any\")\n"
        + "# undef any\n"
        + "# pragma clang attribute push("
        + "__attribute__((external_source_symbol(language=\"Swift\", "
        + "defined_in=\"",
      // The rest of the attribute block after the module name, up to its `#endif`.
      attributePushClosing :=
        "\",generated_declaration))), "
        + "apply_to=any(function,enum,objc_interface,objc_category,"
        + "objc_protocol))\n"
        + "# pragma pop_macro(\"any\")\n",
      // The end of the external-source attribute block, first in the epilogue, up to its `#endif`.
      attributePop :=
        "#if __has_attribute(external_source_symbol)\n"
        + "# pragma clang attribute pop\n"
    )
  }

  /** The first line: the compiler that generated the header. */
  function GeneratedByLine(version: string): string {
    "// Generated by " + version + "\n"
  }

  /** The include guard opens: test the guard macro, then define it. */
  function GuardOpening(guard: string): string {
    "#ifndef " + guard + "\n" + ("#define " + guard + "\n")
  }

  /** Saves the diagnostic state that the epilogue restores. */
  function DiagnosticPush(): string {
    "#pragma clang diagnostic push\n"
  }

  /** The three vector typedefs (2, 3 and 4 elements) of one SIMD mapping. */
  function SimdTypedef(m: SimdMapping, width: string): string {
    "typedef " + m.scalarType + " swift_" + m.cType + width + "  __attribute__((__ext_vector_type__(" + width + ")));\n"
  }

  function SimdTypedefs(mappings: seq<SimdMapping>): string {
    if mappings == [] then ""
    else
      var m := mappings[0];
      SimdTypedef(m, "2") + SimdTypedef(m, "3") + SimdTypedef(m, "4") + SimdTypedefs(mappings[1..])
  }

  /** The rest of the prologue, section by section, after the guard and the diagnostic push. */
  function PrologueBody(blocks: HeaderBlocks, mappings: seq<SimdMapping>): string {
    blocks.featureTests
    + IfDefined("__OBJC__", blocks.foundationInclude, None)
    + IfDefined("__cplusplus", blocks.cxxIncludes, Some(blocks.cIncludes))
    + IfDefined("__cplusplus", blocks.ptrauthCase, None)
    + (blocks.typedefsOpening + SimdTypedefs(mappings) + blocks.attributeMacros)
    + IfDefined("__OBJC__", blocks.ibSegueAction, None)
    + blocks.swiftExtern
    + MacroDefinition("SWIFT_CALL", "__attribute__((swiftcall))")
    + MacroDefinition("SWIFT_INDIRECT_RESULT", "__attribute__((swift_indirect_result))")
    + MacroDefinition("SWIFT_CONTEXT", "__attribute__((swift_context))")
    + IfDefined("__cplusplus", MacroDefinition("SWIFT_NOEXCEPT", "noexcept"), Some(MacroDefinition("SWIFT_NOEXCEPT", "")))
    + IfDefined("__cplusplus", blocks.cxxIntAliases, None)
  }

  /** The whole prologue: the generator line, the guard, the diagnostic push, then the body. */
  function PrologueText(version: string, guard: string, blocks: HeaderBlocks, mappings: seq<SimdMapping>): string {
    GeneratedByLine(version) + (GuardOpening(guard) + (DiagnosticPush() + PrologueBody(blocks, mappings)))
  }

  /** writePrologue: appends the prologue for the given compiler version, guard macro and SIMD mappings. */
  method WritePrologue(out: Stream, version: string, guard: string, blocks: HeaderBlocks, mappings: seq<SimdMapping>)
    modifies out
    ensures out.text == old(out.text) + PrologueText(version, guard, blocks, mappings)
  {
    ghost var start := out.text;
    out.Write(GeneratedByLine(version));
    out.Write(GuardOpening(guard));
    out.Write(DiagnosticPush());
    ghost var head := out.text;
    out.Write(blocks.featureTests);
    ghost var body := blocks.featureTests;
    EmitObjCConditional(out, blocks.foundationInclude);
    AppendAssoc(head, body, IfDefined("__OBJC__", blocks.foundationInclude, None));
    body := body + IfDefined("__OBJC__", blocks.foundationInclude, None);
    EmitCxxConditional(out, blocks.cxxIncludes, Some(blocks.cIncludes));
    AppendAssoc(head, body, IfDefined("__cplusplus", blocks.cxxIncludes, Some(blocks.cIncludes)));
    body := body + IfDefined("__cplusplus", blocks.cxxIncludes, Some(blocks.cIncludes));
    WritePtrauthPrologue(out, blocks);
    AppendAssoc(head, body, IfDefined("__cplusplus", blocks.ptrauthCase, None));
    body := body + IfDefined("__cplusplus", blocks.ptrauthCase, None);
    out.Write(blocks.typedefsOpening + SimdTypedefs(mappings) + blocks.attributeMacros);
    AppendAssoc(head, body, (blocks.typedefsOpening + SimdTypedefs(mappings) + blocks.attributeMacros));
    body := body + (blocks.typedefsOpening + SimdTypedefs(mappings) + blocks.attributeMacros);
    EmitObjCConditional(out, blocks.ibSegueAction);
    AppendAssoc(head, body, IfDefined("__OBJC__", blocks.ibSegueAction, None));
    body := body + IfDefined("__OBJC__", blocks.ibSegueAction, None);
    out.Write(blocks.swiftExtern);
    AppendAssoc(head, body, blocks.swiftExtern);
    body := body + blocks.swiftExtern;
    EmitMacro(out, "SWIFT_CALL", "__attribute__((swiftcall))");
    AppendAssoc(head, body, MacroDefinition("SWIFT_CALL", "__attribute__((swiftcall))"));
    body := body + MacroDefinition("SWIFT_CALL", "__attribute__((swiftcall))");
    EmitMacro(out, "SWIFT_INDIRECT_RESULT", "__attribute__((swift_indirect_result))");
    AppendAssoc(head, body, MacroDefinition("SWIFT_INDIRECT_RESULT", "__attribute__((swift_indirect_result))"));
    body := body + MacroDefinition("SWIFT_INDIRECT_RESULT", "__attribute__((swift_indirect_result))");
    EmitMacro(out, "SWIFT_CONTEXT", "__attribute__((swift_context))");
    AppendAssoc(head, body, MacroDefinition("SWIFT_CONTEXT", "__attribute__((swift_context))"));
    body := body + MacroDefinition("SWIFT_CONTEXT", "__attribute__((swift_context))");
    EmitCxxConditional(out, MacroDefinition("SWIFT_NOEXCEPT", "noexcept"), Some(MacroDefinition("SWIFT_NOEXCEPT", "")));
    AppendAssoc(head, body, IfDefined("__cplusplus", MacroDefinition("SWIFT_NOEXCEPT", "noexcept"), Some(MacroDefinition("SWIFT_NOEXCEPT", ""))));
    body := body + IfDefined("__cplusplus", MacroDefinition("SWIFT_NOEXCEPT", "noexcept"), Some(MacroDefinition("SWIFT_NOEXCEPT", "")));
    EmitCxxConditional(out, blocks.cxxIntAliases);
    AppendAssoc(head, body, IfDefined("__cplusplus", blocks.cxxIntAliases, None));
    body := body + IfDefined("__cplusplus", blocks.cxxIntAliases, None);
    assert body == PrologueBody(blocks, mappings);
    ghost var g, o, d := GeneratedByLine(version), GuardOpening(guard), DiagnosticPush();
    AppendAssoc(start, g, o);
    AppendAssoc(start, g + o, d);
    AppendAssoc(g, o, d);
    AppendAssoc(start, g + (o + d), body);
    AppendAssoc(g, o + d, body);
    AppendAssoc(o, d, body);
  }

  /** writePtrauthPrologue: the pointer-authentication block, for C++ only. */
  method WritePtrauthPrologue(out: Stream, blocks: HeaderBlocks)
    modifies out
    ensures out.text == old(out.text) + IfDefined("__cplusplus", blocks.ptrauthCase, None)
  {
    EmitCxxConditional(out, blocks.ptrauthCase);
  }

  lemma DiagnosticPushLine(rest: string)
    ensures Lines(DiagnosticPush() + rest) == ["#pragma clang diagnostic push"] + Lines(rest)
  {
    assert "#pragma clang diagnostic push" + "\n" == DiagnosticPush();
    LineThen("#pragma clang diagnostic push", rest);
  }

  /** A line made of a fixed prefix and a name that holds no newline. */
  lemma PrefixedLine(prefix: string, name: string, rest: string)
    requires '\n' !in prefix && '\n' !in name
    ensures Lines(prefix + name + "\n" + rest) == [prefix + name] + Lines(rest)
  {
    NoNewlineConcat(prefix, name);
    LineThen(prefix + name, rest);
  }

  lemma GuardOpeningLines(guard: string, rest: string)
    requires '\n' !in guard
    ensures Lines(GuardOpening(guard) + rest) == ["#ifndef " + guard, "#define " + guard] + Lines(rest)
  {
    AppendAssoc("#ifndef " + guard + "\n", "#define " + guard + "\n", rest);
    PrefixedLine("#ifndef ", guard, "#define " + guard + "\n" + rest);
    PrefixedLine("#define ", guard, rest);
  }

  /** The guard lines and the diagnostic push, whatever follows them. */
  lemma GuardAndPushLines(guard: string, body: string)
    requires '\n' !in guard
    ensures Lines(GuardOpening(guard) + (DiagnosticPush() + body)) ==
      ["#ifndef " + guard, "#define " + guard, "#pragma clang diagnostic push"] + Lines(body)
  {
    GuardOpeningLines(guard, DiagnosticPush() + body);
    DiagnosticPushLine(body);
  }

  /** Whatever follows it, the prologue's head is these four lines. */
  lemma PrologueHeadLines(version: string, guard: string, body: string)
    requires '\n' !in version && '\n' !in guard
    ensures Lines(GeneratedByLine(version) + (GuardOpening(guard) + (DiagnosticPush() + body))) ==
      ["// Generated by " + version, "#ifndef " + guard, "#define " + guard, "#pragma clang diagnostic push"]
      + Lines(body)
  {
    PrefixedLine("// Generated by ", version, GuardOpening(guard) + (DiagnosticPush() + body));
    GuardAndPushLines(guard, body);
  }

  /** The prologue opens with the generator line, the guard test, the guard definition and the diagnostic push. */
  lemma PrologueOpening(version: string, guard: string, blocks: HeaderBlocks, mappings: seq<SimdMapping>)
    requires '\n' !in version && '\n' !in guard
    ensures Lines(PrologueText(version, guard, blocks, mappings)) ==
      ["// Generated by " + version, "#ifndef " + guard, "#define " + guard, "#pragma clang diagnostic push"]
      + Lines(PrologueBody(blocks, mappings))
  {
    PrologueHeadLines(version, guard, PrologueBody(blocks, mappings));
  }

  /** The prologue ends at a line boundary, so the sections after it start on lines of their own. */
  lemma PrologueLineTerminated(version: string, guard: string, blocks: HeaderBlocks, mappings: seq<SimdMapping>)
    ensures LineTerminated(PrologueText(version, guard, blocks, mappings))
  {
    var last := IfDefined("__cplusplus", blocks.cxxIntAliases, None);
    IfDefinedLineTerminated("__cplusplus", blocks.cxxIntAliases, None);
    var body := PrologueBody(blocks, mappings);
    assert body == body[..|body| - |last|] + last;
    LineTerminatedAppend(body[..|body| - |last|], last);
    LineTerminatedAppend(DiagnosticPush(), body);
    LineTerminatedAppend(GuardOpening(guard), DiagnosticPush() + body);
    LineTerminatedAppend(GeneratedByLine(version), GuardOpening(guard) + (DiagnosticPush() + body));
  }

  /**
   * The post-import prologue: the silenced warnings, then the block that attributes every
   * following declaration to the Swift module `name` (`defined_in="<name>"`).
   */
  function PostImportPrologueText(blocks: HeaderBlocks, name: string): string {
    blocks.postImportWarnings + (blocks.attributePushOpening + name + blocks.attributePushClosing + "#endif\n\n")
  }

  /** writePostImportPrologue: appends the post-import prologue for the module `name`. */
  method WritePostImportPrologue(out: Stream, blocks: HeaderBlocks, name: string)
    modifies out
    ensures out.text == old(out.text) + PostImportPrologueText(blocks, name)
  {
    ghost var start := out.text;
    out.Write(blocks.postImportWarnings + blocks.attributePushOpening);
    out.Write(name);
    out.Write(blocks.attributePushClosing + "#endif\n\n");
    ghost var w, o, c := blocks.postImportWarnings, blocks.attributePushOpening, blocks.attributePushClosing + "#endif\n\n";
    AppendAssoc(start, w + o, name);
    AppendAssoc(start, w + o + name, c);
    AppendAssoc(w, o, name);
    AppendAssoc(w, o + name, c);
    AppendAssoc(o, name, blocks.attributePushClosing);
    AppendAssoc(o + name, blocks.attributePushClosing, "#endif\n\n");
  }

  /** The closing text: the attribute block's pop, the diagnostic pop, and the `#endif` of the include guard. */
  function EpilogueText(blocks: HeaderBlocks): string {
    blocks.attributePop + "#endif\n" + ("#pragma clang diagnostic pop\n" + "#endif\n")
  }

  /** writeEpilogue. */
  method WriteEpilogue(out: Stream, blocks: HeaderBlocks)
    modifies out
    ensures out.text == old(out.text) + EpilogueText(blocks)
  {
    out.Write(blocks.attributePop + "#endif\n" + "#pragma clang diagnostic pop\n" + "#endif\n");
    AppendAssoc(blocks.attributePop + "#endif\n", "#pragma clang diagnostic pop\n", "#endif\n");
  }

  lemma DiagnosticPopLines()
    ensures Lines("#pragma clang diagnostic pop\n" + "#endif\n") == ["#pragma clang diagnostic pop", "#endif"]
  {
    assert "#pragma clang diagnostic pop" + "\n" == "#pragma clang diagnostic pop\n";
    LineThen("#pragma clang diagnostic pop", "#endif\n");
    EndifLine();
  }

  /** The epilogue's last two lines pop the diagnostic state and close the include guard. */
  lemma EpilogueClosing(blocks: HeaderBlocks)
    ensures var lines := Lines(EpilogueText(blocks));
      |lines| >= 2 && lines[|lines| - 2..] == ["#pragma clang diagnostic pop", "#endif"]
  {
    LineTerminatedAppend(blocks.attributePop, "#endif\n");
    LinesAppend(blocks.attributePop + "#endif\n", "#pragma clang diagnostic pop\n" + "#endif\n");
    DiagnosticPopLines();
  }

  /** The post-import prologue ends with an empty line, so what follows starts a line of its own. */
  lemma PostImportPrologueLineTerminated(blocks: HeaderBlocks, name: string)
    ensures LineTerminated(PostImportPrologueText(blocks, name)) && PostImportPrologueText(blocks, name) != []
  {
    var o := blocks.attributePushOpening + name + blocks.attributePushClosing;
    LineTerminatedAppend(o, "#endif\n\n");
    LineTerminatedAppend(blocks.postImportWarnings, o + "#endif\n\n");
  }
}
