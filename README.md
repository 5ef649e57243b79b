# Compatibility header assembly (PrintAsClang), modelled in Dafny

When the Swift compiler emits an Objective-C / C / C++ compatibility header for a module,
`printAsClangHeader` writes it into a `raw_ostream` in six sections:

1. The prologue. It holds the generator comment, the include guard derived from the
   module name, the diagnostic push, the feature-test fallbacks, the includes, the typedefs
   and the attribute macros.
2. The module's imports, under `#if defined(__OBJC__)`.
3. The post-import prologue, which attributes the following declarations to the module.
4. The Objective-C declarations, under `#if defined(__OBJC__)`.
5. The C++ declarations, under `#if defined(__cplusplus)`, present only when they are exposed.
6. The epilogue, which pops the attribute block and the diagnostics and closes the guard.

The imports are one `@import` per imported module, sorted by `compareImportModulesByName`
and listed once each. The module's own underlying Clang module is folded into a trailing
`#import` of its umbrella header, or of the bridging header when there is one.

The model is split along the source's helpers:

| module | file | models |
|---|---|---|
| `RawOstream` | raw_ostream.dfy | the output stream as a class whose `text` is only appended to |
| `Emitters` | emitters.dfy | `emitCxxConditional`, `emitObjCConditional`, the `emitMacro` lambda |
| `Prologue` | prologue.dfy | `writePrologue`, `writePtrauthPrologue`, `writePostImportPrologue`, `writeEpilogue` |
| `StringOrder` | string_order.dfy | `StringRef::compare` and `std::lexicographical_compare` as three-way lexicographic orders |
| `ImportOrder` | import_order.dfy | the import-set entries, `compareImportModulesByName`, `array_pod_sort` with it |
| `ImportWriter` | import_writer.dfy | `writeImports` and its `isUnderlyingModule` lambda |
| `ClangHeader` | clang_header.dfy | `computeMacroGuard` and the text of the whole header |
| `HeaderWriter` | header_writer.dfy | `printAsClangHeader` itself |
| `HeaderLayout` | header_layout.dfy | the header read as lines: section order, guard frame, exposure gating |
| `Directives` | directives.dfy | nesting depth of `#if` / `#endif` lines, and the balance of every conditional the emitters write |
| `HeaderBalance` | header_balance.dfy | the balance of the import block and of the sections written under a language macro |
| `TextLines`, `Wrappers` | text_lines.dfy, wrappers.dfy | splitting text into lines; `Option` |

Each writer that appends to the stream is a method. Its postcondition says the stream's
new text is the old text followed by a function of the inputs. The properties are proved
about those functions. The central fact about the comparator is
`ImportOrder.CompareIsFullNameOrder`: it orders entries exactly as the lexicographic
order of their full dotted names, with a Swift module counted as a one-segment name.
The rest of the import reasoning builds on it:
- the sort gives strictly ascending names;
- the deduplicating loop prints each imported name once, in ascending order;
- the import block is therefore fully determined by the import set, whatever order the
  set is iterated in.

Four points where the code is easy to misread:

- Two Clang submodules are compared by their full names, outermost segment first. Each
  path is read through the reverse iterator and then compared from its end, so the two
  reversals cancel.
- The C++ section is always written. `emitCxxConditional` is called unconditionally and
  exposure is tested inside its callback, so with exposure off the header holds an empty
  `#if defined(__cplusplus)` / `#endif` pair.
- Most fixed macros are guarded by `#if !defined(NAME)` (for example `SWIFT_TYPEDEFS` at
  `lib/PrintAsClang/PrintAsClang.cpp:116`, `SWIFT_CLASS` at
  `lib/PrintAsClang/PrintAsClang.cpp:198` and `SWIFT_EXTERN` at
  `lib/PrintAsClang/PrintAsClang.cpp:307`), but not all of them. The attribute macros at
  `lib/PrintAsClang/PrintAsClang.cpp:150-188` are chosen by `#if __has_attribute(...)` /
  `#else`. `SWIFT_DEPRECATED_OBJC` at `lib/PrintAsClang/PrintAsClang.cpp:296-301` is chosen
  by `#if __has_feature(attribute_diagnose_if_objc)` / `#else`. The fixed text is an input
  to the model, so the guard shape is proved only for the four definitions written through
  `emitMacro` (`Emitters.MacroDefinitionLines`).
- The SIMD block writes three typedefs per mapping, for 2, 3 and 4 lanes. The `4` in the
  `static_assert` is the largest lane count, not a count of widths.

## Model

| member | source | states |
|---|---|---|
| Emitters.EmitCxxConditional | lib/PrintAsClang/PrintAsClang.cpp:30-40 | appends `#if defined(__cplusplus)`, the C++ case, `#else` and the C case only when one is given, then `#endif` |
| Emitters.EmitObjCConditional | lib/PrintAsClang/PrintAsClang.cpp:42-52 | the same shape under `#if defined(__OBJC__)`, with the non-Objective-C case only when one is given |
| Emitters.IfDefinedLines | lib/PrintAsClang/PrintAsClang.cpp:30-52 | as lines, a conditional is its `#if` line, the case's lines, `#else` and the alternative's lines exactly when an alternative is given, then `#endif` |
| Emitters.IfDefinedLineTerminated | lib/PrintAsClang/PrintAsClang.cpp:30-52 | a conditional is never empty and ends with a newline, so the next section starts on its own line |
| Emitters.EmitMacro | lib/PrintAsClang/PrintAsClang.cpp:314-318 | appends the self-guarded definition of `name` as `value`, with an empty value by default |
| Emitters.MacroDefinitionLines | lib/PrintAsClang/PrintAsClang.cpp:314-318 | the definition is exactly three lines: `#if !defined(NAME)`, `# define NAME VALUE`, `#endif`, so an earlier definition wins |
| Prologue.WritePtrauthPrologue | lib/PrintAsClang/PrintAsClang.cpp:54-64 | appends the pointer-authentication block, C++ only, with no alternative |
| Prologue.WritePrologue | lib/PrintAsClang/PrintAsClang.cpp:66-337 | appends the generator line, the guard test and definition, the diagnostic push, then each block in source order under its conditional: the Foundation include for Objective-C; the C++ or C standard includes; the pointer-auth block; the typedefs with three SIMD typedefs per mapping; the attribute macros; `IBSegueAction` for Objective-C; `SWIFT_EXTERN`; the four `emitMacro` definitions, `SWIFT_NOEXCEPT` chosen by language; the C++ integer aliases |
| Prologue.PrologueOpening | lib/PrintAsClang/PrintAsClang.cpp:69-76 | the prologue's first four lines are `// Generated by <version>`, `#ifndef G`, `#define G`, `#pragma clang diagnostic push` |
| Prologue.PrologueLineTerminated | lib/PrintAsClang/PrintAsClang.cpp:66-337 | the prologue ends at a line boundary |
| Prologue.WritePostImportPrologue | lib/PrintAsClang/PrintAsClang.cpp:441-464 | appends the silenced warnings and the attribute block naming the module in `defined_in=`, ending with `#endif` and an empty line |
| Prologue.PostImportPrologueLineTerminated | lib/PrintAsClang/PrintAsClang.cpp:441-464 | the post-import prologue is non-empty and ends at a line boundary |
| Prologue.WriteEpilogue | lib/PrintAsClang/PrintAsClang.cpp:466-474 | appends the attribute pop block, the diagnostic pop and the guard's `#endif` |
| Prologue.EpilogueClosing | lib/PrintAsClang/PrintAsClang.cpp:466-474 | the epilogue's last two lines are `#pragma clang diagnostic pop` and `#endif` |
| StringOrder.StringCompareIsOrder | lib/PrintAsClang/PrintAsClang.cpp:348 | name comparison is a three-way order: results in -1..1, 0 exactly on equal names, antisymmetric, transitive |
| StringOrder.StringCompare | lib/PrintAsClang/PrintAsClang.cpp:348 | returns -1, 0 or 1; 0 exactly on equal names; negative exactly when the first name is a proper prefix of the second or has the smaller character at the first difference |
| StringOrder.LexCompareMeansPrecedes | lib/PrintAsClang/PrintAsClang.cpp:375-378 | a negative lexicographic comparison means exactly that the first is a proper prefix or is smaller at the first difference, as `lexicographical_compare` decides |
| StringOrder.PathCompareIsOrder | lib/PrintAsClang/PrintAsClang.cpp:375-378 | comparing full names segment by segment is a three-way order |
| StringOrder.ReverseReverse | lib/PrintAsClang/PrintAsClang.cpp:368-378 | reading a reversed path back from its end gives the path again |
| ImportOrder.ReverseFullName | lib/PrintAsClang/PrintAsClang.cpp:368-371 | the reverse iterator yields the full name's segments innermost first: as many as the name has, position i holding segment n-1-i of an n-segment name |
| ImportOrder.CompareImportModulesByName | lib/PrintAsClang/PrintAsClang.cpp:339-382 | the comparator returns -1, 0 or 1; it requires what the source asserts: Clang entries are submodules and distinct ones have distinct full names |
| ImportOrder.CompareIsFullNameOrder | lib/PrintAsClang/PrintAsClang.cpp:339-382 | on every pair of entries the comparator equals the lexicographic comparison of full dotted names, a Swift module being a one-segment name |
| ImportOrder.CompareSwiftModules | lib/PrintAsClang/PrintAsClang.cpp:347-348 | two Swift modules: negative, zero or positive exactly when the first name precedes, equals or follows the second |
| ImportOrder.CompareMixed | lib/PrintAsClang/PrintAsClang.cpp:344-362 | a Swift module against a submodule: swapping the arguments negates the answer, the pair never ties, and the submodule comes first exactly when its top-level name precedes the module's name |
| ImportOrder.CompareClangSubmodules | lib/PrintAsClang/PrintAsClang.cpp:364-381 | two distinct submodules: -1 exactly when the first full name, outermost first, precedes the second, otherwise 1, never 0 |
| ImportOrder.CompareIsStrictWeakOrder | lib/PrintAsClang/PrintAsClang.cpp:339-382 | the comparator is antisymmetric, and its "before" and "tie" relations are transitive, so sorting by it is well defined |
| ImportOrder.InsertByName | lib/PrintAsClang/PrintAsClang.cpp:396-397 | inserting a new entry into a sorted list of distinct entries gives a sorted list holding the old entries and the new one |
| ImportOrder.ArrayPodSort | lib/PrintAsClang/PrintAsClang.cpp:396-397 | the sort's result is a permutation of its input, sorted by the comparator |
| ImportOrder.AscendingUnique | lib/PrintAsClang/PrintAsClang.cpp:393 | two strictly ascending lists of the same names are equal, so the sorted output does not depend on the set's iteration order |
| ImportOrder.Ascending | lib/PrintAsClang/PrintAsClang.cpp:393-397 | the names of a set listed once each, strictly ascending |
| ImportWriter.IsUnderlyingModule | lib/PrintAsClang/PrintAsClang.cpp:399-406 | without a bridging header the module being printed is never its own underlying module and only a module object with its name can be; with a bridging header but no module made for it, no import is |
| ImportWriter.SplitJoinDotted | lib/PrintAsClang/PrintAsClang.cpp:425 | splitting the printed dotted name at its dots gives back the full name's segments, for any non-empty name whose segments hold no dot, so distinct full names print as distinct dotted names |
| ImportWriter.SetToSequence | lib/PrintAsClang/PrintAsClang.cpp:394-395 | the vector built from the set holds each entry once |
| ImportWriter.SortImports | lib/PrintAsClang/PrintAsClang.cpp:394-397 | the sorted vector holds exactly the set's entries, distinct, with full names never decreasing |
| ImportWriter.WriteImportEntry | lib/PrintAsClang/PrintAsClang.cpp:412-427 | one loop step: the underlying module is only noted; another Swift module is imported and its name recorded only the first time the name is seen; a Clang submodule is always imported by its dotted name |
| ImportWriter.WriteDottedImport | lib/PrintAsClang/PrintAsClang.cpp:424-426 | appends `@import <dotted full name>;` and a newline |
| ImportWriter.WriteImportLines | lib/PrintAsClang/PrintAsClang.cpp:409-428 | the loop writes one `@import` line per non-underlying name in strictly ascending order, each name once; it reports whether the underlying module was among the entries |
| ImportWriter.PrintedIsAscending | lib/PrintAsClang/PrintAsClang.cpp:408-428 | on sorted entries the names the loop prints are strictly ascending and are exactly the non-underlying entries' names |
| ImportWriter.PrintedInImportOrder | lib/PrintAsClang/PrintAsClang.cpp:408-428 | the loop's printed names equal the ascending list of the entries' non-underlying names |
| ImportWriter.WriteUnderlyingImport | lib/PrintAsClang/PrintAsClang.cpp:432-438 | when the underlying module was seen, appends `#import <M/M.h>` (no bridging header) or `#import "<bridging header>"`, then an empty line; otherwise nothing |
| ImportWriter.WriteImports | lib/PrintAsClang/PrintAsClang.cpp:384-439 | appends the modules test and the warning suppression, the `@import` lines for the set's non-underlying names in ascending order, `#endif` and an empty line, then the fallback `#import` exactly when an underlying module is in the set |
| ImportWriter.ModulesOpeningLines | lib/PrintAsClang/PrintAsClang.cpp:387-391 | the block opens with `#if __has_feature(modules)`, the `__has_warning` test, the pragma and `#endif` |
| ImportWriter.UnderlyingImportLines | lib/PrintAsClang/PrintAsClang.cpp:432-438 | the fallback is the `#import` line followed by an empty line |
| ImportWriter.ImportsBlockLines | lib/PrintAsClang/PrintAsClang.cpp:384-439 | the block as lines: the four opening lines, one `@import` line per imported name in ascending order, `#endif` and an empty line, then the fallback line and an empty line exactly when the underlying module was folded |
| ImportWriter.OwnNameFolded | lib/PrintAsClang/PrintAsClang.cpp:399-438 | without a bridging header, and when the module being printed is not among its own imports (as for the import set its printers collect), the module's own name never gets an `@import`, and the umbrella `#import <M/M.h>` is written exactly when another module object with its name is imported |
| ImportWriter.UmbrellaExample | lib/PrintAsClang/PrintAsClang.cpp:399-438 | module Foo importing Bar and its underlying Foo: one `@import Bar;`, then the umbrella `#import` |
| ImportWriter.BridgingHeaderExample | lib/PrintAsClang/PrintAsClang.cpp:399-438 | with a bridging header and no module made for it, nothing is folded: `@import Bar;`, `@import Foo;`, no `#import` |
| ImportWriter.OrderExample | lib/PrintAsClang/PrintAsClang.cpp:393-428 | two module objects named UIKit are imported once, and Dispatch sorts before its submodule Dispatch.Base |
| ClangHeader.Upper | lib/PrintAsClang/PrintAsClang.cpp:477 | upper-casing keeps the length and maps each character through ASCII upper-casing |
| ClangHeader.UpperIsUpper | lib/PrintAsClang/PrintAsClang.cpp:477 | the result holds no lower-case ASCII letter, and upper-casing again changes nothing |
| ClangHeader.ComputeMacroGuard | lib/PrintAsClang/PrintAsClang.cpp:476-478 | the guard is the name with each character ASCII-upper-cased in place, followed by `_SWIFT_H`, 8 characters longer than the name |
| ClangHeader.GuardShape | lib/PrintAsClang/PrintAsClang.cpp:476-478 | the guard holds no lower-case letter, and is one line when the name is |
| ClangHeader.GuardCollision | lib/PrintAsClang/PrintAsClang.cpp:476-478 | two modules get the same guard exactly when their names agree up to ASCII case |
| ClangHeader.CxxSection | lib/PrintAsClang/PrintAsClang.cpp:507-512 | with exposure on, the C++ declarations verbatim between `#if defined(__cplusplus)` and `#endif`; with it off, those two lines alone |
| HeaderWriter.PrintAsClangHeader | lib/PrintAsClang/PrintAsClang.cpp:490-516 | reports no failure and appends the whole header: prologue with the module's guard, imports under `__OBJC__`, post-import prologue, Objective-C declarations under `__OBJC__`, the C++ section, epilogue |
| HeaderWriter.WriteHead | lib/PrintAsClang/PrintAsClang.cpp:502-504 | appends the prologue with the computed guard, then the imports block wrapped for Objective-C |
| HeaderWriter.WriteImportsSection | lib/PrintAsClang/PrintAsClang.cpp:503-504 | appends the output of `writeImports` inside `#if defined(__OBJC__)` … `#endif` |
| HeaderWriter.WriteTail | lib/PrintAsClang/PrintAsClang.cpp:505-513 | appends the post-import prologue, the Objective-C declarations wrapped for Objective-C, the C++ section with the declarations only when exposed, then the epilogue |
| HeaderLayout.HeadLines | lib/PrintAsClang/PrintAsClang.cpp:502-504 | the head as lines: the prologue's lines, then `#if defined(__OBJC__)`, the import block's lines, `#endif` |
| HeaderLayout.TailLines | lib/PrintAsClang/PrintAsClang.cpp:505-513 | the tail as lines: post-import prologue; Objective-C declarations between `#if defined(__OBJC__)` and `#endif`; C++ declarations, only when exposed, between `#if defined(__cplusplus)` and `#endif`; epilogue |
| HeaderLayout.HeaderLines | lib/PrintAsClang/PrintAsClang.cpp:490-516 | the header's lines are the six sections' lines in source order, with none reordered or merged |
| HeaderLayout.HeadOpening | lib/PrintAsClang/PrintAsClang.cpp:502 | the header starts with the generator line, `#ifndef G`, `#define G` and the diagnostic push, G being the computed guard |
| HeaderLayout.TailClosing | lib/PrintAsClang/PrintAsClang.cpp:513 | the header ends with the diagnostic pop and the guard's `#endif` |
| HeaderLayout.HeaderFrame | lib/PrintAsClang/PrintAsClang.cpp:490-516 | the whole header opens the guard and pushes diagnostics in its first four lines, and pops them and closes the guard in its last two |
| HeaderLayout.ExposureGating | lib/PrintAsClang/PrintAsClang.cpp:507-512 | the C++ section is `#if defined(__cplusplus)`, the C++ lines only when exposed, `#endif`; with exposure off, the header does not depend on the C++ declarations at all |
| Directives.IfDefinedBalanced | lib/PrintAsClang/PrintAsClang.cpp:30-52 | a conditional the emitters write closes every level it opens and never closes one it did not open, when its cases do the same |
| HeaderBalance.ImportsBlockBalanced | lib/PrintAsClang/PrintAsClang.cpp:384-439 | the import block is line-terminated and balanced: the `#endif` after the `@import` lines closes the modules feature test, and the warning test is closed inside it |
| HeaderBalance.SectionsBalanced | lib/PrintAsClang/PrintAsClang.cpp:502-512 | the imports and the Objective-C declarations under `__OBJC__`, and the C++ section under `__cplusplus` whether exposed or not, are balanced when the declarations are |

## Left out

- The SIMD mapping list comes from `swift/ClangImporter/SIMDMappedTypes.def`, which is not part of this model. It is an input `mappings`, and each entry gives the 2-, 3- and 4-lane typedefs.
- The fixed literal text of the prologue, post-import prologue and epilogue is a record of blocks, `Prologue.HeaderBlocks`. `Prologue.SourceBlocks()` holds the text the source writes. The writers and `HeaderWriter.PrintAsClangHeader` are proved for any blocks, so nothing is proved about the wording inside a block, such as each fallback macro's own guard.
- `version::getSwiftFullVersion` is not modelled. The version label is an input string.
- `ClangImporter::getImportedHeaderModule` is not modelled. It is the input `importedHeaderModule`, the identity of the module made for the bridging header, if any. Module object identity is a number `id`.
- `printModuleContentsAsObjC` and `printModuleContentsAsCxx` are not part of this model. Their outputs are inputs: the import set, `objcBody` and `cxxBody`. The separate import set that `getModuleContentsCxxString` collects and discards is not modelled.
- `SwiftToClangInteropContext`, `IRGenOptions` and `PrettyStackTraceString` do not affect the text and are left out.
- `raw_ostream` is an append-only `text`. Buffering, flushing and write errors are not modelled. `printAsClangHeader` always reports success, as the source does.
- The source's `assert`s become preconditions. Every Clang entry is a submodule (`IsSubmoduleOrSwift`). Two distinct Clang entries have distinct full names, which is `DistinctFullNames` on the comparator and holds for a set of entries.
- ImportOrder.ArrayPodSort: the library routine is modelled as a function (an insertion sort) with the contract "sorted permutation", not as an in-place quicksort. The sorted vector is unique only up to the order of module objects that share a name: two such objects tie under the comparator, and `array_pod_sort` is not stable. The written text does not depend on that order, because `ImportWriter.WriteImportLines` requires only distinct entries whose names never decrease, and its output depends only on the set of their names.
- HeaderLayout.HeaderFrame: the include guard's frame is stated by position (the first four and the last two lines), not as nesting. Nesting is proved for every conditional the emitters write (`Directives.IfDefinedBalanced`), for the import block and for the three sections under a language macro (`HeaderBalance.SectionsBalanced`). It is not proved for the whole header, because the `#ifndef` of the guard opens in the prologue and closes in the epilogue, and the fixed blocks in between are an input whose wording is not reasoned about.
- The set's iteration order is any order (`SetToSequence` picks entries arbitrarily). The proved results do not depend on it.
- `writeImports` writes through a lambda passed to `emitObjCConditional`. The model runs it into a separate stream and wraps that text, which gives the same output.
- `StringRef::upper` is modelled on ASCII letters only, like the LLVM routine. Identifiers are sequences of characters compared by code point. That agrees with LLVM's byte-wise comparison of their UTF-8 encodings, because UTF-8 preserves code-point order.
- ImportOrder.CompareImportModulesByName: two Swift modules are compared with `StringRef::compare` on their names, which holds for every non-empty name. `Identifier::compare`, called at `lib/PrintAsClang/PrintAsClang.cpp:348`, is not part of this model; it orders an empty identifier after every other, where the model orders `""` first. A module's name is never empty, so no header differs.
- ImportOrder.CompareSwiftModules: states the order of two Swift module names as `StringRef::compare` gives it, which agrees with `Identifier::compare` on non-empty names only.
- ImportOrder.CompareIsFullNameOrder: the Swift-module cases rest on the same branch, so the equality with the full-name order is what the source computes for non-empty module names.
- Identifiers in `seenImports` are compared by their text, which is what uniquing an `Identifier` amounts to.
