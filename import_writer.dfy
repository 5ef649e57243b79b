/**
 * writeImports: the Objective-C modules block of the header. Every imported module is
 * listed once as an `@import` directive, in the comparator's order, inside a
 * `__has_feature(modules)` test; the module's own underlying Clang module is folded
 * into one `#import` of its umbrella header (or of the bridging header) after the block.
 */
module ImportWriter {
  import opened Wrappers
  import opened RawOstream
  import opened StringOrder
  import opened ImportOrder
  import opened Emitters
  import opened TextLines

  /**
   * isUnderlyingModule. Without a bridging header, an import is the underlying module when
   * it is another module object with the name of the module being printed; with one, when
   * it is the module the Clang importer made for the bridging header (`importedHeaderModule`,
   * the id of that module if there is one).
   */
  predicate IsUnderlyingModule(imported: ModuleDecl, m: ModuleDecl, bridgingHeader: string, importedHeaderModule: Option<nat>): (r: bool)
    // the module being printed is never its own underlying module when there is no bridging header
    ensures bridgingHeader == [] && imported.id == m.id ==> !r
    // without a bridging header, only a module object with the same name can be the underlying one
    ensures bridgingHeader == [] && imported.name != m.name ==> !r
    // with a bridging header but no module made for it, nothing is folded
    ensures bridgingHeader != [] && importedHeaderModule.None? ==> !r
  {
    if bridgingHeader == [] then imported.id != m.id && imported.name == m.name
    else importedHeaderModule == Some(imported.id)
  }

  /** An entry of the import set that is folded into the trailing `#import`. */
  predicate IsUnderlyingEntry(x: ImportModule, m: ModuleDecl, bridgingHeader: string, importedHeaderModule: Option<nat>) {
    x.SwiftModule? && IsUnderlyingModule(x.decl, m, bridgingHeader, importedHeaderModule)
  }

  /** The full names that get an `@import`: those of every entry that is not the underlying module. */
  ghost function ImportedPaths(imports: set<ImportModule>, m: ModuleDecl, bridgingHeader: string, importedHeaderModule: Option<nat>): set<seq<string>> {
    set x | x in imports && !IsUnderlyingEntry(x, m, bridgingHeader, importedHeaderModule) :: FullName(x)
  }

  /** Some entry of the import set is the underlying module. */
  ghost predicate FoldsUnderlying(imports: set<ImportModule>, m: ModuleDecl, bridgingHeader: string, importedHeaderModule: Option<nat>) {
    exists x | x in imports :: IsUnderlyingEntry(x, m, bridgingHeader, importedHeaderModule)
  }

  /** The segments of a full name separated by dots, outermost first. */
  function JoinDotted(p: seq<string>): (s: string)
    ensures p == [] ==> s == []
    ensures |p| == 1 ==> s == p[0]
  {
    if p == [] then []
    else if |p| == 1 then p[0]
    else p[0] + "." + JoinDotted(p[1..])
  }

  /** The segments of a dotted name: the text between consecutive dots, so `k` dots give `k + 1` segments. */
  function SplitDots(s: string): (r: seq<string>)
    ensures r != []
    ensures '.' !in s ==> r == [s]
  {
    if s == [] then [""]
    else
      var rest := SplitDots(s[1..]);
      if s[0] == '.' then [""] + rest
      else assert s == [s[0]] + s[1..]; [[s[0]] + rest[0]] + rest[1..]
  }

  /** Splitting after a dot-free first segment yields that segment, then the split of the rest. */
  lemma {:induction false} SplitAfterSegment(a: string, b: string)
    requires '.' !in a
    ensures SplitDots(a + "." + b) == [a] + SplitDots(b)
  {
    if a == [] {
      assert (a + "." + b)[1..] == b;
    } else {
      assert (a + "." + b)[1..] == a[1..] + "." + b;
      SplitAfterSegment(a[1..], b);
      assert [a[0]] + a[1..] == a;
    }
  }

  /** Joining dot-free segments with dots and splitting at the dots gives the segments back. */
  lemma {:induction false} SplitJoinDotted(p: seq<string>)
    requires p != []
    requires forall k | 0 <= k < |p| :: '.' !in p[k]
    ensures SplitDots(JoinDotted(p)) == p
  {
    if |p| > 1 {
      SplitJoinDotted(p[1..]);
      SplitAfterSegment(p[0], JoinDotted(p[1..]));
      assert [p[0]] + p[1..] == p;
    }
  }

  /** `@import <dotted name>;`, without its newline. */
  function ImportDirective(p: seq<string>): string {
    "@import " + JoinDotted(p) + ";"
  }

  /** The `@import` lines for a list of full names, in list order. */
  function ImportLines(ps: seq<seq<string>>): string {
    if ps == [] then []
    else ImportLines(ps[..|ps| - 1]) + (ImportDirective(ps[|ps| - 1]) + "\n")
  }

  /** The opening of the block: the modules feature test, then silencing the warning about `@import` in framework headers. */
  function ModulesOpening(): string {
    FeatureTestLine() + "\n" + (WarningTestLine() + "\n" + (WarningIgnoredLine() + "\n" + "#endif\n"))
  }

  function FeatureTestLine(): string {
    "#if __has_feature(modules)"
  }

  /** The quoted name of the warning about `@import` in framework headers. */
  function WarningFlag(): string {
    "\"-Watimport-in-framework-header\""
  }

  function WarningTestLine(): string {
    "#if __has_warning(" + WarningFlag() + ")"
  }

  function WarningIgnoredLine(): string {
    "#pragma clang diagnostic ignored " + WarningFlag()
  }

  /** The closing of the block: the `#endif` of the feature test and an empty line. */
  function ModulesClosing(): string {
    "#endif" + "\n" + "\n"
  }

  /** The fallback for the underlying module: its umbrella header, or the bridging header when there is one. */
  function FallbackLine(m: ModuleDecl, bridgingHeader: string): string {
    if bridgingHeader == [] then "#import <" + m.name + "/" + m.name + ".h>"
    else "#import \"" + bridgingHeader + "\""
  }

  /** The fallback line and an empty line after it. */
  function UnderlyingImport(m: ModuleDecl, bridgingHeader: string): string {
    FallbackLine(m, bridgingHeader) + "\n" + "\n"
  }

  /** The whole output of writeImports for an import set. */
  ghost function ImportsBlock(imports: set<ImportModule>, m: ModuleDecl, bridgingHeader: string, importedHeaderModule: Option<nat>): string {
    ModulesOpening()
    + ImportLines(Ascending(ImportedPaths(imports, m, bridgingHeader, importedHeaderModule)))
    + ModulesClosing()
    + (if FoldsUnderlying(imports, m, bridgingHeader, importedHeaderModule) then UnderlyingImport(m, bridgingHeader) else "")
  }

  /** The SmallVector built from the import set: every entry once, in the set's iteration order. */
  method SetToSequence(imports: set<ImportModule>) returns (xs: seq<ImportModule>)
    ensures multiset(xs) == multiset(imports)
    ensures forall i, j | 0 <= i < j < |xs| :: xs[i] != xs[j]
  {
    xs := [];
    var rest := imports;
    while rest != {}
      invariant rest <= imports
      invariant multiset(xs) + multiset(rest) == multiset(imports)
      invariant forall i, j | 0 <= i < j < |xs| :: xs[i] != xs[j]
      invariant forall i | 0 <= i < |xs| :: xs[i] !in rest
      decreases |rest|
    {
      var x :| x in rest;
      xs := xs + [x];
      rest := rest - {x};
    }
  }

  /** The names printed for a list of entries: those of every entry that is not the underlying module. */
  ghost function PathsOf(xs: seq<ImportModule>, m: ModuleDecl, bridgingHeader: string, importedHeaderModule: Option<nat>): set<seq<string>> {
    set x | x in xs && !IsUnderlyingEntry(x, m, bridgingHeader, importedHeaderModule) :: FullName(x)
  }

  /** Some entry of a list is the underlying module. */
  ghost predicate AnyUnderlying(xs: seq<ImportModule>, m: ModuleDecl, bridgingHeader: string, importedHeaderModule: Option<nat>) {
    exists x | x in xs :: IsUnderlyingEntry(x, m, bridgingHeader, importedHeaderModule)
  }

  /** The members of a list of names. */
  ghost function SetOf(ps: seq<seq<string>>): set<seq<string>> {
    set p | p in ps
  }

  /** One more entry adds its name, unless it is the underlying module, in which case it is noted as seen. */
  lemma PathsOfExtend(xs: seq<ImportModule>, i: nat, m: ModuleDecl, bridgingHeader: string, importedHeaderModule: Option<nat>)
    requires i < |xs|
    ensures PathsOf(xs[..i + 1], m, bridgingHeader, importedHeaderModule) ==
      PathsOf(xs[..i], m, bridgingHeader, importedHeaderModule)
      + (if IsUnderlyingEntry(xs[i], m, bridgingHeader, importedHeaderModule) then {} else {FullName(xs[i])})
    ensures AnyUnderlying(xs[..i + 1], m, bridgingHeader, importedHeaderModule) ==
      (AnyUnderlying(xs[..i], m, bridgingHeader, importedHeaderModule) || IsUnderlyingEntry(xs[i], m, bridgingHeader, importedHeaderModule))
  {
    assert xs[..i + 1] == xs[..i] + [xs[i]];
  }

  lemma SetOfAppend(ps: seq<seq<string>>, p: seq<string>)
    ensures SetOf(ps + [p]) == SetOf(ps) + {p}
  {
  }

  /** A list and a set with the same entries print the same names and fold the same underlying module. */
  lemma SameEntries(xs: seq<ImportModule>, imports: set<ImportModule>, m: ModuleDecl, bridgingHeader: string, importedHeaderModule: Option<nat>)
    requires forall x :: x in xs <==> x in imports
    ensures PathsOf(xs, m, bridgingHeader, importedHeaderModule) == ImportedPaths(imports, m, bridgingHeader, importedHeaderModule)
    ensures AnyUnderlying(xs, m, bridgingHeader, importedHeaderModule) == FoldsUnderlying(imports, m, bridgingHeader, importedHeaderModule)
  {
  }

  /**
   * The SmallVector of the imports sorted with array_pod_sort and the comparator: each entry
   * of the set once, full names never decreasing.
   */
  method SortImports(imports: set<ImportModule>) returns (sortedImports: seq<ImportModule>)
    requires forall x | x in imports :: IsSubmoduleOrSwift(x)
    ensures DistinctImports(sortedImports) && NamesAscend(sortedImports)
    ensures forall x :: x in sortedImports <==> x in imports
  {
    var unsorted := SetToSequence(imports);
    assert DistinctImports(unsorted) by {
      forall k | 0 <= k < |unsorted| ensures IsSubmoduleOrSwift(unsorted[k]) {
        assert unsorted[k] in multiset(imports);
      }
    }
    sortedImports := ArrayPodSort(unsorted);
    forall x ensures x in sortedImports <==> x in imports {
      assert x in sortedImports <==> x in multiset(sortedImports);
    }
    SortedMeansNamesAscend(sortedImports);
  }

  /** The `#import` fallback written after the block, only when the underlying module was seen. */
  method WriteUnderlyingImport(out: Stream, includeUnderlying: bool, m: ModuleDecl, bridgingHeader: string)
    modifies out
    ensures out.text == old(out.text) + (if includeUnderlying then UnderlyingImport(m, bridgingHeader) else "")
  {
    if includeUnderlying {
      if bridgingHeader == [] {
        out.Write("#import <" + m.name + "/" + m.name + ".h>\n\n");
      } else {
        out.Write("#import \"" + bridgingHeader + "\"\n\n");
      }
    } else {
      assert out.text == out.text + "";
    }
  }

  /**
   * writeImports: the modules block for an import set whose Clang entries are all
   * submodules (the source asserts this of every Clang entry it prints).
   */
  method WriteImports(out: Stream, imports: set<ImportModule>, m: ModuleDecl, bridgingHeader: string, importedHeaderModule: Option<nat>)
    requires forall x | x in imports :: IsSubmoduleOrSwift(x)
    modifies out
    ensures out.text == old(out.text) + ImportsBlock(imports, m, bridgingHeader, importedHeaderModule)
  {
    ghost var start := out.text;
    out.Write(ModulesOpening());
    var sortedImports := SortImports(imports);
    SameEntries(sortedImports, imports, m, bridgingHeader, importedHeaderModule);
    var includeUnderlying := WriteImportLines(out, sortedImports, m, bridgingHeader, importedHeaderModule);
    out.Write(ModulesClosing());
    WriteUnderlyingImport(out, includeUnderlying, m, bridgingHeader);
    ghost var body := ImportLines(Ascending(ImportedPaths(imports, m, bridgingHeader, importedHeaderModule)));
    ghost var fallback := if FoldsUnderlying(imports, m, bridgingHeader, importedHeaderModule) then UnderlyingImport(m, bridgingHeader) else "";
    AppendAssoc(start, ModulesOpening(), body);
    AppendAssoc(start, ModulesOpening() + body, ModulesClosing());
    AppendAssoc(start, ModulesOpening() + body + ModulesClosing(), fallback);
  }

  /**
   * The names the loop of writeImports prints for a list of entries, in order: each entry
   * that is not the underlying module, except a Swift module whose name was printed already.
   */
  ghost function Printed(xs: seq<ImportModule>, m: ModuleDecl, bridgingHeader: string, importedHeaderModule: Option<nat>): seq<seq<string>>
    decreases |xs|
  {
    if xs == [] then []
    else
      var before := Printed(xs[..|xs| - 1], m, bridgingHeader, importedHeaderModule);
      var x := xs[|xs| - 1];
      if IsUnderlyingEntry(x, m, bridgingHeader, importedHeaderModule) then before
      else if x.SwiftModule? && [x.decl.name] in before then before
      else before + [FullName(x)]
  }

  /** One more entry of the loop. */
  lemma PrintedExtend(xs: seq<ImportModule>, i: nat, m: ModuleDecl, bridgingHeader: string, importedHeaderModule: Option<nat>)
    requires i < |xs|
    ensures Printed(xs[..i + 1], m, bridgingHeader, importedHeaderModule) ==
      var before := Printed(xs[..i], m, bridgingHeader, importedHeaderModule);
      if IsUnderlyingEntry(xs[i], m, bridgingHeader, importedHeaderModule) then before
      else if xs[i].SwiftModule? && [xs[i].decl.name] in before then before
      else before + [FullName(xs[i])]
  {
    assert xs[..i + 1][..i] == xs[..i];
  }

  /**
   * On entries sorted by name, the loop prints every name that is not the underlying
   * module's exactly once, in strictly ascending order.
   */
  lemma {:induction false} PrintedIsAscending(xs: seq<ImportModule>, m: ModuleDecl, bridgingHeader: string, importedHeaderModule: Option<nat>)
    requires DistinctImports(xs) && NamesAscend(xs)
    ensures StrictlyAscending(Printed(xs, m, bridgingHeader, importedHeaderModule))
    ensures SetOf(Printed(xs, m, bridgingHeader, importedHeaderModule)) == PathsOf(xs, m, bridgingHeader, importedHeaderModule)
    decreases |xs|
  {
    if xs != [] {
      var ys := xs[..|xs| - 1];
      assert DistinctImports(ys) && NamesAscend(ys) by {
        assert forall k | 0 <= k < |ys| :: ys[k] == xs[k];
      }
      PrintedIsAscending(ys, m, bridgingHeader, importedHeaderModule);
      PrintedStep(xs, m, bridgingHeader, importedHeaderModule);
    }
  }

  /** The last entry keeps the printed names strictly ascending and equal to the names of the entries so far. */
  lemma PrintedStep(xs: seq<ImportModule>, m: ModuleDecl, bridgingHeader: string, importedHeaderModule: Option<nat>)
    requires xs != [] && DistinctImports(xs) && NamesAscend(xs)
    requires StrictlyAscending(Printed(xs[..|xs| - 1], m, bridgingHeader, importedHeaderModule))
    requires SetOf(Printed(xs[..|xs| - 1], m, bridgingHeader, importedHeaderModule)) == PathsOf(xs[..|xs| - 1], m, bridgingHeader, importedHeaderModule)
    ensures StrictlyAscending(Printed(xs, m, bridgingHeader, importedHeaderModule))
    ensures SetOf(Printed(xs, m, bridgingHeader, importedHeaderModule)) == PathsOf(xs, m, bridgingHeader, importedHeaderModule)
  {
    var n := |xs| - 1;
    var before := Printed(xs[..n], m, bridgingHeader, importedHeaderModule);
    var x := xs[n];
    assert xs[..n + 1] == xs;
    PrintedExtend(xs, n, m, bridgingHeader, importedHeaderModule);
    PathsOfExtend(xs, n, m, bridgingHeader, importedHeaderModule);
    if !IsUnderlyingEntry(x, m, bridgingHeader, importedHeaderModule) {
      if x.SwiftModule? && [x.decl.name] in before {
        assert FullName(x) in SetOf(before);
      } else {
        if x.ClangSubmodule? {
          NewSubmodulePath(xs, n, before, m, bridgingHeader, importedHeaderModule);
        }
        FollowsPrinted(xs, before, m, bridgingHeader, importedHeaderModule);
        SetOfAppend(before, FullName(x));
      }
    }
  }

  /** A new name after the printed ones of the earlier entries sorts after each of them. */
  lemma FollowsPrinted(xs: seq<ImportModule>, before: seq<seq<string>>, m: ModuleDecl, bridgingHeader: string, importedHeaderModule: Option<nat>)
    requires xs != [] && NamesAscend(xs)
    requires StrictlyAscending(before)
    requires SetOf(before) == PathsOf(xs[..|xs| - 1], m, bridgingHeader, importedHeaderModule)
    requires FullName(xs[|xs| - 1]) !in before
    ensures StrictlyAscending(before + [FullName(xs[|xs| - 1])])
  {
    var n := |xs| - 1;
    var p := FullName(xs[n]);
    forall k | 0 <= k < |before| ensures PathCompare(before[k], p) < 0 {
      assert before[k] in SetOf(before);
      var j :| 0 <= j < n && FullName(xs[..n][j]) == before[k]
        && !IsUnderlyingEntry(xs[..n][j], m, bridgingHeader, importedHeaderModule);
      assert xs[..n][j] == xs[j];
      PathCompareBasics(before[k], p);
    }
    var after := before + [p];
    forall a, b | 0 <= a < b < |after| ensures PathCompare(after[a], after[b]) < 0 {
      if b == |before| {
        assert after[b] == p && after[a] == before[a];
      } else {
        assert after[a] == before[a] && after[b] == before[b];
      }
    }
  }

  /**
   * The loop of writeImports over the sorted entries. It prints each entry that is not the
   * underlying module, skipping a Swift module whose name was printed already, and reports
   * whether the underlying module was seen.
   */
  method WriteImportLines(out: Stream, sortedImports: seq<ImportModule>, m: ModuleDecl, bridgingHeader: string, importedHeaderModule: Option<nat>)
    returns (includeUnderlying: bool)
    requires DistinctImports(sortedImports) && NamesAscend(sortedImports)
    modifies out
    ensures out.text == old(out.text) + ImportLines(Ascending(PathsOf(sortedImports, m, bridgingHeader, importedHeaderModule)))
    ensures includeUnderlying == AnyUnderlying(sortedImports, m, bridgingHeader, importedHeaderModule)
  {
    ghost var head := out.text;
    var seenImports: set<string> := {};
    includeUnderlying := false;
    var i := 0;
    ghost var emitted: seq<seq<string>> := [];
    while i < |sortedImports|
      invariant 0 <= i <= |sortedImports|
      invariant emitted == Printed(sortedImports[..i], m, bridgingHeader, importedHeaderModule)
      invariant out.text == head + ImportLines(emitted)
      invariant forall n :: n in seenImports <==> [n] in emitted
      invariant includeUnderlying == AnyUnderlying(sortedImports[..i], m, bridgingHeader, importedHeaderModule)
    {
      var entry := sortedImports[i];
      ghost var seenBefore := seenImports;
      ghost var prints := !IsUnderlyingEntry(entry, m, bridgingHeader, importedHeaderModule)
        && !(entry.SwiftModule? && entry.decl.name in seenImports);
      ghost var next := if prints then emitted + [FullName(entry)] else emitted;
      assert Printed(sortedImports[..i + 1], m, bridgingHeader, importedHeaderModule) == next by {
        PrintedExtend(sortedImports, i, m, bridgingHeader, importedHeaderModule);
      }
      assert AnyUnderlying(sortedImports[..i + 1], m, bridgingHeader, importedHeaderModule)
        == (includeUnderlying || IsUnderlyingEntry(entry, m, bridgingHeader, importedHeaderModule)) by {
        PathsOfExtend(sortedImports, i, m, bridgingHeader, importedHeaderModule);
      }
      var underlying;
      seenImports, underlying := WriteImportEntry(out, entry, seenImports, m, bridgingHeader, importedHeaderModule);
      if underlying {
        includeUnderlying := true;
      }
      if prints {
        ImportLinesAppend(emitted, FullName(entry));
        AppendAssoc(head, ImportLines(emitted), "@import " + JoinDotted(FullName(entry)) + ";\n");
      }
      SeenStep(emitted, entry, prints, seenBefore, seenImports);
      emitted := next;
      i := i + 1;
    }
    assert sortedImports[..i] == sortedImports;
    PrintedInImportOrder(sortedImports, m, bridgingHeader, importedHeaderModule);
  }

  /** Walking a sorted list and printing each new full name once gives the full names in ascending order. */
  lemma PrintedInImportOrder(xs: seq<ImportModule>, m: ModuleDecl, bridgingHeader: string, importedHeaderModule: Option<nat>)
    requires DistinctImports(xs) && NamesAscend(xs)
    ensures Printed(xs, m, bridgingHeader, importedHeaderModule) == Ascending(PathsOf(xs, m, bridgingHeader, importedHeaderModule))
  {
    var printed := Printed(xs, m, bridgingHeader, importedHeaderModule);
    PrintedIsAscending(xs, m, bridgingHeader, importedHeaderModule);
    assert forall p :: p in printed <==> p in SetOf(printed);
    AscendingUnique(printed, Ascending(PathsOf(xs, m, bridgingHeader, importedHeaderModule)));
  }

  /**
   * One entry of the loop: the module being printed underneath is only noted; any other Swift
   * module is imported the first time its name comes up; a Clang module is always imported.
   */
  method WriteImportEntry(
    out: Stream, entry: ImportModule, seenImports: set<string>,
    m: ModuleDecl, bridgingHeader: string, importedHeaderModule: Option<nat>)
    returns (seen: set<string>, underlying: bool)
    modifies out
    ensures underlying == IsUnderlyingEntry(entry, m, bridgingHeader, importedHeaderModule)
    ensures var prints := !underlying && !(entry.SwiftModule? && entry.decl.name in seenImports);
      && (prints ==> out.text == old(out.text) + ("@import " + JoinDotted(FullName(entry)) + ";\n"))
      && (!prints ==> out.text == old(out.text))
      && seen == (if entry.SwiftModule? && prints then seenImports + {entry.decl.name} else seenImports)
  {
    seen, underlying := seenImports, false;
    if entry.SwiftModule? {
      var name := entry.decl.name;
      if IsUnderlyingModule(entry.decl, m, bridgingHeader, importedHeaderModule) {
        underlying := true;
      } else if name !in seenImports {
        seen := seenImports + {name};
        out.Write("@import " + name + ";\n");
      }
    } else {
      WriteDottedImport(out, entry.fullName);
    }
  }

  /** The `@import` of a Clang submodule: its full name written segment by segment, joined by dots (printForward). */
  method WriteDottedImport(out: Stream, path: seq<string>)
    modifies out
    ensures out.text == old(out.text) + ("@import " + JoinDotted(path) + ";\n")
  {
    ghost var before := out.text;
    out.Write("@import ");
    out.Write(JoinDotted(path));
    out.Write(";\n");
    AppendAssoc(before, "@import ", JoinDotted(path));
    AppendAssoc(before, "@import " + JoinDotted(path), ";\n");
  }

  /** The names of Swift modules printed so far, one entry later. */
  lemma SeenStep(emitted: seq<seq<string>>, entry: ImportModule, prints: bool, seen: set<string>, after: set<string>)
    requires IsSubmoduleOrSwift(entry)
    requires forall n :: n in seen <==> [n] in emitted
    requires after == if entry.SwiftModule? && prints then seen + {entry.decl.name} else seen
    ensures forall n :: n in after <==> [n] in (if prints then emitted + [FullName(entry)] else emitted)
  {
    if prints {
      forall n ensures [n] in emitted + [FullName(entry)] <==> [n] in emitted || [n] == FullName(entry) {
      }
    }
  }

  /** A Clang submodule's name was not printed before it: earlier entries are other submodules or one-segment Swift names. */
  lemma NewSubmodulePath(xs: seq<ImportModule>, i: nat, emitted: seq<seq<string>>, m: ModuleDecl, bridgingHeader: string, importedHeaderModule: Option<nat>)
    requires DistinctImports(xs) && i < |xs| && xs[i].ClangSubmodule?
    requires SetOf(emitted) == PathsOf(xs[..i], m, bridgingHeader, importedHeaderModule)
    ensures xs[i].fullName !in emitted
  {
    forall x | x in xs[..i] ensures FullName(x) != xs[i].fullName {
      var j :| 0 <= j < i && xs[j] == x;
    }
    assert xs[i].fullName !in SetOf(emitted);
  }

  /** Appending one name appends its `@import` line. */
  lemma ImportLinesAppend(emitted: seq<seq<string>>, p: seq<string>)
    ensures ImportLines(emitted + [p]) == ImportLines(emitted) + ("@import " + JoinDotted(p) + ";\n")
  {
    var next := emitted + [p];
    assert next[..|next| - 1] == emitted;
    assert "@import " + JoinDotted(p) + ";\n" == ImportDirective(p) + "\n";
  }

  /** Every segment of every imported name, the module's name and the bridging header path fit on one line. */
  predicate OneLineNames(imports: set<ImportModule>, m: ModuleDecl, bridgingHeader: string) {
    && (forall x, s | x in imports && s in FullName(x) :: '\n' !in s)
    && '\n' !in m.name && '\n' !in bridgingHeader
  }

  lemma {:induction false} JoinDottedOneLine(p: seq<string>)
    requires forall s | s in p :: '\n' !in s
    ensures '\n' !in JoinDotted(p)
    decreases |p|
  {
    if |p| > 1 {
      assert forall s | s in p[1..] :: s in p;
      JoinDottedOneLine(p[1..]);
      NoNewlineConcat(p[0], ".");
      NoNewlineConcat(p[0] + ".", JoinDotted(p[1..]));
    }
  }

  /** A directive and its newline are one line. */
  lemma ImportDirectiveLine(p: seq<string>)
    requires forall s | s in p :: '\n' !in s
    ensures Lines(ImportDirective(p) + "\n") == [ImportDirective(p)]
  {
    JoinDottedOneLine(p);
    NoNewlineConcat("@import ", JoinDotted(p));
    NoNewlineConcat("@import " + JoinDotted(p), ";");
    LinesOfLine(ImportDirective(p));
  }

  /** The `@import` text of a list of names is one directive line per name, in list order. */
  lemma {:induction false} ImportLinesLines(ps: seq<seq<string>>)
    requires forall p, s | p in ps && s in p :: '\n' !in s
    ensures LineTerminated(ImportLines(ps))
    ensures |Lines(ImportLines(ps))| == |ps|
    ensures forall k | 0 <= k < |ps| :: Lines(ImportLines(ps))[k] == ImportDirective(ps[k])
    decreases |ps|
  {
    if ps != [] {
      var init, last := ps[..|ps| - 1], ps[|ps| - 1];
      assert forall p | p in init :: p in ps;
      ImportLinesLines(init);
      var text, line := ImportLines(init), ImportDirective(last) + "\n";
      assert ImportLines(ps) == text + line;
      ImportDirectiveLine(last);
      LinesAppend(text, line);
      assert line[|line| - 1] == '\n';
      LineTerminatedAppend(text, line);
      var lines := Lines(ImportLines(ps));
      assert lines == Lines(text) + [ImportDirective(last)];
      forall k | 0 <= k < |ps| ensures lines[k] == ImportDirective(ps[k]) {
        if k < |init| {
          assert Lines(text)[k] == ImportDirective(init[k]);
          assert lines[k] == Lines(text)[k] && ps[k] == init[k];
        } else {
          assert lines[k] == ImportDirective(last) && ps[k] == last;
        }
      }
    }
  }

  /** The four lines of the opening. */
  function OpeningLines(): seq<string> {
    [FeatureTestLine(), WarningTestLine(), WarningIgnoredLine(), "#endif"]
  }

  lemma FeatureTestOneLine()
    ensures '\n' !in FeatureTestLine()
  {
  }

  lemma WarningTestOneLine()
    ensures '\n' !in WarningTestLine()
  {
    NoNewlineConcat("#if __has_warning(", WarningFlag());
    NoNewlineConcat("#if __has_warning(" + WarningFlag(), ")");
  }

  lemma WarningIgnoredOneLine()
    ensures '\n' !in WarningIgnoredLine()
  {
    NoNewlineConcat("#pragma clang diagnostic ignored ", WarningFlag());
  }

  /** Three lines, then the rest of the text. */
  lemma ThreeLinesThen(a: string, b: string, c: string, rest: string)
    requires '\n' !in a && '\n' !in b && '\n' !in c
    ensures Lines(a + "\n" + (b + "\n" + (c + "\n" + rest))) == [a, b, c] + Lines(rest)
  {
    LineThen(c, rest);
    LineThen(b, c + "\n" + rest);
    LineThen(a, b + "\n" + (c + "\n" + rest));
  }

  /** Three lines and a line-terminated rest are line-terminated. */
  lemma ThreeLinesTerminated(a: string, b: string, c: string, rest: string)
    requires LineTerminated(rest) && rest != []
    ensures LineTerminated(a + "\n" + (b + "\n" + (c + "\n" + rest)))
  {
    LineTerminatedAppend(c + "\n", rest);
    LineTerminatedAppend(b + "\n", c + "\n" + rest);
    LineTerminatedAppend(a + "\n", b + "\n" + (c + "\n" + rest));
  }

  lemma ModulesOpeningLines()
    ensures LineTerminated(ModulesOpening())
    ensures Lines(ModulesOpening()) == OpeningLines()
  {
    FeatureTestOneLine();
    WarningTestOneLine();
    WarningIgnoredOneLine();
    EndifLine();
    ThreeLinesThen(FeatureTestLine(), WarningTestLine(), WarningIgnoredLine(), "#endif\n");
    ThreeLinesTerminated(FeatureTestLine(), WarningTestLine(), WarningIgnoredLine(), "#endif\n");
  }

  /** The empty line. */
  lemma EmptyLine()
    ensures Lines("\n") == [""]
  {
    LinesOfLine("");
    assert "" + "\n" == "\n";
  }

  lemma ModulesClosingLines()
    ensures LineTerminated(ModulesClosing()) && ModulesClosing() != []
    ensures Lines(ModulesClosing()) == ["#endif", ""]
  {
    LineThen("#endif", "\n");
    EmptyLine();
  }

  lemma UnderlyingImportLines(m: ModuleDecl, bridgingHeader: string)
    requires '\n' !in m.name && '\n' !in bridgingHeader
    ensures LineTerminated(UnderlyingImport(m, bridgingHeader)) && UnderlyingImport(m, bridgingHeader) != []
    ensures Lines(UnderlyingImport(m, bridgingHeader)) == [FallbackLine(m, bridgingHeader), ""]
  {
    if bridgingHeader == [] {
      NoNewlineConcat("#import <", m.name);
      NoNewlineConcat("#import <" + m.name, "/");
      NoNewlineConcat("#import <" + m.name + "/", m.name);
      NoNewlineConcat("#import <" + m.name + "/" + m.name, ".h>");
    } else {
      NoNewlineConcat("#import \"", bridgingHeader);
      NoNewlineConcat("#import \"" + bridgingHeader, "\"");
    }
    LineThen(FallbackLine(m, bridgingHeader), "\n");
    EmptyLine();
  }

  /**
   * The block as lines: the opening, then exactly one `@import` line per imported name in
   * ascending order, then the `#endif` closing the modules test and an empty line, and after
   * them the fallback `#import` and an empty line precisely when an underlying module was folded.
   */
  lemma ImportsBlockLines(imports: set<ImportModule>, m: ModuleDecl, bridgingHeader: string, importedHeaderModule: Option<nat>)
    requires OneLineNames(imports, m, bridgingHeader)
    ensures LineTerminated(ImportsBlock(imports, m, bridgingHeader, importedHeaderModule))
    ensures var lines := Lines(ImportsBlock(imports, m, bridgingHeader, importedHeaderModule));
      var ps := Ascending(ImportedPaths(imports, m, bridgingHeader, importedHeaderModule));
      && |lines| == 4 + |ps| + 2 + (if FoldsUnderlying(imports, m, bridgingHeader, importedHeaderModule) then 2 else 0)
      && lines[..4] == OpeningLines()
      && (forall k | 0 <= k < |ps| :: lines[4 + k] == ImportDirective(ps[k]))
      && lines[4 + |ps|..6 + |ps|] == ["#endif", ""]
      && lines[6 + |ps|..] == if FoldsUnderlying(imports, m, bridgingHeader, importedHeaderModule) then [FallbackLine(m, bridgingHeader), ""] else []
  {
    var ps := Ascending(ImportedPaths(imports, m, bridgingHeader, importedHeaderModule));
    var f := if FoldsUnderlying(imports, m, bridgingHeader, importedHeaderModule) then UnderlyingImport(m, bridgingHeader) else "";
    forall p, s | p in ps && s in p ensures '\n' !in s {
      assert p in ImportedPaths(imports, m, bridgingHeader, importedHeaderModule);
    }
    ImportLinesLines(ps);
    ModulesOpeningLines();
    ModulesClosingLines();
    UnderlyingImportLines(m, bridgingHeader);
    FourPartsLines(ModulesOpening(), ImportLines(ps), ModulesClosing(), f);
    FourPartsShape(OpeningLines(), Lines(ImportLines(ps)), ["#endif", ""], Lines(f));
  }

  /** Four line-terminated texts, one after the other, are their lines one after the other. */
  lemma FourPartsLines(o: string, i: string, c: string, f: string)
    requires LineTerminated(o) && LineTerminated(i) && LineTerminated(c) && c != [] && LineTerminated(f)
    ensures LineTerminated(o + i + c + f)
    ensures Lines(o + i + c + f) == Lines(o) + Lines(i) + Lines(c) + Lines(f)
  {
    if f != [] {
      LineTerminatedAppend(o + i + c, f);
    } else {
      assert o + i + c + f == o + i + c;
    }
    LinesAppend(o, i);
    if i != [] {
      LineTerminatedAppend(o, i);
    } else {
      assert o + i == o;
    }
    LinesAppend(o + i, c);
    LineTerminatedAppend(o + i, c);
    LinesAppend(o + i + c, f);
  }

  lemma FourPartsShape(a: seq<string>, b: seq<string>, c: seq<string>, d: seq<string>)
    requires |a| == 4 && |c| == 2
    ensures var all := a + b + c + d;
      && |all| == 4 + |b| + 2 + |d|
      && all[..4] == a
      && (forall k | 0 <= k < |b| :: all[4 + k] == b[k])
      && all[4 + |b|..6 + |b|] == c
      && all[6 + |b|..] == d
  {
  }

  /**
   * Without a bridging header, when the module is not among its own imports, its own name
   * never gets an `@import`, and the umbrella-header fallback is written exactly when some
   * import carries its name.
   */
  lemma OwnNameFolded(imports: set<ImportModule>, m: ModuleDecl, importedHeaderModule: Option<nat>)
    requires forall x | x in imports :: IsSubmoduleOrSwift(x)
    requires forall x | x in imports && x.SwiftModule? :: x.decl.id != m.id
    ensures [m.name] !in Ascending(ImportedPaths(imports, m, [], importedHeaderModule))
    ensures FoldsUnderlying(imports, m, [], importedHeaderModule) <==> exists x | x in imports :: x.SwiftModule? && x.decl.name == m.name
    ensures FoldsUnderlying(imports, m, [], importedHeaderModule) ==> UnderlyingImport(m, []) == "#import <" + m.name + "/" + m.name + ".h>\n\n"
  {
    forall x | x in imports && !IsUnderlyingEntry(x, m, [], importedHeaderModule) ensures FullName(x) != [m.name] {
    }
  }

  /**
   * The module Foo imports another module object named Foo (the Clang module under it) and
   * Bar, without a bridging header: Bar gets an `@import`, Foo only the umbrella `#import`.
   */
  lemma UmbrellaExample()
    ensures ImportsBlock({SwiftModule(ModuleDecl(1, "Foo")), SwiftModule(ModuleDecl(2, "Bar"))}, ModuleDecl(0, "Foo"), "", None)
      == ModulesOpening() + ImportLines([["Bar"]]) + ModulesClosing() + UnderlyingImport(ModuleDecl(0, "Foo"), "")
  {
    var imports := {SwiftModule(ModuleDecl(1, "Foo")), SwiftModule(ModuleDecl(2, "Bar"))};
    var m := ModuleDecl(0, "Foo");
    assert IsUnderlyingEntry(SwiftModule(ModuleDecl(1, "Foo")), m, "", None);
    assert ImportedPaths(imports, m, "", None) == {["Bar"]};
    AscendingUnique(Ascending({["Bar"]}), [["Bar"]]);
  }

  /** The umbrella header of Foo. */
  lemma UmbrellaImportExample()
    ensures FallbackLine(ModuleDecl(0, "Foo"), "") == "#import <Foo/Foo.h>"
  {
  }

  /**
   * The same imports with a bridging header but no module made for it: nothing is folded,
   * both names get an `@import`, in order, and no `#import` follows.
   */
  lemma BridgingHeaderExample()
    ensures ImportsBlock({SwiftModule(ModuleDecl(1, "Foo")), SwiftModule(ModuleDecl(2, "Bar"))}, ModuleDecl(0, "Foo"), "Foo-Bridging-Header.h", None)
      == ModulesOpening() + ImportLines([["Bar"], ["Foo"]]) + ModulesClosing()
  {
    var imports := {SwiftModule(ModuleDecl(1, "Foo")), SwiftModule(ModuleDecl(2, "Bar"))};
    var m := ModuleDecl(0, "Foo");
    assert ImportedPaths(imports, m, "Foo-Bridging-Header.h", None) == {["Bar"], ["Foo"]};
    assert !FoldsUnderlying(imports, m, "Foo-Bridging-Header.h", None);
    assert PathCompare(["Bar"], ["Foo"]) < 0;
    AscendingUnique(Ascending({["Bar"], ["Foo"]}), [["Bar"], ["Foo"]]);
  }

  /**
   * Two module objects named UIKit, the Swift module Dispatch and the Clang submodule
   * Dispatch.Base: UIKit is imported once, and Dispatch sorts before its own submodule.
   */
  lemma OrderExample()
    ensures ImportsBlock({SwiftModule(ModuleDecl(1, "UIKit")), SwiftModule(ModuleDecl(2, "UIKit")),
                          ClangSubmodule(["Dispatch", "Base"]), SwiftModule(ModuleDecl(3, "Dispatch"))},
                         ModuleDecl(0, "App"), "", None)
      == ModulesOpening() + ImportLines([["Dispatch"], ["Dispatch", "Base"], ["UIKit"]]) + ModulesClosing()
  {
    var imports := {SwiftModule(ModuleDecl(1, "UIKit")), SwiftModule(ModuleDecl(2, "UIKit")),
                    ClangSubmodule(["Dispatch", "Base"]), SwiftModule(ModuleDecl(3, "Dispatch"))};
    var m := ModuleDecl(0, "App");
    var ps := [["Dispatch"], ["Dispatch", "Base"], ["UIKit"]];
    assert ImportedPaths(imports, m, "", None) == {["Dispatch"], ["Dispatch", "Base"], ["UIKit"]};
    assert !FoldsUnderlying(imports, m, "", None);
    OrderExampleAscending();
    AscendingUnique(Ascending(ImportedPaths(imports, m, "", None)), ps);
  }

  lemma OrderExampleAscending()
    ensures StrictlyAscending([["Dispatch"], ["Dispatch", "Base"], ["UIKit"]])
  {
    assert StringCompare("Dispatch", "Dispatch") == 0 by {
      StringCompareIsOrder();
    }
    assert PathCompare(["Dispatch"], ["Dispatch", "Base"]) < 0;
    assert PathCompare(["Dispatch", "Base"], ["UIKit"]) < 0;
    assert PathCompare(["Dispatch"], ["UIKit"]) < 0;
  }

  /** A submodule's directive spells its path outermost first, dot-separated. */
  lemma SubmoduleDirectiveExample()
    ensures ImportDirective(["Dispatch", "Base"]) == "@import Dispatch.Base;"
  {
  }
}
