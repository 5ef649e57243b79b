/**
 * Balance of the conditionals in the sections printAsClangHeader writes under a language
 * macro: the imports, the Objective-C declarations and the C++ section.
 */
module HeaderBalance {
  import opened Wrappers
  import opened TextLines
  import opened Emitters
  import opened ImportOrder
  import opened ImportWriter
  import opened ClangHeader
  import opened Directives

  /** The modules feature test opens one conditional; the warning test inside it is closed again. */
  lemma OpeningLeavesOneOpen()
    ensures OpenOnce(OpeningLines())
  {
    var feature, warning, ignored := FeatureTestLine(), WarningTestLine(), WarningIgnoredLine();
    OpensLevel(feature);
    OpensLevel(warning);
    assert Delta(ignored) == 0 by {
      assert ignored[1] == 'p';
    }
    NeutralLine(ignored);
    BalancedWrapped(warning, [ignored]);
    OpenLine(feature, [warning] + [ignored] + ["#endif"]);
    assert OpeningLines() == [feature] + ([warning] + [ignored] + ["#endif"]);
  }

  /** A text that leaves one conditional open, neutral lines, `#endif`, then neutral lines, is balanced. */
  lemma ClosedAfterNeutral(open: seq<string>, mid: seq<string>, rest: seq<string>)
    requires OpenOnce(open) && Neutral(mid) && Neutral(rest)
    ensures Balanced(open + mid + ["#endif"] + rest)
  {
    OpenThenNeutral(open, mid);
    CloseOpen(open + mid);
    NeutralBalanced(rest);
    BalancedAppend(open + mid + ["#endif"], rest);
  }

  /** `@import` lines neither open nor close a conditional. */
  lemma DirectivesNeutral(mid: seq<string>, ps: seq<seq<string>>)
    requires |mid| == |ps|
    requires forall k | 0 <= k < |ps| :: mid[k] == ImportDirective(ps[k])
    ensures Neutral(mid)
  {
    forall k | 0 <= k < |mid| ensures Delta(mid[k]) == 0 {
      assert ImportDirective(ps[k])[0] == '@';
    }
  }

  /** The fallback `#import` neither opens nor closes a conditional. */
  lemma FallbackNeutral(m: ModuleDecl, bridgingHeader: string)
    ensures Delta(FallbackLine(m, bridgingHeader)) == 0
  {
    var f := FallbackLine(m, bridgingHeader);
    assert f[1] == 'i' && f[2] == 'm';
  }

  /**
   * Lines laid out as the import block is (the opening, one `@import` line per name, `#endif`
   * and an empty line, then possibly the fallback and an empty line) are balanced.
   */
  lemma ImportsLayoutBalanced(lines: seq<string>, ps: seq<seq<string>>, folds: bool, fallback: string)
    requires Delta(fallback) == 0
    requires |lines| == 4 + |ps| + 2 + (if folds then 2 else 0)
    requires lines[..4] == OpeningLines()
    requires forall k | 0 <= k < |ps| :: lines[4 + k] == ImportDirective(ps[k])
    requires lines[4 + |ps|..6 + |ps|] == ["#endif", ""]
    requires lines[6 + |ps|..] == if folds then [fallback, ""] else []
    ensures Balanced(lines)
  {
    var n := |ps|;
    var mid, rest := lines[4..4 + n], lines[5 + n..];
    DirectivesNeutral(mid, ps);
    assert rest == [""] + lines[6 + n..];
    assert Neutral(rest);
    OpeningLeavesOneOpen();
    ClosedAfterNeutral(OpeningLines(), mid, rest);
    assert lines == lines[..4] + mid + [lines[4 + n]] + rest;
  }

  /**
   * Every conditional the import block opens, it closes: the `#endif` after the `@import`
   * lines ends the modules feature test.
   */
  lemma ImportsBlockBalanced(imports: set<ImportModule>, m: ModuleDecl, bridgingHeader: string, importedHeaderModule: Option<nat>)
    requires OneLineNames(imports, m, bridgingHeader)
    ensures LineTerminated(ImportsBlock(imports, m, bridgingHeader, importedHeaderModule))
    ensures Balanced(Lines(ImportsBlock(imports, m, bridgingHeader, importedHeaderModule)))
  {
    ImportsBlockLines(imports, m, bridgingHeader, importedHeaderModule);
    FallbackNeutral(m, bridgingHeader);
    ImportsLayoutBalanced(
      Lines(ImportsBlock(imports, m, bridgingHeader, importedHeaderModule)),
      Ascending(ImportedPaths(imports, m, bridgingHeader, importedHeaderModule)),
      FoldsUnderlying(imports, m, bridgingHeader, importedHeaderModule),
      FallbackLine(m, bridgingHeader));
  }

  /**
   * The sections written under a language macro are balanced when what they wrap is: the
   * imports under `__OBJC__`, the Objective-C declarations under `__OBJC__`, and the C++
   * section under `__cplusplus` whether or not its declarations are exposed.
   */
  lemma SectionsBalanced(
    imports: set<ImportModule>, m: ModuleDecl, bridgingHeader: string, importedHeaderModule: Option<nat>,
    objcBody: string, cxxBody: string, expose: bool)
    requires OneLineNames(imports, m, bridgingHeader)
    requires LineTerminated(objcBody) && Balanced(Lines(objcBody))
    requires LineTerminated(cxxBody) && Balanced(Lines(cxxBody))
    ensures Balanced(Lines(IfDefined("__OBJC__", ImportsBlock(imports, m, bridgingHeader, importedHeaderModule), None)))
    ensures Balanced(Lines(IfDefined("__OBJC__", objcBody, None)))
    ensures Balanced(Lines(CxxSection(cxxBody, expose)))
  {
    ImportsBlockBalanced(imports, m, bridgingHeader, importedHeaderModule);
    IfDefinedBalanced("__OBJC__", ImportsBlock(imports, m, bridgingHeader, importedHeaderModule), None);
    IfDefinedBalanced("__OBJC__", objcBody, None);
    assert Balanced(Lines(""));
    IfDefinedBalanced("__cplusplus", if expose then cxxBody else "", None);
  }
}
