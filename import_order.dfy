/**
 * The entries of a module's import set and the order in which the compatibility header
 * lists them (compareImportModulesByName and the sort that uses it).
 */
module ImportOrder {
  import opened StringOrder

  /** A Swift module. `id` stands for the identity of the module object, `name` for its name. */
  datatype ModuleDecl = ModuleDecl(id: nat, name: string)

  /**
   * One entry of the import set: a Swift module, or a Clang submodule given by its full
   * name, outermost segment first (`Outer.Inner.Leaf` is ["Outer", "Inner", "Leaf"]).
   */
  datatype ImportModule =
    | SwiftModule(decl: ModuleDecl)
    | ClangSubmodule(fullName: seq<string>)

  /** A Clang entry is always a submodule (top-level Clang modules arrive as Swift modules): it has a parent. */
  predicate IsSubmoduleOrSwift(m: ImportModule) {
    m.ClangSubmodule? ==> |m.fullName| >= 2
  }

  /** Two distinct Clang submodules never share a full name. */
  predicate DistinctFullNames(left: ImportModule, right: ImportModule) {
    left.ClangSubmodule? && right.ClangSubmodule? ==> left.fullName != right.fullName
  }

  /** The name of the top-level module a Clang submodule belongs to. */
  function TopLevelModuleName(m: ImportModule): string
    requires m.ClangSubmodule? && m.fullName != []
  {
    m.fullName[0]
  }

  /** ModuleDecl::ReverseFullNameIterator: the segments innermost first, from the submodule up to its top-level module. */
  function ReverseFullName(m: ImportModule): (r: seq<string>)
    requires m.ClangSubmodule?
    ensures |r| == |m.fullName|
    ensures forall i | 0 <= i < |r| :: r[i] == m.fullName[|r| - 1 - i]
  {
    ReverseIndexed(m.fullName);
    Reverse(m.fullName)
  }

  /** The dotted name an `@import` of the entry spells out, as segments; a Swift module has one segment. */
  function FullName(m: ImportModule): (p: seq<string>)
    ensures m.SwiftModule? ==> p == [m.decl.name]
    ensures m.ClangSubmodule? ==> p == m.fullName
  {
    match m
    case SwiftModule(d) => [d.name]
    case ClangSubmodule(path) => path
  }

  /**
   * compareImportModulesByName: a Swift module on the left and a Clang submodule on the
   * right swap places; two Swift modules compare by name; a Clang submodule against a
   * Swift module compares its top-level name against the module's name and never ties;
   * two Clang submodules compare their full names, read back through the reverse
   * iterator from its end, so outermost segment first.
   */
  function CompareImportModulesByName(left: ImportModule, right: ImportModule): (r: int)
    requires IsSubmoduleOrSwift(left) && IsSubmoduleOrSwift(right)
    requires DistinctFullNames(left, right)
    ensures -1 <= r <= 1
    decreases if left.SwiftModule? then 1 else 0
  {
    if left.SwiftModule? && right.ClangSubmodule? then
      -CompareImportModulesByName(right, left)
    else if left.SwiftModule? && right.SwiftModule? then
      StringCompare(left.decl.name, right.decl.name)
    else if right.SwiftModule? then
      if StringCompare(TopLevelModuleName(left), right.decl.name) < 0 then -1 else 1
    else
      if PathCompare(Reverse(ReverseFullName(left)), Reverse(ReverseFullName(right))) < 0 then -1 else 1
  }

  /**
   * The comparator is the lexicographic order of full dotted names, a Swift module being
   * a one-segment name. The submodule requirement is what makes the mixed case agree:
   * a two-segment name that starts with a Swift module's name follows that name.
   */
  lemma CompareIsFullNameOrder(left: ImportModule, right: ImportModule)
    requires IsSubmoduleOrSwift(left) && IsSubmoduleOrSwift(right)
    requires DistinctFullNames(left, right)
    ensures CompareImportModulesByName(left, right) == PathCompare(FullName(left), FullName(right))
    decreases if left.SwiftModule? then 1 else 0
  {
    match (left, right)
    case (SwiftModule(a), SwiftModule(b)) =>
      assert [a.name][1..] == [] && [b.name][1..] == [];
    case (ClangSubmodule(p), SwiftModule(b)) =>
      assert [b.name][1..] == [] && p[1..] != [];
      assert LexCompare(p[1..], [b.name][1..], StringCompare) == 1;
    case (SwiftModule(a), ClangSubmodule(p)) =>
      CompareIsFullNameOrder(right, left);
      PathCompareBasics(p, [a.name]);
    case (ClangSubmodule(p), ClangSubmodule(q)) =>
      ReverseReverse(p);
      ReverseReverse(q);
      PathCompareBasics(p, q);
  }

  /** Two Swift modules: the sign of the lexicographic comparison of their names, 0 exactly when the names are equal. */
  lemma CompareSwiftModules(a: ModuleDecl, b: ModuleDecl)
    ensures var r := CompareImportModulesByName(SwiftModule(a), SwiftModule(b));
      && (r < 0 <==> Precedes(a.name, b.name, CharCompare))
      && (r == 0 <==> a.name == b.name)
      && (r > 0 <==> Precedes(b.name, a.name, CharCompare))
  {
    CharCompareIsOrder();
    StringCompareIsOrder();
    LexCompareMeansPrecedes(a.name, b.name, CharCompare);
    LexCompareMeansPrecedes(b.name, a.name, CharCompare);
  }

  /**
   * A Swift module against a Clang submodule: swapping the arguments negates the answer,
   * the pair never ties, and the submodule comes first exactly when its top-level name
   * precedes the Swift module's name.
   */
  lemma CompareMixed(s: ModuleDecl, c: ImportModule)
    requires c.ClangSubmodule? && IsSubmoduleOrSwift(c)
    ensures CompareImportModulesByName(SwiftModule(s), c) == -CompareImportModulesByName(c, SwiftModule(s))
    ensures CompareImportModulesByName(SwiftModule(s), c) != 0
    ensures CompareImportModulesByName(c, SwiftModule(s)) < 0 <==> Precedes(c.fullName[0], s.name, CharCompare)
  {
    CharCompareIsOrder();
    LexCompareMeansPrecedes(c.fullName[0], s.name, CharCompare);
  }

  /**
   * Two distinct Clang submodules: -1 exactly when the first full name, outermost segment
   * first, precedes the second lexicographically; otherwise 1; never 0.
   */
  lemma CompareClangSubmodules(a: ImportModule, b: ImportModule)
    requires a.ClangSubmodule? && b.ClangSubmodule? && IsSubmoduleOrSwift(a) && IsSubmoduleOrSwift(b)
    requires a.fullName != b.fullName
    ensures var r := CompareImportModulesByName(a, b);
      && (r == -1 <==> Precedes(a.fullName, b.fullName, StringCompare))
      && (r == 1 <==> !Precedes(a.fullName, b.fullName, StringCompare))
  {
    StringCompareIsOrder();
    ReverseReverse(a.fullName);
    ReverseReverse(b.fullName);
    LexCompareMeansPrecedes(a.fullName, b.fullName, StringCompare);
  }

  /** The comparator is antisymmetric and its "sorts first" and "ties" relations transitive, so sorting by it is well defined. */
  lemma CompareIsStrictWeakOrder(a: ImportModule, b: ImportModule, c: ImportModule)
    requires IsSubmoduleOrSwift(a) && IsSubmoduleOrSwift(b) && IsSubmoduleOrSwift(c)
    requires DistinctFullNames(a, b) && DistinctFullNames(b, c) && DistinctFullNames(a, c)
    ensures CompareImportModulesByName(a, b) == -CompareImportModulesByName(b, a)
    ensures CompareImportModulesByName(a, b) < 0 && CompareImportModulesByName(b, c) < 0 ==>
      CompareImportModulesByName(a, c) < 0
    ensures CompareImportModulesByName(a, b) == 0 && CompareImportModulesByName(b, c) == 0 ==>
      CompareImportModulesByName(a, c) == 0
  {
    CompareIsFullNameOrder(a, b);
    CompareIsFullNameOrder(b, a);
    CompareIsFullNameOrder(b, c);
    CompareIsFullNameOrder(a, c);
    PathCompareBasics(FullName(a), FullName(b));
    PathCompareBasics(FullName(b), FullName(c));
    PathCompareBasics(FullName(a), FullName(c));
    if CompareImportModulesByName(a, b) < 0 && CompareImportModulesByName(b, c) < 0 {
      PathCompareTransitive(FullName(a), FullName(b), FullName(c));
    }
  }

  /** Every entry is well formed and no entry occurs twice, as in the import set the entries come from. */
  predicate DistinctImports(xs: seq<ImportModule>) {
    && (forall i | 0 <= i < |xs| :: IsSubmoduleOrSwift(xs[i]))
    && (forall i, j | 0 <= i < j < |xs| :: xs[i] != xs[j])
  }

  /** No entry sorts after a later one. */
  predicate SortedByName(xs: seq<ImportModule>)
    requires DistinctImports(xs)
  {
    forall i, j | 0 <= i < j < |xs| :: CompareImportModulesByName(xs[i], xs[j]) <= 0
  }

  /** Full names that never decrease. */
  predicate NamesAscend(xs: seq<ImportModule>) {
    forall i, j | 0 <= i < j < |xs| :: PathCompare(FullName(xs[i]), FullName(xs[j])) <= 0
  }

  /** Sorted by the comparator is the same as full names never decreasing. */
  lemma SortedMeansNamesAscend(xs: seq<ImportModule>)
    requires DistinctImports(xs)
    ensures SortedByName(xs) <==> NamesAscend(xs)
  {
    forall i, j | 0 <= i < j < |xs|
      ensures CompareImportModulesByName(xs[i], xs[j]) == PathCompare(FullName(xs[i]), FullName(xs[j]))
    {
      CompareIsFullNameOrder(xs[i], xs[j]);
    }
  }

  /** Placing in front an entry whose full name does not follow any other keeps the names ascending. */
  lemma PrependKeepsNamesAscending(x: ImportModule, ys: seq<ImportModule>)
    requires NamesAscend(ys)
    requires forall j | 0 <= j < |ys| :: PathCompare(FullName(x), FullName(ys[j])) <= 0
    ensures NamesAscend([x] + ys)
  {
    var zs := [x] + ys;
    forall i, j | 0 <= i < j < |zs| ensures PathCompare(FullName(zs[i]), FullName(zs[j])) <= 0 {
      if i == 0 {
        assert zs[j] == ys[j - 1];
      } else {
        assert zs[i] == ys[i - 1] && zs[j] == ys[j - 1];
      }
    }
  }

  /** An entry that sorts no later than the head of a sorted list sorts no later than any of it. */
  lemma NoLaterThanHead(x: ImportModule, ys: seq<ImportModule>)
    requires IsSubmoduleOrSwift(x) && DistinctImports(ys) && SortedByName(ys) && x !in ys && ys != []
    requires CompareImportModulesByName(x, ys[0]) <= 0
    ensures forall j | 0 <= j < |ys| :: PathCompare(FullName(x), FullName(ys[j])) <= 0
  {
    SortedMeansNamesAscend(ys);
    CompareIsFullNameOrder(x, ys[0]);
    forall j | 0 < j < |ys| ensures PathCompare(FullName(x), FullName(ys[j])) <= 0 {
      PathCompareTransitive(FullName(x), FullName(ys[0]), FullName(ys[j]));
    }
  }

  /** The head of a sorted list sorts no later than the result of inserting, into its tail, an entry that sorts after it. */
  lemma HeadNoLaterThanInsertion(x: ImportModule, ys: seq<ImportModule>, rest: seq<ImportModule>)
    requires IsSubmoduleOrSwift(x) && DistinctImports(ys) && SortedByName(ys) && x !in ys && ys != []
    requires CompareImportModulesByName(x, ys[0]) > 0
    requires multiset(rest) == multiset(ys[1..]) + multiset{x}
    ensures forall j | 0 <= j < |rest| :: PathCompare(FullName(ys[0]), FullName(rest[j])) <= 0
  {
    SortedMeansNamesAscend(ys);
    CompareIsFullNameOrder(x, ys[0]);
    PathCompareBasics(FullName(x), FullName(ys[0]));
    forall j | 0 <= j < |rest| ensures PathCompare(FullName(ys[0]), FullName(rest[j])) <= 0 {
      assert rest[j] in multiset(rest);
      if rest[j] != x {
        assert rest[j] in ys[1..];
        var k :| 0 <= k < |ys| - 1 && ys[1..][k] == rest[j];
        assert ys[k + 1] == rest[j];
      }
    }
  }

  /** Inserts one entry into a sorted list of entries, after every entry that sorts before it. */
  function InsertByName(x: ImportModule, ys: seq<ImportModule>): (zs: seq<ImportModule>)
    requires IsSubmoduleOrSwift(x) && DistinctImports(ys) && SortedByName(ys) && x !in ys
    ensures multiset(zs) == multiset(ys) + multiset{x}
    ensures DistinctImports(zs) && SortedByName(zs)
  {
    if ys == [] then [x]
    else if CompareImportModulesByName(x, ys[0]) <= 0 then
      InsertInFront(x, ys);
      [x] + ys
    else
      SortedTail(ys);
      var rest := InsertByName(x, ys[1..]);
      InsertAfterHead(x, ys, rest);
      [ys[0]] + rest
  }

  /** The tail of a sorted list of distinct entries is one too. */
  lemma SortedTail(ys: seq<ImportModule>)
    requires DistinctImports(ys) && SortedByName(ys) && ys != []
    ensures DistinctImports(ys[1..]) && SortedByName(ys[1..])
    ensures forall y | y in ys[1..] :: y in ys
  {
    assert forall k | 0 <= k < |ys| - 1 :: ys[1..][k] == ys[k + 1];
  }

  /** An entry that sorts no later than the head goes in front. */
  lemma InsertInFront(x: ImportModule, ys: seq<ImportModule>)
    requires IsSubmoduleOrSwift(x) && DistinctImports(ys) && SortedByName(ys) && x !in ys && ys != []
    requires CompareImportModulesByName(x, ys[0]) <= 0
    ensures DistinctImports([x] + ys) && SortedByName([x] + ys)
  {
    PrependDistinct(x, ys);
    NoLaterThanHead(x, ys);
    SortedMeansNamesAscend(ys);
    PrependKeepsNamesAscending(x, ys);
    SortedMeansNamesAscend([x] + ys);
  }

  /** Placing in front an entry the list does not hold keeps the entries distinct. */
  lemma PrependDistinct(h: ImportModule, xs: seq<ImportModule>)
    requires IsSubmoduleOrSwift(h) && DistinctImports(xs) && h !in xs
    ensures DistinctImports([h] + xs)
  {
    var zs := [h] + xs;
    forall i, j | 0 <= i < j < |zs| ensures zs[i] != zs[j] {
      assert zs[j] == xs[j - 1];
      if i > 0 {
        assert zs[i] == xs[i - 1];
      }
    }
  }

  /** The head of a list of distinct entries is not in what inserting another entry into its tail gives. */
  lemma HeadNotInInsertion(x: ImportModule, ys: seq<ImportModule>, rest: seq<ImportModule>)
    requires DistinctImports(ys) && x !in ys && ys != []
    requires multiset(rest) == multiset(ys[1..]) + multiset{x}
    ensures ys[0] !in rest
  {
    assert ys[0] != x;
    forall k | 0 <= k < |ys| - 1 ensures ys[1..][k] != ys[0] {
      assert ys[1..][k] == ys[k + 1];
    }
    assert ys[0] !in multiset(rest);
  }

  /** An entry that sorts after the head goes into the tail; the head stays in front. */
  lemma InsertAfterHead(x: ImportModule, ys: seq<ImportModule>, rest: seq<ImportModule>)
    requires IsSubmoduleOrSwift(x) && DistinctImports(ys) && SortedByName(ys) && x !in ys && ys != []
    requires CompareImportModulesByName(x, ys[0]) > 0
    requires multiset(rest) == multiset(ys[1..]) + multiset{x}
    requires DistinctImports(rest) && SortedByName(rest)
    ensures multiset([ys[0]] + rest) == multiset(ys) + multiset{x}
    ensures DistinctImports([ys[0]] + rest) && SortedByName([ys[0]] + rest)
  {
    var zs := [ys[0]] + rest;
    assert multiset(zs) == multiset(ys) + multiset{x} by {
      assert ys == [ys[0]] + ys[1..];
    }
    assert DistinctImports(zs) by {
      HeadNotInInsertion(x, ys, rest);
      PrependDistinct(ys[0], rest);
    }
    assert NamesAscend(zs) by {
      HeadNoLaterThanInsertion(x, ys, rest);
      SortedMeansNamesAscend(rest);
      PrependKeepsNamesAscending(ys[0], rest);
    }
    SortedMeansNamesAscend(zs);
  }

  /**
   * llvm::array_pod_sort with compareImportModulesByName: the result holds the same entries
   * and is sorted by the comparator. (The body is an insertion sort; only the contract
   * describes the library routine.)
   */
  function ArrayPodSort(xs: seq<ImportModule>): (ys: seq<ImportModule>)
    requires DistinctImports(xs)
    ensures multiset(ys) == multiset(xs)
    ensures DistinctImports(ys) && SortedByName(ys)
  {
    if xs == [] then []
    else
      assert xs == [xs[0]] + xs[1..];
      var sortedTail := ArrayPodSort(xs[1..]);
      assert xs[0] !in multiset(xs[1..]);
      InsertByName(xs[0], sortedTail)
  }

  /** Full names that strictly increase: no repetition, in lexicographic order. */
  predicate StrictlyAscending(ps: seq<seq<string>>) {
    forall i, j | 0 <= i < j < |ps| :: PathCompare(ps[i], ps[j]) < 0
  }

  /** In a strictly increasing list, the first name sorts before every other name of the list. */
  lemma AscendingHeadIsLeast(ps: seq<seq<string>>, p: seq<string>)
    requires StrictlyAscending(ps) && p in ps && p != ps[0]
    ensures PathCompare(ps[0], p) < 0
  {
    var i :| 0 <= i < |ps| && ps[i] == p;
    assert i != 0;
  }

  /** Dropping the first name of a strictly increasing list leaves a strictly increasing list of the other names. */
  lemma AscendingTail(ps: seq<seq<string>>)
    requires StrictlyAscending(ps) && ps != []
    ensures StrictlyAscending(ps[1..])
    ensures forall p :: p in ps[1..] <==> p in ps && p != ps[0]
  {
    forall i, j | 0 <= i < j < |ps| - 1 ensures PathCompare(ps[1..][i], ps[1..][j]) < 0 {
      assert ps[1..][i] == ps[i + 1] && ps[1..][j] == ps[j + 1];
    }
    forall p ensures p in ps[1..] <==> p in ps && p != ps[0] {
      if p in ps[1..] {
        var k :| 0 <= k < |ps| - 1 && ps[1..][k] == p;
        assert PathCompare(ps[0], ps[k + 1]) < 0;
        PathCompareBasics(ps[0], p);
      }
      if p in ps && p != ps[0] {
        var k :| 0 <= k < |ps| && ps[k] == p;
        assert ps[1..][k - 1] == p;
      }
    }
  }

  /** Two strictly increasing lists of the same names are the same list. */
  lemma {:induction false} AscendingUnique(ps: seq<seq<string>>, qs: seq<seq<string>>)
    requires StrictlyAscending(ps) && StrictlyAscending(qs)
    requires forall p :: p in ps <==> p in qs
    ensures ps == qs
    decreases |ps|
  {
    assert ps != [] ==> ps[0] in qs;
    assert qs != [] ==> qs[0] in ps;
    if ps != [] && qs != [] {
      var a, b := ps[0], qs[0];
      if a != b {
        AscendingHeadIsLeast(ps, b);
        AscendingHeadIsLeast(qs, a);
        PathCompareBasics(a, b);
      }
      AscendingTail(ps);
      AscendingTail(qs);
      AscendingUnique(ps[1..], qs[1..]);
      assert ps == [a] + ps[1..] && qs == [b] + qs[1..];
    }
  }

  /** The least element of a set of full names. */
  ghost predicate IsLeast(m: seq<string>, s: set<seq<string>>) {
    m in s && forall p | p in s && p != m :: PathCompare(m, p) < 0
  }

  /** Every finite non-empty set of full names has a least element. */
  lemma {:induction false} LeastExists(s: set<seq<string>>)
    requires s != {}
    ensures exists m :: IsLeast(m, s)
    decreases |s|
  {
    var x :| x in s;
    if s == {x} {
      assert IsLeast(x, s);
    } else {
      LeastExists(s - {x});
      var m :| IsLeast(m, s - {x});
      PathCompareBasics(m, x);
      if PathCompare(m, x) < 0 {
        assert IsLeast(m, s);
      } else {
        forall p | p in s && p != x ensures PathCompare(x, p) < 0 {
          if p != m {
            PathCompareTransitive(x, m, p);
          }
        }
        assert IsLeast(x, s);
      }
    }
  }

  /** The names of a set, listed once each in increasing order. */
  ghost function Ascending(s: set<seq<string>>): (ps: seq<seq<string>>)
    ensures StrictlyAscending(ps)
    ensures forall p :: p in ps <==> p in s
    decreases |s|
  {
    if s == {} then []
    else
      LeastExists(s);
      var m :| IsLeast(m, s);
      var rest := Ascending(s - {m});
      assert forall i | 0 <= i < |rest| :: rest[i] in s - {m};
      [m] + rest
  }
}
