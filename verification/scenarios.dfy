/**
 * Small import graphs on which the general lemmas about the walk give
 * concrete answers: a cycle, a diamond, test-import scoping, standard
 * library cut-off, a resolution failure, and a full run.
 */
module Scenarios {
  import opened Util
  import opened Build
  import opened Analyzer
  import Vendor

  /** A package with the given imports and test imports and no source files. */
  function Pkg(path: string, imports: seq<string>, testImports: seq<string>): Package {
    Package(path, "/src/" + path, imports, testImports, [], [], [], [], [], [], [], [], [], [], [])
  }

  const EMPTY := Memo(map[], [])

  /** The paths followed from a package built by `Pkg`. */
  lemma PkgDeps(ctx: Context, te: map<string, bool>, path: string, imports: seq<string>, testImports: seq<string>)
    requires path in ctx.resolve && ctx.resolve[path] == Pkg(path, imports, testImports)
    ensures Deps(ctx, te, path) == imports + (if TestEnabled(te, path) then testImports else [])
  {
    DepsFollowTestsOnlyWhenEnabled(ctx, te, path);
  }

  /** A non-std path followed from a member of a closed set is in that set. */
  lemma Reaches(ctx: Context, te: map<string, bool>, keys: set<string>, k: string, d: string)
    requires Closed(ctx, te, keys) && k in keys && d in Deps(ctx, te, k)
    requires d != "C" && d !in ctx.findOnly
    ensures d in keys
  {
    assert DepsWithin(ctx, te, k, keys);
  }

  /** A recorded package whose followed imports all lie in `s` keeps the walk inside `s`. */
  lemma NodeWithin(ctx: Context, te: map<string, bool>, path: string, s: set<string>)
    requires path in ctx.resolve
    requires forall d | d in ctx.resolve[path].imports :: d in s
    requires TestEnabled(te, path) ==>
      (forall d | d in ctx.resolve[path].testImports :: d in s)
      && (forall d | d in ctx.resolve[path].xTestImports :: d in s)
    ensures DepsWithin(ctx, te, path, s)
  {
    DepsFollowTestsOnlyWhenEnabled(ctx, te, path);
  }

  /** A imports B and B imports A: both are recorded, each fetched once. */
  function CycleGraph(): Context {
    Context(map["a" := Pkg("a", ["b"], []), "b" := Pkg("b", ["a"], [])], map[])
  }

  lemma {:induction false} CycleRecordsBothOnce()
    ensures var o := VisitAll(CycleGraph(), map["a" := true], EMPTY, ["a"]);
      && o.err.None?
      && o.memo.packages.Keys == {"a", "b"}
      && Distinct(o.memo.fetched) && Elems(o.memo.fetched) == {"a", "b"}
  {
    var ctx, te := CycleGraph(), map["a" := true];
    assert Deps(ctx, te, "a") == ["b"] by { DepsFollowTestsOnlyWhenEnabled(ctx, te, "a"); }
    assert Closed(ctx, te, {"a", "b"}) by { DepsFollowTestsOnlyWhenEnabled(ctx, te, "b"); }
    WalkWithin(ctx, te, ["a"], {"a", "b"});
    var o := VisitAll(ctx, te, EMPTY, ["a"]);
    assert DepsWithin(ctx, te, "a", o.memo.packages.Keys);
  }

  /** A imports B and C, both import D: D is recorded once and fetched once. */
  function DiamondGraph(): Context {
    Context(map["a" := Pkg("a", ["b", "c"], []), "b" := Pkg("b", ["d"], []),
                "c" := Pkg("c", ["d"], []), "d" := Pkg("d", [], [])], map[])
  }

  lemma {:induction false} DiamondFetchesSharedOnce(ctx: Context, te: map<string, bool>)
    requires ctx == DiamondGraph() && te == map["a" := true]
    ensures var o := VisitAll(ctx, te, EMPTY, ["a"]);
      && o.err.None?
      && o.memo.packages.Keys == {"a", "b", "c", "d"}
      && Distinct(o.memo.fetched) && |o.memo.fetched| == 4
  {
    DiamondDeps();
    DiamondWalk(ctx, te);
    DistinctCard(VisitAll(ctx, te, EMPTY, ["a"]).memo.fetched);
  }

  /** The walk over any graph closed over the diamond's four paths, with the diamond's edges. */
  lemma DiamondWalk(ctx: Context, te: map<string, bool>)
    requires ctx.findOnly == map[] && Closed(ctx, te, {"a", "b", "c", "d"})
    requires Deps(ctx, te, "a") == ["b", "c"] && Deps(ctx, te, "b") == ["d"]
    ensures var o := VisitAll(ctx, te, EMPTY, ["a"]);
      && o.err.None? && o.memo.packages.Keys == {"a", "b", "c", "d"}
      && Distinct(o.memo.fetched) && Elems(o.memo.fetched) == o.memo.packages.Keys
  {
    var all := {"a", "b", "c", "d"};
    WalkWithin(ctx, te, ["a"], all);
    DiamondKeys(ctx, te, VisitAll(ctx, te, EMPTY, ["a"]).memo.packages.Keys);
  }

  /** A closed subset of the diamond's paths that holds its root holds all four. */
  lemma DiamondKeys(ctx: Context, te: map<string, bool>, keys: set<string>)
    requires ctx.findOnly == map[] && Closed(ctx, te, keys) && "a" in keys && keys <= {"a", "b", "c", "d"}
    requires "a" in ctx.resolve && "b" in ctx.resolve
    requires Deps(ctx, te, "a") == ["b", "c"] && Deps(ctx, te, "b") == ["d"]
    ensures keys == {"a", "b", "c", "d"}
  {
    Reaches(ctx, te, keys, "a", "b");
    Reaches(ctx, te, keys, "a", "c");
    Reaches(ctx, te, keys, "b", "d");
  }

  lemma DiamondDeps()
    ensures var ctx, te := DiamondGraph(), map["a" := true];
      && Deps(ctx, te, "a") == ["b", "c"] && Deps(ctx, te, "b") == ["d"]
      && Closed(ctx, te, {"a", "b", "c", "d"})
  {
    var ctx, te := DiamondGraph(), map["a" := true];
    var all := {"a", "b", "c", "d"};
    PkgDeps(ctx, te, "a", ["b", "c"], []);
    PkgDeps(ctx, te, "b", ["d"], []);
    NodeWithin(ctx, te, "c", all);
    NodeWithin(ctx, te, "d", all);
  }

  /** A sequence without repetitions has as many elements as its set of elements. */
  lemma {:induction false} DistinctCard<T>(s: seq<T>)
    requires Distinct(s)
    ensures |Elems(s)| == |s|
  {
    if s != [] {
      DistinctCard(s[1..]);
      assert Elems(s) == Elems(s[1..]) + {s[0]};
      assert s[0] !in Elems(s[1..]);
    }
  }

  /**
   * Seed S imports T and test-imports U; T test-imports V. The test
   * imports of the seed are followed, those of T are not.
   */
  function TestScopeGraph(): Context {
    Context(map["s" := Pkg("s", ["t"], ["u"]), "t" := Pkg("t", [], ["v"]),
                "u" := Pkg("u", [], []), "v" := Pkg("v", [], [])], map[])
  }

  lemma {:induction false} TestImportsOnlyForSeeds(ctx: Context, te: map<string, bool>)
    requires ctx == TestScopeGraph() && te == map["s" := true]
    ensures var o := VisitAll(ctx, te, EMPTY, ["s"]);
      o.err.None? && o.memo.packages.Keys == {"s", "t", "u"}
  {
    TestScopeDeps();
    WalkWithin(ctx, te, ["s"], {"s", "t", "u"});
    TestScopeKeys(ctx, te, VisitAll(ctx, te, EMPTY, ["s"]).memo.packages.Keys);
  }

  /** A closed subset of {S, T, U} that holds S holds all three. */
  lemma TestScopeKeys(ctx: Context, te: map<string, bool>, keys: set<string>)
    requires ctx.findOnly == map[] && Closed(ctx, te, keys) && "s" in keys && keys <= {"s", "t", "u"}
    requires Deps(ctx, te, "s") == ["t", "u"]
    ensures keys == {"s", "t", "u"}
  {
    Reaches(ctx, te, keys, "s", "t");
    Reaches(ctx, te, keys, "s", "u");
  }

  lemma TestScopeDeps()
    ensures var ctx, te := TestScopeGraph(), map["s" := true];
      Deps(ctx, te, "s") == ["t", "u"] && Closed(ctx, te, {"s", "t", "u"})
  {
    var ctx, te := TestScopeGraph(), map["s" := true];
    var all := {"s", "t", "u"};
    PkgDeps(ctx, te, "s", ["t"], ["u"]);
    assert !TestEnabled(te, "t");
    NodeWithin(ctx, te, "t", all);
    NodeWithin(ctx, te, "u", all);
  }

  /**
   * A imports "C" and the GOROOT package "fmt", whose own import "x" does
   * not resolve: neither is recorded and "x" is never looked at.
   */
  function StdGraph(): Context {
    Context(map["a" := Pkg("a", ["C", "fmt"], []), "fmt" := Pkg("fmt", ["x"], [])], map["fmt" := true])
  }

  lemma {:induction false} StdImportsCutOff()
    ensures var o := VisitAll(StdGraph(), map["a" := true], EMPTY, ["a"]);
      o.err.None? && o.memo.packages.Keys == {"a"}
  {
    var ctx, te := StdGraph(), map["a" := true];
    assert Closed(ctx, te, {"a"}) by {
      assert IsStd(ctx, "C") && IsStd(ctx, "fmt");
      DepsFollowTestsOnlyWhenEnabled(ctx, te, "a");
    }
    WalkWithin(ctx, te, ["a"], {"a"});
  }

  /**
   * A imports B then C, and B does not resolve: the walk fails on B and
   * C is never fetched.
   */
  function BrokenGraph(): Context {
    Context(map["a" := Pkg("a", ["b", "c"], []), "c" := Pkg("c", [], [])], map[])
  }

  lemma {:induction false} FailureStopsSiblings()
    ensures var o := VisitAll(BrokenGraph(), map["a" := true], EMPTY, ["a"]);
      o.err == Some(ImportError("b")) && o.memo.fetched == ["a", "b"]
  {
    var ctx, te := BrokenGraph(), map["a" := true];
    var m1 := Memo(map["a" := ctx.resolve["a"]], ["a"]);
    assert Deps(ctx, te, "a") == ["b"] + ["c"] by { DepsFollowTestsOnlyWhenEnabled(ctx, te, "a"); }
    VisitAllAppend(ctx, te, m1, ["b"], ["c"]);
    assert Visit(ctx, te, m1, "b") == Outcome(Memo(m1.packages, ["a", "b"]), Some(ImportError("b")));
    assert VisitAll(ctx, te, m1, ["b"]) == Visit(ctx, te, m1, "b");
    assert Visit(ctx, te, EMPTY, "a") == VisitAll(ctx, te, m1, ["b", "c"]);
  }

  /**
   * A typical run: the local package proj/cmd imports
   * x/a, which imports x/b. The walk records all three, and once the local
   * package is dropped exactly x/a and x/b are vendored, whatever order
   * the records come in.
   */
  function ProjectGraph(): Context {
    Context(map["proj/cmd" := Pkg("proj/cmd", ["github.com/x/a"], []),
                "github.com/x/a" := Pkg("github.com/x/a", ["github.com/x/b"], []),
                "github.com/x/b" := Pkg("github.com/x/b", [], [])], map[])
  }

  lemma {:induction false} ProjectWalk(ctx: Context, te: map<string, bool>)
    requires ctx == ProjectGraph() && te == map["proj/cmd" := true]
    ensures var o := VisitAll(ctx, te, EMPTY, ["proj/cmd"]);
      o.err.None? && o.memo.packages.Keys == {"proj/cmd", "github.com/x/a", "github.com/x/b"}
  {
    ProjectDeps();
    WalkWithin(ctx, te, ["proj/cmd"], {"proj/cmd", "github.com/x/a", "github.com/x/b"});
    ProjectKeys(ctx, te, VisitAll(ctx, te, EMPTY, ["proj/cmd"]).memo.packages.Keys);
  }

  /** A closed subset of the project's three paths that holds proj/cmd holds all three. */
  lemma ProjectKeys(ctx: Context, te: map<string, bool>, keys: set<string>)
    requires ctx.findOnly == map[] && Closed(ctx, te, keys) && "proj/cmd" in keys
    requires keys <= {"proj/cmd", "github.com/x/a", "github.com/x/b"}
    requires "proj/cmd" in ctx.resolve && "github.com/x/a" in ctx.resolve
    requires Deps(ctx, te, "proj/cmd") == ["github.com/x/a"] && Deps(ctx, te, "github.com/x/a") == ["github.com/x/b"]
    ensures keys == {"proj/cmd", "github.com/x/a", "github.com/x/b"}
  {
    Reaches(ctx, te, keys, "proj/cmd", "github.com/x/a");
    Reaches(ctx, te, keys, "github.com/x/a", "github.com/x/b");
  }

  lemma ProjectDeps()
    ensures var ctx, te := ProjectGraph(), map["proj/cmd" := true];
      && Deps(ctx, te, "proj/cmd") == ["github.com/x/a"] && Deps(ctx, te, "github.com/x/a") == ["github.com/x/b"]
      && Closed(ctx, te, {"proj/cmd", "github.com/x/a", "github.com/x/b"})
  {
    var ctx, te := ProjectGraph(), map["proj/cmd" := true];
    var all := {"proj/cmd", "github.com/x/a", "github.com/x/b"};
    PkgDeps(ctx, te, "proj/cmd", ["github.com/x/a"], []);
    PkgDeps(ctx, te, "github.com/x/a", ["github.com/x/b"], []);
    NodeWithin(ctx, te, "github.com/x/b", all);
  }

  lemma {:induction false} LocalPackageNotVendored(pkgs: seq<Package>)
    requires Elems(pkgs) == {ProjectGraph().resolve["proj/cmd"], ProjectGraph().resolve["github.com/x/a"],
                             ProjectGraph().resolve["github.com/x/b"]}
    ensures Elems(Vendor.NonLocal(pkgs, map["proj/cmd" := true]))
         == {ProjectGraph().resolve["github.com/x/a"], ProjectGraph().resolve["github.com/x/b"]}
  {
    var cmd := ProjectGraph().resolve["proj/cmd"];
    var a := ProjectGraph().resolve["github.com/x/a"];
    var b := ProjectGraph().resolve["github.com/x/b"];
    var local := map["proj/cmd" := true];
    Vendor.NonLocalMembers(pkgs, local);
    assert forall p :: p in pkgs <==> p == cmd || p == a || p == b by {
      assert forall p :: p in pkgs <==> p in Elems(pkgs);
    }
    assert Vendor.IsLocal(local, cmd.importPath);
    assert !Vendor.IsLocal(local, a.importPath) && !Vendor.IsLocal(local, b.importPath);
    var selected := Vendor.NonLocal(pkgs, local);
    assert forall p :: p in selected <==> p == a || p == b;
    assert forall p :: p in Elems(selected) <==> p in selected;
  }
}
