/**
 * The transitive import analyzer: a depth-first walk over the (possibly
 * cyclic) import graph that records every non-standard-library package
 * reachable from the seed packages, fetching each one exactly once.
 *
 * `Visit` and `VisitAll` are the functional specification of the walk
 * (`analyze` on one path, and the loop over a list of paths); the class
 * `TransitiveImports` is the walk as the program runs it, with its memo
 * map updated in place, and `Analyze` is proved to compute `Visit`.
 */
module Analyzer {
  import opened Util
  import opened Build

  /**
   * `isStd`: "C" is standard library without any lookup; otherwise the
   * path is standard library exactly when the locate-only probe succeeds
   * and reports a package under GOROOT. A failed probe means "not std".
   */
  function IsStd(ctx: Context, path: string): (std: bool)
    ensures path == "C" ==> std
    ensures path != "C" && path !in ctx.findOnly ==> !std
    ensures std ==> path == "C" || (path in ctx.findOnly && ctx.findOnly[path])
    ensures path in ctx.findOnly && ctx.findOnly[path] ==> std
  {
    if path == "C" then true
    else if path !in ctx.findOnly then false
    else ctx.findOnly[path]
  }

  /** A missing key of a Go `map[string]bool` reads as false. */
  predicate TestEnabled(testEnabled: map<string, bool>, path: string) {
    path in testEnabled && testEnabled[path]
  }

  /** The import lists `analyze` follows for a fetched package, in order. */
  function Sets(pkg: Package, withTests: bool): seq<seq<string>> {
    if withTests then [pkg.imports, pkg.testImports, pkg.xTestImports] else [pkg.imports]
  }

  /** The paths `analyze` recurses into after fetching `path`. */
  function Deps(ctx: Context, testEnabled: map<string, bool>, path: string): seq<string>
    requires path in ctx.resolve
  {
    Flatten(Sets(ctx.resolve[path], TestEnabled(testEnabled, path)))
  }

  /**
   * After fetching `path`, `analyze` follows its imports and, only when
   * `path` is test-enabled (a seed), its test and external test imports.
   */
  lemma DepsFollowTestsOnlyWhenEnabled(ctx: Context, testEnabled: map<string, bool>, path: string)
    requires path in ctx.resolve
    ensures var pkg := ctx.resolve[path];
      Deps(ctx, testEnabled, path)
      == pkg.imports + (if TestEnabled(testEnabled, path) then pkg.testImports + pkg.xTestImports else [])
  {
    var pkg := ctx.resolve[path];
    if TestEnabled(testEnabled, path) {
      var sets := [pkg.imports, pkg.testImports, pkg.xTestImports];
      assert sets[1..] == [pkg.testImports, pkg.xTestImports];
      assert sets[1..][1..] == [pkg.xTestImports];
      assert [pkg.xTestImports][1..] == [];
      assert Flatten([pkg.xTestImports]) == pkg.xTestImports;
      assert Flatten(sets[1..]) == pkg.testImports + pkg.xTestImports;
      assert Flatten(sets) == pkg.imports + (pkg.testImports + pkg.xTestImports);
    } else {
      assert [pkg.imports][1..] == [];
      assert Flatten([pkg.imports]) == pkg.imports;
      assert pkg.imports + [] == pkg.imports;
    }
  }

  /**
   * The walk's state: the memo map (doubling as the visited set) and the
   * log of every `build.Import` call made in full mode, in order.
   */
  datatype Memo = Memo(packages: map<string, Package>, fetched: seq<string>)

  /** The state after a walk, and the error that stopped it, if any. */
  datatype Outcome = Outcome(memo: Memo, err: Option<ImportError>)

  /** `analyze(path)` as a function of the state before the call. */
  function Visit(ctx: Context, testEnabled: map<string, bool>, m: Memo, path: string): (o: Outcome)
    ensures m.packages.Keys <= o.memo.packages.Keys
    decreases ctx.resolve.Keys - m.packages.Keys, 0
  {
    if IsStd(ctx, path) then Outcome(m, None)
    else if path in m.packages then Outcome(m, None)
    else if path !in ctx.resolve then Outcome(Memo(m.packages, m.fetched + [path]), Some(ImportError(path)))
    else
      var recorded := Memo(m.packages[path := ctx.resolve[path]], m.fetched + [path]);
      assert path !in ctx.resolve.Keys - recorded.packages.Keys;
      VisitAll(ctx, testEnabled, recorded, Deps(ctx, testEnabled, path))
  }

  /** `analyze` on each of `deps` in turn, stopping at the first error. */
  function VisitAll(ctx: Context, testEnabled: map<string, bool>, m: Memo, deps: seq<string>): (o: Outcome)
    ensures m.packages.Keys <= o.memo.packages.Keys
    decreases ctx.resolve.Keys - m.packages.Keys, 1, |deps|
  {
    if deps == [] then Outcome(m, None)
    else
      var first := Visit(ctx, testEnabled, m, deps[0]);
      if first.err.Some? then first
      else VisitAll(ctx, testEnabled, first.memo, deps[1..])
  }

  /** The `transitiveImports` struct and its `analyze` method. */
  class TransitiveImports {
    const ctx: Context
    const testEnabled: map<string, bool>
    var packages: map<string, Package>
    ghost var fetched: seq<string>

    ghost function State(): Memo
      reads this
    {
      Memo(packages, fetched)
    }

    constructor (ctx: Context, testEnabled: map<string, bool>)
      ensures this.ctx == ctx && this.testEnabled == testEnabled
      ensures packages == map[] && fetched == []
    {
      this.ctx := ctx;
      this.testEnabled := testEnabled;
      packages := map[];
      fetched := [];
    }

    method Analyze(path: string) returns (err: Option<ImportError>)
      modifies this
      ensures Outcome(State(), err) == Visit(ctx, testEnabled, old(State()), path)
      decreases ctx.resolve.Keys - packages.Keys
    {
      if IsStd(ctx, path) {
        return None;
      }
      if path in packages {
        return None;
      }
      fetched := fetched + [path];
      if path !in ctx.resolve {
        return Some(ImportError(path));
      }
      var pkg := ctx.resolve[path];
      packages := packages[path := pkg];
      var sets := [pkg.imports];
      if TestEnabled(testEnabled, path) {
        sets := sets + [pkg.testImports, pkg.xTestImports];
      }
      assert sets == Sets(pkg, TestEnabled(testEnabled, path));
      ghost var start := State();
      for i := 0 to |sets|
        invariant start.packages.Keys <= packages.Keys
        invariant VisitAll(ctx, testEnabled, start, Flatten(sets))
               == VisitAll(ctx, testEnabled, State(), Flatten(sets[i..]))
      {
        var list := sets[i];
        assert Flatten(sets[i..]) == list + Flatten(sets[i + 1..]) by {
          assert sets[i..][0] == list && sets[i..][1..] == sets[i + 1..];
        }
        for j := 0 to |list|
          invariant start.packages.Keys <= packages.Keys
          invariant VisitAll(ctx, testEnabled, start, Flatten(sets))
                 == VisitAll(ctx, testEnabled, State(), list[j..] + Flatten(sets[i + 1..]))
        {
          ghost var before := State();
          ghost var rest := list[j + 1..] + Flatten(sets[i + 1..]);
          ghost var todo := list[j..] + Flatten(sets[i + 1..]);
          assert todo[0] == list[j] && todo[1..] == rest;
          assert path !in ctx.resolve.Keys - packages.Keys;
          err := Analyze(list[j]);
          if err.Some? {
            return err;
          }
        }
        assert list[|list|..] + Flatten(sets[i + 1..]) == Flatten(sets[i + 1..]);
      }
      return None;
    }
  }

  /** `getTransitiveImports`, the `for p := range paths` loop and the read-out of the memo map. */
  method GetTransitiveImports(ctx: Context, paths: map<string, bool>)
    returns (r: Result<seq<Package>, ImportError>, ghost order: seq<string>, ghost keys: seq<string>)
    ensures Distinct(order) && Elems(order) <= paths.Keys
    ensures var o := VisitAll(ctx, paths, Memo(map[], []), order);
      && (r.Err? ==> o.err == Some(r.error))
      && (r.Ok? ==> o.err.None? && Elems(order) == paths.Keys && Elems(keys) == o.memo.packages.Keys)
    ensures r.Ok? ==> Distinct(keys) && |r.value| == |keys|
    ensures r.Ok? ==> forall i | 0 <= i < |keys| :: keys[i] in ctx.resolve && r.value[i] == ctx.resolve[keys[i]]
    ensures r.Ok? ==> forall k | k in keys :: !IsStd(ctx, k)
    ensures r.Ok? ==> Closed(ctx, paths, Elems(keys)) && SeedsCovered(ctx, paths.Keys, Elems(keys))
    ensures r.Ok? ==> forall s :: Closed(ctx, paths, s) && SeedsCovered(ctx, paths.Keys, s) ==> Elems(keys) <= s
    ensures r.Err? ==> r.error.path !in ctx.resolve && !IsStd(ctx, r.error.path)
    ensures r.Err? ==> forall s :: Closed(ctx, paths, s) ==> !SeedsCovered(ctx, paths.Keys, s)
  {
    keys := [];
    var d := new TransitiveImports(ctx, paths);
    var seeds := paths.Keys;
    order := [];
    while seeds != {}
      invariant d.ctx == ctx && d.testEnabled == paths
      invariant Elems(order) + seeds == paths.Keys && Elems(order) !! seeds && Distinct(order)
      invariant Outcome(d.State(), None) == VisitAll(ctx, paths, Memo(map[], []), order)
      decreases seeds
    {
      var p :| p in seeds;
      ghost var before := d.State();
      var err := d.Analyze(p);
      VisitAllAppend(ctx, paths, Memo(map[], []), order, [p]);
      assert VisitAll(ctx, paths, before, [p]) == Outcome(d.State(), err) by {
        assert [p][0] == p && [p][1..] == [];
      }
      DistinctAppend(order, p);
      order := order + [p];
      if err.Some? {
        r := Err(err.value);
        SeedWalk(ctx, paths, order);
        return;
      }
      seeds := seeds - {p};
    }
    SeedWalk(ctx, paths, order);
    ghost var walk := VisitAll(ctx, paths, Memo(map[], []), order);
    var packages := d.packages;
    assert walk.memo.packages == packages;

    var result;
    result, keys := Values(packages);
    r := Ok(result);
  }

  /** The `for _, p := range d.packages` read-out: every value of the map once, in some order. */
  method Values(packages: map<string, Package>) returns (result: seq<Package>, ghost keys: seq<string>)
    ensures Distinct(keys) && Elems(keys) == packages.Keys && |result| == |keys|
    ensures forall i | 0 <= i < |keys| :: keys[i] in packages && result[i] == packages[keys[i]]
    ensures forall v :: v in result <==> v in packages.Values
  {
    keys := [];
    var remaining := packages.Keys;
    result := [];
    while remaining != {}
      invariant Elems(keys) + remaining == packages.Keys && Elems(keys) !! remaining && Distinct(keys)
      invariant |result| == |keys|
      invariant forall i | 0 <= i < |keys| :: keys[i] in packages && result[i] == packages[keys[i]]
      invariant forall v :: v in result <==> exists k :: k in packages && k !in remaining && packages[k] == v
      decreases remaining
    {
      var k :| k in remaining;
      DistinctAppend(keys, k);
      result := result + [packages[k]];
      keys := keys + [k];
      remaining := remaining - {k};
    }
  }

  /** What `GetTransitiveImports` promises, read off the walk over the seeds in `order`. */
  lemma SeedWalk(ctx: Context, paths: map<string, bool>, order: seq<string>)
    requires Elems(order) <= paths.Keys
    ensures var o := VisitAll(ctx, paths, Memo(map[], []), order);
      var recorded := o.memo.packages.Keys;
      && Faithful(ctx, o.memo.packages)
      && (o.err.Some? ==> o.err.value.path !in ctx.resolve && !IsStd(ctx, o.err.value.path))
      && (o.err.Some? ==> forall s :: Closed(ctx, paths, s) ==> !SeedsCovered(ctx, paths.Keys, s))
      && (o.err.None? && Elems(order) == paths.Keys ==>
            && Closed(ctx, paths, recorded) && SeedsCovered(ctx, paths.Keys, recorded)
            && forall s :: Closed(ctx, paths, s) && SeedsCovered(ctx, paths.Keys, s) ==> recorded <= s)
  {
    WalkFromSeeds(ctx, paths, order);
    var o := VisitAll(ctx, paths, Memo(map[], []), order);
    forall s | SeedsCovered(ctx, paths.Keys, s)
      ensures CoversAll(ctx, order, s)
    {
      assert forall d | d in order :: d in Elems(order);
    }
    if Elems(order) == paths.Keys && o.err.None? {
      assert forall d | d in paths.Keys :: d in order;
    }
  }

  // ---------------------------------------------------------------------
  // Predicates over the walk's state
  // ---------------------------------------------------------------------

  /** Every recorded entry is the resolver's answer for a non-std path. */
  ghost predicate Faithful(ctx: Context, pk: map<string, Package>) {
    forall k | k in pk :: k in ctx.resolve && pk[k] == ctx.resolve[k] && !IsStd(ctx, k)
  }

  /** `after` keeps every entry of `before` and only appends to its fetch log. */
  ghost predicate Extends(before: Memo, after: Memo) {
    && (forall k | k in before.packages :: k in after.packages && after.packages[k] == before.packages[k])
    && before.fetched <= after.fetched
  }

  /** Every path was fetched once, and the fetched paths are the recorded ones. */
  ghost predicate FetchedOnce(m: Memo) {
    Distinct(m.fetched) && Elems(m.fetched) == m.packages.Keys
  }

  /** After a walk: no path fetched twice; a failed fetch is logged but not recorded. */
  ghost predicate FetchLog(o: Outcome) {
    && Distinct(o.memo.fetched)
    && match o.err
       case None => Elems(o.memo.fetched) == o.memo.packages.Keys
       case Some(e) => Elems(o.memo.fetched) == o.memo.packages.Keys + {e.path} && e.path !in o.memo.packages
  }

  /** Every path of `deps` is standard library or in `s`. */
  ghost predicate CoversAll(ctx: Context, deps: seq<string>, s: set<string>) {
    forall d | d in deps :: IsStd(ctx, d) || d in s
  }

  /** Every seed is standard library or in `s`. */
  ghost predicate SeedsCovered(ctx: Context, seeds: set<string>, s: set<string>) {
    forall d | d in seeds :: IsStd(ctx, d) || d in s
  }

  /** `k` resolves and each path the walk follows from it is std or in `s`. */
  ghost predicate DepsWithin(ctx: Context, testEnabled: map<string, bool>, k: string, s: set<string>) {
    k in ctx.resolve && CoversAll(ctx, Deps(ctx, testEnabled, k), s)
  }

  /** `s` is closed under the walk's edges, and every member resolves. */
  ghost predicate Closed(ctx: Context, testEnabled: map<string, bool>, s: set<string>) {
    forall k | k in s :: DepsWithin(ctx, testEnabled, k, s)
  }

  /** Every recorded path off the stack has all of its followed imports recorded or std. */
  ghost predicate ClosedExcept(ctx: Context, testEnabled: map<string, bool>, pk: map<string, Package>, stack: set<string>) {
    forall k | k in pk && k !in stack :: DepsWithin(ctx, testEnabled, k, pk.Keys)
  }

  // ---------------------------------------------------------------------
  // Lemmas about the walk
  // ---------------------------------------------------------------------

  /**
   * The memo only grows, entries never change, and only non-std paths are
   * recorded, each with the resolver's answer; an error names a path that
   * is neither std nor resolvable.
   */
  lemma {:induction false} VisitRecordsFaithfully(ctx: Context, testEnabled: map<string, bool>, m: Memo, path: string)
    requires Faithful(ctx, m.packages)
    ensures var o := Visit(ctx, testEnabled, m, path);
      && Faithful(ctx, o.memo.packages) && Extends(m, o.memo)
      && (o.err.Some? ==> o.err.value.path == path || path in o.memo.packages)
      && (o.err.Some? ==> o.err.value.path !in ctx.resolve && !IsStd(ctx, o.err.value.path))
    decreases ctx.resolve.Keys - m.packages.Keys, 0
  {
    if !IsStd(ctx, path) && path !in m.packages && path in ctx.resolve {
      var recorded := Memo(m.packages[path := ctx.resolve[path]], m.fetched + [path]);
      assert path !in ctx.resolve.Keys - recorded.packages.Keys;
      VisitAllRecordsFaithfully(ctx, testEnabled, recorded, Deps(ctx, testEnabled, path));
    }
  }

  lemma {:induction false} VisitAllRecordsFaithfully(ctx: Context, testEnabled: map<string, bool>, m: Memo, deps: seq<string>)
    requires Faithful(ctx, m.packages)
    ensures var o := VisitAll(ctx, testEnabled, m, deps);
      && Faithful(ctx, o.memo.packages) && Extends(m, o.memo)
      && (o.err.Some? ==> o.err.value.path !in ctx.resolve && !IsStd(ctx, o.err.value.path))
    decreases ctx.resolve.Keys - m.packages.Keys, 1, |deps|
  {
    if deps != [] {
      VisitRecordsFaithfully(ctx, testEnabled, m, deps[0]);
      var first := Visit(ctx, testEnabled, m, deps[0]);
      if first.err.None? {
        VisitAllRecordsFaithfully(ctx, testEnabled, first.memo, deps[1..]);
      }
    }
  }

  /**
   * Memoisation: starting from a state where each recorded path was
   * fetched once, no path is ever fetched a second time.
   */
  lemma {:induction false} VisitFetchesOnce(ctx: Context, testEnabled: map<string, bool>, m: Memo, path: string)
    requires FetchedOnce(m)
    ensures FetchLog(Visit(ctx, testEnabled, m, path))
    decreases ctx.resolve.Keys - m.packages.Keys, 0
  {
    if !IsStd(ctx, path) && path !in m.packages {
      DistinctAppend(m.fetched, path);
      if path in ctx.resolve {
        var recorded := Memo(m.packages[path := ctx.resolve[path]], m.fetched + [path]);
        assert path !in ctx.resolve.Keys - recorded.packages.Keys;
        VisitAllFetchesOnce(ctx, testEnabled, recorded, Deps(ctx, testEnabled, path));
      }
    }
  }

  lemma {:induction false} VisitAllFetchesOnce(ctx: Context, testEnabled: map<string, bool>, m: Memo, deps: seq<string>)
    requires FetchedOnce(m)
    ensures FetchLog(VisitAll(ctx, testEnabled, m, deps))
    decreases ctx.resolve.Keys - m.packages.Keys, 1, |deps|
  {
    if deps != [] {
      VisitFetchesOnce(ctx, testEnabled, m, deps[0]);
      var first := Visit(ctx, testEnabled, m, deps[0]);
      if first.err.None? {
        VisitAllFetchesOnce(ctx, testEnabled, first.memo, deps[1..]);
      }
    }
  }

  lemma DepsWithinGrows(ctx: Context, testEnabled: map<string, bool>, k: string, s: set<string>, t: set<string>)
    requires DepsWithin(ctx, testEnabled, k, s) && s <= t
    ensures DepsWithin(ctx, testEnabled, k, t)
  {
  }

  /**
   * Closure: on success every recorded path that is not an ancestor still
   * being expanded has all of its followed imports recorded (or std), and
   * the visited path itself is recorded unless it is std.
   */
  lemma {:induction false} VisitCloses(ctx: Context, testEnabled: map<string, bool>, m: Memo, path: string, stack: set<string>)
    requires ClosedExcept(ctx, testEnabled, m.packages, stack)
    ensures var o := Visit(ctx, testEnabled, m, path);
      o.err.None? ==> ClosedExcept(ctx, testEnabled, o.memo.packages, stack) && (IsStd(ctx, path) || path in o.memo.packages)
    decreases ctx.resolve.Keys - m.packages.Keys, 0
  {
    if !IsStd(ctx, path) && path !in m.packages && path in ctx.resolve {
      var recorded := Memo(m.packages[path := ctx.resolve[path]], m.fetched + [path]);
      forall k | k in recorded.packages && k !in stack + {path}
        ensures DepsWithin(ctx, testEnabled, k, recorded.packages.Keys)
      {
        DepsWithinGrows(ctx, testEnabled, k, m.packages.Keys, recorded.packages.Keys);
      }
      var deps := Deps(ctx, testEnabled, path);
      assert path !in ctx.resolve.Keys - recorded.packages.Keys;
      VisitAllCloses(ctx, testEnabled, recorded, deps, stack + {path});
      var o := VisitAll(ctx, testEnabled, recorded, deps);
      if o.err.None? {
        assert DepsWithin(ctx, testEnabled, path, o.memo.packages.Keys);
      }
    }
  }

  lemma {:induction false} VisitAllCloses(ctx: Context, testEnabled: map<string, bool>, m: Memo, deps: seq<string>, stack: set<string>)
    requires ClosedExcept(ctx, testEnabled, m.packages, stack)
    ensures var o := VisitAll(ctx, testEnabled, m, deps);
      o.err.None? ==> ClosedExcept(ctx, testEnabled, o.memo.packages, stack) && CoversAll(ctx, deps, o.memo.packages.Keys)
    decreases ctx.resolve.Keys - m.packages.Keys, 1, |deps|
  {
    if deps != [] {
      VisitCloses(ctx, testEnabled, m, deps[0], stack);
      var first := Visit(ctx, testEnabled, m, deps[0]);
      if first.err.None? {
        VisitAllCloses(ctx, testEnabled, first.memo, deps[1..], stack);
        var o := VisitAll(ctx, testEnabled, first.memo, deps[1..]);
        assert forall d | d in deps :: d == deps[0] || d in deps[1..];
      }
    }
  }

  /**
   * Soundness and success: if a closed set `s` covers the visited path,
   * the walk cannot fail and records nothing outside `s`.
   */
  lemma {:induction false} VisitWithin(ctx: Context, testEnabled: map<string, bool>, m: Memo, path: string, s: set<string>)
    requires Closed(ctx, testEnabled, s)
    ensures var o := Visit(ctx, testEnabled, m, path);
      (IsStd(ctx, path) || path in s) ==> o.err.None? && o.memo.packages.Keys <= m.packages.Keys + s
    decreases ctx.resolve.Keys - m.packages.Keys, 0
  {
    if !IsStd(ctx, path) && path in s && path !in m.packages {
      assert DepsWithin(ctx, testEnabled, path, s);
      var recorded := Memo(m.packages[path := ctx.resolve[path]], m.fetched + [path]);
      assert path !in ctx.resolve.Keys - recorded.packages.Keys;
      VisitAllWithin(ctx, testEnabled, recorded, Deps(ctx, testEnabled, path), s);
    }
  }

  lemma {:induction false} VisitAllWithin(ctx: Context, testEnabled: map<string, bool>, m: Memo, deps: seq<string>, s: set<string>)
    requires Closed(ctx, testEnabled, s)
    ensures var o := VisitAll(ctx, testEnabled, m, deps);
      CoversAll(ctx, deps, s) ==> o.err.None? && o.memo.packages.Keys <= m.packages.Keys + s
    decreases ctx.resolve.Keys - m.packages.Keys, 1, |deps|
  {
    if deps != [] && CoversAll(ctx, deps, s) {
      VisitWithin(ctx, testEnabled, m, deps[0], s);
      var first := Visit(ctx, testEnabled, m, deps[0]);
      assert CoversAll(ctx, deps[1..], s);
      VisitAllWithin(ctx, testEnabled, first.memo, deps[1..], s);
    }
  }

  /**
   * Error propagation: walking `a + b` is walking `a` and, only if that
   * succeeded, walking `b` from where `a` left off. When `a` fails, no
   * path of `b` is visited.
   */
  lemma {:induction false} VisitAllAppend(ctx: Context, testEnabled: map<string, bool>, m: Memo, a: seq<string>, b: seq<string>)
    ensures var oa := VisitAll(ctx, testEnabled, m, a);
      VisitAll(ctx, testEnabled, m, a + b) == if oa.err.Some? then oa else VisitAll(ctx, testEnabled, oa.memo, b)
    decreases |a|
  {
    if a == [] {
      assert a + b == b;
    } else {
      assert (a + b)[0] == a[0] && (a + b)[1..] == a[1..] + b;
      var first := Visit(ctx, testEnabled, m, a[0]);
      if first.err.None? {
        VisitAllAppend(ctx, testEnabled, first.memo, a[1..], b);
      }
    }
  }

  /**
   * A closed set `s` covering the seeds bounds the walk from an empty memo:
   * the walk succeeds, records a closed subset of `s` that covers the
   * seeds, and fetches each recorded path exactly once.
   */
  lemma WalkWithin(ctx: Context, testEnabled: map<string, bool>, order: seq<string>, s: set<string>)
    requires Closed(ctx, testEnabled, s) && CoversAll(ctx, order, s)
    ensures var o := VisitAll(ctx, testEnabled, Memo(map[], []), order);
      && o.err.None? && o.memo.packages.Keys <= s
      && Closed(ctx, testEnabled, o.memo.packages.Keys) && CoversAll(ctx, order, o.memo.packages.Keys)
      && Distinct(o.memo.fetched) && Elems(o.memo.fetched) == o.memo.packages.Keys
  {
    var empty := Memo(map[], []);
    assert Elems(empty.fetched) == {};
    VisitAllWithin(ctx, testEnabled, empty, order, s);
    VisitAllFetchesOnce(ctx, testEnabled, empty, order);
    VisitAllCloses(ctx, testEnabled, empty, order, {});
  }

  /**
   * The walk over the seeds, from an empty memo, in any order: it records
   * only non-std resolver answers, fetches each path at most once, and on
   * success records a closed set covering the seeds that is contained in
   * every other such set. It fails exactly when no closed set covers the
   * seeds, and then names an unresolvable, non-std path.
   */
  lemma {:induction false} WalkFromSeeds(ctx: Context, testEnabled: map<string, bool>, order: seq<string>)
    ensures var o := VisitAll(ctx, testEnabled, Memo(map[], []), order);
      && Faithful(ctx, o.memo.packages)
      && FetchLog(o)
      && (o.err.None? ==> Closed(ctx, testEnabled, o.memo.packages.Keys) && CoversAll(ctx, order, o.memo.packages.Keys))
      && (o.err.Some? ==> o.err.value.path !in ctx.resolve && !IsStd(ctx, o.err.value.path))
      && (forall s | Closed(ctx, testEnabled, s) && CoversAll(ctx, order, s) :: o.err.None? && o.memo.packages.Keys <= s)
  {
    var empty := Memo(map[], []);
    assert Elems(empty.fetched) == {};
    VisitAllRecordsFaithfully(ctx, testEnabled, empty, order);
    VisitAllFetchesOnce(ctx, testEnabled, empty, order);
    VisitAllCloses(ctx, testEnabled, empty, order, {});
    var o := VisitAll(ctx, testEnabled, empty, order);
    forall s | Closed(ctx, testEnabled, s) && CoversAll(ctx, order, s)
      ensures o.err.None? && o.memo.packages.Keys <= s
    {
      VisitAllWithin(ctx, testEnabled, empty, order, s);
    }
  }
}
