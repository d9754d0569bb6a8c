/**
 * Which packages get vendored and which file operations vendoring one
 * package issues. The file system is not modelled: an operation is an
 * `Effect` value, and `fails` names the operations that would return an
 * error, so the issued operations and the error are pure functions.
 */
module Vendor {
  import opened Util
  import opened Build

  /** The auxiliary files copied when present, with errors ignored. */
  const SPECIALS: seq<string> :=
    ["license", "LICENSE", "patents", "PATENTS", "readme", "README", "readme.md", "README.md"]

  predicate HasPrefix(s: string, prefix: string) {
    |prefix| <= |s| && s[..|prefix|] == prefix
  }

  predicate HasSuffix(s: string, suffix: string) {
    |suffix| <= |s| && s[|s| - |suffix|..] == suffix
  }

  /** Go test sources, never vendored. */
  predicate IsTestFile(name: string) {
    HasSuffix(name, "_test.go")
  }

  /** `filepath.Join` of two components, without path cleaning. */
  function Join(dir: string, name: string): string {
    dir + "/" + name
  }

  lemma JoinInjective(dir: string, a: string, b: string)
    requires Join(dir, a) == Join(dir, b)
    ensures a == b
  {
    assert a == Join(dir, a)[|dir| + 1..];
  }

  /** `localImports[path]` on a Go `map[string]bool`. */
  predicate IsLocal(localImports: map<string, bool>, path: string) {
    path in localImports && localImports[path]
  }

  /** A file-system operation the tool issues. */
  datatype Effect = MkdirAll(dir: string) | Copy(src: string, dst: string)

  /** The operations issued, in order, and the error that stopped them, if any. */
  datatype Trace = Trace(issued: seq<Effect>, err: Option<Effect>)

  // ---------------------------------------------------------------------
  // The local package set and the vendor set (main)
  // ---------------------------------------------------------------------

  /**
   * The local-discovery walk's filter and the `localImports` map built from
   * its result: every discovered package except those whose import path
   * starts with the vendor directory's import path.
   */
  method LocalImports(found: seq<Package>, vendorImportPath: string) returns (localImports: map<string, bool>)
    ensures forall i | 0 <= i < |found| ::
      found[i].importPath in localImports <==> !HasPrefix(found[i].importPath, vendorImportPath)
    ensures forall p | p in localImports ::
      localImports[p] && exists i | 0 <= i < |found| :: found[i].importPath == p
  {
    localImports := map[];
    for n := 0 to |found|
      invariant forall i | 0 <= i < n ::
        found[i].importPath in localImports <==> !HasPrefix(found[i].importPath, vendorImportPath)
      invariant forall p | p in localImports ::
        localImports[p] && !HasPrefix(p, vendorImportPath) && exists i | 0 <= i < n :: found[i].importPath == p
    {
      var pkg := found[n];
      if HasPrefix(pkg.importPath, vendorImportPath) {
        continue;
      }
      localImports := localImports[pkg.importPath := true];
    }
  }

  /** The packages of `pkgs` that are not local, in order. */
  function NonLocal(pkgs: seq<Package>, localImports: map<string, bool>): seq<Package> {
    if pkgs == [] then []
    else if IsLocal(localImports, pkgs[0].importPath) then NonLocal(pkgs[1..], localImports)
    else [pkgs[0]] + NonLocal(pkgs[1..], localImports)
  }

  /** The vendor set is the resolved set minus the local packages. */
  lemma {:induction false} NonLocalMembers(pkgs: seq<Package>, localImports: map<string, bool>)
    ensures forall p :: p in NonLocal(pkgs, localImports) <==> p in pkgs && !IsLocal(localImports, p.importPath)
  {
    if pkgs != [] {
      NonLocalMembers(pkgs[1..], localImports);
      assert forall p | p in pkgs :: p == pkgs[0] || p in pkgs[1..];
    }
  }

  // ---------------------------------------------------------------------
  // Vendoring one package
  // ---------------------------------------------------------------------

  /** The directory a package is vendored into. */
  function TargetDir(dir: string, pkg: Package): string {
    Join(dir, pkg.importPath)
  }

  /** The file lists `vendor` walks, in order; `sFiles` are the base names of the `*.s` glob. */
  function FileSets(pkg: Package, sFiles: seq<string>): seq<seq<string>> {
    [pkg.goFiles, pkg.cgoFiles, pkg.ignoredGoFiles, pkg.cFiles, pkg.cxxFiles, pkg.mFiles,
     pkg.hFiles, sFiles, pkg.swigFiles, pkg.swigCXXFiles, pkg.sysoFiles]
  }

  /** One copy per file that is not a test file, from `srcDir` into `targetDir`. */
  function Copies(srcDir: string, targetDir: string, files: seq<string>): seq<Effect> {
    if files == [] then []
    else
      (if IsTestFile(files[0]) then [] else [Copy(Join(srcDir, files[0]), Join(targetDir, files[0]))])
      + Copies(srcDir, targetDir, files[1..])
  }

  /** The copies of the auxiliary files. */
  function SpecialCopies(srcDir: string, targetDir: string): seq<Effect> {
    seq(|SPECIALS|, k requires 0 <= k < |SPECIALS| => Copy(Join(srcDir, SPECIALS[k]), Join(targetDir, SPECIALS[k])))
  }

  /** Issue `cs` in order, stopping after the first one that fails. */
  function IssueUntilFailure(cs: seq<Effect>, fails: set<Effect>): Trace {
    if cs == [] then Trace([], None)
    else if cs[0] in fails then Trace([cs[0]], Some(cs[0]))
    else
      var rest := IssueUntilFailure(cs[1..], fails);
      Trace([cs[0]] + rest.issued, rest.err)
  }

  /** `vendor(dir, pkg)` with the dry-run flag: the operations it issues and its error. */
  function VendorEffects(dir: string, pkg: Package, sFiles: seq<string>, dryRun: bool, fails: set<Effect>): Trace {
    var target := TargetDir(dir, pkg);
    if MkdirAll(target) in fails then Trace([MkdirAll(target)], Some(MkdirAll(target)))
    else if dryRun then Trace([MkdirAll(target)], None)
    else
      var listed := IssueUntilFailure(Copies(pkg.dir, target, Flatten(FileSets(pkg, sFiles))), fails);
      Trace([MkdirAll(target)] + listed.issued + (if listed.err.None? then SpecialCopies(pkg.dir, target) else []),
            listed.err)
  }

  /**
   * The inner loop of `vendor` over one file list: skip test files, and
   * unless in dry-run mode copy each file, stopping at the first failure.
   */
  method CopyFiles(srcDir: string, targetDir: string, files: seq<string>, dryRun: bool, fails: set<Effect>)
    returns (t: Trace)
    ensures t == if dryRun then Trace([], None) else IssueUntilFailure(Copies(srcDir, targetDir, files), fails)
  {
    var issued := [];
    var rest := files;
    ghost var all: Trace := if dryRun then Trace([], None) else IssueUntilFailure(Copies(srcDir, targetDir, files), fails);
    ghost var left := all;
    while rest != []
      invariant left == if dryRun then Trace([], None) else IssueUntilFailure(Copies(srcDir, targetDir, rest), fails)
      invariant all == Trace(issued + left.issued, left.err)
    {
      var file := rest[0];
      ghost var copies := Copies(srcDir, targetDir, rest);
      rest := rest[1..];
      ghost var next := if dryRun then Trace([], None) else IssueUntilFailure(Copies(srcDir, targetDir, rest), fails);
      if IsTestFile(file) {
        assert copies == Copies(srcDir, targetDir, rest);
        left := next;
        continue;
      }
      var src := Join(srcDir, file);
      var dst := Join(targetDir, file);
      if !dryRun {
        assert ([Copy(src, dst)] + Copies(srcDir, targetDir, rest))[1..] == Copies(srcDir, targetDir, rest);
        if Copy(src, dst) in fails {
          return Trace(issued + [Copy(src, dst)], Some(Copy(src, dst)));
        }
        AppendAssoc(issued, [Copy(src, dst)], next.issued);
        issued := issued + [Copy(src, dst)];
      }
      left := next;
    }
    return Trace(issued, None);
  }


  /** The outer loop of `vendor` over the file lists, stopping at the first failed copy. */
  method CopyLists(srcDir: string, targetDir: string, sets: seq<seq<string>>, dryRun: bool, fails: set<Effect>)
    returns (t: Trace)
    ensures t == if dryRun then Trace([], None) else IssueUntilFailure(Copies(srcDir, targetDir, Flatten(sets)), fails)
  {
    var issued := [];
    var rest := sets;
    ghost var all: Trace := if dryRun then Trace([], None) else IssueUntilFailure(Copies(srcDir, targetDir, Flatten(sets)), fails);
    ghost var left := all;
    while rest != []
      invariant left == if dryRun then Trace([], None) else IssueUntilFailure(Copies(srcDir, targetDir, Flatten(rest)), fails)
      invariant all == Trace(issued + left.issued, left.err)
    {
      var list := rest[0];
      rest := rest[1..];
      var one := CopyFiles(srcDir, targetDir, list, dryRun, fails);
      ghost var next := if dryRun then Trace([], None) else IssueUntilFailure(Copies(srcDir, targetDir, Flatten(rest)), fails);
      if !dryRun {
        CopiesAppend(srcDir, targetDir, list, Flatten(rest));
        IssueAppend(Copies(srcDir, targetDir, list), Copies(srcDir, targetDir, Flatten(rest)), fails);
      }
      if one.err.Some? {
        return Trace(issued + one.issued, one.err);
      }
      AppendAssoc(issued, one.issued, next.issued);
      issued := issued + one.issued;
      left := next;
    }
    return Trace(issued, None);
  }


  /** `vendor(dir, pkg)`: create the target directory, copy the listed files, then the auxiliary ones. */
  method Vendor(dir: string, pkg: Package, sFiles: seq<string>, dryRun: bool, fails: set<Effect>) returns (t: Trace)
    ensures t == VendorEffects(dir, pkg, sFiles, dryRun, fails)
  {
    var targetDir := Join(dir, pkg.importPath);
    var issued := [MkdirAll(targetDir)];
    if MkdirAll(targetDir) in fails {
      return Trace(issued, Some(MkdirAll(targetDir)));
    }
    var sets := [pkg.goFiles, pkg.cgoFiles, pkg.ignoredGoFiles, pkg.cFiles, pkg.cxxFiles, pkg.mFiles,
                 pkg.hFiles, sFiles, pkg.swigFiles, pkg.swigCXXFiles, pkg.sysoFiles];
    assert sets == FileSets(pkg, sFiles);
    var listed := CopyLists(pkg.dir, targetDir, sets, dryRun, fails);
    issued := issued + listed.issued;
    if listed.err.Some? {
      return Trace(issued, listed.err);
    }
    if !dryRun {
      ghost var base := issued;
      for k := 0 to |SPECIALS|
        invariant issued == base + SpecialCopies(pkg.dir, targetDir)[..k]
      {
        // the error of copying an auxiliary file is ignored
        issued := issued + [Copy(Join(pkg.dir, SPECIALS[k]), Join(targetDir, SPECIALS[k]))];
      }
      assert SpecialCopies(pkg.dir, targetDir)[..|SPECIALS|] == SpecialCopies(pkg.dir, targetDir);
    }
    return Trace(issued, None);
  }

  // ---------------------------------------------------------------------
  // Vendoring every non-local package (the loop at the end of main)
  // ---------------------------------------------------------------------

  /** The `*.s` files found in a package directory; a directory that is not a key has none. */
  function AsmFiles(asm: map<string, seq<string>>, dir: string): seq<string> {
    if dir in asm then asm[dir] else []
  }

  /** `vendor` on each package in turn, stopping at the first error. */
  function VendorEach(dir: string, pkgs: seq<Package>, asm: map<string, seq<string>>, dryRun: bool, fails: set<Effect>): Trace {
    if pkgs == [] then Trace([], None)
    else
      var first := VendorEffects(dir, pkgs[0], AsmFiles(asm, pkgs[0].dir), dryRun, fails);
      if first.err.Some? then first
      else
        var rest := VendorEach(dir, pkgs[1..], asm, dryRun, fails);
        Trace(first.issued + rest.issued, rest.err)
  }

  /** The loop at the end of `main` over the resolved packages: skip local ones, vendor the rest, stop at an error. */
  method VendorAll(dir: string, transitive: seq<Package>, localImports: map<string, bool>,
                   asm: map<string, seq<string>>, dryRun: bool, fails: set<Effect>) returns (t: Trace)
    ensures t == VendorEach(dir, NonLocal(transitive, localImports), asm, dryRun, fails)
  {
    var issued := [];
    var rest := transitive;
    ghost var all := VendorEach(dir, NonLocal(transitive, localImports), asm, dryRun, fails);
    ghost var left := all;
    while rest != []
      invariant left == VendorEach(dir, NonLocal(rest, localImports), asm, dryRun, fails)
      invariant all == Trace(issued + left.issued, left.err)
    {
      var pkg := rest[0];
      ghost var later := NonLocal(rest[1..], localImports);
      assert NonLocal(rest, localImports)
          == if IsLocal(localImports, pkg.importPath) then later else [pkg] + later;
      rest := rest[1..];
      ghost var next := VendorEach(dir, later, asm, dryRun, fails);
      if IsLocal(localImports, pkg.importPath) {
        left := next;
        continue;
      }
      assert ([pkg] + later)[0] == pkg && ([pkg] + later)[1..] == later;
      var one := Vendor(dir, pkg, AsmFiles(asm, pkg.dir), dryRun, fails);
      if one.err.Some? {
        return Trace(issued + one.issued, one.err);
      }
      AppendAssoc(issued, one.issued, next.issued);
      issued := issued + one.issued;
      left := next;
    }
    return Trace(issued, None);
  }

  // ---------------------------------------------------------------------
  // Properties
  // ---------------------------------------------------------------------

  /** Issuing stops exactly at the first failing operation, and issues nothing after it. */
  lemma {:induction false} IssueUntilFailureStops(cs: seq<Effect>, fails: set<Effect>)
    ensures var t := IssueUntilFailure(cs, fails);
      && t.issued <= cs
      && (t.err.None? ==> t.issued == cs && forall e | e in cs :: e !in fails)
      && (t.err.Some? ==> t.issued != [] && t.err.value == t.issued[|t.issued| - 1] && t.err.value in fails
                          && forall i | 0 <= i < |t.issued| - 1 :: t.issued[i] !in fails)
  {
    if cs != [] && cs[0] !in fails {
      IssueUntilFailureStops(cs[1..], fails);
      assert forall e | e in cs :: e == cs[0] || e in cs[1..];
    }
  }

  /** Vendoring a list of packages succeeds iff `vendor` succeeds on every one of them. */
  lemma {:induction false} VendorEachSucceeds(dir: string, pkgs: seq<Package>, asm: map<string, seq<string>>,
                                              dryRun: bool, fails: set<Effect>)
    ensures VendorEach(dir, pkgs, asm, dryRun, fails).err.None?
        <==> forall i | 0 <= i < |pkgs| :: VendorEffects(dir, pkgs[i], AsmFiles(asm, pkgs[i].dir), dryRun, fails).err.None?
  {
    if pkgs != [] {
      VendorEachSucceeds(dir, pkgs[1..], asm, dryRun, fails);
      assert forall i | 1 <= i < |pkgs| :: pkgs[i] == pkgs[1..][i - 1];
    }
  }

  /**
   * On an error, some package `pkgs[i]` failed, everything before it was
   * vendored without error, its own effects end the issued list and no
   * later package is touched.
   */
  lemma {:induction false} VendorEachStops(dir: string, pkgs: seq<Package>, asm: map<string, seq<string>>,
                                           dryRun: bool, fails: set<Effect>)
    ensures var t := VendorEach(dir, pkgs, asm, dryRun, fails);
      t.err.Some? ==> exists i | 0 <= i < |pkgs| ::
        var f := VendorEffects(dir, pkgs[i], AsmFiles(asm, pkgs[i].dir), dryRun, fails);
        var before := VendorEach(dir, pkgs[..i], asm, dryRun, fails);
        && before.err.None? && f.err.Some? && t == Trace(before.issued + f.issued, f.err)
  {
    if pkgs != [] {
      var first := VendorEffects(dir, pkgs[0], AsmFiles(asm, pkgs[0].dir), dryRun, fails);
      var t := VendorEach(dir, pkgs, asm, dryRun, fails);
      if first.err.Some? {
        assert pkgs[..0] == [];
        assert t == Trace([] + first.issued, first.err);
      } else {
        var tail := pkgs[1..];
        VendorEachStops(dir, tail, asm, dryRun, fails);
        var rest := VendorEach(dir, tail, asm, dryRun, fails);
        if rest.err.Some? {
          var j :| 0 <= j < |tail| &&
            var f := VendorEffects(dir, tail[j], AsmFiles(asm, tail[j].dir), dryRun, fails);
            var before := VendorEach(dir, tail[..j], asm, dryRun, fails);
            && before.err.None? && f.err.Some? && rest == Trace(before.issued + f.issued, f.err);
          var f := VendorEffects(dir, tail[j], AsmFiles(asm, tail[j].dir), dryRun, fails);
          var before := VendorEach(dir, tail[..j], asm, dryRun, fails);
          assert pkgs[..j + 1][0] == pkgs[0] && pkgs[..j + 1][1..] == tail[..j];
          AppendAssoc(first.issued, before.issued, f.issued);
          assert pkgs[j + 1] == tail[j];
        }
      }
    }
  }

  /** Copying two lists of files one after the other issues the copies of each, in order. */
  lemma {:induction false} CopiesAppend(srcDir: string, targetDir: string, a: seq<string>, b: seq<string>)
    ensures Copies(srcDir, targetDir, a + b) == Copies(srcDir, targetDir, a) + Copies(srcDir, targetDir, b)
  {
    if a != [] {
      assert (a + b)[0] == a[0] && (a + b)[1..] == a[1..] + b;
      CopiesAppend(srcDir, targetDir, a[1..], b);
      var head := if IsTestFile(a[0]) then [] else [Copy(Join(srcDir, a[0]), Join(targetDir, a[0]))];
      assert Copies(srcDir, targetDir, a + b) == head + Copies(srcDir, targetDir, a[1..] + b);
      assert head + (Copies(srcDir, targetDir, a[1..]) + Copies(srcDir, targetDir, b))
          == (head + Copies(srcDir, targetDir, a[1..])) + Copies(srcDir, targetDir, b);
    } else {
      assert a + b == b;
    }
  }

  /**
   * Issuing `a + b` issues `a`; if that stops on a failure, nothing of `b`
   * is issued, otherwise `b` is issued next and its error is the error.
   */
  lemma {:induction false} IssueAppend(a: seq<Effect>, b: seq<Effect>, fails: set<Effect>)
    ensures var ta := IssueUntilFailure(a, fails);
      IssueUntilFailure(a + b, fails)
      == if ta.err.Some? then ta else Trace(ta.issued + IssueUntilFailure(b, fails).issued, IssueUntilFailure(b, fails).err)
  {
    if a != [] {
      assert (a + b)[0] == a[0] && (a + b)[1..] == a[1..] + b;
      if a[0] !in fails {
        IssueAppend(a[1..], b, fails);
        var tb := IssueUntilFailure(b, fails);
        var ta1 := IssueUntilFailure(a[1..], fails);
        assert IssueUntilFailure(a + b, fails) == Trace([a[0]] + IssueUntilFailure(a[1..] + b, fails).issued, IssueUntilFailure(a[1..] + b, fails).err);
        AppendAssoc([a[0]], ta1.issued, tb.issued);
      }
    } else {
      assert a + b == b;
    }
  }

  /** The positions in `files`, from `from` on and in increasing order, of the files that are not tests. */
  ghost function NonTestFrom(files: seq<string>, from: nat): (idx: seq<nat>)
    requires from <= |files|
    ensures forall j | 0 <= j < |idx| :: from <= idx[j] < |files|
    decreases |files| - from
  {
    if from == |files| then []
    else if IsTestFile(files[from]) then NonTestFrom(files, from + 1)
    else [from] + NonTestFrom(files, from + 1)
  }

  /** `NonTestFrom` lists exactly the non-test positions from `from` on, each once, in increasing order. */
  lemma {:induction false} NonTestPositions(files: seq<string>, from: nat)
    requires from <= |files|
    ensures var idx := NonTestFrom(files, from);
      && (forall j | 0 <= j < |idx| :: !IsTestFile(files[idx[j]]))
      && (forall j, k | 0 <= j < k < |idx| :: idx[j] < idx[k])
      && (forall i | from <= i < |files| :: !IsTestFile(files[i]) <==> i in idx)
    decreases |files| - from
  {
    if from < |files| {
      NonTestPositions(files, from + 1);
    }
  }

  /** The copies of `files[from..]` are, position by position, the copies of its non-test files. */
  lemma {:induction false} CopiesAt(srcDir: string, targetDir: string, files: seq<string>, from: nat)
    requires from <= |files|
    ensures var idx := NonTestFrom(files, from);
      var cs := Copies(srcDir, targetDir, files[from..]);
      && |cs| == |idx|
      && forall j | 0 <= j < |idx| :: cs[j] == Copy(Join(srcDir, files[idx[j]]), Join(targetDir, files[idx[j]]))
    decreases |files| - from
  {
    if from < |files| {
      CopiesAt(srcDir, targetDir, files, from + 1);
      var f := files[from];
      assert files[from..][0] == f && files[from..][1..] == files[from + 1..];
      var later := Copies(srcDir, targetDir, files[from + 1..]);
      var rest := NonTestFrom(files, from + 1);
      if !IsTestFile(f) {
        var cs := [Copy(Join(srcDir, f), Join(targetDir, f))] + later;
        assert Copies(srcDir, targetDir, files[from..]) == cs;
        var idx := [from] + rest;
        forall j | 1 <= j < |idx|
          ensures cs[j] == Copy(Join(srcDir, files[idx[j]]), Join(targetDir, files[idx[j]]))
        {
          assert idx[j] == rest[j - 1] && cs[j] == later[j - 1];
        }
      }
    }
  }

  /** Every non-test file has its copy, and every copy is of a non-test file. */
  lemma {:induction false} CopiesNonTest(srcDir: string, targetDir: string, files: seq<string>)
    ensures forall f | f in files && !IsTestFile(f) :: Copy(Join(srcDir, f), Join(targetDir, f)) in Copies(srcDir, targetDir, files)
    ensures forall e | e in Copies(srcDir, targetDir, files) ::
      exists f | f in files :: !IsTestFile(f) && e == Copy(Join(srcDir, f), Join(targetDir, f))
  {
    if files != [] {
      CopiesNonTest(srcDir, targetDir, files[1..]);
      assert forall f | f in files :: f == files[0] || f in files[1..];
    }
  }

  /**
   * The listed copies are exactly the non-test files, each copied once from
   * the package dir to the target dir, in the order of the list: the j-th
   * copy is that of the j-th non-test file.
   */
  lemma CopiesExactlyNonTest(srcDir: string, targetDir: string, files: seq<string>)
    ensures var idx := NonTestFrom(files, 0);
      var cs := Copies(srcDir, targetDir, files);
      && (forall i | 0 <= i < |files| :: !IsTestFile(files[i]) <==> i in idx)
      && (forall j, k | 0 <= j < k < |idx| :: idx[j] < idx[k])
      && |cs| == |idx|
      && forall j | 0 <= j < |idx| :: cs[j] == Copy(Join(srcDir, files[idx[j]]), Join(targetDir, files[idx[j]]))
  {
    NonTestPositions(files, 0);
    CopiesAt(srcDir, targetDir, files, 0);
    assert files[0..] == files;
  }

  /**
   * `vendor` always creates the target directory `dir/ImportPath` first
   * (in dry-run mode too); in dry-run mode it copies nothing; its error is
   * the failure of the mkdir or of a listed copy; and once the listed copies
   * succeed, every auxiliary file is attempted and their failures are ignored.
   */
  lemma VendorEffectsShape(dir: string, pkg: Package, sFiles: seq<string>, dryRun: bool, fails: set<Effect>)
    ensures var t := VendorEffects(dir, pkg, sFiles, dryRun, fails);
      var target := Join(dir, pkg.importPath);
      var listed := Copies(pkg.dir, target, Flatten(FileSets(pkg, sFiles)));
      && t.issued != [] && t.issued[0] == MkdirAll(target)
      && (dryRun ==> forall e | e in t.issued :: !e.Copy?)
      && (t.err.Some? ==> t.err.value in fails && (t.err.value == MkdirAll(target) || t.err.value in listed))
      && (!dryRun && MkdirAll(target) !in fails && (forall e | e in listed :: e !in fails) ==>
            t.err.None? && t.issued == [MkdirAll(target)] + listed + SpecialCopies(pkg.dir, target))
  {
    var target := Join(dir, pkg.importPath);
    IssueUntilFailureStops(Copies(pkg.dir, target, Flatten(FileSets(pkg, sFiles))), fails);
  }

  /** `vendor` never writes a `_test.go` file into the target directory. */
  lemma VendorNeverCopiesTests(dir: string, pkg: Package, sFiles: seq<string>, dryRun: bool, fails: set<Effect>)
    ensures var t := VendorEffects(dir, pkg, sFiles, dryRun, fails);
      forall f | IsTestFile(f) :: forall src | Copy(src, Join(Join(dir, pkg.importPath), f)) in t.issued :: false
  {
    var target := Join(dir, pkg.importPath);
    var files := Flatten(FileSets(pkg, sFiles));
    var cs := Copies(pkg.dir, target, files);
    var specials := SpecialCopies(pkg.dir, target);
    IssueUntilFailureStops(cs, fails);
    CopiesNonTest(pkg.dir, target, files);
    var t := VendorEffects(dir, pkg, sFiles, dryRun, fails);
    assert forall e | e in t.issued :: e == MkdirAll(target) || e in cs || e in specials;
    forall f, src | IsTestFile(f) && Copy(src, Join(target, f)) in t.issued
      ensures false
    {
      if Copy(src, Join(target, f)) in cs {
        var g :| g in files && !IsTestFile(g) && Copy(src, Join(target, f)) == Copy(Join(pkg.dir, g), Join(target, g));
        JoinInjective(target, f, g);
      } else {
        var k :| 0 <= k < |SPECIALS| && specials[k] == Copy(src, Join(target, f));
        JoinInjective(target, f, SPECIALS[k]);
      }
    }
  }
}
