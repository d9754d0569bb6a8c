# simplevendor, modelled in Dafny

`simplevendor` is a small Go command that copies the non-local, non-standard
dependencies of the packages under the current directory into `./vendor`.
This project models its core, all of it in `main.go`:

- **The transitive import analyzer.** This is `transitiveImports` with its
  recursive `analyze` method, the driver `getTransitiveImports`, and `isStd`.
  It is a depth-first walk over a possibly cyclic import graph. The memo map
  `packages` is also the visited set, and a path is recorded before the walk
  recurses into its imports.
- **The selection logic of `main`.** The local-discovery filter drops
  directories under the vendor directory's import path. The final loop skips
  local packages and vendors the rest.

  The filter is a plain string prefix test (main.go:69), not a path-component
  test. A local package whose import path merely starts with the vendor
  directory's import path is therefore not local either: `<proj>/vendorutil`
  next to `<proj>/vendor`, for example. If another local package imports it,
  the walk records it and `main` copies it into the project's own vendor
  tree. `Vendor.LocalImports` reproduces this behaviour.
- **`vendor` for one package.** It computes the target directory, the copies of
  the listed files with test files skipped, dry-run gating, and the auxiliary
  ("special") files, whose copy errors are ignored.

The `go/build` package is injected as a value, `Build.Context`:
- `resolve` maps an import path to what `build.Import(path, "", 0)` returns. A
  missing key means the import fails.
- `findOnly` maps a path to the `Goroot` flag reported by the locate-only
  probe. A missing key means the probe fails.

The file system is not touched. `vendor` produces a `Vendor.Trace`: the list of
`MkdirAll`/`Copy` effects it issues, in order, and the error that stopped it.
The set `fails` names the effects that would return an error.

Modules:
- `Util`: option/result types and sequence helpers.
- `Build`: the `go/build` stand-in.
- `Analyzer`: the analyzer. `Visit`/`VisitAll` are its functional
  specification. The class `TransitiveImports` runs the walk with its memo map
  updated in place.
- `Vendor`: selection and the vendoring plan.
- `Scenarios`: concrete import graphs on which the general lemmas give concrete
  answers.

The class carries a ghost log `fetched` that records every full-mode
`build.Import` call, the failing one included. "Fetched at most once" is stated
over this log.

On success, the recorded set is characterised without fixing the order in which
the seeds are taken (Go map order):
- it is **closed**: every followed import of a recorded path is std or recorded;
- it **covers** every non-std seed;
- it is contained in **every** closed set that covers the seeds, so it holds
  only paths reachable from the seeds.

The walk fails exactly when no closed set covers the seeds.

A dry run (`-n`) suggests that nothing is written. But `vendor` calls
`os.MkdirAll` on the target directory before it checks the flag
(main.go:171-174), so a dry run still creates the directories and only the
copies are suppressed. The model follows the code. `Vendor.VendorEffects` models this, and
`Vendor.VendorEffectsShape` states it.

## Model

| member | source | states |
|---|---|---|
| Analyzer.IsStd | main.go:159-168 | "C" is std without any lookup; otherwise a path is std exactly when the locate-only probe succeeds and reports GOROOT; a failed probe means "not std", not an error |
| Analyzer.DepsFollowTestsOnlyWhenEnabled | main.go:128-131 | after fetching a path the walk follows its `Imports`, and also its `TestImports` then `XTestImports` only when the path is test-enabled |
| Analyzer.Visit | main.go:116-140 | `analyze` as a function of the memo before the call; it is defined (so terminates) on cyclic graphs because a path is recorded before recursing; the memo only grows |
| Analyzer.VisitAll | main.go:132-138 | the loops over `sets` stop at the first error; the memo only grows |
| Analyzer.TransitiveImports.constructor | main.go:143-146 | the walk starts with an empty memo and the seed map as `testEnabled`, which is never changed |
| Analyzer.TransitiveImports.Analyze | main.go:116-140 | the in-place method computes exactly `Visit`: new memo, new fetch log and error |
| Analyzer.GetTransitiveImports | main.go:142-157 | seeds are walked in some order, each once, stopping at the first error; on success the result lists each recorded package once, every one the resolver's answer for a non-std path; the recorded set is closed, covers the seeds and lies in every closed covering set; an error names a non-std unresolvable path, and then no closed set covers the seeds |
| Analyzer.Values | main.go:152-156 | the read-out loop returns exactly the values of the memo map, one per key, each key taken once |
| Analyzer.SeedWalk | main.go:147-151 | the walk over any seed order gives the success and failure characterisations above |
| Analyzer.VisitRecordsFaithfully | main.go:117-127 | the memo only grows, entries never change, only non-std paths are recorded and each with the resolver's answer; an error names a non-std unresolvable path |
| Analyzer.VisitAllRecordsFaithfully | main.go:132-138 | the same across the loop over a list of imports |
| Analyzer.VisitFetchesOnce | main.go:120-127 | memoisation: no path is fetched twice; on success the fetched paths are exactly the recorded ones; a failed fetch is logged but not recorded |
| Analyzer.VisitAllFetchesOnce | main.go:132-138 | the same across the loop over a list of imports |
| Analyzer.VisitCloses | main.go:127-138 | closure: on success every recorded path not still being expanded has all followed imports recorded or std, and the visited path is recorded unless std |
| Analyzer.VisitAllCloses | main.go:132-138 | on success every path of the list is std or recorded, and closure is kept |
| Analyzer.VisitWithin | main.go:116-140 | soundness: if a closed set holds the path, the walk cannot fail and records nothing outside that set |
| Analyzer.VisitAllWithin | main.go:132-138 | the same for a list of paths |
| Analyzer.VisitAllAppend | main.go:133-136 | error propagation: walking `a + b` walks `a`, and walks `b` only if `a` succeeded |
| Analyzer.WalkWithin | main.go:147-151 | from an empty memo, a closed set covering the seeds bounds the walk: it succeeds, records a closed subset, and fetches each recorded path exactly once |
| Analyzer.WalkFromSeeds | main.go:147-151 | from an empty memo, in any seed order: faithful records, each path fetched at most once, closure on success, and the recorded set lies in every closed covering set |
| Vendor.LocalImports | main.go:69-85 | a discovered package is local iff its import path does not start with the vendor directory's import path; every local entry is `true` and comes from a discovered package |
| Vendor.NonLocalMembers | main.go:98-101 | the vendored packages are exactly the resolved packages whose import path is not local |
| Vendor.CopyFiles | main.go:199-213 | over one file list: test files are skipped, nothing is issued in dry-run mode, otherwise copies `dir/file` to `target/file` in order and stops at the first failed copy |
| Vendor.CopyLists | main.go:185-214 | over the eleven file lists in order, the copies of their concatenation until the first failure |
| Vendor.Vendor | main.go:170-221 | `vendor` issues `MkdirAll(target)`, then the listed copies until one fails, then, if none failed and not in dry-run mode, every special file with errors ignored |
| Vendor.IssueUntilFailureStops | main.go:208-212 | issuing stops at the first failing copy: the issued list is a prefix, and an error is the last issued effect and the only failing one |
| Vendor.IssueAppend | main.go:198-214 | a failure in an earlier list stops the later lists; otherwise the later list is issued next |
| Vendor.CopiesAppend | main.go:198-199 | the copies of two file lists, one after the other, are the copies of their concatenation |
| Vendor.CopiesNonTest | main.go:199-204 | every non-test file has its copy from the package dir into the target dir, and every copy is of a non-test file |
| Vendor.CopiesExactlyNonTest | main.go:199-204 | the listed copies are one copy per non-test file, in list order: the j-th copy is that of the j-th non-test file, and there are as many copies as non-test files |
| Vendor.VendorEffectsShape | main.go:170-221 | the first effect is `MkdirAll(dir/ImportPath)`; dry-run issues no copy; an error is the mkdir or a listed copy that fails; if all listed copies succeed, every special is attempted and the result is success |
| Vendor.VendorNeverCopiesTests | main.go:199-204 | no `_test.go` file is ever written into the target directory, neither by a listed copy nor by a special |
| Vendor.VendorEachSucceeds | main.go:105-107 | vendoring a list of packages succeeds iff `vendor` succeeds on every one of them |
| Vendor.VendorEachStops | main.go:105-107 | on an error, some package failed, all packages before it were vendored without error, its effects end the issued list, and no later package is touched |
| Vendor.VendorAll | main.go:98-108 | the final loop of `main`, which skips local packages inside the loop, issues exactly what vendoring the non-local resolved packages in order does, stopping at the first error |
| Scenarios.CycleRecordsBothOnce | main.go:120-127 | A→B→A terminates with A and B recorded, each fetched once |
| Scenarios.DiamondFetchesSharedOnce | main.go:120-127 | in a diamond A→{B,C}→D, D is recorded once and four fetches happen in all |
| Scenarios.TestImportsOnlyForSeeds | main.go:128-131 | a seed's test import is followed; a non-seed's test import is not recorded |
| Scenarios.StdImportsCutOff | main.go:117-119 | "C" and a GOROOT package are not recorded, and the std package's own broken import is never looked at |
| Scenarios.FailureStopsSiblings | main.go:123-136 | a failed import aborts the walk: the sibling after it is never fetched |
| Scenarios.ProjectWalk | main.go:142-157 | a local package, its dependency and that dependency's dependency are all recorded |
| Scenarios.LocalPackageNotVendored | main.go:98-101 | whatever order the records come in, only the two non-local packages are selected for vendoring |

## Left out

- The discovery walk is not modelled: `filepath.Walk`, `os.Getwd`,
  `build.ImportDir` of each directory, and the skipping of `NoGoError`
  directories (main.go:38-80). `Vendor.LocalImports` takes the discovered
  packages and the vendor directory's import path as parameters.
- `build.Import` and the locate-only probe are not modelled internally. They are
  the two maps of `Build.Context`.
- `cp` (file handles, `io.Copy`, permission bits, `os.Chtimes`) is not
  modelled. Each copy is a `Copy(src, dst)` effect, and its failure is given by
  the `fails` set.
- `filepath.Glob` of `*.s` and `filepath.Base` are given as the `sFiles`
  argument, or as the `asm` map per package directory. The `Glob` error, which
  happens only for a malformed pattern, is not modelled.
- `filepath.Join` path cleaning is not modelled: `Vendor.Join` is concatenation
  with `/`.
- Flags and logging are not modelled. `-n` becomes the `dryRun` argument. `-n`
  forcing `-v` only affects logging, which is left out. `log.Fatal` on a
  `vendor` error is modelled as `Vendor.VendorAll` returning that error.
- Go map iteration order is not fixed. `GetTransitiveImports` and `Values` pick
  elements with `:|`, and the analyzer's results are stated for any order.
- Pointer identity of `*build.Package` values is not modelled; packages are
  plain values.
