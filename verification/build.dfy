/**
 * The part of the go/build package that the vendoring tool consults, as an
 * injectable value: what `build.Import` answers for each import path.
 */
module Build {

  /** The fields of `build.Package` that the tool reads. */
  datatype Package = Package(
    importPath: string,
    dir: string,
    imports: seq<string>,
    testImports: seq<string>,
    xTestImports: seq<string>,
    goFiles: seq<string>,
    cgoFiles: seq<string>,
    ignoredGoFiles: seq<string>,
    cFiles: seq<string>,
    cxxFiles: seq<string>,
    mFiles: seq<string>,
    hFiles: seq<string>,
    swigFiles: seq<string>,
    swigCXXFiles: seq<string>,
    sysoFiles: seq<string>)

  /**
   * The build context.
   * `resolve`: `build.Import(path, "", 0)`; a path that is not a key fails to import.
   * `findOnly`: `build.Import(path, "", build.FindOnly)`; a key maps to the
   * `Goroot` flag of the located package, a path that is not a key fails.
   */
  datatype Context = Context(resolve: map<string, Package>, findOnly: map<string, bool>)

  /** The error `build.Import` returns for an import path it cannot resolve. */
  datatype ImportError = ImportError(path: string)
}
