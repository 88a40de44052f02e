/** Two worked scans of a package `pkg` installed as `/site/pkg`, for any
    names of that shape: a site directory `site`, a package `pkg` and
    modules with one-letter stems such as `a.py`. */
module Scenarios {
  import opened Wrappers
  import opened Model
  import opened PyStr
  import opened Paths
  import opened DirWalk
  import opened ScanSpec
  import opened Seqs

  // Short literal traces built by appending, as the scenarios produce them.

  lemma AppendPair<T>(x0: T, x1: T)
    ensures [] + [x0] == [x0] && [x0] + [x1] == [x0, x1]
  {
  }

  lemma AppendThree<T>(x0: T, x1: T, x2: T)
    ensures [x0] + ([] + [x1] + [x2]) == [x0, x1, x2]
  {
  }

  lemma AppendOneTwo<T>(x0: T, x1: T, x2: T)
    ensures [x0] + [x1, x2] == [x0, x1, x2]
  {
  }

  lemma AppendThreeTwo<T>(x0: T, x1: T, x2: T, x3: T, x4: T)
    ensures [x0, x1, x2] + [x3, x4] == [x0, x1, x2, x3, x4]
  {
  }

  lemma AppendSix<T>(x0: T, x1: T, x2: T, x3: T, x4: T, x5: T)
    ensures [x0] + ([] + [x1, x2, x3, x4, x5]) == [x0, x1, x2, x3, x4, x5]
  {
  }

  /** A base class and one subclass of it. */
  const BaseClass := Obj(1)
  const FooClass := Obj(2)

  const ImportError := Exc("ImportError")

  /** "A subclass of `Base`, other than `Base` itself": in a world whose
      only classes are `Base` and `Foo`, that test holds of `Foo` alone. */
  function IsFooLike(o: Obj): Result<bool, Exc>
  {
    Ok(o == FooClass)
  }

  /** Records each match under its name. */
  function Register(name: string, o: Obj, ctx: Context): Reply
  {
    Reply(ctx[name := o], None)
  }

  /** A package name with no dot, installed below a one-level site
      directory. */
  predicate Layout(site: string, pkg: string)
  {
    ValidName(site) && ValidName(pkg) && '.' !in pkg
  }

  /** A file `x.py` with a one-character stem. */
  predicate OneLetterModule(f: string)
  {
    |f| == 4 && f[0] != '.' && f[0] != '/' && f[1..] == ".py"
  }

  function PackageDir(site: string, pkg: string): string
  {
    "/" + site + "/" + pkg
  }

  function InitModule(site: string, pkg: string): Module
  {
    Module(PackageDir(site, pkg), INIT_MODULE_NAME, [])
  }

  /** The parent directory and package path the scan computes. */
  lemma PackageLocation(site: string, pkg: string)
    requires Layout(site, pkg)
    ensures PackageParentDir(pkg, PackageDir(site, pkg)) == "/" + site
    ensures PkgPath("/" + site, PackageDir(site, pkg)) == pkg
  {
    assert Join('.', [pkg]) == pkg;
    assert Join('/', [site]) == site;
    assert Join('/', [site, pkg]) == site + "/" + pkg by {
      assert [site, pkg][1..] == [pkg];
    }
    assert [site] + [pkg] == [site, pkg];
    assert PackageDir(site, pkg) == "/" + Join('/', [site] + [pkg]);
    ParentDirOfPackageDir([pkg], [site]);
    PkgPathOfSubdirectory([pkg], [site], []);
  }

  /** `x.py` is imported as `<pkgPath>.x`. */
  lemma ModPathOfOneLetterModule(pkgPath: string, f: string)
    requires OneLetterModule(f)
    ensures IsModuleFile(f) && ModPath(pkgPath, f) == pkgPath + "." + f[..1]
  {
    assert f[1] == '.' && f[2] == 'p' && f[3] == 'y';
    assert RFind(f, '.') == 1;
    assert RFind(f, '/') == -1;
  }

  // ---------------------------------------------------------------------
  // A match found next to a module that does not import

  /** `pkg/__init__.py`, `pkg/a.py` defining `Foo(Base)` and `pkg/b.py`,
      which raises on import. */
  function FoundTree(site: string, pkg: string, fa: string, fb: string): FileSystem
  {
    map[PackageDir(site, pkg) := Dir(pkg, [INIT_MODULE_NAME, fa, fb], None, [])]
  }

  function ModuleA(site: string, pkg: string, fa: string): Module
  {
    Module(PackageDir(site, pkg), fa, [Member("Base", BaseClass), Member("Foo", FooClass)])
  }

  function FoundImports(site: string, pkg: string, fa: string, fb: string): Imports
    requires |fa| > 0 && |fb| > 0
  {
    map[pkg := Ok(InitModule(site, pkg)),
        pkg + ".__init__" := Ok(InitModule(site, pkg)),
        pkg + "." + fa[..1] := Ok(ModuleA(site, pkg, fa)),
        pkg + "." + fb[..1] := Fail(ImportError)]
  }

  /** In a module defining `Base` and `Foo`, only `Foo` matches. */
  lemma MatchesOfModuleA(pred: Predicate, ms: seq<Member>)
    requires pred == IsFooLike
    requires ms == [Member("Base", BaseClass), Member("Foo", FooClass)]
    ensures Matches(pred, ms) == Ok([Member("Foo", FooClass)])
  {
    var one := [Member("Foo", FooClass)];
    assert ms[1..] == one && one[1..] == [];
    assert pred(FooClass) == Ok(true) && pred(BaseClass) == Ok(false);
    assert Matches(pred, one[1..]) == Ok([]);
    assert [one[0]] + [] == one;
  }

  /** A single match is registered under its name. */
  lemma RegisterOne(env: Env, m: Module, ctx: Context, one: seq<Member>)
    requires env.cb == Register && one == [Member("Foo", FooClass)]
    ensures ProcessAll(env, m, ctx, one) == Run(ctx["Foo" := FooClass], [Called("Foo", FooClass)], None)
  {
    assert one[..0] == [] && one[..1] == one;
    ProcessAllStep(env, m, ctx, one, 0);
    var step := Process(env, m, ctx, one[0]);
    assert step.events == [Called("Foo", FooClass)];
    AppendEmpty(step.events);
  }

  /** In a module defining `Base` and `Foo`, only `Foo` matches, and it is
      registered. */
  lemma ScanOfModuleA(env: Env, m: Module, ctx: Context)
    requires env.pred == IsFooLike && env.cb == Register
    requires m.members == [Member("Base", BaseClass), Member("Foo", FooClass)]
    ensures ScanModule(env, m, ctx) == Run(ctx["Foo" := FooClass], [Called("Foo", FooClass)], None)
  {
    MatchesOfModuleA(env.pred, m.members);
    RegisterOne(env, m, ctx, [Member("Foo", FooClass)]);
  }

  /** The four module paths of the tree are distinct, so each import
      resolves as listed. */
  lemma FoundImportsAt(site: string, pkg: string, fa: string, fb: string)
    requires Layout(site, pkg) && OneLetterModule(fa) && OneLetterModule(fb) && fa[0] != fb[0]
    ensures var imports := FoundImports(site, pkg, fa, fb);
            && Import(imports, pkg) == Ok(InitModule(site, pkg))
            && Import(imports, pkg + ".__init__") == Ok(InitModule(site, pkg))
            && Import(imports, pkg + "." + fa[..1]) == Ok(ModuleA(site, pkg, fa))
            && Import(imports, pkg + "." + fb[..1]) == Fail(ImportError)
  {
    var pi, pa, pb := pkg + ".__init__", pkg + "." + fa[..1], pkg + "." + fb[..1];
    assert pa != pb by {
      assert pa[|pkg| + 1] == fa[0] && pb[|pkg| + 1] == fb[0];
    }
    assert |pi| == |pkg| + 9 && |pa| == |pkg| + 2 && |pb| == |pkg| + 2;
  }

  /** `pkg/__init__.py` is imported as `pkg.__init__` and has no members. */
  lemma InitFileOfFoundPackage(env: Env, pkg: string, init: Module, ctx: Context)
    requires init.members == [] && Import(env.imports, pkg + ".__init__") == Ok(init)
    ensures ImportFile(env, pkg, ctx, INIT_MODULE_NAME) == Run(ctx, [Imported(pkg + ".__init__")], None)
  {
    ModPathOfInitModule(pkg);
    assert ScanModule(env, init, ctx) == Run(ctx, [], None);
    AppendEmpty([Imported(pkg + ".__init__")]);
  }

  /** `pkg/a.py` is imported as `pkg.a`, and `Foo` reaches the callback. */
  lemma FileAOfFoundPackage(env: Env, pkg: string, fa: string, pa: string, a: Module, ctx: Context)
    requires env.pred == IsFooLike && env.cb == Register
    requires IsModuleFile(fa) && ModPath(pkg, fa) == pa
    requires a.members == [Member("Base", BaseClass), Member("Foo", FooClass)]
    requires Import(env.imports, pa) == Ok(a)
    ensures ImportFile(env, pkg, ctx, fa) == Run(ctx["Foo" := FooClass], [Imported(pa), Called("Foo", FooClass)], None)
  {
    ScanOfModuleA(env, a, ctx);
    AppendPair(Imported(pa), Called("Foo", FooClass));
  }

  /** `pkg/b.py` fails to import and goes to `on_import_error`. */
  lemma FileBOfFoundPackage(env: Env, pkg: string, fb: string, pb: string, ctx: Context)
    requires IsModuleFile(fb) && ModPath(pkg, fb) == pb && Import(env.imports, pb) == Fail(ImportError)
    ensures ImportFile(env, pkg, ctx, fb) == Run(ctx, [Imported(pb), ImportFailed(ImportError, pb, ctx)], None)
  {
  }

  /** `__init__.py`, then `a.py`, whose `Foo` is registered. */
  lemma InitThenFileA(env: Env, pkg: string, fa: string, pa: string, init: Module, a: Module, ctx: Context)
    requires env.pred == IsFooLike && env.cb == Register
    requires init.members == [] && Import(env.imports, pkg + ".__init__") == Ok(init)
    requires IsModuleFile(fa) && ModPath(pkg, fa) == pa
    requires a.members == [Member("Base", BaseClass), Member("Foo", FooClass)] && Import(env.imports, pa) == Ok(a)
    ensures ImportFiles(env, pkg, ctx, [INIT_MODULE_NAME, fa]) ==
              Run(ctx["Foo" := FooClass], [Imported(pkg + ".__init__"), Imported(pa), Called("Foo", FooClass)], None)
  {
    var files := [INIT_MODULE_NAME, fa];
    assert files[..1] == [INIT_MODULE_NAME] && files[..2] == files;
    InitOnlyPackageFiles(env, pkg, init, ctx);
    FileAOfFoundPackage(env, pkg, fa, pa, a, ctx);
    ImportFilesStep(env, pkg, ctx, files, 1);
    AppendOneTwo(Imported(pkg + ".__init__"), Imported(pa), Called("Foo", FooClass));
  }

  /** The three files in order: `__init__.py`, then `a.py`, whose `Foo` is
      registered, then `b.py`, whose import error is reported with the
      context that already holds `Foo`. */
  lemma FilesOfFoundPackage(env: Env, pkg: string, fa: string, fb: string, pa: string, pb: string,
                            init: Module, a: Module, ctx: Context)
    requires env.pred == IsFooLike && env.cb == Register
    requires init.members == [] && Import(env.imports, pkg + ".__init__") == Ok(init)
    requires IsModuleFile(fa) && ModPath(pkg, fa) == pa
    requires a.members == [Member("Base", BaseClass), Member("Foo", FooClass)] && Import(env.imports, pa) == Ok(a)
    requires IsModuleFile(fb) && ModPath(pkg, fb) == pb && Import(env.imports, pb) == Fail(ImportError)
    ensures var foo := ctx["Foo" := FooClass];
            ImportFiles(env, pkg, ctx, [INIT_MODULE_NAME, fa, fb]) ==
              Run(foo, [Imported(pkg + ".__init__"), Imported(pa), Called("Foo", FooClass),
                        Imported(pb), ImportFailed(ImportError, pb, foo)], None)
  {
    var files := [INIT_MODULE_NAME, fa, fb];
    var foo := ctx["Foo" := FooClass];
    assert files[..2] == [INIT_MODULE_NAME, fa] && files[..3] == files;
    InitThenFileA(env, pkg, fa, pa, init, a, ctx);
    FileBOfFoundPackage(env, pkg, fb, pb, foo);
    ImportFilesStep(env, pkg, ctx, files, 2);
    AppendThreeTwo(Imported(pkg + ".__init__"), Imported(pa), Called("Foo", FooClass),
                   Imported(pb), ImportFailed(ImportError, pb, foo));
  }

  /** The walk of the tree yields the package directory alone, which is a
      package and is not ignored. */
  lemma FoundWalk(site: string, pkg: string, fa: string, fb: string)
    requires Layout(site, pkg) && OneLetterModule(fa) && OneLetterModule(fb)
    ensures var v := Visit(PackageDir(site, pkg), Dir(pkg, [INIT_MODULE_NAME, fa, fb], None, []));
            && PackageWalk(PackageDir(site, pkg), FoundTree(site, pkg, fa, fb)) == [v]
            && !Ignores(v.dir) && IsPackage(v.dir)
  {
    var v := Visit(PackageDir(site, pkg), Dir(pkg, [INIT_MODULE_NAME, fa, fb], None, []));
    assert !MarkerSaysIgnore(None);
    assert Walk(v) == [v] + WalkUnder(v.path, []);
  }

  /** The scan ends with just `Foo` registered. It imports the root, then
      the three files in turn, calls back once, and reports `pkg.b` once to
      `on_import_error`, with the context as it stood then. */
  lemma FooIsFoundAndBrokenModuleReported(site: string, pkg: string, fa: string, fb: string)
    requires Layout(site, pkg) && OneLetterModule(fa) && OneLetterModule(fb) && fa[0] != fb[0]
    ensures var env := Env(IsFooLike, Register, FoundImports(site, pkg, fa, fb));
            var pa, pb := pkg + "." + fa[..1], pkg + "." + fb[..1];
            var foo := map["Foo" := FooClass];
            Scan(env, map[], None, pkg, FoundTree(site, pkg, fa, fb)) ==
              Run(foo, [Imported(pkg), Imported(pkg + ".__init__"), Imported(pa), Called("Foo", FooClass),
                        Imported(pb), ImportFailed(ImportError, pb, foo)], None)
  {
    var env := Env(IsFooLike, Register, FoundImports(site, pkg, fa, fb));
    var pa, pb := pkg + "." + fa[..1], pkg + "." + fb[..1];
    var foo := map["Foo" := FooClass];
    var dir := PackageDir(site, pkg);
    var v := Visit(dir, Dir(pkg, [INIT_MODULE_NAME, fa, fb], None, []));
    FoundImportsAt(site, pkg, fa, fb);
    PackageLocation(site, pkg);
    ModPathOfOneLetterModule(pkg, fa);
    ModPathOfOneLetterModule(pkg, fb);
    FoundWalk(site, pkg, fa, fb);
    FilesOfFoundPackage(env, pkg, fa, fb, pa, pb, InitModule(site, pkg), ModuleA(site, pkg, fa), map[]);
    assert map[]["Foo" := FooClass] == foo;
    ScanVisitsStep(env, "/" + site, map[], [], v);
    assert [] + [v] == [v];
    assert InitialContext(map[], None) == map[];
    AppendSix(Imported(pkg), Imported(pkg + ".__init__"), Imported(pa), Called("Foo", FooClass),
              Imported(pb), ImportFailed(ImportError, pb, foo));
  }

  // ---------------------------------------------------------------------
  // An ignored sub-directory

  /** `pkg/__init__.py`, and `pkg/skip/` holding a `.looksee` marker that
      says ignore, an `__init__.py` and a module `x.py` defining `Foo`. */
  function IgnoreTree(site: string, pkg: string, skip: string, fx: string): FileSystem
  {
    map[PackageDir(site, pkg) :=
          Dir(pkg, [INIT_MODULE_NAME], None,
              [Dir(skip, [DOT_FILE_NAME, INIT_MODULE_NAME, fx], Some(map["ignore" := true]), [])])]
  }

  /** Every module of the tree would import. */
  function IgnoreImports(site: string, pkg: string, skip: string, fx: string): Imports
    requires |fx| > 0
  {
    map[pkg + "." + skip + "." + fx[..1] := Ok(Module(PackageDir(site, pkg) + "/" + skip, fx, [Member("Foo", FooClass)])),
        pkg + "." + skip + ".__init__" := Ok(Module(PackageDir(site, pkg) + "/" + skip, INIT_MODULE_NAME, [])),
        pkg := Ok(InitModule(site, pkg)),
        pkg + ".__init__" := Ok(InitModule(site, pkg))]
  }

  /** The walk yields the package directory, then `skip`, which the marker
      prunes. */
  lemma IgnoreWalk(site: string, pkg: string, skip: string, fx: string)
    requires Layout(site, pkg) && ValidName(skip) && OneLetterModule(fx)
    ensures var dir := PackageDir(site, pkg);
            var skipDir := Dir(skip, [DOT_FILE_NAME, INIT_MODULE_NAME, fx], Some(map["ignore" := true]), []);
            var top := Visit(dir, Dir(pkg, [INIT_MODULE_NAME], None, [skipDir]));
            && PackageWalk(dir, IgnoreTree(site, pkg, skip, fx)) == [top, Visit(dir + "/" + skip, skipDir)]
            && !Ignores(top.dir) && IsPackage(top.dir) && Ignores(skipDir)
  {
    var dir := PackageDir(site, pkg);
    var skipDir := Dir(skip, [DOT_FILE_NAME, INIT_MODULE_NAME, fx], Some(map["ignore" := true]), []);
    var top := Visit(dir, Dir(pkg, [INIT_MODULE_NAME], None, [skipDir]));
    var below := Visit(dir + "/" + skip, skipDir);
    assert dir[|dir| - 1] == pkg[|pkg| - 1];
    assert PathJoin(dir, skip) == below.path;
    assert !MarkerSaysIgnore(None) && MarkerSaysIgnore(Some(map["ignore" := true]));
    assert Walk(below) == [below];
    assert WalkUnder(dir, [skipDir]) == [below] by {
      assert [skipDir][1..] == [];
    }
  }

  /** Neither `skip/__init__.py` nor `x.py` is imported, `Foo` never reaches
      the callback, and `on_ignore_directory` runs once, with the absolute
      path of `skip`. */
  lemma IgnoredDirectoryNeverScanned(site: string, pkg: string, skip: string, fx: string)
    requires Layout(site, pkg) && ValidName(skip) && OneLetterModule(fx)
    ensures var env := Env(IsFooLike, Register, IgnoreImports(site, pkg, skip, fx));
            Scan(env, map[], None, pkg, IgnoreTree(site, pkg, skip, fx)) ==
              Run(map[], [Imported(pkg), Imported(pkg + ".__init__"), IgnoredDirectory(PackageDir(site, pkg) + "/" + skip)], None)
  {
    var env := Env(IsFooLike, Register, IgnoreImports(site, pkg, skip, fx));
    var dir := PackageDir(site, pkg);
    var skipDir := Dir(skip, [DOT_FILE_NAME, INIT_MODULE_NAME, fx], Some(map["ignore" := true]), []);
    var top := Visit(dir, Dir(pkg, [INIT_MODULE_NAME], None, [skipDir]));
    var below := Visit(dir + "/" + skip, skipDir);
    var pi := pkg + ".__init__";
    IgnoreWalk(site, pkg, skip, fx);
    PackageLocation(site, pkg);
    assert Import(env.imports, pi) == Ok(InitModule(site, pkg));
    assert Import(env.imports, pkg) == Ok(InitModule(site, pkg)) by {
      assert |pi| > |pkg|;
    }

    InitOnlyPackageFiles(env, pkg, InitModule(site, pkg), map[]);
    assert VisitDir(env, "/" + site, map[], top) == Run(map[], [Imported(pi)], None);
    assert VisitDir(env, "/" + site, map[], below) == Run(map[], [IgnoredDirectory(below.path)], None);
    ScanVisitsStep(env, "/" + site, map[], [], top);
    ScanVisitsStep(env, "/" + site, map[], [top], below);
    AppendPair(top, below);
    assert InitialContext(map[], None) == map[];
    AppendThree(Imported(pkg), Imported(pi), IgnoredDirectory(below.path));
  }

  /** A package directory holding only `__init__.py` imports just that. */
  lemma InitOnlyPackageFiles(env: Env, pkg: string, init: Module, ctx: Context)
    requires init.members == [] && Import(env.imports, pkg + ".__init__") == Ok(init)
    ensures ImportFiles(env, pkg, ctx, [INIT_MODULE_NAME]) == Run(ctx, [Imported(pkg + ".__init__")], None)
  {
    var files := [INIT_MODULE_NAME];
    assert files[..0] == [] && files[..1] == files;
    InitFileOfFoundPackage(env, pkg, init, ctx);
    ImportFilesStep(env, pkg, ctx, files, 0);
    AppendPair(Imported(pkg + ".__init__"), Imported(pkg + ".__init__"));
  }

}
