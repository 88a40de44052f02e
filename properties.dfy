/** What whole scans guarantee, stated over the functions of `ScanSpec`
    (looksee/scanner.py, lines 37-165). */
module ScanProperties {
  import opened Wrappers
  import opened Model
  import opened PyStr
  import opened Paths
  import opened DirWalk
  import opened ScanSpec

  // ---------------------------------------------------------------------
  // Ignored directories

  /** A directory whose marker says `ignore` is reported once, and neither
      it nor anything below it is imported: `sub_dirs.clear()` keeps the
      walk out of its subtree. */
  lemma {:induction false} IgnoredDirectoryIsSkipped(env: Env, parentDir: string, ctx: Context, v: Visit)
    requires Ignores(v.dir)
    ensures Walk(v) == [v]
    ensures ScanVisits(env, parentDir, ctx, Walk(v)) == Run(ctx, [IgnoredDirectory(v.path)], None)
    ensures WalkModulePaths(parentDir, Walk(v)) == [] && PrunedPaths(Walk(v)) == [v.path]
  {
    assert Walk(v) == [v] + [];
    assert [v][..0] == [];
    ScanVisitsStep(env, parentDir, ctx, [], v);
  }

  /** A directory that is neither ignored nor a package is looked through
      without importing anything of its own: its sub-directories are still
      walked. */
  lemma {:induction false} NonPackageDirectory(env: Env, parentDir: string, ctx: Context, v: Visit)
    requires !Ignores(v.dir) && !IsPackage(v.dir)
    ensures ScanVisits(env, parentDir, ctx, [v]) == Run(ctx, [], None)
    ensures forall i :: 0 <= i < |v.dir.children| ==>
              Visit(PathJoin(v.path, v.dir.children[i].name), v.dir.children[i]) in Walk(v)
  {
    ScanVisitsStep(env, parentDir, ctx, [], v);
    assert [] + [v] == [v];
    ChildrenAreWalked(v);
  }

  // ---------------------------------------------------------------------
  // Package paths of the directories walked

  /** For a package `n1.....nm` installed in `/p1/.../pj/n1/.../nm` with
      j > 0, every directory the walk yields gets as its package path the
      package name followed by the names leading down to it. */
  lemma VisitedPackagePaths(ns: seq<string>, ps: seq<string>, fs: FileSystem)
    requires |ns| > 0 && ValidNames(ns) && forall i :: 0 <= i < |ns| ==> '.' !in ns[i]
    requires |ps| > 0 && ValidNames(ps)
    requires var packageDir := "/" + Join('/', ps + ns); packageDir in fs ==> WellFormed(fs[packageDir])
    ensures var package, packageDir := Join('.', ns), "/" + Join('/', ps + ns);
            forall w :: w in PackageWalk(packageDir, fs) ==>
              exists rel :: ValidNames(rel) &&
                PkgPath(PackageParentDir(package, packageDir), w.path)
                == if rel == [] then package else package + "." + Join('.', rel)
  {
    var package, packageDir := Join('.', ns), "/" + Join('/', ps + ns);
    if packageDir in fs {
      var top := Visit(packageDir, fs[packageDir]);
      assert ValidNames(ps + ns) by {
        assert forall i :: 0 <= i < |ps + ns| ==> (ps + ns)[i] == if i < |ps| then ps[i] else ns[i - |ps|];
      }
      JoinEnds(ps + ns, '/');
      WalkPaths(top);
      forall w | w in PackageWalk(packageDir, fs)
        ensures exists rel :: ValidNames(rel) &&
                  PkgPath(PackageParentDir(package, packageDir), w.path)
                  == if rel == [] then package else package + "." + Join('.', rel)
      {
        var rel :| ValidNames(rel) && w.path == packageDir + Slashed(rel);
        PkgPathOfSubdirectory(ns, ps, rel);
      }
    }
  }

  // ---------------------------------------------------------------------
  // Scans that cannot raise after the root

  /** With a predicate that never raises, `scan` raises exactly when the
      root does not import; a package scan then imports the root and every
      `.py` file of every package directory the walk yields, reports every
      failing import once, reports every ignored directory once, and calls
      back exactly the accepted members of the modules that import, module
      after module, whatever the callback does. The root module itself is
      imported but not scanned: its `__init__.py` is scanned as a module of
      the package directory. */
  lemma ScanWithTotalPredicate(env: Env, staticCtx: Context, supplied: Option<Context>, package: string, fs: FileSystem)
    requires TotalPredicate(env)
    ensures Scan(env, staticCtx, supplied, package, fs).raised.Some? <==> Import(env.imports, package).Fail?
    ensures Import(env.imports, package).Ok? && Import(env.imports, package).value.fileName == INIT_MODULE_NAME ==>
              var s := Scan(env, staticCtx, supplied, package, fs);
              var root := Import(env.imports, package).value;
              var parentDir, walk := PackageParentDir(package, root.dir), PackageWalk(root.dir, fs);
              && ImportedPaths(s.events) == [package] + WalkModulePaths(parentDir, walk)
              && ImportErrorPaths(s.events) == FailingPaths(env.imports, WalkModulePaths(parentDir, walk))
              && IgnoredPaths(s.events) == PrunedPaths(walk)
              && Calls(s.events) == AcceptedMembers(env, WalkModulePaths(parentDir, walk))
  {
    ProjectionsOne(Imported(package));
    match Import(env.imports, package)
    case Fail(_) =>
    case Ok(root) =>
      var ctx := InitialContext(staticCtx, supplied);
      if root.fileName == INIT_MODULE_NAME {
        var rest := ScanVisits(env, PackageParentDir(package, root.dir), ctx, PackageWalk(root.dir, fs));
        ProjectionsAppend([Imported(package)], rest.events);
      }
  }

  // ---------------------------------------------------------------------
  // Which exception escapes

  /** For any predicate and callback, `scan` lets an exception escape in
      three cases only: the root does not import; the root is a plain
      module and the predicate raises on one of its members; or the root is
      a package and the predicate raises on the members of a module, at a
      path of the walk, that imports. The exception is the first one in
      walk order. Import errors below the root and callback errors go to
      their hooks and never escape. */
  lemma ScanRaises(env: Env, staticCtx: Context, supplied: Option<Context>, package: string, fs: FileSystem)
    ensures Scan(env, staticCtx, supplied, package, fs).raised ==
              if Import(env.imports, package).Fail? then Some(Import(env.imports, package).error)
              else
                var root := Import(env.imports, package).value;
                if root.fileName != INIT_MODULE_NAME then
                  (if Matches(env.pred, root.members).Fail? then Some(Matches(env.pred, root.members).error) else None)
                else FirstRaised(env, WalkModulePaths(PackageParentDir(package, root.dir), PackageWalk(root.dir, fs)))
    ensures Scan(env, staticCtx, supplied, package, fs).raised.Some? <==>
              || Import(env.imports, package).Fail?
              || (var root := Import(env.imports, package).value;
                  root.fileName != INIT_MODULE_NAME && Matches(env.pred, root.members).Fail?)
              || (var root := Import(env.imports, package).value;
                  && root.fileName == INIT_MODULE_NAME
                  && exists p :: p in WalkModulePaths(PackageParentDir(package, root.dir), PackageWalk(root.dir, fs))
                                 && Import(env.imports, p).Ok?
                                 && Matches(env.pred, Import(env.imports, p).value.members).Fail?)
  {
    match Import(env.imports, package)
    case Fail(_) =>
    case Ok(root) =>
      FirstRaisedExists(env, WalkModulePaths(PackageParentDir(package, root.dir), PackageWalk(root.dir, fs)));
  }

  /** When the root is a plain module rather than a package's
      `__init__.py`, only that module is scanned: nothing else is imported
      or walked, it raises exactly when the predicate raises on one of the
      root's members, and otherwise every accepted member reaches the
      callback as often as it is listed, in the order of the members. */
  lemma NonPackageRoot(env: Env, staticCtx: Context, supplied: Option<Context>, package: string, fs: FileSystem)
    requires Import(env.imports, package).Ok?
    requires Import(env.imports, package).value.fileName != INIT_MODULE_NAME
    ensures var s := Scan(env, staticCtx, supplied, package, fs);
            var root := Import(env.imports, package).value;
            && ImportedPaths(s.events) == [package]
            && IgnoredPaths(s.events) == [] && ImportErrorPaths(s.events) == []
            && (s.raised.Some? <==> exists i :: 0 <= i < |root.members| && env.pred(root.members[i].obj).Fail?)
            && (s.raised.None? ==>
                  forall m :: multiset(Calls(s.events))[m] == if env.pred(m.obj) == Ok(true) then multiset(root.members)[m] else 0)
            && (s.raised.None? ==> Matches(env.pred, root.members) == Ok(Calls(s.events)))
  {
    var root := Import(env.imports, package).value;
    var rest := ScanModule(env, root, InitialContext(staticCtx, supplied));
    ProjectionsOne(Imported(package));
    ProjectionsAppend([Imported(package)], rest.events);
    assert Calls([Imported(package)]) == [];
    assert Calls([Imported(package)] + rest.events) == Calls(rest.events);
  }

  // ---------------------------------------------------------------------
  // Predicates and callbacks that leave the context alone

  /** A predicate that rejects everything makes the callback unreachable:
      the scan ends with the context it started from. */
  lemma RejectAllKeepsContext(env: Env, staticCtx: Context, supplied: Option<Context>, package: string, fs: FileSystem)
    requires AcceptsNothing(env)
    ensures var s := Scan(env, staticCtx, supplied, package, fs);
            s.ctx == InitialContext(staticCtx, supplied) && Calls(s.events) == [] && ProcessErrors(s.events) == []
  {
    ProjectionsOne(Imported(package));
    match Import(env.imports, package)
    case Fail(_) =>
    case Ok(root) =>
      var ctx := InitialContext(staticCtx, supplied);
      var rest := if root.fileName != INIT_MODULE_NAME then ScanModule(env, root, ctx)
                  else ScanVisits(env, PackageParentDir(package, root.dir), ctx, PackageWalk(root.dir, fs));
      ProjectionsAppend([Imported(package)], rest.events);
  }

  /** A predicate that accepts everything lets every member through, in
      order. */
  lemma {:induction false} MatchesAcceptingAll(pred: Predicate, members: seq<Member>)
    requires forall o :: pred(o) == Ok(true)
    ensures Matches(pred, members) == Ok(members)
  {
    if members != [] {
      MatchesAcceptingAll(pred, members[1..]);
      assert members == [members[0]] + members[1..];
    }
  }

  /** A callback that always raises sends every match on to
      `on_process_error`: within a module ... */
  lemma {:induction false} ScanModuleAlwaysFails(env: Env, loaded: Module, ctx: Context)
    requires AlwaysFails(env)
    ensures ProcessErrors(ScanModule(env, loaded, ctx).events) == Calls(ScanModule(env, loaded, ctx).events)
  {
    match Matches(env.pred, loaded.members)
    case Fail(_) =>
    case Ok(ms) =>
      ProcessAllAlwaysFails(env, loaded, ctx, ms);
  }

  /** ... for one file ... */
  lemma {:induction false} ImportFileAlwaysFails(env: Env, pkgPath: string, ctx: Context, fileName: string)
    requires AlwaysFails(env)
    ensures var r := ImportFile(env, pkgPath, ctx, fileName); ProcessErrors(r.events) == Calls(r.events)
  {
    if IsModuleFile(fileName) {
      var mp := ModPath(pkgPath, fileName);
      match Import(env.imports, mp)
      case Fail(e) =>
        ProjectionsTwo(Imported(mp), ImportFailed(e, mp, ctx));
      case Ok(m) =>
        ScanModuleAlwaysFails(env, m, ctx);
        ProjectionsOne(Imported(mp));
        ProjectionsAppend([Imported(mp)], ScanModule(env, m, ctx).events);
    }
  }

  /** ... for the files of a package directory ... */
  lemma {:induction false} ImportFilesAlwaysFails(env: Env, pkgPath: string, ctx: Context, files: seq<string>)
    requires AlwaysFails(env)
    ensures var r := ImportFiles(env, pkgPath, ctx, files); ProcessErrors(r.events) == Calls(r.events)
  {
    if files != [] {
      var init := files[..|files| - 1];
      var before := ImportFiles(env, pkgPath, ctx, init);
      ImportFilesAlwaysFails(env, pkgPath, ctx, init);
      if before.raised.None? {
        var step := ImportFile(env, pkgPath, before.ctx, files[|files| - 1]);
        ImportFileAlwaysFails(env, pkgPath, before.ctx, files[|files| - 1]);
        ProjectionsAppend(before.events, step.events);
      }
    }
  }

  /** ... for one directory ... */
  lemma VisitDirAlwaysFails(env: Env, parentDir: string, ctx: Context, v: Visit)
    requires AlwaysFails(env)
    ensures var r := VisitDir(env, parentDir, ctx, v); ProcessErrors(r.events) == Calls(r.events)
  {
    if Ignores(v.dir) {
      ProjectionsOne(IgnoredDirectory(v.path));
    } else if IsPackage(v.dir) {
      ImportFilesAlwaysFails(env, PkgPath(parentDir, v.path), ctx, v.dir.files);
    }
  }

  /** ... and for the directories of a walk. */
  lemma {:induction false} ScanVisitsAlwaysFails(env: Env, parentDir: string, ctx: Context, vs: seq<Visit>)
    requires AlwaysFails(env)
    ensures var r := ScanVisits(env, parentDir, ctx, vs); ProcessErrors(r.events) == Calls(r.events)
  {
    if vs != [] {
      var init, v := vs[..|vs| - 1], vs[|vs| - 1];
      var before := ScanVisits(env, parentDir, ctx, init);
      ScanVisitsAlwaysFails(env, parentDir, ctx, init);
      if before.raised.None? {
        var step := VisitDir(env, parentDir, before.ctx, v);
        VisitDirAlwaysFails(env, parentDir, before.ctx, v);
        ProjectionsAppend(before.events, step.events);
      }
    }
  }

  /** `Scanner()` with its defaults: `lambda obj: True` never raises and a
      callback that rejects its three arguments raises `TypeError` on every
      call without touching the context. */
  lemma DefaultsAreInert(imports: Imports)
    ensures var env := Env(DefaultPredicate, DefaultCallback, imports);
            TotalPredicate(env) && KeepsContext(env) && AlwaysFails(env)
  {
  }

  /** So a default scanner raises only when the root does not import, ends
      with the context it started from, and every callback it makes ends in
      `on_process_error`; a plain-module root has every member called, in
      order. */
  lemma DefaultScan(imports: Imports, staticCtx: Context, supplied: Option<Context>, package: string, fs: FileSystem)
    ensures var env := Env(DefaultPredicate, DefaultCallback, imports);
            var s := Scan(env, staticCtx, supplied, package, fs);
            && (s.raised.Some? <==> Import(imports, package).Fail?)
            && s.ctx == InitialContext(staticCtx, supplied)
            && ProcessErrors(s.events) == Calls(s.events)
            && (Import(imports, package).Ok? && Import(imports, package).value.fileName != INIT_MODULE_NAME ==>
                  Calls(s.events) == Import(imports, package).value.members)
  {
    var env := Env(DefaultPredicate, DefaultCallback, imports);
    DefaultsAreInert(imports);
    ScanWithTotalPredicate(env, staticCtx, supplied, package, fs);
    ProjectionsOne(Imported(package));
    var ctx := InitialContext(staticCtx, supplied);
    match Import(imports, package)
    case Fail(_) =>
    case Ok(root) =>
      if root.fileName != INIT_MODULE_NAME {
        MatchesAcceptingAll(env.pred, root.members);
        ScanModuleAlwaysFails(env, root, ctx);
        ProjectionsAppend([Imported(package)], ScanModule(env, root, ctx).events);
      } else {
        var rest := ScanVisits(env, PackageParentDir(package, root.dir), ctx, PackageWalk(root.dir, fs));
        ScanVisitsAlwaysFails(env, PackageParentDir(package, root.dir), ctx, PackageWalk(root.dir, fs));
        ProjectionsAppend([Imported(package)], rest.events);
      }
  }
}
