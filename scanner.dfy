/** The `Scanner` object of looksee/scanner.py: its contexts, its hooks, and
    the loops of `scan` and `scan_module`, each proved to do what the
    functions of `ScanSpec` say. */
module Scanning {
  import opened Wrappers
  import opened Model
  import opened Paths
  import opened DirWalk
  import opened ScanSpec
  import opened Seqs

  /** A mutable dictionary of context values (`DictObject`): the callback
      updates the one it is handed in place. */
  class DictObject {
    var items: Context

    constructor (items: Context)
      ensures this.items == items
    {
      this.items := items;
    }

    /** `copy()`: a distinct object holding the same items. */
    method Copy() returns (c: DictObject)
      ensures fresh(c)
      ensures c.items == items
    {
      c := new DictObject(items);
    }
  }

  class Scanner {
    /** `self._predicate` (`pred`) and `self._callback`, fixed at construction. */
    const pred: Predicate
    const callback: Callback

    /** `self.static_context`: every scan starts from a copy of it. */
    var staticContext: DictObject
    /** `self.context`: the final context of the last scan that finished. */
    var context: DictObject

    /** Everything the scanner has done that a caller can observe: the
        modules it imported, the callbacks it made and the hooks it ran. */
    ghost var trace: seq<Event>

    /** The memoized context is never the static context itself. */
    ghost predicate Valid()
      reads this
    {
      staticContext != context
    }

    /** The pieces the functions of `ScanSpec` consult, with `imports` the
        modules importable at the time of the call. */
    function EnvFor(imports: Imports): Env
    {
      Env(pred, callback, imports)
    }

    /** `Scanner(predicate, callback)`: an empty static context and a
        distinct empty copy of it as the memoized context. */
    constructor (pred: Predicate, callback: Callback)
      ensures this.pred == pred && this.callback == callback
      ensures staticContext.items == map[] && context.items == map[]
      ensures fresh(staticContext) && fresh(context)
      ensures trace == []
      ensures Valid()
    {
      this.pred := pred;
      this.callback := callback;
      var s := new DictObject(map[]);
      var c := s.Copy();
      staticContext := s;
      context := c;
      trace := [];
    }

    /** `Scanner()`: accept every object; the default callback rejects the
        three arguments it is called with. */
    constructor WithDefaults()
      ensures pred == DefaultPredicate && callback == DefaultCallback
      ensures staticContext.items == map[] && context.items == map[]
      ensures fresh(staticContext) && fresh(context)
      ensures trace == []
      ensures Valid()
    {
      pred := DefaultPredicate;
      callback := DefaultCallback;
      var s := new DictObject(map[]);
      var c := s.Copy();
      staticContext := s;
      context := c;
      trace := [];
    }

    // -------------------------------------------------------------------
    // Hooks

    /** `on_ignore_directory(dirpath)` */
    method OnIgnoreDirectory(dirPath: string)
      modifies this`trace
      ensures trace == old(trace) + [IgnoredDirectory(dirPath)]
    {
      trace := trace + [IgnoredDirectory(dirPath)];
    }

    /** `on_import_error(exc, module_path, context)` */
    method OnImportError(exc: Exc, modulePath: string, ctx: DictObject)
      modifies this`trace
      ensures trace == old(trace) + [ImportFailed(exc, modulePath, ctx.items)]
    {
      trace := trace + [ImportFailed(exc, modulePath, ctx.items)];
    }

    /** `on_process_error(exc, module, context, name, obj)` */
    method OnProcessError(exc: Exc, loaded: Module, ctx: DictObject, name: string, obj: Obj)
      modifies this`trace
      ensures trace == old(trace) + [ProcessFailed(exc, loaded, ctx.items, name, obj)]
    {
      trace := trace + [ProcessFailed(exc, loaded, ctx.items, name, obj)];
    }

    // -------------------------------------------------------------------
    // One module

    /** `process(module, name, obj, context)`: the callback updates `ctx` in
        place, and what it raises is returned. */
    method Process(loaded: Module, name: string, obj: Obj, ctx: DictObject) returns (failure: Option<Exc>)
      modifies ctx, this`trace
      ensures ctx.items == callback(name, obj, old(ctx.items)).ctx
      ensures failure == callback(name, obj, old(ctx.items)).failure
      ensures trace == old(trace) + [Called(name, obj)]
    {
      trace := trace + [Called(name, obj)];
      var reply := callback(name, obj, ctx.items);
      ctx.items := reply.ctx;
      failure := reply.failure;
    }

    /** One match of `scan_module`: `process` inside its `try`, and
        `on_process_error` when the callback raises. */
    method ProcessGuarded(loaded: Module, m: Member, ctx: DictObject, ghost imports: Imports)
      modifies ctx, this`trace
      ensures var r := ScanSpec.Process(EnvFor(imports), loaded, old(ctx.items), m);
              ctx.items == r.ctx && trace == old(trace) + r.events
    {
      ghost var step := ScanSpec.Process(EnvFor(imports), loaded, ctx.items, m);
      ghost var t1 := trace;
      var failure := Process(loaded, m.name, m.obj, ctx);
      if failure.Some? {
        OnProcessError(failure.value, loaded, ctx, m.name, m.obj);
        assert trace == t1 + [Called(m.name, m.obj)] + [ProcessFailed(failure.value, loaded, step.ctx, m.name, m.obj)];
      }
    }

    /** `scan_module(module, context)`: returns the predicate exception that
        escapes, if any. */
    method ScanModule(loaded: Module, ctx: DictObject, ghost imports: Imports) returns (raised: Option<Exc>)
      modifies ctx, this`trace
      ensures var r := ScanSpec.ScanModule(EnvFor(imports), loaded, old(ctx.items));
              raised == r.raised && ctx.items == r.ctx && trace == old(trace) + r.events
    {
      ghost var env := EnvFor(imports);
      ghost var ctx0, trace0 := ctx.items, trace;
      match Matches(pred, loaded.members)
      case Fail(e) =>
        raised := Some(e);
      case Ok(ms) =>
        var i := 0;
        while i < |ms|
          invariant 0 <= i <= |ms|
          invariant var r := ProcessAll(env, loaded, ctx0, ms[..i]);
                    ctx.items == r.ctx && trace == trace0 + r.events
        {
          ghost var before := ProcessAll(env, loaded, ctx0, ms[..i]);
          ghost var step := ScanSpec.Process(env, loaded, before.ctx, ms[i]);
          ProcessGuarded(loaded, ms[i], ctx, imports);
          ProcessAllStep(env, loaded, ctx0, ms, i);
          AppendAssoc(trace0, before.events, step.events);
          i := i + 1;
        }
        assert ms[..i] == ms;
        raised := None;
    }

    // -------------------------------------------------------------------
    // One package directory

    /** One file of a package directory (lines 117-129): skipped unless it
        is a `.py` file; imported, and scanned unless the import raised.
        Returns the predicate exception that escapes, if any. */
    method ScanFile(pkgPath: string, fileName: string, ctx: DictObject, imports: Imports)
      returns (raised: Option<Exc>)
      modifies ctx, this`trace
      ensures var r := ImportFile(EnvFor(imports), pkgPath, old(ctx.items), fileName);
              raised == r.raised && ctx.items == r.ctx && trace == old(trace) + r.events
    {
      raised := None;
      if !IsModuleFile(fileName) {
        return;
      }
      var modPath := ModPath(pkgPath, fileName);
      ghost var t0 := trace;
      trace := trace + [Imported(modPath)];
      match Import(imports, modPath)
      case Fail(exc) =>
        OnImportError(exc, modPath, ctx);
        assert trace == t0 + [Imported(modPath), ImportFailed(exc, modPath, ctx.items)];
      case Ok(loaded) =>
        ghost var scanned := ScanSpec.ScanModule(EnvFor(imports), loaded, ctx.items);
        raised := ScanModule(loaded, ctx, imports);
        AppendAssoc(t0, [Imported(modPath)], scanned.events);
    }

    /** The loop over the files of one package directory (the body of the
        `if INIT_MODULE_NAME in file_names` branch): returns the predicate
        exception that escapes, if any. */
    method ScanPackageFiles(pkgPath: string, files: seq<string>, ctx: DictObject, imports: Imports)
      returns (raised: Option<Exc>)
      modifies ctx, this`trace
      ensures var r := ImportFiles(EnvFor(imports), pkgPath, old(ctx.items), files);
              raised == r.raised && ctx.items == r.ctx && trace == old(trace) + r.events
    {
      ghost var env := EnvFor(imports);
      ghost var ctx0, trace0 := ctx.items, trace;
      raised := None;
      var i := 0;
      while i < |files|
        invariant 0 <= i <= |files|
        invariant raised.None?
        invariant var r := ImportFiles(env, pkgPath, ctx0, files[..i]);
                  r.raised.None? && ctx.items == r.ctx && trace == trace0 + r.events
      {
        ghost var before := ImportFiles(env, pkgPath, ctx0, files[..i]);
        ghost var step := ImportFile(env, pkgPath, before.ctx, files[i]);
        raised := ScanFile(pkgPath, files[i], ctx, imports);
        ImportFilesStep(env, pkgPath, ctx0, files, i);
        AppendAssoc(trace0, before.events, step.events);
        if raised.Some? {
          ImportFilesAborted(env, pkgPath, ctx0, files, i + 1);
          return;
        }
        i := i + 1;
      }
      assert files[..i] == files;
    }

    /** One directory the walk yields (lines 97-129): returns whether its
        sub-directories are pruned from the walk, and the predicate
        exception that escapes, if any. */
    method ScanDirectory(parentDir: string, v: Visit, ctx: DictObject, imports: Imports)
      returns (prune: bool, raised: Option<Exc>)
      modifies ctx, this`trace
      ensures prune == Ignores(v.dir)
      ensures var r := VisitDir(EnvFor(imports), parentDir, old(ctx.items), v);
              raised == r.raised && ctx.items == r.ctx && trace == old(trace) + r.events
    {
      prune := false;
      if DOT_FILE_NAME in v.dir.files && MarkerSaysIgnore(v.dir.marker) {
        OnIgnoreDirectory(v.path);
        prune := true;
        raised := None;
        return;
      }
      if INIT_MODULE_NAME in v.dir.files {
        var pkgPath := PkgPath(parentDir, v.path);
        raised := ScanPackageFiles(pkgPath, v.dir.files, ctx, imports);
      } else {
        raised := None;
      }
    }

    // -------------------------------------------------------------------
    // The whole scan

    /** The `os.walk` loop of `scan` (lines 96-129), over the walk of the
        package directory `packageDir`, as a stack of directories still to
        be yielded: returns the predicate exception that escapes, if any. */
    method ScanWalk(parentDir: string, packageDir: string, fs: FileSystem, ctx: DictObject, imports: Imports)
      returns (raised: Option<Exc>)
      modifies ctx, this`trace
      ensures var r := ScanVisits(EnvFor(imports), parentDir, old(ctx.items), PackageWalk(packageDir, fs));
              raised == r.raised && ctx.items == r.ctx && trace == old(trace) + r.events
    {
      ghost var env := EnvFor(imports);
      ghost var ctx0, trace0 := ctx.items, trace;
      ghost var walk := PackageWalk(packageDir, fs);
      var pending := if packageDir in fs then [Visit(packageDir, fs[packageDir])] else [];
      ghost var done: seq<Visit> := [];
      assert WalkAll(pending) == walk by {
        if packageDir in fs {
          assert pending[1..] == [];
        }
      }
      raised := None;
      while pending != []
        invariant done + WalkAll(pending) == walk
        invariant raised.None?
        invariant var r := ScanVisits(env, parentDir, ctx0, done);
                  r.raised.None? && ctx.items == r.ctx && trace == trace0 + r.events
        decreases StackSize(pending)
      {
        var v := pending[0];
        WalkAllPop(pending);
        PopShrinks(pending);
        ghost var before := ScanVisits(env, parentDir, ctx0, done);
        ghost var step := VisitDir(env, parentDir, before.ctx, v);
        var prune;
        prune, raised := ScanDirectory(parentDir, v, ctx, imports);
        ScanVisitsStep(env, parentDir, ctx0, done, v);
        AppendAssoc(trace0, before.events, step.events);
        AppendAssoc(done, [v], WalkAll(Pop(pending)));
        if raised.Some? {
          ScanVisitsAborted(env, parentDir, ctx0, done + [v], WalkAll(Pop(pending)));
          return;
        }
        pending := (if prune then [] else ChildVisits(v.path, v.dir.children)) + pending[1..];
        done := done + [v];
      }
      assert done == walk;
    }

    /** `scan` once the root package has been imported (lines 73-129):
        just the root module when it is not a package, otherwise the walk
        of its directory. */
    method ScanRoot(package: string, root: Module, fs: FileSystem, ctx: DictObject, imports: Imports)
      returns (raised: Option<Exc>)
      modifies ctx, this`trace
      ensures var r := ScanSpec.ScanRoot(EnvFor(imports), package, root, old(ctx.items), fs);
              raised == r.raised && ctx.items == r.ctx && trace == old(trace) + r.events
    {
      if root.fileName != INIT_MODULE_NAME {
        raised := ScanModule(root, ctx, imports);
      } else {
        var packageDir := root.dir;
        var parentDir := PackageParentDir(package, packageDir);
        raised := ScanWalk(parentDir, packageDir, fs, ctx, imports);
      }
    }

    /** `scan` from the point where the runtime context `ctx` has been
        built (lines 66-129): import the root, then scan it. */
    method ScanPackage(package: string, ctx: DictObject, imports: Imports, fs: FileSystem)
      returns (raised: Option<Exc>)
      modifies ctx, this`trace
      ensures var r := ScanSpec.ScanPackage(EnvFor(imports), package, old(ctx.items), fs);
              raised == r.raised && ctx.items == r.ctx && trace == old(trace) + r.events
    {
      ghost var raw, trace0 := ctx.items, trace;
      trace := trace + [Imported(package)];
      match Import(imports, package)
      case Fail(exc) =>
        raised := Some(exc);
      case Ok(root) =>
        raised := ScanRoot(package, root, fs, ctx, imports);
        AppendAssoc(trace0, [Imported(package)], ScanSpec.ScanRoot(EnvFor(imports), package, root, raw, fs).events);
    }

    /** `scan(package, context)`, with `imports` the modules importable and
        `fs` the directories present. On success the memoized context is
        the final runtime context and the result a distinct copy of it; on
        an exception the memoized context is left as it was. The static
        context is never changed, so every scan starts afresh. */
    method Scan(package: string, supplied: Option<Context>, imports: Imports, fs: FileSystem)
      returns (result: Result<DictObject, Exc>)
      requires Valid()
      modifies this`context, this`trace
      ensures Valid()
      ensures staticContext == old(staticContext) && staticContext.items == old(staticContext.items)
      ensures var s := ScanSpec.Scan(EnvFor(imports), old(staticContext.items), supplied, package, fs);
              trace == old(trace) + s.events &&
              (s.raised.Some? ==> result == Fail(s.raised.value) && context == old(context)) &&
              (s.raised.None? ==> result.Ok? && fresh(result.value) && fresh(context) &&
                                  result.value != context &&
                                  context.items == s.ctx && result.value.items == s.ctx)
    {
      var runtime := new DictObject(InitialContext(staticContext.items, supplied));
      assert runtime != staticContext;
      var raised := ScanPackage(package, runtime, imports, fs);
      if raised.Some? {
        return Fail(raised.value);
      }
      context := runtime;
      var copy := runtime.Copy();
      result := Ok(copy);
    }
  }

  /** Two scans with the same arguments: the second starts over from the
      static context, so it ends the same way as the first, returns an
      equal but distinct dictionary, and repeats the first one's events. */
  method ScanTwice(scanner: Scanner, package: string, supplied: Option<Context>, imports: Imports, fs: FileSystem)
    returns (first: Result<DictObject, Exc>, second: Result<DictObject, Exc>)
    requires scanner.Valid()
    modifies scanner`context, scanner`trace
    ensures first.Ok? <==> second.Ok?
    ensures first.Fail? ==> first == second
    ensures first.Ok? ==> first.value != second.value && first.value.items == second.value.items
    ensures var s := ScanSpec.Scan(scanner.EnvFor(imports), scanner.staticContext.items, supplied, package, fs);
            scanner.trace == old(scanner.trace) + s.events + s.events
  {
    first := scanner.Scan(package, supplied, imports, fs);
    second := scanner.Scan(package, supplied, imports, fs);
  }
}
