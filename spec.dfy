/** What one scan computes, as functions of its inputs: the final context,
    the events in order, and the exception that escapes `scan`, if any
    (looksee/scanner.py, lines 64-165). The `Scanner` class is proved to
    do exactly this. */
module ScanSpec {
  import opened Wrappers
  import opened Model
  import opened Paths
  import opened DirWalk
  import opened Seqs

  /** The caller-supplied pieces a scan consults. */
  datatype Env = Env(pred: Predicate, cb: Callback, imports: Imports)

  /** The effect of a stretch of a scan that starts from some context: the
      context it leaves, the events it produces, and the exception it ends
      with (nothing runs after one). */
  datatype Run = Run(ctx: Context, events: seq<Event>, raised: Option<Exc>)

  /** `a`, then `b` from where `a` left the context. */
  function Then(a: Run, b: Run): Run
  {
    Run(b.ctx, a.events + b.events, b.raised)
  }

  /** The predicate never raises. */
  ghost predicate TotalPredicate(env: Env)
  {
    forall o :: env.pred(o).Ok?
  }

  /** The callback never changes the context it is given. */
  ghost predicate KeepsContext(env: Env)
  {
    forall name, o, ctx :: env.cb(name, o, ctx).ctx == ctx
  }

  /** The callback raises on every call (as the default one does). */
  ghost predicate AlwaysFails(env: Env)
  {
    forall name, o, ctx :: env.cb(name, o, ctx).failure.Some?
  }

  /** The predicate accepts nothing. */
  ghost predicate AcceptsNothing(env: Env)
  {
    forall o :: env.pred(o) != Ok(true)
  }

  // ---------------------------------------------------------------------
  // Projections of an event trace

  /** What each event contributes to a projection, in trace order. */
  function Project<T>(evs: seq<Event>, f: Event -> seq<T>): seq<T>
  {
    if evs == [] then [] else f(evs[0]) + Project(evs[1..], f)
  }

  lemma {:induction false} ProjectAppend<T>(a: seq<Event>, b: seq<Event>, f: Event -> seq<T>)
    ensures Project(a + b, f) == Project(a, f) + Project(b, f)
  {
    if a == [] {
      assert a + b == b;
    } else {
      assert (a + b)[1..] == a[1..] + b;
      ProjectAppend(a[1..], b, f);
    }
  }

  function ImportedPathOf(e: Event): seq<string>
  {
    if e.Imported? then [e.path] else []
  }

  function CallOf(e: Event): seq<Member>
  {
    if e.Called? then [Member(e.name, e.obj)] else []
  }

  function IgnoredPathOf(e: Event): seq<string>
  {
    if e.IgnoredDirectory? then [e.dirPath] else []
  }

  function ImportErrorPathOf(e: Event): seq<string>
  {
    if e.ImportFailed? then [e.modPath] else []
  }

  function ProcessErrorOf(e: Event): seq<Member>
  {
    if e.ProcessFailed? then [Member(e.name, e.obj)] else []
  }

  /** The paths handed to `import_module`, in order. */
  function ImportedPaths(evs: seq<Event>): seq<string> { Project(evs, ImportedPathOf) }

  /** The `(name, obj)` pairs handed to the callback, in order. */
  function Calls(evs: seq<Event>): seq<Member> { Project(evs, CallOf) }

  /** The directories handed to `on_ignore_directory`, in order. */
  function IgnoredPaths(evs: seq<Event>): seq<string> { Project(evs, IgnoredPathOf) }

  /** The module paths handed to `on_import_error`, in order. */
  function ImportErrorPaths(evs: seq<Event>): seq<string> { Project(evs, ImportErrorPathOf) }

  /** The `(name, obj)` pairs handed to `on_process_error`, in order. */
  function ProcessErrors(evs: seq<Event>): seq<Member> { Project(evs, ProcessErrorOf) }

  lemma ProjectionsAppend(a: seq<Event>, b: seq<Event>)
    ensures ImportedPaths(a + b) == ImportedPaths(a) + ImportedPaths(b)
    ensures Calls(a + b) == Calls(a) + Calls(b)
    ensures IgnoredPaths(a + b) == IgnoredPaths(a) + IgnoredPaths(b)
    ensures ImportErrorPaths(a + b) == ImportErrorPaths(a) + ImportErrorPaths(b)
    ensures ProcessErrors(a + b) == ProcessErrors(a) + ProcessErrors(b)
  {
    ProjectAppend(a, b, ImportedPathOf);
    ProjectAppend(a, b, CallOf);
    ProjectAppend(a, b, IgnoredPathOf);
    ProjectAppend(a, b, ImportErrorPathOf);
    ProjectAppend(a, b, ProcessErrorOf);
  }

  lemma ProjectOne<T>(e: Event, f: Event -> seq<T>)
    ensures Project([e], f) == f(e)
  {
    assert [e][1..] == [];
    assert f(e) + [] == f(e);
  }

  lemma ProjectionsOne(e: Event)
    ensures ImportedPaths([e]) == ImportedPathOf(e)
    ensures Calls([e]) == CallOf(e)
    ensures IgnoredPaths([e]) == IgnoredPathOf(e)
    ensures ImportErrorPaths([e]) == ImportErrorPathOf(e)
    ensures ProcessErrors([e]) == ProcessErrorOf(e)
  {
    ProjectOne(e, ImportedPathOf);
    ProjectOne(e, CallOf);
    ProjectOne(e, IgnoredPathOf);
    ProjectOne(e, ImportErrorPathOf);
    ProjectOne(e, ProcessErrorOf);
  }

  /** The five projections of a trace of two events. */
  lemma ProjectionsTwo(e: Event, e': Event)
    ensures ImportedPaths([e, e']) == ImportedPathOf(e) + ImportedPathOf(e')
    ensures Calls([e, e']) == CallOf(e) + CallOf(e')
    ensures IgnoredPaths([e, e']) == IgnoredPathOf(e) + IgnoredPathOf(e')
    ensures ImportErrorPaths([e, e']) == ImportErrorPathOf(e) + ImportErrorPathOf(e')
    ensures ProcessErrors([e, e']) == ProcessErrorOf(e) + ProcessErrorOf(e')
  {
    assert [e, e'] == [e] + [e'];
    ProjectionsAppend([e], [e']);
    ProjectionsOne(e);
    ProjectionsOne(e');
  }

  // ---------------------------------------------------------------------
  // Reference lists of what the scan should touch

  /** The dotted paths of the `.py` files of a package directory, in the
      order the files are visited. */
  function ModulePathsOf(pkgPath: string, files: seq<string>): seq<string>
  {
    if files == [] then []
    else
      var last := files[|files| - 1];
      ModulePathsOf(pkgPath, files[..|files| - 1]) + (if IsModuleFile(last) then [ModPath(pkgPath, last)] else [])
  }

  /** The module paths a directory the walk yields contributes. */
  function DirModulePaths(parentDir: string, v: Visit): seq<string>
  {
    if Ignores(v.dir) || !IsPackage(v.dir) then [] else ModulePathsOf(PkgPath(parentDir, v.path), v.dir.files)
  }

  function WalkModulePaths(parentDir: string, vs: seq<Visit>): seq<string>
  {
    if vs == [] then [] else WalkModulePaths(parentDir, vs[..|vs| - 1]) + DirModulePaths(parentDir, vs[|vs| - 1])
  }

  /** The paths of the ignored directories among `vs`. */
  function PrunedPaths(vs: seq<Visit>): seq<string>
  {
    if vs == [] then []
    else PrunedPaths(vs[..|vs| - 1]) + (if Ignores(vs[|vs| - 1].dir) then [vs[|vs| - 1].path] else [])
  }

  /** The paths among `paths` whose import raises. */
  function FailingPaths(imports: Imports, paths: seq<string>): seq<string>
  {
    if paths == [] then []
    else (if Import(imports, paths[0]).Fail? then [paths[0]] else []) + FailingPaths(imports, paths[1..])
  }

  lemma ModulePathsOfOne(pkgPath: string, f: string)
    ensures ModulePathsOf(pkgPath, [f]) == if IsModuleFile(f) then [ModPath(pkgPath, f)] else []
  {
    assert [f][..0] == [];
  }

  lemma FailingPathsOfOne(imports: Imports, p: string)
    ensures FailingPaths(imports, [p]) == if Import(imports, p).Fail? then [p] else []
  {
    assert [p][1..] == [];
  }

  lemma {:induction false} FailingPathsAppend(imports: Imports, a: seq<string>, b: seq<string>)
    ensures FailingPaths(imports, a + b) == FailingPaths(imports, a) + FailingPaths(imports, b)
  {
    if a == [] {
      assert a + b == b;
    } else {
      assert (a + b)[1..] == a[1..] + b;
      FailingPathsAppend(imports, a[1..], b);
    }
  }

  /** The members of the module imported under `path` that the predicate
      accepts, in order; nothing when the import or the predicate raises. */
  function MatchesAt(env: Env, path: string): seq<Member>
  {
    match Import(env.imports, path)
    case Fail(_) => []
    case Ok(m) => if Matches(env.pred, m.members).Ok? then Matches(env.pred, m.members).value else []
  }

  /** The accepted members of the modules at `paths`, module after module. */
  function AcceptedMembers(env: Env, paths: seq<string>): seq<Member>
  {
    if paths == [] then [] else MatchesAt(env, paths[0]) + AcceptedMembers(env, paths[1..])
  }

  lemma AcceptedMembersOne(env: Env, p: string)
    ensures AcceptedMembers(env, [p]) == MatchesAt(env, p)
  {
    assert [p][1..] == [];
  }

  lemma {:induction false} AcceptedMembersAppend(env: Env, a: seq<string>, b: seq<string>)
    ensures AcceptedMembers(env, a + b) == AcceptedMembers(env, a) + AcceptedMembers(env, b)
  {
    if a == [] {
      assert a + b == b;
    } else {
      assert (a + b)[1..] == a[1..] + b;
      AcceptedMembersAppend(env, a[1..], b);
    }
  }

  /** The exception that escapes `scan_module` for the module imported
      under `path`: the predicate's first one on its members; none when the
      import raises, since that goes to `on_import_error`. */
  function RaisedAt(env: Env, path: string): Option<Exc>
  {
    match Import(env.imports, path)
    case Fail(_) => None
    case Ok(m) => if Matches(env.pred, m.members).Fail? then Some(Matches(env.pred, m.members).error) else None
  }

  /** The first exception that escapes when the modules at `paths` are
      imported and scanned one after another. */
  function FirstRaised(env: Env, paths: seq<string>): Option<Exc>
  {
    if paths == [] then None
    else if RaisedAt(env, paths[0]).Some? then RaisedAt(env, paths[0])
    else FirstRaised(env, paths[1..])
  }

  lemma FirstRaisedOne(env: Env, p: string)
    ensures FirstRaised(env, [p]) == RaisedAt(env, p)
  {
    assert [p][1..] == [];
  }

  lemma {:induction false} FirstRaisedAppend(env: Env, a: seq<string>, b: seq<string>)
    ensures FirstRaised(env, a + b) == if FirstRaised(env, a).Some? then FirstRaised(env, a) else FirstRaised(env, b)
  {
    if a == [] {
      assert a + b == b;
    } else {
      assert (a + b)[1..] == a[1..] + b;
      FirstRaisedAppend(env, a[1..], b);
    }
  }

  /** An exception escapes from a run over `paths` exactly when the
      predicate raises on the members of a module at one of them that
      imports. */
  lemma {:induction false} FirstRaisedExists(env: Env, paths: seq<string>)
    ensures FirstRaised(env, paths).Some? <==>
              exists p :: p in paths && Import(env.imports, p).Ok? && Matches(env.pred, Import(env.imports, p).value.members).Fail?
  {
    if paths != [] {
      FirstRaisedExists(env, paths[1..]);
      SplitFirst(paths);
    }
  }

  // ---------------------------------------------------------------------
  // One module

  /** `inspect.getmembers(module, predicate=self.match)`: the predicate is
      asked about every member, in order, before any callback runs; the
      first exception it raises escapes; otherwise the accepted members, in
      order. */
  function Matches(pred: Predicate, members: seq<Member>): (r: Result<seq<Member>, Exc>)
    ensures r.Fail? <==> exists i :: 0 <= i < |members| && pred(members[i].obj).Fail?
    ensures r.Fail? ==> exists i :: 0 <= i < |members| && pred(members[i].obj) == Fail(r.error) &&
                                    forall j :: 0 <= j < i ==> pred(members[j].obj).Ok?
    ensures r.Ok? ==> forall m :: multiset(r.value)[m] == if pred(m.obj) == Ok(true) then multiset(members)[m] else 0
    ensures r.Ok? ==> forall i :: 0 <= i < |r.value| ==> pred(r.value[i].obj) == Ok(true)
    ensures r.Ok? ==> Subsequence(r.value, members)
  {
    if members == [] then Ok([])
    else
      match pred(members[0].obj)
      case Fail(e) =>
        assert pred(members[0].obj) == Fail(e);
        Fail(e)
      case Ok(accepted) =>
        var rest := Matches(pred, members[1..]);
        FailuresAfterHead(pred, members);
        if rest.Fail? then
          FirstFailureAfterHead(pred, members, rest.error);
          Fail(rest.error)
        else if accepted then
          KeepFirst(pred, members, rest.value);
          Ok([members[0]] + rest.value)
        else
          SkipFirst(pred, members, rest.value);
          Ok(rest.value)
  }

  /** When the predicate accepts or rejects the first member without
      raising, it raises on some member exactly when it raises on one of
      the rest ... */
  lemma FailuresAfterHead(pred: Predicate, members: seq<Member>)
    requires members != [] && pred(members[0].obj).Ok?
    ensures (exists i :: 0 <= i < |members| && pred(members[i].obj).Fail?) <==>
            (exists i :: 0 <= i < |members[1..]| && pred(members[1..][i].obj).Fail?)
  {
    SplitFirst(members);
    if i :| 0 <= i < |members| && pred(members[i].obj).Fail? {
      assert pred(members[1..][i - 1].obj).Fail?;
    }
  }

  /** ... and the first exception among the rest is the first of all. */
  lemma FirstFailureAfterHead(pred: Predicate, members: seq<Member>, e: Exc)
    requires members != [] && pred(members[0].obj).Ok?
    requires exists i :: 0 <= i < |members[1..]| && pred(members[1..][i].obj) == Fail(e) &&
                         forall j :: 0 <= j < i ==> pred(members[1..][j].obj).Ok?
    ensures exists i :: 0 <= i < |members| && pred(members[i].obj) == Fail(e) &&
                        forall j :: 0 <= j < i ==> pred(members[j].obj).Ok?
  {
    var i :| 0 <= i < |members[1..]| && pred(members[1..][i].obj) == Fail(e) &&
             forall j :: 0 <= j < i ==> pred(members[1..][j].obj).Ok?;
    assert forall j :: 0 <= j < i + 1 ==> pred(members[j].obj).Ok? by {
      forall j | 0 <= j < i + 1
        ensures pred(members[j].obj).Ok?
      {
        if j > 0 {
          assert pred(members[1..][j - 1].obj).Ok?;
        }
      }
    }
    assert pred(members[i + 1].obj) == Fail(e);
  }

  /** An accepted first member is kept in front of the matches of the rest. */
  lemma KeepFirst(pred: Predicate, members: seq<Member>, kept: seq<Member>)
    requires members != [] && pred(members[0].obj) == Ok(true)
    requires forall m :: multiset(kept)[m] == if pred(m.obj) == Ok(true) then multiset(members[1..])[m] else 0
    requires forall i :: 0 <= i < |kept| ==> pred(kept[i].obj) == Ok(true)
    requires Subsequence(kept, members[1..])
    ensures var r := [members[0]] + kept;
            && (forall m :: multiset(r)[m] == if pred(m.obj) == Ok(true) then multiset(members)[m] else 0)
            && (forall i :: 0 <= i < |r| ==> pred(r[i].obj) == Ok(true))
            && Subsequence(r, members)
  {
    KeepFirstCounts(pred, members, kept);
    KeepFirstAccepted(pred, members, kept);
    TailOfAppend([members[0]], kept);
  }

  lemma KeepFirstCounts(pred: Predicate, members: seq<Member>, kept: seq<Member>)
    requires members != [] && pred(members[0].obj) == Ok(true)
    requires forall m :: multiset(kept)[m] == if pred(m.obj) == Ok(true) then multiset(members[1..])[m] else 0
    ensures forall m :: multiset([members[0]] + kept)[m] == if pred(m.obj) == Ok(true) then multiset(members)[m] else 0
  {
    SplitFirst(members);
    assert multiset(members) == multiset([members[0]]) + multiset(members[1..]);
  }

  lemma KeepFirstAccepted(pred: Predicate, members: seq<Member>, kept: seq<Member>)
    requires members != [] && pred(members[0].obj) == Ok(true)
    requires forall i :: 0 <= i < |kept| ==> pred(kept[i].obj) == Ok(true)
    ensures forall i :: 0 <= i < |[members[0]] + kept| ==> pred(([members[0]] + kept)[i].obj) == Ok(true)
  {
  }

  /** A rejected first member is left out of the matches. */
  lemma SkipFirst(pred: Predicate, members: seq<Member>, kept: seq<Member>)
    requires members != [] && pred(members[0].obj) == Ok(false)
    requires forall m :: multiset(kept)[m] == if pred(m.obj) == Ok(true) then multiset(members[1..])[m] else 0
    requires Subsequence(kept, members[1..])
    ensures forall m :: multiset(kept)[m] == if pred(m.obj) == Ok(true) then multiset(members)[m] else 0
    ensures Subsequence(kept, members)
  {
    SplitFirst(members);
  }

  /** `self.process(module, k, v, context)` inside its `try`: the callback
      runs once; if it raises, `on_process_error(exc, module, context, k, v)`
      runs, and the scan goes on either way. */
  function Process(env: Env, loaded: Module, ctx: Context, m: Member): (r: Run)
    ensures r.raised.None?
    ensures env.cb(m.name, m.obj, ctx).failure.None? ==> r.events == [Called(m.name, m.obj)]
    ensures env.cb(m.name, m.obj, ctx).failure.Some? ==>
              r.events == [Called(m.name, m.obj),
                           ProcessFailed(env.cb(m.name, m.obj, ctx).failure.value, loaded, r.ctx, m.name, m.obj)]
    ensures Calls(r.events) == [m]
    ensures ProcessErrors(r.events) == if env.cb(m.name, m.obj, ctx).failure.Some? then [m] else []
    ensures ImportedPaths(r.events) == [] && IgnoredPaths(r.events) == [] && ImportErrorPaths(r.events) == []
    ensures r.ctx == env.cb(m.name, m.obj, ctx).ctx
  {
    var reply := env.cb(m.name, m.obj, ctx);
    if reply.failure.Some? then
      ProjectionsTwo(Called(m.name, m.obj), ProcessFailed(reply.failure.value, loaded, reply.ctx, m.name, m.obj));
      Run(reply.ctx, [Called(m.name, m.obj), ProcessFailed(reply.failure.value, loaded, reply.ctx, m.name, m.obj)], None)
    else
      ProjectionsOne(Called(m.name, m.obj));
      Run(reply.ctx, [Called(m.name, m.obj)], None)
  }

  /** The loop over the matches of one module: every match reaches the
      callback exactly once and in order, whatever earlier calls raised;
      `on_process_error` fires only for matches. */
  function ProcessAll(env: Env, loaded: Module, ctx: Context, ms: seq<Member>): (r: Run)
    ensures r.raised.None?
    ensures Calls(r.events) == ms
    ensures multiset(ProcessErrors(r.events)) <= multiset(ms)
    ensures ImportedPaths(r.events) == [] && IgnoredPaths(r.events) == [] && ImportErrorPaths(r.events) == []
    ensures KeepsContext(env) ==> r.ctx == ctx
  {
    if ms == [] then Run(ctx, [], None)
    else
      var init, last := ms[..|ms| - 1], ms[|ms| - 1];
      var before := ProcessAll(env, loaded, ctx, init);
      var step := Process(env, loaded, before.ctx, last);
      ProjectionsAppend(before.events, step.events);
      SplitLast(ms);
      assert multiset(ProcessErrors(step.events)) <= multiset([last]);
      Then(before, step)
  }

  /** One more match processed. */
  lemma ProcessAllStep(env: Env, loaded: Module, ctx: Context, ms: seq<Member>, i: nat)
    requires i < |ms|
    ensures var before := ProcessAll(env, loaded, ctx, ms[..i]);
            ProcessAll(env, loaded, ctx, ms[..i + 1]) == Then(before, Process(env, loaded, before.ctx, ms[i]))
  {
    assert ms[..i + 1][..i] == ms[..i];
  }

  /** With a callback that always raises, every match is reported to
      `on_process_error`, in order. */
  lemma {:induction false} ProcessAllAlwaysFails(env: Env, loaded: Module, ctx: Context, ms: seq<Member>)
    requires AlwaysFails(env)
    ensures ProcessErrors(ProcessAll(env, loaded, ctx, ms).events) == ms
  {
    if ms != [] {
      var init, last := ms[..|ms| - 1], ms[|ms| - 1];
      var before := ProcessAll(env, loaded, ctx, init);
      var step := Process(env, loaded, before.ctx, last);
      assert ProcessAll(env, loaded, ctx, ms) == Then(before, step);
      ProcessAllAlwaysFails(env, loaded, ctx, init);
      ProjectionsAppend(before.events, step.events);
      assert ProcessErrors(step.events) == [last] by {
        assert env.cb(last.name, last.obj, before.ctx).failure.Some?;
      }
      SplitLast(ms);
    }
  }

  /** The matches among `ms` on which the callback raises when it is called
      with the context `ctx`, in order. */
  function RaisingCalls(env: Env, ctx: Context, ms: seq<Member>): seq<Member>
  {
    if ms == [] then []
    else
      var last := ms[|ms| - 1];
      RaisingCalls(env, ctx, ms[..|ms| - 1]) + (if env.cb(last.name, last.obj, ctx).failure.Some? then [last] else [])
  }

  /** With a callback that leaves the context alone, every call sees the
      context the module scan started with, so `on_process_error` fires for
      exactly the matches on which the callback raises with that context,
      in order. */
  lemma {:induction false} ProcessAllKeepingContext(env: Env, loaded: Module, ctx: Context, ms: seq<Member>)
    requires KeepsContext(env)
    ensures ProcessErrors(ProcessAll(env, loaded, ctx, ms).events) == RaisingCalls(env, ctx, ms)
  {
    if ms != [] {
      var init, last := ms[..|ms| - 1], ms[|ms| - 1];
      var before := ProcessAll(env, loaded, ctx, init);
      var step := Process(env, loaded, before.ctx, last);
      assert ProcessAll(env, loaded, ctx, ms) == Then(before, step);
      ProcessAllKeepingContext(env, loaded, ctx, init);
      ProjectionsAppend(before.events, step.events);
    }
  }

  /** `scan_module(module, context)`: if the predicate raises on any member,
      no callback runs and the exception escapes; otherwise the callback is
      called exactly once for each accepted member and never for another. */
  function ScanModule(env: Env, loaded: Module, ctx: Context): (r: Run)
    ensures r.raised.Some? <==> exists i :: 0 <= i < |loaded.members| && env.pred(loaded.members[i].obj).Fail?
    ensures r.raised.Some? ==> r.events == [] && r.ctx == ctx
    ensures r.raised.None? ==>
              forall m :: multiset(Calls(r.events))[m] == if env.pred(m.obj) == Ok(true) then multiset(loaded.members)[m] else 0
    ensures ImportedPaths(r.events) == [] && IgnoredPaths(r.events) == [] && ImportErrorPaths(r.events) == []
    ensures KeepsContext(env) || AcceptsNothing(env) ==> r.ctx == ctx
    ensures AcceptsNothing(env) ==> r.events == []
    ensures r.raised.None? ==> Matches(env.pred, loaded.members) == Ok(Calls(r.events))
    ensures r.raised.Some? ==> Matches(env.pred, loaded.members) == Fail(r.raised.value)
  {
    match Matches(env.pred, loaded.members)
    case Fail(e) => Run(ctx, [], Some(e))
    case Ok(ms) =>
      assert ms != [] ==> env.pred(ms[0].obj) == Ok(true);
      ProcessAll(env, loaded, ctx, ms)
  }

  // ---------------------------------------------------------------------
  // One package directory

  /** One file of a package directory: skipped unless it is a `.py` file;
      otherwise imported under its module path; an import that raises goes
      to `on_import_error(exc, mod_path, context)` and nothing else happens
      for that file; an import that succeeds is scanned. */
  function ImportFile(env: Env, pkgPath: string, ctx: Context, fileName: string): (r: Run)
    ensures !IsModuleFile(fileName) ==> r == Run(ctx, [], None)
    ensures IsModuleFile(fileName) ==> ImportedPaths(r.events) == [ModPath(pkgPath, fileName)]
    ensures IsModuleFile(fileName) && Import(env.imports, ModPath(pkgPath, fileName)).Fail? ==>
              var mp := ModPath(pkgPath, fileName);
              r == Run(ctx, [Imported(mp), ImportFailed(Import(env.imports, mp).error, mp, ctx)], None)
    ensures ImportErrorPaths(r.events) == FailingPaths(env.imports, ModulePathsOf(pkgPath, [fileName]))
    ensures IsModuleFile(fileName) && Import(env.imports, ModPath(pkgPath, fileName)).Ok? ==>
              var mp := ModPath(pkgPath, fileName);
              r == ScanImported(env, mp, ctx, Import(env.imports, mp).value)
    ensures r.raised == FirstRaised(env, ModulePathsOf(pkgPath, [fileName]))
    ensures r.raised.None? ==> Calls(r.events) == AcceptedMembers(env, ModulePathsOf(pkgPath, [fileName]))
    ensures IgnoredPaths(r.events) == []
    ensures TotalPredicate(env) ==> r.raised.None?
    ensures KeepsContext(env) || AcceptsNothing(env) ==> r.ctx == ctx
    ensures AcceptsNothing(env) ==> Calls(r.events) == [] && ProcessErrors(r.events) == []
  {
    ModulePathsOfOne(pkgPath, fileName);
    if !IsModuleFile(fileName) then Run(ctx, [], None)
    else
      var mp := ModPath(pkgPath, fileName);
      FailingPathsOfOne(env.imports, mp);
      AcceptedMembersOne(env, mp);
      FirstRaisedOne(env, mp);
      match Import(env.imports, mp)
      case Fail(e) =>
        ProjectionsTwo(Imported(mp), ImportFailed(e, mp, ctx));
        Run(ctx, [Imported(mp), ImportFailed(e, mp, ctx)], None)
      case Ok(m) => ScanImported(env, mp, ctx, m)
  }

  /** A module that imported under `mp` is scanned right away: its import
      is followed by exactly the events of its scan, and the callback sees
      exactly its accepted members, in order. */
  function ScanImported(env: Env, mp: string, ctx: Context, m: Module): (r: Run)
    ensures var s := ScanModule(env, m, ctx);
            r == Run(s.ctx, [Imported(mp)] + s.events, s.raised)
    ensures r.raised.None? ==> Matches(env.pred, m.members) == Ok(Calls(r.events))
    ensures r.raised == if Matches(env.pred, m.members).Fail? then Some(Matches(env.pred, m.members).error) else None
    ensures ImportedPaths(r.events) == [mp] && ImportErrorPaths(r.events) == [] && IgnoredPaths(r.events) == []
    ensures TotalPredicate(env) ==> r.raised.None?
    ensures KeepsContext(env) || AcceptsNothing(env) ==> r.ctx == ctx
    ensures AcceptsNothing(env) ==> Calls(r.events) == [] && ProcessErrors(r.events) == []
  {
    var scanned := ScanModule(env, m, ctx);
    ProjectionsOne(Imported(mp));
    ProjectionsAppend([Imported(mp)], scanned.events);
    AppendEmpty(Calls(scanned.events));
    assert Calls([Imported(mp)] + scanned.events) == Calls(scanned.events);
    Run(scanned.ctx, [Imported(mp)] + scanned.events, scanned.raised)
  }

  /** The loop over the files of a package directory: every `.py` file is
      imported, in order, unless a predicate exception has escaped, and every
      import that raises is reported exactly once. */
  function ImportFiles(env: Env, pkgPath: string, ctx: Context, files: seq<string>): (r: Run)
    ensures r.raised == FirstRaised(env, ModulePathsOf(pkgPath, files))
    ensures r.raised.None? ==> ImportedPaths(r.events) == ModulePathsOf(pkgPath, files)
    ensures r.raised.None? ==> ImportErrorPaths(r.events) == FailingPaths(env.imports, ModulePathsOf(pkgPath, files))
    ensures r.raised.None? ==> Calls(r.events) == AcceptedMembers(env, ModulePathsOf(pkgPath, files))
    ensures IgnoredPaths(r.events) == []
    ensures TotalPredicate(env) ==> r.raised.None?
    ensures KeepsContext(env) || AcceptsNothing(env) ==> r.ctx == ctx
    ensures AcceptsNothing(env) ==> Calls(r.events) == [] && ProcessErrors(r.events) == []
  {
    if files == [] then Run(ctx, [], None)
    else
      var last := files[|files| - 1];
      var before := ImportFiles(env, pkgPath, ctx, files[..|files| - 1]);
      FirstRaisedAppend(env, ModulePathsOf(pkgPath, files[..|files| - 1]), ModulePathsOf(pkgPath, [last]));
      ModulePathsOfOne(pkgPath, last);
      if before.raised.Some? then before
      else
        var step := ImportFile(env, pkgPath, before.ctx, last);
        ProjectionsAppend(before.events, step.events);
        FailingPathsAppend(env.imports, ModulePathsOf(pkgPath, files[..|files| - 1]), ModulePathsOf(pkgPath, [last]));
        AcceptedMembersAppend(env, ModulePathsOf(pkgPath, files[..|files| - 1]), ModulePathsOf(pkgPath, [last]));
        Then(before, step)
  }

  /** One more file looked at, unless an exception has escaped. */
  lemma ImportFilesStep(env: Env, pkgPath: string, ctx: Context, files: seq<string>, i: nat)
    requires i < |files|
    ensures var before := ImportFiles(env, pkgPath, ctx, files[..i]);
            ImportFiles(env, pkgPath, ctx, files[..i + 1]) ==
              if before.raised.Some? then before else Then(before, ImportFile(env, pkgPath, before.ctx, files[i]))
  {
    assert files[..i + 1][..i] == files[..i];
  }

  /** Once a predicate exception has escaped, no later file is looked at. */
  lemma {:induction false} ImportFilesAborted(env: Env, pkgPath: string, ctx: Context, files: seq<string>, k: nat)
    requires k <= |files|
    requires ImportFiles(env, pkgPath, ctx, files[..k]).raised.Some?
    ensures ImportFiles(env, pkgPath, ctx, files) == ImportFiles(env, pkgPath, ctx, files[..k])
    decreases |files|
  {
    if k == |files| {
      assert files[..k] == files;
    } else {
      var init := files[..|files| - 1];
      assert init[..k] == files[..k];
      ImportFilesAborted(env, pkgPath, ctx, init, k);
    }
  }

  // ---------------------------------------------------------------------
  // The walk

  /** One directory `os.walk` yields: if its marker says `ignore`,
      `on_ignore_directory(dir_name)` and nothing else; otherwise, if it
      holds `__init__.py`, its files are imported under the package path
      computed from its location; otherwise nothing. */
  function VisitDir(env: Env, parentDir: string, ctx: Context, v: Visit): (r: Run)
    ensures Ignores(v.dir) ==> r == Run(ctx, [IgnoredDirectory(v.path)], None)
    ensures !Ignores(v.dir) && !IsPackage(v.dir) ==> r == Run(ctx, [], None)
    ensures r.raised == FirstRaised(env, DirModulePaths(parentDir, v))
    ensures r.raised.None? ==> ImportedPaths(r.events) == DirModulePaths(parentDir, v)
    ensures r.raised.None? ==> ImportErrorPaths(r.events) == FailingPaths(env.imports, DirModulePaths(parentDir, v))
    ensures r.raised.None? ==> Calls(r.events) == AcceptedMembers(env, DirModulePaths(parentDir, v))
    ensures IgnoredPaths(r.events) == if Ignores(v.dir) then [v.path] else []
    ensures TotalPredicate(env) ==> r.raised.None?
    ensures KeepsContext(env) || AcceptsNothing(env) ==> r.ctx == ctx
    ensures AcceptsNothing(env) ==> Calls(r.events) == [] && ProcessErrors(r.events) == []
  {
    if Ignores(v.dir) then
      ProjectionsOne(IgnoredDirectory(v.path));
      Run(ctx, [IgnoredDirectory(v.path)], None)
    else if IsPackage(v.dir) then ImportFiles(env, PkgPath(parentDir, v.path), ctx, v.dir.files)
    else Run(ctx, [], None)
  }

  /** The loop over the directories the walk yields, stopping at the first
      exception that escapes. */
  function ScanVisits(env: Env, parentDir: string, ctx: Context, vs: seq<Visit>): (r: Run)
    ensures r.raised == FirstRaised(env, WalkModulePaths(parentDir, vs))
    ensures r.raised.None? ==> ImportedPaths(r.events) == WalkModulePaths(parentDir, vs)
    ensures r.raised.None? ==> ImportErrorPaths(r.events) == FailingPaths(env.imports, WalkModulePaths(parentDir, vs))
    ensures r.raised.None? ==> IgnoredPaths(r.events) == PrunedPaths(vs)
    ensures r.raised.None? ==> Calls(r.events) == AcceptedMembers(env, WalkModulePaths(parentDir, vs))
    ensures TotalPredicate(env) ==> r.raised.None?
    ensures KeepsContext(env) || AcceptsNothing(env) ==> r.ctx == ctx
    ensures AcceptsNothing(env) ==> Calls(r.events) == [] && ProcessErrors(r.events) == []
  {
    if vs == [] then Run(ctx, [], None)
    else
      var before := ScanVisits(env, parentDir, ctx, vs[..|vs| - 1]);
      FirstRaisedAppend(env, WalkModulePaths(parentDir, vs[..|vs| - 1]), DirModulePaths(parentDir, vs[|vs| - 1]));
      if before.raised.Some? then before
      else
        var step := VisitDir(env, parentDir, before.ctx, vs[|vs| - 1]);
        ProjectionsAppend(before.events, step.events);
        FailingPathsAppend(env.imports, WalkModulePaths(parentDir, vs[..|vs| - 1]), DirModulePaths(parentDir, vs[|vs| - 1]));
        AcceptedMembersAppend(env, WalkModulePaths(parentDir, vs[..|vs| - 1]), DirModulePaths(parentDir, vs[|vs| - 1]));
        Then(before, step)
  }

  /** One more directory looked at, unless an exception has escaped. */
  lemma ScanVisitsStep(env: Env, parentDir: string, ctx: Context, done: seq<Visit>, v: Visit)
    ensures var before := ScanVisits(env, parentDir, ctx, done);
            ScanVisits(env, parentDir, ctx, done + [v]) ==
              if before.raised.Some? then before else Then(before, VisitDir(env, parentDir, before.ctx, v))
  {
    assert (done + [v])[..|done|] == done;
  }

  /** Once a predicate exception has escaped, no later directory is looked at. */
  lemma {:induction false} ScanVisitsAborted(env: Env, parentDir: string, ctx: Context, a: seq<Visit>, b: seq<Visit>)
    requires ScanVisits(env, parentDir, ctx, a).raised.Some?
    ensures ScanVisits(env, parentDir, ctx, a + b) == ScanVisits(env, parentDir, ctx, a)
    decreases |b|
  {
    if b == [] {
      assert a + b == a;
    } else {
      var init := b[..|b| - 1];
      assert (a + b)[..|a + b| - 1] == a + init;
      ScanVisitsAborted(env, parentDir, ctx, a, init);
    }
  }

  // ---------------------------------------------------------------------
  // The whole scan

  /** The runtime context a scan starts from: a copy of the static context
      updated with the supplied one, whose keys win. */
  function InitialContext(staticCtx: Context, supplied: Option<Context>): (r: Context)
    ensures r.Keys == staticCtx.Keys + (if supplied.Some? then supplied.value.Keys else {})
    ensures forall k :: k in r ==> r[k] == if supplied.Some? && k in supplied.value then supplied.value[k] else staticCtx[k]
  {
    if supplied.Some? && |supplied.value| > 0 then staticCtx + supplied.value else staticCtx
  }

  /** The walk for a package whose `__init__.py` lives in `packageDir`;
      `os.walk` of a directory that is not there yields nothing. */
  function PackageWalk(packageDir: string, fs: FileSystem): seq<Visit>
  {
    if packageDir in fs then Walk(Visit(packageDir, fs[packageDir])) else []
  }

  /** `scan(package, context)`: import the root, which may raise; scan just
      the root module unless its file is `__init__.py`; otherwise walk its
      directory. */
  function Scan(env: Env, staticCtx: Context, supplied: Option<Context>, package: string, fs: FileSystem): Run
  {
    ScanPackage(env, package, InitialContext(staticCtx, supplied), fs)
  }

  /** `scan` from the point where the runtime context has been built. */
  function ScanPackage(env: Env, package: string, ctx: Context, fs: FileSystem): Run
  {
    match Import(env.imports, package)
    case Fail(e) => Run(ctx, [Imported(package)], Some(e))
    case Ok(root) => Then(Run(ctx, [Imported(package)], None), ScanRoot(env, package, root, ctx, fs))
  }

  /** What follows a successful import of the root `package`. */
  function ScanRoot(env: Env, package: string, root: Module, ctx: Context, fs: FileSystem): Run
  {
    if root.fileName != INIT_MODULE_NAME then ScanModule(env, root, ctx)
    else ScanVisits(env, PackageParentDir(package, root.dir), ctx, PackageWalk(root.dir, fs))
  }
}
