# looksee scanner, modelled in Dafny

looksee's `Scanner` (looksee/scanner.py) finds objects across a Python
package. It imports the root package. If the root is a plain module it scans
just that module. Otherwise it walks the package directory with `os.walk`:

- a directory whose `.looksee` marker says `ignore` goes to the
  `on_ignore_directory` hook, and its subtree is pruned;
- each package directory (one holding `__init__.py`) gets a dotted package
  path worked out from where it sits below the package's parent directory;
- each `.py` file in a package directory is imported under
  `<package path>.<stem>`, and an import that raises goes to
  `on_import_error`.

To scan a module, the scanner asks the caller's predicate about every
top-level member (`inspect.getmembers`). Each match goes to the caller's
callback with the runtime context. A callback that raises goes to
`on_process_error`. A scan starts from a copy of the static context merged
with the context the caller passes in. When it finishes, the final context is
memoized and a copy of it is returned.

The model has these parts:

- `Model`: the values. Objects and exceptions are known by identity, an
  imported module is its directory, file name and members, and the directory
  tree and the importable modules are given as maps. The predicate and the
  callback are function values. The callback returns the context it leaves
  and the exception it raised, if any. What a caller can observe is an
  `Event`: an import, a callback call, or a hook call with its arguments.
- `PyStr`: the Python string operations the path code uses (`split`,
  `join`, `strip`, `replace`, slicing, `rfind`, `splitext`), with the
  round-trip facts about them.
- `Paths`: the package-path and module-path arithmetic of lines 90-93 and
  112-121.
- `DirWalk`: the top-down `os.walk`, with children pruned under an ignored
  directory, plus the directory policy.
- `ScanSpec`: what one scan computes, as functions of its inputs: the final
  context, the events in order, and the exception that escapes.
- `Scanning`: the `Scanner` class. Its fields are `static_context` and
  `context`, with a ghost trace of events. Its imperative methods follow the
  loops of `scan` and `scan_module` and are proved to produce exactly what
  `ScanSpec` says.
- `ScanProperties`: what whole scans guarantee.
- `Scenarios`: two worked scans of a small package.
- `Seqs`: generic sequence facts.

A few behaviours of `scan` and `scan_module` shape the model:

- **Predicate exceptions.** An exception raised by the predicate is not
  routed to `on_process_error`. It escapes `getmembers` (line 144) before
  any callback of that module runs, and it aborts the scan.
- **Rescans.** Every `scan` builds its runtime context from
  `static_context` (lines 66-71), which nothing updates, so a second scan
  starts over rather than extending the memoized context.
- **File order.** The files of a directory are visited in the iteration
  order of `set(file_names)` (line 97), which Python leaves unspecified.
  The model takes that order as given, and its properties hold for every
  order.
- **Markers.** A `.looksee` marker is read with `Json.read(...) or {}`
  (line 103). The model sees only the result: a parsed map, or nothing.
- **Package at the filesystem root.** When the package's parent directory
  is `/`, the `+ 1` at line 115 also skips the first character of the
  package name. A package `looksee` installed as `/looksee` is scanned as
  `ooksee`. The model keeps this behaviour, and
  `Paths.PkgPathBelowFilesystemRoot` states it.
- **The root module.** For a package root, the root module is imported as
  `package` but not scanned; its `__init__.py` is scanned as
  `package.__init__` when the walk reaches the package directory.

## Model

| member | source | states |
|---|---|---|
| PyStr.Split | looksee/scanner.py:92 | `split` gives one piece more than there are separators, and no piece holds a separator |
| PyStr.Replace | looksee/scanner.py:115 | `replace` keeps the length and swaps exactly the `from` characters |
| PyStr.RFind | looksee/scanner.py:121 | `rfind` gives the last index of the character, or -1 exactly when it is absent |
| PyStr.SplitExt | looksee/scanner.py:121 | `splitext` cuts the name into a stem and an extension that concatenate back to it; a non-empty extension is one dot followed by neither a dot nor a `/`, and a non-dot comes before it in the last path component; the extension is empty only when no dot in the last component has a non-dot before it there |
| PyStr.JoinSplit | looksee/scanner.py:91-92 | joining the pieces of a split gives back the text |
| PyStr.SplitJoin | looksee/scanner.py:91-92 | splitting a join of separator-free parts gives back the parts |
| PyStr.CountJoin | looksee/scanner.py:90 | a dotted name of `m` dot-free parts has `m - 1` dots, so `count('.') + 1` is the number of its components |
| PyStr.ReplaceJoin | looksee/scanner.py:115 | replacing `/` by `.` in a `/`-join of slash-free parts gives their `.`-join |
| PyStr.JoinEnds | looksee/scanner.py:92 | a join of non-empty parts without the separator neither starts nor ends with it |
| PyStr.StripSeparatorPrefix | looksee/scanner.py:92 | `strip('/')` of `/` followed by a text that neither starts nor ends with `/` is that text |
| Paths.PathJoin | looksee/scanner.py:102 | `os.path.join` of a directory and a proper name puts exactly one `/` between them |
| Paths.ParentDirOfPackageDir | looksee/scanner.py:90-93 | for package `n1.....nm` in `/p1/.../pj/n1/.../nm`, the computed parent directory is `/p1/.../pj` (and `/` when j = 0) |
| Paths.PkgPathOfSubdirectory | looksee/scanner.py:112-115 | when the parent is not `/`, the directory `r1/.../rk` below the package directory gets the package path `package.r1.....rk`, and the package directory itself gets exactly `package` |
| Paths.PkgPathBelowFilesystemRoot | looksee/scanner.py:112-115 | when the parent is `/`, every package path computed is the intended dotted path without its first character |
| Paths.PackageAtFilesystemRootLosesFirstLetter | looksee/scanner.py:112-115 | a package `n` installed as `/n` gets the package path `n[1:]` |
| Paths.ModPathOfPyFile | looksee/scanner.py:116-121 | a `.py` file whose stem is not all dots is imported as `<pkg_path>.<name without .py>` |
| Paths.ModPathOfInitModule | looksee/scanner.py:121 | a package's own `__init__.py` is imported as `<pkg_path>.__init__` |
| Paths.ModPathOfBareExtension | looksee/scanner.py:117-121 | a file named just `.py` passes the extension test but is imported as `<pkg_path>..py` |
| DirWalk.Walk | looksee/scanner.py:96 | the walk yields its top directory first |
| DirWalk.WalkAllAppend | looksee/scanner.py:96 | walking two lists of pending directories is walking one and then the other |
| DirWalk.WalkUnderIsWalkAll | looksee/scanner.py:96 | the walk below a directory is the walk of its children as pending directories |
| DirWalk.WalkAllPop | looksee/scanner.py:96 | yielding the first pending directory leaves exactly the rest of the walk |
| DirWalk.PopShrinks | looksee/scanner.py:96 | what is still to be walked strictly shrinks, so the walk ends |
| DirWalk.WalkPaths | looksee/scanner.py:96 | every directory walked lies at `top/r1/.../rk` for proper names `ri` |
| DirWalk.WalkUnderPaths | looksee/scanner.py:96 | every directory walked below `top` lies at `top/r1/.../rk` |
| DirWalk.ChildrenAreWalked | looksee/scanner.py:101-108 | unless a directory is ignored, every one of its sub-directories is walked |
| DirWalk.WalkUnderReaches | looksee/scanner.py:96 | every child is among the directories walked below its parent |
| ScanSpec.Matches | looksee/scanner.py:144-155 | `getmembers` with the predicate fails exactly when the predicate raises on some member, and then with the first exception raised; otherwise it keeps every accepted member as often as it is listed, nothing else, and in the members' order (a subsequence of them) |
| ScanSpec.Process | looksee/scanner.py:145-148 | the callback runs once for the match; if it raises, `on_process_error` follows with the exception and the context as the callback left it; nothing escapes |
| ScanSpec.ProcessAll | looksee/scanner.py:144-148 | every match reaches the callback exactly once, in order, whatever earlier calls raised; only matches reach `on_process_error`; nothing is imported or ignored; a callback that keeps the context keeps it |
| ScanSpec.ProcessAllStep | looksee/scanner.py:144-148 | processing one more match extends the run by that match's processing |
| ScanSpec.ProcessAllAlwaysFails | looksee/scanner.py:144-148 | with a callback that always raises, every match reaches `on_process_error`, in order |
| ScanSpec.ProcessAllKeepingContext | looksee/scanner.py:144-165 | with a callback that leaves the context alone, `on_process_error` fires for exactly the matches on which the callback raises with the starting context, in order |
| ScanSpec.ScanModule | looksee/scanner.py:136-148 | `scan_module` raises exactly when the predicate raises on a member, and then calls nothing; otherwise the callback is called with exactly the matches `getmembers` returns, in their order: each accepted member as often as it is listed, and no other; the exception that escapes is the one `getmembers` raises |
| ScanSpec.ImportFile | looksee/scanner.py:116-129 | a non-`.py` file is skipped; a `.py` file is imported exactly once under its module path; a failed import is reported to `on_import_error` with that path and nothing else happens for the file; a module that imports is scanned exactly as `scan_module` scans it; an exception escapes exactly when the predicate raises on the members of a module that imported, and it is that exception; otherwise the callback sees exactly the module's accepted members |
| ScanSpec.ScanImported | looksee/scanner.py:128-129 | a module that imported is followed by exactly the events of its `scan_module`, so the callback sees exactly its accepted members in order; nothing else is imported or reported |
| ScanSpec.ImportFiles | looksee/scanner.py:116-129 | the exception that escapes is the predicate's on the first module of the directory, in file order, that imports and on whose members the predicate raises, and none escapes if there is no such module; unless one escapes, every `.py` file of the directory is imported in order, exactly the failing imports are reported, and the callback sees exactly the accepted members of the modules that import, module after module: a failed import costs only its own module |
| ScanSpec.ImportFilesStep | looksee/scanner.py:116-129 | one more file looked at, unless an exception has escaped |
| ScanSpec.ImportFilesAborted | looksee/scanner.py:116-129 | once a predicate exception has escaped, no later file is looked at |
| ScanSpec.VisitDir | looksee/scanner.py:101-129 | an ignored directory yields one `on_ignore_directory` and nothing else; a non-package directory yields nothing; a package directory imports exactly its module paths and calls back exactly their accepted members; the exception that escapes is the first one the predicate raises on a module of the directory that imports |
| ScanSpec.ScanVisits | looksee/scanner.py:96-129 | the exception that escapes is the predicate's on the first module of the walk that imports and on whose members the predicate raises, and none escapes if there is no such module; unless one escapes, the scan imports exactly the module paths of the walked package directories, reports exactly the failing ones and exactly the ignored directories, and calls back exactly the accepted members of the modules that import, in walk order |
| ScanSpec.ScanVisitsStep | looksee/scanner.py:96-129 | one more directory looked at, unless an exception has escaped |
| ScanSpec.ScanVisitsAborted | looksee/scanner.py:96-129 | once a predicate exception has escaped, no later directory is looked at |
| ScanSpec.FirstRaisedAppend | looksee/scanner.py:96-129 | the first exception escaping from two runs of module paths is the first run's, if any, and otherwise the second's |
| ScanSpec.FirstRaisedExists | looksee/scanner.py:116-148 | an exception escapes from a run of module paths exactly when one of them imports and the predicate raises on one of its members |
| ScanSpec.AcceptedMembersAppend | looksee/scanner.py:116-129 | the accepted members of two runs of module paths are those of the first followed by those of the second |
| ScanSpec.InitialContext | looksee/scanner.py:66-71 | the runtime context holds the keys of both contexts, and a supplied key wins over a static one |
| ScanProperties.IgnoredDirectoryIsSkipped | looksee/scanner.py:101-108 | an ignored directory is reported once and neither it nor anything below it is walked or imported |
| ScanProperties.NonPackageDirectory | looksee/scanner.py:96-111 | a directory without `__init__.py` imports nothing of its own, yet its sub-directories are still walked |
| ScanProperties.VisitedPackagePaths | looksee/scanner.py:90-115 | below a parent other than `/`, every walked directory gets the package name followed by the names leading down to it |
| ScanProperties.ScanWithTotalPredicate | looksee/scanner.py:73-129 | with a predicate that never raises, `scan` raises exactly when the root fails to import; a package scan imports the root and every module path of the walk, reports every failing import once and every ignored directory once, and calls back exactly the accepted members of the modules that import, for any callback |
| ScanProperties.ScanRaises | looksee/scanner.py:73-148 | for any predicate and callback, `scan` raises exactly when the root does not import, or the predicate raises on a member of a plain-module root, or it raises on the members of a module at a path of the walk that imports; the exception is the first of these, in walk order |
| ScanProperties.NonPackageRoot | looksee/scanner.py:73-80 | a root that is not `__init__.py` is the only module imported; it raises exactly when the predicate raises on a member, and otherwise calls back exactly its matches, in order |
| ScanProperties.RejectAllKeepsContext | looksee/scanner.py:53-134 | a predicate that accepts nothing makes no callback and leaves the runtime context as it started |
| ScanProperties.MatchesAcceptingAll | looksee/scanner.py:144 | a predicate that accepts everything matches every member, in order |
| ScanProperties.ScanModuleAlwaysFails | looksee/scanner.py:136-148 | with a callback that always raises, every callback call of a module is followed by its `on_process_error` |
| ScanProperties.ImportFileAlwaysFails | looksee/scanner.py:116-129 | the same for one file |
| ScanProperties.VisitDirAlwaysFails | looksee/scanner.py:101-129 | the same for one directory of the walk |
| ScanProperties.ImportFilesAlwaysFails | looksee/scanner.py:116-129 | the same for the files of a package directory |
| ScanProperties.ScanVisitsAlwaysFails | looksee/scanner.py:96-129 | the same for the whole walk |
| ScanProperties.DefaultsAreInert | looksee/scanner.py:39-40 | the defaults never raise in the predicate, never change the context, and always raise in the callback |
| ScanProperties.DefaultScan | looksee/scanner.py:53-134 | a default scanner raises only when the root does not import, keeps the runtime context, and reports every callback call to `on_process_error`; a plain-module root has all its members called, in order |
| Scanning.DictObject.constructor | looksee/scanner.py:71 | the dictionary holds the given items |
| Scanning.DictObject.Copy | looksee/scanner.py:134 | `copy()` is a new object with the same items |
| Scanning.Scanner.constructor | looksee/scanner.py:37-51 | keeps the predicate and callback; the static context is empty and the memoized context is a distinct empty copy |
| Scanning.Scanner.WithDefaults | looksee/scanner.py:37-51 | as the constructor, with the default predicate and callback |
| Scanning.Scanner.OnIgnoreDirectory | looksee/scanner.py:167-172 | records the hook call with the directory path and changes nothing else |
| Scanning.Scanner.OnImportError | looksee/scanner.py:174-181 | records the hook call with the exception, module path and context and changes nothing else |
| Scanning.Scanner.OnProcessError | looksee/scanner.py:183-203 | records the hook call with the exception, module, context, name and object and changes nothing else |
| Scanning.Scanner.Process | looksee/scanner.py:157-165 | the callback's reply becomes the context, and its exception is returned |
| Scanning.Scanner.ProcessGuarded | looksee/scanner.py:145-148 | leaves the context and the events `ScanSpec.Process` gives |
| Scanning.Scanner.ScanModule | looksee/scanner.py:136-148 | the `getmembers` loop leaves the context, events and escaping exception `ScanSpec.ScanModule` gives |
| Scanning.Scanner.ScanFile | looksee/scanner.py:116-129 | one file leaves what `ScanSpec.ImportFile` gives |
| Scanning.Scanner.ScanPackageFiles | looksee/scanner.py:111-129 | the loop over a package directory's files leaves what `ScanSpec.ImportFiles` gives and stops at the first escaping exception |
| Scanning.Scanner.ScanDirectory | looksee/scanner.py:97-129 | prunes exactly the ignored directories, and leaves what `ScanSpec.VisitDir` gives |
| Scanning.Scanner.ScanWalk | looksee/scanner.py:96-129 | the `os.walk` loop, run over a stack of pending directories, leaves what `ScanSpec.ScanVisits` gives for the walk of the package directory |
| Scanning.Scanner.ScanRoot | looksee/scanner.py:79-129 | scans just the root when it is not `__init__.py`, or walks its directory from the computed parent |
| Scanning.Scanner.ScanPackage | looksee/scanner.py:73-129 | the root import, then the root scan, leaving what `ScanSpec.ScanPackage` gives |
| Scanning.Scanner.Scan | looksee/scanner.py:53-134 | a scan produces exactly what `ScanSpec.Scan` gives from the static context; on success the memoized context holds the final context and the result is a distinct copy; on an exception the memoized context is unchanged; the static context never changes |
| Scanning.ScanTwice | looksee/scanner.py:43-44 | two scans with the same arguments end alike, return equal but distinct dictionaries, and repeat the same events, because each starts again from the static context |
| Scenarios.PackageLocation | looksee/scanner.py:90-115 | `pkg` installed as `/site/pkg` has parent `/site` and package path `pkg` |
| Scenarios.ModPathOfOneLetterModule | looksee/scanner.py:116-121 | `x.py` is imported as `<pkg_path>.x` |
| Scenarios.MatchesOfModuleA | looksee/scanner.py:144-155 | in a module defining `Base` and `Foo(Base)`, only `Foo` matches "subclass of `Base` but not `Base`" |
| Scenarios.RegisterOne | looksee/scanner.py:144-148 | a single match is registered under its name |
| Scenarios.ScanOfModuleA | looksee/scanner.py:136-148 | scanning that module registers just `Foo` |
| Scenarios.InitFileOfFoundPackage | looksee/scanner.py:116-129 | `pkg/__init__.py` is imported as `pkg.__init__` |
| Scenarios.FileAOfFoundPackage | looksee/scanner.py:116-129 | `pkg/a.py` is imported as `pkg.a` and `Foo` reaches the callback |
| Scenarios.FileBOfFoundPackage | looksee/scanner.py:122-126 | `pkg/b.py` fails to import and goes to `on_import_error` with `pkg.b` |
| Scenarios.InitThenFileA | looksee/scanner.py:116-129 | `__init__.py` then `a.py` end with just `Foo` registered |
| Scenarios.FilesOfFoundPackage | looksee/scanner.py:116-129 | the three files in order end with just `Foo` registered and one import error |
| Scenarios.FoundWalk | looksee/scanner.py:96-111 | the walk of that tree yields only the package directory |
| Scenarios.FooIsFoundAndBrokenModuleReported | looksee/scanner.py:53-134 | that scan returns `{"Foo": Foo}`, imports `pkg`, `pkg.__init__`, `pkg.a`, `pkg.b` in order and reports `pkg.b` once to `on_import_error` |
| Scenarios.IgnoreWalk | looksee/scanner.py:96-108 | the walk yields the package directory, then the ignored directory, and nothing below it |
| Scenarios.IgnoredDirectoryNeverScanned | looksee/scanner.py:96-134 | a sub-directory marked `ignore` is reported once; none of its modules is imported and its `Foo` never reaches the callback |
| Scenarios.InitOnlyPackageFiles | looksee/scanner.py:116-129 | a package directory holding only `__init__.py` imports just that |

## Left out

- Logging: the class-level logger, `LOOKSEE_LOG_LEVEL`, the `log` parameter and the debug line in `process` have no observable effect in the model.
- The hooks' default behaviour is logging. The model records each hook call as an event instead. A subclass that overrides a hook, say one that raises, is outside the model.
- `importlib.import_module` is a given map from dotted paths to modules or exceptions. The model does not capture its caching, the code importing runs at top level, or the chance that a later import depends on an earlier one.
- `inspect.getmembers` is a given list of members in its order. The model leaves out how Python builds that list and deletes the `None` key (lines 140-142).
- `os.walk` is a given tree of directories. The model does not follow symbolic links and leaves out errors while listing a directory, as well as changes to the tree during the walk.
- The `./` test and the `realpath` call on the package directory (lines 85-88): the model takes the directory of the root's `__file__` as an absolute path.
- The `realpath` call on the ignored directory (line 106) is the identity in the model, which has no symbolic links.
- `Json.read` of a `.looksee` marker: a marker is either a parsed map or unreadable. Malformed JSON and non-boolean truthiness of `ignore` are not modelled.
- The iteration order of `set(file_names)` is unspecified in Python. The model takes it as the given order of `Dir.files`, and its properties hold for every order.
- A module whose `__file__` is `None` (a namespace package) makes `os.path.basename` raise. The model gives every module a file name.
- Exceptions the code does not catch as `Exception` (such as `KeyboardInterrupt`) are not modelled. Every callback or import failure counts as `Exception`.
- `DictObject` internals (attribute access, `to_dict`): a context is treated as a plain map from strings to objects.
- Concurrency: the scanner is single-threaded.
- Names in a directory: `Dir.files` and `Dir.children` may list a name twice, which `set(file_names)` (line 97) and a real directory never do. Properties that need distinct names are not stated. On such inputs the model imports a duplicated file twice.
- Predicate results: `getmembers` keeps a member when `match` returns any truthy value (lines 150-155). The model's predicate returns a `bool` or an exception, so other truthy or falsy values are not modelled.
