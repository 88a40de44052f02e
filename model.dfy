/** The values the scanner works on (looksee/scanner.py): Python objects and
    exceptions known by identity, imported modules, the directory tree it
    walks, the caller's predicate and callback, and the observable events a
    scan produces. */
module Model {
  import opened Wrappers

  /** A Python object, known only by its identity. */
  datatype Obj = Obj(id: nat)

  /** A raised exception, known by its type name. */
  datatype Exc = Exc(kind: string)

  const TypeError := Exc("TypeError")
  const ModuleNotFoundError := Exc("ModuleNotFoundError")

  /** The scan context, a `DictObject`: string keys to arbitrary objects. */
  type Context = map<string, Obj>

  /** One `(name, value)` pair of `inspect.getmembers`. */
  datatype Member = Member(name: string, obj: Obj)

  /** An imported module: the directory and the base name of its `__file__`,
      and its top-level members in the order `inspect.getmembers` lists them
      (sorted by name). */
  datatype Module = Module(dir: string, fileName: string, members: seq<Member>)

  /** What `importlib.import_module` does for each dotted path: the module,
      or the exception that importing it raises. */
  type Imports = map<string, Result<Module, Exc>>

  /** `importlib.import_module(path)`; a path nobody can import raises. */
  function Import(imports: Imports, path: string): Result<Module, Exc>
  {
    if path in imports then imports[path] else Fail(ModuleNotFoundError)
  }

  /** The parsed content of a `.looksee` marker file, when reading it gives
      anything at all. */
  type Marker = map<string, bool>

  /** A directory as `os.walk` lists it: its name, its file names in the
      order the scanner's `set(file_names)` yields them, the parsed marker
      (consulted only when `.looksee` is among the files) and its
      sub-directories in listing order. */
  datatype Dir = Dir(name: string, files: seq<string>, marker: Option<Marker>, children: seq<Dir>)

  /** The directory trees found at absolute paths. */
  type FileSystem = map<string, Dir>

  /** What a callback call leaves behind: the context as the callback left
      it, and the exception it raised, if any. */
  datatype Reply = Reply(ctx: Context, failure: Option<Exc>)

  /** `predicate(obj)`: its truth value, or the exception it raised. */
  type Predicate = Obj -> Result<bool, Exc>

  /** `callback(name, obj, context)` */
  type Callback = (string, Obj, Context) -> Reply

  /** The default predicate `lambda obj: True`. */
  function DefaultPredicate(obj: Obj): Result<bool, Exc>
  {
    Ok(true)
  }

  /** The default callback `lambda obj: None` takes one argument but is
      called with three, so every call raises `TypeError` and leaves the
      context as it was. */
  function DefaultCallback(name: string, obj: Obj, ctx: Context): Reply
  {
    Reply(ctx, Some(TypeError))
  }

  /** What can be observed of a scan, in order: each `import_module` call,
      each callback call, and each call of the three hooks with the
      arguments it receives (the context as it is at that moment). */
  datatype Event =
    | Imported(path: string)
    | Called(name: string, obj: Obj)
    | IgnoredDirectory(dirPath: string)
    | ImportFailed(exc: Exc, modPath: string, ctx: Context)
    | ProcessFailed(exc: Exc, inModule: Module, ctx: Context, name: string, obj: Obj)
}
