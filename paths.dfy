/** The string arithmetic by which the scanner turns a directory found while
    walking a package into a dotted package path, and a file in it into a
    dotted module path (looksee/scanner.py, lines 19-21, 90-92, 112-121). */
module Paths {
  import opened PyStr
  import opened Seqs

  const INIT_MODULE_NAME := "__init__.py"
  const DOT_FILE_NAME := ".looksee"
  const PY_EXTENSION := "py"

  /** A single path component as a directory listing produces it. */
  predicate ValidName(n: string)
  {
    |n| > 0 && '/' !in n
  }

  predicate ValidNames(ns: seq<string>)
  {
    forall i :: 0 <= i < |ns| ==> ValidName(ns[i])
  }

  /** `os.path.join(a, b)` on POSIX, for two components. */
  function PathJoin(a: string, b: string): (r: string)
    ensures ValidName(b) && a != [] && a[|a| - 1] != '/' ==> r == a + "/" + b
  {
    if b != [] && b[0] == '/' then b
    else if a == [] || a[|a| - 1] == '/' then a + b
    else a + "/" + b
  }

  /** The text `"/r1/r2/.../rk"` that a walk appends below its top directory. */
  function Slashed(rel: seq<string>): string
  {
    if rel == [] then [] else "/" + rel[0] + Slashed(rel[1..])
  }

  /** `package.count('.') + 1`: how many trailing directories of the package
      directory spell the package. */
  function PackagePathLen(package: string): nat
  {
    Count(package, '.') + 1
  }

  /** `'/' + '/'.join(package_dir.strip('/').split('/')[:-package_path_len])` */
  function PackageParentDir(package: string, packageDir: string): string
  {
    "/" + Join('/', DropLast(Split(Strip(packageDir, '/'), '/'), PackagePathLen(package)))
  }

  /** `dir_name[len(package_parent_dir) + 1:].replace("/", ".")` */
  function PkgPath(parentDir: string, dirName: string): string
  {
    Replace(From(dirName, |parentDir| + 1), '/', '.')
  }

  /** `file_name.endswith('.' + PY_EXTENSION)`: the only files imported. */
  predicate IsModuleFile(fileName: string)
  {
    EndsWith(fileName, "." + PY_EXTENSION)
  }

  /** `f'{pkg_path}.{splitext(file_name)[0]}'` */
  function ModPath(pkgPath: string, fileName: string): string
  {
    pkgPath + "." + SplitExt(fileName).0
  }

  // ---------------------------------------------------------------------
  // Package paths

  lemma {:induction false} JoinSlashed(xs: seq<string>, rel: seq<string>)
    requires |xs| > 0
    ensures Join('/', xs) + Slashed(rel) == Join('/', xs + rel)
    decreases rel
  {
    if rel != [] {
      JoinAppend(xs, [rel[0]], '/');
      JoinSlashed(xs + [rel[0]], rel[1..]);
      assert xs + [rel[0]] + rel[1..] == xs + rel;
    } else {
      assert xs + rel == xs;
    }
  }

  /** The parent directory computed for a package `n1.....nm` that lives in
      `/p1/.../pj/n1/.../nm` is `/p1/.../pj`, which is `/` when j = 0. */
  lemma {:induction false} ParentDirOfPackageDir(ns: seq<string>, ps: seq<string>)
    requires |ns| > 0 && ValidNames(ns) && forall i :: 0 <= i < |ns| ==> '.' !in ns[i]
    requires ValidNames(ps)
    ensures PackageParentDir(Join('.', ns), "/" + Join('/', ps + ns)) == "/" + Join('/', ps)
  {
    var whole := Join('/', ps + ns);
    CountJoin(ns, '.');
    JoinEnds(ps + ns, '/');
    StripSeparatorPrefix(whole, '/');
    SplitJoin(ps + ns, '/');
    assert DropLast(ps + ns, |ns|) == ps;
  }

  /** For a package `n1.....nm` living in `/p1/.../pj/n1/.../nm` with j > 0,
      the directory `r1/.../rk` below the package directory gets the package
      path `n1.....nm.r1.....rk`, and the package directory itself exactly
      the package name. */
  lemma PkgPathOfSubdirectory(ns: seq<string>, ps: seq<string>, rs: seq<string>)
    requires |ns| > 0 && ValidNames(ns) && forall i :: 0 <= i < |ns| ==> '.' !in ns[i]
    requires |ps| > 0 && ValidNames(ps)
    requires ValidNames(rs)
    ensures var package := Join('.', ns);
            var packageDir := "/" + Join('/', ps + ns);
            PkgPath(PackageParentDir(package, packageDir), packageDir + Slashed(rs))
            == if rs == [] then package else package + "." + Join('.', rs)
  {
    var parent := "/" + Join('/', ps);
    ParentDirOfPackageDir(ns, ps);
    var tail := Join('/', ns + rs);
    var dirName := "/" + Join('/', ps + ns) + Slashed(rs);
    DirNameBelowParent(ns, ps, rs);
    assert From(dirName, |parent| + 1) == tail;
    ReplaceJoin(ns + rs, '/', '.');
    if rs != [] {
      JoinAppend(ns, rs, '.');
    } else {
      assert ns + rs == ns;
    }
  }

  lemma DirNameBelowParent(ns: seq<string>, ps: seq<string>, rs: seq<string>)
    requires |ns| > 0 && |ps| > 0
    ensures "/" + Join('/', ps + ns) + Slashed(rs) == "/" + Join('/', ps) + "/" + Join('/', ns + rs)
  {
    var x, s := Join('/', ps + ns), Slashed(rs);
    var a, b := Join('/', ps), Join('/', ns + rs);
    JoinsBelowParent(ns, ps, rs);
    AppendAssoc("/", x, s);
    AppendAssoc("/", a, "/");
    AppendAssoc("/", a + "/", b);
  }

  lemma JoinsBelowParent(ns: seq<string>, ps: seq<string>, rs: seq<string>)
    requires |ns| > 0 && |ps| > 0
    ensures Join('/', ps + ns) + Slashed(rs) == Join('/', ps) + "/" + Join('/', ns + rs)
  {
    JoinSlashed(ps + ns, rs);
    AppendAssoc(ps, ns, rs);
    JoinAppend(ps, ns + rs, '/');
  }

  /** When the package directory sits directly below `/`, the `+ 1` offset
      also skips the first character of the package name: every package
      path the scan computes loses its first character. */
  lemma PkgPathBelowFilesystemRoot(ns: seq<string>, rs: seq<string>)
    requires |ns| > 0 && ValidNames(ns) && forall i :: 0 <= i < |ns| ==> '.' !in ns[i]
    requires ValidNames(rs)
    ensures var package := Join('.', ns);
            var packageDir := "/" + Join('/', ns);
            var dotted := Join('.', ns + rs);
            && |dotted| > 0
            && PkgPath(PackageParentDir(package, packageDir), packageDir + Slashed(rs)) == dotted[1..]
  {
    var package, packageDir := Join('.', ns), "/" + Join('/', ns);
    var tail := Join('/', ns + rs);
    RootParentDir(ns);
    RootDirName(ns, rs);
    JoinEnds(ns + rs, '/');
    assert From(packageDir + Slashed(rs), 2) == tail[1..] by {
      TailOfAppend("/", tail);
    }
    ReplaceTail(tail, '/', '.');
    ReplaceJoin(ns + rs, '/', '.');
  }

  /** A package directory directly below `/` has `/` as its parent. */
  lemma RootParentDir(ns: seq<string>)
    requires |ns| > 0 && ValidNames(ns) && forall i :: 0 <= i < |ns| ==> '.' !in ns[i]
    ensures PackageParentDir(Join('.', ns), "/" + Join('/', ns)) == "/"
  {
    ParentDirOfPackageDir(ns, []);
    AppendEmpty(ns);
    AppendEmpty("/");
  }

  lemma RootDirName(ns: seq<string>, rs: seq<string>)
    requires |ns| > 0
    ensures "/" + Join('/', ns) + Slashed(rs) == "/" + Join('/', ns + rs)
  {
    JoinSlashed(ns, rs);
    AppendAssoc("/", Join('/', ns), Slashed(rs));
  }

  lemma ReplaceTail(t: string, from: char, to: char)
    requires t != []
    ensures Replace(t[1..], from, to) == Replace(t, from, to)[1..]
  {
    TailOfAppend([if t[0] == from then to else t[0]], Replace(t[1..], from, to));
  }

  /** The smallest instance: a package `n` installed as `/n` (`looksee`
      installed as `/looksee`, say) gets the package path `n` without its
      first character (`ooksee`). */
  lemma PackageAtFilesystemRootLosesFirstLetter(n: string)
    requires ValidName(n) && '.' !in n
    ensures PkgPath(PackageParentDir(n, "/" + n), "/" + n) == n[1..]
  {
    PkgPathBelowFilesystemRoot([n], []);
    AppendEmpty([n]);
    AppendEmpty("/" + n);
  }

  // ---------------------------------------------------------------------
  // Module paths

  /** A `.py` file whose stem has a character other than a dot is imported
      under its stem. */
  lemma ModPathOfPyFile(pkgPath: string, fileName: string)
    requires ValidName(fileName) && IsModuleFile(fileName)
    requires exists i :: 0 <= i < |fileName| - 3 && fileName[i] != '.'
    ensures ModPath(pkgPath, fileName) == pkgPath + "." + fileName[..|fileName| - 3]
  {
    var n := |fileName|;
    assert fileName[n - 3..] == ".py";
    assert fileName[n - 3] == '.' && fileName[n - 2] == 'p' && fileName[n - 1] == 'y';
    var dot := RFind(fileName, '.');
    assert dot == n - 3;
    assert RFind(fileName, '/') == -1;
  }

  /** A package's own `__init__.py` is imported as `<package>.__init__`. */
  lemma ModPathOfInitModule(pkgPath: string)
    ensures ModPath(pkgPath, INIT_MODULE_NAME) == pkgPath + ".__init__"
  {
    InitModuleIsPyFile();
    ModPathOfPyFile(pkgPath, INIT_MODULE_NAME);
    assert INIT_MODULE_NAME[..|INIT_MODULE_NAME| - 3] == "__init__";
  }

  lemma InitModuleIsPyFile()
    ensures ValidName(INIT_MODULE_NAME) && IsModuleFile(INIT_MODULE_NAME)
    ensures exists i :: 0 <= i < |INIT_MODULE_NAME| - 3 && INIT_MODULE_NAME[i] != '.'
  {
    assert INIT_MODULE_NAME[0] != '.';
  }

  /** A file named just `.py` passes the extension test, but `splitext` sees
      no extension in it, so it is imported as `<package>..py`. */
  lemma ModPathOfBareExtension(pkgPath: string)
    ensures IsModuleFile(".py")
    ensures ModPath(pkgPath, ".py") == pkgPath + "..py"
  {
    var f := ".py";
    assert f[0] == '.' && f[1] == 'p' && f[2] == 'y';
    assert RFind(f, '.') == 0;
    assert RFind(f, '/') == -1;
    assert SplitExt(f) == (f, []);
  }
}
