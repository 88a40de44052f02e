/** The directory policy and the walk: which directories `os.walk(package_dir)`
    yields to the scanner once the scanner prunes every directory whose
    marker says `ignore` (looksee/scanner.py, lines 96-111). */
module DirWalk {
  import opened Wrappers
  import opened Model
  import opened Paths

  /** `(Json.read(dot_file_path) or {}).get('ignore', False)` */
  predicate MarkerSaysIgnore(marker: Option<Marker>)
  {
    var data := if marker.Some? then marker.value else map[];
    "ignore" in data && data["ignore"]
  }

  /** A directory the scanner skips together with everything below it. */
  predicate Ignores(d: Dir)
  {
    DOT_FILE_NAME in d.files && MarkerSaysIgnore(d.marker)
  }

  /** A directory whose own `.py` files the scanner imports. */
  predicate IsPackage(d: Dir)
  {
    INIT_MODULE_NAME in d.files
  }

  /** One triple `(dir_name, sub_dirs, file_names)` that `os.walk` yields. */
  datatype Visit = Visit(path: string, dir: Dir)

  /** Top-down `os.walk` from `v`: the directory itself, then, unless the
      scanner cleared `sub_dirs` because it ignores the directory, the walk
      of each sub-directory in turn. */
  function Walk(v: Visit): (r: seq<Visit>)
    decreases v.dir
    ensures |r| > 0 && r[0] == v
  {
    [v] + (if Ignores(v.dir) then [] else WalkUnder(v.path, v.dir.children))
  }

  function WalkUnder(top: string, ds: seq<Dir>): seq<Visit>
    decreases ds
  {
    if ds == [] then []
    else Walk(Visit(PathJoin(top, ds[0].name), ds[0])) + WalkUnder(top, ds[1..])
  }

  /** Every name below the directory is a proper path component. */
  predicate WellFormed(d: Dir)
    decreases d
  {
    forall i :: 0 <= i < |d.children| ==> ValidName(d.children[i].name) && WellFormed(d.children[i])
  }

  // ---------------------------------------------------------------------
  // The walk as a stack of pending directories

  function ChildVisits(top: string, ds: seq<Dir>): seq<Visit>
  {
    seq(|ds|, i requires 0 <= i < |ds| => Visit(PathJoin(top, ds[i].name), ds[i]))
  }

  /** What remains to be walked when `vs` are pending, in order. */
  function WalkAll(vs: seq<Visit>): seq<Visit>
  {
    if vs == [] then [] else Walk(vs[0]) + WalkAll(vs[1..])
  }

  /** The pending directories after the first one has been yielded. */
  function Pop(vs: seq<Visit>): seq<Visit>
    requires vs != []
  {
    (if Ignores(vs[0].dir) then [] else ChildVisits(vs[0].path, vs[0].dir.children)) + vs[1..]
  }

  function Size(d: Dir): nat
    decreases d
  {
    1 + SizeAll(d.children)
  }

  function SizeAll(ds: seq<Dir>): nat
    decreases ds
  {
    if ds == [] then 0 else Size(ds[0]) + SizeAll(ds[1..])
  }

  function StackSize(vs: seq<Visit>): nat
  {
    if vs == [] then 0 else Size(vs[0].dir) + StackSize(vs[1..])
  }

  lemma {:induction false} WalkAllAppend(a: seq<Visit>, b: seq<Visit>)
    ensures WalkAll(a + b) == WalkAll(a) + WalkAll(b)
    ensures StackSize(a + b) == StackSize(a) + StackSize(b)
  {
    if a != [] {
      assert (a + b)[1..] == a[1..] + b;
      WalkAllAppend(a[1..], b);
    } else {
      assert a + b == b;
    }
  }

  lemma {:induction false} WalkUnderIsWalkAll(top: string, ds: seq<Dir>)
    ensures WalkUnder(top, ds) == WalkAll(ChildVisits(top, ds))
    ensures StackSize(ChildVisits(top, ds)) == SizeAll(ds)
  {
    if ds != [] {
      WalkUnderIsWalkAll(top, ds[1..]);
      assert ChildVisits(top, ds)[1..] == ChildVisits(top, ds[1..]);
    }
  }

  /** Yielding the first pending directory leaves the rest of the walk to
      the stack `Pop(vs)`. */
  lemma {:induction false} WalkAllPop(vs: seq<Visit>)
    requires vs != []
    ensures WalkAll(vs) == [vs[0]] + WalkAll(Pop(vs))
  {
    var v, rest := vs[0], vs[1..];
    var kids := if Ignores(v.dir) then [] else ChildVisits(v.path, v.dir.children);
    var a, b := WalkAll(kids), WalkAll(rest);
    assert Walk(v) == [v] + a by {
      WalkUnderIsWalkAll(v.path, v.dir.children);
    }
    assert WalkAll(kids + rest) == a + b by {
      WalkAllAppend(kids, rest);
    }
    assert WalkAll(vs) == Walk(v) + b;
    assert [v] + a + b == [v] + (a + b);
  }

  /** ... and `Pop(vs)` is strictly smaller, so the walk ends. */
  lemma {:induction false} PopShrinks(vs: seq<Visit>)
    requires vs != []
    ensures StackSize(Pop(vs)) < StackSize(vs)
  {
    var v, rest := vs[0], vs[1..];
    var kids := if Ignores(v.dir) then [] else ChildVisits(v.path, v.dir.children);
    WalkUnderIsWalkAll(v.path, v.dir.children);
    WalkAllAppend(kids, rest);
  }

  // ---------------------------------------------------------------------
  // What the walk reaches

  /** Every directory the walk yields lies at `top/r1/.../rk` for proper
      names `r1 ... rk` (k > 0 below `top`). */
  lemma {:induction false} WalkPaths(v: Visit)
    requires WellFormed(v.dir) && |v.path| > 0 && v.path[|v.path| - 1] != '/'
    ensures forall w :: w in Walk(v) ==> exists rel :: ValidNames(rel) && w.path == v.path + Slashed(rel)
    decreases v.dir, 1
  {
    assert v.path == v.path + Slashed([]);
    assert ValidNames([]);
    if !Ignores(v.dir) {
      WalkUnderPaths(v.path, v.dir.children);
      forall w | w in Walk(v)
        ensures exists rel :: ValidNames(rel) && w.path == v.path + Slashed(rel)
      {
        if w == v {
          assert w.path == v.path + Slashed([]);
        } else {
          assert w in WalkUnder(v.path, v.dir.children);
        }
      }
    }
  }

  lemma {:induction false} WalkUnderPaths(top: string, ds: seq<Dir>)
    requires |top| > 0 && top[|top| - 1] != '/'
    requires forall i :: 0 <= i < |ds| ==> ValidName(ds[i].name) && WellFormed(ds[i])
    ensures forall w :: w in WalkUnder(top, ds) ==> exists rel :: ValidNames(rel) && w.path == top + Slashed(rel)
    decreases ds, 0
  {
    if ds != [] {
      var d := ds[0];
      var p := PathJoin(top, d.name);
      assert p == top + "/" + d.name;
      WalkPaths(Visit(p, d));
      WalkUnderPaths(top, ds[1..]);
      forall w | w in Walk(Visit(p, d))
        ensures exists rel :: ValidNames(rel) && w.path == top + Slashed(rel)
      {
        var rel :| ValidNames(rel) && w.path == p + Slashed(rel);
        ChildPathBelow(top, d.name, rel);
      }
    }
  }

  /** A path below the child `name` of `top` is a path below `top`. */
  lemma ChildPathBelow(top: string, name: string, rel: seq<string>)
    requires ValidName(name) && ValidNames(rel)
    ensures ValidNames([name] + rel)
    ensures top + "/" + name + Slashed(rel) == top + Slashed([name] + rel)
  {
    assert ([name] + rel)[1..] == rel;
    assert Slashed([name] + rel) == "/" + name + Slashed(rel);
  }

  /** Unless the scanner ignores a directory, every sub-directory of it is
      walked, whether or not the directory is a package. */
  lemma {:induction false} ChildrenAreWalked(v: Visit)
    requires !Ignores(v.dir)
    ensures forall i :: 0 <= i < |v.dir.children| ==>
              Visit(PathJoin(v.path, v.dir.children[i].name), v.dir.children[i]) in Walk(v)
  {
    forall i | 0 <= i < |v.dir.children|
      ensures Visit(PathJoin(v.path, v.dir.children[i].name), v.dir.children[i]) in Walk(v)
    {
      WalkUnderReaches(v.path, v.dir.children, i);
    }
  }

  lemma {:induction false} WalkUnderReaches(top: string, ds: seq<Dir>, i: nat)
    requires i < |ds|
    ensures Visit(PathJoin(top, ds[i].name), ds[i]) in WalkUnder(top, ds)
  {
    if i > 0 {
      WalkUnderReaches(top, ds[1..], i - 1);
    }
  }
}
