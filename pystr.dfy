/** The handful of Python `str` and list-slice operations that the scanner's
    path arithmetic is made of, each for a single-character separator, with
    the round-trip facts the path lemmas rest on. */
module PyStr {
  import opened Seqs

  /** `s.count(c)` */
  function Count(s: string, c: char): nat
  {
    if s == [] then 0 else (if s[0] == c then 1 else 0) + Count(s[1..], c)
  }

  /** `sep.join(parts)` */
  function Join(sep: char, parts: seq<string>): string
  {
    if |parts| == 0 then []
    else if |parts| == 1 then parts[0]
    else parts[0] + [sep] + Join(sep, parts[1..])
  }

  /** `s.split(sep)`: one more piece than there are separators, so never empty. */
  function Split(s: string, sep: char): (r: seq<string>)
    ensures |r| == Count(s, sep) + 1
    ensures forall i :: 0 <= i < |r| ==> sep !in r[i]
  {
    if s == [] then [[]]
    else
      var rest := Split(s[1..], sep);
      if s[0] == sep then [[]] + rest
      else [[s[0]] + rest[0]] + rest[1..]
  }

  function LStrip(s: string, c: char): string
  {
    if s != [] && s[0] == c then LStrip(s[1..], c) else s
  }

  function RStrip(s: string, c: char): string
  {
    if s != [] && s[|s| - 1] == c then RStrip(s[..|s| - 1], c) else s
  }

  /** `s.strip(c)`: removes every leading and trailing `c`. */
  function Strip(s: string, c: char): string
  {
    RStrip(LStrip(s, c), c)
  }

  /** `s.replace(from, to)` for single characters. */
  function Replace(s: string, from: char, to: char): (r: string)
    ensures |r| == |s|
    ensures forall i :: 0 <= i < |s| ==> r[i] == if s[i] == from then to else s[i]
  {
    if s == [] then [] else [if s[0] == from then to else s[0]] + Replace(s[1..], from, to)
  }

  /** `s[i:]` for `i >= 0`: Python clamps an index past the end to the end. */
  function From(s: string, i: nat): (r: string)
    ensures |r| == if i <= |s| then |s| - i else 0
  {
    if i <= |s| then s[i..] else []
  }

  /** `xs[:-k]`: all but the last `k` items; note that `xs[:-0]` is `xs[:0]`, empty. */
  function DropLast<T>(xs: seq<T>, k: nat): (r: seq<T>)
    ensures r <= xs
    ensures |r| == if 0 < k <= |xs| then |xs| - k else 0
  {
    if k == 0 then [] else if k <= |xs| then xs[..|xs| - k] else []
  }

  /** `s.endswith(suffix)` */
  predicate EndsWith(s: string, suffix: string)
  {
    |suffix| <= |s| && s[|s| - |suffix|..] == suffix
  }

  /** `s.rfind(c)`: the last index of `c`, or -1. */
  function RFind(s: string, c: char): (r: int)
    ensures -1 <= r < |s|
    ensures r == -1 <==> c !in s
    ensures 0 <= r ==> s[r] == c && forall j :: r < j < |s| ==> s[j] != c
  {
    if s == [] then -1
    else if s[|s| - 1] == c then |s| - 1
    else RFind(s[..|s| - 1], c)
  }

  /** `os.path.splitext(p)` on POSIX: the extension starts at the last dot of
      the last path component, unless only dots precede it there (so
      `.py` has no extension). */
  function SplitExt(p: string): (r: (string, string))
    ensures r.0 + r.1 == p
    ensures r.1 == [] || (r.1[0] == '.' && '.' !in r.1[1..] && '/' !in r.1)
    ensures r.1 != [] ==> exists i :: RFind(p, '/') + 1 <= i < |r.0| && r.0[i] != '.'
    ensures r.1 == [] ==> forall i, j :: RFind(p, '/') < j < i < |p| && p[i] == '.' ==> p[j] == '.'
  {
    var sepIndex := RFind(p, '/');
    var dotIndex := RFind(p, '.');
    if dotIndex > sepIndex && exists i :: sepIndex + 1 <= i < dotIndex && p[i] != '.'
    then (p[..dotIndex], p[dotIndex..])
    else (p, [])
  }

  // ---------------------------------------------------------------------
  // Round trips between split and join

  lemma {:induction false} JoinSplit(s: string, sep: char)
    ensures Join(sep, Split(s, sep)) == s
  {
    if s != [] {
      var rest := Split(s[1..], sep);
      JoinSplit(s[1..], sep);
      if s[0] == sep {
        assert Split(s, sep) == [[]] + rest;
        assert Join(sep, [[]] + rest) == [] + [sep] + Join(sep, rest);
      } else if |rest| == 1 {
        assert Split(s, sep) == [[s[0]] + rest[0]];
      } else {
        assert Split(s, sep) == [[s[0]] + rest[0]] + rest[1..];
        assert Join(sep, rest) == rest[0] + [sep] + Join(sep, rest[1..]);
        assert Join(sep, Split(s, sep)) == [s[0]] + rest[0] + [sep] + Join(sep, rest[1..]);
      }
    }
  }

  /** Splitting a text whose head holds no separator keeps that head in the first piece. */
  lemma {:induction false} SplitHead(p: string, t: string, sep: char)
    requires sep !in p
    ensures Split(p + t, sep) == [p + Split(t, sep)[0]] + Split(t, sep)[1..]
  {
    var st := Split(t, sep);
    if p != [] {
      TailOfAppend(p, t);
      SplitHead(p[1..], t, sep);
      var rest := Split(p[1..] + t, sep);
      TailOfAppend([p[1..] + st[0]], st[1..]);
      AppendAssoc([p[0]], p[1..], st[0]);
      SplitFirst(p);
    } else {
      AppendEmpty(t);
      AppendEmpty(st[0]);
      SplitFirst(st);
    }
  }

  lemma {:induction false} SplitJoin(parts: seq<string>, sep: char)
    requires |parts| > 0
    requires forall i :: 0 <= i < |parts| ==> sep !in parts[i]
    ensures Split(Join(sep, parts), sep) == parts
  {
    if |parts| == 1 {
      SplitHead(parts[0], [], sep);
      assert parts[0] + [] == parts[0];
    } else {
      var tail := Join(sep, parts[1..]);
      SplitJoin(parts[1..], sep);
      assert Join(sep, parts) == parts[0] + ([sep] + tail);
      SplitHead(parts[0], [sep] + tail, sep);
      assert ([sep] + tail)[1..] == tail;
      assert Split([sep] + tail, sep) == [[]] + Split(tail, sep);
      assert parts[0] + [] == parts[0];
      assert parts == [parts[0]] + parts[1..];
    }
  }

  /** The number of separators in a join of separator-free parts. */
  lemma CountJoin(parts: seq<string>, sep: char)
    requires |parts| > 0
    requires forall i :: 0 <= i < |parts| ==> sep !in parts[i]
    ensures Count(Join(sep, parts), sep) == |parts| - 1
  {
    SplitJoin(parts, sep);
  }

  lemma {:induction false} JoinAppend(a: seq<string>, b: seq<string>, sep: char)
    requires |a| > 0 && |b| > 0
    ensures Join(sep, a + b) == Join(sep, a) + [sep] + Join(sep, b)
  {
    if |a| > 1 {
      assert (a + b)[1..] == a[1..] + b;
      JoinAppend(a[1..], b, sep);
    } else {
      assert (a + b)[1..] == b;
    }
  }

  lemma {:induction false} ReplaceAppend(a: string, b: string, from: char, to: char)
    ensures Replace(a + b, from, to) == Replace(a, from, to) + Replace(b, from, to)
  {
  }

  /** Replacing the separator of a join of separator-free parts re-joins them. */
  lemma {:induction false} ReplaceJoin(parts: seq<string>, from: char, to: char)
    requires forall i :: 0 <= i < |parts| ==> from !in parts[i]
    ensures Replace(Join(from, parts), from, to) == Join(to, parts)
  {
    if |parts| == 1 {
      assert Replace(parts[0], from, to) == parts[0];
    } else if |parts| > 1 {
      var tail := Join(from, parts[1..]);
      ReplaceJoin(parts[1..], from, to);
      ReplaceAppend(parts[0] + [from], tail, from, to);
      ReplaceAppend(parts[0], [from], from, to);
      assert Replace(parts[0], from, to) == parts[0];
      assert Replace([from], from, to) == [to];
    }
  }

  /** A join of non-empty parts free of `c` neither starts nor ends with `c`. */
  lemma {:induction false} JoinEnds(parts: seq<string>, c: char)
    requires |parts| > 0
    requires forall i :: 0 <= i < |parts| ==> |parts[i]| > 0 && c !in parts[i]
    ensures var s := Join(c, parts); |s| > 0 && s[0] != c && s[|s| - 1] != c
  {
    if |parts| > 1 {
      JoinEnds(parts[1..], c);
      var t := Join(c, parts[1..]);
      assert Join(c, parts) == parts[0] + [c] + t;
    }
  }

  lemma StripSeparatorPrefix(t: string, c: char)
    requires |t| > 0 && t[0] != c && t[|t| - 1] != c
    ensures Strip([c] + t, c) == t
  {
    assert ([c] + t)[1..] == t;
    assert LStrip([c] + t, c) == LStrip(t, c) == t;
    assert RStrip(t, c) == t;
  }
}
