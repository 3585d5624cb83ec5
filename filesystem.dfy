/**
 * An abstract filesystem: a finite map from path to what the path names, with the
 * handful of `os`, `os.path` and `shutil` operations the installation manager uses.
 * Paths are plain strings built with one separator character; there is no notion of
 * a current directory, of normalisation or of parent directories existing.
 */
module FileSystem {
  import opened Wrappers

  /** A regular file with its text, a directory, or a symbolic link (whose target is not modelled). */
  datatype Node = File(text: string) | Dir | Link

  type Fs = map<string, Node>

  /** `os.path.isfile` */
  predicate IsFile(fs: Fs, p: string) {
    p in fs && fs[p].File?
  }

  /** `os.path.isdir` */
  predicate IsDir(fs: Fs, p: string) {
    p in fs && fs[p].Dir?
  }

  /** `os.path.islink` */
  predicate IsLink(fs: Fs, p: string) {
    p in fs && fs[p].Link?
  }

  /** `os.path.join(a, b)` for a relative `b`: the two parts with one separator between them. */
  function Join(sep: char, a: string, b: string): (r: string)
    ensures |r| == |a| + 1 + |b|
    ensures r[..|a|] == a && r[|a|] == sep && r[|a| + 1..] == b
  {
    a + [sep] + b
  }

  /**
   * `os.path.join(a, b)` for a relative `b` and a first part that is not a bare Windows drive, as
   * Python computes it: no separator is added after an empty first part or one that already ends
   * in a separator (`/` counts as one on every host).
   */
  function PyJoin(sep: char, a: string, b: string): (r: string)
    ensures |r| >= |a| + |b| && r[..|a|] == a && r[|r| - |b|..] == b
    ensures a != [] && a[|a| - 1] != sep && a[|a| - 1] != '/' ==> r == Join(sep, a, b)
    ensures a == [] || a[|a| - 1] == sep || a[|a| - 1] == '/' ==> r == a + b
  {
    if a == [] || a[|a| - 1] == sep || a[|a| - 1] == '/' then a + b else Join(sep, a, b)
  }

  /**
   * The gap between the two joins: after a first part that already ends in a separator, Python's
   * join gives the same path as `Join` on the part without it, while `Join` doubles the separator.
   */
  lemma JoinDoublesTrailingSeparator(sep: char, a: string, b: string)
    requires a != [] && a[|a| - 1] != sep && a[|a| - 1] != '/'
    ensures PyJoin(sep, a + [sep], b) == Join(sep, a, b)
    ensures Join(sep, a + [sep], b) != PyJoin(sep, a + [sep], b)
  {
    assert |Join(sep, a + [sep], b)| == |a| + 2 + |b|;
  }

  /** `p` is `root` itself or a path inside the directory `root`. */
  predicate AtOrUnder(sep: char, p: string, root: string) {
    p == root || (|p| > |root| && p[..|root|] == root && p[|root|] == sep)
  }

  /** Nothing at or below `root`. */
  predicate Absent(fs: Fs, sep: char, root: string) {
    forall p :: p in fs ==> !AtOrUnder(sep, p, root)
  }

  lemma JoinIsUnder(sep: char, a: string, b: string)
    ensures AtOrUnder(sep, Join(sep, a, b), a)
  {
  }

  /** Two children of one directory with different names are different subtrees. */
  lemma SiblingsDisjoint(sep: char, dir: string, a: string, b: string, p: string)
    requires |a| > 0 && |b| > 0 && a[0] != b[0]
    requires AtOrUnder(sep, p, Join(sep, dir, a))
    ensures !AtOrUnder(sep, p, Join(sep, dir, b))
  {
    var ja, jb := Join(sep, dir, a), Join(sep, dir, b);
    assert p[|dir| + 1] == ja[|dir| + 1] == a[0];
    assert jb[|dir| + 1] == b[0];
  }

  /** The path that `p`, a path at or under `from`, gets when the subtree is copied to `to`. */
  function Rebase(sep: char, p: string, from: string, to: string): (r: string)
    requires AtOrUnder(sep, p, from)
    ensures AtOrUnder(sep, r, to)
    ensures |r| - |to| == |p| - |from|
  {
    to + p[|from|..]
  }

  lemma RebaseInverse(sep: char, p: string, from: string, to: string)
    requires AtOrUnder(sep, p, from)
    ensures Rebase(sep, Rebase(sep, p, from, to), to, from) == p
  {
    var r := Rebase(sep, p, from, to);
    assert r[|to|..] == p[|from|..];
    assert p == p[..|from|] + p[|from|..];
  }

  lemma RebaseInjective(sep: char, p: string, q: string, from: string, to: string)
    requires AtOrUnder(sep, p, from) && AtOrUnder(sep, q, from)
    requires Rebase(sep, p, from, to) == Rebase(sep, q, from, to)
    ensures p == q
  {
    RebaseInverse(sep, p, from, to);
    RebaseInverse(sep, q, from, to);
  }

  /** `shutil.rmtree(root)`: drops `root` and every path inside it, and nothing else. */
  function RemoveTree(fs: Fs, sep: char, root: string): (r: Fs)
    ensures forall p :: p in r <==> p in fs && !AtOrUnder(sep, p, root)
    ensures forall p :: p in r ==> r[p] == fs[p]
    ensures Absent(r, sep, root)
  {
    map p | p in fs && !AtOrUnder(sep, p, root) :: fs[p]
  }

  /** The entries of the subtree at `src`, moved to `dst`. */
  function CopiedEntries(fs: Fs, sep: char, src: string, dst: string): (r: Fs)
    ensures forall q :: q in r ==> AtOrUnder(sep, q, dst)
    ensures forall p :: p in fs && AtOrUnder(sep, p, src) ==>
      Rebase(sep, p, src, dst) in r && r[Rebase(sep, p, src, dst)] == fs[p]
    ensures forall q :: q in r ==> Rebase(sep, q, dst, src) in fs && fs[Rebase(sep, q, dst, src)] == r[q]
  {
    forall p, q | p in fs && AtOrUnder(sep, p, src) && q in fs && AtOrUnder(sep, q, src)
      && Rebase(sep, p, src, dst) == Rebase(sep, q, src, dst)
      ensures p == q
    {
      RebaseInjective(sep, p, q, src, dst);
    }
    var r := map p | p in fs && AtOrUnder(sep, p, src) :: Rebase(sep, p, src, dst) := fs[p];
    assert forall q :: q in r ==> Rebase(sep, q, dst, src) in fs && fs[Rebase(sep, q, dst, src)] == r[q] by {
      forall q | q in r
        ensures Rebase(sep, q, dst, src) in fs && fs[Rebase(sep, q, dst, src)] == r[q]
      {
        var p :| p in fs && AtOrUnder(sep, p, src) && Rebase(sep, p, src, dst) == q;
        RebaseInverse(sep, p, src, dst);
      }
    }
    r
  }

  /** `src` and `dst` name two subtrees that do not overlap. */
  predicate Disjoint(sep: char, src: string, dst: string) {
    !AtOrUnder(sep, src, dst) && !AtOrUnder(sep, dst, src)
  }

  /**
   * `shutil.copytree(src, dst)`: fails unless `src` is a directory and `dst` does not exist;
   * otherwise `dst` becomes a copy of the subtree at `src` and nothing outside `dst` changes.
   */
  function CopyTree(fs: Fs, sep: char, src: string, dst: string): (r: Option<Fs>)
    ensures r.Some? <==> IsDir(fs, src) && dst !in fs
    ensures r.Some? ==> forall q :: !AtOrUnder(sep, q, dst) ==>
      (q in r.value <==> q in fs) && (q in fs ==> r.value[q] == fs[q])
    ensures r.Some? ==> forall p :: p in fs && AtOrUnder(sep, p, src) ==>
      Rebase(sep, p, src, dst) in r.value && r.value[Rebase(sep, p, src, dst)] == fs[p]
    ensures r.Some? && Absent(fs, sep, dst) ==> Mirrors(r.value, sep, dst, fs, src)
  {
    if IsDir(fs, src) && dst !in fs then Some(fs + CopiedEntries(fs, sep, src, dst)) else None
  }

  /** The subtree of `g` at `dst` is exactly the subtree of `f` at `src`. */
  ghost predicate Mirrors(g: Fs, sep: char, dst: string, f: Fs, src: string) {
    && (forall p :: p in f && AtOrUnder(sep, p, src) ==>
          Rebase(sep, p, src, dst) in g && g[Rebase(sep, p, src, dst)] == f[p])
    && (forall q :: q in g && AtOrUnder(sep, q, dst) ==>
          Rebase(sep, q, dst, src) in f && f[Rebase(sep, q, dst, src)] == g[q])
  }

  /** `open(p, 'w').write(text)`: fails when `p` is a directory, otherwise `p` holds exactly `text`. */
  function WriteFile(fs: Fs, p: string, text: string): (r: Option<Fs>)
    ensures r.Some? <==> !IsDir(fs, p)
    ensures r.Some? ==> IsFile(r.value, p) && r.value[p].text == text
    ensures r.Some? ==> forall q :: q != p ==> (q in r.value <==> q in fs) && (q in fs ==> r.value[q] == fs[q])
  {
    if IsDir(fs, p) then None else Some(fs[p := File(text)])
  }
}
