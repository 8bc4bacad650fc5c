/** A read-only snapshot of a file system: every path that exists, mapped
    to a file or to a directory with its children in listing order. Paths
    are sequences of components, so `path / name` appends one component. */
module Filesystem {

  type Path = seq<string>

  datatype Node = File | Dir(children: seq<string>)

  type Snapshot = map<Path, Node>

  predicate Exists(fs: Snapshot, p: Path)
  {
    p in fs
  }

  predicate IsDir(fs: Snapshot, p: Path)
  {
    p in fs && fs[p].Dir?
  }

  /** `path / name`. */
  function Join(p: Path, name: string): (r: Path)
    ensures |r| == |p| + 1 && r[..|p|] == p && r[|p|] == name
  {
    p + [name]
  }

  /** `path.parent`; the root is its own parent. */
  function Parent(p: Path): (r: Path)
    ensures p != [] ==> Join(r, Name(p)) == p
    ensures p == [] ==> r == []
  {
    if p == [] then [] else p[..|p| - 1]
  }

  /** `path.name`; the root's name is empty. */
  function Name(p: Path): string
  {
    if p == [] then "" else p[|p| - 1]
  }

  /** The names `iterdir` lists; nothing for a path that is not a
      directory. */
  function Children(fs: Snapshot, p: Path): seq<string>
  {
    if IsDir(fs, p) then fs[p].children else []
  }

  /** The names among `names` that are directories under `p`, in order. */
  function DirNames(fs: Snapshot, p: Path, names: seq<string>): (r: seq<string>)
    ensures forall n :: n in r <==> n in names && IsDir(fs, Join(p, n))
    ensures |r| <= |names|
  {
    if names == [] then []
    else (if IsDir(fs, Join(p, names[0])) then [names[0]] else []) + DirNames(fs, p, names[1..])
  }

  /** A single name is kept exactly when it is a directory. */
  lemma DirNamesSingle(fs: Snapshot, p: Path, n: string)
    ensures DirNames(fs, p, [n]) == if IsDir(fs, Join(p, n)) then [n] else []
  {
    assert [n][1..] == [];
  }

  /** Filtering keeps listing order: the directories among `a + b` are
      those among `a` followed by those among `b`. */
  lemma {:induction false} DirNamesAppend(fs: Snapshot, p: Path, a: seq<string>, b: seq<string>)
    ensures DirNames(fs, p, a + b) == DirNames(fs, p, a) + DirNames(fs, p, b)
    decreases |a|
  {
    if a == [] {
      assert a + b == b;
    } else {
      assert (a + b)[0] == a[0] && (a + b)[1..] == a[1..] + b;
      DirNamesAppend(fs, p, a[1..], b);
    }
  }

  /** `[d.name for d in iterdir(p) if d.is_dir()]`. */
  function ChildDirs(fs: Snapshot, p: Path): (r: seq<string>)
    ensures forall n :: n in r <==> n in Children(fs, p) && IsDir(fs, Join(p, n))
  {
    DirNames(fs, p, Children(fs, p))
  }

  /** `names` with every occurrence of `n` dropped. */
  function Without(names: seq<string>, n: string): (r: seq<string>)
    ensures forall m :: m in r <==> m in names && m != n
  {
    if names == [] then []
    else (if names[0] == n then [] else [names[0]]) + Without(names[1..], n)
  }

  /** Deleting `p` (a file, or a directory with everything under it left
      in place): it disappears from the snapshot and from its parent's
      listing. */
  function Remove(fs: Snapshot, p: Path): (r: Snapshot)
    requires p != []
    ensures forall q :: Exists(r, q) <==> Exists(fs, q) && q != p
    ensures forall q :: q != Parent(p) && q != p ==> (IsDir(r, q) <==> IsDir(fs, q))
    ensures forall q :: q != Parent(p) && q in r ==> q in fs && r[q] == fs[q]
    ensures IsDir(r, Parent(p)) <==> IsDir(fs, Parent(p))
    ensures forall q :: q != Parent(p) && q != p ==> Children(r, q) == Children(fs, q)
    ensures Children(r, Parent(p)) == Without(Children(fs, Parent(p)), Name(p))
  {
    var parent := Parent(p);
    var rest := fs - {p};
    assert parent != p;
    if IsDir(fs, parent) then rest[parent := Dir(Without(fs[parent].children, Name(p)))] else rest
  }
}
