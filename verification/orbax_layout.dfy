/** The Orbax layout's checks on a checkpoint directory
    (checkpoint/.../layout/orbax_layout.py): the ordered existence checks
    of `_validate` and `_validate_pytree`, and the wrappers that turn their
    failures into `InvalidLayoutError`. */
module Orbax {
  import opened Wrappers
  import opened Filesystem
  import opened CheckpointLayout

  const PyTreeMetadataFile: string := "_METADATA"
  const IndicatorFile: string := "orbax.checkpoint"
  const OcdbtManifestFile: string := "ocdbt.manifest"
  const ZarrayFile: string := ".zarray"

  /** The step checkpoint's metadata file, `path/_CHECKPOINT_METADATA`. */
  function CheckpointMetadataPath(path: Path): (r: Path)
    ensures Parent(r) == path && Name(r) == "_CHECKPOINT_METADATA"
  {
    Join(path, "_CHECKPOINT_METADATA")
  }

  /** `has_indicator_file`. */
  predicate HasIndicatorFile(fs: Snapshot, path: Path)
  {
    Exists(fs, Join(path, IndicatorFile))
  }

  predicate HasPyTreeMetadataFile(fs: Snapshot, path: Path)
  {
    Exists(fs, Join(path, PyTreeMetadataFile))
  }

  /** Some entry of `names` under `path` holds a `.zarray` file. */
  predicate AnyZarray(fs: Snapshot, path: Path, names: seq<string>)
  {
    names != [] && (Exists(fs, Join(Join(path, names[0]), ZarrayFile)) || AnyZarray(fs, path, names[1..]))
  }

  lemma {:induction false} AnyZarrayIff(fs: Snapshot, path: Path, names: seq<string>)
    ensures AnyZarray(fs, path, names) <==> exists n :: n in names && Exists(fs, Join(Join(path, n), ZarrayFile))
  {
    if names != [] {
      AnyZarrayIff(fs, path, names[1..]);
      assert forall n :: n in names <==> n == names[0] || n in names[1..];
    }
  }

  /** `_has_tensorstore_data_files`: an OCDBT manifest, or a child with a
      `.zarray` file. */
  predicate HasTensorStoreDataFiles(fs: Snapshot, path: Path)
  {
    Exists(fs, Join(path, OcdbtManifestFile)) || AnyZarray(fs, path, Children(fs, path))
  }

  /** A directory under `path` that holds PyTree metadata. */
  predicate IsPyTreeChild(fs: Snapshot, path: Path, name: string)
  {
    IsDir(fs, Join(path, name)) && HasPyTreeMetadataFile(fs, Join(path, name))
  }

  /** The loop over the subpaths: does any of `names` qualify? */
  function AnyPyTreeChild(fs: Snapshot, path: Path, names: seq<string>): (r: bool)
    ensures r <==> exists n :: n in names && IsPyTreeChild(fs, path, n)
  {
    if names == [] then false
    else if IsPyTreeChild(fs, path, names[0]) then true
    else
      assert forall n :: n in names <==> n == names[0] || n in names[1..];
      AnyPyTreeChild(fs, path, names[1..])
  }

  /** One of the four things that identify an Orbax checkpoint. */
  ghost predicate HasCheckpointMarker(fs: Snapshot, path: Path)
  {
    || IndicatorFile in Children(fs, path)
    || Exists(fs, CheckpointMetadataPath(path))
    || HasPyTreeMetadataFile(fs, path)
    || exists n :: n in Children(fs, path) && IsPyTreeChild(fs, path, n)
  }

  /** `_validate`: existence, then directory, then not temporary, then
      some marker; the first check that fails decides the error. */
  function ValidateChecks(fs: Snapshot, env: Env, path: Path): (r: Option<Failure>)
    ensures !Exists(fs, path) ==> r == Some(PathMissing(path))
    ensures Exists(fs, path) && !IsDir(fs, path) ==> r == Some(NotADirectory(path))
    ensures IsDir(fs, path) && env.isTemporary(path) ==> r == Some(IncompleteCheckpoint(path))
    ensures IsDir(fs, path) && !env.isTemporary(path) && !HasCheckpointMarker(fs, path) ==>
      r == Some(NotRecognised(path))
    ensures r.None? <==> IsDir(fs, path) && !env.isTemporary(path) && HasCheckpointMarker(fs, path)
  {
    if !Exists(fs, path) then Some(PathMissing(path))
    else if !IsDir(fs, path) then Some(NotADirectory(path))
    else if env.isTemporary(path) then Some(IncompleteCheckpoint(path))
    else
      var subpaths := Children(fs, path);
      if IndicatorFile in subpaths then None
      else if Exists(fs, CheckpointMetadataPath(path)) then None
      else if HasPyTreeMetadataFile(fs, path) then None
      else if AnyPyTreeChild(fs, path, subpaths) then None
      else Some(NotRecognised(path))
  }

  /** `validate`: any failure of `_validate` is raised again as an
      `InvalidLayoutError` carrying it as cause. */
  function Validate(fs: Snapshot, env: Env, path: Path): (r: Option<Failure>)
    ensures r.None? <==> ValidateChecks(fs, env, path).None?
    ensures r.Some? ==>
      && r.value.IsInvalidLayoutError() && r.value.NotAnOrbaxCheckpoint?
      && r.value.cause == ValidateChecks(fs, env, path).value && r.value.path == path
  {
    match ValidateChecks(fs, env, path)
    case None => None
    case Some(e) => Some(NotAnOrbaxCheckpoint(path, e))
  }

  /** A name that pathlib's `path / name` drops: the empty name and `.`
      leave the path as it is. */
  predicate NamesPathItself(name: string)
  {
    name == "" || name == "."
  }

  /** The directory `_validate_pytree` inspects: `path` for no name,
      `path / name` otherwise. */
  function PyTreeDir(path: Path, name: Option<string>): (r: Path)
    ensures name.None? || NamesPathItself(name.value) ==> r == path
    ensures name.Some? && !NamesPathItself(name.value) ==> Parent(r) == path && Name(r) == name.value
  {
    if name.None? || NamesPathItself(name.value) then path else Join(path, name.value)
  }

  /** `_validate_pytree`. On success the value says whether TensorStore
      data files were found; when they were not, the source only logs a
      warning. */
  function ValidatePyTreeChecks(fs: Snapshot, path: Path, name: Option<string>): (r: Result<bool, Failure>)
    ensures r.Success? <==>
      (name.None? || Exists(fs, PyTreeDir(path, name))) && HasPyTreeMetadataFile(fs, PyTreeDir(path, name))
    ensures name.Some? && !Exists(fs, PyTreeDir(path, name)) ==>
      r == Failure(CheckpointableMissing(path, name.value, ChildDirs(fs, path)))
    ensures (name.None? || Exists(fs, PyTreeDir(path, name))) && !HasPyTreeMetadataFile(fs, PyTreeDir(path, name)) ==>
      r == Failure(PyTreeMetadataMissing(path))
    ensures r.Success? ==> r.value == HasTensorStoreDataFiles(fs, PyTreeDir(path, name))
  {
    var dir := PyTreeDir(path, name);
    if name.Some? && !Exists(fs, dir) then
      Failure(CheckpointableMissing(path, name.value, ChildDirs(fs, path)))
    else if !HasPyTreeMetadataFile(fs, dir) then
      Failure(PyTreeMetadataMissing(path))
    else
      Success(HasTensorStoreDataFiles(fs, dir))
  }

  /** `validate_pytree`. */
  function ValidatePyTree(fs: Snapshot, path: Path, name: Option<string>): (r: Option<Failure>)
    ensures r.None? <==> ValidatePyTreeChecks(fs, path, name).Success?
    ensures r.Some? ==>
      && r.value.IsInvalidLayoutError() && r.value.NotAnOrbaxPyTree?
      && r.value.cause == ValidatePyTreeChecks(fs, path, name).error && r.value.path == path
  {
    match ValidatePyTreeChecks(fs, path, name)
    case Success(_) => None
    case Failure(e) => Some(NotAnOrbaxPyTree(path, e))
  }

  /** With the empty name the path itself is checked, as with no name,
      except that the path must then exist. */
  lemma EmptyNameChecksPathItself(fs: Snapshot, path: Path)
    ensures ValidatePyTree(fs, path, Some("")).None? <==>
      Exists(fs, path) && ValidatePyTree(fs, path, None).None?
  {
  }

  /** A checkpoint holding `_METADATA` directly validates with the empty
      name. */
  lemma EmptyNameExample()
    ensures ValidatePyTree(map[["c"] := Dir(["_METADATA"]), ["c", "_METADATA"] := File], ["c"], Some("")).None?
  {
    var fs := map[["c"] := Dir(["_METADATA"]), ["c", "_METADATA"] := File];
    assert Join(["c"], PyTreeMetadataFile) == ["c", "_METADATA"];
    assert Exists(fs, ["c"]) && HasPyTreeMetadataFile(fs, ["c"]);
  }

  /** Missing TensorStore data never makes a PyTree checkpoint invalid:
      adding or removing the OCDBT manifest leaves the verdict unchanged. */
  lemma TensorStoreDataNeverDecides(fs: Snapshot, path: Path, name: Option<string>)
    ensures var m := Join(PyTreeDir(path, name), OcdbtManifestFile);
      ValidatePyTree(fs[m := File], path, name).None? <==> ValidatePyTree(fs - {m}, path, name).None?
  {
    var dir := PyTreeDir(path, name);
    var m := Join(dir, OcdbtManifestFile);
    assert Join(dir, PyTreeMetadataFile) != m;
    assert dir != m && path != m;
  }

  // ---------------------------------------------------------------------
  // Removing marker files from a saved checkpoint

  /** Deleting the indicator file keeps a directory valid while one of the
      other markers remains. */
  lemma RemovingIndicatorKeepsValid(fs: Snapshot, env: Env, path: Path)
    requires ValidateChecks(fs, env, path).None?
    requires !IsDir(fs, Join(path, IndicatorFile))
    requires || Exists(fs, CheckpointMetadataPath(path))
             || HasPyTreeMetadataFile(fs, path)
             || exists n :: n in Children(fs, path) && IsPyTreeChild(fs, path, n)
    ensures ValidateChecks(Remove(fs, Join(path, IndicatorFile)), env, path).None?
  {
    var f := Join(path, IndicatorFile);
    var fs' := Remove(fs, f);
    assert Parent(f) == path && Name(f) == IndicatorFile;
    assert CheckpointMetadataPath(path) != f;
    assert Join(path, PyTreeMetadataFile) != f;
    if !Exists(fs, CheckpointMetadataPath(path)) && !HasPyTreeMetadataFile(fs, path) {
      var n :| n in Children(fs, path) && IsPyTreeChild(fs, path, n);
      assert n != IndicatorFile;
      assert n in Children(fs', path);
      assert Join(path, n) != path && Join(path, n) != f;
      assert Join(Join(path, n), PyTreeMetadataFile) != f;
      assert IsPyTreeChild(fs', path, n);
    }
  }

  /** Deleting the checkpoint metadata file keeps a directory valid while
      one of the other markers remains. */
  lemma RemovingCheckpointMetadataKeepsValid(fs: Snapshot, env: Env, path: Path)
    requires ValidateChecks(fs, env, path).None?
    requires !IsDir(fs, CheckpointMetadataPath(path))
    requires || IndicatorFile in Children(fs, path)
             || HasPyTreeMetadataFile(fs, path)
             || exists n :: n in Children(fs, path) && IsPyTreeChild(fs, path, n)
    ensures ValidateChecks(Remove(fs, CheckpointMetadataPath(path)), env, path).None?
  {
    var f := CheckpointMetadataPath(path);
    var fs' := Remove(fs, f);
    assert Join(path, PyTreeMetadataFile) != f;
    if IndicatorFile in Children(fs, path) {
      assert IndicatorFile in Children(fs', path);
    } else if !HasPyTreeMetadataFile(fs, path) {
      var n :| n in Children(fs, path) && IsPyTreeChild(fs, path, n);
      assert n != Name(f);
      assert n in Children(fs', path);
      assert Join(path, n) != path && Join(path, n) != f;
      assert Join(Join(path, n), PyTreeMetadataFile) != f;
      assert IsPyTreeChild(fs', path, n);
    }
  }

  /** Deleting the indicator file, the checkpoint metadata file and the
      PyTree metadata of the only PyTree subdirectory `d` leaves nothing
      that identifies the checkpoint. */
  lemma RemovingAllMarkersInvalidates(fs: Snapshot, env: Env, path: Path, d: string)
    requires !HasPyTreeMetadataFile(fs, path)
    requires forall n :: n in Children(fs, path) && n != d ==> !IsPyTreeChild(fs, path, n)
    ensures var fs1 := Remove(fs, Join(path, IndicatorFile));
      var fs2 := Remove(fs1, CheckpointMetadataPath(path));
      var fs3 := Remove(fs2, Join(Join(path, d), PyTreeMetadataFile));
      ValidateChecks(fs3, env, path).Some?
  {
    var f1 := Join(path, IndicatorFile);
    var f2 := CheckpointMetadataPath(path);
    var f3 := Join(Join(path, d), PyTreeMetadataFile);
    var fs1 := Remove(fs, f1);
    var fs2 := Remove(fs1, f2);
    var fs3 := Remove(fs2, f3);
    assert Parent(f1) == path && Parent(f2) == path && Parent(f3) == Join(path, d);
    assert Join(path, d) != path;
    assert Children(fs3, path) == Children(fs2, path);
    assert IndicatorFile !in Children(fs1, path);
    assert IndicatorFile !in Children(fs3, path);
    assert !Exists(fs3, f2);
    assert !HasPyTreeMetadataFile(fs3, path);
    forall n | n in Children(fs3, path) ensures !IsPyTreeChild(fs3, path, n) {
      if n != d {
        assert n in Children(fs, path);
        assert !IsPyTreeChild(fs, path, n);
        assert Join(Join(path, n), PyTreeMetadataFile) != f1;
      }
    }
  }
}
