/** Choosing and checking a checkpoint's layout
    (checkpoint/.../layout/registry.py): the layout the caller asks for is
    validated, and for a PyTree load the checkpointable's name is resolved,
    falling back for checkpoints without the indicator file (saved with
    the older "V0" API) to the path itself and then to its first
    subdirectory that holds a PyTree. */
module Registry {
  import opened Wrappers
  import opened Filesystem
  import opened CheckpointLayout
  import opened Orbax

  /** The layout object the tag selects, bound to `path`. */
  function LayoutFor(tag: LayoutTag, path: Path): (l: Layout)
    requires !tag.UnsupportedTag?
    ensures l.path == path
    ensures l.OrbaxLayout? <==> tag.OrbaxTag?
  {
    if tag.OrbaxTag? then OrbaxLayout(path) else SafetensorsLayout(path)
  }

  /** `layout.validate()`. */
  function LayoutValidate(fs: Snapshot, env: Env, l: Layout): Option<Failure>
  {
    match l
    case OrbaxLayout(p) => Validate(fs, env, p)
    case SafetensorsLayout(p) => env.safetensorsValidate(fs, p)
  }

  /** `layout.validate_pytree(name)`. */
  function LayoutValidatePyTree(fs: Snapshot, env: Env, l: Layout, name: Option<string>): Option<Failure>
  {
    match l
    case OrbaxLayout(p) => ValidatePyTree(fs, p, name)
    case SafetensorsLayout(p) => env.safetensorsValidatePyTree(fs, p, name)
  }

  /** `get_checkpoint_layout`. */
  function GetCheckpointLayout(fs: Snapshot, env: Env, path: Path, tag: LayoutTag): (r: Result<Layout, Failure>)
    ensures tag.UnsupportedTag? ==> r == Failure(UnsupportedLayout(tag))
    ensures r.Success? <==> !tag.UnsupportedTag? && LayoutValidate(fs, env, LayoutFor(tag, path)).None?
    ensures r.Success? ==> r.value == LayoutFor(tag, path)
    ensures r.Failure? && !tag.UnsupportedTag? ==>
      var e := LayoutValidate(fs, env, LayoutFor(tag, path)).value;
      r.error == if e.IsInvalidLayoutError() then NotRecognisedAs(path, tag, e) else e
  {
    if tag.UnsupportedTag? then Failure(UnsupportedLayout(tag))
    else
      var layout := LayoutFor(tag, path);
      match LayoutValidate(fs, env, layout)
      case None => Success(layout)
      case Some(e) =>
        if e.IsInvalidLayoutError() then Failure(NotRecognisedAs(path, tag, e)) else Failure(e)
  }

  /** An Orbax path that fails validation is reported as not being a
      checkpoint of the requested layout, with the validation failure, and
      the checks that failed, as its causes. */
  lemma OrbaxFailureWrapped(fs: Snapshot, env: Env, path: Path)
    ensures var r := GetCheckpointLayout(fs, env, path, OrbaxTag);
      r.Failure? <==> ValidateChecks(fs, env, path).Some?
    ensures var r := GetCheckpointLayout(fs, env, path, OrbaxTag);
      r.Failure? ==> r.error == NotRecognisedAs(path, OrbaxTag, NotAnOrbaxCheckpoint(path, ValidateChecks(fs, env, path).value))
  {
  }

  /** `_is_v0_checkpoint`: not an Orbax layout, or one without the
      indicator file. */
  predicate IsV0Checkpoint(fs: Snapshot, l: Layout)
  {
    !l.OrbaxLayout? || !HasIndicatorFile(fs, l.path)
  }

  /** `validate_pytree(name)` succeeds on `path`. */
  predicate IsPyTreeCheckpointable(fs: Snapshot, path: Path, name: string)
  {
    ValidatePyTree(fs, path, Some(name)).None?
  }

  /** The position of the first of `names` that validates as a PyTree
      checkpointable of `path`; `|names|` when none does. */
  function FirstPyTree(fs: Snapshot, path: Path, names: seq<string>): (r: nat)
    ensures r <= |names|
    ensures forall j :: 0 <= j < r ==> !IsPyTreeCheckpointable(fs, path, names[j])
    ensures r < |names| ==> IsPyTreeCheckpointable(fs, path, names[r])
  {
    if names == [] then 0
    else if IsPyTreeCheckpointable(fs, path, names[0]) then 0
    else
      var rest := FirstPyTree(fs, path, names[1..]);
      assert forall j :: 1 <= j < |names| ==> names[j] == names[1..][j - 1];
      1 + rest
  }

  /** `_try_resolve_pytree_checkpointable`. */
  function TryResolvePyTreeCheckpointable(fs: Snapshot, env: Env, l: Layout, name: Option<string>)
    : (r: Result<(Layout, Option<string>), Failure>)
    ensures name.Some? ==> r == Success((l, name))
    ensures name.None? && !IsV0Checkpoint(fs, l) ==> r == Success((l, None))
    ensures name.None? && !l.OrbaxLayout? ==> r == Failure(NotAnOrbaxLayout)
    ensures name.None? && IsV0Checkpoint(fs, l) && l.OrbaxLayout? ==>
      if ValidatePyTree(fs, Parent(l.path), Some(Name(l.path))).None? then
        r == Success((OrbaxLayout(Parent(l.path)), Some(Name(l.path))))
      else
        var dirs := ChildDirs(fs, l.path);
        var i := FirstPyTree(fs, l.path, dirs);
        r == if i < |dirs| then Success((l, Some(dirs[i]))) else Failure(UnresolvedCheckpointable(l.path, dirs))
  {
    if name.Some? then Success((l, name))
    else if !IsV0Checkpoint(fs, l) then Success((l, name))
    else if !l.OrbaxLayout? then Failure(NotAnOrbaxLayout)
    else
      var original := l.path;
      if ValidatePyTree(fs, Parent(original), Some(Name(original))).None? then
        Success((OrbaxLayout(Parent(original)), Some(Name(original))))
      else
        var dirNames := ChildDirs(fs, original);
        var i := FirstPyTree(fs, original, dirNames);
        if i < |dirNames| then Success((l, Some(dirNames[i])))
        else Failure(UnresolvedCheckpointable(original, dirNames))
  }

  /** A name resolved here for an Orbax layout, rather than passed in or
      left out for a checkpoint with the indicator file, names a directory
      that validates as a PyTree checkpointable of the layout returned;
      a name passed in is never probed. */
  lemma ResolvedNamesValidate(fs: Snapshot, env: Env, l: Layout, name: Option<string>)
    requires name.None?
    ensures var r := TryResolvePyTreeCheckpointable(fs, env, l, name);
      r.Success? && r.value.1.Some? ==>
        r.value.0.OrbaxLayout? && ValidatePyTree(fs, r.value.0.path, r.value.1).None?
    ensures var r := TryResolvePyTreeCheckpointable(fs, env, l, name);
      r.Success? && r.value.1.None? ==> r.value.0 == l && l.OrbaxLayout? && HasIndicatorFile(fs, l.path)
  {
  }

  /** The layout stays put unless the direct path was the checkpointable,
      in which case it moves up to the parent. */
  lemma ResolvedLayoutPlacement(fs: Snapshot, env: Env, l: Layout, name: Option<string>)
    ensures var r := TryResolvePyTreeCheckpointable(fs, env, l, name);
      r.Success? ==> r.value.0 == l || (r.value.0 == OrbaxLayout(Parent(l.path)) && r.value.1 == Some(Name(l.path)))
  {
  }

  /** When no subdirectory validates, the error lists every subdirectory
      name, and every one of them was tried. */
  lemma UnresolvedListsAllSubdirs(fs: Snapshot, env: Env, l: Layout)
    ensures var r := TryResolvePyTreeCheckpointable(fs, env, l, None);
      r.Failure? && r.error.UnresolvedCheckpointable? ==>
        && r.error.dirNames == ChildDirs(fs, l.path)
        && ValidatePyTree(fs, Parent(l.path), Some(Name(l.path))).Some?
        && forall n :: n in Children(fs, l.path) && IsDir(fs, Join(l.path, n)) ==> ValidatePyTree(fs, l.path, Some(n)).Some?
  {
    var r := TryResolvePyTreeCheckpointable(fs, env, l, None);
    if r.Failure? && r.error.UnresolvedCheckpointable? {
      var dirs := ChildDirs(fs, l.path);
      assert FirstPyTree(fs, l.path, dirs) == |dirs|;
      forall n | n in Children(fs, l.path) && IsDir(fs, Join(l.path, n))
        ensures ValidatePyTree(fs, l.path, Some(n)).Some?
      {
        var j :| 0 <= j < |dirs| && dirs[j] == n;
        assert !IsPyTreeCheckpointable(fs, l.path, dirs[j]);
      }
    }
  }

  /** `get_checkpoint_layout_pytree`. */
  function GetCheckpointLayoutPyTree(fs: Snapshot, env: Env, path: Path, tag: LayoutTag, name: Option<string>)
    : (r: Result<(Layout, Option<string>), Failure>)
    ensures r.Success? ==> LayoutValidatePyTree(fs, env, r.value.0, r.value.1).None?
    ensures r.Success? ==> GetCheckpointLayout(fs, env, path, tag).Success?
    ensures GetCheckpointLayout(fs, env, path, tag).Failure? ==> r == Failure(GetCheckpointLayout(fs, env, path, tag).error)
    ensures GetCheckpointLayout(fs, env, path, tag).Success? ==>
      var resolved := TryResolvePyTreeCheckpointable(fs, env, GetCheckpointLayout(fs, env, path, tag).value, name);
      && (resolved.Failure? ==> r == Failure(resolved.error))
      && (resolved.Success? ==>
            r == match LayoutValidatePyTree(fs, env, resolved.value.0, resolved.value.1)
                 case None => Success(resolved.value)
                 case Some(e) => Failure(e))
  {
    match GetCheckpointLayout(fs, env, path, tag)
    case Failure(e) => Failure(e)
    case Success(layout) =>
      match TryResolvePyTreeCheckpointable(fs, env, layout, name)
      case Failure(e) => Failure(e)
      case Success(resolved) =>
        match LayoutValidatePyTree(fs, env, resolved.0, resolved.1)
        case Some(e) => Failure(e)
        case None => Success(resolved)
  }

  /** A V0 checkpoint that is not a PyTree checkpointable of its parent,
      and none of whose subdirectories is one, is left unresolved, and the
      error lists its subdirectories. */
  lemma UnresolvedWhenNoneValidates(fs: Snapshot, env: Env, p: Path)
    requires IsV0Checkpoint(fs, OrbaxLayout(p))
    requires !IsPyTreeCheckpointable(fs, Parent(p), Name(p))
    requires forall n :: n in ChildDirs(fs, p) ==> !IsPyTreeCheckpointable(fs, p, n)
    ensures TryResolvePyTreeCheckpointable(fs, env, OrbaxLayout(p), None)
      == Failure(UnresolvedCheckpointable(p, ChildDirs(fs, p)))
  {
  }

  // ---------------------------------------------------------------------
  // A checkpoint saved with the V0 API

  /** `v0` holds the step metadata and one PyTree checkpointable, `state`,
      but no indicator file. */
  const V0Snapshot: Snapshot := map[
    [] := Dir(["v0"]),
    ["v0"] := Dir(["_CHECKPOINT_METADATA", "state"]),
    ["v0", "_CHECKPOINT_METADATA"] := File,
    ["v0", "state"] := Dir(["_METADATA"]),
    ["v0", "state", "_METADATA"] := File]

  /** The same checkpoint after `state/_METADATA` is deleted. */
  const V0WithoutMetadata: Snapshot := map[
    [] := Dir(["v0"]),
    ["v0"] := Dir(["_CHECKPOINT_METADATA", "state"]),
    ["v0", "_CHECKPOINT_METADATA"] := File,
    ["v0", "state"] := Dir([])]

  /** Opened at the checkpoint, the name resolves to its subdirectory
      `state`. */
  lemma V0ResolvesSubdirectory(env: Env)
    ensures TryResolvePyTreeCheckpointable(V0Snapshot, env, OrbaxLayout(["v0"]), None)
      == Success((OrbaxLayout(["v0"]), Some("state")))
  {
    var fs := V0Snapshot;
    V0NotAtParent(fs);
    V0ChildDirs(fs);
    assert IsPyTreeCheckpointable(fs, ["v0"], "state") by { StateIsPyTree(); }
  }

  lemma StateIsPyTree()
    ensures IsPyTreeCheckpointable(V0Snapshot, ["v0"], "state")
  {
    var fs := V0Snapshot;
    assert Join(["v0"], "state") == ["v0", "state"];
    assert Join(["v0", "state"], PyTreeMetadataFile) == ["v0", "state", "_METADATA"];
    assert Exists(fs, ["v0", "state"]);
    assert HasPyTreeMetadataFile(fs, ["v0", "state"]);
    assert ValidatePyTreeChecks(fs, ["v0"], Some("state")).Success?;
  }

  lemma V0ChildDirs(fs: Snapshot)
    requires fs == V0Snapshot || fs == V0WithoutMetadata
    ensures ChildDirs(fs, ["v0"]) == ["state"]
  {
    assert fs[["v0"]] == Dir(["_CHECKPOINT_METADATA", "state"]);
    assert Children(fs, ["v0"]) == ["_CHECKPOINT_METADATA", "state"];
    assert Join(["v0"], "state") == ["v0", "state"];
    assert Join(["v0"], "_CHECKPOINT_METADATA") == ["v0", "_CHECKPOINT_METADATA"];
    assert !IsDir(fs, ["v0", "_CHECKPOINT_METADATA"]);
    assert IsDir(fs, ["v0", "state"]);
    var names := ["_CHECKPOINT_METADATA", "state"];
    assert names[1..] == ["state"];
    assert names[1..][1..] == [];
    assert DirNames(fs, ["v0"], ["state"]) == ["state"];
  }

  /** Opened at `state` itself, the layout moves up to the checkpoint and
      the name is `state`. */
  lemma V0ResolvesDirectPath(env: Env)
    ensures TryResolvePyTreeCheckpointable(V0Snapshot, env, OrbaxLayout(["v0", "state"]), None)
      == Success((OrbaxLayout(["v0"]), Some("state")))
  {
    var fs := V0Snapshot;
    assert !HasIndicatorFile(fs, ["v0", "state"]);
    assert Parent(["v0", "state"]) == ["v0"] && Name(["v0", "state"]) == "state";
    StateIsPyTree();
  }

  /** Without the PyTree metadata no name resolves, and the error lists the
      subdirectories. */
  lemma V0WithoutMetadataUnresolved(env: Env)
    ensures TryResolvePyTreeCheckpointable(V0WithoutMetadata, env, OrbaxLayout(["v0"]), None)
      == Failure(UnresolvedCheckpointable(["v0"], ["state"]))
  {
    var fs := V0WithoutMetadata;
    V0NotAtParent(fs);
    V0ChildDirs(fs);
    StateNotPyTreeWithoutMetadata();
    OnlyChildNotPyTree(fs, ["v0"], "state");
    UnresolvedWhenNoneValidates(fs, env, ["v0"]);
  }

  /** `v0` is a V0 checkpoint that is not itself a PyTree checkpointable
      of its parent. */
  lemma V0NotAtParent(fs: Snapshot)
    requires fs == V0Snapshot || fs == V0WithoutMetadata
    ensures IsV0Checkpoint(fs, OrbaxLayout(["v0"]))
    ensures Parent(["v0"]) == [] && Name(["v0"]) == "v0"
    ensures !IsPyTreeCheckpointable(fs, [], "v0")
  {
    assert !HasIndicatorFile(fs, ["v0"]);
    assert Parent(["v0"]) == [] && Name(["v0"]) == "v0";
    assert !HasPyTreeMetadataFile(fs, ["v0"]);
  }

  lemma OnlyChildNotPyTree(fs: Snapshot, p: Path, c: string)
    requires ChildDirs(fs, p) == [c] && !IsPyTreeCheckpointable(fs, p, c)
    ensures forall n :: n in ChildDirs(fs, p) ==> !IsPyTreeCheckpointable(fs, p, n)
  {
  }

  lemma StateNotPyTreeWithoutMetadata()
    ensures !IsPyTreeCheckpointable(V0WithoutMetadata, ["v0"], "state")
  {
    var fs := V0WithoutMetadata;
    assert Join(["v0"], "state") == ["v0", "state"];
    assert !HasPyTreeMetadataFile(fs, ["v0", "state"]);
  }
}
