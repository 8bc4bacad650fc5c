# Orbax core, modelled in Dafny

This project models seven pieces of logic from Orbax, the library that saves
and restores model checkpoints and exported models. The properties stated
about them are proved.

- **Checkpoint layout resolution**:
  - `filesystem.dfy` holds an immutable snapshot of the file system. A path
    is a sequence of components; an entry is a file or a directory with an
    ordered listing.
  - `checkpoint_layout.dfy` holds the layouts, the failures and the
    environment the checks depend on.
  - `orbax_layout.dfy` has the Orbax layout's ordered checks (`_validate`,
    `_validate_pytree`).
  - `registry.dfy` picks the layout class, validates it, and resolves the
    PyTree checkpointable's name. For a checkpoint written without the
    indicator file (a "V0" checkpoint) it falls back to the path itself and
    then to its first PyTree subdirectory.
- **Naming an exported model's object graph** (`model_save.dfy`):
  - the last-in-first-out walk that names every variable and concrete
    function the first time it is reached;
  - the externalisation of supplemental data;
  - the checks `save` makes on its options.
- **Tree utilities** (`tree_util.dfy`, with `strings.dfy` for Python's
  string order): `flatten`, `tree_map` and `unflatten` over trees of None,
  leaves, lists, tuples, string-keyed dicts and registered dataclasses.
- **Batch options of an export** (`obm_configs.dfy`): the in-place
  inference of `max_batch_size` and the validation of the batch settings.
- **OCDBT parameter-key validation** (`ocdbt_utils.dfy`): stripping
  sharding suffixes, and comparing the names with a `.zarray` key against
  the names with data.
- **In-flight byte limiting** (`limits.dfy`): a counter class whose
  available bytes and outstanding reservations always add up to its budget.
- **Restore arguments** (`restore_args.dfy`): `shape` and `global_shape`
  are reconciled in place.

`wrappers.dfy` holds `Option`, `Result` and decimal rendering of naturals.

Objects compared by identity in the source (module members, layout
objects) are values or arena handles here. Asynchronous calls are plain
calls.

## Model

| member | source | states |
|---|---|---|
| Filesystem.Parent | checkpoint/orbax/checkpoint/experimental/v1/_src/layout/registry.py:114-117 | `path.parent` joined with `path.name` gives `path` back, for any path but the root |
| Filesystem.ChildDirs | checkpoint/orbax/checkpoint/experimental/v1/_src/layout/registry.py:123 | the names listed under a path that are directories: exactly those. The order is the listing order, by DirNamesSingle and DirNamesAppend |
| Filesystem.DirNamesSingle | checkpoint/orbax/checkpoint/experimental/v1/_src/layout/registry.py:123 | a single listed name is kept iff it is a directory |
| Filesystem.DirNamesAppend | checkpoint/orbax/checkpoint/experimental/v1/_src/layout/registry.py:123 | filtering a listing split in two is filtering each part and concatenating, so the kept names stay in listing order |
| Filesystem.Remove | checkpoint/orbax/checkpoint/experimental/v1/_src/layout/orbax_layout_test.py:121-125 | deleting a path removes it and its name from the parent's listing; every other path is unchanged |
| Orbax.CheckpointMetadataPath | checkpoint/orbax/checkpoint/experimental/v1/_src/layout/orbax_layout_test.py:109 | the step metadata file `_CHECKPOINT_METADATA` sits directly inside the checkpoint directory |
| Orbax.HasIndicatorFile | checkpoint/orbax/checkpoint/experimental/v1/_src/layout/orbax_layout.py:123-125 | the indicator file exists directly under the path. ValidateChecks and Registry.TryResolvePyTreeCheckpointable state its role |
| Orbax.HasTensorStoreDataFiles | checkpoint/orbax/checkpoint/experimental/v1/_src/layout/orbax_layout.py:81-92 | `ocdbt.manifest` exists under the path, or some listed child holds `.zarray` (AnyZarrayIff). TensorStoreDataNeverDecides shows it decides only the warning |
| Orbax.AnyZarrayIff | checkpoint/orbax/checkpoint/experimental/v1/_src/layout/orbax_layout.py:85-88 | `_has_zarray_files` is true iff some listed child holds a `.zarray` file |
| Orbax.AnyPyTreeChild | checkpoint/orbax/checkpoint/experimental/v1/_src/layout/orbax_layout.py:249-253 | the subpath loop succeeds iff some listed child is a directory holding `_METADATA` |
| Orbax.ValidateChecks | checkpoint/orbax/checkpoint/experimental/v1/_src/layout/orbax_layout.py:202-265 | failures come in order: missing path, then not a directory, then temporary path. Otherwise it succeeds iff one of the four markers is present (the indicator file is listed, `_CHECKPOINT_METADATA` exists, `_METADATA` exists, or a child directory holds `_METADATA`) and fails with "not recognised" if none is |
| Orbax.Validate | checkpoint/orbax/checkpoint/experimental/v1/_src/layout/orbax_layout.py:267-274 | succeeds iff `_validate` does; any failure becomes an `InvalidLayoutError` for the path, with the original as its cause |
| Orbax.PyTreeDir | checkpoint/orbax/checkpoint/experimental/v1/_src/layout/orbax_layout.py:161-165 | the target is the path itself for no name and for the names `""` and `"."`, which `pathlib` joins to the path itself. For any other name it is the child `name` of the path |
| Orbax.ValidatePyTreeChecks | checkpoint/orbax/checkpoint/experimental/v1/_src/layout/orbax_layout.py:147-200 | succeeds iff the named target exists (or no name was given) and holds `_METADATA`. A missing named target fails, listing the path's child directories; a missing `_METADATA` fails next. On success it reports whether TensorStore data files were found, which only decides a warning. The empty name checks the path itself (EmptyNameChecksPathItself) |
| Orbax.EmptyNameChecksPathItself | checkpoint/orbax/checkpoint/experimental/v1/_src/layout/orbax_layout.py:161-170 | validating with the empty name succeeds iff the path exists and validating it with no name succeeds |
| Orbax.EmptyNameExample | checkpoint/orbax/checkpoint/experimental/v1/_src/layout/orbax_layout.py:147-200 | a directory holding `_METADATA` validates with the empty name |
| Orbax.ValidatePyTree | checkpoint/orbax/checkpoint/experimental/v1/_src/layout/orbax_layout.py:276-284 | succeeds iff `_validate_pytree` does; any failure becomes an `InvalidLayoutError` with the original as cause |
| Orbax.TensorStoreDataNeverDecides | checkpoint/orbax/checkpoint/experimental/v1/_src/layout/orbax_layout.py:194-200 | adding or deleting `ocdbt.manifest` never changes whether a PyTree checkpoint validates |
| Orbax.RemovingIndicatorKeepsValid | checkpoint/orbax/checkpoint/experimental/v1/_src/layout/orbax_layout_test.py:97-105 | deleting the indicator file leaves a valid checkpoint valid while another marker remains |
| Orbax.RemovingCheckpointMetadataKeepsValid | checkpoint/orbax/checkpoint/experimental/v1/_src/layout/orbax_layout_test.py:107-112 | deleting `_CHECKPOINT_METADATA` leaves a valid checkpoint valid while another marker remains |
| Orbax.RemovingAllMarkersInvalidates | checkpoint/orbax/checkpoint/experimental/v1/_src/layout/orbax_layout_test.py:114-127 | deleting the indicator file, `_CHECKPOINT_METADATA`, and the `_METADATA` of the only PyTree subdirectory makes validation fail |
| Registry.LayoutFor | checkpoint/orbax/checkpoint/experimental/v1/_src/layout/registry.py:47-51 | the ORBAX tag gives an Orbax layout and SAFETENSORS a SafeTensors one, bound to the given path |
| Registry.GetCheckpointLayout | checkpoint/orbax/checkpoint/experimental/v1/_src/layout/registry.py:29-65 | an unsupported tag fails before any validation. It succeeds iff the selected layout validates, returning that layout at the given path. An `InvalidLayoutError` is wrapped with the path and tag; any other failure passes through unchanged |
| Registry.OrbaxFailureWrapped | checkpoint/orbax/checkpoint/experimental/v1/_src/layout/registry.py:55-65 | for the ORBAX tag, resolution fails iff `_validate` fails, and the error chain is registry error, then `validate`'s error, then `_validate`'s |
| Registry.FirstPyTree | checkpoint/orbax/checkpoint/experimental/v1/_src/layout/registry.py:124-129 | the first position whose name validates as a PyTree checkpointable; every earlier name fails |
| Registry.IsV0Checkpoint | checkpoint/orbax/checkpoint/experimental/v1/_src/layout/registry.py:137-141 | a layout is V0 iff it is not an Orbax layout or its path has no indicator file. TryResolvePyTreeCheckpointable states that only such layouts are searched, and V0ResolvesSubdirectory and V0ResolvesDirectPath instantiate it |
| Registry.TryResolvePyTreeCheckpointable | checkpoint/orbax/checkpoint/experimental/v1/_src/layout/registry.py:84-134 | with no name, the outcome depends on the layout: <br>- an Orbax layout with the indicator file comes back unchanged; <br>- a non-Orbax layout fails the assertion; <br>- a V0 Orbax layout first tries the path as a child of its parent, then the first child directory that validates, and otherwise fails listing all child directory names. <br>A given name comes back unchanged, with the same layout and no probing |
| Registry.ResolvedNamesValidate | checkpoint/orbax/checkpoint/experimental/v1/_src/layout/registry.py:103-134 | when no name was given, any name the resolution returns validates as a PyTree checkpointable of the returned Orbax layout. If it returns no name, the layout had the indicator file |
| Registry.ResolvedLayoutPlacement | checkpoint/orbax/checkpoint/experimental/v1/_src/layout/registry.py:113-129 | the resolved layout is the original one, or the parent layout paired with the path's last component |
| Registry.UnresolvedListsAllSubdirs | checkpoint/orbax/checkpoint/experimental/v1/_src/layout/registry.py:123-134 | the failure lists every child directory name, and neither the direct path nor any of them validated |
| Registry.UnresolvedWhenNoneValidates | checkpoint/orbax/checkpoint/experimental/v1/_src/layout/registry.py:111-134 | the converse: a V0 Orbax path that validates neither as a child of its parent nor through any child directory fails with the list of its child directories |
| Registry.GetCheckpointLayoutPyTree | checkpoint/orbax/checkpoint/experimental/v1/_src/layout/registry.py:68-81 | succeeds only with a pair on which `validate_pytree` succeeded, after `get_checkpoint_layout` succeeded; the first failing step's error is the result |
| Registry.V0ResolvesSubdirectory | checkpoint/orbax/checkpoint/experimental/v1/_src/layout/registry_test.py:115-122 | a V0 checkpoint opened at its directory resolves to the same layout with the name `state` |
| Registry.V0ResolvesDirectPath | checkpoint/orbax/checkpoint/experimental/v1/_src/layout/registry_test.py:96-103 | opened at `state` itself, the layout moves to the parent and the name is `state` |
| Registry.V0WithoutMetadataUnresolved | checkpoint/orbax/checkpoint/experimental/v1/_src/layout/registry_test.py:132-137 | without `state/_METADATA`, resolution fails listing `state` |
| Wrappers.NatToString | model/orbax/experimental/model/core/python/save.py:63 | the index in a generated name is written in decimal digits, with one digit exactly for indices below 10 and no leading zero |
| Wrappers.NatToStringValue | model/orbax/experimental/model/core/python/save.py:63 | reading the digits back gives the index |
| Wrappers.NatToStringInjective | model/orbax/experimental/model/core/python/save.py:63-66 | distinct indices give distinct names |
| ModelSave.Expand | model/orbax/experimental/model/core/python/save.py:64-67 | the i-th concrete function of a polymorphic function is pushed under `key/concrete_i` |
| ModelSave.Next | model/orbax/experimental/model/core/python/save.py:53-67 | after one iteration the work list still names only objects of the arena, and its remaining weight strictly decreases, so the walk ends |
| ModelSave.Popped | model/orbax/experimental/model/core/python/save.py:52-54 | the entries the walk pops, in order; every one names an object of the arena |
| ModelSave.CaptureNames | model/orbax/experimental/model/core/python/save.py:60-63 | the i-th captured variable of a function named `key` is proposed as `key/capture_i` |
| ModelSave.FirstWinsKeys | model/orbax/experimental/model/core/python/save.py:56-70 | an object gets a name iff some proposal names it |
| ModelSave.FirstWinsFirst | model/orbax/experimental/model/core/python/save.py:56-70 | the first name proposed for an object is the one it keeps |
| ModelSave.FirstWinsNeverRenames | model/orbax/experimental/model/core/python/save.py:56-70 | later proposals never change a name already assigned |
| ModelSave.FirstWinsAbsorbs | model/orbax/experimental/model/core/python/save.py:56-62 | proposals for objects that already have names change nothing |
| ModelSave.NameCaptures | model/orbax/experimental/model/core/python/save.py:60-63 | the capture loop is first-come naming of the `key/capture_i` proposals: every captured variable ends up named, and no earlier name changes |
| ModelSave.NamedVariablesAndFunctions | model/orbax/experimental/model/core/python/save.py:40-74 | fails with TypeError iff some popped entry is of unknown type, and names the object of the first such entry in pop order. Otherwise both tables are the first-come naming of the proposals of the pop order |
| ModelSave.PoppedCovers | model/orbax/experimental/model/core/python/save.py:52-72 | every work-list entry is popped and every other popped entry is a concrete function, so an unknown object is reached iff the module lists one |
| ModelSave.OnlyConcreteFunctionsNamed | model/orbax/experimental/model/core/python/save.py:55-67 | the function table names exactly the concrete functions popped; a polymorphic function is never named |
| ModelSave.FunctionNamedAtFirstPop | model/orbax/experimental/model/core/python/save.py:55-58 | a concrete function's name is the key it was first popped with |
| ModelSave.FirstWinsFromProposals | model/orbax/experimental/model/core/python/save.py:58-70 | every assigned name is one that was proposed for that object |
| ModelSave.VariableNameFormat | model/orbax/experimental/model/core/python/save.py:60-70 | a variable's name is a key it was popped under, or `key/capture_i` of a popped function capturing it at position i |
| ModelSave.AddPopOrder | model/orbax/model/core/python/save_test.py:107-114 | the module `a`, `b`, `add` is popped as `add`, `b`, `a` |
| ModelSave.NamingExample | model/orbax/model/core/python/save_test.py:107-134 | its variables are named `a`, `b` and `add/capture_0`, and its one function `add` |
| ModelSave.PolyPopOrder | model/orbax/experimental/model/core/python/save.py:64-67 | a polymorphic function's concrete functions are popped in reverse order of listing |
| ModelSave.LastInFirstOutExample | model/orbax/experimental/model/core/python/save.py:52-70 | a shared function is named `f/concrete_1`, and its captured variable is named before the module's own key for it is reached |
| ModelSave.SaveSupplementals | model/orbax/experimental/model/core/python/save.py:132-145 | None stays None. A single record gives a single datum, which is that record's `_save_single_supplemental` result. A mapping gives a mapping with the same keys, each mapped to its record's `_save_single_supplemental` result |
| ModelSave.SaveSingleSupplemental | model/orbax/experimental/model/core/python/save.py:117-129 | the datum itself without `save_as`, and the writer's reference to `path/save_as` otherwise, as SingleSupplementalInline states |
| ModelSave.SingleSupplementalInline | model/orbax/experimental/model/core/python/save.py:117-129 | with no `save_as` the datum comes back unchanged and no writer is consulted; with one, it is the writer's reference to that file |
| ModelSave.SupplementalsInlineWhenNoFileNames | model/orbax/experimental/model/core/python/save.py:132-145 | when no record asks for a file, every datum is embedded as given |
| ModelSave.SupplementalEntriesIndependent | model/orbax/experimental/model/core/python/save.py:142-145 | each entry of a mapping is saved from that entry alone |
| ModelSave.JoinPath | model/orbax/experimental/model/core/python/save.py:165-166 | `os.path.join` of a directory and a relative name is at least as long as both |
| ModelSave.JoinPathParts | model/orbax/experimental/model/core/python/save.py:165-166 | the joined path starts with the directory and ends with the name. A separator sits between them unless the directory is empty or already ends in one |
| ModelSave.Save | model/orbax/experimental/model/core/python/save.py:148-168 | no options is a ValueError, and a version that is absent or below 2 fails the assertion. Otherwise the supplementals are externalised first, and the manifest built from them is written to `path/manifest.pb`. The supplemental files written are the save path joined with each `save_as` name |
| ModelSave.ManifestInsidePath | model/orbax/experimental/model/core/python/save.py:165-166 | the manifest file's path starts with the save path and ends with `manifest.pb`, with at most one separator between them |
| Strings.StrLtTransitive | model/orbax/experimental/model/tf2obm/tree_util.py:117-118 | Python's string order is transitive (with irreflexivity, asymmetry and totality beside it) |
| Strings.SortedStrings | model/orbax/experimental/model/tf2obm/tree_util.py:118 | `sorted()` of a set of keys lists each key once, in strictly ascending order |
| Strings.SortedStringsIs | model/orbax/experimental/model/tf2obm/tree_util.py:118 | any strictly ascending listing of the keys is the sorted one |
| TreeUtil.TupleOrListConstructor | model/orbax/experimental/model/tf2obm/tree_util.py:52-56 | a tuple is rebuilt as a tuple; anything else as a list |
| TreeUtil.Build | model/orbax/experimental/model/tf2obm/tree_util.py:66 | the chosen constructor gives a tuple or list with exactly the given elements |
| TreeUtil.FlattenLists | model/orbax/experimental/model/tf2obm/tree_util.py:104-105 | every element of the result comes from one of the lists. FlattenListsAppend and FlattenListsLength fix the order |
| TreeUtil.FlattenListsAppend | model/orbax/experimental/model/tf2obm/tree_util.py:104-105 | concatenating lists distributes over appending |
| TreeUtil.FlattenListsLength | model/orbax/experimental/model/tf2obm/tree_util.py:104-105 | every list lands whole and in place in the concatenation |
| TreeUtil.TreeMap | model/orbax/experimental/model/tf2obm/tree_util.py:63-79 | each node keeps its kind, dict keys, dataclass type and field names, and length; a leaf becomes `f` of its value |
| TreeUtil.TreeMapCompose | model/orbax/experimental/model/tf2obm/tree_util.py:63-79 | mapping `f` then `g` is mapping their composition |
| TreeUtil.TreeMapIdentity | model/orbax/experimental/model/tf2obm/tree_util.py:63-79 | mapping the identity gives the tree back |
| TreeUtil.TreeMapKeepsSkeleton | model/orbax/experimental/model/tf2obm/tree_util.py:63-79 | `tree_map` preserves the whole structure; only leaf values change |
| TreeUtil.Flatten | model/orbax/experimental/model/tf2obm/tree_util.py:111-126 | the leaves in traversal order: lists, tuples and dataclass fields in order, dicts by ascending key (FlattenDictAscending), None gives none. FlattenTreeMap and UnflattenFlattenRoundTrip characterise it |
| TreeUtil.FlattenTreeMap | model/orbax/experimental/model/tf2obm/tree_util.py:111-126 | the leaves of `tree_map(f, t)` are `f` applied to the leaves of `t`, in order |
| TreeUtil.SkeletonLeafCount | model/orbax/experimental/model/tf2obm/tree_util.py:111-126 | trees of the same structure have the same number of leaves |
| TreeUtil.UnflattenFrom | model/orbax/experimental/model/tf2obm/tree_util.py:132-165 | `unflatten_with_iterator` with the iterator as an index. On success the index stays within the leaves; UnflattenFromSpec states exactly what it consumes and builds |
| TreeUtil.UnflattenFromSpec | model/orbax/experimental/model/tf2obm/tree_util.py:132-165 | from position i, unflattening consumes exactly as many leaves as the pattern has. It fails iff too few remain, and on success rebuilds the pattern's structure with those leaves in order |
| TreeUtil.Determined | model/orbax/experimental/model/tf2obm/tree_util.py:111-165 | a tree is determined by its structure and its leaves |
| TreeUtil.Unflatten | model/orbax/experimental/model/tf2obm/tree_util.py:171-178 | fails on too few leaves, raises "leaves left" on too many, and otherwise rebuilds the pattern (UnflattenSucceedsIff, UnflattenFlattenRoundTrip) |
| TreeUtil.UnflattenSucceedsIff | model/orbax/experimental/model/tf2obm/tree_util.py:171-178 | `unflatten(t, xs)` succeeds iff `xs` has one value per leaf. With too few it fails in the walk, with too many it raises "leaves left". On success the result has `t`'s structure and `xs` as leaves |
| TreeUtil.UnflattenMapFlatten | model/orbax/experimental/model/tf2obm/tree_util_test.py:123-143 | `unflatten(t, map(f, flatten(t))) == tree_map(f, t)` |
| TreeUtil.UnflattenFlattenRoundTrip | model/orbax/experimental/model/tf2obm/tree_util.py:111-178 | `unflatten(t, flatten(t)) == t` |
| TreeUtil.FlattenDictAscending | model/orbax/experimental/model/tf2obm/tree_util.py:115-118 | a dict's leaves come in ascending key order |
| TreeUtil.FlattenDictExample | model/orbax/experimental/model/tf2obm/tree_util_test.py:48 | `{"5": 5, "4": 4}` flattens to `[4, 5]` |
| ObmConfigs.StrictlyIncreasingOrdered | export/orbax/export/obm_configs.py:148-155 | the pairwise check makes the allowed sizes increase between any two positions |
| ObmConfigs.ValidateBatchOptions | export/orbax/export/obm_configs.py:119-198 | passes iff all of these hold: <br>- `max_batch_size >= 1`; <br>- a non-empty allowed list increases strictly and lies within `[1, max_batch_size]`; <br>- with splitting disabled, its last entry equals `max_batch_size`; <br>- the timeout is non-negative; <br>- the queue bound is at least 1. <br>Errors carry the low-priority flag, and `max_batch_size < 1` is reported first |
| ObmConfigs.AllowedWithinBounds | export/orbax/export/obm_configs.py:148-186 | the checks on a non-empty list put every allowed size in `[1, max_batch_size]` |
| ObmConfigs.InferMaxBatchSize | export/orbax/export/obm_configs.py:205-213 | a given maximum is kept. A missing one becomes the last allowed size, or raises when the list is empty or None |
| ObmConfigs.PostInitSucceedsIffWellFormed | export/orbax/export/obm_configs.py:200-249 | with batching, construction succeeds iff the resulting options are well formed (both maxima set and valid, threads at least 1); only the maxima change |
| ObmConfigs.NoBatchingUnchanged | export/orbax/export/obm_configs.py:202-203 | without batching nothing is checked or changed |
| ObmConfigs.PostInitIdempotent | export/orbax/export/obm_configs.py:200-249 | constructing again from a successful result succeeds and changes nothing |
| ObmConfigs.CheckOrder | export/orbax/export/obm_configs.py:205-249 | a missing maximum is reported before anything else. The thread-count error is raised iff the main options are valid and the count is below 1. A low-priority error means both earlier checks passed |
| ObmConfigs.LowPriorityBatchOptions.constructor | export/orbax/export/obm_configs.py:56-81 | the object holds exactly the four given low-priority settings |
| ObmConfigs.BatchOptions.PostInit | export/orbax/export/obm_configs.py:200-249 | the object's values and error are exactly those of `__post_init__` on its old values; only the two `max_batch_size` fields are written |
| ObmConfigs.BatchOptions.constructor | export/orbax/export/obm_configs.py:84-117 | the field assignments of the generated `__init__`: the configuration is exactly the given fields, with the caller's low-priority object shared. `New` adds the `__post_init__` call |
| ObmConfigs.BatchOptions.New | export/orbax/export/obm_configs.py:85-249 | `BatchOptions(...)`: fails iff `__post_init__` on the given configuration fails, with that error. Otherwise a fresh object holds its result. In both cases the caller's low-priority object ends in the state `__post_init__` leaves it in, which it updates in place |
| OcdbtUtils.StripAtEnd | checkpoint/orbax/checkpoint/_src/serialization/ocdbt_utils.py:28 | the key is kept, or it loses exactly a final `/` followed by dot-joined digit groups. Whenever such a suffix exists, it is removed |
| OcdbtUtils.StripShardingSuffix | checkpoint/orbax/checkpoint/_src/serialization/ocdbt_utils.py:89-90 | the same for `re.sub` with a `$` anchor: a key not ending in a newline loses its sharding suffix if it has one, and nothing else. A final newline is kept |
| OcdbtUtils.StripShardingSuffixExamples | checkpoint/orbax/checkpoint/_src/serialization/ocdbt_utils.py:89-90 | `b/0.0` and `b/0.1` become `b`, `a/0` becomes `a`, and `a/1/2` becomes `a/1` |
| OcdbtUtils.SuffixKeptExamples | checkpoint/orbax/checkpoint/_src/serialization/ocdbt_utils.py:89 | `a/.zarray` and `a/0.` are kept whole |
| OcdbtUtils.Classify | checkpoint/orbax/checkpoint/_src/serialization/ocdbt_utils.py:89-105 | a stripped key ending in `/.zarray` names its prefix as having metadata; any other stripped key names itself as having data |
| OcdbtUtils.NamesMembership | checkpoint/orbax/checkpoint/_src/serialization/ocdbt_utils.py:75-113 | a name is in each set iff some key classifies to it that way |
| OcdbtUtils.CollectParam | checkpoint/orbax/checkpoint/_src/serialization/ocdbt_utils.py:89-105 | one iteration of the key loop: the key's name goes to `with_zarray` for a `.zarray` key and to `without_zarray` otherwise |
| OcdbtUtils.NamesAppend | checkpoint/orbax/checkpoint/_src/serialization/ocdbt_utils.py:79-105 | the two sets of a listing are the unions of the sets of its parts, so they do not depend on how the listing is split |
| OcdbtUtils.CollectParams | checkpoint/orbax/checkpoint/_src/serialization/ocdbt_utils.py:75-113 | the key loop builds exactly the two sets |
| OcdbtUtils.ValidateParams | checkpoint/orbax/checkpoint/_src/serialization/ocdbt_utils.py:54-137 | zarr3, or an empty listing, is skipped. Otherwise names without data are reported first, then names without `.zarray`, each sorted and with the total count; it is valid iff the two sets agree |
| OcdbtUtils.ValidIffEveryNameComplete | checkpoint/orbax/checkpoint/_src/serialization/ocdbt_utils.py:115-137 | valid iff every name has both a `.zarray` key and a data key |
| OcdbtUtils.ZarrayKeyClass | checkpoint/orbax/checkpoint/_src/serialization/ocdbt_utils.py:89-94 | a key `n/.zarray` is not stripped and adds `n` to `with_zarray` |
| OcdbtUtils.DataKeyClass | checkpoint/orbax/checkpoint/_src/serialization/ocdbt_utils.py:89-105 | a key `n/d`, for digit groups `d` and a name not itself ending in `/.zarray`, adds `n` to `without_zarray` |
| OcdbtUtils.CommentKeyClasses | checkpoint/orbax/checkpoint/_src/serialization/ocdbt_utils.py:75-77 | each of the seven keys of the comment, with `b.zarray` read as `b/.zarray`, classifies as the comment's sets say |
| OcdbtUtils.CommentKeyNames | checkpoint/orbax/checkpoint/_src/serialization/ocdbt_utils.py:75-77 | for those seven keys, `with_zarray` is {a, b, d} and `without_zarray` is {a, b, c}, as the comment states |
| OcdbtUtils.CommentKeysValidation | checkpoint/orbax/checkpoint/_src/serialization/ocdbt_utils.py:75-130 | validating those keys raises the missing-params error first, listing `d` out of 4 params |
| OcdbtUtils.LiteralCommentKey | checkpoint/orbax/checkpoint/_src/serialization/ocdbt_utils.py:75-77 | the comment's `b.zarray`, read as written, has no `/` and is the data key of a param named `b.zarray`. So the comment's sets call for `b/.zarray` |
| OcdbtUtils.ProcessIndexForSubdir | checkpoint/orbax/checkpoint/_src/serialization/ocdbt_utils.py:206-214 | without OCDBT there is none. With it, the result is a non-empty override if given, and the process index otherwise |
| Limits.LimitInFlightBytes.constructor | checkpoint/orbax/checkpoint/_src/serialization/limits.py:37-41 | a new limiter has the whole budget available and nothing reserved |
| Limits.LimitInFlightBytes.New | checkpoint/orbax/checkpoint/_src/serialization/limits.py:37-41 | a non-positive budget is a ValueError; otherwise the new limiter has its whole budget available |
| Limits.LimitInFlightBytes.WaitForBytes | checkpoint/orbax/checkpoint/_src/serialization/limits.py:48-64 | a request of at least the budget is refused with nothing changed. Otherwise it moves from available to reserved; available plus reserved stays the budget, and a balanced limiter stays balanced |
| Limits.LimitInFlightBytes.ReleaseBytes | checkpoint/orbax/checkpoint/_src/serialization/limits.py:66-76 | adds the amount back and keeps available plus reserved equal to the budget. The assertion fails iff more was released than was reserved |
| Limits.GetByteLimiter | checkpoint/orbax/checkpoint/_src/serialization/limits.py:90-97 | no amount gives the unlimited limiter, and a non-positive one a ValueError; otherwise a fresh limiter with that budget |
| Limits.ReservedBytes | checkpoint/orbax/checkpoint/_src/serialization/limits.py:100-110 | the unlimited limiter never fails. A limited one ends with the balance it started with, whatever happens |
| RestoreArgs.Reconcile | checkpoint/orbax/checkpoint/_src/serialization/jax_array_restore_args.py:73-82 | fails iff both shapes are set and differ. Otherwise both end equal, keeping whichever was given |
| RestoreArgs.ReconcileIdempotent | checkpoint/orbax/checkpoint/_src/serialization/jax_array_restore_args.py:73-82 | reconciling a reconciled pair changes nothing |
| RestoreArgs.ArrayRestoreArgs.constructor | checkpoint/orbax/checkpoint/_src/serialization/jax_array_restore_args.py:61-71 | the field assignments of the generated `__init__`: the object holds exactly the given restore type, mesh, axes, sharding, shapes and strictness. `New` adds the `__post_init__` call |
| RestoreArgs.ArrayRestoreArgs.New | checkpoint/orbax/checkpoint/_src/serialization/jax_array_restore_args.py:61-82 | `ArrayRestoreArgs(...)`: fails iff both shapes are given and differ. Otherwise a fresh object holds the given fields with both shapes reconciled, so `shape=s` alone ends with `global_shape == s` |
| RestoreArgs.ArrayRestoreArgs.PostInit | checkpoint/orbax/checkpoint/_src/serialization/jax_array_restore_args.py:73-82 | writes only the two shapes. It fails and leaves them unchanged iff they conflict; otherwise they end equal |
| RestoreArgs.SingleReplicaArrayRestoreArgs.constructor | checkpoint/orbax/checkpoint/_src/serialization/jax_array_restore_args.py:85-100 | the field assignments of the generated `__init__`: the object extends the given base arguments with the given single-replica sharding. `New` adds the inherited `__post_init__` call |
| RestoreArgs.SingleReplicaArrayRestoreArgs.New | checkpoint/orbax/checkpoint/_src/serialization/jax_array_restore_args.py:61-100 | `SingleReplicaArrayRestoreArgs(...)`: fails iff the shapes conflict. Otherwise a fresh object and base hold the given fields with reconciled shapes and the given single-replica sharding |
| RestoreArgs.SingleReplicaArrayRestoreArgs.PostInit | checkpoint/orbax/checkpoint/_src/serialization/jax_array_restore_args.py:85-100 | the subclass runs the inherited reconciliation unchanged and leaves its own field alone |
| RestoreArgs.PostInitTwice | checkpoint/orbax/checkpoint/_src/serialization/jax_array_restore_args.py:73-82 | a second `__post_init__` after a successful first succeeds and leaves the shapes equal |

## Left out

- File system, asynchronous I/O and concurrency:
  - Directory listings and existence checks read a snapshot taken before
    the call.
  - `async_path`, `asyncio.gather` and the condition variable of the byte
    limiter are not modelled. A reservation that would wait is excluded by
    a precondition saying enough bytes are available.
- Path representation:
  - Paths are component sequences, so a name containing `/` is one
    component.
  - Listing a path that is not a directory yields nothing, whereas the
    source raises an OS error there (NotADirectoryError or
    FileNotFoundError). This happens in two places:
    - On the error path of `_validate_pytree`. `validate_pytree` wraps
      every exception as an InvalidLayoutError, so only the message differs.
    - In the V0 subdirectory search of `_try_resolve_pytree_checkpointable`,
      called directly on a layout whose path is a file. The source raises
      the OS error, which is not an InvalidLayoutError. The model fails with
      `UnresolvedCheckpointable(path, [])`, which it counts as one.
      `get_checkpoint_layout_pytree` never reaches this case, because
      `validate` has already required a directory.
- Orbax.PyTreeDir: a checkpointable name `..` is an ordinary child
  component. On disk, `path / ".."` is the parent directory when `path` is
  a directory, so the source can find `_METADATA` there where the model
  reports the name as missing. Resolving `..` needs the on-disk directory
  structure (symbolic links included), which component paths do not carry.
- Things the model takes as given rather than computing:
  - `temporary_paths.is_path_temporary` is an opaque predicate on the path.
  - The SafeTensors layout's `validate` and `validate_pytree` are opaque
    functions.
  - The location of the step metadata file (`_CHECKPOINT_METADATA` inside
    the checkpoint) is taken from the layout tests. The metadata
    serialization module is not part of this model.
- Orbax layout details:
  - `OrbaxLayout.metadata` and `load`, and the handler registry set up by
    the constructor, are not modelled. They delegate to code that is not
    part of this model.
  - `is_orbax_checkpoint` calls the asynchronous `validate` without
    awaiting it, so its answer does not reflect validation. It is not
    modelled.
- Error messages and logging:
  - Only what a message names (paths, names, directory lists) is kept, not
    its wording.
  - The TensorStore data check only decides a logged warning, reported as
    a boolean.
- Inputs to the saving code that are not part of this model:
  - `build_manifest_proto`, `write_inlined_data_to_file`,
    `file_utils.open_file` and proto serialisation are parameters.
  - The manifest file name `manifest.pb` is taken from the docstrings of
    save.py, because `manifest_constants` is not part of this model.
  - `write_inlined_data_to_file` is taken to write the file `path/save_as`;
    its returned reference is the writer parameter's result.
  - `function_aliases` is carried by the source's options but never read by
    the code modelled, so it is dropped.
- ModelSave.Save: records which files are written, not the order of the
  writes. The manifest is built from the already externalised
  supplementals, which is what fixes the order in the source.
- ModelSave.NamedVariablesAndFunctions: identity dictionaries become maps
  from arena handles. The module's `get_dict()` order is the order of the
  input list.
- ModelSave.NamedVariablesAndFunctions: every polymorphic function's
  `concrete_fns` are taken to be concrete functions (`WellFormed`). The
  source does not check this, and it behaves differently otherwise:
  - a Variable there would be named `key/concrete_i`;
  - an object of unknown type there would raise TypeError;
  - a nested polymorphic function would be expanded;
  - a polymorphic function reachable from its own `concrete_fns` would make
    the walk loop forever.
- Tree utilities:
  - Whether a dataclass is registered with JAX (`_is_registered_dataclass`)
    is the caller's choice of node. A dataclass that is not registered is
    a leaf.
  - `assert_tree` relies on JAX's tree traversal and is not modelled.
  - Named tuples are not distinguished from tuples.
- TreeUtil.FlattenTreeMap: leaf values are opaque. The values `f` returns
  are taken not to be None, lists, tuples, dicts or registered dataclasses,
  which the source would read as structure again. The docstring of
  `assert_tree` likewise calls a leaf any node that is not None, a list, a
  tuple or a dict.
- TreeUtil.UnflattenSucceedsIff: the leaves given to `unflatten` are taken
  to be opaque in the same way.
- TreeUtil.FlattenDictExample: only the dict part of the flatten test tree
  is worked through; the full nested tree is covered by the general
  lemmas.
- Strings: Python compares strings by code point, and so does Dafny's
  `char` order. Surrogate pairs are not modelled.
- OcdbtUtils.StripShardingSuffix: `\d` is taken to match the ASCII digits
  0-9. On `str` patterns Python's `\d` also matches the other Unicode
  decimal digits, which the model does not strip.
- OCDBT parameter listing:
  - Opening and listing the key-value store, UTF-8 decoding and
    `merge_ocdbt_per_process_files` are not modelled.
  - The listed keys are an input.
  - `multihost.process_index()` is a parameter.
- RestoreArgs: the mesh, partition spec, sharding and restore type are
  opaque handles. `SingleReplicaArrayRestoreArgs` holds its inherited
  fields in a base object.
- Constructor defaults: the constructors and `New` methods of
  `ObmConfigs.BatchOptions`, `ObmConfigs.LowPriorityBatchOptions`,
  `RestoreArgs.ArrayRestoreArgs` and
  `RestoreArgs.SingleReplicaArrayRestoreArgs` take every field explicitly. The dataclass defaults are not modelled:
  - `max_enqueued_batches = 250` and the other defaults in obm_configs.py;
  - `restore_type = jax.Array` and `strict = True` in
    jax_array_restore_args.py.
- RestoreArgs.ArrayRestoreArgs.constructor: stores the fields only. A
  Python dataclass's `__init__` also calls `__post_init__`; that whole
  construction is `RestoreArgs.ArrayRestoreArgs.New`, which calls the
  constructor and then `PostInit`.
- RestoreArgs.SingleReplicaArrayRestoreArgs.constructor: likewise stores the
  fields only; `RestoreArgs.SingleReplicaArrayRestoreArgs.New` is the whole
  construction.
- ObmConfigs.BatchOptions.constructor: likewise stores the fields only;
  `ObmConfigs.BatchOptions.New` is the whole construction.
- Limits.ReservedBytes: the guarded block between reserving and releasing
  is not modelled.
- The thin TF, JAX and numpy wrappers around `tree_map` are not part of
  this model. Neither are the benchmark and dispatcher files.
