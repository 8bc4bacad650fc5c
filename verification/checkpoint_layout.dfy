/** What the layout checks share: the layouts a path can be opened with,
    the failures they raise, and the parts of the environment this model
    takes as given. */
module CheckpointLayout {
  import opened Wrappers
  import opened Filesystem

  /** The `CheckpointLayout` option a caller asks for. */
  datatype LayoutTag = OrbaxTag | SafetensorsTag | UnsupportedTag(value: string)

  /** A layout object: its class and the path it is bound to. */
  datatype Layout = OrbaxLayout(path: Path) | SafetensorsLayout(path: Path)

  /** Every failure of layout resolution, with the exception it is raised
      as. The wrapping failures keep the failure they were raised from. */
  datatype Failure =
    | PathMissing(path: Path)                         // FileNotFoundError
    | NotADirectory(path: Path)                       // NotADirectoryError
    | IncompleteCheckpoint(path: Path)                // ValueError: a temporary path
    | NotRecognised(path: Path)                       // FileNotFoundError: no marker found
    | CheckpointableMissing(path: Path, name: string, subdirs: seq<string>)  // FileNotFoundError
    | PyTreeMetadataMissing(path: Path)               // FileNotFoundError
    | NotAnOrbaxCheckpoint(path: Path, cause: Failure)    // InvalidLayoutError from `validate`
    | NotAnOrbaxPyTree(path: Path, cause: Failure)        // InvalidLayoutError from `validate_pytree`
    | NotRecognisedAs(path: Path, tag: LayoutTag, cause: Failure)  // InvalidLayoutError from the registry
    | UnsupportedLayout(tag: LayoutTag)               // ValueError
    | NotAnOrbaxLayout                                // AssertionError
    | UnresolvedCheckpointable(path: Path, dirNames: seq<string>)  // InvalidLayoutError
    | SafetensorsFailure(path: Path, invalidLayout: bool)  // raised by the SafeTensors layout
  {
    /** Raised as `InvalidLayoutError`. */
    predicate IsInvalidLayoutError()
    {
      || NotAnOrbaxCheckpoint? || NotAnOrbaxPyTree? || NotRecognisedAs?
      || UnresolvedCheckpointable? || (SafetensorsFailure? && invalidLayout)
    }
  }

  /** What the model does not compute itself: whether a path is a
      temporary (unfinished) checkpoint, and the SafeTensors layout's own
      checks. */
  datatype Env = Env(
    isTemporary: Path -> bool,
    safetensorsValidate: (Snapshot, Path) -> Option<Failure>,
    safetensorsValidatePyTree: (Snapshot, Path, Option<string>) -> Option<Failure>)
}
