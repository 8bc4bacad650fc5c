/** Restore arguments for array restoration
    (serialization/jax_array_restore_args.py). `shape` and `global_shape`
    are interchangeable: after construction (`New`, which runs `__post_init__`
    the way the dataclass's `__init__` does) both hold the same value or the
    construction fails. Mesh, partition spec, sharding and restore type are
    JAX objects; here they are opaque handles that the model only carries. */
module RestoreArgs {
  import opened Wrappers

  type Shape = seq<int>

  datatype RestoreArgsError = ShapeMismatch(shape: Shape, globalShape: Shape)

  /** The reconciliation rule of `__post_init__` on plain values: both set and
      different is an error; otherwise the missing one takes the other's value. */
  function Reconcile(shape: Option<Shape>, globalShape: Option<Shape>)
    : (r: Result<(Option<Shape>, Option<Shape>), RestoreArgsError>)
    ensures r.Failure? <==> shape.Some? && globalShape.Some? && shape != globalShape
    ensures r.Failure? ==> r.error == ShapeMismatch(shape.value, globalShape.value)
    ensures r.Success? ==> r.value.0 == r.value.1
    ensures r.Success? && shape.Some? ==> r.value.0 == shape
    ensures r.Success? && globalShape.Some? ==> r.value.1 == globalShape
    ensures r.Success? && shape.None? && globalShape.None? ==> r.value == (None, None)
  {
    if shape.Some? && globalShape.Some? then
      if shape != globalShape then Failure(ShapeMismatch(shape.value, globalShape.value))
      else Success((shape, globalShape))
    else if shape.None? then Success((globalShape, globalShape))
    else Success((shape, shape))
  }

  /** Reconciling an already reconciled pair changes nothing, so running
      `__post_init__` a second time is a no-op. */
  lemma ReconcileIdempotent(shape: Option<Shape>, globalShape: Option<Shape>)
    requires Reconcile(shape, globalShape).Success?
    ensures var (s, g) := Reconcile(shape, globalShape).value;
      Reconcile(s, g) == Success((s, g))
  {
  }

  /** `ArrayRestoreArgs`. */
  class ArrayRestoreArgs {
    var restoreType: Option<int>
    var mesh: Option<int>
    var meshAxes: Option<int>
    var sharding: Option<int>
    var globalShape: Option<Shape>
    var shape: Option<Shape>
    var strict: bool

    /** The field assignments of the generated `__init__`, before it calls
        `__post_init__`; `New` is the whole construction. */
    constructor (restoreType: Option<int>, mesh: Option<int>, meshAxes: Option<int>,
                 sharding: Option<int>, globalShape: Option<Shape>, shape: Option<Shape>,
                 strict: bool)
      ensures this.restoreType == restoreType && this.mesh == mesh
      ensures this.meshAxes == meshAxes && this.sharding == sharding
      ensures this.globalShape == globalShape && this.shape == shape
      ensures this.strict == strict
    {
      this.restoreType := restoreType;
      this.mesh := mesh;
      this.meshAxes := meshAxes;
      this.sharding := sharding;
      this.globalShape := globalShape;
      this.shape := shape;
      this.strict := strict;
    }

    /** `ArrayRestoreArgs(...)`: the fields are stored and `__post_init__`
        runs, so the new object holds reconciled shapes, or the construction
        raises the shape mismatch. */
    static method New(restoreType: Option<int>, mesh: Option<int>, meshAxes: Option<int>,
                      sharding: Option<int>, globalShape: Option<Shape>, shape: Option<Shape>,
                      strict: bool)
      returns (r: Result<ArrayRestoreArgs, RestoreArgsError>)
      ensures r.Failure? <==> Reconcile(shape, globalShape).Failure?
      ensures r.Failure? ==> r.error == Reconcile(shape, globalShape).error
      ensures r.Success? ==> fresh(r.value)
      ensures r.Success? ==>
        (r.value.shape, r.value.globalShape) == Reconcile(shape, globalShape).value
      ensures r.Success? ==> r.value.restoreType == restoreType && r.value.mesh == mesh
      ensures r.Success? ==> r.value.meshAxes == meshAxes && r.value.sharding == sharding
      ensures r.Success? ==> r.value.strict == strict
    {
      var a := new ArrayRestoreArgs(restoreType, mesh, meshAxes, sharding, globalShape, shape, strict);
      var err := a.PostInit();
      if err.Some? {
        return Failure(err.value);
      }
      return Success(a);
    }

    /** `__post_init__`: fills in whichever of `shape` and `global_shape` is
        missing, or fails when both are set and differ. Only those two fields
        may change. */
    method PostInit() returns (err: Option<RestoreArgsError>)
      modifies this`shape, this`globalShape
      ensures err.Some? <==> Reconcile(old(shape), old(globalShape)).Failure?
      ensures err.Some? ==> err.value == Reconcile(old(shape), old(globalShape)).error
      ensures err.Some? ==> shape == old(shape) && globalShape == old(globalShape)
      ensures err.None? ==> (shape, globalShape) == Reconcile(old(shape), old(globalShape)).value
      ensures err.None? ==> shape == globalShape
    {
      if shape.Some? && globalShape.Some? {
        if shape != globalShape {
          return Some(ShapeMismatch(shape.value, globalShape.value));
        }
      } else if shape.None? {
        shape := globalShape;
      } else if globalShape.None? {
        globalShape := shape;
      }
      return None;
    }
  }

  /** `SingleReplicaArrayRestoreArgs`: the inherited fields live in `base`,
      and the reconciliation is the inherited one, unchanged. */
  class SingleReplicaArrayRestoreArgs {
    const base: ArrayRestoreArgs
    var singleReplicaSharding: Option<int>

    /** The field assignments of the generated `__init__`, before it calls the
        inherited `__post_init__`; `New` is the whole construction. */
    constructor (base: ArrayRestoreArgs, singleReplicaSharding: Option<int>)
      ensures this.base == base && this.singleReplicaSharding == singleReplicaSharding
    {
      this.base := base;
      this.singleReplicaSharding := singleReplicaSharding;
    }

    /** `SingleReplicaArrayRestoreArgs(...)`: the inherited and own fields are
        stored and the inherited `__post_init__` runs. */
    static method New(restoreType: Option<int>, mesh: Option<int>, meshAxes: Option<int>,
                      sharding: Option<int>, globalShape: Option<Shape>, shape: Option<Shape>,
                      strict: bool, singleReplicaSharding: Option<int>)
      returns (r: Result<SingleReplicaArrayRestoreArgs, RestoreArgsError>)
      ensures r.Failure? <==> Reconcile(shape, globalShape).Failure?
      ensures r.Failure? ==> r.error == Reconcile(shape, globalShape).error
      ensures r.Success? ==> fresh(r.value) && fresh(r.value.base)
      ensures r.Success? ==>
        (r.value.base.shape, r.value.base.globalShape) == Reconcile(shape, globalShape).value
      ensures r.Success? ==> r.value.base.restoreType == restoreType && r.value.base.mesh == mesh
      ensures r.Success? ==> r.value.base.meshAxes == meshAxes && r.value.base.sharding == sharding
      ensures r.Success? ==> r.value.base.strict == strict
      ensures r.Success? ==> r.value.singleReplicaSharding == singleReplicaSharding
    {
      var base := new ArrayRestoreArgs(restoreType, mesh, meshAxes, sharding, globalShape, shape, strict);
      var a := new SingleReplicaArrayRestoreArgs(base, singleReplicaSharding);
      var err := a.PostInit();
      if err.Some? {
        return Failure(err.value);
      }
      return Success(a);
    }

    method PostInit() returns (err: Option<RestoreArgsError>)
      modifies base`shape, base`globalShape
      ensures err.Some? <==> Reconcile(old(base.shape), old(base.globalShape)).Failure?
      ensures err.Some? ==> err.value == Reconcile(old(base.shape), old(base.globalShape)).error
      ensures err.None? ==>
        (base.shape, base.globalShape) == Reconcile(old(base.shape), old(base.globalShape)).value
      ensures err.Some? ==> base.shape == old(base.shape) && base.globalShape == old(base.globalShape)
      ensures singleReplicaSharding == old(singleReplicaSharding)
    {
      err := base.PostInit();
    }
  }

  /** A second `__post_init__` on a successfully initialised object succeeds
      and changes nothing. */
  method PostInitTwice(a: ArrayRestoreArgs) returns (first: Option<RestoreArgsError>, second: Option<RestoreArgsError>)
    modifies a`shape, a`globalShape
    ensures first.None? ==> second.None? && a.shape == a.globalShape
    ensures first.None? <==> Reconcile(old(a.shape), old(a.globalShape)).Success?
    ensures first.None? ==> (a.shape, a.globalShape) == Reconcile(old(a.shape), old(a.globalShape)).value
  {
    first := a.PostInit();
    if first.None? {
      ghost var s, g := a.shape, a.globalShape;
      ReconcileIdempotent(old(a.shape), old(a.globalShape));
      second := a.PostInit();
      assert a.shape == s && a.globalShape == g;
    } else {
      second := first;
    }
  }
}
