/** Generic tree utilities of the TF-to-OBM converter (tf2obm/tree_util.py).
    A tree is None, a leaf, a list, a tuple, a string-keyed dict or a
    dataclass registered with JAX. A dataclass that is not registered is a
    leaf like any other value, so the caller decides by choosing `Leaf` or
    `Dataclass`. Dicts are compared as Python compares them, regardless of
    insertion order, so a dict is a `map`; every traversal visits its
    values in ascending key order. */
module TreeUtil {
  import opened Wrappers
  import opened Strings

  datatype Tree<L> =
    | Nil
    | Leaf(value: L)
    | List(elems: seq<Tree<L>>)
    | Tuple(elems: seq<Tree<L>>)
    | Dict(entries: map<string, Tree<L>>)
    | Dataclass(typeName: string, fieldNames: seq<string>, fieldValues: seq<Tree<L>>)

  /** The two sequence constructors `tuple_or_list_constructor` chooses between. */
  datatype SequenceKind = TupleKind | ListKind

  /** `tuple_or_list_constructor`: a tuple is rebuilt as a tuple, anything
      else as a list. */
  function TupleOrListConstructor<L>(t: Tree<L>): (r: SequenceKind)
    ensures r == TupleKind <==> t.Tuple?
    ensures r == ListKind <==> !t.Tuple?
  {
    if t.Tuple? then TupleKind else ListKind
  }

  /** Applying the chosen constructor to new elements. */
  function Build<L>(kind: SequenceKind, elems: seq<Tree<L>>): (r: Tree<L>)
    ensures r.Tuple? <==> kind == TupleKind
    ensures r.List? <==> kind == ListKind
    ensures (r.List? || r.Tuple?) && r.elems == elems
  {
    match kind
    case TupleKind => Tuple(elems)
    case ListKind => List(elems)
  }

  /** `flatten_lists`: the lists concatenated in order. */
  function FlattenLists<T>(lists: seq<seq<T>>): (r: seq<T>)
    ensures forall x :: x in r ==> exists l :: l in lists && x in l
  {
    if lists == [] then [] else lists[0] + FlattenLists(lists[1..])
  }

  lemma {:induction false} FlattenListsAppend<T>(a: seq<seq<T>>, b: seq<seq<T>>)
    ensures FlattenLists(a + b) == FlattenLists(a) + FlattenLists(b)
  {
    if a == [] {
      assert a + b == b;
    } else {
      assert (a + b)[1..] == a[1..] + b;
      FlattenListsAppend(a[1..], b);
    }
  }

  /** Every list contributes its whole length. */
  lemma {:induction false} FlattenListsLength<T>(lists: seq<seq<T>>, i: nat)
    requires i < |lists|
    ensures |FlattenLists(lists[..i])| + |lists[i]| + |FlattenLists(lists[i + 1..])| == |FlattenLists(lists)|
    ensures FlattenLists(lists) == FlattenLists(lists[..i]) + lists[i] + FlattenLists(lists[i + 1..])
  {
    assert lists == lists[..i] + [lists[i]] + lists[i + 1..];
    FlattenListsAppend(lists[..i] + [lists[i]], lists[i + 1..]);
    FlattenListsAppend(lists[..i], [lists[i]]);
    assert FlattenLists([lists[i]]) == lists[i] + FlattenLists([]);
  }

  /** `flatten`: the leaves from left to right, dict values in ascending key
      order, dataclass fields in declaration order, nothing for None. */
  function Flatten<L>(t: Tree<L>): seq<L>
    decreases t, 1
  {
    match t
    case Nil => []
    case Leaf(x) => [x]
    case List(es) => FlattenAll(es)
    case Tuple(es) => FlattenAll(es)
    case Dict(m) => FlattenKeys(m, SortedStrings(m.Keys))
    case Dataclass(_, _, vs) => FlattenAll(vs)
  }

  /** `flatten_lists(list(flatten(x) for x in xs))`. */
  function FlattenAll<L>(es: seq<Tree<L>>): seq<L>
    decreases es, 0
  {
    FlattenLists(seq(|es|, i requires 0 <= i < |es| => Flatten(es[i])))
  }

  /** The values of `m` under `keys`, flattened one after the other. */
  function FlattenKeys<L>(m: map<string, Tree<L>>, keys: seq<string>): seq<L>
    requires forall k :: k in keys ==> k in m
    decreases Dict(m), 0
  {
    FlattenLists(seq(|keys|, i requires 0 <= i < |keys| => Flatten(m[keys[i]])))
  }

  lemma FlattenAllCons<L>(es: seq<Tree<L>>)
    requires es != []
    ensures FlattenAll(es) == Flatten(es[0]) + FlattenAll(es[1..])
  {
    var s := seq(|es|, i requires 0 <= i < |es| => Flatten(es[i]));
    assert s[1..] == seq(|es[1..]|, i requires 0 <= i < |es[1..]| => Flatten(es[1..][i]));
  }

  lemma FlattenKeysCons<L>(m: map<string, Tree<L>>, keys: seq<string>)
    requires forall k :: k in keys ==> k in m
    requires keys != []
    ensures FlattenKeys(m, keys) == Flatten(m[keys[0]]) + FlattenKeys(m, keys[1..])
  {
    var s := seq(|keys|, i requires 0 <= i < |keys| => Flatten(m[keys[i]]));
    assert s[1..] == seq(|keys[1..]|, i requires 0 <= i < |keys[1..]| => Flatten(m[keys[1..][i]]));
  }

  /** `map(f, leaves)`. */
  function MapLeaves<A, B>(f: A -> B, xs: seq<A>): (r: seq<B>)
    ensures |r| == |xs|
    ensures forall i :: 0 <= i < |xs| ==> r[i] == f(xs[i])
  {
    seq(|xs|, i requires 0 <= i < |xs| => f(xs[i]))
  }

  /** `tree_map`: `f` on every leaf, every container rebuilt with the same
      kind, the same dict keys and the same dataclass type. */
  function TreeMap<A, B>(f: A -> B, t: Tree<A>): (r: Tree<B>)
    ensures t.Nil? <==> r.Nil?
    ensures t.Leaf? <==> r.Leaf?
    ensures t.List? <==> r.List?
    ensures t.Tuple? <==> r.Tuple?
    ensures t.Dict? <==> r.Dict?
    ensures t.Dataclass? <==> r.Dataclass?
    ensures t.Leaf? ==> r.value == f(t.value)
    ensures t.List? || t.Tuple? ==> |r.elems| == |t.elems|
    ensures t.Dict? ==> r.entries.Keys == t.entries.Keys
    ensures t.Dataclass? ==>
      r.typeName == t.typeName && r.fieldNames == t.fieldNames && |r.fieldValues| == |t.fieldValues|
    decreases t, 1
  {
    match t
    case Nil => Nil
    case Leaf(x) => Leaf(f(x))
    case List(es) => Build(TupleOrListConstructor(t), MapEach(f, es))
    case Tuple(es) => Build(TupleOrListConstructor(t), MapEach(f, es))
    case Dict(m) => Dict(MapValues(f, m))
    case Dataclass(n, fs, vs) => Dataclass(n, fs, MapEach(f, vs))
  }

  function MapEach<A, B>(f: A -> B, es: seq<Tree<A>>): (r: seq<Tree<B>>)
    ensures |r| == |es|
    decreases es, 0
  {
    seq(|es|, i requires 0 <= i < |es| => TreeMap(f, es[i]))
  }

  function MapValues<A, B>(f: A -> B, m: map<string, Tree<A>>): (r: map<string, Tree<B>>)
    ensures r.Keys == m.Keys
    decreases Dict(m), 0
  {
    map k | k in m :: TreeMap(f, m[k])
  }

  datatype UnflattenError =
    | TooFewLeaves    // `next(it)` raised StopIteration at a leaf position
    | TooManyLeaves   // "After unflattening, there are still leaves left."

  /** `unflatten_with_iterator`, with the iterator's position threaded
      through as an index into `xs`. On success the second component is
      the position after the last leaf consumed. */
  function UnflattenFrom<A, B>(t: Tree<A>, xs: seq<B>, i: nat): (r: Result<(Tree<B>, nat), UnflattenError>)
    requires i <= |xs|
    ensures r.Success? ==> i <= r.value.1 <= |xs|
    decreases t, 1
  {
    match t
    case Nil => Success((Nil, i))
    case Leaf(_) => if i == |xs| then Failure(TooFewLeaves) else Success((Leaf(xs[i]), i + 1))
    case List(es) =>
      (match UnflattenEach(es, xs, i)
       case Failure(e) => Failure(e)
       case Success((rs, j)) => Success((Build(TupleOrListConstructor(t), rs), j)))
    case Tuple(es) =>
      (match UnflattenEach(es, xs, i)
       case Failure(e) => Failure(e)
       case Success((rs, j)) => Success((Build(TupleOrListConstructor(t), rs), j)))
    case Dict(m) =>
      (match UnflattenKeys(m, SortedStrings(m.Keys), xs, i)
       case Failure(e) => Failure(e)
       case Success((rm, j)) => Success((Dict(rm), j)))
    case Dataclass(n, fs, vs) =>
      (match UnflattenEach(vs, xs, i)
       case Failure(e) => Failure(e)
       case Success((rs, j)) => Success((Dataclass(n, fs, rs), j)))
  }

  /** The element loop of the list and tuple case, also used for the
      fields of a dataclass. */
  function UnflattenEach<A, B>(es: seq<Tree<A>>, xs: seq<B>, i: nat)
    : (r: Result<(seq<Tree<B>>, nat), UnflattenError>)
    requires i <= |xs|
    ensures r.Success? ==> i <= r.value.1 <= |xs|
    decreases es, 0
  {
    if es == [] then Success(([], i))
    else
      match UnflattenFrom(es[0], xs, i)
      case Failure(e) => Failure(e)
      case Success((r0, j)) =>
        match UnflattenEach(es[1..], xs, j)
        case Failure(e) => Failure(e)
        case Success((rs, k)) => Success(([r0] + rs, k))
  }

  /** The dict loop: the values under `keys` in that order, collected as
      `dict(pairs)`. */
  function UnflattenKeys<A, B>(m: map<string, Tree<A>>, keys: seq<string>, xs: seq<B>, i: nat)
    : (r: Result<(map<string, Tree<B>>, nat), UnflattenError>)
    requires forall k :: k in keys ==> k in m
    requires i <= |xs|
    ensures r.Success? ==> i <= r.value.1 <= |xs|
    decreases Dict(m), 0, |keys|
  {
    if keys == [] then Success((map[], i))
    else
      match UnflattenFrom(m[keys[0]], xs, i)
      case Failure(e) => Failure(e)
      case Success((v, j)) =>
        match UnflattenKeys(m, keys[1..], xs, j)
        case Failure(e) => Failure(e)
        case Success((rest, k)) => Success((rest[keys[0] := v], k))
  }

  /** `unflatten`: rebuild `t`'s shape from `xs`, which must hold exactly
      as many leaves as `t` has. */
  function Unflatten<A, B>(t: Tree<A>, xs: seq<B>): Result<Tree<B>, UnflattenError>
  {
    match UnflattenFrom(t, xs, 0)
    case Failure(e) => Failure(e)
    case Success((r, j)) => if j < |xs| then Failure(TooManyLeaves) else Success(r)
  }

  // ---------------------------------------------------------------------
  // Structure

  function Unit<L>(x: L): ()
  {
    ()
  }

  /** The shape of a tree: container kinds, dict keys, dataclass types and
      leaf positions, with the leaf values forgotten. */
  function Skeleton<L>(t: Tree<L>): Tree<()>
  {
    TreeMap(Unit, t)
  }

  /** Mapping twice is mapping with the composition. */
  lemma {:induction false} TreeMapCompose<A, B, C>(f: A -> B, g: B -> C, h: A -> C, t: Tree<A>)
    requires forall x :: h(x) == g(f(x))
    ensures TreeMap(g, TreeMap(f, t)) == TreeMap(h, t)
    decreases t
  {
    match t
    case Nil =>
    case Leaf(_) =>
    case List(es) =>
      forall i | 0 <= i < |es| ensures TreeMap(g, TreeMap(f, es[i])) == TreeMap(h, es[i]) {
        TreeMapCompose(f, g, h, es[i]);
      }
      assert MapEach(g, MapEach(f, es)) == MapEach(h, es);
    case Tuple(es) =>
      forall i | 0 <= i < |es| ensures TreeMap(g, TreeMap(f, es[i])) == TreeMap(h, es[i]) {
        TreeMapCompose(f, g, h, es[i]);
      }
      assert MapEach(g, MapEach(f, es)) == MapEach(h, es);
    case Dict(m) =>
      forall k | k in m ensures TreeMap(g, TreeMap(f, m[k])) == TreeMap(h, m[k]) {
        TreeMapCompose(f, g, h, m[k]);
      }
      assert MapValues(g, MapValues(f, m)) == MapValues(h, m);
    case Dataclass(_, _, vs) =>
      forall i | 0 <= i < |vs| ensures TreeMap(g, TreeMap(f, vs[i])) == TreeMap(h, vs[i]) {
        TreeMapCompose(f, g, h, vs[i]);
      }
      assert MapEach(g, MapEach(f, vs)) == MapEach(h, vs);
  }

  /** Mapping the identity gives the tree back. */
  lemma {:induction false} TreeMapIdentity<L>(f: L -> L, t: Tree<L>)
    requires forall x :: f(x) == x
    ensures TreeMap(f, t) == t
    decreases t
  {
    match t
    case Nil =>
    case Leaf(_) =>
    case List(es) =>
      forall i | 0 <= i < |es| ensures TreeMap(f, es[i]) == es[i] {
        TreeMapIdentity(f, es[i]);
      }
      assert MapEach(f, es) == es;
    case Tuple(es) =>
      forall i | 0 <= i < |es| ensures TreeMap(f, es[i]) == es[i] {
        TreeMapIdentity(f, es[i]);
      }
      assert MapEach(f, es) == es;
    case Dict(m) =>
      forall k | k in m ensures TreeMap(f, m[k]) == m[k] {
        TreeMapIdentity(f, m[k]);
      }
      assert MapValues(f, m) == m;
    case Dataclass(_, _, vs) =>
      forall i | 0 <= i < |vs| ensures TreeMap(f, vs[i]) == vs[i] {
        TreeMapIdentity(f, vs[i]);
      }
      assert MapEach(f, vs) == vs;
  }

  /** `tree_map` keeps the structure: only leaf values change. */
  lemma TreeMapKeepsSkeleton<A, B>(f: A -> B, t: Tree<A>)
    ensures Skeleton(TreeMap(f, t)) == Skeleton(t)
  {
    TreeMapCompose(f, Unit, Unit, t);
  }

  // ---------------------------------------------------------------------
  // Leaves of a mapped tree

  /** The leaves of `tree_map(f, t)` are `f` applied to the leaves of `t`,
      in the same order. */
  lemma {:induction false} FlattenTreeMap<A, B>(f: A -> B, t: Tree<A>)
    ensures Flatten(TreeMap(f, t)) == MapLeaves(f, Flatten(t))
    decreases t, 1
  {
    match t
    case Nil =>
    case Leaf(_) =>
    case List(es) => FlattenAllTreeMap(f, es);
    case Tuple(es) => FlattenAllTreeMap(f, es);
    case Dict(m) => FlattenKeysTreeMap(f, m, SortedStrings(m.Keys));
    case Dataclass(_, _, vs) => FlattenAllTreeMap(f, vs);
  }

  lemma {:induction false} FlattenAllTreeMap<A, B>(f: A -> B, es: seq<Tree<A>>)
    ensures FlattenAll(MapEach(f, es)) == MapLeaves(f, FlattenAll(es))
    decreases es, 0
  {
    if es != [] {
      var mes := MapEach(f, es);
      FlattenAllCons(es);
      FlattenAllCons(mes);
      assert mes[1..] == MapEach(f, es[1..]);
      FlattenTreeMap(f, es[0]);
      FlattenAllTreeMap(f, es[1..]);
      MapLeavesAppend(f, Flatten(es[0]), FlattenAll(es[1..]));
    }
  }

  lemma {:induction false} FlattenKeysTreeMap<A, B>(f: A -> B, m: map<string, Tree<A>>, keys: seq<string>)
    requires forall k :: k in keys ==> k in m
    ensures FlattenKeys(MapValues(f, m), keys) == MapLeaves(f, FlattenKeys(m, keys))
    decreases Dict(m), 0, |keys|
  {
    if keys != [] {
      FlattenKeysCons(m, keys);
      FlattenKeysCons(MapValues(f, m), keys);
      FlattenTreeMap(f, m[keys[0]]);
      FlattenKeysTreeMap(f, m, keys[1..]);
      MapLeavesAppend(f, Flatten(m[keys[0]]), FlattenKeys(m, keys[1..]));
    }
  }

  lemma MapLeavesAppend<A, B>(f: A -> B, a: seq<A>, b: seq<A>)
    ensures MapLeaves(f, a + b) == MapLeaves(f, a) + MapLeaves(f, b)
  {
    var whole, parts := MapLeaves(f, a + b), MapLeaves(f, a) + MapLeaves(f, b);
    forall i | 0 <= i < |a + b| ensures whole[i] == parts[i] {
      if i < |a| {
        assert (a + b)[i] == a[i];
      } else {
        assert (a + b)[i] == b[i - |a|];
      }
    }
  }

  /** Trees of the same shape have the same number of leaves. */
  lemma SkeletonLeafCount<A, B>(a: Tree<A>, b: Tree<B>)
    requires Skeleton(a) == Skeleton(b)
    ensures |Flatten(a)| == |Flatten(b)|
  {
    FlattenTreeMap(Unit, a);
    FlattenTreeMap(Unit, b);
  }

  // ---------------------------------------------------------------------
  // Unflattening

  predicate Distinct(keys: seq<string>)
  {
    forall a, b :: 0 <= a < b < |keys| ==> keys[a] != keys[b]
  }

  lemma SortedDistinct(keys: seq<string>)
    requires StrictlySorted(keys)
    ensures Distinct(keys)
  {
    forall a, b | 0 <= a < b < |keys| ensures keys[a] != keys[b] {
      StrLtIrreflexive(keys[a]);
    }
  }

  /** Starting at position `i`, unflattening consumes exactly as many
      values as the structure has leaves, fails with StopIteration when
      fewer are left, and yields a tree of the same shape whose leaves are
      the consumed values in order. */
  lemma {:induction false} UnflattenFromSpec<A, B>(t: Tree<A>, xs: seq<B>, i: nat)
    requires i <= |xs|
    ensures var r := UnflattenFrom(t, xs, i);
      && (r.Success? <==> i + |Flatten(t)| <= |xs|)
      && (r.Failure? ==> r.error == TooFewLeaves)
      && (r.Success? ==>
            && r.value.1 == i + |Flatten(t)|
            && Flatten(r.value.0) == xs[i..r.value.1]
            && Skeleton(r.value.0) == Skeleton(t))
    decreases t, 2
  {
    match t
    case Nil =>
    case Leaf(_) =>
    case List(es) =>
      UnflattenEachSpec(es, xs, i);
      var r := UnflattenEach(es, xs, i);
      if r.Success? {
        SkeletonOfElems(t, Build(TupleOrListConstructor(t), r.value.0));
      }
    case Tuple(es) =>
      UnflattenEachSpec(es, xs, i);
      var r := UnflattenEach(es, xs, i);
      if r.Success? {
        SkeletonOfElems(t, Build(TupleOrListConstructor(t), r.value.0));
      }
    case Dict(m) => UnflattenDictSpec(m, xs, i);
    case Dataclass(n, fs, vs) =>
      UnflattenEachSpec(vs, xs, i);
      var r := UnflattenEach(vs, xs, i);
      if r.Success? {
        SkeletonOfElems(t, Dataclass(n, fs, r.value.0));
      }
  }

  lemma {:induction false} UnflattenDictSpec<A, B>(m: map<string, Tree<A>>, xs: seq<B>, i: nat)
    requires i <= |xs|
    ensures var r := UnflattenFrom(Dict(m), xs, i);
      && (r.Success? <==> i + |Flatten(Dict(m))| <= |xs|)
      && (r.Failure? ==> r.error == TooFewLeaves)
      && (r.Success? ==>
            && r.value.1 == i + |Flatten(Dict(m))|
            && Flatten(r.value.0) == xs[i..r.value.1]
            && Skeleton(r.value.0) == Skeleton(Dict(m)))
    decreases Dict(m), 1
  {
    var keys := SortedStrings(m.Keys);
    SortedDistinct(keys);
    UnflattenKeysSpec(m, keys, xs, i);
    var r := UnflattenKeys(m, keys, xs, i);
    assert Flatten(Dict(m)) == FlattenKeys(m, keys);
    if r.Success? {
      var rm := r.value.0;
      assert rm.Keys == m.Keys;
      assert Flatten(Dict(rm)) == FlattenKeys(rm, keys);
      DictSkeleton(m, rm);
    }
  }

  /** Dicts with the same keys and value-wise equal shapes have the same shape. */
  lemma DictSkeleton<A, B>(m: map<string, Tree<A>>, n: map<string, Tree<B>>)
    requires n.Keys == m.Keys
    requires forall k :: k in m ==> Skeleton(n[k]) == Skeleton(m[k])
    ensures Skeleton(Dict(n)) == Skeleton(Dict(m))
  {
    assert MapValues(Unit, n) == MapValues(Unit, m);
  }

  /** Two sequence-like nodes of the same kind with element-wise equal
      shapes have the same shape. */
  lemma SkeletonOfElems<A, B>(a: Tree<A>, b: Tree<B>)
    requires (a.List? && b.List?) || (a.Tuple? && b.Tuple?) || (a.Dataclass? && b.Dataclass?)
    requires a.Dataclass? ==> a.typeName == b.typeName && a.fieldNames == b.fieldNames
    requires var ea := if a.Dataclass? then a.fieldValues else a.elems;
      var eb := if b.Dataclass? then b.fieldValues else b.elems;
      |ea| == |eb| && forall j :: 0 <= j < |ea| ==> Skeleton(ea[j]) == Skeleton(eb[j])
    ensures Skeleton(a) == Skeleton(b)
  {
    var ea := if a.Dataclass? then a.fieldValues else a.elems;
    var eb := if b.Dataclass? then b.fieldValues else b.elems;
    assert MapEach(Unit, ea) == MapEach(Unit, eb);
  }

  lemma {:induction false} UnflattenEachSpec<A, B>(es: seq<Tree<A>>, xs: seq<B>, i: nat)
    requires i <= |xs|
    ensures var r := UnflattenEach(es, xs, i);
      && (r.Success? <==> i + |FlattenAll(es)| <= |xs|)
      && (r.Failure? ==> r.error == TooFewLeaves)
      && (r.Success? ==>
            && r.value.1 == i + |FlattenAll(es)|
            && |r.value.0| == |es|
            && FlattenAll(r.value.0) == xs[i..r.value.1]
            && forall j :: 0 <= j < |es| ==> Skeleton(r.value.0[j]) == Skeleton(es[j]))
    decreases es, 0
  {
    if es != [] {
      FlattenAllCons(es);
      UnflattenFromSpec(es[0], xs, i);
      var r0 := UnflattenFrom(es[0], xs, i);
      if r0.Success? {
        var (t0, j) := r0.value;
        UnflattenEachSpec(es[1..], xs, j);
        var rest := UnflattenEach(es[1..], xs, j);
        if rest.Success? {
          var (rs, k) := rest.value;
          EachStep(es, xs, t0, rs, i, j, k);
        }
      }
    }
  }

  /** The elements unflattened one after another: the first one's leaves
      followed by the rest's, with the shapes matched element by element. */
  lemma EachStep<A, B>(es: seq<Tree<A>>, xs: seq<B>, t0: Tree<B>, rs: seq<Tree<B>>, i: nat, j: nat, k: nat)
    requires es != [] && i <= j <= k <= |xs|
    requires Flatten(t0) == xs[i..j] && Skeleton(t0) == Skeleton(es[0])
    requires FlattenAll(rs) == xs[j..k] && |rs| == |es| - 1
    requires forall n :: 0 <= n < |rs| ==> Skeleton(rs[n]) == Skeleton(es[1..][n])
    ensures FlattenAll([t0] + rs) == xs[i..k]
    ensures forall n :: 0 <= n < |es| ==> Skeleton(([t0] + rs)[n]) == Skeleton(es[n])
  {
    var all := [t0] + rs;
    FlattenAllCons(all);
    assert all[1..] == rs;
    SliceSplit(xs, i, j, k);
    forall n | 0 <= n < |es| ensures Skeleton(all[n]) == Skeleton(es[n]) {
      if n > 0 { assert all[n] == rs[n - 1] && es[n] == es[1..][n - 1]; }
    }
  }

  lemma SliceSplit<T>(s: seq<T>, i: nat, j: nat, k: nat)
    requires i <= j <= k <= |s|
    ensures s[i..k] == s[i..j] + s[j..k]
  {
  }

  lemma {:induction false} UnflattenKeysSpec<A, B>(m: map<string, Tree<A>>, keys: seq<string>, xs: seq<B>, i: nat)
    requires forall k :: k in keys ==> k in m
    requires Distinct(keys)
    requires i <= |xs|
    ensures var r := UnflattenKeys(m, keys, xs, i);
      && (r.Success? <==> i + |FlattenKeys(m, keys)| <= |xs|)
      && (r.Failure? ==> r.error == TooFewLeaves)
      && (r.Success? ==>
            && r.value.1 == i + |FlattenKeys(m, keys)|
            && (forall k :: k in r.value.0 <==> k in keys)
            && FlattenKeys(r.value.0, keys) == xs[i..r.value.1]
            && forall k :: k in keys ==> Skeleton(r.value.0[k]) == Skeleton(m[k]))
    decreases Dict(m), 0, |keys|
  {
    if keys != [] {
      FlattenKeysCons(m, keys);
      UnflattenFromSpec(m[keys[0]], xs, i);
      var r0 := UnflattenFrom(m[keys[0]], xs, i);
      if r0.Success? {
        var (v, j) := r0.value;
        assert Distinct(keys[1..]);
        UnflattenKeysSpec(m, keys[1..], xs, j);
        var rest := UnflattenKeys(m, keys[1..], xs, j);
        if rest.Success? {
          var (rm, k) := rest.value;
          UnflattenKeysStep(m, keys, xs, i, v, j, rm, k);
        }
      }
    }
  }

  /** One step of the dict loop: the first key's value in front of the
      values already collected for the remaining keys. */
  lemma UnflattenKeysStep<A, B>(m: map<string, Tree<A>>, keys: seq<string>, xs: seq<B>, i: nat,
                                v: Tree<B>, j: nat, rm: map<string, Tree<B>>, k: nat)
    requires forall key :: key in keys ==> key in m
    requires keys != [] && Distinct(keys)
    requires i <= j <= k <= |xs|
    requires Flatten(v) == xs[i..j] && Skeleton(v) == Skeleton(m[keys[0]])
    requires forall key :: key in rm <==> key in keys[1..]
    requires FlattenKeys(rm, keys[1..]) == xs[j..k]
    requires forall key :: key in keys[1..] ==> Skeleton(rm[key]) == Skeleton(m[key])
    ensures var all := rm[keys[0] := v];
      && (forall key :: key in all <==> key in keys)
      && FlattenKeys(all, keys) == xs[i..k]
      && forall key :: key in keys ==> Skeleton(all[key]) == Skeleton(m[key])
  {
    var all := rm[keys[0] := v];
    KeysStepKeeps(keys, v, rm);
    KeysStepFlatten(keys, xs, i, v, j, rm, k);
    forall key | key in keys ensures Skeleton(all[key]) == Skeleton(m[key]) {
      if key != keys[0] {
        assert key in keys[1..];
      }
    }
  }

  /** Adding the first key leaves the values under the other keys alone. */
  lemma KeysStepKeeps<B>(keys: seq<string>, v: Tree<B>, rm: map<string, Tree<B>>)
    requires keys != [] && Distinct(keys)
    requires forall key :: key in rm <==> key in keys[1..]
    ensures forall key :: key in rm[keys[0] := v] <==> key in keys
    ensures forall key :: key in keys[1..] ==> rm[keys[0] := v][key] == rm[key]
  {
    forall key | key in keys[1..] ensures key != keys[0] {
      var n :| 0 <= n < |keys[1..]| && keys[1..][n] == key;
      assert keys[n + 1] == key;
    }
    forall key ensures key in rm[keys[0] := v] <==> key in keys {
      if key in keys && key != keys[0] {
        assert key in keys[1..];
      }
    }
  }

  lemma KeysStepFlatten<B>(keys: seq<string>, xs: seq<B>, i: nat,
                           v: Tree<B>, j: nat, rm: map<string, Tree<B>>, k: nat)
    requires keys != [] && i <= j <= k <= |xs|
    requires forall key :: key in keys[1..] ==> key in rm && rm[keys[0] := v][key] == rm[key]
    requires Flatten(v) == xs[i..j]
    requires FlattenKeys(rm, keys[1..]) == xs[j..k]
    ensures FlattenKeys(rm[keys[0] := v], keys) == xs[i..k]
  {
    var all := rm[keys[0] := v];
    FlattenKeysSame(rm, all, keys[1..]);
    FlattenKeysCons(all, keys);
    assert xs[i..k] == xs[i..j] + xs[j..k];
  }

  /** Flattening under `keys` only looks at the values under `keys`. */
  lemma FlattenKeysSame<L>(m1: map<string, Tree<L>>, m2: map<string, Tree<L>>, keys: seq<string>)
    requires forall k :: k in keys ==> k in m1 && k in m2 && m1[k] == m2[k]
    ensures FlattenKeys(m1, keys) == FlattenKeys(m2, keys)
  {
    assert seq(|keys|, i requires 0 <= i < |keys| => Flatten(m1[keys[i]]))
        == seq(|keys|, i requires 0 <= i < |keys| => Flatten(m2[keys[i]]));
  }

  // ---------------------------------------------------------------------
  // A tree is determined by its shape and its leaves

  lemma SplitAppend<T>(a1: seq<T>, r1: seq<T>, a2: seq<T>, r2: seq<T>)
    requires a1 + r1 == a2 + r2
    requires |a1| == |a2|
    ensures a1 == a2 && r1 == r2
  {
    assert a1 == (a1 + r1)[..|a1|] && a2 == (a2 + r2)[..|a2|];
    assert r1 == (a1 + r1)[|a1|..] && r2 == (a2 + r2)[|a2|..];
  }

  lemma {:induction false} Determined<L>(a: Tree<L>, b: Tree<L>)
    requires Skeleton(a) == Skeleton(b)
    requires Flatten(a) == Flatten(b)
    ensures a == b
    decreases a, 1
  {
    match a
    case Nil =>
    case Leaf(_) =>
    case List(es) =>
      ElemSkeletons(es, b.elems);
      DeterminedAll(es, b.elems);
    case Tuple(es) =>
      ElemSkeletons(es, b.elems);
      DeterminedAll(es, b.elems);
    case Dict(m) =>
      DeterminedDict(m, b.entries);
    case Dataclass(_, _, vs) =>
      ElemSkeletons(vs, b.fieldValues);
      DeterminedAll(vs, b.fieldValues);
  }

  lemma {:induction false} DeterminedDict<L>(m: map<string, Tree<L>>, n: map<string, Tree<L>>)
    requires Skeleton(Dict(m)) == Skeleton(Dict(n))
    requires Flatten(Dict(m)) == Flatten(Dict(n))
    ensures m == n
    decreases Dict(m), 0
  {
    DictSkeletonParts(m, n);
    var keys := SortedStrings(m.Keys);
    assert Flatten(Dict(m)) == FlattenKeys(m, keys);
    assert Flatten(Dict(n)) == FlattenKeys(n, keys);
    DeterminedKeys(m, n, keys);
    forall k | k in m ensures m[k] == n[k] {
      assert k in keys;
    }
  }

  /** Equal shapes of two dictionaries: the same keys, and equal shapes
      under each. */
  lemma DictSkeletonParts<L>(m: map<string, Tree<L>>, n: map<string, Tree<L>>)
    requires Skeleton(Dict(m)) == Skeleton(Dict(n))
    ensures m.Keys == n.Keys
    ensures forall k :: k in m ==> Skeleton(m[k]) == Skeleton(n[k])
  {
    assert MapValues(Unit, m) == MapValues(Unit, n);
    forall k | k in m ensures Skeleton(m[k]) == Skeleton(n[k]) {
      assert MapValues(Unit, m)[k] == MapValues(Unit, n)[k];
    }
  }

  lemma ElemSkeletons<L>(es: seq<Tree<L>>, fs: seq<Tree<L>>)
    requires MapEach(Unit, es) == MapEach(Unit, fs)
    ensures |es| == |fs|
    ensures forall j :: 0 <= j < |es| ==> Skeleton(es[j]) == Skeleton(fs[j])
  {
    forall j | 0 <= j < |es| ensures Skeleton(es[j]) == Skeleton(fs[j]) {
      assert MapEach(Unit, es)[j] == MapEach(Unit, fs)[j];
    }
  }

  lemma {:induction false} DeterminedAll<L>(es: seq<Tree<L>>, fs: seq<Tree<L>>)
    requires |es| == |fs|
    requires forall j :: 0 <= j < |es| ==> Skeleton(es[j]) == Skeleton(fs[j])
    requires FlattenAll(es) == FlattenAll(fs)
    ensures es == fs
    decreases es, 0
  {
    if es != [] {
      FlattenAllCons(es);
      FlattenAllCons(fs);
      SkeletonLeafCount(es[0], fs[0]);
      SplitAppend(Flatten(es[0]), FlattenAll(es[1..]), Flatten(fs[0]), FlattenAll(fs[1..]));
      Determined(es[0], fs[0]);
      DeterminedAll(es[1..], fs[1..]);
      assert es == [es[0]] + es[1..] && fs == [fs[0]] + fs[1..];
    }
  }

  lemma {:induction false} DeterminedKeys<L>(m: map<string, Tree<L>>, n: map<string, Tree<L>>, keys: seq<string>)
    requires forall k :: k in keys ==> k in m && k in n && Skeleton(m[k]) == Skeleton(n[k])
    requires FlattenKeys(m, keys) == FlattenKeys(n, keys)
    ensures forall k :: k in keys ==> m[k] == n[k]
    decreases Dict(m), 0, |keys|
  {
    if keys != [] {
      FlattenKeysCons(m, keys);
      FlattenKeysCons(n, keys);
      SkeletonLeafCount(m[keys[0]], n[keys[0]]);
      SplitAppend(Flatten(m[keys[0]]), FlattenKeys(m, keys[1..]), Flatten(n[keys[0]]), FlattenKeys(n, keys[1..]));
      Determined(m[keys[0]], n[keys[0]]);
      DeterminedKeys(m, n, keys[1..]);
    }
  }

  // ---------------------------------------------------------------------
  // The promises of `unflatten`

  /** `unflatten(t, xs)` succeeds exactly when `xs` has one value per leaf
      of `t`: with fewer the iterator runs dry at a leaf, with more the
      leftover check raises. The result has `t`'s shape and `xs` as its
      leaves, so `flatten(unflatten(t, xs)) == xs`. */
  lemma UnflattenSucceedsIff<A, B>(t: Tree<A>, xs: seq<B>)
    ensures var r := Unflatten(t, xs);
      && (r.Success? <==> |xs| == |Flatten(t)|)
      && (|xs| < |Flatten(t)| ==> r == Failure(TooFewLeaves))
      && (|xs| > |Flatten(t)| ==> r == Failure(TooManyLeaves))
      && (r.Success? ==> Flatten(r.value) == xs && Skeleton(r.value) == Skeleton(t))
  {
    UnflattenFromSpec(t, xs, 0);
    assert xs[0..|xs|] == xs;
  }

  /** `unflatten(t, map(f, flatten(t))) == tree_map(f, t)`. */
  lemma UnflattenMapFlatten<A, B>(f: A -> B, t: Tree<A>)
    ensures Unflatten(t, MapLeaves(f, Flatten(t))) == Success(TreeMap(f, t))
  {
    var xs := MapLeaves(f, Flatten(t));
    UnflattenSucceedsIff(t, xs);
    FlattenTreeMap(f, t);
    TreeMapKeepsSkeleton(f, t);
    Determined(Unflatten(t, xs).value, TreeMap(f, t));
  }

  function Identity<L>(x: L): L
  {
    x
  }

  /** `unflatten(t, flatten(t)) == t`. */
  lemma UnflattenFlattenRoundTrip<L>(t: Tree<L>)
    ensures Unflatten(t, Flatten(t)) == Success(t)
  {
    UnflattenMapFlatten(Identity, t);
    TreeMapIdentity(Identity, t);
    assert MapLeaves(Identity, Flatten(t)) == Flatten(t);
  }

  /** A dict's leaves come in ascending key order: for any strictly sorted
      listing of its keys, its values' leaves in that order. */
  lemma FlattenDictAscending<L>(m: map<string, Tree<L>>, keys: seq<string>)
    requires StrictlySorted(keys)
    requires forall k :: k in keys <==> k in m
    ensures Flatten(Dict(m)) == FlattenKeys(m, keys)
  {
    SortedStringsIs(m.Keys, keys);
  }

  /** The dict of the flatten tests: values in ascending key order,
      whatever order the dict was built in. */
  lemma FlattenDictExample()
    ensures Flatten(Dict(map["5" := Leaf(5), "4" := Leaf(4)])) == [4, 5]
  {
    var m: map<string, Tree<int>> := map["5" := Leaf(5), "4" := Leaf(4)];
    FlattenDictAscending(m, ["4", "5"]);
    FlattenKeysCons(m, ["4", "5"]);
    FlattenKeysCons(m, ["5"]);
  }
}
