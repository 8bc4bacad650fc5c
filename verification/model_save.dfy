/** Saving an exported model (model/core/python/save.py): naming the
    variables and functions of a module's object graph, externalising
    supplemental data, and the checks `save` makes before the manifest is
    written.

    Objects are compared by identity in the source, so here they are
    handles into an arena. The naming walk pops entries off the end of a
    work list (last in, first out), expands a polymorphic function into its
    concrete functions, and gives every function and variable the first
    name it is reached under. */
module ModelSave {
  import opened Wrappers

  type Handle = nat

  /** The object kinds the naming walk distinguishes. */
  datatype Node =
    | ConcreteFn(captures: seq<Handle>)   // a ConcreteFunction and its captured variables
    | PolyFn(concretes: seq<Handle>)      // a PolymorphicFunction and its concrete functions
    | Var                                 // a Variable
    | Other                               // anything else

  type Arena = map<Handle, Node>

  /** A work-list entry: a name and the object it names. */
  type Entry = (string, Handle)

  /** The arena is closed and a polymorphic function's concrete functions
      are concrete functions, as their type says. */
  ghost predicate WellFormed(arena: Arena)
  {
    forall h :: h in arena ==>
      match arena[h]
      case ConcreteFn(caps) => forall c :: c in caps ==> c in arena
      case PolyFn(cs) => forall c :: c in cs ==> c in arena && arena[c].ConcreteFn?
      case Var => true
      case Other => true
  }

  ghost predicate Closed(arena: Arena, entries: seq<Entry>)
  {
    forall e :: e in entries ==> e.1 in arena
  }

  // ---------------------------------------------------------------------
  // The reference order in which the walk pops entries

  /** `(f'{key}/concrete_{i}', fn) for i, fn in enumerate(concrete_fns)`. */
  function Expand(key: string, cs: seq<Handle>): (r: seq<Entry>)
    ensures |r| == |cs|
    ensures forall i :: 0 <= i < |cs| ==> r[i] == (key + "/concrete_" + NatToString(i), cs[i])
  {
    seq(|cs|, i requires 0 <= i < |cs| => (key + "/concrete_" + NatToString(i), cs[i]))
  }

  /** Pending work: a polymorphic function still has its concrete
      functions to push. */
  ghost function EntryWeight(arena: Arena, e: Entry): nat
    requires e.1 in arena
  {
    if arena[e.1].PolyFn? then 1 + |arena[e.1].concretes| else 1
  }

  ghost function Weight(arena: Arena, s: seq<Entry>): nat
    requires Closed(arena, s)
  {
    if s == [] then 0 else Weight(arena, s[..|s| - 1]) + EntryWeight(arena, s[|s| - 1])
  }

  lemma {:induction false} WeightAppend(arena: Arena, a: seq<Entry>, b: seq<Entry>)
    requires Closed(arena, a) && Closed(arena, b)
    ensures Closed(arena, a + b)
    ensures Weight(arena, a + b) == Weight(arena, a) + Weight(arena, b)
    decreases |b|
  {
    if b != [] {
      assert (a + b)[..|a + b| - 1] == a + b[..|b| - 1];
      WeightAppend(arena, a, b[..|b| - 1]);
    } else {
      assert a + b == a;
    }
  }

  lemma {:induction false} ExpandWeight(arena: Arena, key: string, cs: seq<Handle>)
    requires forall c :: c in cs ==> c in arena && arena[c].ConcreteFn?
    ensures Closed(arena, Expand(key, cs))
    ensures Weight(arena, Expand(key, cs)) == |cs|
    decreases |cs|
  {
    if cs != [] {
      var cs' := cs[..|cs| - 1];
      assert Expand(key, cs)[..|cs| - 1] == Expand(key, cs');
      ExpandWeight(arena, key, cs');
    }
  }

  /** Popping the last entry, and pushing a polymorphic function's
      expansion, leaves strictly less work. */
  lemma PopDecreases(arena: Arena, s: seq<Entry>)
    requires WellFormed(arena) && Closed(arena, s) && s != []
    ensures var (k, h) := s[|s| - 1];
      var rest := s[..|s| - 1];
      && Closed(arena, rest)
      && Weight(arena, rest) < Weight(arena, s)
      && (arena[h].PolyFn? ==>
            && Closed(arena, rest + Expand(k, arena[h].concretes))
            && Weight(arena, rest + Expand(k, arena[h].concretes)) < Weight(arena, s))
  {
    var (k, h) := s[|s| - 1];
    var rest := s[..|s| - 1];
    if arena[h].PolyFn? {
      ExpandWeight(arena, k, arena[h].concretes);
      WeightAppend(arena, rest, Expand(k, arena[h].concretes));
    }
  }

  /** The work list after one iteration: the last entry popped and, for a
      polymorphic function, its concrete functions pushed. */
  ghost function Next(arena: Arena, s: seq<Entry>): (r: seq<Entry>)
    requires WellFormed(arena) && Closed(arena, s) && s != []
    ensures Closed(arena, r) && Weight(arena, r) < Weight(arena, s)
  {
    PopDecreases(arena, s);
    var (k, h) := s[|s| - 1];
    if arena[h].PolyFn? then s[..|s| - 1] + Expand(k, arena[h].concretes) else s[..|s| - 1]
  }

  /** Every entry the walk pops, in order, had it run to the end. */
  ghost function Popped(arena: Arena, s: seq<Entry>): (r: seq<Entry>)
    requires WellFormed(arena) && Closed(arena, s)
    ensures Closed(arena, r)
    decreases Weight(arena, s)
  {
    if s == [] then [] else [s[|s| - 1]] + Popped(arena, Next(arena, s))
  }

  /** One step of the walk: the last entry is popped first, and the rest
      is what is popped from the work list that is left. */
  lemma PopStep(arena: Arena, s: seq<Entry>)
    requires WellFormed(arena) && Closed(arena, s) && s != []
    ensures Popped(arena, s) == [s[|s| - 1]] + Popped(arena, Next(arena, s))
    ensures Next(arena, s) == s[..|s| - 1] +
      (if arena[s[|s| - 1].1].PolyFn? then Expand(s[|s| - 1].0, arena[s[|s| - 1].1].concretes) else [])
  {
    assert s[..|s| - 1] + [] == s[..|s| - 1];
  }

  // ---------------------------------------------------------------------
  // Names proposed by popped entries, and first-come naming

  /** `f'{key}/capture_{i}'` for each captured variable. */
  function CaptureNames(key: string, caps: seq<Handle>): (r: seq<(Handle, string)>)
    ensures |r| == |caps|
    ensures forall i :: 0 <= i < |caps| ==> r[i] == (caps[i], key + "/capture_" + NatToString(i))
  {
    seq(|caps|, i requires 0 <= i < |caps| => (caps[i], key + "/capture_" + NatToString(i)))
  }

  /** The variable names one popped entry proposes. */
  ghost function EntryVarNames(arena: Arena, e: Entry): seq<(Handle, string)>
    requires e.1 in arena
  {
    match arena[e.1]
    case ConcreteFn(caps) => CaptureNames(e.0, caps)
    case Var => [(e.1, e.0)]
    case _ => []
  }

  ghost function VarNames(arena: Arena, p: seq<Entry>): seq<(Handle, string)>
    requires Closed(arena, p)
  {
    if p == [] then [] else VarNames(arena, p[..|p| - 1]) + EntryVarNames(arena, p[|p| - 1])
  }

  /** The function names proposed: a concrete function under its key. */
  ghost function FnNames(arena: Arena, p: seq<Entry>): seq<(Handle, string)>
    requires Closed(arena, p)
  {
    if p == [] then []
    else FnNames(arena, p[..|p| - 1]) + (if arena[p[|p| - 1].1].ConcreteFn? then [(p[|p| - 1].1, p[|p| - 1].0)] else [])
  }

  /** The identity dictionary after proposing `ev` in order: a name is
      kept only for an object that has none yet. */
  function FirstWins(ev: seq<(Handle, string)>): map<Handle, string>
  {
    if ev == [] then map[]
    else
      var m := FirstWins(ev[..|ev| - 1]);
      var (h, n) := ev[|ev| - 1];
      if h in m then m else m[h := n]
  }

  /** An object gets a name exactly when some proposal names it. */
  lemma {:induction false} FirstWinsKeys(ev: seq<(Handle, string)>)
    ensures forall h :: h in FirstWins(ev) <==> exists i :: 0 <= i < |ev| && ev[i].0 == h
    decreases |ev|
  {
    if ev != [] {
      var pre := ev[..|ev| - 1];
      FirstWinsKeys(pre);
      forall h ensures h in FirstWins(ev) <==> exists i :: 0 <= i < |ev| && ev[i].0 == h {
        if h in FirstWins(pre) {
          var i :| 0 <= i < |pre| && pre[i].0 == h;
          assert ev[i].0 == h;
        }
        if exists i :: 0 <= i < |ev| && ev[i].0 == h {
          var i :| 0 <= i < |ev| && ev[i].0 == h;
          if i < |pre| { assert pre[i].0 == h; }
        }
      }
    }
  }

  /** The first proposal for an object is the name it keeps. */
  lemma {:induction false} FirstWinsFirst(ev: seq<(Handle, string)>, i: nat)
    requires i < |ev|
    requires forall j :: 0 <= j < i ==> ev[j].0 != ev[i].0
    ensures ev[i].0 in FirstWins(ev) && FirstWins(ev)[ev[i].0] == ev[i].1
    decreases |ev|
  {
    var pre := ev[..|ev| - 1];
    if i < |pre| {
      assert pre[i] == ev[i];
      FirstWinsFirst(pre, i);
    } else {
      forall j | 0 <= j < |pre| ensures pre[j].0 != ev[i].0 {
        assert pre[j] == ev[j];
      }
      FirstWinsKeys(pre);
    }
  }

  /** One more proposal: kept only if the object has no name yet. */
  lemma FirstWinsSnoc(ev: seq<(Handle, string)>, x: (Handle, string))
    ensures FirstWins(ev + [x]) ==
      if x.0 in FirstWins(ev) then FirstWins(ev) else FirstWins(ev)[x.0 := x.1]
  {
    assert (ev + [x])[..|ev|] == ev;
  }

  /** No name is ever overwritten: proposing more names only adds entries. */
  lemma {:induction false} FirstWinsNeverRenames(a: seq<(Handle, string)>, b: seq<(Handle, string)>)
    ensures forall h :: h in FirstWins(a) ==> h in FirstWins(a + b) && FirstWins(a + b)[h] == FirstWins(a)[h]
    decreases |b|
  {
    if b == [] {
      assert a + b == a;
    } else {
      assert (a + b)[..|a + b| - 1] == a + b[..|b| - 1];
      FirstWinsNeverRenames(a, b[..|b| - 1]);
    }
  }

  /** Proposals for objects that already have a name change nothing. */
  lemma {:induction false} FirstWinsAbsorbs(a: seq<(Handle, string)>, b: seq<(Handle, string)>)
    requires forall i :: 0 <= i < |b| ==> b[i].0 in FirstWins(a)
    ensures FirstWins(a + b) == FirstWins(a)
    decreases |b|
  {
    if b == [] {
      assert a + b == a;
    } else {
      assert (a + b)[..|a + b| - 1] == a + b[..|b| - 1];
      FirstWinsAbsorbs(a, b[..|b| - 1]);
    }
  }

  // ---------------------------------------------------------------------
  // The walk

  datatype NamingError = UnknownObjectType(handle: Handle)   // TypeError

  lemma AppendShift<T>(a: seq<T>, x: T, b: seq<T>)
    ensures (a + [x]) + b == a + ([x] + b)
  {
  }

  /** Popping a concrete function proposes its key for it and
      `key/capture_i` for its captured variables. */
  lemma AppendConcrete(arena: Arena, done: seq<Entry>, e: Entry)
    requires Closed(arena, done) && e.1 in arena && arena[e.1].ConcreteFn?
    ensures Closed(arena, done + [e])
    ensures VarNames(arena, done + [e]) == VarNames(arena, done) + CaptureNames(e.0, arena[e.1].captures)
    ensures FnNames(arena, done + [e]) == FnNames(arena, done) + [(e.1, e.0)]
  {
    assert (done + [e])[..|done|] == done;
  }

  /** Popping a polymorphic function proposes no name. */
  lemma AppendPoly(arena: Arena, done: seq<Entry>, e: Entry)
    requires Closed(arena, done) && e.1 in arena && arena[e.1].PolyFn?
    ensures Closed(arena, done + [e])
    ensures VarNames(arena, done + [e]) == VarNames(arena, done)
    ensures FnNames(arena, done + [e]) == FnNames(arena, done)
  {
    assert (done + [e])[..|done|] == done;
    assert VarNames(arena, done) + [] == VarNames(arena, done);
    assert FnNames(arena, done) + [] == FnNames(arena, done);
  }

  /** Popping a variable proposes its key for it. */
  lemma AppendVar(arena: Arena, done: seq<Entry>, e: Entry)
    requires Closed(arena, done) && e.1 in arena && arena[e.1].Var?
    ensures Closed(arena, done + [e])
    ensures VarNames(arena, done + [e]) == VarNames(arena, done) + [(e.1, e.0)]
    ensures FnNames(arena, done + [e]) == FnNames(arena, done)
  {
    assert (done + [e])[..|done|] == done;
    assert FnNames(arena, done) + [] == FnNames(arena, done);
  }

  /** Naming more variables keeps every named function's captures named. */
  lemma CapturesNamedGrow(arena: Arena, vars: map<Handle, string>, fns: map<Handle, string>,
                          vars': map<Handle, string>)
    requires CapturesNamed(arena, vars, fns)
    requires forall h :: h in vars ==> h in vars'
    ensures CapturesNamed(arena, vars', fns)
  {
  }

  /** The loop over `enumerate(child.captured_vars)` of a newly named
      function: each captured variable without a name is named
      `key/capture_i`. */
  method NameCaptures(ghost proposed: seq<(Handle, string)>, namedVars: map<Handle, string>,
                      key: string, caps: seq<Handle>)
    returns (r: map<Handle, string>)
    requires namedVars == FirstWins(proposed)
    ensures r == FirstWins(proposed + CaptureNames(key, caps))
    ensures forall c :: c in caps ==> c in r
    ensures forall h :: h in namedVars ==> h in r && r[h] == namedVars[h]
  {
    r := namedVars;
    var names := CaptureNames(key, caps);
    assert proposed + names[..0] == proposed;
    for i := 0 to |caps|
      invariant r == FirstWins(proposed + names[..i])
    {
      var v := caps[i];
      assert names[i] == (v, key + "/capture_" + NatToString(i));
      PrefixSnoc(proposed, names, i);
      FirstWinsSnoc(proposed + names[..i], names[i]);
      if v !in r {
        r := r[v := key + "/capture_" + NatToString(i)];
      }
    }
    assert names[..|caps|] == names;
    CaptureNamesNamed(proposed, key, caps);
    FirstWinsNeverRenames(proposed, names);
  }

  lemma PrefixSnoc<T>(a: seq<T>, b: seq<T>, i: nat)
    requires i < |b|
    ensures a + b[..i + 1] == (a + b[..i]) + [b[i]]
  {
    assert b[..i + 1] == b[..i] + [b[i]];
  }

  /** After proposing `key/capture_i` for every captured variable, each of
      them has a name. */
  lemma CaptureNamesNamed(proposed: seq<(Handle, string)>, key: string, caps: seq<Handle>)
    ensures forall c :: c in caps ==> c in FirstWins(proposed + CaptureNames(key, caps))
  {
    var names := CaptureNames(key, caps);
    FirstWinsKeys(proposed + names);
    forall c | c in caps ensures c in FirstWins(proposed + names) {
      var j :| 0 <= j < |caps| && caps[j] == c;
      assert (proposed + names)[|proposed| + j].0 == c;
    }
  }

  /** `named_variables_and_functions` over the module's dict items, in
      insertion order. */
  method NamedVariablesAndFunctions(arena: Arena, items: seq<Entry>)
    returns (r: Result<(map<Handle, string>, map<Handle, string>), NamingError>)
    requires WellFormed(arena) && Closed(arena, items)
    ensures r.Failure? <==> exists e :: e in Popped(arena, items) && arena[e.1].Other?
    ensures r.Failure? ==> r.error.handle in arena && arena[r.error.handle].Other?
    ensures r.Failure? ==>
      exists k :: 0 <= k < |Popped(arena, items)| && Popped(arena, items)[k].1 == r.error.handle
        && forall j :: 0 <= j < k ==> !arena[Popped(arena, items)[j].1].Other?
    ensures r.Success? ==>
      && r.value.0 == FirstWins(VarNames(arena, Popped(arena, items)))
      && r.value.1 == FirstWins(FnNames(arena, Popped(arena, items)))
  {
    var namedVars: map<Handle, string> := map[];
    var namedFunctions: map<Handle, string> := map[];
    var toVisit := items;
    ghost var done: seq<Entry> := [];
    while toVisit != []
      invariant Closed(arena, toVisit) && Closed(arena, done)
      invariant done + Popped(arena, toVisit) == Popped(arena, items)
      invariant forall e :: e in done ==> !arena[e.1].Other?
      invariant namedVars == FirstWins(VarNames(arena, done))
      invariant namedFunctions == FirstWins(FnNames(arena, done))
      invariant CapturesNamed(arena, namedVars, namedFunctions)
      decreases Weight(arena, toVisit)
    {
      ghost var before := toVisit;
      PopStep(arena, before);
      var (key, child) := toVisit[|toVisit| - 1];
      toVisit := toVisit[..|toVisit| - 1];
      if arena[child].Other? {
        assert Popped(arena, items)[|done|] == (key, child);
        assert forall j :: 0 <= j < |done| ==> Popped(arena, items)[j] == done[j];
        assert forall j :: 0 <= j < |done| ==> !arena[Popped(arena, items)[j].1].Other?;
        return Failure(UnknownObjectType(child));
      }
      var pushed;
      namedVars, namedFunctions, pushed := Visit(arena, done, namedVars, namedFunctions, key, child);
      toVisit := toVisit + pushed;
      AppendShift(done, (key, child), Popped(arena, toVisit));
      done := done + [(key, child)];
    }
    assert done == Popped(arena, items);
    return Success((namedVars, namedFunctions));
  }

  /** Every named function's captured variables are named too. */
  ghost predicate CapturesNamed(arena: Arena, namedVars: map<Handle, string>, namedFunctions: map<Handle, string>)
  {
    forall f :: f in namedFunctions ==>
      f in arena && arena[f].ConcreteFn? && forall c :: c in arena[f].captures ==> c in namedVars
  }

  /** One iteration of the walk for a popped entry of known type: the two
      tables after it, and the entries it pushes. */
  method Visit(arena: Arena, ghost done: seq<Entry>, namedVars: map<Handle, string>,
               namedFunctions: map<Handle, string>, key: string, child: Handle)
    returns (vars: map<Handle, string>, fns: map<Handle, string>, pushed: seq<Entry>)
    requires Closed(arena, done) && child in arena && !arena[child].Other?
    requires namedVars == FirstWins(VarNames(arena, done))
    requires namedFunctions == FirstWins(FnNames(arena, done))
    requires CapturesNamed(arena, namedVars, namedFunctions)
    ensures Closed(arena, done + [(key, child)])
    ensures vars == FirstWins(VarNames(arena, done + [(key, child)]))
    ensures fns == FirstWins(FnNames(arena, done + [(key, child)]))
    ensures CapturesNamed(arena, vars, fns)
    ensures pushed == if arena[child].PolyFn? then Expand(key, arena[child].concretes) else []
  {
    vars, fns, pushed := namedVars, namedFunctions, [];
    match arena[child] {
      case ConcreteFn(caps) =>
        if child in namedFunctions {
          VisitNamedFunction(arena, done, namedVars, namedFunctions, key, child);
        } else {
          fns := namedFunctions[child := key];
          vars := NameCaptures(VarNames(arena, done), namedVars, key, caps);
          VisitNewFunction(arena, done, namedVars, namedFunctions, vars, key, child);
        }
      case PolyFn(cs) =>
        AppendPoly(arena, done, (key, child));
        pushed := Expand(key, cs);
      case Var =>
        if child !in namedVars {
          vars := namedVars[child := key];
        }
        VisitVariable(arena, done, namedVars, namedFunctions, key, child);
    }
  }

  /** A function popped again proposes only names that are taken. */
  lemma VisitNamedFunction(arena: Arena, done: seq<Entry>, vars: map<Handle, string>,
                           fns: map<Handle, string>, key: string, child: Handle)
    requires Closed(arena, done) && child in arena && arena[child].ConcreteFn?
    requires vars == FirstWins(VarNames(arena, done)) && fns == FirstWins(FnNames(arena, done))
    requires CapturesNamed(arena, vars, fns) && child in fns
    ensures Closed(arena, done + [(key, child)])
    ensures vars == FirstWins(VarNames(arena, done + [(key, child)]))
    ensures fns == FirstWins(FnNames(arena, done + [(key, child)]))
  {
    var caps := arena[child].captures;
    AppendConcrete(arena, done, (key, child));
    FirstWinsAbsorbs(VarNames(arena, done), CaptureNames(key, caps));
    FirstWinsAbsorbs(FnNames(arena, done), [(child, key)]);
  }

  /** A function popped for the first time is named under its key, and its
      captured variables are proposed. */
  lemma VisitNewFunction(arena: Arena, done: seq<Entry>, vars: map<Handle, string>,
                         fns: map<Handle, string>, vars': map<Handle, string>, key: string, child: Handle)
    requires Closed(arena, done) && child in arena && arena[child].ConcreteFn?
    requires vars == FirstWins(VarNames(arena, done)) && fns == FirstWins(FnNames(arena, done))
    requires CapturesNamed(arena, vars, fns) && child !in fns
    requires vars' == FirstWins(VarNames(arena, done) + CaptureNames(key, arena[child].captures))
    requires forall c :: c in arena[child].captures ==> c in vars'
    requires forall h :: h in vars ==> h in vars'
    ensures Closed(arena, done + [(key, child)])
    ensures vars' == FirstWins(VarNames(arena, done + [(key, child)]))
    ensures fns[child := key] == FirstWins(FnNames(arena, done + [(key, child)]))
    ensures CapturesNamed(arena, vars', fns[child := key])
  {
    AppendConcrete(arena, done, (key, child));
    FirstWinsSnoc(FnNames(arena, done), (child, key));
    CapturesNamedAdd(arena, vars, fns, vars', child, key);
  }

  /** Naming a function whose captures are all named keeps every named
      function's captures named. */
  lemma CapturesNamedAdd(arena: Arena, vars: map<Handle, string>, fns: map<Handle, string>,
                         vars': map<Handle, string>, f: Handle, key: string)
    requires CapturesNamed(arena, vars, fns)
    requires forall h :: h in vars ==> h in vars'
    requires f in arena && arena[f].ConcreteFn? && forall c :: c in arena[f].captures ==> c in vars'
    ensures CapturesNamed(arena, vars', fns[f := key])
  {
  }

  /** A variable is named under its key unless it already has a name. */
  lemma VisitVariable(arena: Arena, done: seq<Entry>, vars: map<Handle, string>,
                      fns: map<Handle, string>, key: string, child: Handle)
    requires Closed(arena, done) && child in arena && arena[child].Var?
    requires vars == FirstWins(VarNames(arena, done)) && fns == FirstWins(FnNames(arena, done))
    requires CapturesNamed(arena, vars, fns)
    ensures Closed(arena, done + [(key, child)])
    ensures (if child in vars then vars else vars[child := key]) == FirstWins(VarNames(arena, done + [(key, child)]))
    ensures fns == FirstWins(FnNames(arena, done + [(key, child)]))
    ensures CapturesNamed(arena, if child in vars then vars else vars[child := key], fns)
  {
    AppendVar(arena, done, (key, child));
    FirstWinsSnoc(VarNames(arena, done), (child, key));
    var vars' := if child in vars then vars else vars[child := key];
    CapturesNamedGrow(arena, vars, fns, vars');
  }

  // ---------------------------------------------------------------------
  // What the walk promises

  /** Every entry of the work list is popped, and the only other entries
      popped are the concrete functions of polymorphic functions. */
  lemma {:induction false} PoppedCovers(arena: Arena, s: seq<Entry>)
    requires WellFormed(arena) && Closed(arena, s)
    ensures forall e :: e in s ==> e in Popped(arena, s)
    ensures forall e :: e in Popped(arena, s) && e !in s ==> arena[e.1].ConcreteFn?
    ensures (exists e :: e in Popped(arena, s) && arena[e.1].Other?) <==> (exists e :: e in s && arena[e.1].Other?)
  {
    PoppedKeepsInput(arena, s);
    PoppedAddsOnlyConcrete(arena, s);
    if exists e :: e in Popped(arena, s) && arena[e.1].Other? {
      var e :| e in Popped(arena, s) && arena[e.1].Other?;
      assert e in s;
    }
  }

  /** Every entry on the work list is popped. */
  lemma {:induction false} PoppedKeepsInput(arena: Arena, s: seq<Entry>)
    requires WellFormed(arena) && Closed(arena, s)
    ensures forall e :: e in s ==> e in Popped(arena, s)
    decreases Weight(arena, s)
  {
    if s != [] {
      var last := s[|s| - 1];
      var rest := s[..|s| - 1];
      PopStep(arena, s);
      NextKeepsRest(arena, s);
      PoppedKeepsInput(arena, Next(arena, s));
      assert s == rest + [last];
    }
  }

  lemma NextKeepsRest(arena: Arena, s: seq<Entry>)
    requires WellFormed(arena) && Closed(arena, s) && s != []
    ensures forall e :: e in s[..|s| - 1] ==> e in Next(arena, s)
  {
    PopStep(arena, s);
  }

  /** What is popped beyond the work list is a concrete function. */
  lemma {:induction false} PoppedAddsOnlyConcrete(arena: Arena, s: seq<Entry>)
    requires WellFormed(arena) && Closed(arena, s)
    ensures forall e :: e in Popped(arena, s) && e !in s ==> arena[e.1].ConcreteFn?
    decreases Weight(arena, s)
  {
    if s != [] {
      var last := s[|s| - 1];
      var rest := s[..|s| - 1];
      var next := Next(arena, s);
      PopStep(arena, s);
      PoppedAddsOnlyConcrete(arena, next);
      forall e | e in Popped(arena, s) && e !in s ensures arena[e.1].ConcreteFn? {
        assert e in Popped(arena, next);
        if e in next {
          assert e !in rest;
          var cs := arena[last.1].concretes;
          assert e in Expand(last.0, cs);
          var i :| 0 <= i < |cs| && Expand(last.0, cs)[i] == e;
          assert cs[i] in cs;
        }
      }
    }
  }

  /** The proposed function names are the concrete functions popped, each
      under the key it was popped with. */
  lemma {:induction false} FnNamesMembers(arena: Arena, p: seq<Entry>)
    requires Closed(arena, p)
    ensures forall x :: x in FnNames(arena, p) <==> (x.1, x.0) in p && arena[x.0].ConcreteFn?
    decreases |p|
  {
    if p != [] {
      var pre := p[..|p| - 1];
      FnNamesMembers(arena, pre);
      assert p == pre + [p[|p| - 1]];
    }
  }

  /** A polymorphic function (or anything but a concrete function) is
      never put in the function table. */
  lemma OnlyConcreteFunctionsNamed(arena: Arena, p: seq<Entry>)
    requires Closed(arena, p)
    ensures forall h :: h in FirstWins(FnNames(arena, p)) ==> h in arena && arena[h].ConcreteFn?
    ensures forall h :: h in FirstWins(FnNames(arena, p)) <==>
      exists e :: e in p && e.1 == h && arena[h].ConcreteFn?
  {
    FnNamesMembers(arena, p);
    FirstWinsKeys(FnNames(arena, p));
    forall h | h in FirstWins(FnNames(arena, p)) ensures exists e :: e in p && e.1 == h && arena[h].ConcreteFn? {
      var i :| 0 <= i < |FnNames(arena, p)| && FnNames(arena, p)[i].0 == h;
      var x := FnNames(arena, p)[i];
      assert (x.1, x.0) in p;
    }
    forall h | exists e :: e in p && e.1 == h && arena[h].ConcreteFn? ensures h in FirstWins(FnNames(arena, p)) {
      var e :| e in p && e.1 == h && arena[h].ConcreteFn?;
      var x := (h, e.0);
      assert x in FnNames(arena, p);
      var i :| 0 <= i < |FnNames(arena, p)| && FnNames(arena, p)[i] == x;
    }
  }

  /** A concrete function's name is the key it had the first time it was
      popped; later pops of the same function do not rename it. */
  lemma {:induction false} FunctionNamedAtFirstPop(arena: Arena, p: seq<Entry>, i: nat)
    requires Closed(arena, p)
    requires i < |p| && arena[p[i].1].ConcreteFn?
    requires forall j :: 0 <= j < i ==> p[j].1 != p[i].1
    ensures p[i].1 in FirstWins(FnNames(arena, p))
    ensures FirstWins(FnNames(arena, p))[p[i].1] == p[i].0
    decreases |p|
  {
    var pre := p[..|p| - 1];
    var last := p[|p| - 1];
    var tail: seq<(Handle, string)> := if arena[last.1].ConcreteFn? then [(last.1, last.0)] else [];
    assert FnNames(arena, p) == FnNames(arena, pre) + tail;
    if i < |pre| {
      assert pre[i] == p[i];
      FunctionNamedAtFirstPop(arena, pre, i);
      FirstWinsNeverRenames(FnNames(arena, pre), tail);
    } else {
      FnNamesMembers(arena, pre);
      FirstWinsKeys(FnNames(arena, pre));
      forall x | x in FnNames(arena, pre) ensures x.0 != p[i].1 {
        var j :| 0 <= j < |pre| && pre[j] == (x.1, x.0);
        assert p[j] == pre[j];
      }
      FirstWinsSnoc(FnNames(arena, pre), (last.1, last.0));
    }
  }

  /** A name in the table is one of the names proposed for that object. */
  lemma {:induction false} FirstWinsFromProposals(ev: seq<(Handle, string)>)
    ensures forall h :: h in FirstWins(ev) ==> (h, FirstWins(ev)[h]) in ev
    decreases |ev|
  {
    if ev != [] {
      var pre := ev[..|ev| - 1];
      FirstWinsFromProposals(pre);
      FirstWinsSnoc(pre, ev[|ev| - 1]);
      assert ev == pre + [ev[|ev| - 1]];
    }
  }

  /** The proposed variable names: a variable popped under a key, or the
      `i`-th capture of a popped concrete function named `key/capture_i`. */
  ghost predicate ProposedVarName(arena: Arena, p: seq<Entry>, h: Handle, name: string)
    requires Closed(arena, p)
  {
    || ((name, h) in p && arena[h].Var?)
    || exists e, i :: e in p && arena[e.1].ConcreteFn? && 0 <= i < |arena[e.1].captures|
         && arena[e.1].captures[i] == h && name == e.0 + "/capture_" + NatToString(i)
  }

  lemma {:induction false} VarNamesMembers(arena: Arena, p: seq<Entry>)
    requires Closed(arena, p)
    ensures forall x :: x in VarNames(arena, p) ==> ProposedVarName(arena, p, x.0, x.1)
    decreases |p|
  {
    if p != [] {
      var pre := p[..|p| - 1];
      var last := p[|p| - 1];
      VarNamesMembers(arena, pre);
      assert p == pre + [last];
      forall x | x in VarNames(arena, p) ensures ProposedVarName(arena, p, x.0, x.1) {
        if x in VarNames(arena, pre) {
          assert ProposedVarName(arena, pre, x.0, x.1);
          if !((x.1, x.0) in pre && arena[x.0].Var?) {
            var e, i :| e in pre && arena[e.1].ConcreteFn? && 0 <= i < |arena[e.1].captures|
              && arena[e.1].captures[i] == x.0 && x.1 == e.0 + "/capture_" + NatToString(i);
            assert e in p;
          }
        } else {
          assert x in EntryVarNames(arena, last);
          if arena[last.1].ConcreteFn? {
            var caps := arena[last.1].captures;
            var i :| 0 <= i < |caps| && CaptureNames(last.0, caps)[i] == x;
            assert last in p;
          }
        }
      }
    }
  }

  /** Every variable's name has one of the two formats, and comes from a
      popped entry. */
  lemma VariableNameFormat(arena: Arena, p: seq<Entry>)
    requires Closed(arena, p)
    ensures forall h :: h in FirstWins(VarNames(arena, p)) ==>
      ProposedVarName(arena, p, h, FirstWins(VarNames(arena, p))[h])
  {
    FirstWinsFromProposals(VarNames(arena, p));
    VarNamesMembers(arena, p);
  }

  // ---------------------------------------------------------------------
  // Worked examples

  /** `f'{key}/capture_0'` for a function capturing one variable. */
  lemma CaptureNamesSingle(key: string, h: Handle)
    ensures CaptureNames(key, [h]) == [(h, key + "/capture_0")]
  {
    assert CaptureNames(key, [h])[0] == (h, key + "/capture_" + NatToString(0));
    assert key + "/capture_" + "0" == key + "/capture_0";
  }

  /** Two variables `a` and `b` and a function `add` capturing a third
      variable, as in the module of save_test.py. */
  const AddArena: Arena := map[1 := Var, 2 := Var, 3 := ConcreteFn([4]), 4 := Var]
  const AddItems: seq<Entry> := [("a", 1), ("b", 2), ("add", 3)]
  const AddPopped: seq<Entry> := [("add", 3), ("b", 2), ("a", 1)]

  lemma AddPopOrder()
    ensures WellFormed(AddArena) && Closed(AddArena, AddItems)
    ensures Popped(AddArena, AddItems) == AddPopped
  {
    assert WellFormed(AddArena);
    assert Next(AddArena, AddItems) == [("a", 1), ("b", 2)];
    assert Next(AddArena, [("a", 1), ("b", 2)]) == [("a", 1)];
    assert Next(AddArena, [("a", 1)]) == [];
  }

  lemma AddVarProposals()
    ensures Closed(AddArena, AddPopped)
    ensures VarNames(AddArena, AddPopped) == [(4, "add/capture_0"), (2, "b"), (1, "a")]
  {
    CaptureNamesSingle("add", 4);
    assert "add" + "/capture_0" == "add/capture_0";
    assert [("add", 3)][..0] == [];
    assert AddPopped[..2] == [("add", 3), ("b", 2)];
    assert AddPopped[..2][..1] == [("add", 3)];
    assert VarNames(AddArena, [("add", 3)]) == [(4, "add/capture_0")];
    assert VarNames(AddArena, AddPopped[..2]) == [(4, "add/capture_0"), (2, "b")];
  }

  lemma AddFnProposals()
    ensures Closed(AddArena, AddPopped)
    ensures FnNames(AddArena, AddPopped) == [(3, "add")]
  {
    assert AddPopped[..2] == [("add", 3), ("b", 2)];
    assert AddPopped[..2][..1] == [("add", 3)];
    assert FnNames(AddArena, [("add", 3)]) == [(3, "add")];
    assert FnNames(AddArena, AddPopped[..2]) == [(3, "add")];
  }

  /** The variables are named `a`, `b` and `add/capture_0`, and the
      function `add`. */
  lemma NamingExample()
    ensures WellFormed(AddArena) && Closed(AddArena, AddItems)
    ensures FirstWins(VarNames(AddArena, Popped(AddArena, AddItems))) == map[1 := "a", 2 := "b", 4 := "add/capture_0"]
    ensures FirstWins(FnNames(AddArena, Popped(AddArena, AddItems))) == map[3 := "add"]
  {
    AddPopOrder();
    AddVarProposals();
    AddFnProposals();
    AddVarTable();
    AddFnTable();
  }

  lemma AddVarTable()
    ensures FirstWins([(4, "add/capture_0"), (2, "b"), (1, "a")]) == map[1 := "a", 2 := "b", 4 := "add/capture_0"]
  {
    var v0, v1, v2 := (4, "add/capture_0"), (2, "b"), (1, "a");
    FirstWinsSnoc([], v0);
    assert [] + [v0] == [v0];
    FirstWinsSnoc([v0], v1);
    assert [v0] + [v1] == [v0, v1];
    FirstWinsSnoc([v0, v1], v2);
    assert [v0, v1] + [v2] == [v0, v1, v2];
  }

  lemma AddFnTable()
    ensures FirstWins([(3, "add")]) == map[3 := "add"]
  {
    FirstWinsSnoc([], (3, "add"));
    assert [] + [(3, "add")] == [(3, "add")];
  }

  /** A polymorphic function `f` listing one concrete function twice, which
      captures the module's variable `x`. */
  const PolyArena: Arena := map[1 := Var, 2 := ConcreteFn([1]), 3 := PolyFn([2, 2])]
  const PolyItems: seq<Entry> := [("x", 1), ("f", 3)]
  const PolyPopped: seq<Entry> := [("f", 3), ("f/concrete_1", 2), ("f/concrete_0", 2), ("x", 1)]

  lemma PolyPopOrder()
    ensures WellFormed(PolyArena) && Closed(PolyArena, PolyItems)
    ensures Popped(PolyArena, PolyItems) == PolyPopped
  {
    assert WellFormed(PolyArena);
    var c0 := ("f/concrete_0", 2);
    var c1 := ("f/concrete_1", 2);
    var ex := Expand("f", [2, 2]);
    assert ex[0] == ("f" + "/concrete_" + NatToString(0), 2);
    assert ex[1] == ("f" + "/concrete_" + NatToString(1), 2);
    assert "f" + "/concrete_" + "0" == "f/concrete_0";
    assert "f" + "/concrete_" + "1" == "f/concrete_1";
    assert ex == [c0, c1];
    assert Next(PolyArena, PolyItems) == [("x", 1), c0, c1];
    assert Next(PolyArena, [("x", 1), c0, c1]) == [("x", 1), c0];
    assert Next(PolyArena, [("x", 1), c0]) == [("x", 1)];
    assert Next(PolyArena, [("x", 1)]) == [];
  }

  lemma PolyVarProposals()
    ensures Closed(PolyArena, PolyPopped)
    ensures VarNames(PolyArena, PolyPopped) ==
      [(1, "f/concrete_1/capture_0"), (1, "f/concrete_0/capture_0"), (1, "x")]
  {
    CaptureNamesSingle("f/concrete_1", 1);
    CaptureNamesSingle("f/concrete_0", 1);
    assert "f/concrete_1" + "/capture_0" == "f/concrete_1/capture_0";
    assert "f/concrete_0" + "/capture_0" == "f/concrete_0/capture_0";
    var p3 := [("f", 3), ("f/concrete_1", 2), ("f/concrete_0", 2)];
    var p2 := [("f", 3), ("f/concrete_1", 2)];
    assert PolyPopped[..3] == p3 && p3[..2] == p2 && p2[..1] == [("f", 3)];
    assert VarNames(PolyArena, [("f", 3)]) == [];
    assert VarNames(PolyArena, p2) == [(1, "f/concrete_1/capture_0")];
    assert VarNames(PolyArena, p3) == [(1, "f/concrete_1/capture_0"), (1, "f/concrete_0/capture_0")];
  }

  lemma PolyFnProposals()
    ensures Closed(PolyArena, PolyPopped)
    ensures FnNames(PolyArena, PolyPopped) == [(2, "f/concrete_1"), (2, "f/concrete_0")]
  {
    var p3 := [("f", 3), ("f/concrete_1", 2), ("f/concrete_0", 2)];
    var p2 := [("f", 3), ("f/concrete_1", 2)];
    assert PolyPopped[..3] == p3 && p3[..2] == p2 && p2[..1] == [("f", 3)];
    assert FnNames(PolyArena, [("f", 3)]) == [];
    assert FnNames(PolyArena, p2) == [(2, "f/concrete_1")];
    assert FnNames(PolyArena, p3) == [(2, "f/concrete_1"), (2, "f/concrete_0")];
  }

  /** Last in, first out: the concrete functions of `f` are pushed as
      `f/concrete_0` and `f/concrete_1` and the later one is popped first,
      so the function is named `f/concrete_1`; its captured variable gets
      that name's capture before the walk reaches `x`, the module's own
      name for it. */
  lemma LastInFirstOutExample()
    ensures WellFormed(PolyArena) && Closed(PolyArena, PolyItems)
    ensures FirstWins(VarNames(PolyArena, Popped(PolyArena, PolyItems))) == map[1 := "f/concrete_1/capture_0"]
    ensures FirstWins(FnNames(PolyArena, Popped(PolyArena, PolyItems))) == map[2 := "f/concrete_1"]
  {
    PolyPopOrder();
    PolyVarProposals();
    PolyFnProposals();
    PolyVarTable();
    PolyFnTable();
  }

  lemma PolyVarTable()
    ensures FirstWins([(1, "f/concrete_1/capture_0"), (1, "f/concrete_0/capture_0"), (1, "x")])
      == map[1 := "f/concrete_1/capture_0"]
  {
    var v0, v1, v2 := (1, "f/concrete_1/capture_0"), (1, "f/concrete_0/capture_0"), (1, "x");
    FirstWinsSnoc([], v0);
    assert [] + [v0] == [v0];
    FirstWinsSnoc([v0], v1);
    assert [v0] + [v1] == [v0, v1];
    FirstWinsSnoc([v0, v1], v2);
    assert [v0, v1] + [v2] == [v0, v1, v2];
  }

  lemma PolyFnTable()
    ensures FirstWins([(2, "f/concrete_1"), (2, "f/concrete_0")]) == map[2 := "f/concrete_1"]
  {
    var f0, f1 := (2, "f/concrete_1"), (2, "f/concrete_0");
    FirstWinsSnoc([], f0);
    assert [] + [f0] == [f0];
    FirstWinsSnoc([f0], f1);
    assert [f0] + [f1] == [f0, f1];
  }

  // ---------------------------------------------------------------------
  // Supplemental information

  /** A supplemental datum and, optionally, the relative file name to
      save it under instead of inlining it. */
  datatype SupplementalInfo<D> = SupplementalInfo(data: D, saveAs: Option<string>)

  /** `SaveOptions.supplemental_info`: absent, one record, or a string-keyed
      mapping of records. */
  datatype Supplementals<D> =
    | NoSupplementals
    | Single(info: SupplementalInfo<D>)
    | Named(infos: map<string, SupplementalInfo<D>>)

  /** What is handed to the manifest builder. */
  datatype SavedSupplementals<D> =
    | NoData
    | SingleData(data: D)
    | NamedData(entries: map<string, D>)

  /** `write_inlined_data_to_file(data, path, save_as)`, whose body is not
      part of this model: it writes the datum to `save_as` under `path` and
      returns the datum that refers to that file. */
  type Writer<!D> = (D, string, string) -> D

  function SaveSingleSupplemental<D>(write: Writer<D>, info: SupplementalInfo<D>, path: string): (r: D)
  {
    if info.saveAs.Some? then write(info.data, path, info.saveAs.value) else info.data
  }

  function SaveSupplementals<D>(write: Writer<D>, s: Supplementals<D>, path: string): (r: SavedSupplementals<D>)
    ensures s.NoSupplementals? <==> r.NoData?
    ensures s.Single? <==> r.SingleData?
    ensures s.Named? <==> r.NamedData?
    ensures s.Named? ==> r.entries.Keys == s.infos.Keys
    ensures s.Single? ==> r.data == SaveSingleSupplemental(write, s.info, path)
    ensures s.Named? ==> forall k :: k in s.infos ==> r.entries[k] == SaveSingleSupplemental(write, s.infos[k], path)
  {
    match s
    case NoSupplementals => NoData
    case Single(info) => SingleData(SaveSingleSupplemental(write, info, path))
    case Named(infos) =>
      NamedData(map k | k in infos :: SaveSingleSupplemental(write, infos[k], path))
  }

  /** A record without a file name is passed through unchanged, whatever
      the writer does; one with a file name is replaced by the writer's
      reference to that file. */
  lemma SingleSupplementalInline<D>(write: Writer<D>, info: SupplementalInfo<D>, path: string)
    ensures info.saveAs.None? ==> SaveSingleSupplemental(write, info, path) == info.data
    ensures forall w: Writer<D> :: info.saveAs.None? ==>
      SaveSingleSupplemental(w, info, path) == SaveSingleSupplemental(write, info, path)
    ensures info.saveAs.Some? ==>
      SaveSingleSupplemental(write, info, path) == write(info.data, path, info.saveAs.value)
  {
  }

  /** The supplementals as they would be embedded with no file names set. */
  function Inline<D>(s: Supplementals<D>): SavedSupplementals<D>
  {
    match s
    case NoSupplementals => NoData
    case Single(info) => SingleData(info.data)
    case Named(infos) => NamedData(map k | k in infos :: infos[k].data)
  }

  /** The file names the supplementals ask to be saved under. */
  function SaveAsNames<D>(s: Supplementals<D>): set<string>
  {
    match s
    case NoSupplementals => {}
    case Single(info) => if info.saveAs.Some? then {info.saveAs.value} else {}
    case Named(infos) => set k | k in infos && infos[k].saveAs.Some? :: infos[k].saveAs.value
  }

  lemma SaveAsNamesNamed<D>(infos: map<string, SupplementalInfo<D>>)
    ensures forall k :: k in infos && infos[k].saveAs.Some? ==> infos[k].saveAs.value in SaveAsNames(Named(infos))
  {
  }

  /** With no file names requested nothing is externalised and every
      datum is embedded as given. */
  lemma SupplementalsInlineWhenNoFileNames<D>(write: Writer<D>, s: Supplementals<D>, path: string)
    requires SaveAsNames(s) == {}
    ensures SaveSupplementals(write, s, path) == Inline(s)
  {
    if s.Named? {
      SaveAsNamesNamed(s.infos);
    }
  }

  /** Entries of a mapping are saved independently: an entry's result
      depends on that entry alone. */
  lemma SupplementalEntriesIndependent<D>(write: Writer<D>, a: map<string, SupplementalInfo<D>>,
                                          b: map<string, SupplementalInfo<D>>, path: string, k: string)
    requires k in a && k in b && a[k] == b[k]
    ensures k in SaveSupplementals(write, Named(a), path).entries
    ensures SaveSupplementals(write, Named(a), path).entries[k] == SaveSupplementals(write, Named(b), path).entries[k]
  {
  }

  // ---------------------------------------------------------------------
  // save

  /** `os.path.join(path, name)` for a relative `name`. */
  function JoinPath(path: string, name: string): (r: string)
    ensures |r| >= |path| + |name|
  {
    if path == [] || path[|path| - 1] == '/' then path + name else path + "/" + name
  }

  /** The joined path is `path`, a separator unless `path` already ends
      in one (or is empty), then `name`. */
  lemma JoinPathParts(path: string, name: string)
    ensures var r := JoinPath(path, name);
      && r[..|path|] == path
      && r[|r| - |name|..] == name
      && (path != [] ==> r[|r| - |name| - 1] == '/')
      && (path != [] && path[|path| - 1] != '/' ==> |r| == |path| + 1 + |name|)
      && (path == [] || path[|path| - 1] == '/' ==> |r| == |path| + |name|)
  {
  }

  /** The manifest's file name, `manifest.pb`. */
  const ManifestFileName: string := "manifest.pb"

  datatype SaveOptions<D> = SaveOptions(version: Option<int>, supplementalInfo: Supplementals<D>)

  datatype SaveError =
    | OptionsMissing   // ValueError: `options` must not be None
    | VersionTooLow    // the assertion `version is not None and version >= 2`

  /** What a successful save writes: the supplemental files named by
      `save_as` and then the manifest. */
  datatype SaveOutcome<M> = SaveOutcome(supplementalFiles: set<string>, manifestFile: string, manifest: M)

  /** `save(m, path, options)`. Building the manifest is `build`; the
      manifest written is built from the supplementals after they have been
      externalised. */
  function Save<Mod, D, M>(write: Writer<D>, build: (Mod, string, SavedSupplementals<D>) -> M,
                           m: Mod, path: string, options: Option<SaveOptions<D>>): (r: Result<SaveOutcome<M>, SaveError>)
    ensures options.None? ==> r == Failure(OptionsMissing)
    ensures options.Some? && (options.value.version.None? || options.value.version.value < 2) ==>
      r == Failure(VersionTooLow)
    ensures r.Success? <==> options.Some? && options.value.version.Some? && options.value.version.value >= 2
    ensures r.Success? ==>
      var supp := options.value.supplementalInfo;
      && r.value.manifestFile == JoinPath(path, ManifestFileName)
      && r.value.manifest == build(m, path, SaveSupplementals(write, supp, path))
      && r.value.supplementalFiles == set n | n in SaveAsNames(supp) :: JoinPath(path, n)
  {
    if options.None? then Failure(OptionsMissing)
    else if options.value.version.None? || options.value.version.value < 2 then Failure(VersionTooLow)
    else
      var supp := options.value.supplementalInfo;
      var saved := SaveSupplementals(write, supp, path);
      Success(SaveOutcome(set n | n in SaveAsNames(supp) :: JoinPath(path, n),
                          JoinPath(path, ManifestFileName), build(m, path, saved)))
  }

  /** The manifest lands in `path` itself, under its fixed name. */
  lemma ManifestInsidePath(path: string)
    ensures var f := JoinPath(path, ManifestFileName);
      f[..|path|] == path && f[|f| - |ManifestFileName|..] == ManifestFileName
      && |f| <= |path| + 1 + |ManifestFileName|
  {
    JoinPathParts(path, ManifestFileName);
  }
}
