/** Properties of the traversal: what every call preserves, which errors it
    can produce, when the recursion budget suffices, and how the options
    steer individual fields and containers. */
module TraversalFacts {
  import opened Text
  import opened Reflect
  import opened Errors
  import opened Config
  import opened Groups
  import opened Fields
  import opened Cache
  import opened Traversal

  /** The field cache invariant the traversal relies on and preserves. */
  ghost predicate CacheOK(m: CacheState) {
    Consistent(m) && Bounded(m) && WellIndexed(m)
  }

  /** The only errors the traversal itself produces: the skip_field sentinel
      (only when nil pointers are ignored), MaxDepthError with the configured
      limit (only when that limit is positive) and CircularReferenceError
      (only when the check is on). */
  predicate AllowedError(R: Run, e: GoError) {
    || (e == Plain(SkipField) && R.opts.ignoreNilPointers)
    || (e.Ours? && R.opts.maxDepth > 0 && e.e == MaxDepthError(e.e.path, R.opts.maxDepth))
    || (e.Ours? && !R.opts.disableCircularCheck && e.e == CircularReferenceError(e.e.path))
  }

  /** What every call guarantees about the state it leaves and the error it
      returns: visited addresses are never removed or changed, nothing is
      recorded when the cycle check is off, the cache stays consistent, and
      errors are among the allowed ones. */
  ghost predicate Keeps(R: Run, st: St, r: (Outcome, St)) {
    && Grows(st.visited, r.1.visited)
    && (R.opts.disableCircularCheck ==> r.1.visited == st.visited)
    && CacheOK(r.1.cache)
    && (r.0.Err? ==> AllowedError(R, r.0.err))
  }

  /** A budget that covers every level a positive MaxDepth lets the traversal
      enter from the given depth. */
  predicate Enough(R: Run, depth: int, fuel: nat) {
    R.opts.maxDepth > 0 && fuel > 0 && fuel > R.opts.maxDepth - depth
  }

  lemma {:induction false} ValueToMapKeeps(R: Run, c: Ctx, v: Value, st: St, fuel: nat)
    requires CacheOK(st.cache)
    ensures Keeps(R, st, ValueToMap(R, c, v, st, fuel))
    ensures Enough(R, c.depth, fuel) ==> !ValueToMap(R, c, v, st, fuel).0.OutOfFuel?
    decreases fuel, 0, v, 1, 0
  {
    if fuel > 0 && Composite(v) {
      assert ValueToMap(R, c, v, st, fuel) == Entered(R, c, v, st, fuel);
      EnteredKeeps(R, c, v, st, fuel);
    }
  }

  lemma {:induction false} EnteredKeeps(R: Run, c: Ctx, v: Value, st: St, fuel: nat)
    requires Composite(v) && fuel > 0
    requires CacheOK(st.cache)
    ensures Keeps(R, st, Entered(R, c, v, st, fuel))
    ensures Enough(R, c.depth, fuel) ==> !Entered(R, c, v, st, fuel).0.OutOfFuel?
    decreases fuel, 0, v, 0, 2
  {
    if R.opts.maxDepth > 0 && c.depth + 1 > R.opts.maxDepth {
      EnteredBeyond(R, c, v, st, fuel);
    } else {
      var (perr, visited) :=
        if KindOf(v) == Pointer || KindOf(v) == Map || KindOf(v) == Slice
        then CheckPointer(R.opts, c.path, v, st.visited) else (None, st.visited);
      if perr.None? {
        DispatchKeeps(R, Ctx(c.path, c.depth + 1), v, st.(visited := visited), fuel);
      }
      EnteredWithin(R, c, v, st, fuel);
    }
  }

  lemma {:induction false} DispatchKeeps(R: Run, inner: Ctx, v: Value, st: St, fuel: nat)
    requires Composite(v) && fuel > 0
    requires CacheOK(st.cache)
    ensures Keeps(R, st, Dispatch(R, inner, v, st, fuel))
    ensures Enough(R, inner.depth - 1, fuel) && inner.depth <= R.opts.maxDepth ==> !Dispatch(R, inner, v, st, fuel).0.OutOfFuel?
    decreases fuel, 0, v, 0, 1
  {
    match v
    case PtrV(a) =>
      if a in R.heap {
        ValueToMapKeeps(R, Ctx(WithPath(inner.path, ""), inner.depth), R.heap[a], st, fuel - 1);
      }
    case IfaceV(dyn) =>
      ValueToMapKeeps(R, Ctx(WithPath(inner.path, ""), inner.depth), dyn, st, fuel - 1);
    case StructV(_, _) =>
      StructToMapKeeps(R, inner, v, st, fuel - 1);
    case MapV(_, _) =>
      ContainerKeeps(R, inner, v, st, fuel);
    case SliceV(_, _) =>
      ContainerKeeps(R, inner, v, st, fuel);
    case ArrayV(_) =>
      ContainerKeeps(R, inner, v, st, fuel);
    case _ =>
  }

  /** DispatchKeeps for maps, slices and arrays. */
  lemma {:induction false} ContainerKeeps(R: Run, inner: Ctx, v: Value, st: St, fuel: nat)
    requires (v.MapV? || v.SliceV? || v.ArrayV?) && fuel > 0
    requires CacheOK(st.cache)
    ensures Keeps(R, st, Dispatch(R, inner, v, st, fuel))
    ensures Enough(R, inner.depth - 1, fuel) && inner.depth <= R.opts.maxDepth ==> !Dispatch(R, inner, v, st, fuel).0.OutOfFuel?
    decreases fuel, 0, v, 0, 0
  {
    match v
    case MapV(_, es) =>
      if !(|es| == 0 && R.opts.nullIfEmpty) {
        MapFoldKeeps(R, inner, v, es, 0, map[], st, fuel - 1);
      }
    case SliceV(_, es) =>
      if |es| > 0 {
        SliceFoldKeeps(R, inner, v, es, 0, [], st, fuel - 1);
      }
    case ArrayV(es) =>
      if |es| > 0 {
        SliceFoldKeeps(R, inner, v, es, 0, [], st, fuel - 1);
      }
  }

  lemma {:induction false} StructToMapKeeps(R: Run, c: Ctx, v: Value, st: St, fuel: nat)
    requires v.StructV? || v.TimeV?
    requires CacheOK(st.cache)
    ensures Keeps(R, st, StructToMap(R, c, v, st, fuel))
    ensures Enough(R, c.depth, fuel) ==> !StructToMap(R, c, v, st, fuel).0.OutOfFuel?
    decreases fuel, 1, v, 1, 0
  {
    var t := TypeOfStruct(v);
    LookupConsistent(st.cache, t, R.types, R.opts.tagKey);
    LookupWellIndexed(st.cache, t, R.types, R.opts.tagKey);
    var (fields, cache1) := LookupSpec(st.cache, t, R.types, R.opts.tagKey);
    StructFoldKeeps(R, c, v, fields, 0, map[], st.(cache := cache1), fuel);
  }

  lemma {:induction false} StructFoldKeeps(R: Run, c: Ctx, v: Value, fields: seq<FieldInfo>, i: nat,
                                           acc: map<string, IR>, st: St, fuel: nat)
    requires i <= |fields|
    requires forall j :: 0 <= j < |fields| ==> fields[j].index != []
    requires CacheOK(st.cache)
    ensures Keeps(R, st, StructFold(R, c, v, fields, i, acc, st, fuel))
    ensures Enough(R, c.depth, fuel) ==> !StructFold(R, c, v, fields, i, acc, st, fuel).0.OutOfFuel?
    decreases fuel, 1, v, 0, |fields| - i
  {
    if i < |fields| {
      var fi := fields[i];
      if !ShouldIncludeField(fi.groups, R.mode, R.groups) {
        StructFoldKeeps(R, c, v, fields, i + 1, acc, st, fuel);
      } else {
        var fc := Ctx(WithPath(c.path, fi.name), c.depth);
        match FieldByIndex(v, fi.index)
        case None =>
        case Some(fv) =>
          if fi.anonymous && KindOf(fv) == Struct {
            FieldByIndexSmaller(v, fi.index);
            var (o, st1) := StructToMap(R, fc, fv, st, fuel);
            StructToMapKeeps(R, fc, fv, st, fuel);
            if o.Ok? {
              StructFoldKeeps(R, c, v, fields, i + 1, Merge(acc, o.ir), st1, fuel);
            }
          } else {
            match FieldDisposition(R.opts, fi, fv)
            case Skip =>
              StructFoldKeeps(R, c, v, fields, i + 1, acc, st, fuel);
            case EmitNull =>
              StructFoldKeeps(R, c, v, fields, i + 1, acc[fi.jsonName := Null], st, fuel);
            case Recurse =>
              var (o, st1) := ValueToMap(R, fc, fv, st, fuel);
              ValueToMapKeeps(R, fc, fv, st, fuel);
              var acc' :=
                if o.Ok? && o.ir != Null then acc[fi.jsonName := o.ir]
                else if o.Ok? && R.opts.nullIfEmpty then acc[fi.jsonName := Null]
                else acc;
              if (o.Err? && ErrorText(o.err) == SkipField) || o.Ok? {
                StructFoldKeeps(R, c, v, fields, i + 1, acc', st1, fuel);
              }
          }
      }
    }
  }

  lemma {:induction false} SliceFoldKeeps(R: Run, c: Ctx, v: Value, es: seq<Value>, i: nat, acc: seq<IR>,
                                          st: St, fuel: nat)
    requires i <= |es|
    requires CacheOK(st.cache)
    ensures Keeps(R, st, SliceFold(R, c, v, es, i, acc, st, fuel))
    ensures Enough(R, c.depth, fuel) ==> !SliceFold(R, c, v, es, i, acc, st, fuel).0.OutOfFuel?
    decreases fuel, 1, v, 0, |es| - i
  {
    if i < |es| {
      var c1 := Ctx(WithPath(c.path, IndexSegment(i)), c.depth);
      var (o, st1) := ValueToMap(R, c1, es[i], st, fuel);
      ValueToMapKeeps(R, c1, es[i], st, fuel);
      if o.Ok? {
        var acc' := if o.ir != Null || R.opts.nullIfEmpty then acc + [o.ir] else acc;
        SliceFoldKeeps(R, c, v, es, i + 1, acc', st1, fuel);
      }
    }
  }

  lemma {:induction false} MapFoldKeeps(R: Run, c: Ctx, v: Value, es: seq<MapEntry>, i: nat, acc: map<string, IR>,
                                        st: St, fuel: nat)
    requires i <= |es|
    requires CacheOK(st.cache)
    ensures Keeps(R, st, MapFold(R, c, v, es, i, acc, st, fuel))
    ensures Enough(R, c.depth, fuel) ==> !MapFold(R, c, v, es, i, acc, st, fuel).0.OutOfFuel?
    decreases fuel, 1, v, 0, |es| - i
  {
    if i < |es| {
      var key := KeyString(es[i].key);
      var c1 := Ctx(WithPath(c.path, key), c.depth);
      var (o, st1) := ValueToMap(R, c1, es[i].val, st, fuel);
      ValueToMapKeeps(R, c1, es[i].val, st, fuel);
      if o.Ok? {
        var acc' := if o.ir != Null || R.opts.nullIfEmpty then acc[key := o.ir] else acc;
        MapFoldKeeps(R, c, v, es, i + 1, acc', st1, fuel);
      }
    }
  }

  // ------------------------------------------------------------ at the top

  /** What MarshalToMapWithOptions can report, given a consistent cache: a
      depth error only under a positive MaxDepth, a circular reference only
      with the check on, and the skip_field sentinel (turned into an Unknown
      error at path "Root") only when nil pointers are ignored. The cache
      stays consistent, and a budget larger than MaxDepth always suffices. */
  lemma MarshalOutcomes(v: Option<Value>, heap: Heap, types: TypeEnv, opts: Options, groups: seq<string>,
                        cache: CacheState, fuel: nat)
    requires CacheOK(cache)
    ensures var r := MarshalToMap(v, heap, types, opts, groups, cache, fuel);
            && CacheOK(r.1)
            && (r.0.ErrOut? ==>
                  r.0.e.Ours? &&
                  var e := r.0.e.e;
                  || (opts.maxDepth > 0 && e == MaxDepthError(e.path, opts.maxDepth))
                  || (!opts.disableCircularCheck && e == CircularReferenceError(e.path))
                  || (opts.ignoreNilPointers && e == Error(Unknown, SkipField, RootPath, CausedBy(Plain(SkipField)))))
            && (v.Some? && opts.maxDepth > 0 && fuel > opts.maxDepth ==> !r.0.FuelOut?)
  {
    if v.Some? {
      var R := Run(heap, types, opts, groups, opts.groupMode);
      ValueToMapKeeps(R, Ctx("", 0), v.value, St(map[], cache), fuel);
    }
  }

  // ------------------------------------------------------- unfolding steps

  /** Entering a composite value within the depth limit whose pointer check
      passes leads to the kind switch one level deeper. */
  lemma EnterStep(R: Run, c: Ctx, v: Value, st: St, fuel: nat)
    requires Composite(v) && fuel > 0
    requires !(R.opts.maxDepth > 0 && c.depth + 1 > R.opts.maxDepth)
    requires Tracked(v) ==> CheckPointer(R.opts, c.path, v, st.visited).0.None?
    ensures var visited := CheckPointer(R.opts, c.path, v, st.visited).1;
            ValueToMap(R, c, v, st, fuel) == Dispatch(R, Ctx(c.path, c.depth + 1), v, st.(visited := visited), fuel)
  {
    assert ValueToMap(R, c, v, st, fuel) == Entered(R, c, v, st, fuel);
  }

  /** One step of the struct loop for a field outside the requested groups. */
  lemma StructFoldExcludedStep(R: Run, c: Ctx, v: Value, fields: seq<FieldInfo>, i: nat, acc: map<string, IR>,
                               st: St, fuel: nat)
    requires i < |fields| && !ShouldIncludeField(fields[i].groups, R.mode, R.groups)
    ensures StructFold(R, c, v, fields, i, acc, st, fuel) == StructFold(R, c, v, fields, i + 1, acc, st, fuel)
  {
  }

  /** One step of the struct loop for an embedded struct: its keys are merged in. */
  lemma StructFoldEmbeddedStep(R: Run, c: Ctx, v: Value, fields: seq<FieldInfo>, i: nat, acc: map<string, IR>,
                               st: St, fuel: nat, fv: Value)
    requires i < |fields| && ShouldIncludeField(fields[i].groups, R.mode, R.groups)
    requires FieldByIndex(v, fields[i].index) == Some(fv) && fields[i].anonymous && KindOf(fv) == Struct
    requires fields[i].index != []
    ensures var r := StructToMap(R, Ctx(WithPath(c.path, fields[i].name), c.depth), fv, st, fuel);
            StructFold(R, c, v, fields, i, acc, st, fuel)
              == if !r.0.Ok? then r else StructFold(R, c, v, fields, i + 1, Merge(acc, r.0.ir), r.1, fuel)
  {
  }

  /** One step of the struct loop for a field that is kept without recursing:
      skipped, or set to null. */
  lemma StructFoldPlainStep(R: Run, c: Ctx, v: Value, fields: seq<FieldInfo>, i: nat, acc: map<string, IR>,
                            st: St, fuel: nat, fv: Value)
    requires i < |fields| && ShouldIncludeField(fields[i].groups, R.mode, R.groups)
    requires FieldByIndex(v, fields[i].index) == Some(fv) && !(fields[i].anonymous && KindOf(fv) == Struct)
    requires FieldDisposition(R.opts, fields[i], fv) != Recurse
    ensures StructFold(R, c, v, fields, i, acc, st, fuel)
              == StructFold(R, c, v, fields, i + 1,
                            if FieldDisposition(R.opts, fields[i], fv) == Skip then acc else acc[fields[i].jsonName := Null],
                            st, fuel)
  {
  }

  /** One step of the struct loop for a field whose value is converted. */
  lemma StructFoldRecurseStep(R: Run, c: Ctx, v: Value, fields: seq<FieldInfo>, i: nat, acc: map<string, IR>,
                              st: St, fuel: nat, fv: Value)
    requires i < |fields| && ShouldIncludeField(fields[i].groups, R.mode, R.groups)
    requires FieldByIndex(v, fields[i].index) == Some(fv) && !(fields[i].anonymous && KindOf(fv) == Struct)
    requires FieldDisposition(R.opts, fields[i], fv) == Recurse
    ensures var name := fields[i].jsonName;
            var r := ValueToMap(R, Ctx(WithPath(c.path, fields[i].name), c.depth), fv, st, fuel);
            StructFold(R, c, v, fields, i, acc, st, fuel)
              == if r.0.Err? && ErrorText(r.0.err) == SkipField then StructFold(R, c, v, fields, i + 1, acc, r.1, fuel)
                 else if !r.0.Ok? then r
                 else StructFold(R, c, v, fields, i + 1,
                                 if r.0.ir != Null then acc[name := r.0.ir]
                                 else if R.opts.nullIfEmpty then acc[name := Null] else acc,
                                 r.1, fuel)
  {
  }

  /** A non-empty slice is converted by the slice loop. */
  lemma SliceDispatch(R: Run, inner: Ctx, a: Addr, es: seq<Value>, st: St, fuel: nat)
    requires es != [] && fuel > 0
    ensures Dispatch(R, inner, SliceV(a, es), st, fuel) == SliceFold(R, inner, SliceV(a, es), es, 0, [], st, fuel - 1)
  {
  }

  /** Within the depth limit: the pointer check, then the kind switch one
      level down. */
  lemma EnteredWithin(R: Run, c: Ctx, v: Value, st: St, fuel: nat)
    requires Composite(v) && fuel > 0
    requires !(R.opts.maxDepth > 0 && c.depth + 1 > R.opts.maxDepth)
    ensures var (perr, visited) :=
              if KindOf(v) == Pointer || KindOf(v) == Map || KindOf(v) == Slice
              then CheckPointer(R.opts, c.path, v, st.visited) else (None, st.visited);
            Entered(R, c, v, st, fuel)
              == if perr.Some? then (Err(perr.value), st.(visited := visited))
                 else Dispatch(R, Ctx(c.path, c.depth + 1), v, st.(visited := visited), fuel)
  {
  }

  /** Beyond the depth limit: empty slices and maps still convert, anything
      else fails with MaxDepthError. */
  lemma EnteredBeyond(R: Run, c: Ctx, v: Value, st: St, fuel: nat)
    requires Composite(v) && fuel > 0
    requires R.opts.maxDepth > 0 && c.depth + 1 > R.opts.maxDepth
    ensures Entered(R, c, v, st, fuel)
              == if (KindOf(v) == Slice || KindOf(v) == Map) && Len(v) == 0 then
                   (Ok(if R.opts.nullIfEmpty then Null else if KindOf(v) == Slice then ListVal([]) else ObjVal(map[])), st)
                 else (Err(Ours(MaxDepthError(c.path, R.opts.maxDepth))), st)
  {
  }

  /** A struct is converted by structToMap. */
  lemma StructDispatch(R: Run, inner: Ctx, v: Value, st: St, fuel: nat)
    requires v.StructV? && fuel > 0
    ensures Dispatch(R, inner, v, st, fuel) == StructToMap(R, inner, v, st, fuel - 1)
  {
  }

  /** A map that is not empty under NullIfEmpty is converted by the map loop. */
  lemma MapDispatch(R: Run, inner: Ctx, v: Value, st: St, fuel: nat)
    requires v.MapV? && fuel > 0 && !(|v.entries| == 0 && R.opts.nullIfEmpty)
    ensures Dispatch(R, inner, v, st, fuel) == MapFold(R, inner, v, v.entries, 0, map[], st, fuel - 1)
  {
  }

  /** A non-empty slice or array is converted by the slice loop. */
  lemma ListDispatch(R: Run, inner: Ctx, v: Value, st: St, fuel: nat)
    requires (v.SliceV? || v.ArrayV?) && |v.elems| > 0 && fuel > 0
    ensures Dispatch(R, inner, v, st, fuel) == SliceFold(R, inner, v, v.elems, 0, [], st, fuel - 1)
  {
  }

  /** A pointer into the heap is followed, with an empty path segment. */
  lemma PtrDispatch(R: Run, inner: Ctx, a: Addr, st: St, fuel: nat)
    requires a in R.heap && fuel > 0
    ensures Dispatch(R, inner, PtrV(a), st, fuel)
              == ValueToMap(R, Ctx(WithPath(inner.path, ""), inner.depth), R.heap[a], st, fuel - 1)
  {
  }

  // ---------------------------------------------------------------- depth

  /** n single-element slices nested around a leaf, at addresses n, n-1, ..., 1. */
  function Tower(n: nat, leaf: Value): Value {
    if n == 0 then leaf else SliceV(n, [Tower(n - 1, leaf)])
  }

  /** The tree of Tower(n, leaf) when nothing goes wrong. */
  function TowerIR(n: nat, leaf: IR): IR {
    if n == 0 then leaf else ListVal([TowerIR(n - 1, leaf)])
  }

  /** Depth accounting: every slice level is entered one deeper than its
      parent, so n nested slices entered from depth d fail with
      MaxDepthExceeded exactly when MaxDepth > 0 and d + n > MaxDepth, and are
      otherwise converted level by level. */
  lemma {:induction false} TowerDepth(R: Run, c: Ctx, n: nat, x: int, st: St, fuel: nat)
    requires fuel > n
    requires R.opts.maxDepth > 0 ==> c.depth <= R.opts.maxDepth
    requires forall a :: a in st.visited ==> a > n
    ensures var o := ValueToMap(R, c, Tower(n, IntV(x)), st, fuel).0;
            && (R.opts.maxDepth > 0 && c.depth + n > R.opts.maxDepth ==>
                  o.Err? && o.err.Ours? && o.err.e.kind == MaxDepthExceeded)
            && (!(R.opts.maxDepth > 0 && c.depth + n > R.opts.maxDepth) ==> o == Ok(TowerIR(n, IntVal(x))))
    decreases n, 1
  {
    if n > 0 {
      if R.opts.maxDepth > 0 && c.depth + 1 > R.opts.maxDepth {
        TowerBeyond(R, c, n, x, st, fuel);
      } else {
        TowerWithin(R, c, n, x, st, fuel);
      }
    }
  }

  /** A tower entered one level past the limit fails at its own path. */
  lemma TowerBeyond(R: Run, c: Ctx, n: nat, x: int, st: St, fuel: nat)
    requires n > 0 && fuel > 0
    requires R.opts.maxDepth > 0 && c.depth + 1 > R.opts.maxDepth
    ensures ValueToMap(R, c, Tower(n, IntV(x)), st, fuel).0 == Err(Ours(MaxDepthError(c.path, R.opts.maxDepth)))
  {
    var v := SliceV(n, [Tower(n - 1, IntV(x))]);
    assert Tower(n, IntV(x)) == v;
    EnteredBeyond(R, c, v, st, fuel);
    assert ValueToMap(R, c, v, st, fuel) == Entered(R, c, v, st, fuel);
  }

  /** The inductive step of TowerDepth: the outer slice is entered and its
      one element, the tower one lower, is converted one level deeper. */
  lemma {:induction false} TowerWithin(R: Run, c: Ctx, n: nat, x: int, st: St, fuel: nat)
    requires n > 0 && fuel > n
    requires !(R.opts.maxDepth > 0 && c.depth + 1 > R.opts.maxDepth)
    requires forall a :: a in st.visited ==> a > n
    ensures var o := ValueToMap(R, c, Tower(n, IntV(x)), st, fuel).0;
            && (R.opts.maxDepth > 0 && c.depth + n > R.opts.maxDepth ==>
                  o.Err? && o.err.Ours? && o.err.e.kind == MaxDepthExceeded)
            && (!(R.opts.maxDepth > 0 && c.depth + n > R.opts.maxDepth) ==> o == Ok(TowerIR(n, IntVal(x))))
    decreases n, 0
  {
    var t := Tower(n - 1, IntV(x));
    var st1 := st.(visited := CheckPointer(R.opts, c.path, SliceV(n, [t]), st.visited).1);
    TowerUnfold(n, x);
    SingletonSliceStep(R, c, n, t, st, fuel - 1);
    TowerDepth(R, Ctx(WithPath(c.path, IndexSegment(0)), c.depth + 1), n - 1, x, st1, fuel - 1);
  }

  /** One level of a tower and of its conversion. */
  lemma TowerUnfold(n: nat, x: int)
    requires n > 0
    ensures Tower(n, IntV(x)) == SliceV(n, [Tower(n - 1, IntV(x))])
    ensures TowerIR(n, IntVal(x)) == ListVal([TowerIR(n - 1, IntVal(x))]) && TowerIR(n - 1, IntVal(x)) != Null
  {
  }

  /** A slice of one element at a new address, within the depth limit: the
      element is converted one level down under "[0]". */
  lemma SingletonSliceStep(R: Run, c: Ctx, a: Addr, t: Value, st: St, fuel: nat)
    requires !(R.opts.maxDepth > 0 && c.depth + 1 > R.opts.maxDepth)
    requires a !in st.visited
    ensures var st1 := st.(visited := CheckPointer(R.opts, c.path, SliceV(a, [t]), st.visited).1);
            var r1 := ValueToMap(R, Ctx(WithPath(c.path, IndexSegment(0)), c.depth + 1), t, st1, fuel);
            ValueToMap(R, c, SliceV(a, [t]), st, fuel + 1)
              == if !r1.0.Ok? then r1
                 else (Ok(ListVal(if r1.0.ir != Null || R.opts.nullIfEmpty then [r1.0.ir] else [])), r1.1)
  {
    SliceEnterStep(R, c, a, [t], st, fuel);
    SingletonSliceFold(R, Ctx(c.path, c.depth + 1), SliceV(a, [t]), t,
                       st.(visited := CheckPointer(R.opts, c.path, SliceV(a, [t]), st.visited).1), fuel);
  }

  /** A non-empty slice within the depth limit that passes the pointer
      check: the slice loop one level down. */
  lemma SliceEnterStep(R: Run, c: Ctx, a: Addr, es: seq<Value>, st: St, fuel: nat)
    requires es != []
    requires !(R.opts.maxDepth > 0 && c.depth + 1 > R.opts.maxDepth)
    requires CheckPointer(R.opts, c.path, SliceV(a, es), st.visited).0.None?
    ensures ValueToMap(R, c, SliceV(a, es), st, fuel + 1)
              == SliceFold(R, Ctx(c.path, c.depth + 1), SliceV(a, es), es, 0, [],
                           st.(visited := CheckPointer(R.opts, c.path, SliceV(a, es), st.visited).1), fuel)
  {
    var st1 := st.(visited := CheckPointer(R.opts, c.path, SliceV(a, es), st.visited).1);
    EnterStep(R, c, SliceV(a, es), st, fuel + 1);
    SliceDispatch(R, Ctx(c.path, c.depth + 1), a, es, st1, fuel + 1);
  }

  /** The slice loop over one element. */
  lemma SingletonSliceFold(R: Run, inner: Ctx, v: Value, t: Value, st: St, fuel: nat)
    ensures var r1 := ValueToMap(R, Ctx(WithPath(inner.path, IndexSegment(0)), inner.depth), t, st, fuel);
            SliceFold(R, inner, v, [t], 0, [], st, fuel)
              == if !r1.0.Ok? then r1
                 else (Ok(ListVal(if r1.0.ir != Null || R.opts.nullIfEmpty then [r1.0.ir] else [])), r1.1)
  {
    SliceFoldStep(R, inner, v, [t], 0, [], st, fuel);
    var r1 := ValueToMap(R, Ctx(WithPath(inner.path, IndexSegment(0)), inner.depth), t, st, fuel);
    if r1.0.Ok? {
      var keep := if r1.0.ir != Null || R.opts.nullIfEmpty then [r1.0.ir] else [];
      assert [] + [r1.0.ir] == [r1.0.ir];
      assert SliceFold(R, inner, v, [t], 1, keep, r1.1, fuel) == (Ok(ListVal(keep)), r1.1);
    }
  }

  /** At the top: under a positive MaxDepth, n nested slices are refused
      exactly when n > MaxDepth; the default options allow 32 levels. */
  lemma TowerAtTop(n: nat, x: int, heap: Heap, types: TypeEnv, opts: Options, groups: seq<string>,
                   cache: CacheState, fuel: nat)
    requires opts.maxDepth > 0 && fuel > n
    ensures var r := MarshalToMap(Some(Tower(n, IntV(x))), heap, types, opts, groups, cache, fuel).0;
            && (n > opts.maxDepth <==> r.ErrOut?)
            && (r.ErrOut? ==> r.e.Ours? && r.e.e.kind == MaxDepthExceeded)
  {
    var R := Run(heap, types, opts, groups, opts.groupMode);
    TowerDepth(R, Ctx("", 0), n, x, St(map[], cache), fuel);
  }

  // ---------------------------------------------------------------- cycles

  /** How MarshalToMapWithOptions shapes the outcome of the root call. */
  lemma MarshalStep(v: Value, heap: Heap, types: TypeEnv, opts: Options, groups: seq<string>,
                    cache: CacheState, fuel: nat)
    ensures var o := ValueToMap(Run(heap, types, opts, groups, opts.groupMode), Ctx("", 0), v, St(map[], cache), fuel).0;
            var r := MarshalToMap(Some(v), heap, types, opts, groups, cache, fuel).0;
            && (o.Err? && o.err.Ours? ==> r == ErrOut(o.err))
            && (o.Err? && o.err.Plain? ==> r == ErrOut(Ours(Error(Unknown, o.err.text, RootPath, CausedBy(o.err)))))
            && (o.Ok? && !o.ir.ObjVal? ==> r == MapOut(Some(map["value" := o.ir])))
  {
  }

  /** A two-element slice at the root: its address is recorded (unless the
      cycle check is off) and the slice loop runs at depth 1; its outcome
      reaches the caller as MarshalStep describes. */
  lemma MarshalPair(a: Addr, e0: Value, e1: Value, heap: Heap, types: TypeEnv, opts: Options, groups: seq<string>,
                    cache: CacheState, fuel: nat)
    ensures var R := Run(heap, types, opts, groups, opts.groupMode);
            var st1 := St(if opts.disableCircularCheck then map[] else map[a := ""], cache);
            var o := SliceFold(R, Ctx("", 1), SliceV(a, [e0, e1]), [e0, e1], 0, [], st1, fuel).0;
            var r := MarshalToMap(Some(SliceV(a, [e0, e1])), heap, types, opts, groups, cache, fuel + 1).0;
            && (o.Err? && o.err.Ours? ==> r == ErrOut(o.err))
            && (o.Err? && o.err.Plain? ==> r == ErrOut(Ours(Error(Unknown, o.err.text, RootPath, CausedBy(o.err)))))
            && (o.Ok? && !o.ir.ObjVal? ==> r == MapOut(Some(map["value" := o.ir])))
  {
    SliceEnterStep(Run(heap, types, opts, groups, opts.groupMode), Ctx("", 0), a, [e0, e1], St(map[], cache), fuel);
    MarshalStep(SliceV(a, [e0, e1]), heap, types, opts, groups, cache, fuel + 1);
  }

  /** A pointer to a scalar, within the depth limit and passing the pointer
      check: the scalar is converted one level down under an empty segment. */
  lemma PointerToScalar(R: Run, c: Ctx, a: Addr, st: St, fuel: nat)
    requires fuel > 1 && a in R.heap && !Composite(R.heap[a])
    requires !(R.opts.maxDepth > 0 && c.depth + 1 > R.opts.maxDepth)
    requires CheckPointer(R.opts, c.path, PtrV(a), st.visited).0.None?
    ensures ValueToMap(R, c, PtrV(a), st, fuel)
              == ValueToMap(R, Ctx(WithPath(c.path, ""), c.depth + 1), R.heap[a],
                            st.(visited := CheckPointer(R.opts, c.path, PtrV(a), st.visited).1), fuel - 1)
  {
    var st1 := st.(visited := CheckPointer(R.opts, c.path, PtrV(a), st.visited).1);
    EnterStep(R, c, PtrV(a), st, fuel);
    PtrDispatch(R, Ctx(c.path, c.depth + 1), a, st1, fuel);
  }

  /** The visited map is never pruned: a pointer shared by two elements of a
      slice, with no cycle at all, is reported as a circular reference at
      the second element's path. */
  lemma SharedPointerIsReported(types: TypeEnv, cache: CacheState)
    ensures MarshalToMap(Some(SliceV(1, [PtrV(7), PtrV(7)])), map[7 := IntV(5)], types, DefaultOptions(), [], cache, 3).0
              == ErrOut(Ours(CircularReferenceError("[1]")))
  {
    SharedPointerLoop(types, cache);
    MarshalPair(1, PtrV(7), PtrV(7), map[7 := IntV(5)], types, DefaultOptions(), [], cache, 2);
  }

  /** The slice loop of SharedPointerIsReported: the first element records
      address 7 under "[0]", the second finds it. */
  lemma SharedPointerLoop(types: TypeEnv, cache: CacheState)
    ensures SliceFold(Run(map[7 := IntV(5)], types, DefaultOptions(), [], DefaultOptions().groupMode), Ctx("", 1),
                      SliceV(1, [PtrV(7), PtrV(7)]), [PtrV(7), PtrV(7)], 0, [], St(map[1 := ""], cache), 2).0
              == Err(Ours(CircularReferenceError("[1]")))
  {
    var p0 := WithPath("", IndexSegment(0));
    var p1 := WithPath("", IndexSegment(1));
    assert p1 == "[1]";
    FirstSharedElement(types, p0, cache);
    SecondSharedElement(types, p0, p1, cache);
    PairSliceFold(Run(map[7 := IntV(5)], types, DefaultOptions(), [], DefaultOptions().groupMode), Ctx("", 1),
                  SliceV(1, [PtrV(7), PtrV(7)]), PtrV(7), PtrV(7), St(map[1 := ""], cache), 2);
  }

  /** The first element of SharedPointerLoop: address 7 is recorded. */
  lemma FirstSharedElement(types: TypeEnv, p0: string, cache: CacheState)
    ensures ValueToMap(Run(map[7 := IntV(5)], types, DefaultOptions(), [], DefaultOptions().groupMode), Ctx(p0, 1),
                       PtrV(7), St(map[1 := ""], cache), 2)
              == (Ok(IntVal(5)), St(map[1 := "", 7 := p0], cache))
  {
    PointerToScalar(Run(map[7 := IntV(5)], types, DefaultOptions(), [], DefaultOptions().groupMode), Ctx(p0, 1), 7,
                    St(map[1 := ""], cache), 2);
  }

  /** The second element of SharedPointerLoop: address 7 is found. */
  lemma SecondSharedElement(types: TypeEnv, p0: string, p1: string, cache: CacheState)
    ensures ValueToMap(Run(map[7 := IntV(5)], types, DefaultOptions(), [], DefaultOptions().groupMode), Ctx(p1, 1),
                       PtrV(7), St(map[1 := "", 7 := p0], cache), 2).0
              == Err(Ours(CircularReferenceError(p1)))
  {
    var R := Run(map[7 := IntV(5)], types, DefaultOptions(), [], DefaultOptions().groupMode);
    var st := St(map[1 := "", 7 := p0], cache);
    assert ValueToMap(R, Ctx(p1, 1), PtrV(7), st, 2) == Entered(R, Ctx(p1, 1), PtrV(7), st, 2);
  }

  /** With the cycle check off, the same slice converts both elements. */
  lemma SharedPointerWithoutCheck(types: TypeEnv, cache: CacheState)
    ensures MarshalToMap(Some(SliceV(1, [PtrV(7), PtrV(7)])), map[7 := IntV(5)], types,
                         DefaultOptions().WithDisableCircularCheck(true), [], cache, 3).0
              == MapOut(Some(map["value" := ListVal([IntVal(5), IntVal(5)])]))
  {
    UncheckedPointerLoop(types, cache);
    MarshalPair(1, PtrV(7), PtrV(7), map[7 := IntV(5)], types, DefaultOptions().WithDisableCircularCheck(true), [],
                cache, 2);
  }

  /** The slice loop of SharedPointerWithoutCheck: nothing is recorded, so
      both elements are followed. */
  lemma UncheckedPointerLoop(types: TypeEnv, cache: CacheState)
    ensures var o := DefaultOptions().WithDisableCircularCheck(true);
            SliceFold(Run(map[7 := IntV(5)], types, o, [], o.groupMode), Ctx("", 1),
                      SliceV(1, [PtrV(7), PtrV(7)]), [PtrV(7), PtrV(7)], 0, [], St(map[], cache), 2).0
              == Ok(ListVal([IntVal(5), IntVal(5)]))
  {
    var o := DefaultOptions().WithDisableCircularCheck(true);
    assert [IntVal(5)] + [IntVal(5)] == [IntVal(5), IntVal(5)];
    UncheckedElement(types, WithPath("", IndexSegment(0)), cache);
    UncheckedElement(types, WithPath("", IndexSegment(1)), cache);
    PairSliceFold(Run(map[7 := IntV(5)], types, o, [], o.groupMode), Ctx("", 1), SliceV(1, [PtrV(7), PtrV(7)]),
                  PtrV(7), PtrV(7), St(map[], cache), 2);
  }

  /** An element of UncheckedPointerLoop: the pointer is followed and nothing
      is recorded. */
  lemma UncheckedElement(types: TypeEnv, path: string, cache: CacheState)
    ensures var o := DefaultOptions().WithDisableCircularCheck(true);
            ValueToMap(Run(map[7 := IntV(5)], types, o, [], o.groupMode), Ctx(path, 1), PtrV(7), St(map[], cache), 2)
              == (Ok(IntVal(5)), St(map[], cache))
  {
    var o := DefaultOptions().WithDisableCircularCheck(true);
    PointerToScalar(Run(map[7 := IntV(5)], types, o, [], o.groupMode), Ctx(path, 1), 7, St(map[], cache), 2);
  }

  // ---------------------------------------------------------- nil pointers

  /** A nil pointer inside a slice aborts the whole slice with the skip_field
      sentinel when nil pointers are ignored; at the top that sentinel comes
      back as an Unknown error at path "Root". */
  lemma NilPointerAbortsSlice(heap: Heap, types: TypeEnv, opts: Options, groups: seq<string>, cache: CacheState)
    requires opts.ignoreNilPointers
    ensures MarshalToMap(Some(SliceV(1, [IntV(1), NilPtr])), heap, types, opts, groups, cache, 2).0
              == ErrOut(Ours(Error(Unknown, SkipField, RootPath, CausedBy(Plain(SkipField)))))
  {
    NilPointerLoop(Run(heap, types, opts, groups, opts.groupMode),
                   St(if opts.disableCircularCheck then map[] else map[1 := ""], cache));
    MarshalPair(1, IntV(1), NilPtr, heap, types, opts, groups, cache, 1);
  }

  /** The slice loop of NilPointerAbortsSlice: the integer converts; the nil
      pointer ends the loop with the sentinel when nil pointers are ignored
      and is otherwise null, kept only under NullIfEmpty. */
  lemma NilPointerLoop(R: Run, st: St)
    ensures SliceFold(R, Ctx("", 1), SliceV(1, [IntV(1), NilPtr]), [IntV(1), NilPtr], 0, [], st, 1).0
              == if R.opts.ignoreNilPointers then Err(Plain(SkipField))
                 else Ok(ListVal(if R.opts.nullIfEmpty then [IntVal(1), Null] else [IntVal(1)]))
  {
    assert [IntVal(1)] + [Null] == [IntVal(1), Null];
    assert [IntVal(1)] + [] == [IntVal(1)];
    PairSliceFold(R, Ctx("", 1), SliceV(1, [IntV(1), NilPtr]), IntV(1), NilPtr, st, 1);
  }

  /** The slice loop over two elements: the second is converted in the state
      the first left, and a failure of either ends the loop. */
  lemma PairSliceFold(R: Run, inner: Ctx, v: Value, e0: Value, e1: Value, st: St, fuel: nat)
    ensures var r0 := ValueToMap(R, Ctx(WithPath(inner.path, IndexSegment(0)), inner.depth), e0, st, fuel);
            var r1 := ValueToMap(R, Ctx(WithPath(inner.path, IndexSegment(1)), inner.depth), e1, r0.1, fuel);
            var keep0 := if r0.0.Ok? && (r0.0.ir != Null || R.opts.nullIfEmpty) then [r0.0.ir] else [];
            var keep1 := if r1.0.Ok? && (r1.0.ir != Null || R.opts.nullIfEmpty) then [r1.0.ir] else [];
            SliceFold(R, inner, v, [e0, e1], 0, [], st, fuel)
              == if !r0.0.Ok? then r0
                 else if !r1.0.Ok? then r1
                 else (Ok(ListVal(keep0 + keep1)), r1.1)
  {
    var es := [e0, e1];
    SliceFoldStep(R, inner, v, es, 0, [], st, fuel);
    var r0 := ValueToMap(R, Ctx(WithPath(inner.path, IndexSegment(0)), inner.depth), e0, st, fuel);
    if r0.0.Ok? {
      var keep0 := if r0.0.ir != Null || R.opts.nullIfEmpty then [r0.0.ir] else [];
      assert [] + [r0.0.ir] == [r0.0.ir];
      SliceFoldStep(R, inner, v, es, 1, keep0, r0.1, fuel);
      var r1 := ValueToMap(R, Ctx(WithPath(inner.path, IndexSegment(1)), inner.depth), e1, r0.1, fuel);
      if r1.0.Ok? {
        var keep1 := if r1.0.ir != Null || R.opts.nullIfEmpty then [r1.0.ir] else [];
        assert keep0 + keep1 == if r1.0.ir != Null || R.opts.nullIfEmpty then keep0 + [r1.0.ir] else keep0;
        assert SliceFold(R, inner, v, es, 2, keep0 + keep1, r1.1, fuel) == (Ok(ListVal(keep0 + keep1)), r1.1);
      }
    }
  }

  /** The struct loop drops a field whose conversion returned the skip_field
      sentinel and goes on with the next field, so a slice field holding a
      nil pointer disappears as a whole. */
  lemma SkipFieldDropsField(R: Run, c: Ctx, v: Value, fields: seq<FieldInfo>, i: nat, acc: map<string, IR>,
                            st: St, fuel: nat, fv: Value)
    requires i < |fields| && ShouldIncludeField(fields[i].groups, R.mode, R.groups)
    requires FieldByIndex(v, fields[i].index) == Some(fv)
    requires !(fields[i].anonymous && KindOf(fv) == Struct)
    requires FieldDisposition(R.opts, fields[i], fv) == Recurse
    requires ValueToMap(R, Ctx(WithPath(c.path, fields[i].name), c.depth), fv, st, fuel).0 == Err(Plain(SkipField))
    ensures StructFold(R, c, v, fields, i, acc, st, fuel)
              == StructFold(R, c, v, fields, i + 1, acc, ValueToMap(R, Ctx(WithPath(c.path, fields[i].name), c.depth), fv, st, fuel).1, fuel)
  {
  }

  // ------------------------------------------------------- field omission

  /** omitempty and omitzero disagree on an empty non-nil slice (empty, not
      zero) and on a zero time.Time (zero, not empty); NullIfEmpty is off. */
  lemma OmitEmptyVersusOmitZero(opts: Options, fi: FieldInfo, a: Addr, instant: int)
    requires !opts.nullIfEmpty
    ensures var e, z := fi.(omitEmpty := true, omitZero := false), fi.(omitEmpty := false, omitZero := true);
            && FieldDisposition(opts, e, SliceV(a, [])) == Skip
            && FieldDisposition(opts, z, SliceV(a, [])) == Recurse
            && FieldDisposition(opts, e, TimeV(true, instant)) == Recurse
            && FieldDisposition(opts, z, TimeV(true, instant)) == Skip
  {
  }

  /** Builder order decides what happens to a nil pointer field: with
      IgnoreNilPointers set last it is skipped, with NullIfEmpty set last it
      becomes null, because the nil-pointer check comes first. */
  lemma NilFieldBuilderOrder(o: Options, fi: FieldInfo)
    ensures FieldDisposition(o.WithNullIfEmpty(true).WithIgnoreNilPointers(true), fi, NilPtr) == Skip
    ensures FieldDisposition(o.WithIgnoreNilPointers(true).WithNullIfEmpty(true), fi, NilPtr) == EmitNull
  {
  }

  // ------------------------------------------------------------ containers

  /** One step of the slice loop. */
  lemma SliceFoldStep(R: Run, c: Ctx, v: Value, es: seq<Value>, i: nat, acc: seq<IR>, st: St, fuel: nat)
    requires i < |es|
    ensures var r := ValueToMap(R, Ctx(WithPath(c.path, IndexSegment(i)), c.depth), es[i], st, fuel);
            SliceFold(R, c, v, es, i, acc, st, fuel)
              == if !r.0.Ok? then r
                 else SliceFold(R, c, v, es, i + 1, if r.0.ir != Null || R.opts.nullIfEmpty then acc + [r.0.ir] else acc,
                                r.1, fuel)
  {
  }

  /** One step of the map loop. */
  lemma MapFoldStep(R: Run, c: Ctx, v: Value, es: seq<MapEntry>, i: nat, acc: map<string, IR>, st: St, fuel: nat)
    requires i < |es|
    ensures var key := KeyString(es[i].key);
            var r := ValueToMap(R, Ctx(WithPath(c.path, key), c.depth), es[i].val, st, fuel);
            MapFold(R, c, v, es, i, acc, st, fuel)
              == if !r.0.Ok? then r
                 else MapFold(R, c, v, es, i + 1, if r.0.ir != Null || R.opts.nullIfEmpty then acc[key := r.0.ir] else acc,
                              r.1, fuel)
  {
  }

  /** The slice loop keeps the results in element order: the collected list
      extends acc, every element adds at most one item, and under NullIfEmpty
      every element adds exactly one. */
  lemma {:induction false} SliceFoldShape(R: Run, c: Ctx, v: Value, es: seq<Value>, i: nat, acc: seq<IR>,
                                          st: St, fuel: nat)
    requires i <= |es|
    ensures var o := SliceFold(R, c, v, es, i, acc, st, fuel).0;
            o.Ok? ==> o.ir.ListVal? && acc <= o.ir.items && |o.ir.items| <= |acc| + |es| - i
                      && (R.opts.nullIfEmpty ==> |o.ir.items| == |acc| + |es| - i)
    decreases |es| - i
  {
    if i < |es| {
      var r := ValueToMap(R, Ctx(WithPath(c.path, IndexSegment(i)), c.depth), es[i], st, fuel);
      SliceFoldStep(R, c, v, es, i, acc, st, fuel);
      if r.0.Ok? {
        var acc' := if r.0.ir != Null || R.opts.nullIfEmpty then acc + [r.0.ir] else acc;
        SliceFoldShape(R, c, v, es, i + 1, acc', r.1, fuel);
        assert acc <= acc' && |acc'| <= |acc| + 1;
        assert R.opts.nullIfEmpty ==> |acc'| == |acc| + 1;
      }
    } else {
      assert SliceFold(R, c, v, es, i, acc, st, fuel) == (Ok(ListVal(acc)), st);
    }
  }

  /** The texts of the keys of the entries from i on. */
  function KeysFrom(es: seq<MapEntry>, i: nat): (r: set<string>)
    ensures forall j :: i <= j < |es| ==> KeyString(es[j].key) in r
    ensures forall k :: k in r ==> exists j :: i <= j < |es| && KeyString(es[j].key) == k
  {
    set j | i <= j < |es| :: KeyString(es[j].key)
  }

  /** The map loop's keys are the texts of the entry keys it visited: every
      key comes from acc or from an entry from i on, and under NullIfEmpty
      every such entry's key is present. */
  lemma {:induction false} MapFoldKeys(R: Run, c: Ctx, v: Value, es: seq<MapEntry>, i: nat, acc: map<string, IR>,
                                       st: St, fuel: nat)
    requires i <= |es|
    ensures var o := MapFold(R, c, v, es, i, acc, st, fuel).0;
            o.Ok? ==> o.ir.ObjVal?
                      && acc.Keys <= o.ir.fields.Keys <= acc.Keys + KeysFrom(es, i)
                      && (R.opts.nullIfEmpty ==> o.ir.fields.Keys == acc.Keys + KeysFrom(es, i))
    decreases |es| - i
  {
    if i < |es| {
      var key := KeyString(es[i].key);
      var r := ValueToMap(R, Ctx(WithPath(c.path, key), c.depth), es[i].val, st, fuel);
      MapFoldStep(R, c, v, es, i, acc, st, fuel);
      if r.0.Ok? {
        var acc' := if r.0.ir != Null || R.opts.nullIfEmpty then acc[key := r.0.ir] else acc;
        MapFoldKeys(R, c, v, es, i + 1, acc', r.1, fuel);
        assert MapFold(R, c, v, es, i, acc, st, fuel) == MapFold(R, c, v, es, i + 1, acc', r.1, fuel);
        assert KeysFrom(es, i) == {key} + KeysFrom(es, i + 1);
      }
    } else {
      assert KeysFrom(es, i) == {};
    }
  }

  // ---------------------------------------------------------- group filter

  /** No descriptor from i on leads to an embedded struct value, so the
      merge branch is not taken. ParsedNoMerge shows this holds for every
      list the cache hands out, on a value of the declared type. */
  predicate NoMerge(v: Value, fields: seq<FieldInfo>, i: nat) {
    forall j :: i <= j < |fields| && fields[j].anonymous && FieldByIndex(v, fields[j].index).Some? ==>
      KindOf(FieldByIndex(v, fields[j].index).value) != Struct
  }

  /** Every key in keys was collected before (is in acc) or is the JSON name
      of a descriptor from i on that the group filter admits. */
  ghost predicate KeysAdmitted(R: Run, fields: seq<FieldInfo>, i: nat, acc: map<string, IR>, keys: set<string>) {
    forall k :: k in keys ==>
      k in acc || exists j :: i <= j < |fields| && fields[j].jsonName == k
                              && ShouldIncludeField(fields[j].groups, R.mode, R.groups)
  }

  /** The group filter decides the keys: every key of a struct's map is the
      JSON name of a descriptor the filter admits (or was collected before). */
  lemma {:induction false} StructFoldKeysAdmitted(R: Run, c: Ctx, v: Value, fields: seq<FieldInfo>, i: nat,
                                                  acc: map<string, IR>, st: St, fuel: nat)
    requires i <= |fields| && NoMerge(v, fields, i)
    ensures var o := StructFold(R, c, v, fields, i, acc, st, fuel).0;
            o.Ok? ==> o.ir.ObjVal? && KeysAdmitted(R, fields, i, acc, o.ir.fields.Keys)
    decreases |fields| - i
  {
    if i < |fields| {
      var fi := fields[i];
      if !ShouldIncludeField(fi.groups, R.mode, R.groups) {
        StructFoldExcludedStep(R, c, v, fields, i, acc, st, fuel);
        StructFoldKeysAdmitted(R, c, v, fields, i + 1, acc, st, fuel);
        AdmittedStep(R, fields, i, acc, acc, StructFold(R, c, v, fields, i, acc, st, fuel).0);
      } else {
        match FieldByIndex(v, fi.index)
        case None =>
        case Some(fv) =>
          assert !(fi.anonymous && KindOf(fv) == Struct);
          if FieldDisposition(R.opts, fi, fv) != Recurse {
            StructFoldPlainStep(R, c, v, fields, i, acc, st, fuel, fv);
            var acc' := if FieldDisposition(R.opts, fi, fv) == Skip then acc else acc[fi.jsonName := Null];
            StructFoldKeysAdmitted(R, c, v, fields, i + 1, acc', st, fuel);
            AdmittedStep(R, fields, i, acc, acc', StructFold(R, c, v, fields, i, acc, st, fuel).0);
          } else {
            StructFoldRecurseStep(R, c, v, fields, i, acc, st, fuel, fv);
            var (o, st1) := ValueToMap(R, Ctx(WithPath(c.path, fi.name), c.depth), fv, st, fuel);
            var acc' :=
              if o.Ok? && o.ir != Null then acc[fi.jsonName := o.ir]
              else if o.Ok? && R.opts.nullIfEmpty then acc[fi.jsonName := Null]
              else acc;
            if (o.Err? && ErrorText(o.err) == SkipField) || o.Ok? {
              StructFoldKeysAdmitted(R, c, v, fields, i + 1, acc', st1, fuel);
              AdmittedStep(R, fields, i, acc, acc', StructFold(R, c, v, fields, i, acc, st, fuel).0);
            }
          }
      }
    }
  }

  /** Whatever tag key the descriptors were parsed with, none of them leads
      into an embedded struct of a value of the declared type. */
  lemma ParsedNoMerge(env: TypeEnv, t: FieldType, k: string, v: Value)
    requires Conforms(env, t, v)
    ensures NoMerge(v, FieldsOf(env, t, k), 0)
  {
    if t.StructT? {
      var fs := FieldsOf(env, t, k);
      ParsedFieldsAvoidStructs(env, t.id, k, v);
      assert forall j :: 0 <= j < |fs| ==> fs[j] in fs;
    }
  }

  /** structToMap on a value of its declared type, with a cache that holds
      only parsed descriptors (as every cache the package builds does): each
      key of the resulting map is the JSON name of a descriptor of the type
      that the group filter admits. */
  lemma StructToMapKeysAdmitted(R: Run, c: Ctx, v: Value, st: St, fuel: nat)
    requires v.StructV? || v.TimeV?
    requires Parsed(st.cache, R.types) && Conforms(R.types, TypeOfStruct(v), v)
    ensures var fields := LookupSpec(st.cache, TypeOfStruct(v), R.types, R.opts.tagKey).0;
            var o := StructToMap(R, c, v, st, fuel).0;
            o.Ok? ==> o.ir.ObjVal? && KeysAdmitted(R, fields, 0, map[], o.ir.fields.Keys)
  {
    var (fields, cache1) := LookupSpec(st.cache, TypeOfStruct(v), R.types, R.opts.tagKey);
    LookupParsed(st.cache, TypeOfStruct(v), R.types, R.opts.tagKey);
    var k: string :| fields == FieldsOf(R.types, TypeOfStruct(v), k);
    ParsedNoMerge(R.types, TypeOfStruct(v), k, v);
    StructFoldKeysAdmitted(R, c, v, fields, 0, map[], st.(cache := cache1), fuel);
  }

  /** One descriptor back: if acc' adds to acc at most the name of descriptor
      i, which the filter admits, the keys admitted from i + 1 on with acc'
      are admitted from i on with acc. */
  lemma AdmittedStep(R: Run, fields: seq<FieldInfo>, i: nat, acc: map<string, IR>, acc': map<string, IR>, o: Outcome)
    requires i < |fields|
    requires forall k :: k in acc' ==>
               k in acc || (k == fields[i].jsonName && ShouldIncludeField(fields[i].groups, R.mode, R.groups))
    requires o.Ok? ==> o.ir.ObjVal? && KeysAdmitted(R, fields, i + 1, acc', o.ir.fields.Keys)
    ensures o.Ok? ==> o.ir.ObjVal? && KeysAdmitted(R, fields, i, acc, o.ir.fields.Keys)
  {
    if o.Ok? {
      forall k | k in o.ir.fields.Keys && k !in acc
        ensures exists j :: i <= j < |fields| && fields[j].jsonName == k
                            && ShouldIncludeField(fields[j].groups, R.mode, R.groups)
      {
        if k in acc' {
          assert fields[i].jsonName == k;
        } else {
          var j :| i + 1 <= j < |fields| && fields[j].jsonName == k
                   && ShouldIncludeField(fields[j].groups, R.mode, R.groups);
        }
      }
    }
  }

  /** A descriptor the filter rejects contributes nothing: the loop goes on
      with the next descriptor, the same keys and the same state. Such a
      descriptor exists only when some group is requested. */
  lemma RejectedFieldIgnored(R: Run, c: Ctx, v: Value, fields: seq<FieldInfo>, i: nat, acc: map<string, IR>,
                             st: St, fuel: nat)
    requires i < |fields| && !ShouldIncludeField(fields[i].groups, R.mode, R.groups)
    ensures R.groups != []
    ensures StructFold(R, c, v, fields, i, acc, st, fuel) == StructFold(R, c, v, fields, i + 1, acc, st, fuel)
  {
  }
}
