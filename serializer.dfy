/** The serializer of marshal.go as it runs: a context object whose depth is
    bumped and restored in place, a visited-address table shared by every
    context of one call, and the conversion routines with their loops. Each
    routine is proved to compute the corresponding function of module
    Traversal, so everything proved there holds of these methods. */
module Serializer {
  import opened Text
  import opened Reflect
  import opened Errors
  import opened Config
  import opened Groups
  import opened Fields
  import opened Cache
  import opened Traversal
  import opened TraversalFacts

  /** The `pointers` map: addresses already entered, with the path where
      each was first seen. One table is shared by all contexts of a call. */
  class PointerTable {
    var addrs: map<Addr, string>

    constructor()
      ensures addrs == map[]
    {
      addrs := map[];
    }
  }

  /** serializeContext: the current path and depth, the shared pointer table
      and the options. */
  class SerializeContext {
    var path: string
    var depth: int
    const pointers: PointerTable
    const opts: Options

    /** newContext: empty path, depth 0, a fresh empty table. */
    constructor(opts: Options)
      ensures path == "" && depth == 0 && this.opts == opts
      ensures fresh(pointers) && pointers.addrs == map[]
    {
      path := "";
      depth := 0;
      pointers := new PointerTable();
      this.opts := opts;
    }

    /** A context for a sub-value: the given path and depth, sharing the
        table and the options. */
    constructor Sharing(path: string, depth: int, pointers: PointerTable, opts: Options)
      ensures this.path == path && this.depth == depth && this.pointers == pointers && this.opts == opts
    {
      this.path := path;
      this.depth := depth;
      this.pointers := pointers;
      this.opts := opts;
    }

    /** withPath: a new context one segment further down, with the depth
        copied and the same pointer table. */
    method WithPath(segment: string) returns (c: SerializeContext)
      ensures fresh(c) && c.path == Traversal.WithPath(path, segment)
      ensures c.depth == depth && c.pointers == pointers && c.opts == opts
    {
      var newPath := path;
      if newPath == "" {
        newPath := segment;
      } else {
        newPath := newPath + "." + segment;
      }
      c := new SerializeContext.Sharing(newPath, depth, pointers, opts);
    }

    /** enterLevel: one level deeper, failing past a positive MaxDepth. */
    method EnterLevel() returns (err: Option<GoError>)
      modifies this
      ensures depth == old(depth) + 1 && path == old(path)
      ensures err.Some? <==> opts.maxDepth > 0 && depth > opts.maxDepth
      ensures err.Some? ==> err.value == Ours(MaxDepthError(path, opts.maxDepth))
    {
      depth := depth + 1;
      if opts.maxDepth > 0 && depth > opts.maxDepth {
        return Some(Ours(MaxDepthError(path, opts.maxDepth)));
      }
      return None;
    }

    /** leaveLevel: one level back up. */
    method LeaveLevel()
      modifies this
      ensures depth == old(depth) - 1 && path == old(path)
    {
      depth := depth - 1;
    }

    /** checkPointer, on the shared table. */
    method CheckPointer(v: Value) returns (err: Option<GoError>)
      modifies pointers
      ensures (err, pointers.addrs) == Traversal.CheckPointer(opts, path, v, old(pointers.addrs))
    {
      if opts.disableCircularCheck {
        return None;
      }
      if (KindOf(v) == Map || KindOf(v) == Slice) && Len(v) == 0 {
        return None;
      }
      if (KindOf(v) == Pointer || KindOf(v) == Map || KindOf(v) == Slice) && !IsNil(v) {
        var addr := AddrOf(v);
        if addr in pointers.addrs {
          return Some(Ours(CircularReferenceError(path)));
        }
        pointers.addrs := pointers.addrs[addr := path];
      }
      return None;
    }
  }

  /** The fixed part of a call as module Traversal sees it. */
  function RunOf(ctx: SerializeContext, groups: seq<string>, mode: GroupMode, heap: Heap, types: TypeEnv): Run
  {
    Run(heap, types, ctx.opts, groups, mode)
  }

  /** valueToMap. The depth is restored on return, except when entering the
      value itself exceeded MaxDepth: Go returns that error before its
      deferred leaveLevel is registered. */
  method ValueToMap(ctx: SerializeContext, v: Value, groups: seq<string>, mode: GroupMode, heap: Heap,
                    types: TypeEnv, cache: FieldCache, fuel: nat) returns (o: Outcome)
    requires CacheOK(cache.Model())
    modifies ctx, ctx.pointers, cache
    ensures (o, St(ctx.pointers.addrs, cache.Model()))
              == Traversal.ValueToMap(RunOf(ctx, groups, mode, heap, types), Ctx(old(ctx.path), old(ctx.depth)), v,
                                      St(old(ctx.pointers.addrs), old(cache.Model())), fuel)
    ensures CacheOK(cache.Model())
    ensures ctx.path == old(ctx.path)
    ensures ctx.depth == old(ctx.depth)
            || (o.Err? && o.err == Ours(MaxDepthError(ctx.path, ctx.opts.maxDepth)) && ctx.depth == old(ctx.depth) + 1)
    decreases fuel, 0, v, 1, 0
  {
    if fuel == 0 {
      return OutOfFuel;
    }
    if !Composite(v) {
      o := ConvertScalar(ctx.opts, v);
      return;
    }
    o := Enter(ctx, v, groups, mode, heap, types, cache, fuel);
  }

  /** The part of valueToMap for values that enter a level: the depth check
      (with its exception for empty slices and maps), the pointer check, the
      kind switch, and the deferred leaveLevel. */
  method Enter(ctx: SerializeContext, v: Value, groups: seq<string>, mode: GroupMode, heap: Heap,
               types: TypeEnv, cache: FieldCache, fuel: nat) returns (o: Outcome)
    requires Composite(v) && fuel > 0
    requires CacheOK(cache.Model())
    modifies ctx, ctx.pointers, cache
    ensures (o, St(ctx.pointers.addrs, cache.Model()))
              == Entered(RunOf(ctx, groups, mode, heap, types), Ctx(old(ctx.path), old(ctx.depth)), v,
                         St(old(ctx.pointers.addrs), old(cache.Model())), fuel)
    ensures CacheOK(cache.Model())
    ensures ctx.path == old(ctx.path)
    ensures ctx.depth == old(ctx.depth)
            || (o.Err? && o.err == Ours(MaxDepthError(ctx.path, ctx.opts.maxDepth)) && ctx.depth == old(ctx.depth) + 1)
    decreases fuel, 0, v, 0, 3
  {
    ghost var R := RunOf(ctx, groups, mode, heap, types);
    ghost var c := Ctx(ctx.path, ctx.depth);
    ghost var st := St(ctx.pointers.addrs, cache.Model());
    var err := ctx.EnterLevel();
    if err.Some? {
      EnteredBeyond(R, c, v, st, fuel);
      o := DepthExceeded(ctx, v, err.value);
      return;
    }
    o := CheckThenConvert(ctx, v, groups, mode, heap, types, cache, fuel);
    ctx.LeaveLevel();
  }

  /** valueToMap when enterLevel fails: an empty slice or map is still
      converted (after leaving the level again), anything else gets the
      error. */
  method DepthExceeded(ctx: SerializeContext, v: Value, err: GoError) returns (o: Outcome)
    requires Composite(v)
    modifies ctx
    ensures ctx.path == old(ctx.path)
    ensures if (KindOf(v) == Slice || KindOf(v) == Map) && Len(v) == 0 then
              && o == Ok(if ctx.opts.nullIfEmpty then Null else if KindOf(v) == Slice then ListVal([]) else ObjVal(map[]))
              && ctx.depth == old(ctx.depth) - 1
            else o == Err(err) && ctx.depth == old(ctx.depth)
  {
    if (KindOf(v) == Slice || KindOf(v) == Map) && Len(v) == 0 {
      ctx.LeaveLevel();
      if ctx.opts.nullIfEmpty {
        return Ok(Null);
      }
      if KindOf(v) == Slice {
        return Ok(ListVal([]));
      }
      return Ok(ObjVal(map[]));
    }
    return Err(err);
  }

  /** The rest of valueToMap once the level is entered: the pointer check for
      pointers, maps and slices, then the kind switch. */
  method CheckThenConvert(ctx: SerializeContext, v: Value, groups: seq<string>, mode: GroupMode, heap: Heap,
                          types: TypeEnv, cache: FieldCache, fuel: nat) returns (o: Outcome)
    requires Composite(v) && fuel > 0
    requires CacheOK(cache.Model())
    modifies ctx.pointers, cache
    requires !(ctx.opts.maxDepth > 0 && ctx.depth > ctx.opts.maxDepth)
    ensures (o, St(ctx.pointers.addrs, cache.Model()))
              == Entered(RunOf(ctx, groups, mode, heap, types), Ctx(ctx.path, ctx.depth - 1), v,
                         St(old(ctx.pointers.addrs), old(cache.Model())), fuel)
    ensures CacheOK(cache.Model())
    decreases fuel, 0, v, 0, 2
  {
    EnteredWithin(RunOf(ctx, groups, mode, heap, types), Ctx(ctx.path, ctx.depth - 1), v,
                  St(ctx.pointers.addrs, cache.Model()), fuel);
    if KindOf(v) == Pointer || KindOf(v) == Map || KindOf(v) == Slice {
      var perr := ctx.CheckPointer(v);
      if perr.Some? {
        return Err(perr.value);
      }
    }
    o := Convert(ctx, v, groups, mode, heap, types, cache, fuel);
  }

  /** The scalar cases of valueToMap: strings, booleans, numbers, complex
      numbers, and nil pointers and interfaces. */
  method ConvertScalar(opts: Options, v: Value) returns (o: Outcome)
    requires !Composite(v)
    ensures forall R: Run, c: Ctx, st: St, fuel: nat | R.opts == opts && fuel > 0 ::
              Traversal.ValueToMap(R, c, v, st, fuel) == (o, st)
  {
    match v {
      case StringV(s) =>
        if s == "" && opts.nullIfEmpty {
          return Ok(Null);
        }
        return Ok(StrVal(s));
      case BoolV(b) => return Ok(BoolVal(b));
      case IntV(i) => return Ok(IntVal(i));
      case UintV(u) => return Ok(UintVal(u));
      case FloatV(f) =>
        if !f.Finite? {
          return Ok(StrVal(FloatToString(f)));
        }
        return Ok(FloatVal(f));
      case ComplexV(t) => return Ok(StrVal(t));
      case NilPtr =>
        if opts.ignoreNilPointers {
          return Err(Plain(SkipField));
        }
        return Ok(Null);
      case NilIface => return Ok(Null);
    }
  }

  /** The kind switch of valueToMap, run at the entered level. */
  method Convert(ctx: SerializeContext, v: Value, groups: seq<string>, mode: GroupMode, heap: Heap,
                 types: TypeEnv, cache: FieldCache, fuel: nat) returns (o: Outcome)
    requires Composite(v) && fuel > 0
    requires CacheOK(cache.Model())
    modifies ctx.pointers, cache
    ensures (o, St(ctx.pointers.addrs, cache.Model()))
              == Dispatch(RunOf(ctx, groups, mode, heap, types), Ctx(ctx.path, ctx.depth), v,
                          St(old(ctx.pointers.addrs), old(cache.Model())), fuel)
    ensures CacheOK(cache.Model())
    decreases fuel, 0, v, 0, 1
  {
    match v {
      case PtrV(_) =>
        o := FollowReference(ctx, v, groups, mode, heap, types, cache, fuel);
      case IfaceV(_) =>
        o := FollowReference(ctx, v, groups, mode, heap, types, cache, fuel);
      case TimeV(isZero, instant) =>
        if isZero && ctx.opts.nullIfEmpty {
          return Ok(Null);
        }
        return Ok(TimeVal(instant));
      case NilMap =>
        if ctx.opts.nullIfEmpty {
          return Ok(Null);
        }
        return Ok(ObjVal(map[]));
      case NilSlice =>
        if ctx.opts.nullIfEmpty {
          return Ok(Null);
        }
        return Ok(ListVal([]));
      case OtherV(t) =>
        return Ok(OpaqueVal(t));
      case StructV(_, _) =>
        o := ConvertStruct(ctx, v, groups, mode, heap, types, cache, fuel);
      case MapV(_, _) =>
        o := ConvertMap(ctx, v, groups, mode, heap, types, cache, fuel);
      case SliceV(_, _) =>
        o := ConvertSlice(ctx, v, groups, mode, heap, types, cache, fuel);
      case ArrayV(_) =>
        o := ConvertSlice(ctx, v, groups, mode, heap, types, cache, fuel);
    }
  }

  /** Pointers and interfaces: the target is converted under an empty path
      segment; a pointer outside the heap panics. */
  method FollowReference(ctx: SerializeContext, v: Value, groups: seq<string>, mode: GroupMode, heap: Heap,
                 types: TypeEnv, cache: FieldCache, fuel: nat) returns (o: Outcome)
    requires (v.PtrV? || v.IfaceV?) && fuel > 0
    requires CacheOK(cache.Model())
    modifies ctx.pointers, cache
    ensures (o, St(ctx.pointers.addrs, cache.Model()))
              == Dispatch(RunOf(ctx, groups, mode, heap, types), Ctx(ctx.path, ctx.depth), v,
                          St(old(ctx.pointers.addrs), old(cache.Model())), fuel)
    ensures CacheOK(cache.Model())
    decreases fuel, 0, v, 0, 0
  {
    ghost var R := RunOf(ctx, groups, mode, heap, types);
    ghost var inner := Ctx(ctx.path, ctx.depth);
    ghost var st := St(ctx.pointers.addrs, cache.Model());
    var target: Value;
    if v.PtrV? {
      if v.addr !in heap {
        return Panicked;
      }
      target := heap[v.addr];
    } else {
      target := v.dyn;
    }
    ghost var r := Traversal.ValueToMap(R, Ctx(WithPath(inner.path, ""), inner.depth), target, st, fuel - 1);
    assert Dispatch(R, inner, v, st, fuel) == r;
    var c := ctx.WithPath("");
    o := ValueToMap(c, target, groups, mode, heap, types, cache, fuel - 1);
    assert (o, St(ctx.pointers.addrs, cache.Model())) == r;
  }

  /** A struct other than time.Time goes to structToMap. */
  method ConvertStruct(ctx: SerializeContext, v: Value, groups: seq<string>, mode: GroupMode, heap: Heap,
                 types: TypeEnv, cache: FieldCache, fuel: nat) returns (o: Outcome)
    requires v.StructV? && fuel > 0
    requires CacheOK(cache.Model())
    modifies ctx.pointers, cache
    ensures (o, St(ctx.pointers.addrs, cache.Model()))
              == Dispatch(RunOf(ctx, groups, mode, heap, types), Ctx(ctx.path, ctx.depth), v,
                          St(old(ctx.pointers.addrs), old(cache.Model())), fuel)
    ensures CacheOK(cache.Model())
    decreases fuel, 0, v, 0, 0
  {
    StructDispatch(RunOf(ctx, groups, mode, heap, types), Ctx(ctx.path, ctx.depth), v,
                   St(ctx.pointers.addrs, cache.Model()), fuel);
    o := StructToMap(ctx, v, groups, mode, heap, types, cache, fuel - 1);
  }

  /** A non-nil map: null when empty under NullIfEmpty, else mapToMap. */
  method ConvertMap(ctx: SerializeContext, v: Value, groups: seq<string>, mode: GroupMode, heap: Heap,
                 types: TypeEnv, cache: FieldCache, fuel: nat) returns (o: Outcome)
    requires v.MapV? && fuel > 0
    requires CacheOK(cache.Model())
    modifies ctx.pointers, cache
    ensures (o, St(ctx.pointers.addrs, cache.Model()))
              == Dispatch(RunOf(ctx, groups, mode, heap, types), Ctx(ctx.path, ctx.depth), v,
                          St(old(ctx.pointers.addrs), old(cache.Model())), fuel)
    ensures CacheOK(cache.Model())
    decreases fuel, 0, v, 0, 0
  {
    if |v.entries| == 0 && ctx.opts.nullIfEmpty {
      return Ok(Null);
    }
    MapDispatch(RunOf(ctx, groups, mode, heap, types), Ctx(ctx.path, ctx.depth), v,
                St(ctx.pointers.addrs, cache.Model()), fuel);
    o := MapToMap(ctx, v, groups, mode, heap, types, cache, fuel - 1);
  }

  /** A non-nil slice or an array: an empty one gives an empty list (an empty
      array under NullIfEmpty panics in v.IsNil()), else sliceToSlice. */
  method ConvertSlice(ctx: SerializeContext, v: Value, groups: seq<string>, mode: GroupMode, heap: Heap,
                 types: TypeEnv, cache: FieldCache, fuel: nat) returns (o: Outcome)
    requires (v.SliceV? || v.ArrayV?) && fuel > 0
    requires CacheOK(cache.Model())
    modifies ctx.pointers, cache
    ensures (o, St(ctx.pointers.addrs, cache.Model()))
              == Dispatch(RunOf(ctx, groups, mode, heap, types), Ctx(ctx.path, ctx.depth), v,
                          St(old(ctx.pointers.addrs), old(cache.Model())), fuel)
    ensures CacheOK(cache.Model())
    decreases fuel, 0, v, 0, 0
  {
    if |v.elems| == 0 {
      if v.ArrayV? && ctx.opts.nullIfEmpty {
        return Panicked;
      }
      return Ok(ListVal([]));
    }
    ListDispatch(RunOf(ctx, groups, mode, heap, types), Ctx(ctx.path, ctx.depth), v,
                 St(ctx.pointers.addrs, cache.Model()), fuel);
    o := SliceToSlice(ctx, v, groups, mode, heap, types, cache, fuel - 1);
  }

  /** The loop that copies an embedded struct's keys into the result. */
  method MergeInto(result: map<string, IR>, embedded: map<string, IR>) returns (r: map<string, IR>)
    ensures r.Keys == result.Keys + embedded.Keys
    ensures forall k :: k in r ==> r[k] == if k in embedded then embedded[k] else result[k]
    ensures r == result + embedded
  {
    r := result;
    var keys := embedded.Keys;
    while keys != {}
      invariant keys <= embedded.Keys
      invariant r.Keys == result.Keys + (embedded.Keys - keys)
      invariant forall k :: k in r ==> r[k] == if k in embedded && k !in keys then embedded[k] else result[k]
      decreases keys
    {
      var k :| k in keys;
      r := r[k := embedded[k]];
      keys := keys - {k};
    }
    assert r.Keys == (result + embedded).Keys;
  }

  /** structToMap: the descriptors from the cache, then one pass over them. */
  method StructToMap(ctx: SerializeContext, v: Value, groups: seq<string>, mode: GroupMode, heap: Heap,
                     types: TypeEnv, cache: FieldCache, fuel: nat) returns (o: Outcome)
    requires v.StructV? || v.TimeV?
    requires CacheOK(cache.Model())
    modifies ctx.pointers, cache
    ensures (o, St(ctx.pointers.addrs, cache.Model()))
              == Traversal.StructToMap(RunOf(ctx, groups, mode, heap, types), Ctx(ctx.path, ctx.depth), v,
                                       St(old(ctx.pointers.addrs), old(cache.Model())), fuel)
    ensures CacheOK(cache.Model())
    decreases fuel, 1, v, 1, 0
  {
    ghost var R := RunOf(ctx, groups, mode, heap, types);
    ghost var c := Ctx(ctx.path, ctx.depth);
    ghost var st0 := St(ctx.pointers.addrs, cache.Model());
    ghost var spec := Traversal.StructToMap(R, c, v, st0, fuel);
    StructToMapKeeps(R, c, v, st0, fuel);
    assert CacheOK(spec.1.cache);
    LookupWellIndexed(cache.Model(), TypeOfStruct(v), types, ctx.opts.tagKey);
    var fields := cache.GetFieldsInfo(TypeOfStruct(v), types, ctx.opts.tagKey);
    var result: map<string, IR> := map[];
    var i := 0;
    while i < |fields|
      invariant 0 <= i <= |fields|
      invariant CacheOK(cache.Model())
      invariant StructFold(R, c, v, fields, i, result, St(ctx.pointers.addrs, cache.Model()), fuel) == spec
      decreases |fields| - i
    {
      var done, out, next := AddField(ctx, v, fields, i, result, groups, mode, heap, types, cache, fuel);
      if done {
        return out;
      }
      result := next;
      i := i + 1;
    }
    return Ok(ObjVal(result));
  }

  /** One pass of structToMap's loop: field i is skipped, set, merged or
      recursed into (done is false and next is the new result), or the loop
      ends with o (done is true). */
  method AddField(ctx: SerializeContext, v: Value, fields: seq<FieldInfo>, i: nat, result: map<string, IR>,
                  groups: seq<string>, mode: GroupMode, heap: Heap, types: TypeEnv, cache: FieldCache, fuel: nat)
    returns (done: bool, o: Outcome, next: map<string, IR>)
    requires v.StructV? || v.TimeV?
    requires i < |fields|
    requires CacheOK(cache.Model())
    modifies ctx.pointers, cache
    ensures StructFold(RunOf(ctx, groups, mode, heap, types), Ctx(ctx.path, ctx.depth), v, fields, i, result,
                       St(old(ctx.pointers.addrs), old(cache.Model())), fuel)
            == if done then (o, St(ctx.pointers.addrs, cache.Model()))
               else StructFold(RunOf(ctx, groups, mode, heap, types), Ctx(ctx.path, ctx.depth), v, fields, i + 1,
                               next, St(ctx.pointers.addrs, cache.Model()), fuel)
    ensures CacheOK(cache.Model())
    decreases fuel, 1, v, 0, |fields| - i, 1
  {
    ghost var R := RunOf(ctx, groups, mode, heap, types);
    ghost var c := Ctx(ctx.path, ctx.depth);
    ghost var st := St(ctx.pointers.addrs, cache.Model());
    done, o, next := false, Ok(Null), result;
    var field := fields[i];
    if !ShouldIncludeField(field.groups, mode, groups) {
      StructFoldExcludedStep(R, c, v, fields, i, result, st, fuel);
      return;
    }
    var fieldValue := FieldByIndex(v, field.index);
    if fieldValue.None? {
      return true, Panicked, result;
    }
    var fv := fieldValue.value;
    if field.anonymous && KindOf(fv) == Struct {
      if field.index == [] {
        return true, OutOfFuel, result;
      }
      done, o, next := AddEmbeddedField(ctx, v, fields, i, result, fv, groups, mode, heap, types, cache, fuel);
      return;
    }
    done, o, next := AddValueField(ctx, v, fields, i, result, fv, groups, mode, heap, types, cache, fuel);
  }

  /** structToMap's loop for an embedded struct field: its keys are merged
      into the result, later keys overwriting earlier ones. */
  method AddEmbeddedField(ctx: SerializeContext, v: Value, fields: seq<FieldInfo>, i: nat, result: map<string, IR>,
                          fv: Value, groups: seq<string>, mode: GroupMode, heap: Heap, types: TypeEnv,
                          cache: FieldCache, fuel: nat)
    returns (done: bool, o: Outcome, next: map<string, IR>)
    requires i < |fields|
    requires ShouldIncludeField(fields[i].groups, mode, groups)
    requires FieldByIndex(v, fields[i].index) == Some(fv)
    requires fields[i].anonymous && KindOf(fv) == Struct && fields[i].index != []
    requires CacheOK(cache.Model())
    modifies ctx.pointers, cache
    ensures StructFold(RunOf(ctx, groups, mode, heap, types), Ctx(ctx.path, ctx.depth), v, fields, i, result,
                       St(old(ctx.pointers.addrs), old(cache.Model())), fuel)
            == if done then (o, St(ctx.pointers.addrs, cache.Model()))
               else StructFold(RunOf(ctx, groups, mode, heap, types), Ctx(ctx.path, ctx.depth), v, fields, i + 1,
                               next, St(ctx.pointers.addrs, cache.Model()), fuel)
    ensures CacheOK(cache.Model())
    decreases fuel, 1, v, 0, |fields| - i, 0
  {
    FieldByIndexSmaller(v, fields[i].index);
    StructFoldEmbeddedStep(RunOf(ctx, groups, mode, heap, types), Ctx(ctx.path, ctx.depth), v, fields, i, result,
                           St(ctx.pointers.addrs, cache.Model()), fuel, fv);
    var fieldCtx := ctx.WithPath(fields[i].name);
    var embedded := StructToMap(fieldCtx, fv, groups, mode, heap, types, cache, fuel);
    if !embedded.Ok? {
      return true, embedded, result;
    }
    next := result;
    if embedded.ir.ObjVal? {
      next := MergeInto(result, embedded.ir.fields);
    }
    assert next == Merge(result, embedded.ir);
    return false, Ok(Null), next;
  }

  /** The rest of structToMap's loop for a field that is not an embedded
      struct: the nil-pointer and omission checks, then the field's value
      under its JSON name; a skip_field error drops the field. */
  method AddValueField(ctx: SerializeContext, v: Value, fields: seq<FieldInfo>, i: nat, result: map<string, IR>,
                       fv: Value, groups: seq<string>, mode: GroupMode, heap: Heap, types: TypeEnv,
                       cache: FieldCache, fuel: nat)
    returns (done: bool, o: Outcome, next: map<string, IR>)
    requires i < |fields|
    requires ShouldIncludeField(fields[i].groups, mode, groups)
    requires FieldByIndex(v, fields[i].index) == Some(fv)
    requires !(fields[i].anonymous && KindOf(fv) == Struct)
    requires CacheOK(cache.Model())
    modifies ctx.pointers, cache
    ensures StructFold(RunOf(ctx, groups, mode, heap, types), Ctx(ctx.path, ctx.depth), v, fields, i, result,
                       St(old(ctx.pointers.addrs), old(cache.Model())), fuel)
            == if done then (o, St(ctx.pointers.addrs, cache.Model()))
               else StructFold(RunOf(ctx, groups, mode, heap, types), Ctx(ctx.path, ctx.depth), v, fields, i + 1,
                               next, St(ctx.pointers.addrs, cache.Model()), fuel)
    ensures CacheOK(cache.Model())
    decreases fuel, 1, v, 0, |fields| - i, 0
  {
    ghost var R := RunOf(ctx, groups, mode, heap, types);
    ghost var c := Ctx(ctx.path, ctx.depth);
    ghost var st := St(ctx.pointers.addrs, cache.Model());
    done, o, next := false, Ok(Null), result;
    var field := fields[i];
    var disposition := FieldDisposition(ctx.opts, field, fv);
    if disposition != Recurse {
      StructFoldPlainStep(R, c, v, fields, i, result, st, fuel, fv);
      if disposition == EmitNull {
        next := result[field.jsonName := Null];
      }
      return;
    }
    StructFoldRecurseStep(R, c, v, fields, i, result, st, fuel, fv);
    var fieldCtx := ctx.WithPath(field.name);
    var fieldOut := ValueToMap(fieldCtx, fv, groups, mode, heap, types, cache, fuel);
    if fieldOut.Err? {
      if ErrorText(fieldOut.err) == SkipField {
        return;
      }
      return true, fieldOut, result;
    }
    if !fieldOut.Ok? {
      return true, fieldOut, result;
    }
    if fieldOut.ir != Null {
      next := result[field.jsonName := fieldOut.ir];
    } else if ctx.opts.nullIfEmpty {
      next := result[field.jsonName := Null];
    }
  }

  /** mapToMap: each entry in iteration order, under its key's text. */
  method MapToMap(ctx: SerializeContext, v: Value, groups: seq<string>, mode: GroupMode, heap: Heap,
                  types: TypeEnv, cache: FieldCache, fuel: nat) returns (o: Outcome)
    requires v.MapV?
    requires CacheOK(cache.Model())
    modifies ctx.pointers, cache
    ensures (o, St(ctx.pointers.addrs, cache.Model()))
              == MapFold(RunOf(ctx, groups, mode, heap, types), Ctx(ctx.path, ctx.depth), v, v.entries, 0, map[],
                         St(old(ctx.pointers.addrs), old(cache.Model())), fuel)
    ensures CacheOK(cache.Model())
    decreases fuel, 1, v, 0, |v.entries|
  {
    ghost var R := RunOf(ctx, groups, mode, heap, types);
    ghost var c := Ctx(ctx.path, ctx.depth);
    ghost var st0 := St(ctx.pointers.addrs, cache.Model());
    var es := v.entries;
    var resultMap: map<string, IR> := map[];
    var i := 0;
    while i < |es|
      invariant 0 <= i <= |es|
      invariant CacheOK(cache.Model())
      invariant MapFold(R, c, v, es, i, resultMap, St(ctx.pointers.addrs, cache.Model()), fuel)
                == MapFold(R, c, v, es, 0, map[], st0, fuel)
      decreases |es| - i
    {
      ghost var st := St(ctx.pointers.addrs, cache.Model());
      MapFoldStep(R, c, v, es, i, resultMap, st, fuel);
      var keyStr := KeyString(es[i].key);
      var itemCtx := ctx.WithPath(keyStr);
      ghost var r := Traversal.ValueToMap(R, Ctx(WithPath(c.path, keyStr), c.depth), es[i].val, st, fuel);
      var valOut := ValueToMap(itemCtx, es[i].val, groups, mode, heap, types, cache, fuel);
      assert (valOut, St(ctx.pointers.addrs, cache.Model())) == r;
      if !valOut.Ok? {
        return valOut;
      }
      if valOut.ir != Null || ctx.opts.nullIfEmpty {
        resultMap := resultMap[keyStr := valOut.ir];
      }
      i := i + 1;
    }
    return Ok(ObjVal(resultMap));
  }

  /** sliceToSlice: each element in order, under "[i]". */
  method SliceToSlice(ctx: SerializeContext, v: Value, groups: seq<string>, mode: GroupMode, heap: Heap,
                      types: TypeEnv, cache: FieldCache, fuel: nat) returns (o: Outcome)
    requires v.SliceV? || v.ArrayV?
    requires CacheOK(cache.Model())
    modifies ctx.pointers, cache
    ensures (o, St(ctx.pointers.addrs, cache.Model()))
              == SliceFold(RunOf(ctx, groups, mode, heap, types), Ctx(ctx.path, ctx.depth), v, v.elems, 0, [],
                           St(old(ctx.pointers.addrs), old(cache.Model())), fuel)
    ensures CacheOK(cache.Model())
    decreases fuel, 1, v, 0, |v.elems|
  {
    ghost var R := RunOf(ctx, groups, mode, heap, types);
    ghost var c := Ctx(ctx.path, ctx.depth);
    ghost var st0 := St(ctx.pointers.addrs, cache.Model());
    var es := v.elems;
    var result: seq<IR> := [];
    var i := 0;
    while i < |es|
      invariant 0 <= i <= |es|
      invariant CacheOK(cache.Model())
      invariant SliceFold(R, c, v, es, i, result, St(ctx.pointers.addrs, cache.Model()), fuel)
                == SliceFold(R, c, v, es, 0, [], st0, fuel)
      decreases |es| - i
    {
      ghost var st := St(ctx.pointers.addrs, cache.Model());
      SliceFoldStep(R, c, v, es, i, result, st, fuel);
      var itemCtx := ctx.WithPath(IndexSegment(i));
      ghost var r := Traversal.ValueToMap(R, Ctx(WithPath(c.path, IndexSegment(i)), c.depth), es[i], st, fuel);
      var itemOut := ValueToMap(itemCtx, es[i], groups, mode, heap, types, cache, fuel);
      assert (itemOut, St(ctx.pointers.addrs, cache.Model())) == r;
      if !itemOut.Ok? {
        return itemOut;
      }
      if itemOut.ir != Null || ctx.opts.nullIfEmpty {
        result := result + [itemOut.ir];
      }
      i := i + 1;
    }
    return Ok(ListVal(result));
  }

  /** MarshalToMapWithOptions: a fresh context per call, the shared cache. */
  method MarshalToMapWithOptions(v: Option<Value>, opts: Options, groups: seq<string>, heap: Heap, types: TypeEnv,
                                 cache: FieldCache, fuel: nat) returns (r: MapResult)
    requires CacheOK(cache.Model())
    modifies cache
    ensures (r, cache.Model()) == MarshalToMap(v, heap, types, opts, groups, old(cache.Model()), fuel)
    ensures CacheOK(cache.Model())
  {
    if v.None? {
      return MapOut(None);
    }
    var ctx := new SerializeContext(opts);
    var result := ValueToMap(ctx, v.value, groups, opts.groupMode, heap, types, cache, fuel);
    match result {
      case Ok(ir) =>
        if ir.ObjVal? {
          return MapOut(Some(ir.fields));
        }
        return MapOut(Some(map["value" := ir]));
      case Err(e) => return ErrOut(WrapJSONError(Some(e), RootPath).value);
      case Panicked => return PanicOut;
      case OutOfFuel => return FuelOut;
    }
  }
}
