/** The traversal engine of marshal.go as functions: valueToMap and its
    helpers turn a Go value into the intermediate tree (`any` built from
    maps, slices and scalars) under the options, the requested groups and
    the group mode, threading the visited-address map and the field cache.
    The class-based rendering in module Serializer is proved to compute
    exactly these functions. */
module Traversal {
  import opened Text
  import opened Reflect
  import opened Errors
  import opened Config
  import opened Groups
  import opened Fields
  import opened Cache

  /** The intermediate tree: nil, scalars, a time.Time, a value passed
      through unchanged (default kinds), []any and map[string]any. */
  datatype IR =
    | Null
    | BoolVal(b: bool)
    | IntVal(i: int)
    | UintVal(u: nat)
    | FloatVal(f: Float)
    | StrVal(s: string)
    | TimeVal(instant: int)
    | OpaqueVal(token: int)
    | ListVal(items: seq<IR>)
    | ObjVal(fields: map<string, IR>)

  /** What a call returns: a tree, an error, a Go panic (see Left out in
      the README for which ones), or an exhausted recursion budget. */
  datatype Outcome = Ok(ir: IR) | Err(err: GoError) | Panicked | OutOfFuel

  /** What stays fixed during one call of MarshalToMapWithOptions: the heap
      the pointers refer to, the struct types, the options, the requested
      groups and the group mode. */
  datatype Run = Run(heap: Heap, types: TypeEnv, opts: Options, groups: seq<string>, mode: GroupMode)

  /** The part of serializeContext that each call owns: path and depth. */
  datatype Ctx = Ctx(path: string, depth: int)

  /** The state that outlives a call: the shared visited-address map and the
      global field cache. */
  datatype St = St(visited: map<Addr, string>, cache: CacheState)

  /** The text of the sentinel error a nil pointer yields when nil pointers
      are ignored. */
  const SkipField := "skip_field"

  /** withPath: the segment alone at the root, otherwise appended after a dot. */
  function WithPath(path: string, segment: string): (r: string)
    ensures path == "" ==> r == segment
    ensures path != "" ==> |r| == |path| + 1 + |segment| && r[..|path|] == path && r[|path|] == '.'
                           && r[|path| + 1..] == segment
  {
    if path == "" then segment else path + "." + segment
  }

  /** The path segment of slice element i: "[i]". */
  function IndexSegment(i: nat): (r: string)
    ensures |r| >= 3 && r[0] == '[' && r[|r| - 1] == ']'
    ensures IsDigits(r[1..|r| - 1]) && DigitsValue(r[1..|r| - 1]) == i
  {
    var d := NatToString(i);
    var r := "[" + d + "]";
    assert r[1..|r| - 1] == d;
    NatToStringRoundTrip(i);
    r
  }

  /** The path segment and output key of a map entry: strings as they are,
      integers in decimal, other keys by their fmt.Sprint text. */
  function KeyString(k: Key): (r: string)
    ensures k.StrKey? ==> r == k.s
    ensures k.IntKey? ==> |r| > 0 && (r[0] == '-' ==> IsDigits(r[1..])) && (r[0] != '-' ==> IsDigits(r))
                          && DecimalValue(r) == k.i
    ensures k.UintKey? ==> IsDigits(r) && DigitsValue(r) == k.u
    ensures k.OtherKey? ==> r == k.text
  {
    match k
    case StrKey(s) => s
    case IntKey(i) => IntToStringRoundTrip(i); IntToString(i)
    case UintKey(u) => NatToStringRoundTrip(u); NatToString(u)
    case OtherKey(t) => t
  }

  /** floatToString for the values it is called on: NaN and the infinities. */
  function FloatToString(f: Float): (r: string)
    requires !f.Finite?
    ensures r == "NaN" <==> f.NaN?
    ensures r == "Infinity" <==> f.PosInf?
    ensures r == "-Infinity" <==> f.NegInf?
  {
    match f
    case NaN => "NaN"
    case PosInf => "Infinity"
    case NegInf => "-Infinity"
  }

  /** The values checkPointer records: non-nil pointers, and maps and slices
      with at least one element. */
  predicate Tracked(v: Value) {
    v.PtrV? || (v.MapV? && |v.entries| > 0) || (v.SliceV? && |v.elems| > 0)
  }

  function AddrOf(v: Value): Addr
    requires Tracked(v)
  {
    match v
    case PtrV(a) => a
    case MapV(a, _) => a
    case SliceV(a, _) => a
  }

  /** Every entry of a is in b, unchanged. */
  predicate Grows(a: map<Addr, string>, b: map<Addr, string>) {
    forall x :: x in a ==> x in b && b[x] == a[x]
  }

  /** checkPointer. With the check disabled, or for a value it does not
      track, nothing happens. Otherwise a tracked value whose address was
      seen before is a circular reference at the current path, and a new
      address is recorded with the current path. */
  function CheckPointer(opts: Options, path: string, v: Value, visited: map<Addr, string>)
    : (r: (Option<GoError>, map<Addr, string>))
    ensures opts.disableCircularCheck || !Tracked(v) ==> r == (None, visited)
    ensures !opts.disableCircularCheck && Tracked(v) ==>
              && (r.0.Some? <==> AddrOf(v) in visited)
              && (r.0.Some? ==> r.0.value == Ours(CircularReferenceError(path)) && r.1 == visited)
              && (r.0.None? ==> r.1 == visited[AddrOf(v) := path])
    ensures Grows(visited, r.1)
  {
    if opts.disableCircularCheck then (None, visited)
    else if (KindOf(v) == Map || KindOf(v) == Slice) && Len(v) == 0 then (None, visited)
    else if (KindOf(v) == Pointer || KindOf(v) == Map || KindOf(v) == Slice) && !IsNil(v) then
      var a := AddrOf(v);
      if a in visited then (Some(Ours(CircularReferenceError(path))), visited)
      else (None, visited[a := path])
    else (None, visited)
  }

  /** What structToMap does with an ordinary field before recursing. */
  datatype Disposition = Skip | EmitNull | Recurse

  /** The nil-pointer and omission checks of structToMap. A field is skipped
      when it is a nil pointer and nil pointers are ignored, or, without
      NullIfEmpty, when it is omitempty and empty or omitzero and zero.
      Otherwise, under NullIfEmpty, an empty field becomes null without
      recursing; every other field is recursed into. */
  function FieldDisposition(opts: Options, fi: FieldInfo, fv: Value): (d: Disposition)
    ensures d == Skip <==>
              || (fv.NilPtr? && opts.ignoreNilPointers)
              || (!opts.nullIfEmpty && ((fi.omitEmpty && IsEmptyValue(fv)) || (fi.omitZero && IsZeroValue(fv))))
    ensures d == EmitNull <==>
              !(fv.NilPtr? && opts.ignoreNilPointers) && opts.nullIfEmpty && IsEmptyValue(fv)
  {
    var isNilPointer := fv.NilPtr?;
    if isNilPointer && opts.ignoreNilPointers then Skip
    else
      var isNilOrEmpty := isNilPointer || IsEmptyValue(fv);
      var isZero := IsZeroValue(fv);
      if (fi.omitEmpty && isNilOrEmpty && !opts.nullIfEmpty) || (fi.omitZero && isZero && !opts.nullIfEmpty) then Skip
      else if isNilOrEmpty && opts.nullIfEmpty then EmitNull
      else Recurse
  }

  /** The keys of an embedded struct's map override those collected so far. */
  function Merge(acc: map<string, IR>, embedded: IR): (r: map<string, IR>)
    ensures embedded.ObjVal? ==> r.Keys == acc.Keys + embedded.fields.Keys
    ensures embedded.ObjVal? ==> forall k :: k in embedded.fields ==> r[k] == embedded.fields[k]
    ensures !embedded.ObjVal? ==> r == acc
  {
    if embedded.ObjVal? then acc + embedded.fields else acc
  }

  /** valueToMap. Strings, booleans, numbers and complex numbers convert
      directly (an empty string is nil under NullIfEmpty; NaN and the
      infinities become strings). A nil pointer is the skip_field error when
      nil pointers are ignored, else nil; a nil interface is nil. Every
      other value enters a level (see Entered). `fuel` bounds the number of
      nested calls; Go has no such bound. */
  function ValueToMap(R: Run, c: Ctx, v: Value, st: St, fuel: nat): (Outcome, St)
    decreases fuel, 0, v, 1, 0
  {
    if fuel == 0 then (OutOfFuel, st)
    else match v
      case StringV(s) => (if s == "" && R.opts.nullIfEmpty then Ok(Null) else Ok(StrVal(s)), st)
      case BoolV(b) => (Ok(BoolVal(b)), st)
      case IntV(i) => (Ok(IntVal(i)), st)
      case UintV(u) => (Ok(UintVal(u)), st)
      case FloatV(f) => (Ok(if f.Finite? then FloatVal(f) else StrVal(FloatToString(f))), st)
      case ComplexV(t) => (Ok(StrVal(t)), st)
      case NilPtr => (if R.opts.ignoreNilPointers then Err(Plain(SkipField)) else Ok(Null), st)
      case NilIface => (Ok(Null), st)
      case _ => Entered(R, c, v, st, fuel)
  }

  /** The values that enter a level: everything but the scalar kinds and
      nil pointers and interfaces. */
  predicate Composite(v: Value) {
    !IsScalar(v) && !v.NilPtr? && !v.NilIface?
  }

  /** The part of valueToMap after enterLevel. Past a positive MaxDepth an
      empty slice or map still yields nil (NullIfEmpty) or an empty
      container, and anything else fails with MaxDepthError at the current
      path. Otherwise pointers, maps and slices go through checkPointer;
      pointers and interfaces recurse on their target with an empty path
      segment; time.Time is passed through (nil when zero under
      NullIfEmpty); structs, maps, slices and arrays go to their helpers,
      with the empty cases handled first; other kinds pass through. */
  function Entered(R: Run, c: Ctx, v: Value, st: St, fuel: nat): (Outcome, St)
    requires Composite(v) && fuel > 0
    decreases fuel, 0, v, 0, 1
  {
    var depth := c.depth + 1;
    if R.opts.maxDepth > 0 && depth > R.opts.maxDepth then
      if (KindOf(v) == Slice || KindOf(v) == Map) && Len(v) == 0 then
        (Ok(if R.opts.nullIfEmpty then Null else if KindOf(v) == Slice then ListVal([]) else ObjVal(map[])), st)
      else
        (Err(Ours(MaxDepthError(c.path, R.opts.maxDepth))), st)
    else
      var (perr, visited) :=
        if KindOf(v) == Pointer || KindOf(v) == Map || KindOf(v) == Slice
        then CheckPointer(R.opts, c.path, v, st.visited) else (None, st.visited);
      var st1 := st.(visited := visited);
      if perr.Some? then (Err(perr.value), st1)
      else Dispatch(R, Ctx(c.path, depth), v, st1, fuel)
  }

  /** The kind switch of valueToMap, run once the level has been entered and
      the pointer check passed; inner carries the new depth. */
  function Dispatch(R: Run, inner: Ctx, v: Value, st: St, fuel: nat): (Outcome, St)
    requires Composite(v) && fuel > 0
    decreases fuel, 0, v, 0, 0
  {
    match v
    case PtrV(a) =>
      if a in R.heap then ValueToMap(R, Ctx(WithPath(inner.path, ""), inner.depth), R.heap[a], st, fuel - 1)
      else (Panicked, st)
    case IfaceV(dyn) => ValueToMap(R, Ctx(WithPath(inner.path, ""), inner.depth), dyn, st, fuel - 1)
    case TimeV(isZero, instant) => (Ok(if isZero && R.opts.nullIfEmpty then Null else TimeVal(instant)), st)
    case StructV(_, _) => StructToMap(R, inner, v, st, fuel - 1)
    case NilMap => (Ok(if R.opts.nullIfEmpty then Null else ObjVal(map[])), st)
    case MapV(_, es) =>
      if |es| == 0 && R.opts.nullIfEmpty then (Ok(Null), st)
      else MapFold(R, inner, v, es, 0, map[], st, fuel - 1)
    case NilSlice => (Ok(if R.opts.nullIfEmpty then Null else ListVal([])), st)
    case SliceV(_, es) =>
      if |es| == 0 then (Ok(ListVal([])), st)
      else SliceFold(R, inner, v, es, 0, [], st, fuel - 1)
    case ArrayV(es) =>
      // v.IsNil() on an array panics
      if |es| == 0 then (if R.opts.nullIfEmpty then (Panicked, st) else (Ok(ListVal([])), st))
      else SliceFold(R, inner, v, es, 0, [], st, fuel - 1)
    case OtherV(t) => (Ok(OpaqueVal(t)), st)
  }

  /** The cache key of a struct-kind value's type. */
  function TypeOfStruct(v: Value): FieldType
    requires v.StructV? || v.TimeV?
  {
    if v.StructV? then StructT(v.typeId) else TimeT
  }

  /** structToMap: fetch the descriptors from the cache, then fold over them. */
  function StructToMap(R: Run, c: Ctx, v: Value, st: St, fuel: nat): (Outcome, St)
    requires v.StructV? || v.TimeV?
    decreases fuel, 1, v, 1, 0
  {
    var (fields, cache1) := LookupSpec(st.cache, TypeOfStruct(v), R.types, R.opts.tagKey);
    StructFold(R, c, v, fields, 0, map[], st.(cache := cache1), fuel)
  }

  /** The loop of structToMap from descriptor i on, with the keys collected
      so far in acc. */
  function StructFold(R: Run, c: Ctx, v: Value, fields: seq<FieldInfo>, i: nat, acc: map<string, IR>,
                      st: St, fuel: nat): (Outcome, St)
    requires i <= |fields|
    decreases fuel, 1, v, 0, |fields| - i
  {
    if i == |fields| then (Ok(ObjVal(acc)), st)
    else
      var fi := fields[i];
      if !ShouldIncludeField(fi.groups, R.mode, R.groups) then StructFold(R, c, v, fields, i + 1, acc, st, fuel)
      else
        var fc := Ctx(WithPath(c.path, fi.name), c.depth);
        match FieldByIndex(v, fi.index)
        case None => (Panicked, st)
        case Some(fv) =>
          if fi.anonymous && KindOf(fv) == Struct then
            // an empty index path would make Go recurse on v itself forever
            if fi.index == [] then (OutOfFuel, st)
            else
              FieldByIndexSmaller(v, fi.index);
              var (o, st1) := StructToMap(R, fc, fv, st, fuel);
              if !o.Ok? then (o, st1)
              else StructFold(R, c, v, fields, i + 1, Merge(acc, o.ir), st1, fuel)
          else
            match FieldDisposition(R.opts, fi, fv)
            case Skip => StructFold(R, c, v, fields, i + 1, acc, st, fuel)
            case EmitNull => StructFold(R, c, v, fields, i + 1, acc[fi.jsonName := Null], st, fuel)
            case Recurse =>
              var (o, st1) := ValueToMap(R, fc, fv, st, fuel);
              if o.Err? && ErrorText(o.err) == SkipField then StructFold(R, c, v, fields, i + 1, acc, st1, fuel)
              else if !o.Ok? then (o, st1)
              else if o.ir != Null then StructFold(R, c, v, fields, i + 1, acc[fi.jsonName := o.ir], st1, fuel)
              else if R.opts.nullIfEmpty then StructFold(R, c, v, fields, i + 1, acc[fi.jsonName := Null], st1, fuel)
              else StructFold(R, c, v, fields, i + 1, acc, st1, fuel)
  }

  /** The loop of sliceToSlice from element i on: each element under path
      segment "[i]"; a nil result is kept only under NullIfEmpty; the first
      failure ends the loop. */
  function SliceFold(R: Run, c: Ctx, v: Value, es: seq<Value>, i: nat, acc: seq<IR>, st: St, fuel: nat)
    : (Outcome, St)
    requires i <= |es|
    decreases fuel, 1, v, 0, |es| - i
  {
    if i == |es| then (Ok(ListVal(acc)), st)
    else
      var (o, st1) := ValueToMap(R, Ctx(WithPath(c.path, IndexSegment(i)), c.depth), es[i], st, fuel);
      if !o.Ok? then (o, st1)
      else
        var acc' := if o.ir != Null || R.opts.nullIfEmpty then acc + [o.ir] else acc;
        SliceFold(R, c, v, es, i + 1, acc', st1, fuel)
  }

  /** The loop of mapToMap from entry i on, in iteration order: each value
      under its key's text; a nil result is kept only under NullIfEmpty; the
      first failure ends the loop. */
  function MapFold(R: Run, c: Ctx, v: Value, es: seq<MapEntry>, i: nat, acc: map<string, IR>, st: St, fuel: nat)
    : (Outcome, St)
    requires i <= |es|
    decreases fuel, 1, v, 0, |es| - i
  {
    if i == |es| then (Ok(ObjVal(acc)), st)
    else
      var key := KeyString(es[i].key);
      var (o, st1) := ValueToMap(R, Ctx(WithPath(c.path, key), c.depth), es[i].val, st, fuel);
      if !o.Ok? then (o, st1)
      else
        var acc' := if o.ir != Null || R.opts.nullIfEmpty then acc[key := o.ir] else acc;
        MapFold(R, c, v, es, i + 1, acc', st1, fuel)
  }

  /** What MarshalToMapWithOptions returns: a map (None for the nil map), an
      error, a panic, or an exhausted budget. */
  datatype MapResult = MapOut(m: Option<map<string, IR>>) | ErrOut(e: GoError) | PanicOut | FuelOut

  /** The path WrapJSONError is given for errors that reach the top. */
  const RootPath := "Root"

  /** MarshalToMapWithOptions. A nil input gives a nil map. Otherwise the
      value is converted from the root context (empty path, depth 0, no
      visited address); an error is wrapped with path "Root"; a map result
      is returned as it is and any other result under the key "value". */
  function MarshalToMap(v: Option<Value>, heap: Heap, types: TypeEnv, opts: Options, groups: seq<string>,
                        cache: CacheState, fuel: nat): (r: (MapResult, CacheState))
    ensures v.None? ==> r == (MapOut(None), cache)
    ensures r.0.ErrOut? ==> AsOurs(r.0.e).Some?
    ensures r.0.MapOut? && v.Some? ==> r.0.m.Some?
  {
    if v.None? then (MapOut(None), cache)
    else
      var R := Run(heap, types, opts, groups, opts.groupMode);
      var (o, st) := ValueToMap(R, Ctx("", 0), v.value, St(map[], cache), fuel);
      var out :=
        match o
        case Ok(ObjVal(m)) => MapOut(Some(m))
        case Ok(ir) => MapOut(Some(map["value" := ir]))
        case Err(e) => ErrOut(WrapJSONError(Some(e), RootPath).value)
        case Panicked => PanicOut
        case OutOfFuel => FuelOut;
      (out, st.cache)
  }
}
