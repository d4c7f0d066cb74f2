# jsongroup, modelled in Dafny

jsongroup serializes a Go value to JSON, keeping only the struct fields
whose `groups` tag matches the requested groups. This project models
everything that happens before the final encoder call:

- the group filter (`shouldIncludeField`) and the two emptiness predicates
  (`isEmptyValue`, `isZeroValue`);
- the traversal (`valueToMap`, `structToMap`, `mapToMap`, `sliceToSlice`,
  `MarshalToMapWithOptions`). It turns a Go value into the intermediate tree
  of maps, slices and scalars. It carries a path and a depth and shares one
  visited-address map for cycle detection;
- field metadata (`parseFields`, `parseJSONTag`, `parseGroupsTag`) and the
  LRU field cache (`fieldCache`: `getFieldsInfo`, `evict`, `SetMaxSize`,
  `Clear`, `GetStats`);
- the error type, its constructors and `WrapJSONError`;
- `Options` with `DefaultOptions` and the `With*` builders.

Go values are the datatype `Reflect.Value`. Pointers refer by address into a
heap `map<Addr, Value>`, so cyclic values can be written down. Struct types
are a `TypeEnv`: per type id, the declared fields with name, exported,
embedded, type and tags.

The model has two layers:

- **Specification functions.** Module `Traversal` states the traversal as
  functions, and module `Cache` states the cache transitions as functions
  on `CacheState`.
- **Imperative code.** The code that updates state in place is written as
  classes with `modifies` clauses:
  - `Serializer.SerializeContext`: path and depth updated in place; the
    visited table `PointerTable` is shared by every context of one call;
  - `Cache.FieldCache`: map, recency list and counters updated in place.

  Each method's `ensures` equates its results and new state with the
  corresponding specification function. Module `TraversalFacts` and the
  lemmas in `Cache` prove what the source promises about those functions.

Go's reflection panics are an explicit outcome, `Panicked`. Two of them are
modelled this way:

- `IsNil` on a zero-length array under NullIfEmpty;
- a `FieldByIndex` step that does not reach a struct field.

A pointer outside the heap is also `Panicked`.

Go's recursion has no bound. With the cycle check off and MaxDepth 0, a
cyclic value makes it run forever. The model therefore gives the traversal
a `fuel` budget, and a call that exhausts it returns `OutOfFuel`.
`TraversalFacts.ValueToMapKeeps` proves that a budget larger than a
positive MaxDepth never runs out.

Two places where the source files do not fit together, or behave in a way
that is easy to miss; the model follows marshal.go:

- **Options fields.** options.go declares neither `MaxDepth` nor
  `DisableCircularCheck`, although marshal.go:57 and marshal.go:70 read
  them. The model adds both fields, the builders `WithMaxDepth` and
  `WithDisableCircularCheck`, and a default depth of 32.
- **Depth after a MaxDepth error.** `enterLevel` increments the depth before
  it fails, and the deferred `leaveLevel` is registered only afterwards. So a
  MaxDepth error on a non-empty value leaves the depth one higher
  (marshal.go:239-258). `Serializer.ValueToMap` states exactly this.

Behaviour of the source that the model keeps, with the lemma that shows it:

- **Shared values are reported as cycles.** Visited addresses are never
  removed, so an acyclic value reached twice counts as circular
  (`TraversalFacts.SharedPointerIsReported`).
- **The skip_field sentinel aborts containers.** A nil pointer inside a
  slice aborts the whole slice (`TraversalFacts.NilPointerAbortsSlice`). A
  struct then drops the field (`TraversalFacts.SkipFieldDropsField`).
- **The cache key ignores the tag key** (`Cache.StaleTagKey`).

## Model

| member | source | states |
|---|---|---|
| Serializer.SerializeContext.constructor | marshal.go:28-35 | a new context has empty path, depth 0, the options, and a fresh empty pointer table |
| Serializer.SerializeContext.WithPath | marshal.go:38-52 | the child context's path is the segment alone at the root and `path.segment` otherwise; it copies the depth and shares the same pointer table and options |
| Serializer.SerializeContext.EnterLevel | marshal.go:55-61 | depth goes up by one, even when it fails; it fails iff MaxDepth > 0 and the new depth exceeds it, with MaxDepthError at the current path |
| Serializer.SerializeContext.LeaveLevel | marshal.go:64-66 | depth goes down by one and the path is unchanged |
| Serializer.SerializeContext.CheckPointer | marshal.go:69-88 | updates the shared table exactly as `Traversal.CheckPointer` says: nothing when the check is off or for nil/empty values; a circular-reference error at the current path for an address already seen; otherwise records the address with the current path |
| Traversal.CheckPointer | marshal.go:69-88 | the error occurs iff the check is on, the value is a non-nil pointer or non-empty map/slice, and its address was seen; a new address is recorded with the path; entries are never removed or changed (`Grows`) |
| Traversal.WithPath | marshal.go:38-52 | at the root the result is the segment; otherwise it is path, '.', segment, in that order |
| Traversal.IndexSegment | marshal.go:483 | the slice segment is `[` + the decimal digits of i + `]`, and those digits read back as i |
| Traversal.KeyString | marshal.go:440-451 | string keys are themselves; int and uint keys are decimal texts that read back as the key; other keys use their fmt.Sprint text |
| Traversal.FloatToString | marshal.go:566-577 | NaN, +Inf and -Inf map to "NaN", "Infinity" and "-Infinity", one-to-one |
| Traversal.FieldDisposition | marshal.go:385-404 | a field is skipped iff it is a nil pointer with IgnoreNilPointers, or, without NullIfEmpty, omitempty and empty or omitzero and zero; it becomes null without recursion iff it is not skipped as a nil pointer, NullIfEmpty is on and it is empty |
| Traversal.Merge | marshal.go:376-381 | an embedded map's keys are added and override earlier ones; a non-map result adds nothing |
| Traversal.MarshalToMap | marshal.go:146-180 | nil input gives a nil map; every error reaching the caller is one of the package's own errors; a converted value always gives a map |
| Serializer.ValueToMap | marshal.go:183-312 | the method's outcome and final table and cache equal `Traversal.ValueToMap`; the cache invariant is kept; the path is restored; the depth is restored except after a MaxDepth error, where it is one higher |
| Serializer.Enter | marshal.go:238-311 | entering a composite value equals `Traversal.Entered`: the depth check with its empty slice/map exception, then the pointer check, then the kind switch |
| Serializer.DepthExceeded | marshal.go:239-257 | past MaxDepth, an empty slice or map gives null (NullIfEmpty) or an empty container and the level is left; anything else gets the depth error and the depth stays raised |
| Serializer.CheckThenConvert | marshal.go:260-265 | within the depth limit, the pointer check for pointers, maps and slices precedes the kind switch, and the outcome equals `Traversal.Entered` |
| Serializer.ConvertScalar | marshal.go:197-236 | for strings, booleans, numbers, complex numbers and nil pointers/interfaces, the outcome is the same as `Traversal.ValueToMap` for every context, state and budget; the state is untouched and no level is entered |
| Serializer.Convert | marshal.go:267-311 | the kind switch after the checks computes `Traversal.Dispatch` |
| Serializer.FollowReference | marshal.go:269-271 | a pointer or interface recurses on its target under an empty path segment, one level deeper |
| Serializer.ConvertStruct | marshal.go:273-283 | time.Time is passed through, or null when zero under NullIfEmpty; other structs go to structToMap |
| Serializer.ConvertMap | marshal.go:285-290 | an empty map under NullIfEmpty is null; otherwise the map loop runs |
| Serializer.ConvertSlice | marshal.go:292-306 | an empty slice or array is `[]`; a nil slice under NullIfEmpty is null; an empty array under NullIfEmpty panics; otherwise the slice loop runs |
| Serializer.StructToMap | marshal.go:344-425 | fetches the descriptors from the cache and runs the field loop; the result equals `Traversal.StructToMap` |
| Serializer.AddField | marshal.go:356-422 | one pass of the field loop equals one step of `Traversal.StructFold`: filtered, embedded, omitted, null or recursed |
| Serializer.AddEmbeddedField | marshal.go:368-383 | an embedded struct value is converted by structToMap and its keys merged; an error ends the loop |
| Serializer.AddValueField | marshal.go:385-421 | an ordinary field is skipped, set to null or recursed into; skip_field drops the field; other errors end the loop; a nil result is kept only under NullIfEmpty |
| Serializer.MergeInto | marshal.go:377-381 | the result has the keys of both maps, and the embedded map's values win |
| Serializer.MapToMap | marshal.go:428-469 | the loop over the entries equals `Traversal.MapFold`: each value under its key text, a nil kept only under NullIfEmpty, the first error aborts |
| Serializer.SliceToSlice | marshal.go:472-498 | the loop over the elements equals `Traversal.SliceFold`: each element under `[i]`, a nil kept only under NullIfEmpty, the first error aborts |
| Serializer.MarshalToMapWithOptions | marshal.go:146-180 | uses a fresh context per call and the shared cache; the result and the new cache equal `Traversal.MarshalToMap` |
| TraversalFacts.ValueToMapKeeps | marshal.go:183-312 | every conversion only adds to the visited map (nothing when the check is off) and keeps the cache consistent. Its only errors are skip_field (when nil pointers are ignored), MaxDepthError with the configured limit (when positive) and CircularReferenceError (when the check is on). A budget above a positive MaxDepth never runs out |
| TraversalFacts.MarshalOutcomes | marshal.go:146-180 | at the top, errors are depth errors only under a positive MaxDepth, cycle errors only with the check on, and skip_field (as an Unknown error at "Root") only when nil pointers are ignored; the cache stays consistent |
| TraversalFacts.MarshalStep | marshal.go:165-179 | an error of the package passes through unchanged; any other error becomes an Unknown error at "Root" caused by it; a non-map result is wrapped under "value" |
| TraversalFacts.TowerDepth | marshal.go:55-61 | n nested slices entered from depth d fail with MaxDepthExceeded iff MaxDepth > 0 and d + n > MaxDepth, and otherwise convert level by level |
| TraversalFacts.TowerAtTop | marshal.go:55-61 | under a positive MaxDepth, n nested slices are refused exactly when n > MaxDepth, with kind MaxDepthExceeded |
| TraversalFacts.EnterStep | marshal.go:238-268 | within the depth limit and past the pointer check, a composite value reaches the kind switch one level deeper with the address recorded |
| TraversalFacts.PointerToScalar | marshal.go:269-271 | a pointer to a scalar converts the scalar one level down under an empty segment |
| TraversalFacts.SharedPointerIsReported | marshal.go:69-88 | one pointer held by two slice elements, with no cycle, is reported as a circular reference at "[1]" |
| TraversalFacts.SharedPointerWithoutCheck | marshal.go:69-72 | with the check off, the same slice converts both elements |
| TraversalFacts.NilPointerAbortsSlice | marshal.go:230-236 | with IgnoreNilPointers, a nil pointer inside a slice aborts the whole slice, and the top reports an Unknown error "skip_field" at "Root" |
| TraversalFacts.NilPointerLoop | marshal.go:486-494 | in the slice loop, a nil pointer gives the sentinel when nil pointers are ignored, else null, kept only under NullIfEmpty |
| TraversalFacts.SkipFieldDropsField | marshal.go:407-413 | when a field's conversion returns skip_field, the struct loop goes on without that field and with the state the conversion left |
| TraversalFacts.OmitEmptyVersusOmitZero | marshal.go:395-399 | omitempty skips an empty slice that omitzero keeps, and omitzero skips a zero time.Time that omitempty keeps |
| TraversalFacts.NilFieldBuilderOrder | marshal.go:386-404 | a nil pointer field is skipped when IgnoreNilPointers is set last, and null when NullIfEmpty is set last |
| TraversalFacts.SliceFoldStep | marshal.go:479-494 | one element step of the slice loop |
| TraversalFacts.MapFoldStep | marshal.go:435-465 | one entry step of the map loop |
| TraversalFacts.SliceFoldShape | marshal.go:472-498 | the slice result extends the earlier items in order, with at most one item per element and exactly one under NullIfEmpty |
| TraversalFacts.MapFoldKeys | marshal.go:428-469 | the map result's keys are the earlier keys plus some of the entries' key texts, and all of them under NullIfEmpty |
| TraversalFacts.StructFoldKeysAdmitted | marshal.go:356-424 | when no descriptor leads into an embedded struct value, every key of a struct's map is the JSON name of a descriptor the group filter admits |
| TraversalFacts.ParsedNoMerge | marshal.go:365-366 | on a value of its declared type, no descriptor list the cache can hand out leads into an embedded struct value, so the merge branch is not taken |
| TraversalFacts.StructToMapKeysAdmitted | marshal.go:344-424 | structToMap on a value of its declared type, with a cache holding only parsed descriptors: every key of the map is the JSON name of one of the type's descriptors that the group filter admits |
| TraversalFacts.RejectedFieldIgnored | marshal.go:357-360 | a rejected descriptor changes neither the keys nor the state, and exists only when some group is requested |
| Groups.AnyRequested | marshal.go:533-540 | true iff some requested group is among the field's groups |
| Groups.AllRequested | marshal.go:542-549 | true iff every requested group is among the field's groups |
| Groups.ShouldIncludeField | marshal.go:520-553 | no requested group includes every field; otherwise a field without groups is excluded; OR mode needs a shared group, AND mode all requested groups; any other mode excludes |
| Groups.OrMonotone | marshal.go:533-540 | under OR, requesting more groups never drops a field |
| Groups.AndAntitone | marshal.go:542-549 | under AND, requesting fewer groups (at least one) never drops a field |
| Groups.OrUnion | marshal.go:533-540 | a field included under {A} or under {B} is included under {A, B} |
| Groups.AndSplit | marshal.go:542-549 | under AND, a field included under {A, B} is included under {A} and {B}, and the converse fails |
| Reflect.IsZeroValue | marshal.go:316-341 | isZeroValue and isEmptyValue disagree exactly on empty arrays, maps and slices (empty, never zero) and on zero time.Time values (zero, never empty) |
| Reflect.FieldByIndex | marshal.go:366 | an empty path gives the value itself; each step needs a struct with that field and continues inside it |
| Reflect.TagGet | cache.go:301-302 | a missing tag key reads as "" |
| Fields.ParseJSONTag | cache.go:353-376 | an empty tag gives (fieldName, false, false); an empty name piece falls back to fieldName; each flag is set iff its exact option follows the first comma |
| Fields.JSONTagRoundTrip | cache.go:353-376 | parseJSONTag reads back any name (non-empty, comma-free) and flag combination that is written as a tag |
| Fields.ParseGroupsTag | cache.go:379-395 | "" gives no groups; otherwise the comma-separated pieces, trimmed, empty ones dropped, in order; no result is empty or padded |
| Fields.GroupsTagRoundTrip | cache.go:379-395 | parseGroupsTag reads back a comma-joined list of plain group names exactly |
| Fields.FieldsOf | cache.go:268-271 | a struct type gives its parsed descriptors; any other type gives none |
| Fields.Prefixed | cache.go:314-334 | an embedded struct's entries keep key, groups and flags, with the index prefixed by the embedding position and the name by `Outer.` |
| Fields.PathConforms | cache.go:317-333 | following a descriptor's index path of embedded struct fields through a value of the declared type reaches a value of the type of the field the path names |
| Fields.ParsedFieldsAvoidStructs | cache.go:317-345 | on a value of the declared type, every anonymous descriptor leads to a value that is not a struct: embedded structs are always flattened into their fields |
| Fields.ParseFieldsSound | cache.go:292-346 | every descriptor describes a real exported field reached through embedded structs; its key, flags and groups come from that field's tags, and it is never itself an embedded struct |
| Fields.ParseFieldsComplete | cache.go:292-346 | every exported field whose JSON name is not "-" and that is not an embedded struct yields an entry with index [i] and its own name |
| Fields.ParseFieldsOrdered | cache.go:292-346 | descriptors come in declaration order (lexicographic on index paths, hence without duplicates), and each index path is non-empty |
| Cache.NewCache | cache.go:74-81 | a new cache is empty, consistent and within capacity |
| Cache.FieldCache.constructor | cache.go:74-81 | the object starts in state `NewCache(capacity)` |
| Cache.EvictSpec | cache.go:227-265 | an empty list is unchanged; otherwise the back element leaves the list; the key mapping to it leaves the map and evictions goes up by one; without such a key it is CacheOverflowError and the map is unchanged |
| Cache.EvictConsistent | cache.go:227-265 | on a consistent cache, evict never fails, removes exactly the back element and its key, and keeps the map and list in bijection |
| Cache.FieldCache.Evict | cache.go:227-265 | the search loop over the map performs `EvictSpec` in place |
| Cache.EvictWhileFull | cache.go:203-208 | with a positive capacity, evicting from the back until there is room leaves fewer than maxSize elements, a prefix of the list, and a sub-map |
| Cache.EvictWhileFullConsistent | cache.go:203-208 | evicting until there is room keeps the cache consistent |
| Cache.TrimSpec | cache.go:115-120 | trimming keeps a prefix of the list and never runs for a capacity of 0 or less |
| Cache.TrimConsistent | cache.go:115-120 | trimming keeps the cache consistent and within capacity; the new length is the smaller of the old length and the capacity |
| Cache.SetMaxSizeBounds | cache.go:109-121 | SetMaxSize(n > 0) trims to min(length, n), keeping the most recent entries; n ≤ 0 trims nothing; the cache stays consistent |
| Cache.FieldCache.SetMaxSize | cache.go:109-121 | the loop performs `SetMaxSizeSpec` in place and keeps the cache consistent and within capacity |
| Cache.IndexOf | cache.go:173 | finds the position of the element with that identity, or reports that none has it |
| Cache.MoveToFront | cache.go:173 | the element moves to the front and the others keep their order; an element not in the list leaves it unchanged |
| Cache.MoveToFrontPermutes | cache.go:173 | moving to the front keeps the set of elements and their distinct identities |
| Cache.LookupSpec | cache.go:155-224 | a non-struct type gives nothing and changes nothing; a hit returns the stored descriptors, counts a hit and moves the entry to the front; a miss parses, evicts until there is room (capacity > 0), pushes a new entry to the front and counts a miss |
| Cache.LookupConsistent | cache.go:155-224 | a lookup keeps the map and list consistent and the size within a positive capacity |
| Cache.LookupParsed | cache.go:155-224 | whatever tag keys earlier callers used, a lookup returns the parse of the type under some tag key, and the cache stores nothing else |
| Cache.TrimParsed | cache.go:115-120 | trimming only removes entries, so the cache keeps holding parsed descriptors only |
| Cache.LookupTransparent | cache.go:155-224 | with a single tag key, every lookup returns exactly what parsing the type gives |
| Cache.StaleTagKey | cache.go:163 | once a type is cached, a lookup with another tag key returns the descriptors parsed for the first |
| Cache.FieldCache.GetFieldsInfo | cache.go:155-224 | the method performs `LookupSpec` in place, with the synchronous move to front and the eviction loop, and keeps the cache consistent and within capacity |
| Cache.ClearSpec | cache.go:144-151 | Clear empties map and list, zeroes hits, misses and evictions, and keeps maxSize |
| Cache.FieldCache.Clear | cache.go:144-151 | the object ends in state `ClearSpec` of its old state |
| Cache.StatsOf | cache.go:124-141 | CurrentSize is the list length; MaxSize, hits and misses are copied; the hit ratio is hits/(hits+misses), or 0 with no lookups, and lies in [0, 1] |
| Cache.FieldCache.GetStats | cache.go:124-141 | returns `StatsOf` of the current state and changes nothing |
| Errors.ErrorStringShape | errors.go:44-53 | Error() is the message, then " at path '<path>'" only for a non-empty path, then ": <cause>" only with a cause |
| Errors.Unwrap | errors.go:56-58 | returns exactly the cause, and nothing without one |
| Errors.MaxDepthError | errors.go:61-72 | kind MaxDepthExceeded, the given path, no cause, and the limit in parentheses in the message |
| Errors.CircularReferenceError | errors.go:75-86 | kind CircularReference, the given path, no cause |
| Errors.TypeText | errors.go:89-111 | a valid reflect value gives its type name, an invalid one the fixed "无效值", a string itself, and anything else its dynamic type name |
| Errors.UnsupportedTypeError | errors.go:89-111 | kind UnsupportedType, the given path, and the message ends with the type text |
| Errors.ReflectionError | errors.go:114-121 | kind Reflection, with the given error as cause, which Unwrap returns |
| Errors.CacheOverflowError | errors.go:124-129 | kind CacheOverflow, empty path, and the message starts with the cache name and holds the size |
| Errors.WrapJSONError | errors.go:156-189 | nil stays nil; an error that is or wraps a package error is returned unchanged; everything else becomes a package error at the given path: an unsupported type stays UnsupportedType; an unsupported value is CircularReference exactly when its text mentions a cycle, else UnsupportedType; a marshaler error is Reflection wrapping the marshaler's own error; a syntax or invalid-unmarshal error is Reflection wrapping itself; any other error is Unknown with its own text and itself as cause |
| Errors.WrapIdempotent | errors.go:156-189 | wrapping twice is the same as wrapping once |
| Errors.WrapKeepsOurKind | errors.go:161-165 | a package error wrapped by fmt.Errorf passes through, so its kind survives |
| Errors.WrapForeign | errors.go:181-188 | an unknown error becomes kind Unknown with its text as message and itself as cause |
| Errors.WrapCycleValue | errors.go:171-176 | an UnsupportedValueError is CircularReference iff its text contains "encountered a cycle", else UnsupportedType |
| Errors.WrapMarshaler | errors.go:177-178 | a MarshalerError becomes a ReflectionError caused by the inner error |
| Config.Options.WithTopLevelKey | options.go:43-46 | sets TopLevelKey and changes no other field |
| Config.Options.WithGroupMode | options.go:49-52 | sets GroupMode and changes no other field |
| Config.Options.WithTagKey | options.go:55-58 | sets TagKey and changes no other field |
| Config.Options.WithNullIfEmpty | options.go:61-68 | sets NullIfEmpty; enabling it turns IgnoreNilPointers off, disabling it leaves that flag as it was; nothing else changes |
| Config.Options.WithIgnoreNilPointers | options.go:71-74 | sets IgnoreNilPointers and changes no other field |
| Config.Options.WithUseInterfaceForNested | options.go:77-80 | sets UseInterfaceForNested and changes no other field |
| Config.DefaultOptions | options.go:31-40 | OR mode, no top-level key, tag key "groups", no interface nesting, NullIfEmpty off, IgnoreNilPointers on (plus depth limit 32 and the cycle check on) |
| Config.BuildersIdempotent | options.go:43-80 | applying any builder twice with the same argument equals applying it once |
| Config.NullIfEmptyOrder | options.go:61-74 | builder order matters: IgnoreNilPointers set after NullIfEmpty stays set, set before it is switched off |
| Text.IntToStringRoundTrip | marshal.go:444-447 | the decimal text of an integer key reads back as that integer, so distinct integer keys never collide |

## Left out

- Concurrency in the cache: the RWMutex, the goroutine that performs the move to front (cache.go:171-175) and the racy hit counter. The cache is modelled single-threaded, with the move to front done at once.
- The second cache lookup under the write lock (cache.go:192-200). A single thread cannot take it, so it is not modelled.
- The recover blocks (marshal.go:148-155, 185-192; cache.go:277-289) re-raise the panic. They never produce an error value, so a panic is the outcome `Panicked`. `RecoverFromPanic` (errors.go:132-153) is not called from the core and is not modelled.
- Go's recursion is unbounded. The model's `fuel` turns non-termination (a cycle with the check off and MaxDepth 0) into `OutOfFuel`. An embedded struct field with an empty index path, where Go would recurse on the struct itself forever, is also `OutOfFuel`.
- The final `json.Marshal` and the TopLevelKey wrapping of `MarshalByGroupsWithOptions` (marshal.go:96-138) are the external encoder. Only the classification of its errors by `WrapJSONError` is modelled, over a datatype of encoder errors.
- Floating-point and complex formatting: finite floats pass through as abstract values, and a complex number carries the text `%g` gives it. `Traversal.FloatToString` covers only NaN and the infinities, the values it is called on.
- Cache.StatsOf: the hit ratio is an exact real, not a float64.
- The `Value` field of `Error` (the reflect value it was built for) is not represented, because nothing reads it.
- `newFieldCache` uses `DefaultMaxCacheSize`, which cache.go does not define. Cache.NewCache and the FieldCache constructor take the capacity as a parameter instead.
- Values are not typed against their declared Go types by construction: `Reflect.Value` can put a struct value where a field is declared as a pointer or an interface, and a struct value can then reach the merge branch of structToMap through a non-struct anonymous field. Go's type system rules this out; the model proves the absence of that case under `Fields.Conforms` (TraversalFacts.ParsedNoMerge) rather than for every value.
- TraversalFacts.StructFoldKeysAdmitted: states the key property only when no descriptor leads into an embedded struct value; TraversalFacts.StructToMapKeysAdmitted discharges that for values of their declared types.
- Pointer addresses are plain numbers in a heap that holds one value per address. Go's `ptr.Pointer()` (marshal.go:80-85) gives a struct pointer and a pointer to its first field the same address, and zero-size allocations may share one; the model does not capture the false cycles those coincidences can report.
- `MarshalByGroupsWithOptions` dereferences its `*Options` (marshal.go:162), so a nil options pointer panics in Go. The model takes the options by value and has no nil options.
- Errors.WrapCycleValue: the type text of an unsupported value is a free parameter; Go formats the error's `reflect.Value` field with %T, which always gives "reflect.Value".
- Map iteration order: a map value lists its entries in the order the iteration visits them, and the model follows that order. Go's order is unspecified.
- Struct tags are a map from key to value, read by `TagGet`. Tag-string syntax is not parsed.
- The hit, miss and eviction counters and the depth are unbounded integers, with no int64 wrap-around.
- Cache.EvictSpec: when several keys map to the back element, it removes all of them, whereas Go's loop removes the first it finds. A consistent cache never has two such keys (Cache.EvictConsistent).
- The `ReflectionError` path of structToMap (marshal.go:352-354) is unreachable: `parseFields` never returns an error, because its recover does not set the returned error. The model has no such path.
- Fields.ParseFields resolves a nested type in the type environment without the types being resolved around it, which makes it total. This differs from Go only for a struct that embeds itself by value, which Go rejects.
- `fmt.Sprint` of a map key of another kind is the text stored in the key (`Reflect.OtherKey`).
- `time.Time` is an `isZero` flag plus an abstract instant. `createdAt`/`time.Now` in the cache plays no part in the logic and is left out.
- `UseInterfaceForNested` and `TopLevelKey` are carried in `Options` but read by nothing in the model, as in the traversal of the source.
- `MarshalByGroups`, `MarshalByGroupsWithOptions`, `MarshalToMap`, `GetCacheStats` and `SetMaxCacheSize` are thin wrappers around the global cache and the encoder. They are not modelled separately.
