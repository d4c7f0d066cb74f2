/** The Go values and struct types the serializer inspects through `reflect`,
    as data. Pointers refer to a heap by address, so values may be cyclic;
    slices and maps carry their elements together with the address that
    identifies their backing store. */
module Reflect {
  import opened Text

  type Addr = nat
  type TypeId = nat

  /** A floating-point number, as far as the serializer looks at it. */
  datatype Float = NaN | PosInf | NegInf | Finite(isZero: bool, bits: int)

  /** A map key: string, signed or unsigned integer, or any other kind of key
      together with the text fmt.Sprint gives it. */
  datatype Key = StrKey(s: string) | IntKey(i: int) | UintKey(u: nat) | OtherKey(text: string)

  datatype Value =
    | BoolV(b: bool)
    | IntV(i: int)
    | UintV(u: nat)
    | FloatV(f: Float)
      /** A complex number, with the text "%g" formats it to. */
    | ComplexV(text: string)
    | StringV(s: string)
      /** A time.Time: whether IsZero() holds, and the instant it stands for. */
    | TimeV(isZero: bool, instant: int)
    | NilPtr
    | PtrV(addr: Addr)
    | NilIface
    | IfaceV(dyn: Value)
    | NilSlice
    | SliceV(addr: Addr, elems: seq<Value>)
    | ArrayV(elems: seq<Value>)
    | NilMap
      /** A map, its entries in the order the iteration visits them. */
    | MapV(addr: Addr, entries: seq<MapEntry>)
    | StructV(typeId: TypeId, fields: seq<Value>)
      /** Channels, functions and other kinds the serializer passes through. */
    | OtherV(token: int)

  datatype MapEntry = MapEntry(key: Key, val: Value)

  type Heap = map<Addr, Value>

  /** reflect.Kind, coarsened to what the serializer distinguishes. */
  datatype Kind = Bool | Int | Uint | FloatKind | Complex | String | Struct
                | Pointer | Interface | Slice | Array | Map | Other

  function KindOf(v: Value): Kind {
    match v
    case BoolV(_) => Bool
    case IntV(_) => Int
    case UintV(_) => Uint
    case FloatV(_) => FloatKind
    case ComplexV(_) => Complex
    case StringV(_) => String
    case TimeV(_, _) => Struct
    case NilPtr => Pointer
    case PtrV(_) => Pointer
    case NilIface => Interface
    case IfaceV(_) => Interface
    case NilSlice => Slice
    case SliceV(_, _) => Slice
    case ArrayV(_) => Array
    case NilMap => Map
    case MapV(_, _) => Map
    case StructV(_, _) => Struct
    case OtherV(_) => Other
  }

  /** v.IsNil() for the kinds that can be nil. */
  predicate IsNil(v: Value) {
    v.NilPtr? || v.NilIface? || v.NilSlice? || v.NilMap?
  }

  predicate IsCollection(v: Value) {
    KindOf(v) == Slice || KindOf(v) == Array || KindOf(v) == Map
  }

  /** v.Len() for slices, arrays and maps. */
  function Len(v: Value): nat
    requires IsCollection(v)
  {
    match v
    case SliceV(_, es) => |es|
    case ArrayV(es) => |es|
    case MapV(_, es) => |es|
    case _ => 0
  }

  /** The kinds valueToMap handles without entering a level: bool, the integer
      kinds, floats, complex numbers and strings. */
  predicate IsScalar(v: Value) {
    v.BoolV? || v.IntV? || v.UintV? || v.FloatV? || v.ComplexV? || v.StringV?
  }

  // ---------------------------------------------------------------- types

  /** The declared type of a struct field, as far as field resolution looks at
      it: another struct type, time.Time (a struct kind with only unexported
      fields), or any non-struct type. */
  datatype FieldType = StructT(id: TypeId) | TimeT | NonStructT

  predicate IsStructKind(t: FieldType) {
    t.StructT? || t.TimeT?
  }

  /** One field of a struct type: its name, whether it is exported, whether it
      is embedded, its type, and its tags by key (StructTag.Get). */
  datatype FieldDecl = FieldDecl(name: string, exported: bool, anonymous: bool,
                                 ty: FieldType, tags: map<string, string>)

  /** The struct types of the program, by id, with their fields in
      declaration order. */
  type TypeEnv = map<TypeId, seq<FieldDecl>>

  /** StructTag.Get(key): the tag's value, or "" when the key is absent. */
  function TagGet(tags: map<string, string>, key: string): (r: string)
    ensures key !in tags ==> r == ""
    ensures key in tags ==> r == tags[key]
  {
    if key in tags then tags[key] else ""
  }

  /** v.FieldByIndex(index): walks the index path through nested struct
      values. None stands for the panic Go raises when a step does not reach
      a struct field. */
  function FieldByIndex(v: Value, index: seq<nat>): (r: Option<Value>)
    ensures index == [] ==> r == Some(v)
    ensures index != [] && r.Some? ==> v.StructV? && index[0] < |v.fields|
    ensures index != [] && r.Some? ==> r == FieldByIndex(v.fields[index[0]], index[1..])
    decreases index
  {
    if index == [] then Some(v)
    else match v
      case StructV(_, fs) => if index[0] < |fs| then FieldByIndex(fs[index[0]], index[1..]) else None
      case _ => None
  }

  /** A non-empty index path leads to a value nested strictly inside v. */
  lemma {:induction false} FieldByIndexSmaller(v: Value, index: seq<nat>)
    requires index != [] && FieldByIndex(v, index).Some?
    ensures FieldByIndex(v, index).value < v
    decreases index
  {
    var w := v.fields[index[0]];
    if index[1..] != [] {
      FieldByIndexSmaller(w, index[1..]);
    }
  }

  // ---------------------------------------------------------------- emptiness

  /** isEmptyValue: zero-length arrays, maps, slices and strings, false, zero
      numbers, nil pointers and interfaces. */
  predicate IsEmptyValue(v: Value) {
    match v
    case ArrayV(es) => |es| == 0
    case NilMap => true
    case MapV(_, es) => |es| == 0
    case NilSlice => true
    case SliceV(_, es) => |es| == 0
    case StringV(s) => s == ""
    case BoolV(b) => !b
    case IntV(i) => i == 0
    case UintV(u) => u == 0
    case FloatV(f) => f.Finite? && f.isZero
    case NilIface => true
    case NilPtr => true
    case _ => false
  }

  /** isZeroValue: like IsEmptyValue on booleans, numbers, strings, pointers
      and interfaces, but collections are never zero and a time.Time is zero
      when IsZero() holds. The two predicates disagree exactly on empty
      collections (empty but not zero) and on zero instants (zero but not
      empty). */
  predicate IsZeroValue(v: Value)
    ensures IsZeroValue(v) != IsEmptyValue(v) <==>
              (IsCollection(v) && Len(v) == 0) || (v.TimeV? && v.isZero)
    ensures IsCollection(v) ==> !IsZeroValue(v)
    ensures v.TimeV? ==> !IsEmptyValue(v)
  {
    match v
    case BoolV(b) => !b
    case IntV(i) => i == 0
    case UintV(u) => u == 0
    case FloatV(f) => f.Finite? && f.isZero
    case StringV(s) => s == ""
    case NilIface => true
    case NilPtr => true
    case IfaceV(_) => false
    case PtrV(_) => false
    case TimeV(z, _) => z
    case StructV(_, _) => false
    case ArrayV(_) => false
    case NilMap => false
    case MapV(_, _) => false
    case NilSlice => false
    case SliceV(_, _) => false
    case _ => false
  }
}
