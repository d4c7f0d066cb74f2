/** The library's error taxonomy (errors.go): a closed set of error kinds, the
    `*Error` record with its message format, the constructors that build one
    per kind, and WrapJSONError, which classifies errors that come from the
    standard JSON encoder or from anywhere else. */
module Errors {
  import opened Text

  /** ErrType, in the order of its iota constants. */
  datatype ErrType =
    | Unknown
    | MaxDepthExceeded
    | CircularReference
    | UnsupportedType
    | Reflection
    | CacheOverflow

  /** The library's `*Error`. The `Value` field, which only carries the
      offending Go value for the caller's inspection, is not modelled. */
  datatype Error = Error(kind: ErrType, message: string, path: string, cause: Cause)

  /** The `Cause` field: nil, or some Go error. */
  datatype Cause = NoCause | CausedBy(err: GoError)

  /** A Go `error` value as the library can meet it: one of its own, one of the
      error types of the standard JSON encoder, or any other error. */
  datatype GoError =
    | Ours(e: Error)
      /** *json.UnsupportedTypeError, with the text of its Type. */
    | JsonUnsupportedType(typeName: string)
      /** *json.UnsupportedValueError: its Str text and the %T name of its Value. */
    | JsonUnsupportedValue(str: string, valueType: string)
      /** *json.MarshalerError: the type, the wrapped error and the method name. */
    | JsonMarshaler(typeName: string, inner: GoError, sourceFunc: string)
    | JsonSyntax(msg: string, offset: int)
    | JsonInvalidUnmarshal(text: string)
      /** errors.New(text), or fmt.Errorf without %w. */
    | Plain(text: string)
      /** fmt.Errorf with %w: the formatted text and the wrapped error. */
    | Wrapped(text: string, inner: GoError)

  /** (*Error).Error(): the message, then the path only when there is one,
      then the cause's text only when there is a cause. */
  function ErrorString(e: Error): (s: string)
    decreases e, 1
  {
    var withPath := if e.path != "" then e.message + " at path '" + e.path + "'" else e.message;
    match e.cause
    case NoCause => withPath
    case CausedBy(c) => withPath + ": " + ErrorText(c)
  }

  /** err.Error() for any Go error. */
  function ErrorText(g: GoError): string
    decreases g, 0
  {
    match g
    case Ours(e) => ErrorString(e)
    case JsonUnsupportedType(t) => "json: unsupported type: " + t
    case JsonUnsupportedValue(str, _) => "json: unsupported value: " + str
    case JsonMarshaler(t, inner, src) =>
      "json: error calling " + (if src == "" then "MarshalJSON" else src) + " for type " + t + ": " + ErrorText(inner)
    case JsonSyntax(msg, _) => msg
    case JsonInvalidUnmarshal(text) => text
    case Plain(text) => text
    case Wrapped(text, _) => text
  }

  /** The shape of ErrorString: it begins with the message; the path clause
      appears exactly when the path is not empty; the cause's text ends the
      string exactly when there is a cause. */
  lemma ErrorStringShape(e: Error)
    ensures |ErrorString(e)| >= |e.message| && ErrorString(e)[..|e.message|] == e.message
    ensures e.path != "" ==> ErrorString(e)[|e.message|..|e.message| + |e.path| + 11]
                              == " at path '" + e.path + "'"
    ensures e.path == "" && e.cause.NoCause? ==> ErrorString(e) == e.message
    ensures e.path != "" && e.cause.NoCause? ==> |ErrorString(e)| == |e.message| + |e.path| + 11
    ensures e.cause.CausedBy? ==>
              var s, t := ErrorString(e), ErrorText(e.cause.err);
              |s| >= |t| + 2 && s[|s| - |t| - 2..] == ": " + t
  {
    var m := e.message;
    var withPath := if e.path != "" then m + " at path '" + e.path + "'" else m;
    PathClauseShape(m, e.path);
    match e.cause {
      case NoCause =>
      case CausedBy(c) =>
        var tail := ": " + ErrorText(c);
        assert ErrorString(e) == withPath + tail;
        ConcatShape(withPath, tail);
        if e.path != "" {
          assert (withPath + tail)[|m|..|m| + |e.path| + 11] == withPath[|m|..];
        }
    }
  }

  /** The message followed by the path clause, when there is a path. */
  lemma PathClauseShape(m: string, path: string)
    ensures var w := if path != "" then m + " at path '" + path + "'" else m;
            && |w| >= |m| && w[..|m|] == m
            && (path != "" ==> |w| == |m| + |path| + 11 && w[|m|..] == " at path '" + path + "'")
  {
    if path != "" {
      ConcatShape(m, " at path '" + path + "'");
      assert m + " at path '" + path + "'" == m + (" at path '" + path + "'");
    }
  }

  lemma ConcatShape(a: string, b: string)
    ensures (a + b)[..|a|] == a && (a + b)[|a|..] == b
  {
  }

  /** (*Error).Unwrap(): exactly the cause. */
  function Unwrap(e: Error): (r: Option<GoError>)
    ensures r.None? <==> e.cause.NoCause?
    ensures r.Some? ==> r.value == e.cause.err && r.value < e
  {
    match e.cause
    case NoCause => None
    case CausedBy(c) => Some(c)
  }

  /** errors.As(err, &ourErr): the first `*Error` on err's Unwrap chain. Only
      our own errors, MarshalerError and %w-wrapped errors unwrap. */
  function AsOurs(g: GoError): (r: Option<Error>)
    ensures g.Ours? ==> r == Some(g.e)
    ensures (g.JsonUnsupportedType? || g.JsonUnsupportedValue? || g.JsonSyntax?
             || g.JsonInvalidUnmarshal? || g.Plain?) ==> r.None?
  {
    match g
    case Ours(e) => Some(e)
    case JsonMarshaler(_, inner, _) => AsOurs(inner)
    case Wrapped(_, inner) => AsOurs(inner)
    case _ => None
  }

  /** MaxDepthError: the depth limit is in the message. */
  function MaxDepthError(path: string, maxDepth: int): (r: Error)
    ensures r.kind == MaxDepthExceeded && r.path == path && r.cause == NoCause
    ensures Contains(r.message, "(" + IntToString(maxDepth) + ")")
  {
    var limit := "(" + IntToString(maxDepth) + ")";
    var m := "已超过最大递归深度限制" + limit;
    ContainsSuffix("已超过最大递归深度限制", limit);
    Error(MaxDepthExceeded, m, path, NoCause)
  }

  /** CircularReferenceError, carrying the path of the second visit. */
  function CircularReferenceError(path: string): (r: Error)
    ensures r.kind == CircularReference && r.path == path && r.cause == NoCause
    ensures r.message == "检测到循环引用"
  {
    Error(CircularReference, "检测到循环引用", path, NoCause)
  }

  /** The dynamic argument of UnsupportedTypeError: a reflect.Value (valid or
      not, with its type's name), a string, or anything else (with its %T name). */
  datatype TypeArg =
    | ReflectValue(valid: bool, typeString: string)
    | StringArg(s: string)
    | OtherArg(dynamicType: string)

  /** How UnsupportedTypeError names the type it is given. */
  function TypeText(arg: TypeArg): (t: string)
    ensures arg.ReflectValue? && arg.valid ==> t == arg.typeString
    ensures arg.ReflectValue? && !arg.valid ==> t == "无效值"
    ensures arg.StringArg? ==> t == arg.s
    ensures arg.OtherArg? ==> t == arg.dynamicType
  {
    match arg
    case ReflectValue(valid, ts) => if valid then ts else "无效值"
    case StringArg(s) => s
    case OtherArg(dt) => dt
  }

  function UnsupportedTypeError(path: string, arg: TypeArg): (r: Error)
    ensures r.kind == UnsupportedType && r.path == path && r.cause == NoCause
    ensures var t := TypeText(arg); |r.message| >= |t| && r.message[|r.message| - |t|..] == t
  {
    Error(UnsupportedType, "不支持的类型: " + TypeText(arg), path, NoCause)
  }

  /** ReflectionError wraps the error that caused it. */
  function ReflectionError(path: string, err: GoError): (r: Error)
    ensures r.kind == Reflection && r.path == path && r.cause == CausedBy(err)
    ensures Unwrap(r) == Some(err)
  {
    Error(Reflection, "反射操作错误", path, CausedBy(err))
  }

  /** CacheOverflowError names the cache and its capacity, and has no path. */
  function CacheOverflowError(cacheType: string, maxSize: int): (r: Error)
    ensures r.kind == CacheOverflow && r.path == "" && r.cause == NoCause
    ensures |r.message| >= |cacheType| && r.message[..|cacheType|] == cacheType
    ensures Contains(r.message, "(" + IntToString(maxSize) + ")")
  {
    var limit := "(" + IntToString(maxSize) + ")";
    var m := cacheType + "缓存已达到最大条目数限制" + limit;
    ContainsSuffix(cacheType + "缓存已达到最大条目数限制", limit);
    Error(CacheOverflow, m, "", NoCause)
  }

  const CycleMarker := "encountered a cycle"

  /** WrapJSONError(err, path). None stands for a nil error. An error that is,
      or wraps, one of ours comes back unchanged; every other error is turned
      into one of ours according to its Go type. */
  function WrapJSONError(err: Option<GoError>, path: string): (r: Option<GoError>)
    ensures r.None? <==> err.None?
    ensures err.Some? && AsOurs(err.value).Some? ==> r == err
    ensures r.Some? ==> AsOurs(r.value).Some?
    ensures err.Some? && AsOurs(err.value).None? ==> r.value.Ours? && r.value.e.path == path
    ensures err.Some? && AsOurs(err.value).None? && err.value.JsonUnsupportedType? ==>
              r.value.e.kind == UnsupportedType
    ensures err.Some? && AsOurs(err.value).None? && err.value.JsonUnsupportedValue? ==>
              r.value.e.kind == (if Contains(ErrorText(err.value), CycleMarker)
                                 then CircularReference else UnsupportedType)
    ensures err.Some? && AsOurs(err.value).None? && err.value.JsonMarshaler? ==>
              r.value.e.kind == Reflection && Unwrap(r.value.e) == Some(err.value.inner)
    ensures err.Some? && AsOurs(err.value).None? && (err.value.JsonSyntax? || err.value.JsonInvalidUnmarshal?) ==>
              r.value.e.kind == Reflection && Unwrap(r.value.e) == Some(err.value)
    ensures err.Some? && AsOurs(err.value).None? &&
            !(err.value.JsonUnsupportedType? || err.value.JsonUnsupportedValue? || err.value.JsonMarshaler?
              || err.value.JsonSyntax? || err.value.JsonInvalidUnmarshal?) ==>
              r.value.e == Error(Unknown, ErrorText(err.value), path, CausedBy(err.value))
  {
    match err
    case None => None
    case Some(g) =>
      if AsOurs(g).Some? then err
      else
        match g
        case JsonUnsupportedType(t) => Some(Ours(UnsupportedTypeError(path, StringArg(t))))
        case JsonUnsupportedValue(_, vt) =>
          if Contains(ErrorText(g), CycleMarker) then Some(Ours(CircularReferenceError(path)))
          else Some(Ours(UnsupportedTypeError(path, StringArg(vt))))
        case JsonMarshaler(_, inner, _) => Some(Ours(ReflectionError(path, inner)))
        case JsonSyntax(_, _) => Some(Ours(ReflectionError(path, g)))
        case JsonInvalidUnmarshal(_) => Some(Ours(ReflectionError(path, g)))
        case _ => Some(Ours(Error(Unknown, ErrorText(g), path, CausedBy(g))))
  }

  /** Wrapping is idempotent: the result is always one of ours, which a second
      wrap leaves alone, whatever path it is given. */
  lemma WrapIdempotent(err: Option<GoError>, path: string, path2: string)
    ensures WrapJSONError(WrapJSONError(err, path), path2) == WrapJSONError(err, path)
  {
  }

  /** Kinds set deep in the traversal survive the wrap at the boundary, even
      when another error wraps them with %w. */
  lemma WrapKeepsOurKind(e: Error, text: string, path: string)
    ensures WrapJSONError(Some(Wrapped(text, Ours(e))), path) == Some(Wrapped(text, Ours(e)))
    ensures AsOurs(WrapJSONError(Some(Wrapped(text, Ours(e))), path).value) == Some(e)
  {
  }

  /** A foreign error that is not a JSON error becomes an Unknown error whose
      message is its text and whose cause is the error itself. */
  lemma WrapForeign(text: string, path: string)
    ensures var r := WrapJSONError(Some(Plain(text)), path).value;
            r.Ours? && r.e == Error(Unknown, text, path, CausedBy(Plain(text)))
            && Unwrap(r.e) == Some(Plain(text))
  {
  }

  /** The UnsupportedValueError raised by the encoder for a cyclic value is
      reported as a circular reference, any other as an unsupported type.
      vt is the text the source formats with %T from the error's Value
      field; in Go that field is always a reflect.Value, so the text is
      always "reflect.Value" there, while here it is left free. */
  lemma WrapCycleValue(str: string, vt: string, path: string)
    ensures var r := WrapJSONError(Some(JsonUnsupportedValue(str, vt)), path).value.e;
            r.kind == (if Contains("json: unsupported value: " + str, CycleMarker)
                       then CircularReference else UnsupportedType)
  {
  }

  /** A MarshalerError becomes a Reflection error whose cause is the error the
      marshaler returned, unless that error already is one of ours. */
  lemma WrapMarshaler(t: string, inner: GoError, src: string, path: string)
    requires AsOurs(inner).None?
    ensures WrapJSONError(Some(JsonMarshaler(t, inner, src)), path) == Some(Ours(ReflectionError(path, inner)))
  {
  }
}
