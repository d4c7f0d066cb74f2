/** Field metadata resolution (parseFields, parseJSONTag, parseGroupsTag):
    turns a struct type into the ordered list of field descriptors the
    traversal works from, flattening embedded structs. */
module Fields {
  import opened Text
  import opened Reflect

  /** fieldInfo: the index path from the struct to the field, the Go name
      (prefixed by the embedding fields' names), the output key, the groups,
      the omission flags and whether the field is embedded. */
  datatype FieldInfo = FieldInfo(index: seq<nat>, name: string, jsonName: string, groups: seq<string>,
                                 omitEmpty: bool, omitZero: bool, anonymous: bool)

  datatype JSONTag = JSONTag(name: string, omitEmpty: bool, omitZero: bool)

  /** parseJSONTag: an empty tag keeps the field's name and sets no flag;
      otherwise the piece before the first comma is the name (the field's
      name when that piece is empty) and the flags tell whether the exact
      options "omitempty" and "omitzero" occur among the later pieces. */
  function ParseJSONTag(fieldName: string, jsonTag: string): (r: JSONTag)
    ensures jsonTag == "" ==> r == JSONTag(fieldName, false, false)
    ensures jsonTag != "" ==>
              var parts := Split(jsonTag, ',');
              && r.name == (if parts[0] == "" then fieldName else parts[0])
              && (r.omitEmpty <==> exists k :: 1 <= k < |parts| && parts[k] == "omitempty")
              && (r.omitZero <==> exists k :: 1 <= k < |parts| && parts[k] == "omitzero")
  {
    if jsonTag == "" then JSONTag(fieldName, false, false)
    else
      var parts := Split(jsonTag, ',');
      var name := if parts[0] == "" then fieldName else parts[0];
      JSONTag(name, "omitempty" in parts[1..], "omitzero" in parts[1..])
  }

  /** The json tag a field declares with the given name and flags. */
  function FormatJSONTag(name: string, omitEmpty: bool, omitZero: bool): string {
    name + (if omitEmpty then ",omitempty" else "") + (if omitZero then ",omitzero" else "")
  }

  /** Splitting a piece without separator followed by a separator and the rest. */
  lemma {:induction false} SplitCons(a: string, sep: char, b: string)
    requires forall j :: 0 <= j < |a| ==> a[j] != sep
    ensures Split(a + [sep] + b, sep) == [a] + Split(b, sep)
  {
    var s := a + [sep] + b;
    SplitFromSkips(s, sep, 0, |a|);
    assert s[..|a|] == a;
    assert s[|a| + 1..] == b;
  }

  lemma {:induction false} SplitFromSkips(s: string, sep: char, k: nat, m: nat)
    requires k <= m <= |s|
    requires forall j :: 0 <= j < m ==> s[j] != sep
    ensures SplitFrom(s, sep, k) == SplitFrom(s, sep, m)
    decreases m - k
  {
    if k < m {
      SplitFromSkips(s, sep, k + 1, m);
    }
  }

  lemma SplitNoSep(a: string, sep: char)
    requires forall j :: 0 <= j < |a| ==> a[j] != sep
    ensures Split(a, sep) == [a]
  {
    SplitFromSkips(a, sep, 0, |a|);
  }

  /** parseJSONTag reads back what FormatJSONTag writes, for any name that is
      not empty and contains no comma. */
  lemma JSONTagRoundTrip(fieldName: string, name: string, omitEmpty: bool, omitZero: bool)
    requires name != "" && forall j :: 0 <= j < |name| ==> name[j] != ','
    ensures ParseJSONTag(fieldName, FormatJSONTag(name, omitEmpty, omitZero)) == JSONTag(name, omitEmpty, omitZero)
  {
    var tag := FormatJSONTag(name, omitEmpty, omitZero);
    var options := (if omitEmpty then ["omitempty"] else []) + (if omitZero then ["omitzero"] else []);
    FormatJSONTagSplit(name, omitEmpty, omitZero);
    assert Split(tag, ',')[1..] == options;
    assert "omitempty" in options <==> omitEmpty;
    assert "omitzero" in options <==> omitZero;
  }

  /** The pieces of a formatted tag: the name, then the options it sets. */
  lemma FormatJSONTagSplit(name: string, omitEmpty: bool, omitZero: bool)
    requires forall j :: 0 <= j < |name| ==> name[j] != ','
    ensures Split(FormatJSONTag(name, omitEmpty, omitZero), ',')
              == [name] + (if omitEmpty then ["omitempty"] else []) + (if omitZero then ["omitzero"] else [])
  {
    var tag := FormatJSONTag(name, omitEmpty, omitZero);
    var e, z := "omitempty", "omitzero";
    SplitNoSep(e, ',');
    SplitNoSep(z, ',');
    if omitEmpty && omitZero {
      assert tag == name + [','] + (e + [','] + z);
      SplitCons(e, ',', z);
      SplitCons(name, ',', e + [','] + z);
    } else if omitEmpty {
      assert tag == name + [','] + e;
      SplitCons(name, ',', e);
    } else if omitZero {
      assert tag == name + [','] + z;
      SplitCons(name, ',', z);
    } else {
      assert tag == name;
      SplitNoSep(name, ',');
    }
  }

  /** The trimmed, non-empty pieces, in order: the loop of parseGroupsTag. */
  function TrimmedNonEmpty(parts: seq<string>): (r: seq<string>)
    ensures |r| <= |parts|
    ensures forall g :: g in r ==> g != "" && Trimmed(g)
  {
    if parts == [] then []
    else
      var g := TrimSpace(parts[0]);
      (if g != "" then [g] else []) + TrimmedNonEmpty(parts[1..])
  }

  /** parseGroupsTag: "" gives no groups; otherwise the comma-separated
      pieces, trimmed, with the empty ones dropped, in their original order.
      No group is empty or padded with white space. */
  function ParseGroupsTag(tag: string): (r: seq<string>)
    ensures tag == "" ==> r == []
    ensures tag != "" ==> r == TrimmedNonEmpty(Split(tag, ','))
    ensures forall g :: g in r ==> g != "" && Trimmed(g)
  {
    if tag == "" then [] else TrimmedNonEmpty(Split(tag, ','))
  }

  /** A group name as it can be written in a groups tag and read back intact. */
  predicate PlainGroup(g: string) {
    g != "" && Trimmed(g) && forall j :: 0 <= j < |g| ==> g[j] != ','
  }

  lemma TrimPlain(g: string)
    requires PlainGroup(g)
    ensures TrimSpace(g) == g
  {
  }

  lemma {:induction false} SplitJoin(gs: seq<string>)
    requires |gs| > 0 && forall k :: 0 <= k < |gs| ==> PlainGroup(gs[k])
    ensures Split(Join(gs, ','), ',') == gs
  {
    if |gs| == 1 {
      SplitNoSep(gs[0], ',');
    } else {
      SplitJoin(gs[1..]);
      SplitCons(gs[0], ',', Join(gs[1..], ','));
      assert [gs[0]] + gs[1..] == gs;
    }
  }

  lemma {:induction false} TrimmedPlain(gs: seq<string>)
    requires forall k :: 0 <= k < |gs| ==> PlainGroup(gs[k])
    ensures TrimmedNonEmpty(gs) == gs
  {
    if gs != [] {
      TrimPlain(gs[0]);
      TrimmedPlain(gs[1..]);
      assert [gs[0]] + gs[1..] == gs;
    }
  }

  /** parseGroupsTag reads back a list of plain group names joined by commas. */
  lemma GroupsTagRoundTrip(gs: seq<string>)
    requires |gs| > 0 && forall k :: 0 <= k < |gs| ==> PlainGroup(gs[k])
    ensures ParseGroupsTag(Join(gs, ',')) == gs
  {
    SplitJoin(gs);
    TrimmedPlain(gs);
    assert gs[0] != "";
    JoinNotEmpty(gs);
  }

  lemma JoinNotEmpty(gs: seq<string>)
    requires |gs| > 0 && gs[0] != ""
    ensures Join(gs, ',') != ""
  {
    if |gs| > 1 {
      assert Join(gs, ',')[0] == gs[0][0];
    }
  }

  // ------------------------------------------------------------ parseFields

  /** parseFields: the descriptors of struct type `id`, in declaration order.
      Unexported fields and fields whose json name is "-" are skipped; an
      embedded struct field is replaced by its own type's descriptors. A
      nested type is resolved in the environment without the types being
      resolved around it, which changes nothing for Go types (no struct
      embeds itself by value) and makes the recursion well founded. */
  function ParseFields(env: TypeEnv, id: TypeId, tagKey: string): seq<FieldInfo>
    decreases env.Keys, 1, 0
  {
    if id !in env then [] else ParseFrom(env, id, tagKey, 0)
  }

  /** The descriptors of the fields of `id` from position i on. */
  function ParseFrom(env: TypeEnv, id: TypeId, tagKey: string, i: nat): seq<FieldInfo>
    requires id in env && i <= |env[id]|
    decreases env.Keys, 0, |env[id]| - i
  {
    if i == |env[id]| then []
    else
      var d := env[id][i];
      var tag := ParseJSONTag(d.name, TagGet(d.tags, "json"));
      if !d.exported || tag.name == "-" then ParseFrom(env, id, tagKey, i + 1)
      else if d.anonymous && IsStructKind(d.ty) then
        var nested := if d.ty.StructT? then ParseFields(env - {id}, d.ty.id, tagKey) else [];
        Prefixed(i, d.name, nested) + ParseFrom(env, id, tagKey, i + 1)
      else
        [FieldInfo([i], d.name, tag.name, ParseGroupsTag(TagGet(d.tags, tagKey)),
                   tag.omitEmpty, tag.omitZero, d.anonymous)]
        + ParseFrom(env, id, tagKey, i + 1)
  }

  /** parseFields on any declared type: a struct type's descriptors, none for
      time.Time (its fields are all unexported), and nil for a type that is
      not a struct. */
  function FieldsOf(env: TypeEnv, t: FieldType, tagKey: string): (r: seq<FieldInfo>)
    ensures t.StructT? ==> r == ParseFields(env, t.id, tagKey)
    ensures !t.StructT? ==> r == []
  {
    match t
    case StructT(id) => ParseFields(env, id, tagKey)
    case _ => []
  }

  /** The entries of an embedded struct, as the embedding struct lists them:
      index paths start with the embedding field's position and names with
      its name; everything else is unchanged. */
  function Prefixed(i: nat, outer: string, nested: seq<FieldInfo>): (r: seq<FieldInfo>)
    ensures |r| == |nested|
    ensures forall k :: 0 <= k < |r| ==>
              r[k] == nested[k].(index := [i] + nested[k].index, name := outer + "." + nested[k].name)
  {
    seq(|nested|, k requires 0 <= k < |nested| =>
      nested[k].(index := [i] + nested[k].index, name := outer + "." + nested[k].name))
  }

  /** The declared field an index path leads to, stepping through struct
      types. */
  function FieldAt(env: TypeEnv, id: TypeId, index: seq<nat>): Option<FieldDecl>
    decreases |index|
  {
    if index == [] || id !in env || index[0] >= |env[id]| then None
    else
      var d := env[id][index[0]];
      if |index| == 1 then Some(d)
      else if d.ty.StructT? then FieldAt(env, d.ty.id, index[1..])
      else None
  }

  /** The names along an index path joined by dots. */
  function PathName(env: TypeEnv, id: TypeId, index: seq<nat>): string
    decreases |index|
  {
    if index == [] || id !in env || index[0] >= |env[id]| then ""
    else
      var d := env[id][index[0]];
      if |index| == 1 || !d.ty.StructT? then d.name
      else d.name + "." + PathName(env, d.ty.id, index[1..])
  }

  /** Every step of the path but the last goes through an exported, embedded
      struct field whose json name is not "-". */
  predicate EmbeddedPath(env: TypeEnv, id: TypeId, index: seq<nat>)
    decreases |index|
  {
    index != [] && id in env && index[0] < |env[id]| &&
    (|index| > 1 ==>
      var d := env[id][index[0]];
      d.exported && d.anonymous && d.ty.StructT?
      && ParseJSONTag(d.name, TagGet(d.tags, "json")).name != "-"
      && EmbeddedPath(env, d.ty.id, index[1..]))
  }

  /** Descriptor e reports, faithfully, a real field of struct type `id`: its
      path reaches an exported field through embedded structs only, the
      field's tags give e's key, flags and groups, and the field is not
      itself an embedded struct (those are always flattened). */
  predicate Describes(env: TypeEnv, id: TypeId, tagKey: string, e: FieldInfo) {
    var d := FieldAt(env, id, e.index);
    && EmbeddedPath(env, id, e.index)
    && d.Some? && d.value.exported
    && var tag := ParseJSONTag(d.value.name, TagGet(d.value.tags, "json"));
    && tag.name != "-"
    && e.jsonName == tag.name && e.omitEmpty == tag.omitEmpty && e.omitZero == tag.omitZero
    && e.groups == ParseGroupsTag(TagGet(d.value.tags, tagKey))
    && e.anonymous == d.value.anonymous
    && !(d.value.anonymous && IsStructKind(d.value.ty))
    && e.name == PathName(env, id, e.index)
  }

  predicate SubEnv(small: TypeEnv, big: TypeEnv) {
    forall t :: t in small ==> t in big && small[t] == big[t]
  }

  lemma {:induction false} DescribesInBigger(small: TypeEnv, big: TypeEnv, id: TypeId, tagKey: string, e: FieldInfo)
    requires SubEnv(small, big)
    requires Describes(small, id, tagKey, e)
    ensures Describes(big, id, tagKey, e)
  {
    PathInBigger(small, big, id, e.index);
  }

  lemma {:induction false} PathInBigger(small: TypeEnv, big: TypeEnv, id: TypeId, index: seq<nat>)
    requires SubEnv(small, big)
    requires EmbeddedPath(small, id, index)
    ensures EmbeddedPath(big, id, index)
    ensures FieldAt(big, id, index) == FieldAt(small, id, index)
    ensures PathName(big, id, index) == PathName(small, id, index)
    decreases |index|
  {
    if |index| > 1 {
      PathInBigger(small, big, small[id][index[0]].ty.id, index[1..]);
    }
  }

  /** Every descriptor parseFields produces describes a real, non-embedded-
      struct field of the type. In particular no descriptor is both
      anonymous and of struct kind, so the traversal's branch for embedded
      struct values is never taken. */
  lemma {:induction false} ParseFieldsSound(env: TypeEnv, id: TypeId, tagKey: string)
    ensures forall e :: e in ParseFields(env, id, tagKey) ==> Describes(env, id, tagKey, e)
    decreases env.Keys, 1, 0
  {
    if id in env {
      ParseFromSound(env, id, tagKey, 0);
    }
  }

  lemma {:induction false} ParseFromSound(env: TypeEnv, id: TypeId, tagKey: string, i: nat)
    requires id in env && i <= |env[id]|
    ensures forall e :: e in ParseFrom(env, id, tagKey, i) ==>
              Describes(env, id, tagKey, e) && e.index[0] >= i
    decreases env.Keys, 0, |env[id]| - i, 1
  {
    if i < |env[id]| {
      ParseFromSound(env, id, tagKey, i + 1);
      var d := env[id][i];
      var tag := ParseJSONTag(d.name, TagGet(d.tags, "json"));
      var rest := ParseFrom(env, id, tagKey, i + 1);
      if !d.exported || tag.name == "-" {
      } else if d.anonymous && IsStructKind(d.ty) {
        var nested := if d.ty.StructT? then ParseFields(env - {id}, d.ty.id, tagKey) else [];
        EmbeddedFieldSound(env, id, tagKey, i);
        assert ParseFrom(env, id, tagKey, i) == Prefixed(i, d.name, nested) + rest;
        ConcatSound(env, id, tagKey, i, Prefixed(i, d.name, nested), rest);
      } else {
        var e := FieldInfo([i], d.name, tag.name, ParseGroupsTag(TagGet(d.tags, tagKey)),
                           tag.omitEmpty, tag.omitZero, d.anonymous);
        DirectFieldSound(env, id, tagKey, i);
        assert ParseFrom(env, id, tagKey, i) == [e] + rest;
        ConcatSound(env, id, tagKey, i, [e], rest);
      }
    }
  }

  lemma ConcatSound(env: TypeEnv, id: TypeId, tagKey: string, i: nat, head: seq<FieldInfo>, rest: seq<FieldInfo>)
    requires forall e :: e in head ==> Describes(env, id, tagKey, e) && e.index[0] >= i
    requires forall e :: e in rest ==> Describes(env, id, tagKey, e) && e.index[0] >= i + 1
    ensures forall e :: e in head + rest ==> Describes(env, id, tagKey, e) && e.index[0] >= i
  {
  }

  /** The entries an embedded struct field contributes describe fields of
      the embedding struct, at its position. */
  lemma {:induction false} EmbeddedFieldSound(env: TypeEnv, id: TypeId, tagKey: string, i: nat)
    requires id in env && i < |env[id]|
    requires var d := env[id][i];
             d.exported && ParseJSONTag(d.name, TagGet(d.tags, "json")).name != "-"
             && d.anonymous && IsStructKind(d.ty)
    ensures var d := env[id][i];
            var nested := if d.ty.StructT? then ParseFields(env - {id}, d.ty.id, tagKey) else [];
            forall e :: e in Prefixed(i, d.name, nested) ==> Describes(env, id, tagKey, e) && e.index[0] == i
    decreases env.Keys, 0, |env[id]| - i, 0
  {
    var d := env[id][i];
    if d.ty.StructT? {
      var small := env - {id};
      ParseFieldsSound(small, d.ty.id, tagKey);
      PrefixedSound(env, id, tagKey, i, ParseFields(small, d.ty.id, tagKey));
    }
  }

  /** The entry of a field declared directly in the struct describes it. */
  lemma DirectFieldSound(env: TypeEnv, id: TypeId, tagKey: string, i: nat)
    requires id in env && i < |env[id]|
    requires var d := env[id][i];
             d.exported && ParseJSONTag(d.name, TagGet(d.tags, "json")).name != "-"
             && !(d.anonymous && IsStructKind(d.ty))
    ensures var d := env[id][i];
            var tag := ParseJSONTag(d.name, TagGet(d.tags, "json"));
            Describes(env, id, tagKey, FieldInfo([i], d.name, tag.name, ParseGroupsTag(TagGet(d.tags, tagKey)),
                                                 tag.omitEmpty, tag.omitZero, d.anonymous))
  {
  }

  /** The entries of an embedded struct, prefixed, describe fields of the
      embedding struct. */
  lemma PrefixedSound(env: TypeEnv, id: TypeId, tagKey: string, i: nat, nested: seq<FieldInfo>)
    requires id in env && i < |env[id]|
    requires var d := env[id][i];
             d.exported && d.anonymous && d.ty.StructT?
             && ParseJSONTag(d.name, TagGet(d.tags, "json")).name != "-"
    requires forall ne :: ne in nested ==> Describes(env - {id}, env[id][i].ty.id, tagKey, ne)
    ensures forall e :: e in Prefixed(i, env[id][i].name, nested) ==>
              Describes(env, id, tagKey, e) && e.index[0] == i
  {
    var d := env[id][i];
    var pre := Prefixed(i, d.name, nested);
    forall k | 0 <= k < |pre|
      ensures Describes(env, id, tagKey, pre[k]) && pre[k].index[0] == i
    {
      PrefixedOneSound(env, id, tagKey, i, nested[k]);
    }
  }

  lemma PrefixedOneSound(env: TypeEnv, id: TypeId, tagKey: string, i: nat, ne: FieldInfo)
    requires id in env && i < |env[id]|
    requires var d := env[id][i];
             d.exported && d.anonymous && d.ty.StructT?
             && ParseJSONTag(d.name, TagGet(d.tags, "json")).name != "-"
    requires Describes(env - {id}, env[id][i].ty.id, tagKey, ne)
    ensures var e := ne.(index := [i] + ne.index, name := env[id][i].name + "." + ne.name);
            Describes(env, id, tagKey, e) && e.index[0] == i
  {
    var d := env[id][i];
    var e := ne.(index := [i] + ne.index, name := d.name + "." + ne.name);
    DescribesInBigger(env - {id}, env, d.ty.id, tagKey, ne);
    assert e.index[1..] == ne.index;
  }

  /** Every ordinary field (exported, json name not "-", not an embedded
      struct) yields an entry with index [i], carrying the field's own name
      and tag data. */
  lemma {:induction false} ParseFieldsComplete(env: TypeEnv, id: TypeId, tagKey: string, i: nat)
    requires id in env && i < |env[id]|
    requires var d := env[id][i];
             d.exported && ParseJSONTag(d.name, TagGet(d.tags, "json")).name != "-"
             && !(d.anonymous && IsStructKind(d.ty))
    ensures exists e :: e in ParseFields(env, id, tagKey) && e.index == [i] && e.name == env[id][i].name
  {
    ParseFromComplete(env, id, tagKey, 0, i);
  }

  lemma {:induction false} ParseFromComplete(env: TypeEnv, id: TypeId, tagKey: string, j: nat, i: nat)
    requires id in env && j <= i < |env[id]|
    requires var d := env[id][i];
             d.exported && ParseJSONTag(d.name, TagGet(d.tags, "json")).name != "-"
             && !(d.anonymous && IsStructKind(d.ty))
    ensures exists e :: e in ParseFrom(env, id, tagKey, j) && e.index == [i] && e.name == env[id][i].name
    decreases i - j
  {
    var d := env[id][j];
    var tag := ParseJSONTag(d.name, TagGet(d.tags, "json"));
    var rest := ParseFrom(env, id, tagKey, j + 1);
    if j < i {
      ParseFromComplete(env, id, tagKey, j + 1, i);
      var e :| e in rest && e.index == [i] && e.name == env[id][i].name;
      if !d.exported || tag.name == "-" {
      } else if d.anonymous && IsStructKind(d.ty) {
        var nested := if d.ty.StructT? then ParseFields(env - {id}, d.ty.id, tagKey) else [];
        assert ParseFrom(env, id, tagKey, j) == Prefixed(j, d.name, nested) + rest;
      } else {
        assert ParseFrom(env, id, tagKey, j)[1..] == rest;
      }
    } else {
      assert ParseFrom(env, id, tagKey, j)[0].index == [i];
    }
  }

  /** Lexicographic order on index paths. */
  predicate LexLess(x: seq<nat>, y: seq<nat>)
    decreases |x|
  {
    x != [] && y != [] && (x[0] < y[0] || (x[0] == y[0] && LexLess(x[1..], y[1..])))
  }

  predicate SortedByIndex(fs: seq<FieldInfo>) {
    forall a, b :: 0 <= a < b < |fs| ==> LexLess(fs[a].index, fs[b].index)
  }

  /** parseFields lists the fields in declaration order, flattened fields in
      place of the embedding field, and never lists a field twice. */
  lemma {:induction false} ParseFieldsOrdered(env: TypeEnv, id: TypeId, tagKey: string)
    ensures SortedByIndex(ParseFields(env, id, tagKey))
    ensures forall e :: e in ParseFields(env, id, tagKey) ==> e.index != []
    decreases env.Keys, 1, 0
  {
    if id in env {
      ParseFromOrdered(env, id, tagKey, 0);
    }
  }

  lemma {:induction false} ParseFromOrdered(env: TypeEnv, id: TypeId, tagKey: string, i: nat)
    requires id in env && i <= |env[id]|
    ensures var r := ParseFrom(env, id, tagKey, i);
            SortedByIndex(r) && forall e :: e in r ==> e.index != [] && e.index[0] >= i
    decreases env.Keys, 0, |env[id]| - i
  {
    if i < |env[id]| {
      ParseFromOrdered(env, id, tagKey, i + 1);
      var d := env[id][i];
      var tag := ParseJSONTag(d.name, TagGet(d.tags, "json"));
      var rest := ParseFrom(env, id, tagKey, i + 1);
      if !d.exported || tag.name == "-" {
      } else {
        var head: seq<FieldInfo>;
        if d.anonymous && IsStructKind(d.ty) {
          var nested := if d.ty.StructT? then ParseFields(env - {id}, d.ty.id, tagKey) else [];
          if d.ty.StructT? {
            ParseFieldsOrdered(env - {id}, d.ty.id, tagKey);
          }
          head := Prefixed(i, d.name, nested);
          PrefixedSorted(i, d.name, nested);
        } else {
          head := [FieldInfo([i], d.name, tag.name, ParseGroupsTag(TagGet(d.tags, tagKey)),
                             tag.omitEmpty, tag.omitZero, d.anonymous)];
        }
        assert ParseFrom(env, id, tagKey, i) == head + rest;
        ConcatSorted(head, rest, i);
      }
    }
  }

  lemma PrefixedSorted(i: nat, outer: string, nested: seq<FieldInfo>)
    requires SortedByIndex(nested) && forall e :: e in nested ==> e.index != []
    ensures var r := Prefixed(i, outer, nested);
            SortedByIndex(r) && forall e :: e in r ==> e.index != [] && e.index[0] == i
  {
    var r := Prefixed(i, outer, nested);
    forall a, b | 0 <= a < b < |r|
      ensures LexLess(r[a].index, r[b].index)
    {
      assert r[a].index[1..] == nested[a].index;
      assert r[b].index[1..] == nested[b].index;
    }
  }

  lemma ConcatSorted(head: seq<FieldInfo>, rest: seq<FieldInfo>, i: nat)
    requires SortedByIndex(head) && forall e :: e in head ==> e.index != [] && e.index[0] == i
    requires SortedByIndex(rest) && forall e :: e in rest ==> e.index != [] && e.index[0] >= i + 1
    ensures SortedByIndex(head + rest) && forall e :: e in head + rest ==> e.index != [] && e.index[0] >= i
  {
    var r := head + rest;
    forall a, b | 0 <= a < b < |r|
      ensures LexLess(r[a].index, r[b].index)
    {
      if b < |head| {
        assert r[a] == head[a] && r[b] == head[b];
      } else if a >= |head| {
        assert r[a] == rest[a - |head|] && r[b] == rest[b - |head|];
      } else {
        assert r[a] in head && r[b] in rest;
      }
    }
  }

  // ------------------------------------------------------------ typed values

  /** v is a value of declared type t: a struct value carries the type's id
      and one conforming value per declared field, a time.Time field holds a
      time.Time, and a field of any other type holds a value of a kind other
      than struct. This is what Go's type system guarantees of the values
      reflect hands to the serializer. */
  predicate Conforms(env: TypeEnv, t: FieldType, v: Value)
    decreases v
  {
    match t
    case StructT(id) =>
      && v.StructV? && v.typeId == id && id in env && |v.fields| == |env[id]|
      && forall k :: 0 <= k < |v.fields| ==> Conforms(env, env[id][k].ty, v.fields[k])
    case TimeT => v.TimeV?
    case NonStructT => KindOf(v) != Struct
  }

  /** Following a path of embedded struct fields through a conforming value
      reaches a value of the declared type of the field the path leads to. */
  lemma {:induction false} PathConforms(env: TypeEnv, id: TypeId, v: Value, index: seq<nat>)
    requires Conforms(env, StructT(id), v) && EmbeddedPath(env, id, index)
    ensures FieldAt(env, id, index).Some? && FieldByIndex(v, index).Some?
    ensures Conforms(env, FieldAt(env, id, index).value.ty, FieldByIndex(v, index).value)
    decreases |index|
  {
    var w := v.fields[index[0]];
    assert FieldByIndex(v, index) == FieldByIndex(w, index[1..]);
    if |index| > 1 {
      PathConforms(env, env[id][index[0]].ty.id, w, index[1..]);
    }
  }

  /** On a conforming value, no descriptor parseFields produces leads to an
      embedded struct value: an anonymous descriptor always stands for a
      field of non-struct type (an embedded pointer, say). */
  lemma ParsedFieldsAvoidStructs(env: TypeEnv, id: TypeId, tagKey: string, v: Value)
    requires Conforms(env, StructT(id), v)
    ensures forall e :: e in ParseFields(env, id, tagKey) && e.anonymous ==>
              FieldByIndex(v, e.index).Some? && KindOf(FieldByIndex(v, e.index).value) != Struct
  {
    ParseFieldsSound(env, id, tagKey);
    forall e | e in ParseFields(env, id, tagKey) && e.anonymous
      ensures FieldByIndex(v, e.index).Some? && KindOf(FieldByIndex(v, e.index).value) != Struct
    {
      PathConforms(env, id, v, e.index);
    }
  }
}
