/** Schema introspection: the flattening of a registered record's Go type into the
    ordered list of leaf field descriptors (`structInfo`) that the binding and the
    query builder work from (main.go:206-248), and the `TableFieldsResp` that pairs
    those leaves with the storage engine's special columns. */
module Schema {
  import opened Common

  /** The part of a reflected Go type the flattening looks at. `time.Time` is a struct
      and `time.Duration` an int64 in Go; they get constructors of their own because
      the flattening tests for them first and keeps them whole. Any other type that
      is neither a pointer nor a struct is `Basic`, named by its `reflect.Type.String()`. */
  datatype GoType =
    | Basic(name: string)
    | TimeType
    | DurationType
    | Ptr(elem: GoType)
    | Struct(name: string, fields: seq<Field>)

  /** A struct field: its name, its type and its struct tag (key to value). */
  datatype Field = Field(name: string, typ: GoType, tags: map<string, string>)

  /** structInfo: one leaf column of a flattened record. */
  datatype StructInfo = StructInfo(
    name: string,
    types: string,
    mapName: string,
    xormTags: string,
    validateTags: string,
    commentTags: string,
    attrTags: string)

  /** TableFieldsResp: the leaves plus the special columns named by the storage
      engine's table metadata (created columns are the keys of a map there). */
  datatype TableFieldsResp = TableFieldsResp(
    fields: seq<StructInfo>,
    autoIncrement: string,
    version: string,
    deleted: string,
    created: set<string>,
    updated: string)

  const EmptyFields: TableFieldsResp := TableFieldsResp([], "", "", "", {}, "")

  /** reflect.Type.String() */
  function TypeString(t: GoType): string {
    match t
    case Basic(n) => n
    case TimeType => "time.Time"
    case DurationType => "time.Duration"
    case Ptr(e) => "*" + TypeString(e)
    case Struct(n, _) => n
  }

  /** reflect.StructTag.Get: the empty string for a missing key. */
  function TagGet(tags: map<string, string>, key: string): string {
    if key in tags then tags[key] else ""
  }

  /** The descriptor recorded for a field kept whole; its column name is the engine's
      column mapper applied to the field name. */
  function Leaf(f: Field, mapper: string -> string): StructInfo {
    StructInfo(f.name, TypeString(f.typ), mapper(f.name),
      TagGet(f.tags, "xorm"), TagGet(f.tags, "validate"), TagGet(f.tags, "comment"), TagGet(f.tags, "attr"))
  }

  /** A field is expanded in place when its kind is struct and it is not time.Time. */
  predicate Expands(f: Field) {
    f.typ.Struct?
  }

  /** The leaves contributed by owner.fields[i..], in declaration order. */
  function FlattenFrom(owner: GoType, i: nat, mapper: string -> string): seq<StructInfo>
    requires owner.Struct? && i <= |owner.fields|
    decreases owner, |owner.fields| - i
  {
    if i == |owner.fields| then []
    else
      var f := owner.fields[i];
      assert f in owner.fields;
      // time.Time and time.Duration are not Struct here, so they stay leaves
      (if Expands(f) then FlattenFrom(f.typ, 0, mapper) else [Leaf(f, mapper)])
      + FlattenFrom(owner, i + 1, mapper)
  }

  lemma FlattenFromStep(owner: GoType, i: nat, mapper: string -> string)
    requires owner.Struct? && i < |owner.fields|
    ensures var f := owner.fields[i];
      FlattenFrom(owner, i, mapper)
      == (if f.typ.Struct? then FlattenFrom(f.typ, 0, mapper) else [Leaf(f, mapper)]) + FlattenFrom(owner, i + 1, mapper)
  {
  }

  /** A pointer is dereferenced once; anything that is then not a struct has no leaves. */
  function Deref(t: GoType): GoType {
    if t.Ptr? then t.elem else t
  }

  function Flatten(t: GoType, mapper: string -> string): seq<StructInfo> {
    var r := Deref(t);
    if r.Struct? then FlattenFrom(r, 0, mapper) else []
  }

  /** tableNameGetNestedStructMaps (main.go:206-248): walks the fields in order,
      appending a leaf for time.Time, time.Duration and every non-struct field, and
      the recursively flattened fields of a struct field in its place. */
  method GetNestedStructMaps(t: GoType, mapper: string -> string) returns (result: seq<StructInfo>)
    ensures result == Flatten(t, mapper)
    decreases t, 1
  {
    var r := t;
    if r.Ptr? {
      r := r.elem;
    }
    if !r.Struct? {
      return [];
    }
    result := StructFields(r, mapper);
  }

  /** The loop over the fields of a struct type. */
  method StructFields(r: GoType, mapper: string -> string) returns (result: seq<StructInfo>)
    requires r.Struct?
    ensures result == FlattenFrom(r, 0, mapper)
    decreases r, 0
  {
    result := [];
    var i := 0;
    while i < |r.fields|
      invariant 0 <= i <= |r.fields|
      invariant result + FlattenFrom(r, i, mapper) == FlattenFrom(r, 0, mapper)
    {
      assert r.fields[i] in r.fields;
      var piece := FieldLeaves(r.fields[i], mapper);
      FlattenFromStep(r, i, mapper);
      Assoc(result, piece, FlattenFrom(r, i + 1, mapper));
      result := result + piece;
      i := i + 1;
    }
  }

  /** The leaves one field contributes: time.Time and time.Duration are tested first
      in the source; here neither is a Struct, so they take the leaf branch. */
  method FieldLeaves(field: Field, mapper: string -> string) returns (piece: seq<StructInfo>)
    ensures piece == if field.typ.Struct? then FlattenFrom(field.typ, 0, mapper) else [Leaf(field, mapper)]
    decreases field.typ, 2
  {
    if field.typ.Struct? {
      piece := GetNestedStructMaps(field.typ, mapper);
    } else {
      piece := [Leaf(field, mapper)];
    }
  }

  // ---------------------------------------------------------------- properties

  /** Every leaf's column name is the mapper applied to its field name. */
  lemma {:induction false} FlattenFromMapNames(owner: GoType, i: nat, mapper: string -> string)
    requires owner.Struct? && i <= |owner.fields|
    ensures forall d | d in FlattenFrom(owner, i, mapper) :: d.mapName == mapper(d.name)
    decreases owner, |owner.fields| - i
  {
    if i < |owner.fields| {
      var f := owner.fields[i];
      assert f in owner.fields;
      if Expands(f) {
        FlattenFromMapNames(f.typ, 0, mapper);
      }
      FlattenFromMapNames(owner, i + 1, mapper);
    }
  }

  lemma FlattenMapNames(t: GoType, mapper: string -> string)
    ensures forall d | d in Flatten(t, mapper) :: d.mapName == mapper(d.name)
  {
    if Deref(t).Struct? {
      FlattenFromMapNames(Deref(t), 0, mapper);
    }
  }

  /** The leaves of a suffix depend only on the fields in it. */
  lemma {:induction false} FlattenFromSame(a: GoType, i: nat, b: GoType, j: nat, mapper: string -> string)
    requires a.Struct? && b.Struct? && i <= |a.fields| && j <= |b.fields|
    requires a.fields[i..] == b.fields[j..]
    ensures FlattenFrom(a, i, mapper) == FlattenFrom(b, j, mapper)
    decreases |a.fields| - i
  {
    if i < |a.fields| {
      assert a.fields[i] == a.fields[i..][0] == b.fields[j];
      assert a.fields[i + 1..] == a.fields[i..][1..];
      assert b.fields[j + 1..] == b.fields[j..][1..];
      FlattenFromSame(a, i + 1, b, j + 1, mapper);
    }
  }

  lemma {:induction false} FlattenFromAppend(n: string, xs: seq<Field>, ys: seq<Field>, i: nat, mapper: string -> string)
    requires i <= |xs|
    ensures FlattenFrom(Struct(n, xs + ys), i, mapper)
         == FlattenFrom(Struct(n, xs), i, mapper) + FlattenFrom(Struct(n, ys), 0, mapper)
    decreases |xs| - i
  {
    if i == |xs| {
      assert (xs + ys)[i..] == ys[0..];
      FlattenFromSame(Struct(n, xs + ys), i, Struct(n, ys), 0, mapper);
    } else {
      assert (xs + ys)[i] == xs[i];
      FlattenFromAppend(n, xs, ys, i + 1, mapper);
    }
  }

  /** Declaration order: the leaves of two field lists declared one after the other
      are the leaves of the first followed by the leaves of the second. */
  lemma FlattenAppend(n: string, xs: seq<Field>, ys: seq<Field>, mapper: string -> string)
    ensures Flatten(Struct(n, xs + ys), mapper) == Flatten(Struct(n, xs), mapper) + Flatten(Struct(n, ys), mapper)
  {
    FlattenFromAppend(n, xs, ys, 0, mapper);
  }

  /** A nested struct field is replaced, in place, by its own flattened fields,
      while time.Time and time.Duration fields stay single leaves. */
  lemma FlattenInPlace(n: string, pre: seq<Field>, f: Field, post: seq<Field>, mapper: string -> string)
    ensures f.typ.Struct? ==>
      Flatten(Struct(n, pre + [f] + post), mapper)
      == Flatten(Struct(n, pre), mapper) + Flatten(f.typ, mapper) + Flatten(Struct(n, post), mapper)
    ensures (f.typ.TimeType? || f.typ.DurationType?) ==>
      Flatten(Struct(n, pre + [f] + post), mapper)
      == Flatten(Struct(n, pre), mapper) + [Leaf(f, mapper)] + Flatten(Struct(n, post), mapper)
  {
    FlattenAppend(n, pre + [f], post, mapper);
    FlattenAppend(n, pre, [f], mapper);
    var single := Struct(n, [f]);
    assert single.fields[0] == f;
    assert FlattenFrom(single, 1, mapper) == [];
  }

  /** One leaf per field, in declaration order. */
  function Leaves(fs: seq<Field>, mapper: string -> string): (r: seq<StructInfo>)
    ensures |r| == |fs|
    ensures forall k | 0 <= k < |fs| :: r[k] == Leaf(fs[k], mapper)
  {
    if fs == [] then [] else [Leaf(fs[0], mapper)] + Leaves(fs[1..], mapper)
  }

  lemma {:induction false} FlattenFromFlat(owner: GoType, i: nat, mapper: string -> string)
    requires owner.Struct? && i <= |owner.fields|
    requires forall k | i <= k < |owner.fields| :: !Expands(owner.fields[k])
    ensures FlattenFrom(owner, i, mapper) == Leaves(owner.fields[i..], mapper)
    decreases |owner.fields| - i
  {
    if i < |owner.fields| {
      FlattenFromFlat(owner, i + 1, mapper);
      FlattenFromStep(owner, i, mapper);
      assert owner.fields[i..][1..] == owner.fields[i + 1..];
    } else {
      assert owner.fields[i..] == [];
    }
  }

  /** A record with no struct-kind fields flattens to exactly one leaf per field, in
      declaration order. */
  lemma FlattenFlat(t: GoType, mapper: string -> string)
    requires t.Struct?
    requires forall k | 0 <= k < |t.fields| :: !Expands(t.fields[k])
    ensures Flatten(t, mapper) == Leaves(t.fields, mapper)
  {
    FlattenFromFlat(t, 0, mapper);
    assert t.fields[0..] == t.fields;
  }

  /** Only one pointer level is removed: a pointer to a pointer, or any other
      non-struct type, has no leaves. */
  lemma FlattenNonStruct(t: GoType, mapper: string -> string)
    requires !Deref(t).Struct?
    ensures Flatten(t, mapper) == []
  {
  }
}
