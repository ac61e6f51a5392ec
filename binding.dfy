/** Request binding (main.go:270-366): reading one raw value per column from the
    request, the columns that are never bound, the type-directed coercion of the raw
    text, and the loop that builds a new record from a request. */
module Binding {
  import opened Common
  import opened GoText
  import opened GoTime
  import opened Schema
  import opened Registry

  /** A value stored into a record field. A float keeps the raw text it was parsed
      from; the parse itself is not modelled. */
  datatype Value =
    | StrV(s: string)
    | IntV(i: int)
    | UintV(u: nat)
    | FloatV(text: string)
    | BoolV(b: bool)
    | TimeV(t: Time)

  /** A new record: field name to value. A field that is not a key still holds the
      zero value `reflect.New` gave it. */
  type Instance = map<string, Value>

  /** What the handlers read from a request: the post form, the merged form (URL
      query and body), the values earlier middleware stored in the context (already
      formatted with `%v`), and the request URI. */
  datatype Request = Request(
    post: map<string, string>,
    form: map<string, string>,
    values: map<string, string>,
    uri: string)

  /** Helpers the binding calls whose source is not part of this model: `IsNum` and
      `parseBool`. A parseBool error is only logged, so only its value matters. */
  datatype Helpers = Helpers(isNum: string -> bool, parseBool: string -> bool)

  function Lookup0(m: map<string, string>, k: string): string {
    if k in m then m[k] else ""
  }

  /** getValue (main.go:271-277): the trimmed post value, or the form value when that
      is empty. */
  function GetValue(req: Request, k: string): string {
    var b := TrimSpace(Lookup0(req.post, k));
    if |b| < 1 then Lookup0(req.form, k) else b
  }

  /** A post value with a non-space character wins, trimmed of its surrounding
      spaces and of nothing else. */
  lemma GetValuePostWins(req: Request, k: string, i: nat)
    requires k in req.post && i < |req.post[k]| && !IsSpace(req.post[k][i])
    ensures var v, r := req.post[k], GetValue(req, k);
      && r != [] && r == TrimSpace(v)
      && !IsSpace(r[0]) && !IsSpace(r[|r| - 1])
      && var lo := SpacesFrom(v, 0); lo + |r| <= |v| && r == v[lo..lo + |r|]
  {
    assert TrimSpace(req.post[k]) != [];
  }

  /** A missing or all-space post value falls back to the form value, missing
      meaning "". */
  lemma GetValueFallsBack(req: Request, k: string)
    requires k !in req.post || forall i | 0 <= i < |req.post[k]| :: IsSpace(req.post[k][i])
    ensures GetValue(req, k) == (if k in req.form then req.form[k] else "")
  {
    if k in req.post {
      assert TrimSpace(req.post[k]) == [];
    } else {
      assert TrimSpace("") == [];
    }
  }

  /** `ctx.Values().Get(key)` formatted with `%v`: "<nil>" when nothing is stored. */
  function PrivateValue(req: Request, key: string): string {
    if key in req.values then req.values[key] else "<nil>"
  }

  // ---------------------------------------------------------------- skip rule

  /** The columns the binding never reads from the request (main.go:293-308): the
      auto-increment, updated and deleted columns and every created column. */
  predicate Skipped(fl: TableFieldsResp, mapName: string) {
    mapName == fl.autoIncrement || mapName == fl.updated || mapName == fl.deleted || mapName in fl.created
  }

  // ---------------------------------------------------------------- coercion

  /** Bit width of Go's integer kinds (and time.Duration), with 64-bit `int` and
      `uint`. */
  function Width(types: string): (w: nat)
    ensures w in {8, 16, 32, 64}
    ensures w == 64 <==> !(types in {"int8", "int16", "int32", "uint8", "uint16", "uint32"})
  {
    if types in {"int8", "uint8"} then 8
    else if types in {"int16", "uint16"} then 16
    else if types in {"int32", "uint32"} then 32
    else 64
  }

  predicate IsSignedKind(types: string) {
    types in {"int", "int8", "int16", "int32", "int64", "time.Duration"}
  }

  predicate IsUnsignedKind(types: string) {
    types in {"uint", "uint8", "uint16", "uint32", "uint64"}
  }

  /** The outcome of coercing one column: leave the zero value, store a value, or
      abort the whole binding with an error. */
  datatype Coerced = Keep | SetTo(v: Value) | Abort(msg: string)

  /** The type switch of main.go:310-361. Numeric parse errors are only logged: the
      field gets whatever the parser returned (0 on a syntax error, the clamped bound
      on overflow), truncated to the field's width. A time that does not parse aborts. */
  function CoerceField(types: string, content: string, h: Helpers): (c: Coerced)
    ensures c.Abort? <==> types in {"time", "time.Time"}
                          && (if h.isNum(content) then ParseInt(content).err != NoErr else ParseLocal(content).None?)
    ensures types in {"time", "time.Time"} && !h.isNum(content) && ParseLocal(content).Some? ==>
              c == SetTo(TimeV(ParseLocal(content).value))
    ensures types == "string" ==> c == SetTo(StrV(content))
    ensures IsSignedKind(types) ==>
      var m := Modulus(Width(types));
      c.SetTo? && c.v.IntV? && -m / 2 <= c.v.i < m / 2 && (ParseInt(content).value - c.v.i) % m == 0
    ensures IsUnsignedKind(types) ==>
      var m := Modulus(Width(types));
      c.SetTo? && c.v.UintV? && c.v.u < m && (ParseUint(content).value - c.v.u) % m == 0
    ensures c.Keep? <==> !(types in {"string", "bool", "float32", "float64", "time", "time.Time"}
                          || IsSignedKind(types) || IsUnsignedKind(types))
  {
    if types == "string" then SetTo(StrV(content))
    else if IsSignedKind(types) then SetTo(IntV(WrapSigned(ParseInt(content).value, Width(types))))
    else if IsUnsignedKind(types) then SetTo(UintV(WrapUnsigned(ParseUint(content).value, Width(types))))
    else if types == "float32" || types == "float64" then SetTo(FloatV(content))
    else if types == "bool" then SetTo(BoolV(h.parseBool(content)))
    else if types == "time" || types == "time.Time" then
      if h.isNum(content) then
        var p := ParseInt(content);
        if p.err != NoErr then Abort("time change to int error") else SetTo(TimeV(Unix(p.value)))
      else
        match ParseLocal(content)
        case None => Abort("time parse location error")
        case Some(t) => SetTo(TimeV(t))
    else Keep
  }

  /** A numeric field never aborts the binding: it always gets the parser's result,
      0 for text that is not a number, and a value in range for its width. */
  lemma NumericNeverAborts(types: string, content: string, h: Helpers)
    requires IsSignedKind(types) || IsUnsignedKind(types)
    ensures CoerceField(types, content, h).SetTo?
    ensures var v := CoerceField(types, content, h).v;
      && (IsSignedKind(types) ==> v.IntV? && -Modulus(Width(types)) / 2 <= v.i < Modulus(Width(types)) / 2)
      && (IsUnsignedKind(types) ==> v.UintV? && v.u < Modulus(Width(types)))
      && (ParseInt(content).err == Syntax && IsSignedKind(types) ==> v == IntV(0))
      && (ParseUint(content).err == Syntax && IsUnsignedKind(types) ==> v == UintV(0))
      && (IsSignedKind(types) ==> (ParseInt(content).value - v.i) % Modulus(Width(types)) == 0)
      && (IsUnsignedKind(types) ==> (ParseUint(content).value - v.u) % Modulus(Width(types)) == 0)
  {
  }

  /** A number too wide for its column is truncated: "300" in an int8 column is 44. */
  lemma CoerceInt8Wraps(h: Helpers)
    ensures CoerceField("int8", "300", h) == SetTo(IntV(44))
  {
    ParseIntItoa(300);
    assert Itoa(300) == "300" by {
      assert NatDigits(300) == "300";
    }
    assert Width("int8") == 8;
  }

  /** Round trip: a 64-bit signed field binds back the integer written in decimal. */
  lemma CoerceIntItoa(types: string, n: int, h: Helpers)
    requires types in {"int", "int64", "time.Duration"}
    requires -Cutoff <= n < Cutoff
    ensures CoerceField(types, Itoa(n), h) == SetTo(IntV(n))
  {
    assert types != "string" && IsSignedKind(types) && Width(types) == 64;
    ParseIntItoa(n);
  }

  /** Round trip: an unsigned 64-bit field binds back the number written in decimal. */
  lemma CoerceUintFormat(types: string, n: nat, h: Helpers)
    requires types in {"uint", "uint64"}
    requires n <= MaxUint64
    ensures CoerceField(types, NatDigits(n), h) == SetTo(UintV(n))
  {
    assert types != "string" && !IsSignedKind(types) && IsUnsignedKind(types) && Width(types) == 64;
    ParseUintFormat(n);
  }

  /** A time field binds back a local time written in the layout, when the text is
      not taken for a number. */
  lemma CoerceTimeFormat(t: Time, h: Helpers)
    requires t.Local? && 0 <= t.year <= 9999 && t.fraction == ""
    requires ValidCivil(t.year, t.month, t.day, t.hour, t.minute, t.second)
    requires !h.isNum(FormatLocal(t))
    ensures CoerceField("time.Time", FormatLocal(t), h) == SetTo(TimeV(t))
  {
    ParseFormatLocal(t);
  }

  /** An all-numeric time is epoch seconds; one that overflows int64 aborts. */
  lemma CoerceTimeEpoch(content: string, h: Helpers)
    requires h.isNum(content)
    ensures ParseInt(content).err == NoErr ==> CoerceField("time", content, h) == SetTo(TimeV(Unix(ParseInt(content).value)))
    ensures ParseInt(content).err != NoErr ==> CoerceField("time", content, h).Abort?
  {
  }

  // ---------------------------------------------------------------- the bind loop

  /** What binding columns i.. does to the record built so far. */
  function BindFrom(fl: TableFieldsResp, i: nat, req: Request, h: Helpers, inst: Instance): Result<Instance, string>
    requires i <= |fl.fields|
    decreases |fl.fields| - i
  {
    if i == |fl.fields| then Success(inst)
    else
      var col := fl.fields[i];
      if Skipped(fl, col.mapName) then BindFrom(fl, i + 1, req, h, inst)
      else
        match CoerceField(col.types, GetValue(req, col.mapName), h)
        case Keep => BindFrom(fl, i + 1, req, h, inst)
        case SetTo(v) => BindFrom(fl, i + 1, req, h, inst[col.name := v])
        case Abort(e) => Failure(e)
  }

  /** getCtxValues for a resolved model: the record built from an empty one. */
  function Bind(info: ModelInfo, req: Request, h: Helpers): Result<Instance, string> {
    BindFrom(info.fieldList, 0, req, h, map[])
  }

  /** getCtxValues by table name: the first model registered under that name, or
      an error when there is none. */
  function BindByName(lists: seq<ModelInfo>, routerName: string, req: Request, h: Helpers): (r: Result<Instance, string>)
    ensures (forall i | 0 <= i < |lists| :: lists[i].mapName != routerName) ==> r == Failure("model not found")
    ensures (exists i | 0 <= i < |lists| :: lists[i].mapName == routerName)
              ==> r == Bind(TableNameGetModelInfo(lists, routerName).value, req, h)
  {
    match TableNameGetModelInfo(lists, routerName)
    case Failure(e) => Failure(e)
    case Success(m) => Bind(m, req, h)
  }

  /** getCtxValues (main.go:280-366). */
  method GetCtxValues(lists: seq<ModelInfo>, routerName: string, req: Request, h: Helpers)
    returns (r: Result<Instance, string>)
    ensures r == BindByName(lists, routerName, req, h)
  {
    var cb := TableNameGetModelInfo(lists, routerName);
    if cb.Failure? {
      return Failure(cb.error);
    }
    assert BindByName(lists, routerName, req, h) == Bind(cb.value, req, h);
    var fl := cb.value.fieldList;
    var newInstance: Instance := map[];
    var i := 0;
    while i < |fl.fields|
      invariant 0 <= i <= |fl.fields|
      invariant BindFrom(fl, 0, req, h, map[]) == BindFrom(fl, i, req, h, newInstance)
    {
      var column := fl.fields[i];
      if !Skipped(fl, column.mapName) {
        var content := GetValue(req, column.mapName);
        match CoerceField(column.types, content, h) {
          case Keep =>
          case SetTo(v) =>
            newInstance := newInstance[column.name := v];
          case Abort(e) =>
            return Failure(e);
        }
      }
      i := i + 1;
    }
    return Success(newInstance);
  }

  /** The column at j is read from the request and its coercion aborts. */
  predicate AbortsAt(fl: TableFieldsResp, j: nat, req: Request, h: Helpers)
    requires j < |fl.fields|
  {
    !Skipped(fl, fl.fields[j].mapName) && CoerceField(fl.fields[j].types, GetValue(req, fl.fields[j].mapName), h).Abort?
  }

  /** The column at j is read from the request and stores a value. */
  predicate SetsAt(fl: TableFieldsResp, j: nat, req: Request, h: Helpers)
    requires j < |fl.fields|
  {
    !Skipped(fl, fl.fields[j].mapName) && CoerceField(fl.fields[j].types, GetValue(req, fl.fields[j].mapName), h).SetTo?
  }

  /** The binding fails exactly when some bound column's coercion aborts. */
  lemma {:induction false} BindFromFails(fl: TableFieldsResp, i: nat, req: Request, h: Helpers, inst: Instance)
    requires i <= |fl.fields|
    ensures BindFrom(fl, i, req, h, inst).Failure? <==> exists j | i <= j < |fl.fields| :: AbortsAt(fl, j, req, h)
    decreases |fl.fields| - i
  {
    if i < |fl.fields| {
      var col := fl.fields[i];
      var c := CoerceField(col.types, GetValue(req, col.mapName), h);
      if !AbortsAt(fl, i, req, h) {
        var next := if !Skipped(fl, col.mapName) && c.SetTo? then inst[col.name := c.v] else inst;
        assert BindFrom(fl, i, req, h, inst) == BindFrom(fl, i + 1, req, h, next);
        BindFromFails(fl, i + 1, req, h, next);
        AbortsLater(fl, i, req, h);
      }
    }
  }

  /** Past a column that does not abort, an aborting column lies further on. */
  lemma AbortsLater(fl: TableFieldsResp, i: nat, req: Request, h: Helpers)
    requires i < |fl.fields| && !AbortsAt(fl, i, req, h)
    ensures (exists j | i <= j < |fl.fields| :: AbortsAt(fl, j, req, h))
            <==> (exists j | i + 1 <= j < |fl.fields| :: AbortsAt(fl, j, req, h))
  {
    if exists j | i <= j < |fl.fields| :: AbortsAt(fl, j, req, h) {
      var j :| i <= j < |fl.fields| && AbortsAt(fl, j, req, h);
      assert j != i;
    }
  }

  /** Every key of the record comes from the starting record or from a column at or
      after i that is read from the request and stores a value. */
  lemma {:induction false} BindFromKeys(fl: TableFieldsResp, i: nat, req: Request, h: Helpers, inst: Instance)
    requires i <= |fl.fields|
    requires BindFrom(fl, i, req, h, inst).Success?
    ensures forall name | name in BindFrom(fl, i, req, h, inst).value ::
              name in inst || exists j | i <= j < |fl.fields| :: fl.fields[j].name == name && SetsAt(fl, j, req, h)
    decreases |fl.fields| - i
  {
    if i < |fl.fields| {
      var col := fl.fields[i];
      if Skipped(fl, col.mapName) {
        BindFromKeys(fl, i + 1, req, h, inst);
      } else {
        match CoerceField(col.types, GetValue(req, col.mapName), h) {
          case Keep =>
            BindFromKeys(fl, i + 1, req, h, inst);
          case SetTo(v) =>
            BindFromKeys(fl, i + 1, req, h, inst[col.name := v]);
            assert SetsAt(fl, i, req, h);
        }
      }
    }
  }

  /** A column whose field name no other column shares ends up holding exactly the
      value its coercion produced, or, when it is skipped or kept, what the starting
      record held. */
  lemma {:induction false} BindFromValue(fl: TableFieldsResp, i: nat, req: Request, h: Helpers, inst: Instance, j: nat)
    requires i <= j < |fl.fields|
    requires forall k | 0 <= k < |fl.fields| && k != j :: fl.fields[k].name != fl.fields[j].name
    requires BindFrom(fl, i, req, h, inst).Success?
    ensures var out, name := BindFrom(fl, i, req, h, inst).value, fl.fields[j].name;
      if SetsAt(fl, j, req, h)
      then name in out && SetTo(out[name]) == CoerceField(fl.fields[j].types, GetValue(req, fl.fields[j].mapName), h)
      else (name in out <==> name in inst) && (name in inst ==> out[name] == inst[name])
    decreases |fl.fields| - i
  {
    var col := fl.fields[i];
    var name := fl.fields[j].name;
    if Skipped(fl, col.mapName) {
      if i < j { BindFromValue(fl, i + 1, req, h, inst, j); } else { BindFromUntouched(fl, i + 1, req, h, inst, name); }
    } else {
      match CoerceField(col.types, GetValue(req, col.mapName), h) {
        case Keep =>
          if i < j { BindFromValue(fl, i + 1, req, h, inst, j); } else { BindFromUntouched(fl, i + 1, req, h, inst, name); }
        case SetTo(v) =>
          var next := inst[col.name := v];
          if i < j {
            BindFromValue(fl, i + 1, req, h, next, j);
          } else {
            BindFromUntouched(fl, i + 1, req, h, next, name);
          }
      }
    }
  }

  /** Columns at or after i whose field name is not `name` leave that key alone. */
  lemma {:induction false} BindFromUntouched(fl: TableFieldsResp, i: nat, req: Request, h: Helpers, inst: Instance, name: string)
    requires i <= |fl.fields|
    requires forall k | i <= k < |fl.fields| :: fl.fields[k].name != name
    requires BindFrom(fl, i, req, h, inst).Success?
    ensures var out := BindFrom(fl, i, req, h, inst).value;
      (name in out <==> name in inst) && (name in inst ==> out[name] == inst[name])
    decreases |fl.fields| - i
  {
    if i < |fl.fields| {
      var col := fl.fields[i];
      if Skipped(fl, col.mapName) {
        BindFromUntouched(fl, i + 1, req, h, inst, name);
      } else {
        match CoerceField(col.types, GetValue(req, col.mapName), h) {
          case Keep =>
            BindFromUntouched(fl, i + 1, req, h, inst, name);
          case SetTo(v) =>
            BindFromUntouched(fl, i + 1, req, h, inst[col.name := v], name);
        }
      }
    }
  }

  /** The skip rule: a column that is the auto-increment, updated or deleted column,
      or a created column, is never bound, so a field with its own name stays at its
      zero value. */
  lemma SkippedNeverBound(info: ModelInfo, req: Request, h: Helpers, j: nat)
    requires j < |info.fieldList.fields|
    requires Skipped(info.fieldList, info.fieldList.fields[j].mapName)
    requires forall k | 0 <= k < |info.fieldList.fields| && k != j :: info.fieldList.fields[k].name != info.fieldList.fields[j].name
    requires Bind(info, req, h).Success?
    ensures info.fieldList.fields[j].name !in Bind(info, req, h).value
  {
    BindFromValue(info.fieldList, 0, req, h, map[], j);
  }
}
