/** The ownership coercion shared by the create and edit handlers
    (handler.go:235-255 and 306-325): the owner value stored by earlier middleware is
    formatted with `%v` and written into the record's owner field according to that
    field's Go type. */
module Ownership {
  import opened Common
  import opened GoText
  import opened Schema
  import opened Registry
  import opened Binding

  /** The type string of the field `FieldByName` finds: the first flattened field
      with that name, or None when there is none. */
  function FieldType(fields: seq<StructInfo>, name: string): (t: Option<string>)
    ensures t.None? <==> forall i | 0 <= i < |fields| :: fields[i].name != name
    ensures t.Some? ==> exists i | 0 <= i < |fields| :: fields[i].name == name && fields[i].types == t.value
  {
    match FirstIndex(fields, (f: StructInfo) => f.name == name)
    case None => None
    case Some(i) => Some(fields[i].types)
  }

  /** `strconv.Atoi` on a 64-bit platform: the value ParseInt returns, kept even on
      error. */
  function Atoi(s: string): (n: int)
    ensures -Cutoff <= n < Cutoff
  {
    ParseInt(s).value
  }

  /** The switch on the owner field's type. A string field takes the text as is; a
      signed field takes Atoi's result truncated by SetInt; an unsigned field takes
      Atoi's result converted with `uint64(i)` and truncated by SetUint. Any other
      type, and a field that does not exist, rejects the request. */
  function CoerceOwner(types: Option<string>, c: string): (r: Result<Value, string>)
    ensures r.Failure? <==> types.None? || !(types.value == "string" || IsSignedKind(types.value) || IsUnsignedKind(types.value))
    ensures r.Failure? ==> r.error == "apiPrivateParseFail"
    ensures types == Some("string") ==> r == Success(StrV(c))
    ensures r.Success? ==> types.Some? && (types.value != "string" ==> (r.value.IntV? <==> IsSignedKind(types.value)))
    ensures types.Some? && IsSignedKind(types.value) ==>
      var m := Modulus(Width(types.value));
      r.Success? && r.value.IntV? && -m / 2 <= r.value.i < m / 2 && (Atoi(c) - r.value.i) % m == 0
    ensures types.Some? && IsUnsignedKind(types.value) ==>
      var m := Modulus(Width(types.value));
      r.Success? && r.value.UintV? && r.value.u < m && (Atoi(c) - r.value.u) % m == 0
  {
    if types.None? then Failure("apiPrivateParseFail")
    else if types.value == "string" then Success(StrV(c))
    else if IsSignedKind(types.value) then Success(IntV(WrapSigned(Atoi(c), Width(types.value))))
    else if IsUnsignedKind(types.value) then Success(UintV(WrapUnsigned(Atoi(c), Width(types.value))))
    else Failure("apiPrivateParseFail")
  }

  /** The owner coercion applied to a bound record. */
  function SetOwner(info: ModelInfo, inst: Instance, pv: string): Result<Instance, string> {
    if !info.private then Success(inst)
    else
      match CoerceOwner(FieldType(info.fieldList.fields, info.structColName), pv)
      case Failure(e) => Failure(e)
      case Success(v) => Success(inst[info.structColName := v])
  }

  /** Nothing changes for a model that is not private; otherwise the request is
      rejected exactly when the coercion is, and only the owner field changes. */
  lemma SetOwnerFrame(info: ModelInfo, inst: Instance, pv: string)
    ensures !info.private ==> SetOwner(info, inst, pv) == Success(inst)
    ensures info.private ==> (SetOwner(info, inst, pv).Failure? <==> CoerceOwner(FieldType(info.fieldList.fields, info.structColName), pv).Failure?)
    ensures var r := SetOwner(info, inst, pv);
      r.Success? && info.private ==>
        (info.structColName in r.value
         && Success(r.value[info.structColName]) == CoerceOwner(FieldType(info.fieldList.fields, info.structColName), pv))
    ensures var r := SetOwner(info, inst, pv);
      r.Success? ==> forall k | k != info.structColName :: (k in r.value <==> k in inst) && (k in inst ==> r.value[k] == inst[k])
  {
  }

  /** A signed 64-bit owner field gets back the integer the owner value spells. */
  lemma OwnerIntRoundTrip(types: string, n: int)
    requires types in {"int", "int64", "time.Duration"}
    requires -Cutoff <= n < Cutoff
    ensures CoerceOwner(Some(types), Itoa(n)) == Success(IntV(n))
  {
    assert types != "string" && IsSignedKind(types) && Width(types) == 64;
    ParseIntItoa(n);
    assert Atoi(Itoa(n)) == n;
    assert Modulus(64) / 2 == Cutoff;
  }

  /** An unsigned 64-bit owner field gets back a non-negative int64 the owner value
      spells. */
  lemma OwnerUintRoundTrip(types: string, n: nat)
    requires types in {"uint", "uint64"}
    requires n < Cutoff
    ensures CoerceOwner(Some(types), NatDigits(n)) == Success(UintV(n))
  {
    assert types != "string" && !IsSignedKind(types) && IsUnsignedKind(types) && Width(types) == 64;
    ParseIntItoa(n);
    assert Atoi(NatDigits(n)) == n;
    assert n < Modulus(64);
  }

  /** An owner value that is not a number (for instance "<nil>" when no owner was
      stored) gives a numeric owner field the value 0 instead of an error. */
  lemma OwnerNotNumberIsZero(types: string, c: string)
    requires IsSignedKind(types) || IsUnsignedKind(types)
    requires ParseInt(c).err == Syntax
    ensures CoerceOwner(Some(types), c) == Success(if IsSignedKind(types) then IntV(0) else UintV(0))
  {
  }

  /** A negative owner value wraps around in an unsigned owner field: "-1" becomes
      the largest uint64. */
  lemma OwnerNegativeWraps()
    ensures CoerceOwner(Some("uint64"), "-1") == Success(UintV(MaxUint64))
  {
    ParseIntItoa(-1);
    assert Itoa(-1) == "-1" by {
      assert NatDigits(1) == "1";
    }
  }
}
