/** Repair of a tool's parameter schema before it goes to a strict upstream. */
module Schema {
  import opened Json

  const TYPE: string := "type"

  function EmptySchema(): Value {
    Obj(map[TYPE := Str("object"), "properties" := Obj(map[])])
  }

  /** Replaces or drops a null `type`, and at the root supplies a missing one. */
  function FixType(fields: map<string, Value>, isRoot: bool): map<string, Value> {
    var fixed :=
      if TYPE in fields && fields[TYPE].Null? then
        if isRoot || "properties" in fields then fields[TYPE := Str("object")]
        else if "items" in fields then fields[TYPE := Str("array")]
        else fields - {TYPE}
      else fields;
    if isRoot && TYPE !in fixed then fixed[TYPE := Str("object")] else fixed
  }

  /** The source edits the tree in place; each node's own fix comes first, then
      every child is repaired as a non-root. The inserted types are leaves, so the
      children are those of the node before the fix. */
  function SanitizeSchema(node: Value, isRoot: bool): Value
    decreases node
  {
    match node
    case Obj(fields) =>
      var fixed := FixType(fields, isRoot);
      Obj(map k | k in fixed ::
            if k in fields && fixed[k] == fields[k] then SanitizeSchema(fields[k], false) else fixed[k])
    case Arr(items) => Arr(seq(|items|, i requires 0 <= i < |items| => SanitizeSchema(items[i], false)))
    case _ => node
  }

  function SanitizeParameters(params: Value): Value {
    if params.Obj? then SanitizeSchema(params, true) else EmptySchema()
  }

  // ----- what a repaired schema is -----

  /** No object, at any depth, maps `type` to null. */
  predicate NoNullType(v: Value) {
    match v
    case Obj(fields) => !(TYPE in fields && fields[TYPE].Null?) && forall k :: k in fields ==> NoNullType(fields[k])
    case Arr(items) => forall i :: 0 <= i < |items| ==> NoNullType(items[i])
    case _ => true
  }

  /** An object schema with a type, and no null type anywhere. */
  predicate Acceptable(params: Value) {
    params.Obj? && TYPE in params.fields && NoNullType(params)
  }

  lemma {:induction false} SanitizedHasNoNullType(v: Value, isRoot: bool)
    ensures NoNullType(SanitizeSchema(v, isRoot))
    ensures v.Obj? ==> SanitizeSchema(v, isRoot).Obj?
    ensures isRoot && v.Obj? ==> TYPE in SanitizeSchema(v, isRoot).fields
    ensures SanitizeSchema(v, isRoot).Null? <==> v.Null?
    decreases v
  {
    match v
    case Obj(fields) =>
      var fixed, out := FixType(fields, isRoot), SanitizeSchema(v, isRoot).fields;
      forall k | k in out ensures NoNullType(out[k]) && !(k == TYPE && out[k].Null?) {
        if k in fields && fixed[k] == fields[k] { SanitizedHasNoNullType(fields[k], false); }
      }
    case Arr(items) =>
      var out := SanitizeSchema(v, isRoot).items;
      forall i | 0 <= i < |out| ensures NoNullType(out[i]) {
        SanitizedHasNoNullType(items[i], false);
      }
    case _ =>
  }

  lemma {:induction false} CleanIsKept(v: Value, isRoot: bool)
    requires NoNullType(v) && (isRoot && v.Obj? ==> TYPE in v.fields)
    ensures SanitizeSchema(v, isRoot) == v
    decreases v
  {
    match v
    case Obj(fields) =>
      assert FixType(fields, isRoot) == fields;
      forall k | k in fields ensures SanitizeSchema(fields[k], false) == fields[k] {
        CleanIsKept(fields[k], false);
      }
      assert SanitizeSchema(v, isRoot).fields == fields;
    case Arr(items) =>
      forall i | 0 <= i < |items| ensures SanitizeSchema(items[i], false) == items[i] {
        CleanIsKept(items[i], false);
      }
      assert SanitizeSchema(v, isRoot).items == items;
    case _ =>
  }

  /** The repaired parameters are always acceptable; what is no object at all becomes the
      schema of an empty one. */
  lemma ParametersAcceptable(params: Value)
    ensures Acceptable(SanitizeParameters(params))
    ensures !params.Obj? ==>
      SanitizeParameters(params) == Obj(map["type" := Str("object"), "properties" := Obj(map[])])
  {
    if params.Obj? { SanitizedHasNoNullType(params, true); }
    else { assert NoNullType(Obj(map[])); }
  }

  /** Parameters are left alone exactly when they were acceptable already. */
  lemma UnchangedExactly(params: Value)
    ensures SanitizeParameters(params) == params <==> Acceptable(params)
  {
    ParametersAcceptable(params);
    if Acceptable(params) { CleanIsKept(params, true); }
  }

  lemma SanitizeTwice(params: Value)
    ensures SanitizeParameters(SanitizeParameters(params)) == SanitizeParameters(params)
  {
    ParametersAcceptable(params);
    UnchangedExactly(SanitizeParameters(params));
  }

  /** What may become of a `type` key: a null one turns into the type its node's
      shape suggests or goes away; a missing one appears only at the root. */
  predicate TypeRepaired(before: map<string, Value>, after: map<string, Value>, isRoot: bool) {
    if TYPE in before && !before[TYPE].Null? then TYPE in after
    else if isRoot || (TYPE in before && "properties" in before) then TYPE in after && after[TYPE] == Str("object")
    else if TYPE in before && "items" in before then TYPE in after && after[TYPE] == Str("array")
    else TYPE !in after
  }

  /** `b` is `a` with only `type` keys repaired: every other part of the schema is
      where it was, at every depth. */
  predicate Repairs(a: Value, b: Value, isRoot: bool) {
    match a
    case Obj(fields) =>
      && b.Obj? && fields.Keys - {TYPE} == b.fields.Keys - {TYPE}
      && TypeRepaired(fields, b.fields, isRoot)
      && forall k :: k in fields && !(k == TYPE && fields[k].Null?) ==>
           k in b.fields && Repairs(fields[k], b.fields[k], false)
    case Arr(items) =>
      b.Arr? && |items| == |b.items| && forall i :: 0 <= i < |items| ==> Repairs(items[i], b.items[i], false)
    case _ => a == b
  }

  lemma {:induction false} OnlyTypesChange(v: Value, isRoot: bool)
    ensures Repairs(v, SanitizeSchema(v, isRoot), isRoot)
    decreases v
  {
    match v
    case Obj(fields) =>
      var fixed, out := FixType(fields, isRoot), SanitizeSchema(v, isRoot).fields;
      forall k | k in fields && !(k == TYPE && fields[k].Null?)
        ensures k in out && Repairs(fields[k], out[k], false)
      {
        assert fixed[k] == fields[k];
        OnlyTypesChange(fields[k], false);
      }
    case Arr(items) =>
      forall i | 0 <= i < |items| ensures Repairs(items[i], SanitizeSchema(items[i], false), false) {
        OnlyTypesChange(items[i], false);
      }
    case _ =>
  }
}
