/** JSON values with the accessors of serde_json that the bridge uses. */
module Json {
  import opened Wrappers

  const U32_RANGE: nat := 0x1_0000_0000
  const U64_RANGE: nat := 0x1_0000_0000_0000_0000

  datatype Value =
    | Null
    | Bool(b: bool)
    | Int(n: int)
    | Float(r: real)
    | Str(s: string)
    | Arr(items: seq<Value>)
    | Obj(fields: map<string, Value>)
  {
    function Get(key: string): Option<Value> {
      if Obj? && key in fields then Some(fields[key]) else None
    }
  }

  /** Sets a key if there is something to set, as `Map::insert` under an `if let`. */
  function Put(m: map<string, Value>, key: string, v: Option<Value>): map<string, Value> {
    if v.Some? then m[key := v.value] else m
  }

  function AsStr(v: Option<Value>): Option<string> {
    match v
    case Some(Str(s)) => Some(s)
    case _ => None
  }

  function AsBool(v: Option<Value>): Option<bool> {
    match v
    case Some(Bool(b)) => Some(b)
    case _ => None
  }

  function AsArr(v: Option<Value>): Option<seq<Value>> {
    match v
    case Some(Arr(items)) => Some(items)
    case _ => None
  }

  /** `as_u64`: only integers that fit an unsigned 64-bit word. */
  function AsU64(v: Option<Value>): Option<nat> {
    match v
    case Some(Int(n)) => if 0 <= n < U64_RANGE then Some(n) else None
    case _ => None
  }

  /** `as_f64`: every number, integer or not. */
  function AsF64(v: Option<Value>): Option<real> {
    match v
    case Some(Int(n)) => Some(n as real)
    case Some(Float(r)) => Some(r)
    case _ => None
  }

  /** `v.and_then(|x| x.get(key))`. */
  function Field(v: Option<Value>, key: string): Option<Value> {
    if v.Some? then v.value.Get(key) else None
  }

  /** `v.and_then(as_str).unwrap_or("")`. */
  function StrOr(v: Option<Value>): string {
    UnwrapOr(AsStr(v), "")
  }

  /** `v.and_then(as_u64).unwrap_or(0) as u32`, with the cast's truncation. */
  function U32Or0(v: Option<Value>): nat {
    UnwrapOr(AsU64(v), 0) % U32_RANGE
  }
}
