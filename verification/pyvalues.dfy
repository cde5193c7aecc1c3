/** Python values as they appear in the dictionaries the screener passes
    around (fundamentals, configuration, cached JSON). NaN does not occur in
    these dictionaries; tables with NaN cells use their own cell type. */
module PyValues {
  import opened Wrappers

  datatype Value =
    | VNone
    | VBool(b: bool)
    | VInt(i: int)
    | VFloat(f: real)
    | VStr(s: string)
    | VDict(entries: map<string, Value>)

  type Dict = map<string, Value>

  /** Python truthiness: `None`, `False`, zero, `""` and `{}` are false. */
  predicate Truthy(v: Value) {
    match v
    case VNone => false
    case VBool(b) => b
    case VInt(i) => i != 0
    case VFloat(f) => f != 0.0
    case VStr(s) => |s| > 0
    case VDict(m) => |m| > 0
  }

  /** `d.get(key, default)`. */
  function Get(d: Dict, key: string, default: Value): (v: Value)
    ensures key in d ==> v == d[key]
    ensures key !in d ==> v == default
  {
    if key in d then d[key] else default
  }

  /** The number a value stands for in arithmetic and ordering (`bool` is an `int`
      in Python); `None`, strings and dictionaries raise `TypeError` there. */
  function AsNumber(v: Value): (r: Option<real>)
    ensures r.Some? <==> (v.VBool? || v.VInt? || v.VFloat?)
  {
    match v
    case VBool(b) => Some(if b then 1.0 else 0.0)
    case VInt(i) => Some(i as real)
    case VFloat(f) => Some(f)
    case _ => None
  }

  /** A number is truthy exactly when it is not zero. */
  lemma TruthyNumber(v: Value)
    requires AsNumber(v).Some?
    ensures Truthy(v) <==> AsNumber(v).value != 0.0
  {
  }
}
