/**
 * The dictionaries the bot factory stores are JSON objects. A stored record is
 * a map from field names to JSON values; floats are not modelled (timestamps
 * and amounts are integers here).
 */
module Json {

  import opened Wrappers
  import opened Text

  datatype Value =
    | Null
    | Bool(b: bool)
    | Int(i: int)
    | Str(s: string)
    | List(items: seq<Value>)
    | Obj(fields: map<string, Value>)

  /** A decoded JSON object (a Python `dict` with string keys). */
  type Record = map<string, Value>

  /** `d.get(key, default)`. */
  function Get(r: Record, key: string, default: Value): Value
  {
    if key in r then r[key] else default
  }

  /** Python truthiness of a decoded value. */
  predicate Truthy(v: Value)
  {
    match v
    case Null => false
    case Bool(b) => b
    case Int(i) => i != 0
    case Str(s) => s != ""
    case List(items) => items != []
    case Obj(fields) => fields != map[]
  }

  /** A lookup that the source accepts with `if not data: ...`: the key exists
      and the stored dictionary is not empty. */
  predicate Found<K>(table: map<K, Record>, key: K)
  {
    key in table && table[key] != map[]
  }

  /** `str(v)` as used when a value is interpolated into a Redis key. */
  function Show(v: Value): string
  {
    match v
    case Null => "None"
    case Bool(b) => if b then "True" else "False"
    case Int(i) => if i < 0 then "-" + Decimal(-i) else Decimal(i)
    case Str(s) => s
    case List(_) => "[...]"
    case Obj(_) => "{...}"
  }

  /** `str(n)` of a Python integer. */
  function ShowInt(n: int): string
  {
    Show(Int(n))
  }

  /** The numeric value of a JSON value where Python would compare it with a
      number: integers and booleans; anything else has none. */
  function Numeric(v: Value): Option<int>
  {
    match v
    case Int(i) => Some(i)
    case Bool(b) => Some(if b then 1 else 0)
    case _ => None
  }

  /** `dict.update(updates)`: the updates win, every other field is kept. */
  function Merge(r: Record, updates: Record): (m: Record)
    ensures m.Keys == r.Keys + updates.Keys
    ensures forall k :: k in updates ==> m[k] == updates[k]
    ensures forall k :: k in r && k !in updates ==> m[k] == r[k]
  {
    r + updates
  }

  /** Distinct integers are rendered as distinct key segments. */
  lemma ShowIntInjective(a: int, b: int)
    requires a != b
    ensures ShowInt(a) != ShowInt(b)
  {
    if a >= 0 && b >= 0 {
      DecimalInjective(a, b);
    } else if a < 0 && b < 0 {
      DecimalInjective(-a, -b);
      assert ShowInt(a)[1..] == Decimal(-a);
      assert ShowInt(b)[1..] == Decimal(-b);
    } else if a < 0 {
      assert ShowInt(a)[0] == '-' && IsDigit(ShowInt(b)[0]);
    } else {
      assert ShowInt(b)[0] == '-' && IsDigit(ShowInt(a)[0]);
    }
  }
}
