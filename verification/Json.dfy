/** JSON value trees with the accessors and number conversions of `serde_json`. */
module Json {
  import opened Wrappers

  type u32 = n: nat | n < 0x1_0000_0000
  type u64 = n: nat | n < 0x1_0000_0000_0000_0000
  type i32 = n: int | -0x8000_0000 <= n < 0x8000_0000
  type i64 = n: int | -0x8000_0000_0000_0000 <= n < 0x8000_0000_0000_0000

  /** An f64 up to rounding: infinities and NaN are one value. */
  datatype F64 = Finite(value: real) | NonFinite

  datatype Number = Unsigned(n: u64) | Signed(i: i64) | Float(r: real)

  datatype Value =
    | Null
    | Bool(b: bool)
    | Num(num: Number)
    | Str(s: string)
    | Arr(items: seq<Value>)
    | Obj(fields: map<string, Value>)
  {
    function Get(key: string): Option<Value> {
      if Obj? && key in fields then Some(fields[key]) else None
    }

    function AsStr(): Option<string> { if Str? then Some(s) else None }

    function AsBool(): Option<bool> { if Bool? then Some(b) else None }

    function AsArray(): Option<seq<Value>> { if Arr? then Some(items) else None }

    function AsU64(): Option<u64> { if Num? && num.Unsigned? then Some(num.n) else None }

    function AsI64(): Option<i64> {
      if Num? && num.Signed? then Some(num.i)
      else if Num? && num.Unsigned? && num.n < 0x8000_0000_0000_0000 then Some(num.n)
      else None
    }

    function AsF64(): Option<real> {
      if !Num? then None
      else match num
        case Unsigned(n) => Some(n as real)
        case Signed(i) => Some(i as real)
        case Float(r) => Some(r)
    }

    function StrAt(key: string): Option<string> {
      match Get(key) case Some(v) => v.AsStr() case None => None
    }

    function BoolAt(key: string, default: bool): bool {
      match Get(key) case Some(v) => (match v.AsBool() case Some(b) => b case None => default) case None => default
    }

    function U64At(key: string): Option<u64> {
      match Get(key) case Some(v) => v.AsU64() case None => None
    }

    function U32At(key: string): Option<u32> {
      match U64At(key) case Some(n) => Some(AsU32(n)) case None => None
    }

    function F64At(key: string): Option<real> {
      match Get(key) case Some(v) => v.AsF64() case None => None
    }

    function ArrayAt(key: string): Option<seq<Value>> {
      match Get(key) case Some(v) => v.AsArray() case None => None
    }
  }

  /** `as u32`. */
  function AsU32(n: u64): u32 { n % 0x1_0000_0000 }

  /** `as i32`, two's complement. */
  function AsI32(i: i64): i32 { (i + 0x8000_0000) % 0x1_0000_0000 - 0x8000_0000 }

  /** Both casts keep the low 32 bits. */
  lemma CastsTruncate(n: u64, i: i64)
    ensures (n - AsU32(n)) % 0x1_0000_0000 == 0
    ensures (i - AsI32(i)) % 0x1_0000_0000 == 0
  {
    assert i + 0x8000_0000 == (i + 0x8000_0000) / 0x1_0000_0000 * 0x1_0000_0000 + (i + 0x8000_0000) % 0x1_0000_0000;
  }

  function OrElse<T>(o: Option<T>, default: T): T {
    if o.Some? then o.value else default
  }

  function FromU32(n: u32): Value { Num(Unsigned(n)) }

  /** `Value::from(f64)`: what JSON cannot express becomes null. */
  function FromF64(f: F64): Value { if f.Finite? then Num(Float(f.value)) else Null }
}
