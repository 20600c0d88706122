/** JSON values as trees (serde_json's Value), with integers of the width its Number keeps. */
module Jsons {
  import opened Wrappers

  type U64 = n: int | 0 <= n < 0x1_0000_0000_0000_0000
  type Neg64 = n: int | -0x8000_0000_0000_0000 <= n < 0 witness -1

  /** A finite double, by its bits: not all ones in the exponent. */
  type FiniteBits = n: U64 | (n / 0x10_0000_0000_0000) % 0x800 != 0x7FF

  datatype Number = PosInt(u: U64) | NegInt(i: Neg64) | Float(f: FiniteBits)

  datatype Json =
    | JNull
    | JBool(b: bool)
    | JNum(n: Number)
    | JStr(s: string)
    | JArr(items: seq<Json>)
    | JObj(fields: map<string, Json>)

  type Path = seq<string>

  /** The value at a path, by object keys only. */
  function Get(j: Json, path: Path): Option<Json> {
    if path == [] then Some(j)
    else if j.JObj? && path[0] in j.fields then Get(j.fields[path[0]], path[1..])
    else None
  }

  lemma {:induction false} GetConcat(j: Json, a: Path, b: Path)
    ensures Get(j, a + b) == if Get(j, a).Some? then Get(Get(j, a).value, b) else None
  {
    if a == [] {
      assert a + b == b;
    } else {
      assert (a + b)[0] == a[0] && (a + b)[1..] == a[1..] + b;
      if j.JObj? && a[0] in j.fields { GetConcat(j.fields[a[0]], a[1..], b); }
    }
  }

  lemma {:induction false} GetField(j: Json, key: string)
    ensures Get(j, [key]) == if j.JObj? && key in j.fields then Some(j.fields[key]) else None
  {
    assert [key][1..] == [];
  }

  /** A leaf: anything but an object. */
  ghost predicate LeafAt(j: Json, path: Path, v: Json) {
    Get(j, path) == Some(v) && !v.JObj?
  }
}
