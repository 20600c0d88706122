/** The settings tree (src/settings.rs): reading and writing a leaf by dotted path, and the
    flat form kept in the database. */
module SettingsTrees {
  import opened Wrappers
  import opened Jsons
  import opened SettingsPaths
  import SettingsMerge

  type I64 = n: int | -0x8000_0000_0000_0000 <= n < 0x8000_0000_0000_0000

  datatype F64 = Finite(f: FiniteBits) | NotFinite

  /** JSON text and the number parsers of the standard library. */
  datatype Texts = Texts(
    show: Json -> string,
    read: string -> Option<Json>,
    parseU64: string -> Option<U64>,
    parseI64: string -> Option<I64>,
    parseF64: string -> Option<F64>)

  /** The typed Settings struct: `decode` reads a tree into it and writes it out again. */
  datatype Schema = Schema(text: Texts, decode: Json -> Option<Json>, defaults: Json)

  datatype SetError =
    | PathNotFound | ParentNotObject
    | BadBool | BadInteger | BadNumber | BadArray | BadObject
    | NotApplied

  function BoolText(b: bool): string {
    if b then "true" else "false"
  }

  /** The text of a value, strings without quotes. */
  function ValueText(t: Texts, v: Json): string {
    match v
    case JStr(s) => s
    case JBool(b) => BoolText(b)
    case _ => t.show(v)
  }

  // ---- set ----

  function FromI64(i: I64): Json {
    JNum(if i >= 0 then PosInt(i) else NegInt(i))
  }

  function ReadOrString(t: Texts, text: string): Json {
    if t.read(text).Some? then t.read(text).value else JStr(text)
  }

  /** A text as a value of the kind of the value it replaces. */
  function Coerce(t: Texts, existing: Option<Json>, text: string): Result<Json, SetError> {
    match existing
    case None => Ok(ReadOrString(t, text))
    case Some(JNull) => Ok(ReadOrString(t, text))
    case Some(JBool(_)) =>
      if text == "true" then Ok(JBool(true)) else if text == "false" then Ok(JBool(false)) else Err(BadBool)
    case Some(JNum(PosInt(_))) =>
      if t.parseU64(text).Some? then Ok(JNum(PosInt(t.parseU64(text).value))) else Err(BadInteger)
    case Some(JNum(NegInt(_))) =>
      if t.parseI64(text).Some? then Ok(FromI64(t.parseI64(text).value)) else Err(BadInteger)
    case Some(JNum(Float(_))) =>
      (match t.parseF64(text)
       case None => Err(BadNumber)
       case Some(NotFinite) => Ok(JStr(text))
       case Some(Finite(f)) => Ok(JNum(Float(f))))
    case Some(JArr(_)) => if t.read(text).Some? then Ok(t.read(text).value) else Err(BadArray)
    case Some(JObj(_)) => if t.read(text).Some? then Ok(t.read(text).value) else Err(BadObject)
    case Some(JStr(_)) => Ok(JStr(text))
  }

  function Field(j: Json, key: string): Option<Json> {
    if j.JObj? && key in j.fields then Some(j.fields[key]) else None
  }

  /** Writing a text at a path whose parent exists. */
  function SetAt(t: Texts, j: Json, parts: Path, text: string): (r: Result<Json, SetError>)
    requires |parts| >= 1
    ensures r.Ok? ==>
              var v := Coerce(t, Get(j, parts), text);
              v.Ok? && Get(r.value, parts) == Some(v.value)
    decreases |parts|
  {
    if |parts| == 1 then
      if !j.JObj? then Err(ParentNotObject)
      else
        match Coerce(t, Field(j, parts[0]), text)
        case Ok(v) => Ok(JObj(j.fields[parts[0] := v]))
        case Err(e) => Err(e)
    else if Field(j, parts[0]).None? then Err(PathNotFound)
    else
      match SetAt(t, j.fields[parts[0]], parts[1..], text)
      case Ok(v) => Ok(JObj(j.fields[parts[0] := v]))
      case Err(e) => Err(e)
  }

  function SetText(sch: Schema, j: Json, path: string, text: string): Result<Json, SetError> {
    match SetAt(sch.text, j, Split(path), text)
    case Err(e) => Err(e)
    case Ok(v) => if sch.decode(v).Some? then Ok(sch.decode(v).value) else Err(NotApplied)
  }

  /** The tree with another value at a path. */
  function Replace(j: Json, path: Path, v: Json): Json
    requires Get(j, path).Some?
    decreases |path|
  {
    if path == [] then v else JObj(j.fields[path[0] := Replace(j.fields[path[0]], path[1..], v)])
  }

  lemma {:induction false} SetBelow(t: Texts, j: Json, a: Path, b: Path, text: string)
    requires Get(j, a).Some? && |b| >= 1
    ensures SetAt(t, j, a + b, text)
         == match SetAt(t, Get(j, a).value, b, text)
            case Ok(v) => Ok(Replace(j, a, v))
            case Err(e) => Err(e)
    decreases |a|
  {
    if a == [] {
      assert a + b == b;
    } else {
      assert (a + b)[0] == a[0] && (a + b)[1..] == a[1..] + b;
      SetBelow(t, j.fields[a[0]], a[1..], b, text);
    }
  }

  // ---- flattening ----

  /** A leaf of the tree whose dotted path reads `key`. */
  ghost predicate FlatLeaf(j: Json, prefix: string, key: string, v: Json) {
    exists path :: LeafAt(j, path, v) && TextFrom(prefix, path) == key
  }

  /** The flat map holds the leaves of the tree and nothing else. */
  ghost predicate IsFlat(m: map<string, Json>, j: Json) {
    && (forall key :: key in m ==> FlatLeaf(j, "", key, m[key]))
    && (forall path, v :: LeafAt(j, path, v) ==> PathText(path) in m)
  }

  // ---- loading ----

  /** A database entry: null means default; an entry that cannot be set is skipped. */
  function ApplyEntry(sch: Schema, j: Json, key: string, v: Json): Json {
    if v.JNull? then j
    else
      match SetText(sch, j, key, ValueText(sch.text, v))
      case Ok(x) => x
      case Err(_) => j
  }

  function ApplyAll(sch: Schema, m: map<string, Json>, order: seq<string>): Json
    requires forall key :: key in order ==> key in m
  {
    if order == [] then sch.defaults
    else
      var key := order[|order| - 1];
      ApplyEntry(sch, ApplyAll(sch, m, order[..|order| - 1]), key, m[key])
  }

  /** An order in which a hash map may hand out its keys. */
  ghost predicate Enumerates(order: seq<string>, keys: set<string>) {
    && (forall key :: key in order <==> key in keys)
    && (forall i, j :: 0 <= i < j < |order| ==> order[i] != order[j])
  }

  /** Every value that was there stays; `out` gains the leaves of `value` below `prefix`. */
  ghost predicate Collected(value: Json, prefix: string, before: map<string, Json>, out: map<string, Json>) {
    && (forall key :: key in out ==>
          FlatLeaf(value, prefix, key, out[key]) || (key in before && out[key] == before[key]))
    && before.Keys <= out.Keys
    && (forall path, v :: LeafAt(value, path, v) ==> TextFrom(prefix, path) in out)
  }

  method CollectSettingsJson(value: Json, prefix: string, results: map<string, Json>) returns (out: map<string, Json>)
    ensures Collected(value, prefix, results, out)
    decreases value
  {
    if !value.JObj? {
      out := results[prefix := value];
      assert LeafAt(value, [], value) && TextFrom(prefix, []) == prefix;
      assert forall path, v :: LeafAt(value, path, v) ==> path == [];
      return;
    }
    out := results;
    var todo := value.fields.Keys;
    while todo != {}
      invariant todo <= value.fields.Keys
      invariant forall key :: key in out ==>
        FlatLeaf(value, prefix, key, out[key]) || (key in results && out[key] == results[key])
      invariant results.Keys <= out.Keys
      invariant forall path, v :: LeafAt(value, path, v) && path[0] !in todo ==> TextFrom(prefix, path) in out
      decreases todo
    {
      var key :| key in todo;
      var before := out;
      out := CollectSettingsJson(value.fields[key], Extend(prefix, key), before);
      BelowIsFlat(value, prefix, key);
      forall path, v | LeafAt(value, path, v) && path[0] == key
        ensures TextFrom(prefix, path) in out
      {
        assert LeafAt(value.fields[key], path[1..], v);
      }
      todo := todo - {key};
    }
  }

  lemma {:induction false} BelowIsFlat(value: Json, prefix: string, key: string)
    requires value.JObj? && key in value.fields
    ensures forall text, v ::
              FlatLeaf(value.fields[key], Extend(prefix, key), text, v) ==> FlatLeaf(value, prefix, text, v)
  {
    forall text, v | FlatLeaf(value.fields[key], Extend(prefix, key), text, v)
      ensures FlatLeaf(value, prefix, text, v)
    {
      var path :| LeafAt(value.fields[key], path, v) && TextFrom(Extend(prefix, key), path) == text;
      assert ([key] + path)[1..] == path;
      assert LeafAt(value, [key] + path, v) && TextFrom(prefix, [key] + path) == text;
    }
  }

  class Settings {
    const schema: Schema
    var tree: Json

    constructor (schema: Schema)
      ensures this.schema == schema && tree == schema.defaults
    {
      this.schema := schema;
      tree := schema.defaults;
    }

    method MergeFrom(other: Json)
      modifies this`tree
      ensures var merged := schema.decode(SettingsMerge.Merge(old(tree), other, schema.defaults));
              tree == if merged.Some? then merged.value else old(tree)
    {
      var json := SettingsMerge.MergeNonDefault(tree, other, schema.defaults);
      var merged := schema.decode(json);
      if merged.Some? {
        tree := merged.value;
      }
    }

    method GetText(path: string) returns (r: Option<string>)
      ensures var v := Get(tree, Split(path));
              r == if v.Some? then Some(ValueText(schema.text, v.value)) else None
    {
      var current := tree;
      var parts := Split(path);
      var i := 0;
      while i < |parts|
        invariant 0 <= i <= |parts|
        invariant Get(tree, parts) == Get(current, parts[i..])
      {
        if !current.JObj? || parts[i] !in current.fields {
          return None;
        }
        assert parts[i..][1..] == parts[i + 1..];
        current := current.fields[parts[i]];
        i := i + 1;
      }
      r := Some(ValueText(schema.text, current));
    }

    method Set(path: string, value: string) returns (r: Result<(), SetError>)
      modifies this`tree
      ensures var spec := SetText(schema, old(tree), path, value);
              && (spec.Ok? ==> r == Ok(()) && tree == spec.value)
              && (spec.Err? ==> r == Err(spec.error) && tree == old(tree))
    {
      var json := tree;
      var parts := Split(path);
      var last := |parts| - 1;
      var current := json;
      var i := 0;
      while i < last
        invariant 0 <= i <= last && tree == old(tree)
        invariant Get(json, parts[..i]) == Some(current)
      {
        SetBelow(schema.text, json, parts[..i], parts[i..], value);
        assert parts[..i] + parts[i..] == parts;
        if !current.JObj? || parts[i] !in current.fields {
          return Err(PathNotFound);
        }
        GetConcat(json, parts[..i], [parts[i]]);
        GetField(current, parts[i]);
        assert parts[..i + 1] == parts[..i] + [parts[i]];
        current := current.fields[parts[i]];
        i := i + 1;
      }
      SetBelow(schema.text, json, parts[..last], parts[last..], value);
      assert parts[..last] + parts[last..] == parts;
      if !current.JObj? {
        return Err(ParentNotObject);
      }
      var newValue := Coerce(schema.text, Field(current, parts[last]), value);
      if newValue.Err? {
        return Err(newValue.error);
      }
      json := Replace(json, parts[..last], JObj(current.fields[parts[last] := newValue.value]));
      var applied := schema.decode(json);
      if applied.None? {
        return Err(NotApplied);
      }
      tree := applied.value;
      r := Ok(());
    }

    method ApplyDbEntry(key: string, v: Json)
      modifies this`tree
      ensures tree == ApplyEntry(schema, old(tree), key, v)
    {
      if !v.JNull? {
        var r := Set(key, ValueText(schema.text, v));
      }
    }

    method ToDbMap() returns (m: map<string, Json>)
      ensures IsFlat(m, tree)
    {
      m := CollectSettingsJson(tree, "", map[]);
    }

    static method FromDbMap(schema: Schema, m: map<string, Json>) returns (s: Settings, ghost order: seq<string>)
      ensures fresh(s) && s.schema == schema
      ensures Enumerates(order, m.Keys) && s.tree == ApplyAll(schema, m, order)
    {
      s := new Settings(schema);
      order := [];
      var todo := m.Keys;
      while todo != {}
        invariant todo <= m.Keys && Enumerates(order, m.Keys - todo)
        invariant fresh(s) && s.schema == schema && s.tree == ApplyAll(schema, m, order)
        decreases todo
      {
        var key :| key in todo;
        ghost var before := order;
        order := order + [key];
        assert order[..|order| - 1] == before;
        s.ApplyDbEntry(key, m[key]);
        todo := todo - {key};
      }
    }
  }
}
