/** What setting one value does (src/settings.rs, set): which error each failure gives, what a text
    becomes by the kind it replaces, and that nothing else in the tree changes. */
module SettingsWrites {
  import opened Wrappers
  import opened Jsons
  import opened SettingsPaths
  import opened SettingsTrees

  // ---- what a text becomes ----

  /** The value a text becomes over a value of some kind: a truth value only from its two words, a
      number only from a text its parser takes, an array or object only from JSON text, a string
      from any text; over null or nothing what it reads as, or the text itself. */
  predicate Becomes(t: Texts, existing: Option<Json>, text: string, x: Json) {
    match existing
    case Some(JBool(_)) => x.JBool? && text == if x.b then "true" else "false"
    case Some(JNum(PosInt(_))) => x.JNum? && x.n.PosInt? && t.parseU64(text) == Some(x.n.u)
    case Some(JNum(NegInt(_))) =>
      x.JNum? && ((x.n.PosInt? && x.n.u < 0x8000_0000_0000_0000 && t.parseI64(text) == Some(x.n.u))
                  || (x.n.NegInt? && t.parseI64(text) == Some(x.n.i)))
    case Some(JNum(Float(_))) =>
      || (x.JNum? && x.n.Float? && t.parseF64(text) == Some(Finite(x.n.f)))
      || (x == JStr(text) && t.parseF64(text) == Some(NotFinite))
    case Some(JArr(_)) => t.read(text) == Some(x)
    case Some(JObj(_)) => t.read(text) == Some(x)
    case Some(JStr(_)) => x == JStr(text)
    case _ => if t.read(text).Some? then t.read(text) == Some(x) else x == JStr(text)
  }

  /** The error for a text that becomes nothing. */
  function Refusal(existing: Option<Json>): SetError {
    match existing
    case Some(JBool(_)) => BadBool
    case Some(JNum(Float(_))) => BadNumber
    case Some(JNum(_)) => BadInteger
    case Some(JArr(_)) => BadArray
    case _ => BadObject
  }

  /** A text is converted to the one value it becomes, and refused exactly when it becomes none. */
  lemma {:induction false} ConversionIsExact(t: Texts, existing: Option<Json>, text: string, x: Json)
    ensures Coerce(t, existing, text) == Ok(x) <==> Becomes(t, existing, text, x)
    ensures Coerce(t, existing, text).Err? ==> Coerce(t, existing, text) == Err(Refusal(existing))
  {
  }

  // ---- where it is written ----

  lemma {:induction false} MissingParent(t: Texts, j: Json, parts: Path, text: string)
    requires |parts| >= 1 && Get(j, parts[..|parts| - 1]).None?
    ensures SetAt(t, j, parts, text) == Err(PathNotFound)
    decreases |parts|
  {
    var parent := parts[..|parts| - 1];
    if |parts| > 1 && Field(j, parts[0]).Some? {
      assert parent[0] == parts[0] && parent[1..] == parts[1..][..|parts| - 2];
      MissingParent(t, j.fields[parts[0]], parts[1..], text);
    }
  }

  /** Neither path leads to the other. */
  predicate Apart(p: Path, q: Path) {
    !(p <= q) && !(q <= p)
  }

  /** The tree holds the value at the path, and every place apart from it as before. */
  ghost predicate WritesOnly(j: Json, w: Json, parts: Path, x: Json) {
    Get(w, parts) == Some(x) && forall q :: Apart(parts, q) ==> Get(w, q) == Get(j, q)
  }

  lemma {:induction false} FieldWritten(j: Json, key: string, x: Json)
    requires j.JObj?
    ensures WritesOnly(j, JObj(j.fields[key := x]), [key], x)
  {
    var w := JObj(j.fields[key := x]);
    GetField(w, key);
    forall q | Apart([key], q)
      ensures Get(w, q) == Get(j, q)
    {
      assert q != [] && q[0] == key ==> [key] <= q;
    }
  }

  lemma {:induction false} WrittenBelow(j: Json, key: string, v: Json, rest: Path, x: Json)
    requires j.JObj? && key in j.fields && WritesOnly(j.fields[key], v, rest, x)
    ensures WritesOnly(j, JObj(j.fields[key := v]), [key] + rest, x)
  {
    var w, parts := JObj(j.fields[key := v]), [key] + rest;
    assert parts[0] == key && parts[1..] == rest;
    forall q | Apart(parts, q)
      ensures Get(w, q) == Get(j, q)
    {
      if q[0] == key { ApartBelow(key, rest, q); }
    }
  }

  lemma {:induction false} ReplacedOnly(j: Json, a: Path, v: Json, b: Path, x: Json)
    requires Get(j, a).Some? && WritesOnly(Get(j, a).value, v, b, x)
    ensures WritesOnly(j, Replace(j, a, v), a + b, x)
    decreases |a|
  {
    if a == [] {
      assert a + b == b;
    } else {
      ghost var key, rest := a[0], a[1..];
      ghost var below := Replace(j.fields[key], rest, v);
      ReplacedOnly(j.fields[key], rest, v, b, x);
      WrittenBelow(j, key, below, rest + b, x);
      assert a + b == [key] + (rest + b);
    }
  }

  lemma {:induction false} ApartBelow(key: string, rest: Path, q: Path)
    requires q != [] && q[0] == key && Apart([key] + rest, q)
    ensures Apart(rest, q[1..])
  {
    assert q == [key] + q[1..];
  }

  /** Some value is what the text becomes. */
  ghost predicate Converts(t: Texts, existing: Option<Json>, text: string) {
    exists x :: Becomes(t, existing, text, x)
  }

  /** How a set ends whose text converts: the struct takes the tree with the value, or refuses it. */
  ghost predicate Applies(sch: Schema, j: Json, parts: Path, text: string, r: Result<Json, SetError>) {
    exists x, w :: Becomes(sch.text, Get(j, parts), text, x) && WritesOnly(j, w, parts, x) && IsDecoded(sch, w, r)
  }

  predicate IsDecoded(sch: Schema, w: Json, r: Result<Json, SetError>) {
    r == if sch.decode(w).Some? then Ok(sch.decode(w).value) else Err(NotApplied)
  }

  /** How setting a text ends, over every tree and path. The parent must exist, and be an object;
      the text must become a value over what is there; the struct must take the tree that has this
      value there and is otherwise as before. The first of these that fails gives the error. */
  lemma {:induction false} SetEndsExactly(sch: Schema, j: Json, path: string, text: string)
    ensures var parts, r := Split(path), SetText(sch, j, path, text);
            var parent, existing := Get(j, parts[..|parts| - 1]), Get(j, parts);
            if parent.None? then r == Err(PathNotFound)
            else if !parent.value.JObj? then r == Err(ParentNotObject)
            else if !Converts(sch.text, existing, text) then r == Err(Refusal(existing))
            else Applies(sch, j, parts, text, r)
  {
    var parts := Split(path);
    var front, key := parts[..|parts| - 1], parts[|parts| - 1];
    assert front + [key] == parts;
    if Get(j, front).None? {
      MissingParent(sch.text, j, parts, text);
    } else {
      GetConcat(j, front, [key]);
      GetField(Get(j, front).value, key);
      if Get(j, front).value.JObj? { ParentWritten(sch, j, front, key, text); }
      else { SetBelow(sch.text, j, front, [key], text); }
    }
  }

  lemma {:induction false} ParentWritten(sch: Schema, j: Json, front: Path, key: string, text: string)
    requires Get(j, front).Some? && Get(j, front).value.JObj?
    ensures var existing, r := Field(Get(j, front).value, key), SetAt(sch.text, j, front + [key], text);
            if !Converts(sch.text, existing, text) then r == Err(Refusal(existing))
            else r.Ok? && exists x ::
                   Becomes(sch.text, existing, text, x) && WritesOnly(j, r.value, front + [key], x)
  {
    var parent := Get(j, front).value;
    var existing := Field(parent, key);
    SetBelow(sch.text, j, front, [key], text);
    var c := Coerce(sch.text, existing, text);
    if c.Ok? {
      ConversionIsExact(sch.text, existing, text, c.value);
      FieldWritten(parent, key, c.value);
      ReplacedOnly(j, front, JObj(parent.fields[key := c.value]), [key], c.value);
    } else {
      forall x
        ensures !Becomes(sch.text, existing, text, x)
      {
        ConversionIsExact(sch.text, existing, text, x);
      }
      ConversionIsExact(sch.text, existing, text, JNull);
    }
  }
}
