/** The typed settings struct (src/settings.rs, Settings and its sections): what serde makes of a
    tree, field by field, for every struct built from the kinds of fields that Settings has. With
    it the database round trip needs no assumption about decoding. */
module SettingsTypes {
  import opened Wrappers
  import opened Jsons
  import opened SettingsPaths
  import opened SettingsTrees
  import opened SettingsRoundTrip

  /** A field: a leaf with the values it takes and its default; a section; an optional section,
      unset by default; or a map to leaves, empty by default. */
  datatype Type =
    | Plainly(takes: Json -> bool, default: Json)
    | Section(fields: map<string, Type>)
    | OptSection(fields: map<string, Type>)
    | Entries(takes: Json -> bool)

  /** No leaf is an object, and a leaf takes its default. */
  ghost predicate Sane(ty: Type)
    decreases ty
  {
    match ty
    case Plainly(takes, default) => takes(default) && forall v :: takes(v) ==> !v.JObj?
    case Section(fields) => forall key :: key in fields ==> Sane(fields[key])
    case OptSection(fields) => forall key :: key in fields ==> Sane(fields[key])
    case Entries(takes) => forall v :: takes(v) ==> !v.JObj?
  }

  function Default(ty: Type): Json
    decreases ty
  {
    match ty
    case Plainly(_, default) => default
    case Section(fields) => JObj(map key | key in fields :: Default(fields[key]))
    case OptSection(_) => JNull
    case Entries(_) => JObj(map[])
  }

  /** What the struct is written out as after it has read the tree: missing fields are filled
      with their defaults, unknown ones dropped, and one bad field refuses the whole. */
  function Decode(ty: Type, j: Json): Option<Json>
    decreases ty
  {
    match ty
    case Plainly(takes, _) => if takes(j) then Some(j) else None
    case Section(fields) => DecodeFields(ty, j)
    case OptSection(fields) => if j.JNull? then Some(JNull) else DecodeFields(ty, j)
    case Entries(takes) =>
      if j.JObj? && forall key :: key in j.fields ==> takes(j.fields[key]) then Some(j) else None
  }

  function DecodeFields(ty: Type, j: Json): Option<Json>
    requires ty.Section? || ty.OptSection?
    decreases ty, 0
  {
    if j.JObj? && forall key :: key in ty.fields ==> DecodeField(ty, j, key).Some? then
      Some(JObj(map key | key in ty.fields :: DecodeField(ty, j, key).value))
    else None
  }

  function DecodeField(ty: Type, j: Json, key: string): Option<Json>
    requires (ty.Section? || ty.OptSection?) && key in ty.fields && j.JObj?
    decreases ty, 0, 0
  {
    if key in j.fields then Decode(ty.fields[key], j.fields[key]) else Some(Default(ty.fields[key]))
  }

  function SchemaOf(ty: Type, t: Texts): Schema {
    Schema(t, j => Decode(ty, j), Default(ty))
  }

  // ---- trees the struct takes ----

  /** The struct takes the tree as it is. */
  predicate Typed(ty: Type, j: Json) {
    Decode(ty, j) == Some(j)
  }

  /** A set section has the fields of its type and no others, and each takes its value. */
  lemma {:induction false} TypedFields(ty: Type, j: Json)
    requires (ty.Section? || ty.OptSection?) && j.JObj?
    ensures Typed(ty, j)
       <==> j.fields.Keys == ty.fields.Keys && forall key :: key in ty.fields ==> Typed(ty.fields[key], j.fields[key])
  {
    var out := DecodeFields(ty, j);
    if j.fields.Keys == ty.fields.Keys && forall key :: key in ty.fields ==> Typed(ty.fields[key], j.fields[key]) {
      assert forall key :: key in ty.fields ==> DecodeField(ty, j, key) == Some(j.fields[key]);
      assert out.Some? && out.value.fields == j.fields;
    } else if out.Some? && out.value == j {
      assert j.fields.Keys == ty.fields.Keys;
      forall key | key in ty.fields
        ensures Typed(ty.fields[key], j.fields[key])
      {
        assert DecodeField(ty, j, key) == Some(out.value.fields[key]);
      }
    }
  }

  lemma {:induction false} DefaultIsTyped(ty: Type)
    requires Sane(ty)
    ensures Typed(ty, Default(ty))
    decreases ty
  {
    if ty.Section? {
      forall key | key in ty.fields
        ensures Typed(ty.fields[key], Default(ty).fields[key])
      {
        DefaultIsTyped(ty.fields[key]);
      }
      TypedFields(ty, Default(ty));
    }
  }

  // ---- one leaf written anew ----

  /** The type of the field at a path. */
  function TypeAt(ty: Type, path: Path): Option<Type>
    decreases |path|
  {
    if path == [] then Some(ty)
    else
      match ty
      case Plainly(_, _) => None
      case Section(fields) => if path[0] in fields then TypeAt(fields[path[0]], path[1..]) else None
      case OptSection(fields) => if path[0] in fields then TypeAt(fields[path[0]], path[1..]) else None
      case Entries(takes) => if |path| == 1 then Some(Plainly(takes, JNull)) else None
  }

  /** The values the field at a path takes. */
  predicate TakenAt(ty: Type, path: Path, v: Json) {
    TypeAt(ty, path).Some? && Typed(TypeAt(ty, path).value, v)
  }

  function FitsOf(ty: Type): Fits {
    (path, v) => TakenAt(ty, path, v)
  }

  /** One field of a set section changed: the section takes it exactly when the field does. */
  lemma {:induction false} OneFieldChanged(ty: Type, j: Json, key: string, x: Json)
    requires (ty.Section? || ty.OptSection?) && j.JObj? && Typed(ty, j) && key in ty.fields
    requires Decode(ty.fields[key], x) == Some(x) || Decode(ty.fields[key], x) == None
    ensures var w := JObj(j.fields[key := x]);
            Decode(ty, w) == if Typed(ty.fields[key], x) then Some(w) else None
  {
    var w := JObj(j.fields[key := x]);
    TypedFields(ty, j);
    if Typed(ty.fields[key], x) { TypedFields(ty, w); }
    else { assert DecodeField(ty, w, key).None?; }
  }

  /** A value that is no object stands in a leaf's place, or is null for a section that is unset. */
  lemma {:induction false} OnlyLeavesAreNoObjects(ty: Type, v: Json)
    requires Typed(ty, v) && !v.JObj?
    ensures ty.Plainly? || (ty.OptSection? && v.JNull?)
  {
    var refused := ty.Section? || (ty.OptSection? && !v.JNull?);
    assert refused ==> Decode(ty, v) == DecodeFields(ty, v);
  }

  /** What the text of a leaf becomes over another value of its field, the field takes or refuses. */
  lemma {:induction false} LeafIsTakenOrRefused(ty: Type, t: Texts, before: Json, v: Json)
    requires Typed(ty, before) && Typed(ty, v) && !v.JObj? && ReadsBack(t, v)
    ensures var r := Coerce(t, Some(before), ValueText(t, v));
            r.Ok? ==> Decode(ty, r.value) == Some(r.value) || Decode(ty, r.value) == None
  {
    OnlyLeavesAreNoObjects(ty, v);
  }

  /** A write into a map to leaves, at a key that the saved tree has. */
  lemma {:induction false} EntryWritten(ty: Type, j: Json, key: string, x: Json)
    requires ty.Entries? && Typed(ty, j)
    ensures j.JObj?
    ensures Decode(ty, JObj(j.fields[key := x])) == if ty.takes(x) then Some(JObj(j.fields[key := x])) else None
  {
    var w := JObj(j.fields[key := x]);
    if !ty.takes(x) { assert !ty.takes(w.fields[key]); }
  }

  lemma {:induction false} EntryLeafWritten(ty: Type, t: Texts, s: Json, j: Json, path: Path, v: Json)
    requires Sane(ty) && ty.Entries? && Typed(ty, s) && Typed(ty, j) && path != [] && LeafAt(s, path, v)
    requires SetAt(t, j, path, ValueText(t, v)).Ok?
    ensures var w := SetAt(t, j, path, ValueText(t, v)).value;
            Decode(ty, w) == if TakenAt(ty, path, Get(w, path).value) then Some(w) else None
  {
    var key, rest, text := path[0], path[1..], ValueText(t, v);
    var w := SetAt(t, j, path, text).value;
    assert rest == [] by { assert !s.fields[key].JObj?; }
    EntryWritten(ty, j, key, w.fields[key]);
    assert Get(w, path) == Some(w.fields[key]);
  }

  /** What a field of a set section becomes decides what the section becomes. */
  lemma {:induction false} FieldDecides(ty: Type, j: Json, w: Json, path: Path, x: Json)
    requires (ty.Section? || ty.OptSection?) && Typed(ty, j) && j.JObj? && path != [] && path[0] in ty.fields
    requires w.JObj? && path[0] in w.fields && w.fields == j.fields[path[0] := w.fields[path[0]]]
    requires var below, field := w.fields[path[0]], ty.fields[path[0]];
             Decode(field, below) == if TakenAt(field, path[1..], x) then Some(below) else None
    ensures Decode(ty, w) == if TakenAt(ty, path, x) then Some(w) else None
  {
    OneFieldChanged(ty, j, path[0], w.fields[path[0]]);
    assert TypeAt(ty, path) == TypeAt(ty.fields[path[0]], path[1..]);
  }

  /** A leaf of a saved tree written into another tree that the struct takes: the struct keeps
      the written tree as it is when the field takes the value, and refuses it otherwise. */
  lemma {:induction false} LeafWritten(ty: Type, t: Texts, s: Json, j: Json, path: Path, v: Json)
    requires Sane(ty) && Typed(ty, s) && Typed(ty, j) && path != [] && LeafAt(s, path, v) && ReadsBack(t, v)
    requires SetAt(t, j, path, ValueText(t, v)).Ok?
    ensures var w := SetAt(t, j, path, ValueText(t, v)).value;
            Decode(ty, w) == if TakenAt(ty, path, Get(w, path).value) then Some(w) else None
    decreases ty
  {
    if ty.Entries? {
      EntryLeafWritten(ty, t, s, j, path, v);
    } else {
      var key, rest := path[0], path[1..];
      var w := SetAt(t, j, path, ValueText(t, v)).value;
      TypedFields(ty, s);
      TypedFields(ty, j);
      assert Get(s, path) == Get(s.fields[key], rest) && Get(w, path) == Get(w.fields[key], rest);
      if rest == [] { LastWritten(ty.fields[key], t, s.fields[key], j.fields[key], w.fields[key], v); }
      else { LeafWritten(ty.fields[key], t, s.fields[key], j.fields[key], rest, v); }
      FieldDecides(ty, j, w, path, Get(w, path).value);
    }
  }

  /** The same at the field itself. */
  lemma {:induction false} LastWritten(ty: Type, t: Texts, s: Json, j: Json, x: Json, v: Json)
    requires Typed(ty, s) && Typed(ty, j) && LeafAt(s, [], v) && ReadsBack(t, v)
    requires Coerce(t, Some(j), ValueText(t, v)) == Ok(x)
    ensures Decode(ty, x) == if TakenAt(ty, [], x) then Some(x) else None
  {
    assert Get(s, []) == Some(s);
    LeafIsTakenOrRefused(ty, t, j, v);
  }

  // ---- the round trip of the typed struct ----

  /** The struct decodes field by field. */
  lemma {:induction false} StructIsFieldwise(ty: Type, t: Texts, s: Json)
    requires Sane(ty) && ty.Section? && Typed(ty, s) && LeavesReadBack(t, s)
    ensures Saved(SchemaOf(ty, t), s, FitsOf(ty))
  {
    var sch, fits := SchemaOf(ty, t), FitsOf(ty);
    forall j: Json, path: Path, v: Json | sch.decode(j) == Some(j) && path != [] && LeafAt(s, path, v)
      ensures WriteDecodes(sch, fits, j, path, SetAt(t, j, path, ValueText(t, v)))
    {
      if SetAt(t, j, path, ValueText(t, v)).Ok? { LeafWritten(ty, t, s, j, path, v); }
    }
    DefaultIsTyped(ty);
    if !s.JObj? { OnlyLeavesAreNoObjects(ty, s); }
  }

  /** What comes back, read off the types: an optional section only when it is unset; a leaf when
      its default takes its kind; the entries of a map unless they are strings that read as JSON. */
  predicate ComesBack(ty: Type, t: Texts, s: Json)
    decreases ty
  {
    match ty
    case Plainly(_, default) => if s.JNull? then default.JNull? else Takes(t, Some(default), s)
    case Section(fields) =>
      s.JObj? && forall key :: key in fields && key in s.fields ==> ComesBack(fields[key], t, s.fields[key])
    case OptSection(_) => s.JNull?
    case Entries(_) =>
      s.JObj? && forall key :: key in s.fields ==> !s.fields[key].JNull? && Takes(t, None, s.fields[key])
  }

  lemma {:induction false} RestoresByType(ty: Type, t: Texts, s: Json)
    requires Sane(ty) && Typed(ty, s)
    ensures Restores(t, Some(Default(ty)), s) <==> ComesBack(ty, t, s)
    decreases ty
  {
    var d := Default(ty);
    if ty.Section? && s.JObj? {
      TypedFields(ty, s);
      forall key | key in ty.fields
        ensures Field(d, key) == Some(Default(ty.fields[key])) && Typed(ty.fields[key], s.fields[key])
        ensures Restores(t, Field(d, key), s.fields[key]) <==> ComesBack(ty.fields[key], t, s.fields[key])
      {
        RestoresByType(ty.fields[key], t, s.fields[key]);
      }
    } else if ty.Entries? {
      forall key | key in s.fields
        ensures Restores(t, Field(d, key), s.fields[key])
           <==> !s.fields[key].JNull? && Takes(t, None, s.fields[key])
      {
        assert Field(d, key) == None && ty.takes(s.fields[key]) && !s.fields[key].JObj?;
      }
    } else if !s.JObj? {
      OnlyLeavesAreNoObjects(ty, s);
    }
  }

  /** Every settings struct of these fields, with any values: saved flat and loaded in any order
      it comes back as it was exactly when each field does. */
  lemma {:induction false} SettingsComeBack(ty: Type, t: Texts, s: Json, m: map<string, Json>, order: seq<string>)
    requires Lawful(t) && Sane(ty) && ty.Section? && Typed(ty, s) && LeavesReadBack(t, s) && PlainKeys(s)
    requires IsFlat(m, s) && Enumerates(order, m.Keys)
    ensures ApplyAll(SchemaOf(ty, t), m, order) == s <==> ComesBack(ty, t, s)
  {
    StructIsFieldwise(ty, t, s);
    RoundTrip(SchemaOf(ty, t), FitsOf(ty), s, m, order);
    RestoresByType(ty, t, s);
  }

  // ---- a user id of digits ----

  predicate OptText(v: Json) { v.JNull? || v.JStr? }

  predicate Flag(v: Json) { v.JBool? }

  const HEARTBEAT: Type := Section(map["notify_user" := Plainly(OptText, JNull)])
  const TRANSCRIPTION: Type := OptSection(map["enabled" := Plainly(Flag, JBool(false))])

  /** Two of the sections of Settings. */
  const TWO_SECTIONS: Type := Section(map["heartbeat" := HEARTBEAT, "transcription" := TRANSCRIPTION])

  function WithUser(user: string): Json {
    JObj(map["heartbeat" := Heartbeat(user), "transcription" := JNull])
  }

  const USER: Path := ["heartbeat", "notify_user"]

  function Heartbeat(user: string): Json {
    JObj(map["notify_user" := JStr(user)])
  }

  lemma {:induction false} HeartbeatIsTyped(user: string)
    ensures Typed(HEARTBEAT, Heartbeat(user)) && Sane(HEARTBEAT) && Sane(TRANSCRIPTION)
  {
    TypedFields(HEARTBEAT, Heartbeat(user));
  }

  lemma {:induction false} WithUserIsTyped(user: string)
    ensures Sane(TWO_SECTIONS) && Typed(TWO_SECTIONS, WithUser(user))
  {
    HeartbeatIsTyped(user);
    assert Typed(TRANSCRIPTION, JNull);
    TypedFields(TWO_SECTIONS, WithUser(user));
  }

  lemma {:induction false} UserIsThere(user: string)
    ensures Get(WithUser(user), USER) == Some(JStr(user)) && Get(Default(TWO_SECTIONS), USER) == Some(JNull)
  {
    assert USER[1..] == ["notify_user"] && USER[1..][1..] == [];
    assert Get(Heartbeat(user), USER[1..]) == Some(JStr(user));
    assert Get(Default(HEARTBEAT), USER[1..]) == Some(JNull);
  }

  lemma {:induction false} WithUserIsPlain(user: string)
    ensures PlainKeys(WithUser(user))
  {
    assert PlainKeys(Heartbeat(user)) && PlainKeys(JNull);
  }

  lemma {:induction false} LeavesOfUser(user: string, path: Path, v: Json)
    requires LeafAt(WithUser(user), path, v)
    ensures v == JStr(user) || v == JNull
  {
    assert path != [];
    var below, rest := WithUser(user).fields[path[0]], path[1..];
    assert Get(below, rest) == Some(v);
    if rest != [] { assert Get(below.fields[rest[0]], rest[1..]) == Some(v); }
  }

  lemma {:induction false} UserReadsBack(t: Texts, user: string)
    requires ReadsBack(t, JNull)
    ensures LeavesReadBack(t, WithUser(user))
  {
    forall path, v | LeafAt(WithUser(user), path, v)
      ensures ReadsBack(t, v)
    {
      LeavesOfUser(user, path, v);
    }
  }

  lemma {:induction false} NumbersAreRefused(n: Number)
    ensures !FitsOf(TWO_SECTIONS)(USER, JNum(n))
  {
    assert TWO_SECTIONS.fields["heartbeat"] == HEARTBEAT && USER[1..] == ["notify_user"] && USER[1..][1..] == [];
    assert TypeAt(HEARTBEAT, USER[1..]) == Some(Plainly(OptText, JNull));
  }

  lemma {:induction false} HeartbeatComesBackWhen(t: Texts, user: string)
    ensures ComesBack(HEARTBEAT, t, Heartbeat(user)) <==> t.read(user).None?
  {
    var field, value := HEARTBEAT.fields["notify_user"], Heartbeat(user).fields["notify_user"];
    assert ComesBack(field, t, value) <==> Takes(t, Some(JNull), JStr(user));
  }

  lemma {:induction false} UserComesBackWhen(t: Texts, user: string)
    ensures ComesBack(TWO_SECTIONS, t, WithUser(user)) <==> t.read(user).None?
  {
    HeartbeatComesBackWhen(t, user);
    assert WithUser(user).fields["heartbeat"] == Heartbeat(user) && TWO_SECTIONS.fields["heartbeat"] == HEARTBEAT;
    assert ComesBack(TRANSCRIPTION, t, JNull);
  }

  /** With a user id to notify and transcription unset, the tree comes back exactly when the id
      is no JSON text. */
  lemma {:induction false} UserIdComesBack(t: Texts, user: string, m: map<string, Json>, order: seq<string>)
    requires Lawful(t) && ReadsBack(t, JNull) && IsFlat(m, WithUser(user)) && Enumerates(order, m.Keys)
    ensures ApplyAll(SchemaOf(TWO_SECTIONS, t), m, order) == WithUser(user) <==> t.read(user).None?
  {
    WithUserIsTyped(user);
    WithUserIsPlain(user);
    UserReadsBack(t, user);
    SettingsComeBack(TWO_SECTIONS, t, WithUser(user), m, order);
    UserComesBackWhen(t, user);
  }

  /** An id of digits, the most natural one, comes back unset. */
  lemma {:induction false} NumericUserIsUnset(
    t: Texts, user: string, n: Number, m: map<string, Json>, order: seq<string>)
    requires Lawful(t) && ReadsBack(t, JNull) && IsFlat(m, WithUser(user)) && Enumerates(order, m.Keys)
    requires t.read(user) == Some(JNum(n))
    ensures Get(ApplyAll(SchemaOf(TWO_SECTIONS, t), m, order), USER) == Some(JNull)
  {
    var sch := SchemaOf(TWO_SECTIONS, t);
    WithUserIsTyped(user);
    WithUserIsPlain(user);
    UserReadsBack(t, user);
    StructIsFieldwise(TWO_SECTIONS, t, WithUser(user));
    UserIsThere(user);
    NumbersAreRefused(n);
    JsonLookingStringIsLost(sch, FitsOf(TWO_SECTIONS), WithUser(user), m, order, USER, user, JNum(n));
  }
}
