/** Saving a settings tree flat and loading it over the defaults (src/settings.rs, to_db_map and
    from_db_map): what comes back, in any order of the entries, and when it is what was saved. */
module SettingsRoundTrip {
  import opened Wrappers
  import opened Jsons
  import opened SettingsPaths
  import opened SettingsTrees

  // ---- what reading back a text gives ----

  /** The number parsers read back what they print; no text is the JSON text of itself. */
  ghost predicate Lawful(t: Texts) {
    && (forall x: string :: t.read(x) != Some(JStr(x)))
    && (forall u: U64 :: t.parseU64(t.show(JNum(PosInt(u)))) == Some(u))
    && (forall u: U64 :: t.parseI64(t.show(JNum(PosInt(u)))) == if u < 0x8000_0000_0000_0000 then Some(u) else None)
    && (forall i: Neg64 :: t.parseI64(t.show(JNum(NegInt(i)))) == Some(i))
    && (forall f: FiniteBits :: t.parseF64(t.show(JNum(Float(f)))) == Some(Finite(f)))
  }

  /** The text of a value reads as that value. This can fail: the parser has a depth limit. */
  predicate ReadsBack(t: Texts, v: Json) {
    !v.JStr? ==> t.read(ValueText(t, v)) == Some(v)
  }

  /** Every leaf of the tree reads back. */
  ghost predicate LeavesReadBack(t: Texts, s: Json) {
    forall path, v :: LeafAt(s, path, v) ==> ReadsBack(t, v)
  }

  /** The kinds of values that a value written over `existing` keeps. */
  predicate Takes(t: Texts, existing: Option<Json>, v: Json) {
    match existing
    case None => v.JStr? ==> t.read(v.s).None?
    case Some(JNull) => v.JStr? ==> t.read(v.s).None?
    case Some(JBool(_)) => v.JBool?
    case Some(JNum(PosInt(_))) => v.JNum? && v.n.PosInt?
    case Some(JNum(NegInt(_))) => v.JNum? && (v.n.NegInt? || (v.n.PosInt? && v.n.u < 0x8000_0000_0000_0000))
    case Some(JNum(Float(_))) => (v.JNum? && v.n.Float?) || (v.JStr? && t.parseF64(v.s) == Some(NotFinite))
    case Some(JArr(_)) => !v.JStr?
    case Some(JObj(_)) => !v.JStr?
    case Some(JStr(_)) => v.JStr?
  }

  /** Which values a field takes, by the place of the field. */
  type Fits = (Path, Json) -> bool

  /** The same below one key. */
  function Below(fits: Fits, key: string): Fits {
    (path, v) => fits([key] + path, v)
  }

  /** What is left after writing the text of `v` over `existing`, in a field at the root of `fits`. */
  function Written(t: Texts, fits: Fits, existing: Option<Json>, v: Json): Option<Json> {
    WriteOver(t, fits, [], existing, ValueText(t, v))
  }

  /** A text that cannot be converted, or a value that the field refuses, leaves the old one. */
  function WriteOver(t: Texts, fits: Fits, path: Path, existing: Option<Json>, text: string): Option<Json> {
    match Coerce(t, existing, text)
    case Ok(x) => if fits(path, x) then Some(x) else existing
    case Err(_) => existing
  }

  lemma {:induction false} WrittenStays(t: Texts, fits: Fits, existing: Option<Json>, v: Json)
    requires Lawful(t) && ReadsBack(t, v) && fits([], v)
    ensures Written(t, fits, existing, v) == Some(v) <==> Takes(t, existing, v)
  {
    if v.JStr? { assert t.read(v.s) != Some(JStr(v.s)); }
  }

  // ---- what comes back ----

  /** What loading leaves at a place where the defaults have `d` and the saved tree had `s`. */
  function Back(t: Texts, fits: Fits, d: Option<Json>, s: Json): Option<Json>
    decreases s
  {
    if !s.JObj? then if s.JNull? then d else Written(t, fits, d, s)
    else if d.None? || !d.value.JObj? then d
    else Some(JObj(map key | key in d.value.fields.Keys + s.fields.Keys
                           && BackField(t, fits, d.value, s, key).Some? ::
                     BackField(t, fits, d.value, s, key).value))
  }

  function BackField(t: Texts, fits: Fits, d: Json, s: Json, key: string): Option<Json>
    requires s.JObj?
    decreases s, 0
  {
    if key in s.fields then Back(t, Below(fits, key), Field(d, key), s.fields[key]) else Field(d, key)
  }

  /** Nothing is lost: the defaults' objects are objects still, with their keys; new keys hold
      leaves only; and every leaf is of a kind that its place takes, null only where null is. */
  predicate Restores(t: Texts, d: Option<Json>, s: Json)
    decreases s
  {
    if s.JNull? then d == Some(JNull)
    else if !s.JObj? then Takes(t, d, s)
    else
      && d.Some? && d.value.JObj? && d.value.fields.Keys <= s.fields.Keys
      && forall key :: key in s.fields ==> Restores(t, Field(d.value, key), s.fields[key])
  }

  /** Every leaf of the tree is a value that its own field takes and that reads back. */
  ghost predicate OwnLeavesFit(t: Texts, fits: Fits, s: Json) {
    forall path, v :: LeafAt(s, path, v) ==> fits(path, v) && ReadsBack(t, v)
  }

  lemma {:induction false} LeafBelow(s: Json, key: string, path: Path, v: Json)
    requires s.JObj? && key in s.fields && LeafAt(s.fields[key], path, v)
    ensures LeafAt(s, [key] + path, v)
  {
    assert ([key] + path)[1..] == path;
  }

  lemma {:induction false} OwnLeavesFitBelow(t: Texts, fits: Fits, s: Json, key: string)
    requires s.JObj? && key in s.fields && OwnLeavesFit(t, fits, s)
    ensures OwnLeavesFit(t, Below(fits, key), s.fields[key])
  {
    forall path, v | LeafAt(s.fields[key], path, v)
      ensures Below(fits, key)(path, v) && ReadsBack(t, v)
    {
      LeafBelow(s, key, path, v);
    }
  }

  lemma {:induction false} BackWhenRestored(t: Texts, fits: Fits, d: Option<Json>, s: Json)
    requires Lawful(t) && OwnLeavesFit(t, fits, s)
    ensures Back(t, fits, d, s) == Some(s) <==> Restores(t, d, s)
    decreases s
  {
    if !s.JObj? {
      assert LeafAt(s, [], s);
      WrittenStays(t, fits, d, s);
    } else if d.Some? && d.value.JObj? {
      var b := Back(t, fits, d, s).value;
      forall key
        ensures key in b.fields <==> BackField(t, fits, d.value, s, key).Some?
        ensures key in b.fields ==> Some(b.fields[key]) == BackField(t, fits, d.value, s, key)
        ensures key in s.fields ==>
                  (BackField(t, fits, d.value, s, key) == Some(s.fields[key])
                   <==> Restores(t, Field(d.value, key), s.fields[key]))
      {
        if key in s.fields {
          OwnLeavesFitBelow(t, fits, s, key);
          BackWhenRestored(t, Below(fits, key), Field(d.value, key), s.fields[key]);
        }
      }
      if Restores(t, d, s) {
        assert b.fields == s.fields;
      } else if b == s {
        assert forall key :: key in d.value.fields ==> key in b.fields;
      }
    }
  }

  // ---- on the way ----

  function Tails(done: set<Path>, key: string): set<Path> {
    set path | path in done && path != [] && path[0] == key :: path[1..]
  }

  /** The tree after the leaves at the paths in `done` have been loaded. */
  function Mid(t: Texts, fits: Fits, d: Option<Json>, s: Json, done: set<Path>): Option<Json>
    decreases s
  {
    if !s.JObj? then if s.JNull? || [] !in done then d else Written(t, fits, d, s)
    else if d.None? || !d.value.JObj? then d
    else Some(JObj(map key | key in d.value.fields.Keys + s.fields.Keys
                           && MidField(t, fits, d.value, s, done, key).Some? ::
                     MidField(t, fits, d.value, s, done, key).value))
  }

  function MidField(t: Texts, fits: Fits, d: Json, s: Json, done: set<Path>, key: string): Option<Json>
    requires s.JObj?
    decreases s, 0
  {
    if key in s.fields then Mid(t, Below(fits, key), Field(d, key), s.fields[key], Tails(done, key)) else Field(d, key)
  }

  lemma {:induction false} MidFieldIs(t: Texts, fits: Fits, d: Json, s: Json, done: set<Path>, key: string)
    requires d.JObj? && s.JObj?
    ensures Mid(t, fits, Some(d), s, done).Some? && Mid(t, fits, Some(d), s, done).value.JObj?
    ensures Field(Mid(t, fits, Some(d), s, done).value, key) == MidField(t, fits, d, s, done, key)
  {
  }

  /** Trees with the same fields are the same. */
  lemma {:induction false} FieldsDetermine(a: Json, b: Json)
    requires a.JObj? && b.JObj? && forall key :: Field(a, key) == Field(b, key)
    ensures a == b
  {
    assert forall key :: key in a.fields <==> Field(a, key).Some?;
    assert forall key :: key in b.fields <==> Field(b, key).Some?;
    assert forall key :: key in a.fields ==> Field(a, key) == Some(a.fields[key]);
    assert forall key :: key in b.fields ==> Field(b, key) == Some(b.fields[key]);
    assert a.fields == b.fields;
  }

  lemma {:induction false} MidStart(t: Texts, fits: Fits, d: Option<Json>, s: Json)
    ensures Mid(t, fits, d, s, {}) == d
    decreases s
  {
    if s.JObj? && d.Some? && d.value.JObj? {
      forall key
        ensures Field(Mid(t, fits, d, s, {}).value, key) == Field(d.value, key)
      {
        MidFieldIs(t, fits, d.value, s, {}, key);
        if key in s.fields {
          assert Tails({}, key) == {};
          MidStart(t, Below(fits, key), Field(d.value, key), s.fields[key]);
        }
      }
      FieldsDetermine(Mid(t, fits, d, s, {}).value, d.value);
    }
  }

  lemma {:induction false} MidEnd(t: Texts, fits: Fits, d: Option<Json>, s: Json, done: set<Path>)
    requires forall path, v :: LeafAt(s, path, v) ==> path in done
    ensures Mid(t, fits, d, s, done) == Back(t, fits, d, s)
    decreases s
  {
    if !s.JObj? {
      assert LeafAt(s, [], s);
    } else if d.Some? && d.value.JObj? {
      forall key
        ensures Field(Mid(t, fits, d, s, done).value, key) == Field(Back(t, fits, d, s).value, key)
      {
        MidFieldIs(t, fits, d.value, s, done, key);
        if key in s.fields {
          forall path, v | LeafAt(s.fields[key], path, v)
            ensures path in Tails(done, key)
          {
            LeafBelow(s, key, path, v);
            assert ([key] + path)[1..] == path;
          }
          MidEnd(t, Below(fits, key), Field(d.value, key), s.fields[key], Tails(done, key));
        }
      }
      FieldsDetermine(Mid(t, fits, d, s, done).value, Back(t, fits, d, s).value);
    }
  }

  /** One more null leaf changes nothing. */
  lemma {:induction false} MidNull(t: Texts, fits: Fits, d: Option<Json>, s: Json, done: set<Path>, path: Path)
    requires LeafAt(s, path, JNull)
    ensures Mid(t, fits, d, s, done + {path}) == Mid(t, fits, d, s, done)
    decreases s
  {
    if s.JObj? && d.Some? && d.value.JObj? {
      forall key
        ensures Field(Mid(t, fits, d, s, done + {path}).value, key) == Field(Mid(t, fits, d, s, done).value, key)
      {
        MidFieldIs(t, fits, d.value, s, done, key);
        MidFieldIs(t, fits, d.value, s, done + {path}, key);
        TailsAdd(done, path, key);
        if key == path[0] {
          MidNull(t, Below(fits, key), Field(d.value, key), s.fields[key], Tails(done, key), path[1..]);
        }
      }
      FieldsDetermine(Mid(t, fits, d, s, done + {path}).value, Mid(t, fits, d, s, done).value);
    }
  }

  lemma {:induction false} TailsAdd(done: set<Path>, path: Path, key: string)
    requires path != []
    ensures Tails(done + {path}, key) == if key == path[0] then Tails(done, key) + {path[1..]} else Tails(done, key)
  {
  }

  /** One write into the whole tree, kept when the field takes the value. */
  function SetOrKeep(t: Texts, fits: Fits, j: Json, path: Path, text: string): Json
    requires |path| >= 1
  {
    match SetAt(t, j, path, text)
    case Ok(x) => if fits(path, Get(x, path).value) then x else j
    case Err(_) => j
  }

  function WriteBelow(t: Texts, fits: Fits, existing: Option<Json>, rest: Path, text: string): Option<Json> {
    if rest == [] then WriteOver(t, fits, [], existing, text)
    else if existing.None? then None
    else Some(SetOrKeep(t, fits, existing.value, rest, text))
  }

  /** Writing below one key touches no other. */
  lemma {:induction false} SetOrKeepField(t: Texts, fits: Fits, j: Json, path: Path, text: string, key: string)
    requires |path| >= 1 && j.JObj?
    ensures SetOrKeep(t, fits, j, path, text).JObj?
    ensures Field(SetOrKeep(t, fits, j, path, text), key) ==
            if key != path[0] then Field(j, key)
            else WriteBelow(t, Below(fits, key), Field(j, key), path[1..], text)
  {
    var first, rest := path[0], path[1..];
    assert [first] + rest == path;
    var w := SetAt(t, j, path, text);
    if w.Ok? {
      assert Get(w.value.fields[first], rest) == Get(w.value, path);
      assert forall v :: Below(fits, first)(rest, v) == fits(path, v);
    }
  }

  /** One more leaf on the way is one more write. */
  lemma {:induction false} MidStep(t: Texts, fits: Fits, d: Json, s: Json, done: set<Path>, path: Path, v: Json)
    requires d.JObj? && s.JObj? && LeafAt(s, path, v) && !v.JNull? && path !in done
    ensures path != [] && Mid(t, fits, Some(d), s, done).Some?
    ensures Mid(t, fits, Some(d), s, done + {path})
         == Some(SetOrKeep(t, fits, Mid(t, fits, Some(d), s, done).value, path, ValueText(t, v)))
    decreases s
  {
    var key := path[0];
    var m, n := Mid(t, fits, Some(d), s, done).value, Mid(t, fits, Some(d), s, done + {path}).value;
    var w := SetOrKeep(t, fits, m, path, ValueText(t, v));
    forall k
      ensures Field(n, k) == Field(w, k)
    {
      MidFieldIs(t, fits, d, s, done, k);
      MidFieldIs(t, fits, d, s, done + {path}, k);
      TailsAdd(done, path, k);
      SetOrKeepField(t, fits, m, path, ValueText(t, v), k);
      if k == key { MidStepBelow(t, fits, d, s, done, path, v); }
    }
    MidFieldIs(t, fits, d, s, done, key);
    MidFieldIs(t, fits, d, s, done + {path}, key);
    SetOrKeepField(t, fits, m, path, ValueText(t, v), key);
    FieldsDetermine(n, w);
  }

  lemma {:induction false} MidStepBelow(t: Texts, fits: Fits, d: Json, s: Json, done: set<Path>, path: Path, v: Json)
    requires d.JObj? && s.JObj? && LeafAt(s, path, v) && !v.JNull? && path !in done
    ensures path != [] && path[0] in s.fields
    ensures Mid(t, Below(fits, path[0]), Field(d, path[0]), s.fields[path[0]], Tails(done, path[0]) + {path[1..]})
         == WriteBelow(t, Below(fits, path[0]), MidField(t, fits, d, s, done, path[0]), path[1..], ValueText(t, v))
    decreases s, 0
  {
    var key, rest := path[0], path[1..];
    assert path == [key] + rest;
    forall p | p in done && p != [] && p[0] == key
      ensures p[1..] != rest
    {
      assert p == [key] + p[1..];
    }
    assert Get(s.fields[key], rest) == Some(v);
    if |path| > 1 {
      var f := Field(d, key);
      assert s.fields[key].JObj?;
      if f.Some? && f.value.JObj? {
        MidStep(t, Below(fits, key), f.value, s.fields[key], Tails(done, key), rest, v);
      }
    }
  }

  // ---- the struct ----

  /** Field-wise decoding of what a load of `s` may write: a tree with one leaf written anew, from
      the text of the leaf that `s` has there, comes back from the struct as it is when the field
      takes the value, and is refused when it does not. */
  ghost predicate Fieldwise(sch: Schema, s: Json, fits: Fits) {
    forall j: Json, path: Path, v: Json ::
      sch.decode(j) == Some(j) && path != [] && LeafAt(s, path, v) ==>
        WriteDecodes(sch, fits, j, path, SetAt(sch.text, j, path, ValueText(sch.text, v)))
  }

  predicate WriteDecodes(sch: Schema, fits: Fits, j: Json, path: Path, w: Result<Json, SetError>) {
    w.Ok? && Get(w.value, path).Some? ==>
      sch.decode(w.value) == if fits(path, Get(w.value, path).value) then Some(w.value) else None
  }

  /** The defaults and the saved tree are settings, written out by the struct, and the struct
      decodes field by field. */
  ghost predicate Saved(sch: Schema, s: Json, fits: Fits) {
    && sch.defaults.JObj? && s.JObj?
    && sch.decode(sch.defaults) == Some(sch.defaults) && sch.decode(s) == Some(s)
    && Fieldwise(sch, s, fits)
  }

  /** A settings tree takes its own leaves. */
  lemma {:induction false} OwnLeafFits(sch: Schema, s: Json, fits: Fits, path: Path, v: Json)
    requires Lawful(sch.text) && Saved(sch, s, fits) && LeafAt(s, path, v) && ReadsBack(sch.text, v)
    ensures fits(path, v)
  {
    assert path != [];
    var text := ValueText(sch.text, v);
    OwnTextStays(sch.text, v);
    SetAtKnown(sch.text, s, path, text);
    assert WriteDecodes(sch, fits, s, path, SetAt(sch.text, s, path, text));
  }

  lemma {:induction false} OwnTextStays(t: Texts, v: Json)
    requires Lawful(t) && ReadsBack(t, v) && !v.JObj?
    ensures Coerce(t, Some(v), ValueText(t, v)) == Ok(v)
  {
  }

  /** Writing a value at its own place gives the same tree. */
  lemma {:induction false} SetAtKnown(t: Texts, j: Json, path: Path, text: string)
    requires |path| >= 1 && Get(j, path).Some?
    ensures SetAt(t, j, path, text).Ok? <==> Coerce(t, Get(j, path), text).Ok?
    ensures Coerce(t, Get(j, path), text) == Ok(Get(j, path).value) ==> SetAt(t, j, path, text) == Ok(j)
    decreases |path|
  {
    var key, rest := path[0], path[1..];
    assert j.fields[key := j.fields[key]] == j.fields;
    if rest != [] { SetAtKnown(t, j.fields[key], rest, text); }
    else { assert Get(j.fields[key], rest) == Some(j.fields[key]); }
  }

  // ---- the whole load ----

  /** Keys without dots, and not empty, at every depth. */
  ghost predicate PlainKeys(j: Json)
    decreases j
  {
    j.JObj? ==> forall key :: key in j.fields ==> Plain(key) && PlainKeys(j.fields[key])
  }

  lemma {:induction false} PathsArePlain(j: Json, path: Path)
    requires PlainKeys(j) && Get(j, path).Some?
    ensures AllPlain(path)
    decreases |path|
  {
    if path != [] { PathsArePlain(j.fields[path[0]], path[1..]); }
  }

  function Loaded(order: seq<string>): set<Path> {
    set key | key in order :: Split(key)
  }

  /** A flat key and its value are a leaf of the saved tree, at the path the key splits into. */
  lemma {:induction false} FlatKeyIsLeaf(m: map<string, Json>, s: Json, key: string)
    requires s.JObj? && PlainKeys(s) && IsFlat(m, s) && key in m
    ensures LeafAt(s, Split(key), m[key]) && PathText(Split(key)) == key
  {
    var path :| LeafAt(s, path, m[key]) && TextFrom("", path) == key;
    PathsArePlain(s, path);
    SplitJoined(path);
  }

  /** An entry of the saved tree is one write that the struct keeps or refuses. */
  lemma {:induction false} EntryIsWrite(sch: Schema, s: Json, fits: Fits, j: Json, key: string, v: Json)
    requires Saved(sch, s, fits) && sch.decode(j) == Some(j) && LeafAt(s, Split(key), v) && !v.JNull?
    ensures ApplyEntry(sch, j, key, v) == SetOrKeep(sch.text, fits, j, Split(key), ValueText(sch.text, v))
    ensures var next := ApplyEntry(sch, j, key, v); sch.decode(next) == Some(next)
  {
    assert WriteDecodes(sch, fits, j, Split(key), SetAt(sch.text, j, Split(key), ValueText(sch.text, v)));
  }

  lemma {:induction false} EntryIsMidStep(
    sch: Schema, fits: Fits, s: Json, m: map<string, Json>, done: set<Path>, j: Json, key: string)
    requires Saved(sch, s, fits) && PlainKeys(s) && IsFlat(m, s)
    requires Mid(sch.text, fits, Some(sch.defaults), s, done) == Some(j) && sch.decode(j) == Some(j)
    requires key in m && Split(key) !in done
    ensures var next := ApplyEntry(sch, j, key, m[key]);
            && Mid(sch.text, fits, Some(sch.defaults), s, done + {Split(key)}) == Some(next)
            && sch.decode(next) == Some(next)
  {
    var path, v := Split(key), m[key];
    FlatKeyIsLeaf(m, s, key);
    if v.JNull? {
      MidNull(sch.text, fits, Some(sch.defaults), s, done, path);
    } else {
      EntryIsWrite(sch, s, fits, j, key, v);
      MidStep(sch.text, fits, sch.defaults, s, done, path, v);
    }
  }

  lemma {:induction false} LoadIsMid(sch: Schema, fits: Fits, s: Json, m: map<string, Json>, order: seq<string>)
    requires Saved(sch, s, fits) && PlainKeys(s) && IsFlat(m, s)
    requires forall key :: key in order ==> key in m
    requires forall i, j :: 0 <= i < j < |order| ==> order[i] != order[j]
    ensures var j := ApplyAll(sch, m, order);
            Mid(sch.text, fits, Some(sch.defaults), s, Loaded(order)) == Some(j) && sch.decode(j) == Some(j)
    decreases |order|
  {
    if order == [] {
      assert Loaded(order) == {};
      MidStart(sch.text, fits, Some(sch.defaults), s);
    } else {
      var rest, key := order[..|order| - 1], order[|order| - 1];
      LoadIsMid(sch, fits, s, m, rest);
      assert Loaded(order) == Loaded(rest) + {Split(key)};
      forall k | k in rest
        ensures Split(k) != Split(key)
      {
        FlatKeyIsLeaf(m, s, k);
        FlatKeyIsLeaf(m, s, key);
      }
      EntryIsMidStep(sch, fits, s, m, Loaded(rest), ApplyAll(sch, m, rest), key);
    }
  }

  /** The order of the entries does not matter: what loads is what comes back at the root. */
  lemma {:induction false} LoadIsBack(sch: Schema, fits: Fits, s: Json, m: map<string, Json>, order: seq<string>)
    requires Saved(sch, s, fits) && PlainKeys(s)
    requires IsFlat(m, s) && Enumerates(order, m.Keys)
    ensures Back(sch.text, fits, Some(sch.defaults), s) == Some(ApplyAll(sch, m, order))
  {
    LoadIsMid(sch, fits, s, m, order);
    forall path, v | LeafAt(s, path, v)
      ensures path in Loaded(order)
    {
      PathsArePlain(s, path);
      assert path != [];
      SplitJoined(path);
      assert PathText(path) in order;
    }
    MidEnd(sch.text, fits, Some(sch.defaults), s, Loaded(order));
  }

  /** Saved flat and loaded in any order, a settings tree comes back as it was exactly when it
      keeps the defaults' objects and every leaf is of a kind its place takes. */
  lemma {:induction false} RoundTrip(sch: Schema, fits: Fits, s: Json, m: map<string, Json>, order: seq<string>)
    requires Lawful(sch.text) && LeavesReadBack(sch.text, s) && Saved(sch, s, fits) && PlainKeys(s)
    requires IsFlat(m, s) && Enumerates(order, m.Keys)
    ensures ApplyAll(sch, m, order) == s <==> Restores(sch.text, Some(sch.defaults), s)
  {
    LoadIsBack(sch, fits, s, m, order);
    forall path, v | LeafAt(s, path, v)
      ensures fits(path, v) && ReadsBack(sch.text, v)
    {
      OwnLeafFits(sch, s, fits, path, v);
    }
    BackWhenRestored(sch.text, fits, Some(sch.defaults), s);
  }

  // ---- what is lost ----

  /** What a load leaves at the place of a leaf that the defaults have too. */
  lemma {:induction false} LoadedLeaf(
    sch: Schema, fits: Fits, s: Json, m: map<string, Json>, order: seq<string>, path: Path, v: Json)
    requires Saved(sch, s, fits) && PlainKeys(s) && IsFlat(m, s) && Enumerates(order, m.Keys)
    requires LeafAt(s, path, v) && !v.JNull? && Get(sch.defaults, path).Some?
    ensures Get(ApplyAll(sch, m, order), path)
         == WriteOver(sch.text, fits, path, Get(sch.defaults, path), ValueText(sch.text, v))
  {
    LoadIsBack(sch, fits, s, m, order);
    BackAtLeaf(sch.text, fits, Some(sch.defaults), s, path, v);
  }

  /** A string over a null default that reads as JSON is lost: it comes back as what it reads
      as when its field takes that, and unset when the field refuses it. */
  lemma {:induction false} JsonLookingStringIsLost(
    sch: Schema, fits: Fits, s: Json, m: map<string, Json>, order: seq<string>, path: Path, x: string, j: Json)
    requires Lawful(sch.text) && Saved(sch, s, fits) && PlainKeys(s)
    requires IsFlat(m, s) && Enumerates(order, m.Keys)
    requires LeafAt(s, path, JStr(x)) && Get(sch.defaults, path) == Some(JNull) && sch.text.read(x) == Some(j)
    ensures var back := if fits(path, j) then j else JNull;
            Get(ApplyAll(sch, m, order), path) == Some(back) && back != JStr(x)
  {
    LoadedLeaf(sch, fits, s, m, order, path, JStr(x));
    OverNullReads(sch.text, fits, path, x, j);
  }

  lemma {:induction false} OverNullReads(t: Texts, fits: Fits, path: Path, x: string, j: Json)
    requires Lawful(t) && t.read(x) == Some(j)
    ensures j != JStr(x) && WriteOver(t, fits, path, Some(JNull), x) == Some(if fits(path, j) then j else JNull)
  {
    assert t.read(x) != Some(JStr(x));
  }

  /** An object over a default that is none, such as an optional section that was set, comes
      back as the default, whatever it holds. */
  lemma {:induction false} ObjectOverLeafIsLost(
    sch: Schema, fits: Fits, s: Json, m: map<string, Json>, order: seq<string>, path: Path, x: Json)
    requires Saved(sch, s, fits) && PlainKeys(s)
    requires IsFlat(m, s) && Enumerates(order, m.Keys)
    requires Get(s, path).Some? && Get(s, path).value.JObj? && LeafAt(sch.defaults, path, x)
    ensures Get(ApplyAll(sch, m, order), path) == Some(x) != Get(s, path)
  {
    LoadIsBack(sch, fits, s, m, order);
    BackAtObject(sch.text, fits, Some(sch.defaults), s, path, x);
  }

  lemma {:induction false} BackAtObject(t: Texts, fits: Fits, d: Option<Json>, s: Json, path: Path, x: Json)
    requires d.Some? && LeafAt(d.value, path, x) && Get(s, path).Some? && Get(s, path).value.JObj?
    ensures Back(t, fits, d, s).Some? && Get(Back(t, fits, d, s).value, path) == Some(x)
    decreases |path|
  {
    if path != [] {
      var key := path[0];
      BackAtObject(t, Below(fits, key), Field(d.value, key), s.fields[key], path[1..], x);
      assert BackField(t, fits, d.value, s, key).Some?;
    } else {
      assert forall y :: Get(y, []) == Some(y);
    }
  }

  /** Where the defaults have the place of a leaf, what comes back there is one write over it. */
  lemma {:induction false} BackAtLeaf(t: Texts, fits: Fits, d: Option<Json>, s: Json, path: Path, v: Json)
    requires d.Some? && Get(d.value, path).Some? && LeafAt(s, path, v)
    ensures Back(t, fits, d, s).Some?
    ensures Get(Back(t, fits, d, s).value, path)
         == if v.JNull? then Get(d.value, path) else WriteOver(t, fits, path, Get(d.value, path), ValueText(t, v))
    decreases |path|
  {
    if path != [] {
      var key, rest := path[0], path[1..];
      BackAtLeaf(t, Below(fits, key), Field(d.value, key), s.fields[key], rest, v);
      assert [key] + rest == path;
      assert BackField(t, fits, d.value, s, key).Some?;
    } else {
      assert forall x :: Get(x, []) == Some(x);
    }
  }

  /** A null entry leaves what is there, also over a default that is not null: that is how an
      entry which the settings never write themselves is taken. */
  lemma {:induction false} NullEntriesAreSkipped(sch: Schema, m: map<string, Json>, order: seq<string>)
    requires forall key :: key in order ==> key in m
    ensures ApplyAll(sch, m, order) == ApplyAll(sch, m, NotNull(m, order))
    decreases |order|
  {
    if order != [] {
      var rest, key := order[..|order| - 1], order[|order| - 1];
      NullEntriesAreSkipped(sch, m, rest);
      if !m[key].JNull? {
        var kept := NotNull(m, order);
        assert kept[..|kept| - 1] == NotNull(m, rest);
      }
    }
  }

  /** The keys of entries that are not null, in order. */
  function NotNull(m: map<string, Json>, order: seq<string>): (kept: seq<string>)
    requires forall key :: key in order ==> key in m
    ensures forall key :: key in kept <==> key in order && !m[key].JNull?
    decreases |order|
  {
    if order == [] then []
    else
      var rest, key := order[..|order| - 1], order[|order| - 1];
      if m[key].JNull? then NotNull(m, rest) else NotNull(m, rest) + [key]
  }

  // ---- reset ----

  /** The typed struct takes the written tree as it is. */
  predicate AcceptsWrite(sch: Schema, j: Json, path: string, text: string) {
    var r := SetAt(sch.text, j, Split(path), text);
    r.Ok? ==> sch.decode(r.value) == Some(r.value)
  }

  /** Resetting writes the text of the default over the present value. That gives the default
      back exactly when the present value takes it: a null default turns a string into "null". */
  lemma {:induction false} ResetIsExact(sch: Schema, j: Json, path: string, x: Json, v: Json)
    requires Lawful(sch.text) && Get(j, Split(path)) == Some(x) && Get(sch.defaults, Split(path)) == Some(v)
    requires ReadsBack(sch.text, v) && AcceptsWrite(sch, j, path, ValueText(sch.text, v))
    ensures var r := SetText(sch, j, path, ValueText(sch.text, v));
            var after := if r.Ok? then r.value else j;
            Get(after, Split(path)) == Some(v) <==> Takes(sch.text, Some(x), v)
  {
    var parts := Split(path);
    var anything: Fits := (p, y) => true;
    SetAtKnown(sch.text, j, parts, ValueText(sch.text, v));
    WrittenStays(sch.text, anything, Some(x), v);
  }

  /** An unset optional string resets to the text "null", not to unset. */
  lemma {:induction false} ResetWritesNullText(sch: Schema, j: Json, path: string, x: string)
    requires Lawful(sch.text) && Get(j, Split(path)) == Some(JStr(x)) && Get(sch.defaults, Split(path)) == Some(JNull)
    requires AcceptsWrite(sch, j, path, ValueText(sch.text, JNull))
    ensures var r := SetText(sch, j, path, ValueText(sch.text, JNull));
            r.Ok? && Get(r.value, Split(path)) == Some(JStr(sch.text.show(JNull)))
  {
    SetAtKnown(sch.text, j, Split(path), sch.text.show(JNull));
  }

  // ---- entries of others ----

  /** The table also holds other data: an entry below a key the tree lacks changes nothing. */
  lemma {:induction false} ForeignEntryIsSkipped(sch: Schema, j: Json, key: string, v: Json)
    requires |Split(key)| >= 2 && Field(j, Split(key)[0]).None?
    ensures ApplyEntry(sch, j, key, v) == j
    ensures SetText(sch, j, key, ValueText(sch.text, v)) == Err(PathNotFound)
  {
  }
}
