/** Layering of settings trees (src/settings.rs, merge_non_default and merge_from). */
module SettingsMerge {
  import opened Wrappers
  import opened Jsons

  /** The default of a field: null where the defaults have none. */
  function Default(d: Json, key: string): Json
    requires d.JObj?
  {
    if key in d.fields then d.fields[key] else JNull
  }

  function Merge(t: Json, o: Json, d: Json): Json
    decreases o
  {
    if t.JObj? && o.JObj? && d.JObj? then
      JObj(map key | key in t.fields.Keys + o.fields.Keys && (key in t.fields || o.fields[key] != Default(d, key)) ::
             MergeField(t, o, d, key))
    else if o != d then o
    else t
  }

  function MergeField(t: Json, o: Json, d: Json, key: string): Json
    requires t.JObj? && o.JObj? && d.JObj? && (key in t.fields || key in o.fields)
    decreases o, 0
  {
    if key !in o.fields then t.fields[key]
    else if key in t.fields then Merge(t.fields[key], o.fields[key], Default(d, key))
    else o.fields[key]
  }

  method MergeNonDefault(target: Json, other: Json, defaults: Json) returns (merged: Json)
    ensures merged == Merge(target, other, defaults)
    decreases other
  {
    if target.JObj? && other.JObj? && defaults.JObj? {
      var t := target.fields;
      var todo := other.fields.Keys;
      while todo != {}
        invariant todo <= other.fields.Keys
        invariant t.Keys == target.fields.Keys
                            + set key | key in other.fields.Keys - todo && other.fields[key] != Default(defaults, key)
        invariant forall key :: key in t ==>
          t[key] == if key in todo then target.fields[key] else MergeField(target, other, defaults, key)
        decreases todo
      {
        var key :| key in todo;
        var otherVal := other.fields[key];
        var defaultVal := Default(defaults, key);
        if key in t {
          var v := MergeNonDefault(t[key], otherVal, defaultVal);
          t := t[key := v];
        } else if otherVal != defaultVal {
          t := t[key := otherVal];
        }
        todo := todo - {key};
      }
      merged := JObj(t);
    } else if other != defaults {
      merged := other;
    } else {
      merged := target;
    }
  }

  // ---- laws on all trees ----

  lemma {:induction false} MergeFieldIs(t: Json, o: Json, d: Json, key: string)
    requires t.JObj? && o.JObj? && d.JObj?
    ensures var m := Merge(t, o, d);
            && m.JObj?
            && (key in m.fields <==> key in t.fields || (key in o.fields && o.fields[key] != Default(d, key)))
            && (key in m.fields ==> m.fields[key] == MergeField(t, o, d, key))
  {
  }

  /** A layer that was never set changes nothing. */
  lemma {:induction false} MergeDefaults(t: Json, d: Json)
    ensures Merge(t, d, d) == t
    decreases d
  {
    if t.JObj? && d.JObj? {
      var m := Merge(t, d, d);
      forall key
        ensures key in m.fields <==> key in t.fields
        ensures key in m.fields ==> m.fields[key] == t.fields[key]
      {
        MergeFieldIs(t, d, d, key);
        if key in t.fields && key in d.fields { MergeDefaults(t.fields[key], d.fields[key]); }
      }
      assert m.fields == t.fields;
    }
  }

  lemma {:induction false} MergeOntoItself(o: Json, d: Json)
    ensures Merge(o, o, d) == o
    decreases o
  {
    if o.JObj? && d.JObj? {
      var m := Merge(o, o, d);
      forall key
        ensures key in m.fields <==> key in o.fields
        ensures key in m.fields ==> m.fields[key] == o.fields[key]
      {
        MergeFieldIs(o, o, d, key);
        if key in o.fields { MergeOntoItself(o.fields[key], Default(d, key)); }
      }
      assert m.fields == o.fields;
    }
  }

  /** Applying a layer again changes nothing, whatever the trees look like. */
  lemma {:induction false} MergeTwice(t: Json, o: Json, d: Json)
    ensures Merge(Merge(t, o, d), o, d) == Merge(t, o, d)
    decreases o
  {
    var m := Merge(t, o, d);
    if t.JObj? && o.JObj? && d.JObj? {
      var n := Merge(m, o, d);
      forall key
        ensures key in n.fields <==> key in m.fields
        ensures key in n.fields ==> n.fields[key] == m.fields[key]
      {
        MergeFieldIs(t, o, d, key);
        MergeFieldIs(m, o, d, key);
        if key in m.fields && key in o.fields {
          if key in t.fields { MergeTwice(t.fields[key], o.fields[key], Default(d, key)); }
          else { MergeOntoItself(o.fields[key], Default(d, key)); }
        }
      }
      assert n.fields == m.fields;
    } else if o != d {
      MergeOntoItself(o, d);
    }
  }

  /** The defaults come back out only where they went in. */
  lemma {:induction false} MergeYieldsDefaults(t: Json, o: Json, d: Json)
    requires Merge(t, o, d) == d
    ensures t == d
    decreases o
  {
    if t.JObj? && o.JObj? && d.JObj? {
      forall key
        ensures key in t.fields <==> key in d.fields
        ensures key in t.fields ==> t.fields[key] == d.fields[key]
      {
        MergeFieldIs(t, o, d, key);
        if key in t.fields && key in o.fields { MergeYieldsDefaults(t.fields[key], o.fields[key], d.fields[key]); }
      }
      assert t.fields == d.fields;
    }
  }

  // ---- leaf by leaf ----

  /** A settings tree over the defaults: their objects are objects with all their keys. What
      they hold as a leaf may be any value, and a key they lack any value but null, as for the
      entries of a map or a section that is unset by default. */
  ghost predicate Instance(t: Json, d: Json)
    decreases d
  {
    d.JObj? ==>
      && t.JObj? && d.fields.Keys <= t.fields.Keys
      && forall key :: key in t.fields ==>
           if key in d.fields then Instance(t.fields[key], d.fields[key]) else t.fields[key] != JNull
  }

  /** A place the merge decides as a whole: a leaf of the defaults, or a key their object lacks. */
  predicate Place(d: Json, path: Path)
    decreases |path|
  {
    if !d.JObj? then path == []
    else path != [] && if path[0] in d.fields then Place(d.fields[path[0]], path[1..]) else |path| == 1
  }

  /** What a tree holds at a place: null where it has nothing. */
  function Leaf(j: Json, path: Path): Json {
    if Get(j, path).Some? then Get(j, path).value else JNull
  }

  lemma {:induction false} LeafBelow(j: Json, path: Path)
    requires path != [] && j.JObj?
    ensures Leaf(j, path) == if path[0] in j.fields then Leaf(j.fields[path[0]], path[1..]) else JNull
  {
  }

  lemma {:induction false} LeafOfKey(j: Json, key: string)
    requires j.JObj?
    ensures Leaf(j, [key]) == if key in j.fields then j.fields[key] else JNull
  {
    LeafBelow(j, [key]);
    assert [key][1..] == [];
  }

  /** The leaf a layer over a base should have: its own where it was set, else the base's. */
  function Pick(base: Json, layer: Json, default: Json): Json {
    if layer != default then layer else base
  }

  ghost predicate LeafWise(m: Json, t: Json, o: Json, d: Json) {
    forall path :: Place(d, path) ==> Leaf(m, path) == Pick(Leaf(t, path), Leaf(o, path), Leaf(d, path))
  }

  lemma {:induction false} MergeInstance(t: Json, o: Json, d: Json)
    requires Instance(t, d) && Instance(o, d)
    ensures Instance(Merge(t, o, d), d)
    decreases d
  {
    if d.JObj? {
      var m := Merge(t, o, d);
      forall key
        ensures key in d.fields ==> key in m.fields
        ensures key in m.fields ==>
                  if key in d.fields then Instance(m.fields[key], d.fields[key]) else m.fields[key] != JNull
      {
        MergeFieldIs(t, o, d, key);
        if key in d.fields { MergeInstance(t.fields[key], o.fields[key], d.fields[key]); }
      }
    }
  }

  lemma {:induction false} MergeLeaf(t: Json, o: Json, d: Json, path: Path)
    requires Instance(t, d) && Instance(o, d) && Place(d, path)
    ensures Leaf(Merge(t, o, d), path) == Pick(Leaf(t, path), Leaf(o, path), Leaf(d, path))
    decreases |path|
  {
    if d.JObj? {
      var m, key, rest := Merge(t, o, d), path[0], path[1..];
      MergeFieldIs(t, o, d, key);
      LeafBelow(t, path);
      LeafBelow(o, path);
      LeafBelow(d, path);
      LeafBelow(m, path);
      if key in d.fields { MergeLeaf(t.fields[key], o.fields[key], d.fields[key], rest); }
      else { MergeOwnKey(t, o, d, m, key, rest); }
    }
  }

  /** A key the defaults lack is decided as a whole. */
  lemma {:induction false} MergeOwnKey(t: Json, o: Json, d: Json, m: Json, key: string, rest: Path)
    requires t.JObj? && o.JObj? && d.JObj? && Instance(o, d) && m == Merge(t, o, d) && key !in d.fields && rest == []
    ensures m.JObj?
    ensures (if key in m.fields then Leaf(m.fields[key], rest) else JNull)
         == Pick(if key in t.fields then Leaf(t.fields[key], rest) else JNull,
                 if key in o.fields then Leaf(o.fields[key], rest) else JNull, JNull)
  {
    MergeFieldIs(t, o, d, key);
    assert forall j: Json :: Leaf(j, rest) == j;
  }

  /** Two settings trees with the same leaves are equal. */
  lemma {:induction false} LeavesDetermine(a: Json, b: Json, d: Json)
    requires Instance(a, d) && Instance(b, d)
    requires forall path :: Place(d, path) ==> Leaf(a, path) == Leaf(b, path)
    ensures a == b
    decreases d
  {
    if d.JObj? {
      forall key
        ensures key in a.fields <==> key in b.fields
        ensures key in a.fields ==> a.fields[key] == b.fields[key]
      {
        if key in d.fields {
          SameLeavesBelow(a, b, d, key);
          LeavesDetermine(a.fields[key], b.fields[key], d.fields[key]);
        } else {
          assert Place(d, [key]);
          LeafOfKey(a, key);
          LeafOfKey(b, key);
        }
      }
      assert a.fields == b.fields;
    } else {
      assert Place(d, []);
    }
  }

  lemma {:induction false} SameLeavesBelow(a: Json, b: Json, d: Json, key: string)
    requires d.JObj? && Instance(a, d) && Instance(b, d) && key in d.fields
    requires forall path :: Place(d, path) ==> Leaf(a, path) == Leaf(b, path)
    ensures forall path :: Place(d.fields[key], path) ==> Leaf(a.fields[key], path) == Leaf(b.fields[key], path)
  {
    forall path | Place(d.fields[key], path)
      ensures Leaf(a.fields[key], path) == Leaf(b.fields[key], path)
    {
      var whole := [key] + path;
      assert whole[1..] == path;
      assert Place(d, whole);
      LeafBelow(a, whole);
      LeafBelow(b, whole);
    }
  }

  lemma {:induction false} MergeTakesLeaves(t: Json, o: Json, d: Json)
    requires Instance(t, d) && Instance(o, d)
    ensures LeafWise(Merge(t, o, d), t, o, d)
  {
    forall path | Place(d, path)
      ensures Leaf(Merge(t, o, d), path) == Pick(Leaf(t, path), Leaf(o, path), Leaf(d, path))
    {
      MergeLeaf(t, o, d, path);
    }
  }

  lemma {:induction false} LeafWiseIsUnique(m: Json, x: Json, t: Json, o: Json, d: Json)
    requires Instance(m, d) && Instance(x, d) && LeafWise(m, t, o, d) && LeafWise(x, t, o, d)
    ensures m == x
  {
    forall path | Place(d, path)
      ensures Leaf(m, path) == Leaf(x, path)
    {
    }
    LeavesDetermine(m, x, d);
  }

  /** The merge of settings trees is the one settings tree that takes every leaf by priority. */
  lemma {:induction false} MergeIsLeafWise(m: Json, t: Json, o: Json, d: Json)
    requires Instance(m, d) && Instance(t, d) && Instance(o, d)
    ensures m == Merge(t, o, d) <==> LeafWise(m, t, o, d)
  {
    MergeInstance(t, o, d);
    MergeTakesLeaves(t, o, d);
    if LeafWise(m, t, o, d) { LeafWiseIsUnique(m, Merge(t, o, d), t, o, d); }
  }

  // ---- layers ----

  /** The defaults are a settings tree themselves. */
  lemma {:induction false} DefaultsAreInstance(d: Json)
    ensures Instance(d, d)
    decreases d
  {
    if d.JObj? {
      forall key | key in d.fields
        ensures Instance(d.fields[key], d.fields[key])
      {
        DefaultsAreInstance(d.fields[key]);
      }
    }
  }

  /** Layers may be merged among themselves first: the outer one still wins. */
  lemma {:induction false} LayersAssociate(base: Json, x: Json, y: Json, d: Json)
    requires Instance(base, d) && Instance(x, d) && Instance(y, d)
    ensures Merge(Merge(base, x, d), y, d) == Merge(base, Merge(x, y, d), d)
    ensures Merge(d, y, d) == y
  {
    MergeInstance(base, x, d);
    MergeInstance(x, y, d);
    var bx, xy := Merge(base, x, d), Merge(x, y, d);
    var l := Merge(bx, y, d);
    MergeInstance(bx, y, d);
    MergeIsLeafWise(bx, base, x, d);
    MergeIsLeafWise(xy, x, y, d);
    MergeIsLeafWise(l, bx, y, d);
    MergeIsLeafWise(l, base, xy, d);
    DefaultsAreInstance(d);
    MergeIsLeafWise(y, d, y, d);
  }

  /** The setup wizard merges the stored settings over its own first answers and then those
      answers again: every leaf is the fresh answer, else the stored value, else the default. */
  lemma {:induction false} WizardKeepsAnswers(answers: Json, stored: Json, d: Json)
    requires Instance(answers, d) && Instance(stored, d)
    ensures var w := Merge(Merge(answers, stored, d), answers, d);
            w == Merge(Merge(d, stored, d), answers, d) && LeafWise(w, stored, answers, d)
  {
    var once := Merge(answers, stored, d);
    MergeInstance(answers, stored, d);
    var w := Merge(once, answers, d);
    MergeInstance(once, answers, d);
    MergeIsLeafWise(once, answers, stored, d);
    MergeIsLeafWise(w, once, answers, d);
    MergeIsLeafWise(w, stored, answers, d);
    DefaultsAreInstance(d);
    LayersAssociate(d, d, stored, d);
  }

  /** A layer cannot set a leaf back to its default: the top layer decides a leaf exactly when
      it sets it or the layer below does not. */
  lemma {:induction false} TopLayerDecides(stored: Json, file: Json, d: Json, path: Path)
    requires Instance(stored, d) && Instance(file, d) && Place(d, path)
    ensures var m := Merge(Merge(d, stored, d), file, d);
            Leaf(m, path) == Leaf(file, path)
            <==> Leaf(file, path) != Leaf(d, path) || Leaf(stored, path) == Leaf(d, path)
  {
    DefaultsAreInstance(d);
    LayersAssociate(d, d, stored, d);
    MergeLeaf(stored, file, d, path);
  }

  // ---- layers with other keys ----

  /** The layer names every field the defaults have, and adds no null ones. */
  ghost predicate Covers(y: Json, d: Json)
    decreases y
  {
    y.JObj? && d.JObj? ==>
      && d.fields.Keys <= y.fields.Keys
      && forall key :: key in y.fields ==>
           if key in d.fields then Covers(y.fields[key], d.fields[key]) else y.fields[key] != JNull
  }

  /** Over bare defaults a layer comes out as it is exactly when it covers them. */
  lemma {:induction false} LayerOverDefaults(y: Json, d: Json)
    ensures Merge(d, y, d) == y <==> Covers(y, d)
    decreases y
  {
    if y.JObj? && d.JObj? {
      var m := Merge(d, y, d);
      forall key
        ensures key in m.fields <==> key in d.fields || (key in y.fields && y.fields[key] != JNull)
        ensures key in m.fields && key in y.fields && key in d.fields ==>
                  (m.fields[key] == y.fields[key] <==> Covers(y.fields[key], d.fields[key]))
        ensures key in m.fields && key in y.fields && key !in d.fields ==> m.fields[key] == y.fields[key]
      {
        MergeFieldIs(d, y, d, key);
        if key in y.fields && key in d.fields { LayerOverDefaults(y.fields[key], d.fields[key]); }
      }
      assert Covers(y, d) ==> m.fields == y.fields;
      if m == y {
        assert forall key :: key in y.fields ==> key in m.fields;
        assert forall key :: key in d.fields ==> key in m.fields;
      }
    }
  }
}
