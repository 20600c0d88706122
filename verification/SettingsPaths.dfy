/** Dotted paths (src/settings.rs): keys joined while flattening, split again when set. */
module SettingsPaths {
  import opened Jsons

  /** One step down while flattening: no dot after an empty prefix. */
  function Extend(prefix: string, key: string): string {
    if prefix == "" then key else prefix + "." + key
  }

  function TextFrom(prefix: string, path: Path): string
    decreases |path|
  {
    if path == [] then prefix else TextFrom(Extend(prefix, path[0]), path[1..])
  }

  function PathText(path: Path): string {
    TextFrom("", path)
  }

  /** str::split('.'): at least one part, empty parts included. */
  function Split(text: string): (parts: Path)
    ensures |parts| >= 1
    decreases |text|
  {
    if text == "" then [""]
    else
      var rest := Split(text[1..]);
      if text[0] == '.' then [""] + rest else [[text[0]] + rest[0]] + rest[1..]
  }

  predicate Plain(key: string) {
    key != "" && '.' !in key
  }

  predicate AllPlain(path: Path) {
    forall key :: key in path ==> Plain(key)
  }

  predicate PlainPath(path: Path) {
    path != [] && AllPlain(path)
  }

  lemma {:induction false} SplitPlain(key: string)
    requires '.' !in key
    ensures Split(key) == [key]
  {
    if key != "" {
      SplitPlain(key[1..]);
      assert [key[0]] + key[1..] == key;
    }
  }

  lemma {:induction false} SplitDot(a: string, b: string)
    requires '.' !in b
    ensures Split(a + "." + b) == Split(a) + [b]
    decreases |a|
  {
    var text := a + "." + b;
    if a == "" {
      assert text[1..] == b;
      SplitPlain(b);
      assert Split(a) + [b] == [""] + [b];
    } else {
      assert text[0] == a[0] && text[1..] == a[1..] + "." + b;
      SplitDot(a[1..], b);
      var rest := Split(a[1..]);
      assert (rest + [b])[0] == rest[0] && (rest + [b])[1..] == rest[1..] + [b];
    }
  }

  lemma {:induction false} SplitTextFrom(prefix: string, path: Path)
    requires prefix != "" && AllPlain(path)
    ensures Split(TextFrom(prefix, path)) == Split(prefix) + path
    decreases |path|
  {
    if path == [] {
      assert Split(prefix) + [] == Split(prefix);
    } else {
      assert path[0] in path && AllPlain(path[1..]);
      SplitDot(prefix, path[0]);
      SplitTextFrom(Extend(prefix, path[0]), path[1..]);
      OneByOne(Split(prefix), path);
    }
  }

  lemma {:induction false} OneByOne(start: Path, path: Path)
    requires path != []
    ensures start + [path[0]] + path[1..] == start + path
  {
  }

  /** Splitting undoes joining for keys without dots that are not empty. */
  lemma {:induction false} SplitJoined(path: Path)
    requires PlainPath(path)
    ensures Split(PathText(path)) == path
  {
    assert path[0] in path;
    SplitPlain(path[0]);
    SplitTextFrom(path[0], path[1..]);
    assert [path[0]] + path[1..] == path;
  }

  /** A dot in a key, or an empty key at the top, is lost. */
  lemma {:induction false} OtherKeysAreLost(a: string, b: string)
    ensures a != "" ==> PathText([a + "." + b]) == PathText([a, b])
    ensures PathText(["", b]) == PathText([b])
  {
    var dotted := a + "." + b;
    assert [dotted][1..] == [] && [b][1..] == [];
    assert PathText([dotted]) == TextFrom(dotted, []);
    assert [a, b][1..] == [b] && ["", b][1..] == [b];
    assert TextFrom(a, [b]) == TextFrom(Extend(a, b), []);
  }
}
