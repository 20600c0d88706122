/** What the writers of the .env file keep and change, read back line by line. */
module EnvFileLaws {
  import opened Wrappers
  import opened EnvFiles
  import opened Whitespace

  // ---- keys and carriage returns ----

  predicate NoCr(lines: seq<string>) {
    forall i :: 0 <= i < |lines| ==> StripCr(lines[i]) == lines[i]
  }

  lemma {:induction false} StripKeepsKey(line: string)
    ensures RawKey(StripCr(line)) == RawKey(line)
  {
    if StripCr(line) != line {
      var n, short := Until(line, '='), StripCr(line);
      assert line == short + ['\r'];
      if n < |line| {
        assert n < |short|;
        assert short == short[..n] + ['='] + short[n + 1..];
        assert short[..n] == line[..n];
        UntilIs(short[..n], '=', short[n + 1..]);
      } else {
        assert line[..n] == line;
        assert forall k :: 0 <= k < |short| ==> short[k] == line[k] && line[k] in line;
        assert '=' !in short;
        UntilEnd(short, '=');
      }
    }
  }

  lemma {:induction false} KeptConcat(a: seq<string>, b: seq<string>, keys: set<string>)
    ensures Kept(a + b, keys) == Kept(a, keys) + Kept(b, keys)
  {
    if a == [] {
      assert a + b == b;
    } else {
      assert (a + b)[0] == a[0] && (a + b)[1..] == a[1..] + b;
      KeptConcat(a[1..], b, keys);
    }
  }

  lemma {:induction false} KeptIsKept(lines: seq<string>, keys: set<string>)
    ensures forall i :: 0 <= i < |Kept(lines, keys)| ==>
              !Overwritten(Kept(lines, keys)[i], keys) && Kept(lines, keys)[i] in lines
  {
    if lines != [] { KeptIsKept(lines[1..], keys); }
  }

  lemma {:induction false} KeptAll(lines: seq<string>, keys: set<string>)
    requires forall i :: 0 <= i < |lines| ==> !Overwritten(lines[i], keys)
    ensures Kept(lines, keys) == lines
  {
    if lines != [] {
      KeptAll(lines[1..], keys);
    }
  }

  lemma {:induction false} KeptNone(vars: seq<Var>, keys: set<string>)
    requires ValidVars(vars) && Keys(vars) <= keys
    ensures Kept(VarLines(vars), keys) == []
  {
    if vars != [] {
      VarLineBinds(vars[0]);
      assert vars[0] in vars;
      assert VarLines(vars)[1..] == VarLines(vars[1..]);
      assert Keys(vars[1..]) <= Keys(vars);
      KeptNone(vars[1..], keys);
    }
  }

  // ---- reading back ----

  lemma {:induction false} VarLinesAreLines(vars: seq<Var>)
    requires ValidVars(vars)
    ensures AllOneLine(VarLines(vars)) && NoCr(VarLines(vars))
  {
    forall i | 0 <= i < |vars|
      ensures OneLine(VarLines(vars)[i]) && StripCr(VarLines(vars)[i]) == VarLines(vars)[i]
    {
      VarLineIsALine(vars[i]);
    }
  }

  /** A saved file reads back as its variables. */
  lemma {:induction false} SaveReadsBack(vars: seq<Var>)
    requires ValidVars(vars)
    ensures var lines := Lines(Text(VarLines(vars)));
            |lines| == |vars| && forall i :: 0 <= i < |vars| ==> Binding(lines[i]) == Some(vars[i])
  {
    VarLinesAreLines(vars);
    LinesOfText(VarLines(vars));
    assert StripAll(VarLines(vars)) == VarLines(vars);
    forall i | 0 <= i < |vars|
      ensures Binding(VarLines(vars)[i]) == Some(vars[i])
    {
      VarLineBinds(vars[i]);
    }
  }

  function Batch(text: string, vars: seq<Var>): string {
    Text(BatchLines(Lines(text), vars))
  }

  lemma {:induction false} BatchReadsBack(text: string, vars: seq<Var>)
    requires ValidVars(vars)
    ensures Lines(Batch(text, vars)) == StripAll(Kept(Lines(text), Keys(vars))) + VarLines(vars)
  {
    var kept := Kept(Lines(text), Keys(vars));
    LinesAreOneLine(text);
    KeptIsKept(Lines(text), Keys(vars));
    VarLinesAreLines(vars);
    LinesOfText(kept + VarLines(vars));
    assert StripAll(kept + VarLines(vars)) == StripAll(kept) + VarLines(vars);
  }

  /** Unrelated lines survive a batch in order, character by character, exactly when none of
      them ends in a carriage return of its own. */
  lemma {:induction false} UnrelatedLinesSurvive(text: string, vars: seq<Var>)
    requires ValidVars(vars)
    ensures var kept := Kept(Lines(text), Keys(vars));
            Lines(Batch(text, vars)) == kept + VarLines(vars) <==> NoCr(kept)
  {
    var kept := Kept(Lines(text), Keys(vars));
    BatchReadsBack(text, vars);
    var l, r := StripAll(kept) + VarLines(vars), kept + VarLines(vars);
    if l == r {
      assert forall i :: 0 <= i < |kept| ==> l[i] == StripCr(kept[i]) && r[i] == kept[i];
    } else {
      assert NoCr(kept) ==> StripAll(kept) == kept;
    }
  }

  lemma {:induction false} TextShrinks(lines: seq<string>)
    ensures |Text(StripAll(lines))| <= |Text(lines)|
    ensures |Text(StripAll(lines))| == |Text(lines)| <==> NoCr(lines)
  {
    if lines != [] {
      assert StripAll(lines)[1..] == StripAll(lines[1..]);
      TextShrinks(lines[1..]);
      assert NoCr(lines) <==> StripCr(lines[0]) == lines[0] && NoCr(lines[1..]) by {
        assert forall i :: 0 <= i < |lines| - 1 ==> lines[1..][i] == lines[i + 1];
        assert forall i :: 0 < i < |lines| ==> lines[i] == lines[1..][i - 1];
      }
    }
  }

  lemma {:induction false} KeptOfBatch(text: string, vars: seq<Var>)
    requires ValidVars(vars)
    ensures var keys := Keys(vars);
            Kept(Lines(Batch(text, vars)), keys) == StripAll(Kept(Lines(text), keys))
  {
    var keys := Keys(vars);
    var kept := Kept(Lines(text), keys);
    BatchReadsBack(text, vars);
    KeptConcat(StripAll(kept), VarLines(vars), keys);
    KeptNone(vars, keys);
    KeptIsKept(Lines(text), keys);
    forall i | 0 <= i < |kept|
      ensures !Overwritten(StripAll(kept)[i], keys)
    {
      StripKeepsKey(kept[i]);
    }
    KeptAll(StripAll(kept), keys);
  }

  /** Upserting the same batch twice is upserting it once, on the same condition. */
  lemma {:induction false} BatchTwice(text: string, vars: seq<Var>)
    requires ValidVars(vars)
    ensures Batch(Batch(text, vars), vars) == Batch(text, vars) <==> NoCr(Kept(Lines(text), Keys(vars)))
  {
    KeptOfBatch(text, vars);
    ShrinksExactlyWhen(Kept(Lines(text), Keys(vars)), VarLines(vars));
  }

  lemma {:induction false} ShrinksExactlyWhen(kept: seq<string>, more: seq<string>)
    ensures Text(StripAll(kept) + more) == Text(kept + more) <==> NoCr(kept)
  {
    TextConcat(StripAll(kept), more);
    TextConcat(kept, more);
    TextShrinks(kept);
    assert NoCr(kept) ==> StripAll(kept) == kept;
  }

  // ---- as a map ----

  /** The value a line with a key has. */
  function Value(line: string): string {
    var n := Until(line, '=');
    if n < |line| then ReadValue(line[n + 1..]) else ""
  }

  /** The first line of a key, spaces around it ignored. */
  function First(lines: seq<string>, key: string): Option<string> {
    if lines == [] then None
    else if LineKey(lines[0]) == Some(key) then Some(lines[0])
    else First(lines[1..], key)
  }

  function ValueOf(line: Option<string>): Option<string> {
    if line.Some? then Some(Value(line.value)) else None
  }

  function Stripped(line: Option<string>): Option<string> {
    if line.Some? then Some(StripCr(line.value)) else None
  }

  /** The first binding of a key: later ones do not override it when the file is loaded. */
  function Find(lines: seq<string>, key: string): Option<string> {
    if lines == [] then None
    else
      var b := Binding(lines[0]);
      if b.Some? && b.value.key == key then Some(b.value.value) else Find(lines[1..], key)
  }

  function FindVar(vars: seq<Var>, key: string): Option<Var> {
    if vars == [] then None
    else if vars[0].key == key then Some(vars[0])
    else FindVar(vars[1..], key)
  }

  lemma {:induction false} FindIsFirst(lines: seq<string>, key: string)
    requires ValidKey(key)
    ensures Find(lines, key) == ValueOf(First(lines, key))
  {
    if lines != [] { FindIsFirst(lines[1..], key); }
  }

  lemma {:induction false} FirstIsLine(lines: seq<string>, key: string)
    ensures First(lines, key).Some? ==>
              First(lines, key).value in lines && LineKey(First(lines, key).value) == Some(key)
  {
    if lines != [] { FirstIsLine(lines[1..], key); }
  }

  lemma {:induction false} FirstHead(line: string, rest: seq<string>, key: string)
    ensures First([line] + rest, key) == if LineKey(line) == Some(key) then Some(line) else First(rest, key)
  {
    assert ([line] + rest)[1..] == rest;
  }

  lemma {:induction false} FirstConcat(a: seq<string>, b: seq<string>, key: string)
    ensures First(a + b, key) == if First(a, key).Some? then First(a, key) else First(b, key)
  {
    if a == [] {
      assert a + b == b;
    } else {
      assert (a + b)[0] == a[0] && (a + b)[1..] == a[1..] + b;
      FirstConcat(a[1..], b, key);
    }
  }

  lemma {:induction false} FirstStripped(lines: seq<string>, key: string)
    ensures First(StripAll(lines), key) == Stripped(First(lines, key))
  {
    if lines != [] {
      StripKeepsKey(lines[0]);
      assert StripAll(lines)[1..] == StripAll(lines[1..]);
      FirstStripped(lines[1..], key);
    }
  }

  lemma {:induction false} FirstVarLines(vars: seq<Var>, key: string)
    requires ValidVars(vars)
    ensures First(VarLines(vars), key) ==
            if FindVar(vars, key).Some? then Some(VarLine(FindVar(vars, key).value)) else None
  {
    if vars != [] {
      VarLineBinds(vars[0]);
      assert VarLines(vars)[1..] == VarLines(vars[1..]);
      FirstVarLines(vars[1..], key);
    }
  }

  lemma {:induction false} FirstKept(lines: seq<string>, keys: set<string>, key: string)
    ensures First(Kept(lines, keys), key) == if key in keys then None else First(lines, key)
  {
    if lines != [] {
      FirstKept(lines[1..], keys, key);
      FirstHead(lines[0], Kept(lines[1..], keys), key);
    }
  }

  lemma {:induction false} FindVarIs(vars: seq<Var>, key: string)
    ensures FindVar(vars, key).Some? <==> key in Keys(vars)
    ensures FindVar(vars, key).Some? ==> FindVar(vars, key).value in vars && FindVar(vars, key).value.key == key
  {
    if vars != [] {
      assert Keys(vars) == {vars[0].key} + Keys(vars[1..]);
      FindVarIs(vars[1..], key);
    }
  }

  lemma {:induction false} VarLineValue(v: Var)
    requires ValidKey(v.key)
    ensures LineKey(VarLine(v)) == Some(v.key) && Value(VarLine(v)) == v.value
  {
    VarLineBinds(v);
  }

  // ---- one batch ----

  /** After a batch every key of it has its new line, every other key its old one, read again. */
  lemma {:induction false} FirstOfBatch(text: string, vars: seq<Var>, key: string)
    requires ValidVars(vars)
    ensures First(Lines(Batch(text, vars)), key) ==
            if FindVar(vars, key).Some? then Some(VarLine(FindVar(vars, key).value))
            else Stripped(First(Lines(text), key))
  {
    var kept := Kept(Lines(text), Keys(vars));
    BatchReadsBack(text, vars);
    FirstConcat(StripAll(kept), VarLines(vars), key);
    FirstStripped(kept, key);
    FirstKept(Lines(text), Keys(vars), key);
    FirstVarLines(vars, key);
    FindVarIs(vars, key);
  }

  /** After a batch the file binds the new pairs, whatever the file; and another key to what
      it was exactly when its line reads the same without one carriage return at its end. */
  lemma {:induction false} BatchOverrides(text: string, vars: seq<Var>, key: string)
    requires ValidVars(vars) && ValidKey(key)
    ensures key in Keys(vars) ==>
              FindVar(vars, key).Some? && Find(Lines(Batch(text, vars)), key) == Some(FindVar(vars, key).value.value)
    ensures key !in Keys(vars) ==>
              (Find(Lines(Batch(text, vars)), key) == Find(Lines(text), key) <==>
                 ValueOf(Stripped(First(Lines(text), key))) == ValueOf(First(Lines(text), key)))
  {
    FirstOfBatch(text, vars, key);
    FindIsFirst(Lines(Batch(text, vars)), key);
    FindIsFirst(Lines(text), key);
    FindVarIs(vars, key);
    if key in Keys(vars) { VarLineValue(FindVar(vars, key).value); }
  }

  // ---- one at a time ----

  function Single(text: string, v: Var): string {
    Text(SingleLines(Lines(text), v.key, VarLine(v), false))
  }

  function EachOf(text: string, vars: seq<Var>): string
    decreases |vars|
  {
    if vars == [] then text else EachOf(Single(text, vars[0]), vars[1..])
  }

  lemma {:induction false} StartsIsKey(line: string, key: string)
    requires '=' !in key
    ensures Starts(line, key) <==> RawKey(line) == Some(key)
  {
    if Starts(line, key) {
      assert line == key + ['='] + line[|key| + 1..];
      UntilIs(key, '=', line[|key| + 1..]);
      assert line[..|key|] == key;
    }
    if RawKey(line) == Some(key) {
      assert line[..|key| + 1] == key + "=";
    }
  }

  /** A line the single form replaces: absent, or written without spaces around its key. */
  predicate Replaceable(line: Option<string>, key: string) {
    line.Some? ==> RawKey(line.value) == Some(key)
  }

  /** The line of a key after a single upsert, before the file is read again. */
  function Upserted(line: Option<string>, v: Var, key: string): Option<string> {
    if key == v.key && Replaceable(line, key) then Some(VarLine(v)) else line
  }

  lemma {:induction false} FirstOfSingle(lines: seq<string>, v: Var, newLine: string, found: bool, key: string)
    requires ValidKey(v.key) && RawKey(newLine) == Some(v.key)
    ensures First(SingleLines(lines, v.key, newLine, found), key) ==
            if key != v.key then First(lines, key)
            else if !Replaceable(First(lines, key), key) then First(lines, key)
            else if !found then Some(newLine)
            else First(SingleLines(lines, v.key, newLine, true), key)
  {
    if lines == [] {
      FirstHead(newLine, [], key);
      assert [newLine] + [] == [newLine];
    } else {
      var line, rest := lines[0], lines[1..];
      StartsIsKey(line, v.key);
      FirstOfSingle(rest, v, newLine, found, key);
      FirstOfSingle(rest, v, newLine, true, key);
      FirstHead(newLine, SingleLines(rest, v.key, newLine, true), key);
      FirstHead(line, SingleLines(rest, v.key, newLine, found), key);
      FirstHead(line, SingleLines(rest, v.key, newLine, true), key);
    }
  }

  lemma {:induction false} SingleLinesOneLine(lines: seq<string>, key: string, newLine: string, found: bool)
    requires AllOneLine(lines) && OneLine(newLine)
    ensures AllOneLine(SingleLines(lines, key, newLine, found))
  {
    if lines != [] {
      SingleLinesOneLine(lines[1..], key, newLine, found);
      SingleLinesOneLine(lines[1..], key, newLine, true);
    }
  }

  /** What each key's first line is after a single upsert of any text. */
  lemma {:induction false} FirstAfterSingle(text: string, v: Var, key: string)
    requires ValidKey(v.key) && OneLine(v.value)
    ensures First(Lines(Single(text, v)), key) == Stripped(Upserted(First(Lines(text), key), v, key))
  {
    var lines := SingleLines(Lines(text), v.key, VarLine(v), false);
    VarLineBinds(v);
    VarLineIsALine(v);
    LinesAreOneLine(text);
    SingleLinesOneLine(Lines(text), v.key, VarLine(v), false);
    LinesOfText(lines);
    FirstStripped(lines, key);
    FirstOfSingle(Lines(text), v, VarLine(v), false, key);
  }

  /** The single form binds its key exactly when the key's first line is absent, is written
      without spaces around the key, or says the new value already. */
  lemma {:induction false} SingleBindsExactlyWhen(text: string, v: Var)
    requires ValidKey(v.key) && OneLine(v.value)
    ensures var first := First(Lines(text), v.key);
            Find(Lines(Single(text, v)), v.key) == Some(v.value)
            <==> Replaceable(first, v.key) || ValueOf(Stripped(first)) == Some(v.value)
  {
    FirstAfterSingle(text, v, v.key);
    FindIsFirst(Lines(Single(text, v)), v.key);
    VarLineIsALine(v);
    VarLineValue(v);
  }

  /** It leaves every other key as it was exactly on the condition of a batch. */
  lemma {:induction false} SingleOverrides(text: string, v: Var, key: string)
    requires ValidKey(v.key) && OneLine(v.value) && ValidKey(key) && key != v.key
    ensures Find(Lines(Single(text, v)), key) == Find(Lines(text), key)
       <==> ValueOf(Stripped(First(Lines(text), key))) == ValueOf(First(Lines(text), key))
  {
    FirstAfterSingle(text, v, key);
    FindIsFirst(Lines(Single(text, v)), key);
    FindIsFirst(Lines(text), key);
  }

  // ---- the two forms ----

  predicate DistinctKeys(vars: seq<Var>) {
    forall i, j :: 0 <= i < j < |vars| ==> vars[i].key != vars[j].key
  }

  /** A line read and written n times. */
  function StrippedBy(line: Option<string>, n: nat): Option<string>
    decreases n
  {
    if n == 0 then line else StrippedBy(Stripped(line), n - 1)
  }

  lemma {:induction false} StrippedKey(line: Option<string>, n: nat, key: string)
    ensures Replaceable(StrippedBy(line, n), key) <==> Replaceable(line, key)
    ensures line.None? <==> StrippedBy(line, n).None?
    decreases n
  {
    if n > 0 {
      if line.Some? { StripKeepsKey(line.value); }
      StrippedKey(Stripped(line), n - 1, key);
    }
  }

  lemma {:induction false} CleanStays(line: string, n: nat)
    requires StripCr(line) == line
    ensures StrippedBy(Some(line), n) == Some(line)
    decreases n
  {
    if n > 0 { CleanStays(line, n - 1); }
  }

  lemma {:induction false} OwnStep(first: Option<string>, newLine: string, key: string, n: nat)
    requires StripCr(newLine) == newLine
    ensures StrippedBy(Stripped(if Replaceable(first, key) then Some(newLine) else first), n)
         == if Replaceable(first, key) then Some(newLine) else StrippedBy(first, n + 1)
  {
    CleanStays(newLine, n);
  }

  /** What becomes of the first line of a key, upsert by upsert. */
  function Settled(first: Option<string>, vars: seq<Var>, key: string): Option<string>
    decreases |vars|
  {
    if vars == [] then first else Settled(Stripped(Upserted(first, vars[0], key)), vars[1..], key)
  }

  lemma {:induction false} FirstOfEach(text: string, vars: seq<Var>, key: string, first: Option<string>)
    requires ValidVars(vars) && first == First(Lines(text), key)
    ensures First(Lines(EachOf(text, vars)), key) == Settled(first, vars, key)
    decreases |vars|
  {
    if vars != [] {
      FirstAfterSingle(text, vars[0], key);
      FirstOfEach(Single(text, vars[0]), vars[1..], key, Stripped(Upserted(first, vars[0], key)));
    }
  }

  lemma {:induction false} OthersAreRewritten(first: Option<string>, vars: seq<Var>, key: string)
    requires FindVar(vars, key).None?
    ensures Settled(first, vars, key) == StrippedBy(first, |vars|)
    decreases |vars|
  {
    if vars != [] { OthersAreRewritten(Stripped(first), vars[1..], key); }
  }

  /** A replaceable line of one of the keys becomes the new one; any other line of a key is
      read and written once for each upsert. */
  lemma {:induction false} OwnIsReplaced(first: Option<string>, vars: seq<Var>, key: string, v: Var)
    requires ValidVars(vars) && DistinctKeys(vars) && FindVar(vars, key) == Some(v)
    ensures Settled(first, vars, key) ==
            if Replaceable(first, key) then Some(VarLine(v)) else StrippedBy(first, |vars|)
    decreases |vars|
  {
    var rest := vars[1..];
    if key == vars[0].key {
      KeysAreOnce(vars);
      OthersAreRewritten(Stripped(Upserted(first, v, key)), rest, key);
      VarLineIsALine(v);
      OwnStep(first, VarLine(v), key, |rest|);
    } else {
      OwnIsReplaced(Stripped(first), rest, key, v);
      StrippedKey(first, 1, key);
      assert StrippedBy(first, 1) == Stripped(first);
    }
  }

  lemma {:induction false} KeysAreOnce(vars: seq<Var>)
    requires DistinctKeys(vars) && vars != []
    ensures FindVar(vars[1..], vars[0].key).None?
  {
    FindVarIs(vars[1..], vars[0].key);
    assert forall i :: 0 <= i < |vars| - 1 ==> vars[1..][i] == vars[i + 1];
  }

  /** For any file, the batch and the single upserts one after the other bind a key alike
      exactly when: for a key they write, its first line is absent, written without spaces
      around the key, or says the new value already; for any other key, its line reads the
      same whether it is read and written once or once for each upsert. */
  lemma {:induction false} BatchAgreesWithEach(text: string, vars: seq<Var>, key: string)
    requires ValidVars(vars) && DistinctKeys(vars) && ValidKey(key)
    ensures var first := First(Lines(text), key);
            Find(Lines(Batch(text, vars)), key) == Find(Lines(EachOf(text, vars)), key)
            <==> if key in Keys(vars)
                 then Replaceable(first, key)
                      || (FindVar(vars, key).Some?
                          && ValueOf(StrippedBy(first, |vars|)) == Some(FindVar(vars, key).value.value))
                 else ValueOf(StrippedBy(first, |vars|)) == ValueOf(Stripped(first))
  {
    FirstOfBatch(text, vars, key);
    FirstOfEach(text, vars, key, First(Lines(text), key));
    if FindVar(vars, key).Some? { OwnIsReplaced(First(Lines(text), key), vars, key, FindVar(vars, key).value); }
    else { OthersAreRewritten(First(Lines(text), key), vars, key); }
    FindIsFirst(Lines(Batch(text, vars)), key);
    FindIsFirst(Lines(EachOf(text, vars)), key);
    FindVarIs(vars, key);
    if key in Keys(vars) { VarLineValue(FindVar(vars, key).value); }
  }

  // ---- tidy files ----

  /** A line as these functions write them: no spaces around its key, no carriage return. */
  predicate Tidy(line: string) {
    && (RawKey(line).Some? ==> Trim(RawKey(line).value) == RawKey(line).value)
    && StripCr(line) == line && OneLine(line)
  }

  predicate AllTidy(lines: seq<string>) {
    forall i :: 0 <= i < |lines| ==> Tidy(lines[i])
  }

  lemma {:induction false} TidyStays(line: Option<string>, n: nat)
    requires line.Some? ==> Tidy(line.value)
    ensures StrippedBy(line, n) == line
  {
    if n > 0 { TidyStays(line, n - 1); }
  }

  /** On tidy files the two forms always agree. */
  lemma {:induction false} TidyFilesAgree(text: string, vars: seq<Var>, key: string)
    requires AllTidy(Lines(text)) && ValidVars(vars) && DistinctKeys(vars) && ValidKey(key)
    ensures Find(Lines(Batch(text, vars)), key) == Find(Lines(EachOf(text, vars)), key)
  {
    var first := First(Lines(text), key);
    BatchAgreesWithEach(text, vars, key);
    FirstIsLine(Lines(text), key);
    TidyStays(first, |vars|);
    TidyStays(first, 1);
  }

  /** Saved files and batches over tidy files are tidy. */
  lemma {:induction false} WrittenFilesAreTidy(text: string, vars: seq<Var>)
    requires AllTidy(Lines(text)) && ValidVars(vars)
    ensures AllTidy(Lines(Batch(text, vars)))
  {
    KeptIsKept(Lines(text), Keys(vars));
    UnrelatedLinesSurvive(text, vars);
    VarLinesAreTidy(vars);
    TidyConcat(Kept(Lines(text), Keys(vars)), VarLines(vars));
  }

  lemma {:induction false} VarLinesAreTidy(vars: seq<Var>)
    requires ValidVars(vars)
    ensures AllTidy(VarLines(vars))
  {
    forall i | 0 <= i < |vars|
      ensures Tidy(VarLines(vars)[i])
    {
      VarLineBinds(vars[i]);
      VarLineIsALine(vars[i]);
    }
  }

  lemma {:induction false} TidyConcat(a: seq<string>, b: seq<string>)
    requires AllTidy(a) && AllTidy(b)
    ensures AllTidy(a + b)
  {
  }

  /** A key written with a space: the batch replaces its line, the single form leaves it first. */
  lemma {:induction false} SpacedKeyHidesSingle(v: Var, was: string)
    requires ValidKey(v.key) && v.key != "" && OneLine(v.value) && OneLine(was) && was != ""
    requires StripCr(was) == was && ReadValue(was) != v.value
    ensures var text := Text([v.key + " =" + was]);
            && Find(Lines(Batch(text, [v])), v.key) == Some(v.value)
            && Find(Lines(Single(text, v)), v.key) != Some(v.value)
  {
    var line := v.key + " =" + was;
    SpacedLine(v.key, was);
    LinesOfText([line]);
    assert Lines(Text([line])) == [line];
    FirstHead(line, [], v.key);
    assert [line] + [] == [line] && v in [v];
    BatchOverrides(Text([line]), [v], v.key);
    SingleBindsExactlyWhen(Text([line]), v);
  }

  lemma {:induction false} SpacedLine(key: string, was: string)
    requires ValidKey(key) && key != "" && OneLine(was) && was != "" && StripCr(was) == was
    ensures var line := key + " =" + was;
            && RawKey(line) == Some(key + " ") && Binding(line) == Some(Var(key, ReadValue(was)))
            && OneLine(line) && StripCr(line) == line
  {
    var line := key + " =" + was;
    assert line == (key + " ") + ['='] + was;
    UntilIs(key + " ", '=', was);
    assert line[..|key| + 1] == key + " " && line[|key| + 2..] == was;
    TrimEnd(key);
    assert line[|line| - 1] == was[|was| - 1];
  }

  lemma {:induction false} TrimEnd(key: string)
    requires Trim(key) == key && key != ""
    ensures Trim(key + " ") == key
  {
    TrimIsShorter(key[1..]);
    assert (key + " ")[0] == key[0] && (key + " ")[..|key|] == key;
  }

  lemma {:induction false} TrimIsShorter(s: string)
    ensures |Trim(s)| <= |s|
    decreases |s|
  {
    if s != "" && IsWhitespace(s[0]) { TrimIsShorter(s[1..]); }
    else if s != "" && IsWhitespace(s[|s| - 1]) { TrimIsShorter(s[..|s| - 1]); }
  }
}
