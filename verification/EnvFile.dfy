/** The bootstrap .env file (src/bootstrap.rs) as a store of lines. */
module EnvFiles {
  import opened Whitespace
  import opened Wrappers

  datatype Var = Var(key: string, value: string)

  // ---- escaping ----

  /** str::replace of one character. */
  function ReplaceChar(s: string, c: char, with: string): string {
    if s == "" then "" else (if s[0] == c then with else [s[0]]) + ReplaceChar(s[1..], c, with)
  }

  function Escape(value: string): string {
    ReplaceChar(ReplaceChar(value, '\\', "\\\\"), '"', "\\\"")
  }

  /** What stands before a closing quote that ends the text, with its escapes undone. */
  function Unquote(s: string): Option<string> {
    if s == "" then None
    else if s[0] == '"' then if |s| == 1 then Some("") else None
    else if s[0] == '\\' then
      if |s| == 1 then None else Prepend(s[1], Unquote(s[2..]))
    else Prepend(s[0], Unquote(s[1..]))
  }

  function Prepend(c: char, s: Option<string>): Option<string> {
    if s.Some? then Some([c] + s.value) else None
  }

  lemma {:induction false} ReplaceConcat(a: string, b: string, c: char, with: string)
    ensures ReplaceChar(a + b, c, with) == ReplaceChar(a, c, with) + ReplaceChar(b, c, with)
  {
    if a == "" {
      assert a + b == b;
    } else {
      assert (a + b)[0] == a[0] && (a + b)[1..] == a[1..] + b;
      ReplaceConcat(a[1..], b, c, with);
    }
  }

  function EscapeChar(c: char): string {
    if c == '\\' then "\\\\" else if c == '"' then "\\\"" else [c]
  }

  /** The two passes work character by character. */
  lemma {:induction false} EscapeHead(value: string)
    requires value != ""
    ensures Escape(value) == EscapeChar(value[0]) + Escape(value[1..])
  {
    var first := if value[0] == '\\' then "\\\\" else [value[0]];
    ReplaceConcat(first, ReplaceChar(value[1..], '\\', "\\\\"), '"', "\\\"");
    assert ReplaceChar(value, '\\', "\\\\") == first + ReplaceChar(value[1..], '\\', "\\\\");
    EscapeOne(value[0]);
  }

  lemma {:induction false} EscapeOne(c: char)
    ensures ReplaceChar(if c == '\\' then "\\\\" else [c], '"', "\\\"") == EscapeChar(c)
  {
    assert [c][1..] == "" && "\\\\"[1..] == "\\" && "\\"[1..] == "";
    assert ReplaceChar("\\", '"', "\\\"") == "\\" + ReplaceChar("", '"', "\\\"");
    assert ReplaceChar([c], '"', "\\\"") == (if c == '"' then "\\\"" else [c]) + "";
    assert ReplaceChar("\\\\", '"', "\\\"") == "\\" + ReplaceChar("\\", '"', "\\\"");
  }

  /** Reading a quoted value gives back every value, and the escaping lets none end early. */
  lemma {:induction false} QuotedReadsBack(value: string)
    ensures Unquote(Escape(value) + "\"") == Some(value)
  {
    if value == "" {
      assert Escape(value) + "\"" == "\"";
    } else {
      var c, rest := value[0], Escape(value[1..]) + "\"";
      EscapeHead(value);
      QuotedReadsBack(value[1..]);
      assert Escape(value) + "\"" == EscapeChar(c) + rest;
      if c == '\\' || c == '"' {
        assert (EscapeChar(c) + rest)[2..] == rest;
      } else {
        assert (EscapeChar(c) + rest)[1..] == rest;
      }
      assert [c] + value[1..] == value;
    }
  }

  lemma {:induction false} EscapeAddsNoNewline(value: string)
    requires '\n' !in value
    ensures '\n' !in Escape(value)
  {
    if value != "" {
      EscapeHead(value);
      EscapeAddsNoNewline(value[1..]);
    }
  }

  // ---- lines ----

  function StripCr(line: string): string {
    if line != "" && line[|line| - 1] == '\r' then line[..|line| - 1] else line
  }

  function Until(s: string, c: char): (n: nat)
    ensures n <= |s| && c !in s[..n] && (n < |s| ==> s[n] == c)
  {
    if s == "" || s[0] == c then 0
    else
      var n := Until(s[1..], c);
      assert s[..n + 1] == [s[0]] + s[1..][..n];
      n + 1
  }

  /** str::lines(): ends at newlines, a carriage return before one goes with it. */
  function Lines(text: string): seq<string>
    decreases |text|
  {
    if text == "" then []
    else
      var n := Until(text, '\n');
      if n == |text| then [text] else [StripCr(text[..n])] + Lines(text[n + 1..])
  }

  function Text(lines: seq<string>): string {
    if lines == [] then "" else lines[0] + "\n" + Text(lines[1..])
  }

  function StripAll(lines: seq<string>): seq<string> {
    seq(|lines|, i requires 0 <= i < |lines| => StripCr(lines[i]))
  }

  predicate OneLine(s: string) {
    '\n' !in s
  }

  predicate AllOneLine(lines: seq<string>) {
    forall i :: 0 <= i < |lines| ==> OneLine(lines[i])
  }

  lemma {:induction false} UntilIs(a: string, c: char, b: string)
    requires c !in a
    ensures Until(a + [c] + b, c) == |a|
  {
    var s, n := a + [c] + b, Until(a + [c] + b, c);
    assert s[|a|] == c;
    assert forall k :: 0 <= k < |a| ==> s[k] == a[k] && a[k] in a;
    assert forall k :: 0 <= k < n ==> s[k] == s[..n][k] && s[..n][k] in s[..n];
  }

  lemma {:induction false} UntilEnd(s: string, c: char)
    requires c !in s
    ensures Until(s, c) == |s|
  {
  }

  lemma {:induction false} LinesHead(line: string, rest: string)
    requires OneLine(line)
    ensures Lines(line + "\n" + rest) == [StripCr(line)] + Lines(rest)
  {
    var text := line + "\n" + rest;
    UntilIs(line, '\n', rest);
    assert text == line + ['\n'] + rest;
    assert text[..|line|] == line && text[|line| + 1..] == rest;
  }

  lemma {:induction false} LinesOfText(lines: seq<string>)
    requires AllOneLine(lines)
    ensures Lines(Text(lines)) == StripAll(lines)
  {
    if lines != [] {
      LinesHead(lines[0], Text(lines[1..]));
      LinesOfText(lines[1..]);
      assert StripAll(lines) == [StripCr(lines[0])] + StripAll(lines[1..]);
    }
  }

  lemma {:induction false} LinesAreOneLine(text: string)
    ensures AllOneLine(Lines(text))
    decreases |text|
  {
    if text != "" {
      var n := Until(text, '\n');
      if n == |text| { assert text[..n] == text; }
      else { LinesAreOneLine(text[n + 1..]); }
    }
  }

  lemma {:induction false} TextConcat(a: seq<string>, b: seq<string>)
    ensures Text(a + b) == Text(a) + Text(b)
  {
    if a == [] {
      assert a + b == b;
    } else {
      assert (a + b)[0] == a[0] && (a + b)[1..] == a[1..] + b;
      TextConcat(a[1..], b);
    }
  }

  lemma {:induction false} TextHead(line: string, rest: seq<string>)
    ensures Text([line] + rest) == line + "\n" + Text(rest)
  {
    assert ([line] + rest)[1..] == rest;
  }

  // ---- bindings ----

  function Trim(s: string): string
    decreases |s|
  {
    if s != "" && IsWhitespace(s[0]) then Trim(s[1..])
    else if s != "" && IsWhitespace(s[|s| - 1]) then Trim(s[..|s| - 1])
    else s
  }

  /** The text before the first `=`, as it stands. */
  function RawKey(line: string): Option<string> {
    var n := Until(line, '=');
    if n < |line| then Some(line[..n]) else None
  }

  function LineKey(line: string): Option<string> {
    if RawKey(line).Some? then Some(Trim(RawKey(line).value)) else None
  }

  function ReadValue(s: string): string {
    if s != "" && s[0] == '"' && Unquote(s[1..]).Some? then Unquote(s[1..]).value else s
  }

  /** What a line binds: a quoted value unescaped, any other as it stands; comments nothing. */
  function Binding(line: string): Option<Var> {
    var key := LineKey(line);
    if key.None? || (key.value != "" && key.value[0] == '#') then None
    else Some(Var(key.value, ReadValue(line[Until(line, '=') + 1..])))
  }

  predicate ValidKey(key: string) {
    '=' !in key && '\n' !in key && Trim(key) == key && !(key != "" && key[0] == '#')
  }

  predicate ValidVars(vars: seq<Var>) {
    forall i :: 0 <= i < |vars| ==> ValidKey(vars[i].key) && OneLine(vars[i].value)
  }

  function VarLine(v: Var): string {
    v.key + "=\"" + Escape(v.value) + "\""
  }

  function VarLines(vars: seq<Var>): seq<string> {
    seq(|vars|, i requires 0 <= i < |vars| => VarLine(vars[i]))
  }

  function Keys(vars: seq<Var>): set<string> {
    set v | v in vars :: v.key
  }

  lemma {:induction false} KeySplits(key: string, rest: string)
    requires '=' !in key
    ensures Until(key + "=" + rest, '=') == |key|
    ensures RawKey(key + "=" + rest) == Some(key) && (key + "=" + rest)[|key| + 1..] == rest
  {
    assert key + "=" + rest == key + ['='] + rest;
    UntilIs(key, '=', rest);
    assert (key + "=" + rest)[..|key|] == key;
  }

  lemma {:induction false} VarLineSplits(v: Var)
    ensures VarLine(v) == v.key + "=" + ("\"" + (Escape(v.value) + "\""))
  {
  }

  lemma {:induction false} VarLineBinds(v: Var)
    requires ValidKey(v.key)
    ensures RawKey(VarLine(v)) == Some(v.key) && Binding(VarLine(v)) == Some(v)
  {
    VarLineSplits(v);
    var body := Escape(v.value) + "\"";
    KeySplits(v.key, "\"" + body);
    assert ("\"" + body)[1..] == body;
    QuotedReadsBack(v.value);
  }

  lemma {:induction false} VarLineIsALine(v: Var)
    requires ValidKey(v.key) && OneLine(v.value)
    ensures OneLine(VarLine(v)) && StripCr(VarLine(v)) == VarLine(v)
  {
    EscapeAddsNoNewline(v.value);
  }

  // ---- what the writers write ----

  predicate Overwritten(line: string, keys: set<string>) {
    LineKey(line).Some? && LineKey(line).value in keys
  }

  function Kept(lines: seq<string>, keys: set<string>): seq<string> {
    if lines == [] then []
    else if Overwritten(lines[0], keys) then Kept(lines[1..], keys)
    else [lines[0]] + Kept(lines[1..], keys)
  }

  function BatchLines(lines: seq<string>, vars: seq<Var>): seq<string> {
    Kept(lines, Keys(vars)) + VarLines(vars)
  }

  predicate Starts(line: string, key: string) {
    key + "=" <= line
  }

  /** The first line of the key replaced and its others dropped, or the new line at the end. */
  function SingleLines(lines: seq<string>, key: string, newLine: string, found: bool): seq<string> {
    if lines == [] then if found then [] else [newLine]
    else if Starts(lines[0], key) then
      if found then SingleLines(lines[1..], key, newLine, true)
      else [newLine] + SingleLines(lines[1..], key, newLine, true)
    else [lines[0]] + SingleLines(lines[1..], key, newLine, found)
  }

  // ---- the loops ----

  method KeepLines(lines: seq<string>, keys: set<string>) returns (text: string)
    ensures text == Text(Kept(lines, keys))
  {
    text := "";
    ghost var whole := Text(Kept(lines, keys));
    assert lines[0..] == lines && "" + whole == whole;
    for i := 0 to |lines|
      invariant whole == text + Text(Kept(lines[i..], keys))
    {
      var line := lines[i];
      ghost var rest := Kept(lines[i + 1..], keys);
      assert lines[i..][0] == line && lines[i..][1..] == lines[i + 1..];
      if !Overwritten(line, keys) {
        TextHead(line, rest);
        Regroup(text, line + "\n", Text(rest));
        text := text + (line + "\n");
      }
    }
    assert Kept(lines[|lines|..], keys) == [];
  }

  method AppendVars(start: string, vars: seq<Var>) returns (text: string)
    ensures text == start + Text(VarLines(vars))
  {
    text := start;
    for i := 0 to |vars|
      invariant text + Text(VarLines(vars[i..])) == start + Text(VarLines(vars))
    {
      VarLinesHead(vars[i..]);
      var line := VarLine(vars[i]) + "\n";
      Regroup(text, line, Text(VarLines(vars[i..][1..])));
      assert vars[i..][1..] == vars[i + 1..];
      text := text + line;
    }
    assert VarLines(vars[|vars|..]) == [];
  }

  lemma {:induction false} Regroup(a: string, b: string, c: string)
    ensures a + (b + c) == a + b + c
  {
  }

  lemma {:induction false} VarLinesHead(vars: seq<Var>)
    requires vars != []
    ensures Text(VarLines(vars)) == VarLine(vars[0]) + "\n" + Text(VarLines(vars[1..]))
  {
    var line := VarLine(vars[0]);
    assert VarLines(vars) == [line] + VarLines(vars[1..]);
    TextHead(line, VarLines(vars[1..]));
  }

  method ReplaceLine(lines: seq<string>, key: string, newLine: string) returns (text: string)
    ensures text == Text(SingleLines(lines, key, newLine, false))
  {
    var found := false;
    text := "";
    ghost var whole := Text(SingleLines(lines, key, newLine, false));
    assert lines[0..] == lines && "" + whole == whole;
    for i := 0 to |lines|
      invariant whole == text + Text(SingleLines(lines[i..], key, newLine, found))
    {
      var line := lines[i];
      ghost var rest := lines[i + 1..];
      assert lines[i..][0] == line && lines[i..][1..] == rest;
      SingleLinesHead(lines[i..], key, newLine, found);
      if !Starts(line, key) {
        Regroup(text, line + "\n", Text(SingleLines(rest, key, newLine, found)));
        text := text + (line + "\n");
      } else if !found {
        Regroup(text, newLine + "\n", Text(SingleLines(rest, key, newLine, true)));
        text := text + (newLine + "\n");
        found := true;
      }
    }
    assert lines[|lines|..] == [];
    if !found {
      text := text + newLine + "\n";
    }
  }

  lemma {:induction false} SingleLinesHead(lines: seq<string>, key: string, newLine: string, found: bool)
    requires lines != []
    ensures Text(SingleLines(lines, key, newLine, found)) ==
            if !Starts(lines[0], key) then lines[0] + "\n" + Text(SingleLines(lines[1..], key, newLine, found))
            else if found then Text(SingleLines(lines[1..], key, newLine, true))
            else newLine + "\n" + Text(SingleLines(lines[1..], key, newLine, true))
  {
    TextHead(lines[0], SingleLines(lines[1..], key, newLine, found));
    TextHead(newLine, SingleLines(lines[1..], key, newLine, true));
  }

  /** How the file system answers one call. */
  datatype Io =
    | Fine
    | NoDirectory
    | Unreadable                         // there is a file, but it cannot be read as text
    | WriteFails(left: Option<string>)   // and leaves the file so
    | ChmodFails

  function Existing(content: Option<string>): string {
    if content.Some? then content.value else ""
  }

  class EnvFile {
    var content: Option<string>

    constructor ()
      ensures content == None
    {
      content := None;
    }

    method Write(io: Io, text: string) returns (ok: bool)
      modifies this
      ensures ok == (io.Fine? || io.Unreadable?)
      ensures content == if io.WriteFails? then io.left else Some(text)
    {
      if io.WriteFails? {
        content := io.left;
        return false;
      }
      content := Some(text);
      ok := io.Fine? || io.Unreadable?;
    }

    method Save(io: Io, vars: seq<Var>) returns (ok: bool)
      modifies this
      ensures ok == (io.Fine? || io.Unreadable?)
      ensures content ==
              if io.NoDirectory? then old(content)
              else if io.WriteFails? then io.left
              else Some(Text(VarLines(vars)))
    {
      if io.NoDirectory? { return false; }
      var text := AppendVars("", vars);
      assert "" + Text(VarLines(vars)) == Text(VarLines(vars));
      ok := Write(io, text);
    }

    /** A file that is there but cannot be read stops the batch before it writes. */
    method UpsertVars(io: Io, vars: seq<Var>) returns (ok: bool)
      modifies this
      ensures ok == (io.Fine? || (io.Unreadable? && old(content).None?))
      ensures content ==
              if io.NoDirectory? || (io.Unreadable? && old(content).Some?) then old(content)
              else if io.WriteFails? then io.left
              else Some(Text(BatchLines(Lines(Existing(old(content))), vars)))
    {
      if io.NoDirectory? { return false; }
      if io.Unreadable? && content.Some? { return false; }
      var lines := Lines(Existing(content));
      var text := KeepLines(lines, Keys(vars));
      TextConcat(Kept(lines, Keys(vars)), VarLines(vars));
      text := AppendVars(text, vars);
      ok := Write(io, text);
    }

    /** The single form takes a file it cannot read for an empty one. */
    method UpsertVar(io: Io, v: Var) returns (ok: bool)
      modifies this
      ensures ok == (io.Fine? || io.Unreadable?)
      ensures content ==
              if io.NoDirectory? then old(content)
              else if io.WriteFails? then io.left
              else
                var lines := if io.Unreadable? then [] else Lines(Existing(old(content)));
                Some(Text(SingleLines(lines, v.key, VarLine(v), false)))
    {
      if io.NoDirectory? { return false; }
      var lines := if io.Unreadable? then [] else Lines(Existing(content));
      var text := ReplaceLine(lines, v.key, VarLine(v));
      ok := Write(io, text);
    }
  }
}
