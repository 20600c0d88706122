/** Truncated previews (src/channels/web/util.rs). A string is a sequence of Unicode
    scalar values; lengths and cuts are counted in UTF-8 bytes as in the source. */
module Preview {
  const OPEN_TAG: string := "<tool_output"
  const CLOSE_TAG: string := "</tool_output>"
  const PREVIEW_BYTES: nat := 1000

  function CharBytes(c: char): (n: nat)
    ensures 1 <= n <= 4
  {
    var code := c as int;
    if code < 0x80 then 1 else if code < 0x800 then 2 else if code < 0x10000 then 3 else 4
  }

  /** The least code that takes n + 1 bytes (the table in section 3 of RFC 3629). */
  const FIRST_CODE: seq<int> := [0, 0x80, 0x800, 0x1_0000, 0x11_0000]

  lemma {:induction false} CharBytesByCode(c: char)
    ensures FIRST_CODE[CharBytes(c) - 1] <= c as int < FIRST_CODE[CharBytes(c)]
  {
  }

  function Bytes(s: string): nat {
    if s == "" then 0 else CharBytes(s[0]) + Bytes(s[1..])
  }

  /** The longest prefix of whole characters within a byte budget. */
  function Floor(s: string, max: nat): string {
    if s == "" || CharBytes(s[0]) > max then "" else [s[0]] + Floor(s[1..], max - CharBytes(s[0]))
  }

  predicate EndsWith(s: string, suffix: string) {
    |suffix| <= |s| && s[|s| - |suffix|..] == suffix
  }

  function TruncatePreview(s: string, max: nat): string {
    if Bytes(s) <= max then s
    else
      var cut := Floor(s, max) + "...";
      if OPEN_TAG <= s && !EndsWith(cut, CLOSE_TAG) then cut + "\n" + CLOSE_TAG else cut
  }

  lemma {:induction false} BytesConcat(a: string, b: string)
    ensures Bytes(a + b) == Bytes(a) + Bytes(b)
  {
    if a == "" {
      assert a + b == b;
    } else {
      BytesConcat(a[1..], b);
      assert (a + b)[1..] == a[1..] + b;
    }
  }

  /** The cut is a prefix, fits, and is at most 3 bytes short when anything is cut. */
  lemma {:induction false} FloorIsLongest(s: string, max: nat)
    ensures Floor(s, max) <= s && Bytes(Floor(s, max)) <= max
    ensures Bytes(s) > max ==> max <= Bytes(Floor(s, max)) + 3
    ensures 4 * |Floor(s, max)| >= Bytes(Floor(s, max))
  {
    if s != "" && CharBytes(s[0]) <= max {
      var rest := max - CharBytes(s[0]);
      FloorIsLongest(s[1..], rest);
      assert Floor(s, max)[1..] == Floor(s[1..], rest);
    }
  }

  lemma {:induction false} FloorConcat(a: string, b: string, max: nat)
    requires Bytes(a) <= max
    ensures Floor(a + b, max) == a + Floor(b, max - Bytes(a))
  {
    if a == "" {
      assert a + b == b;
    } else {
      var rest, left := a[1..], max - CharBytes(a[0]);
      FloorConcat(rest, b, left);
      FloorHead(a[0], rest + b, max);
      assert a + b == [a[0]] + (rest + b);
      assert [a[0]] + (rest + Floor(b, left - Bytes(rest))) == a + Floor(b, left - Bytes(rest));
    }
  }

  lemma {:induction false} FloorHead(c: char, rest: string, max: nat)
    requires CharBytes(c) <= max
    ensures Floor([c] + rest, max) == [c] + Floor(rest, max - CharBytes(c))
  {
    assert ([c] + rest)[1..] == rest;
  }

  predicate Ascii(s: string) { forall i :: 0 <= i < |s| ==> s[i] as int < 0x80 }

  lemma {:induction false} AsciiBytes(s: string)
    requires Ascii(s)
    ensures Bytes(s) == |s|
  {
    if s != "" { AsciiBytes(s[1..]); }
  }

  lemma {:induction false} AsciiFloor(s: string, max: nat)
    requires Ascii(s) && max <= |s|
    ensures Floor(s, max) == s[..max]
  {
    if max > 0 {
      AsciiFloor(s[1..], max - 1);
      assert s[..max] == [s[0]] + s[1..][..max - 1];
    }
  }

  /** What a cut string ends with. */
  function Ending(s: string): string {
    if OPEN_TAG <= s then "...\n" + CLOSE_TAG else "..."
  }

  lemma {:induction false} EndingShape(s: string, n: nat)
    requires n <= 3
    ensures Bytes(Ending(s)) == |Ending(s)| == if OPEN_TAG <= s then 18 else 3
    ensures Floor(Ending(s), n) == "..."[..n]
  {
    assert Ascii(Ending(s));
    AsciiBytes(Ending(s));
    AsciiFloor(Ending(s), n);
  }

  lemma {:induction false} DotsDoNotClose(f: string)
    ensures !EndsWith(f + "...", CLOSE_TAG)
  {
    var cut := f + "...";
    if |CLOSE_TAG| <= |cut| {
      assert cut[|cut| - |CLOSE_TAG|..][|CLOSE_TAG| - 1] == cut[|cut| - 1] == '.';
      assert CLOSE_TAG[|CLOSE_TAG| - 1] == '>';
    }
  }

  lemma {:induction false} CutShape(s: string, max: nat)
    requires Bytes(s) > max
    ensures TruncatePreview(s, max) == Floor(s, max) + Ending(s)
  {
    DotsDoNotClose(Floor(s, max));
    assert Floor(s, max) + ("...\n" + CLOSE_TAG) == Floor(s, max) + "..." + "\n" + CLOSE_TAG;
  }

  predicate SameStart(r: string, s: string, n: nat) {
    n <= |r| && n <= |s| && r[..n] == s[..n]
  }

  lemma {:induction false} SameEnding(r: string, s: string)
    requires SameStart(r, s, |OPEN_TAG|)
    ensures Ending(r) == Ending(s)
  {
    assert OPEN_TAG <= r <==> r[..|OPEN_TAG|] == OPEN_TAG;
    assert OPEN_TAG <= s <==> s[..|OPEN_TAG|] == OPEN_TAG;
  }

  /** Cutting again what starts like s and ends like a cut of s: the new cut fills the
      missing bytes with dots and appends the same ending. */
  lemma {:induction false} CutAgain(f: string, s: string, max: nat)
    requires SameStart(f, s, |OPEN_TAG|)
    requires Bytes(f) <= max <= Bytes(f) + 3 && Bytes(f) + Bytes(Ending(s)) > max
    ensures TruncatePreview(f + Ending(s), max) == f + "..."[..max - Bytes(f)] + Ending(s)
  {
    var r, n, e := f + Ending(s), max - Bytes(f), Ending(s);
    BytesConcat(f, e);
    CutShape(r, max);
    assert r[..|OPEN_TAG|] == f[..|OPEN_TAG|];
    SameEnding(r, s);
    FloorConcat(f, e, max);
    EndingShape(s, n);
  }

  /** A cut that a second truncation leaves alone: nothing cut, a cut at exactly the
      budget, or an untagged string whose dots bring it back to exactly the budget. */
  predicate CleanCut(s: string, max: nat) {
    || Bytes(s) <= max
    || Bytes(Floor(s, max)) == max
    || (Bytes(Floor(s, max)) + 3 == max && !(OPEN_TAG <= s))
  }

  /** Truncation is not idempotent: a second pass changes nothing exactly on clean cuts. */
  lemma {:induction false} TruncateTwice(s: string, max: nat)
    requires max >= 51
    ensures TruncatePreview(TruncatePreview(s, max), max) == TruncatePreview(s, max) <==> CleanCut(s, max)
  {
    if Bytes(s) > max {
      var f, e := Floor(s, max), Ending(s);
      FloorIsLongest(s, max);
      CutShape(s, max);
      BytesConcat(f, e);
      EndingShape(s, 0);
      if Bytes(f) + Bytes(e) > max {
        assert SameStart(f, s, |OPEN_TAG|) by { CutStart(s, max); }
        CutAgain(f, s, max);
        DotsChange(f, "..."[..max - Bytes(f)], e);
      }
    }
  }

  /** A long cut keeps the place of the opening tag. */
  lemma {:induction false} CutStart(s: string, max: nat)
    requires Bytes(s) > max && max >= 51
    ensures SameStart(Floor(s, max), s, |OPEN_TAG|)
  {
    FloorIsLongest(s, max);
  }

  lemma {:induction false} DotsChange(f: string, dots: string, e: string)
    ensures f + dots + e == f + e <==> dots == ""
  {
    assert |f + dots + e| == |f + e| + |dots|;
    if dots == "" { assert f + dots == f; }
  }

  /** Two passes are always enough. */
  lemma {:induction false} TruncateThrice(s: string, max: nat)
    requires max >= 51
    ensures var t := TruncatePreview(TruncatePreview(s, max), max); TruncatePreview(t, max) == t
  {
    TruncateTwice(s, max);
    if !CleanCut(s, max) {
      var f := Floor(s, max);
      FloorIsLongest(s, max);
      CutShape(s, max);
      EndingShape(s, 0);
      CutAgain(f, s, max);
      var dots := "..."[..max - Bytes(f)];
      var g := f + dots;
      BytesConcat(f, dots);
      AsciiBytes(dots);
      CutAgain(g, s, max);
      assert g + "..."[..0] == g;
    }
  }

  /** 998 one-byte characters, the euro sign (three bytes) and more text. */
  function Straddling(): string { seq(998, _ => 'a') + "\U{20AC}aaa" }

  /** An input on which truncation is not idempotent: the cut falls at 998 bytes. */
  lemma {:induction false} TruncateIsNotIdempotent()
    ensures var once := TruncatePreview(Straddling(), PREVIEW_BYTES);
            TruncatePreview(once, PREVIEW_BYTES) != once
  {
    var a, b: string := seq(998, _ => 'a'), "\U{20AC}aaa";
    AsciiBytes(a);
    BytesConcat(a, b);
    FloorConcat(a, b, PREVIEW_BYTES);
    assert Bytes(b) > 2 by { assert Bytes(b) == CharBytes(b[0]) + Bytes(b[1..]); }
    assert Floor(b, 2) == "";
    assert Floor(Straddling(), PREVIEW_BYTES) == a;
    TruncateTwice(Straddling(), PREVIEW_BYTES);
  }
}
