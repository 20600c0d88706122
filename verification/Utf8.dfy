/** Cutting UTF-8 bytes (src/tracing_fmt.rs, src/util.rs). */
module Utf8 {
  type Bytes = seq<bv8>

  // ---- the grammar of section 4 of RFC 3629 ----

  predicate Tail(b: bv8) {
    0x80 <= b <= 0xBF
  }

  predicate Two(s: Bytes) {
    |s| >= 2 && 0xC2 <= s[0] <= 0xDF && Tail(s[1])
  }

  predicate Three(s: Bytes) {
    |s| >= 3 && Tail(s[1]) && Tail(s[2])
    && (|| (s[0] == 0xE0 && 0xA0 <= s[1]) || 0xE1 <= s[0] <= 0xEC
        || (s[0] == 0xED && s[1] <= 0x9F) || 0xEE <= s[0] <= 0xEF)
  }

  predicate Four(s: Bytes) {
    |s| >= 4 && Tail(s[1]) && Tail(s[2]) && Tail(s[3])
    && ((s[0] == 0xF0 && 0x90 <= s[1]) || 0xF1 <= s[0] <= 0xF3 || (s[0] == 0xF4 && s[1] <= 0x8F))
  }

  /** The length of the character the bytes start with, 0 if they start with none. */
  function HeadLength(s: Bytes): (n: nat)
    ensures n <= 4 && n <= |s|
    ensures forall i :: 1 <= i < n ==> Tail(s[i])
    ensures n > 0 ==> !Tail(s[0])
  {
    if s == [] then 0
    else if s[0] <= 0x7F then 1
    else if Two(s) then 2
    else if Three(s) then 3
    else if Four(s) then 4
    else 0
  }

  predicate Valid(s: Bytes)
    decreases |s|
  {
    s == [] || (HeadLength(s) > 0 && Valid(s[HeadLength(s)..]))
  }

  /** A position where a character starts or the bytes end, reading from the front. */
  predicate Boundary(s: Bytes, i: nat)
    decreases |s|
  {
    i == 0 || (0 < HeadLength(s) <= i && Boundary(s[HeadLength(s)..], i - HeadLength(s)))
  }

  /** The mask the code tests is the tail range of the grammar. */
  lemma {:induction false} MaskIsTail(b: bv8)
    ensures b & 0xC0 == 0x80 <==> Tail(b)
  {
  }

  /** Inside valid bytes the positions that are not boundaries are the tail bytes. */
  lemma {:induction false} BoundaryIsNoTail(s: Bytes, i: nat)
    requires Valid(s) && i <= |s|
    ensures Boundary(s, i) <==> i == |s| || !Tail(s[i])
    decreases |s|
  {
    if s != [] && i > 0 {
      var n := HeadLength(s);
      if i >= n { BoundaryIsNoTail(s[n..], i - n); }
    }
  }

  lemma {:induction false} HeadOfPrefix(s: Bytes, i: nat)
    requires i <= |s|
    ensures 0 < HeadLength(s) <= i ==> HeadLength(s[..i]) == HeadLength(s)
    ensures HeadLength(s[..i]) > 0 ==> HeadLength(s) == HeadLength(s[..i])
  {
  }

  /** Both halves of a cut are valid exactly when the cut is at a boundary. */
  lemma {:induction false} CutIsValid(s: Bytes, i: nat)
    requires Valid(s) && i <= |s|
    ensures Valid(s[..i]) <==> Boundary(s, i)
    ensures Boundary(s, i) ==> Valid(s[i..])
    decreases |s|
  {
    if i > 0 {
      var n := HeadLength(s);
      HeadOfPrefix(s, i);
      if n <= i {
        assert s[..i][n..] == s[n..][..i - n] && s[i..] == s[n..][i - n..];
        CutIsValid(s[n..], i - n);
      }
    } else {
      assert s[i..] == s;
    }
  }

  lemma {:induction false} HeadOfConcat(a: Bytes, b: Bytes)
    requires HeadLength(a) > 0
    ensures HeadLength(a + b) == HeadLength(a)
  {
    assert (a + b)[..|a|] == a;
    HeadOfPrefix(a + b, |a|);
  }

  lemma {:induction false} ConcatIsValid(a: Bytes, b: Bytes)
    requires Valid(a) && Valid(b)
    ensures Valid(a + b)
    decreases |a|
  {
    if a == [] {
      assert a + b == b;
    } else {
      HeadOfConcat(a, b);
      assert (a + b)[HeadLength(a)..] == a[HeadLength(a)..] + b;
      ConcatIsValid(a[HeadLength(a)..], b);
    }
  }

  lemma {:induction false} AsciiIsValid(s: Bytes)
    requires forall i :: 0 <= i < |s| ==> s[i] <= 0x7F
    ensures Valid(s)
  {
    if s != [] { AsciiIsValid(s[1..]); }
  }

  // ---- walking back ----

  /** The last position at or before `pos` that is 0 or no tail byte. */
  ghost predicate IsFloor(s: Bytes, pos: nat, f: nat) {
    && f <= pos && (f == 0 || (f < |s| && !Tail(s[f])))
    && forall i :: f < i <= pos && i < |s| ==> Tail(s[i])
  }

  /** The greatest boundary at or before `pos`. */
  ghost predicate IsGreatest(s: Bytes, pos: nat, f: nat) {
    f <= pos && Boundary(s, f) && forall k :: f < k <= pos ==> !Boundary(s, k)
  }

  method Utf8Floor(bytes: Bytes, pos: nat) returns (i: nat)
    requires pos == 0 || pos < |bytes|
    ensures i <= pos && IsFloor(bytes, pos, i)
  {
    i := pos;
    while i > 0 && bytes[i] & 0xC0 == 0x80
      invariant i <= pos
      invariant forall k :: i < k <= pos ==> Tail(bytes[k])
    {
      MaskIsTail(bytes[i]);
      i := i - 1;
    }
    if i > 0 { MaskIsTail(bytes[i]); }
  }

  method FloorCharBoundary(s: Bytes, pos: nat) returns (i: nat)
    requires Valid(s)
    ensures pos >= |s| ==> i == |s|
    ensures pos < |s| ==> IsGreatest(s, pos, i)
  {
    if pos >= |s| {
      return |s|;
    }
    i := pos;
    while i > 0 && !Boundary(s, i)
      invariant i <= pos
      invariant forall k :: i < k <= pos ==> !Boundary(s, k)
    {
      i := i - 1;
    }
  }

  /** In valid bytes the walk back over tail bytes ends at the greatest boundary at or before
      `pos`, at most three bytes before it. */
  lemma {:induction false} FloorIsGreatestBoundary(s: Bytes, pos: nat, f: nat)
    requires Valid(s) && pos < |s|
    ensures IsFloor(s, pos, f) <==> IsGreatest(s, pos, f)
    ensures IsFloor(s, pos, f) ==> pos - f <= 3
  {
    if f <= pos {
      BoundaryIsNoTail(s, f);
      BoundaryIsNoTail(s, 0);
      forall k | f < k <= pos
        ensures Boundary(s, k) <==> !Tail(s[k])
      {
        BoundaryIsNoTail(s, k);
      }
      if IsFloor(s, pos, f) {
        assert forall k :: f < k <= pos ==> Tail(s[k]);
        TailsAreFew(s, f, pos);
      }
    }
  }

  lemma {:induction false} TailsAreFew(s: Bytes, f: nat, pos: nat)
    requires Valid(s) && f <= pos < |s| && Boundary(s, f)
    requires forall i :: f < i <= pos ==> Tail(s[i])
    ensures pos - f <= 3
  {
    var rest := s[f..];
    CutIsValid(s, f);
    var n := HeadLength(rest);
    assert n < |rest| ==> !Tail(rest[n]) by {
      if n < |rest| { BoundaryIsNoTail(rest, n); assert Boundary(rest[n..], 0); }
    }
    assert forall i :: 0 <= i < |rest| ==> rest[i] == s[f + i];
  }

  /** The two ways of flooring agree inside the bytes. */
  lemma {:induction false} FloorsAgree(s: Bytes, pos: nat, f: nat, g: nat)
    requires Valid(s) && pos < |s| && IsFloor(s, pos, f) && IsGreatest(s, pos, g)
    ensures f == g
  {
    FloorIsGreatestBoundary(s, pos, f);
    assert Boundary(s, f) && Boundary(s, g);
  }

  // ---- the event buffer ----

  function Digit(d: nat): (b: bv8)
    requires d < 10
    ensures 0x30 <= b <= 0x39
  {
    [0x30, 0x31, 0x32, 0x33, 0x34, 0x35, 0x36, 0x37, 0x38, 0x39][d]
  }

  function Decimal(n: nat): Bytes {
    if n < 10 then [Digit(n)] else Decimal(n / 10) + [Digit(n % 10)]
  }

  /** `...[{n}B total]` and a newline. */
  function Suffix(n: nat): Bytes {
    [0x2E, 0x2E, 0x2E, 0x5B] + Decimal(n) + [0x42, 0x20, 0x74, 0x6F, 0x74, 0x61, 0x6C, 0x5D, 0x0A]
  }

  /** A number read from decimal digits. */
  function ReadDecimal(s: Bytes): int {
    if s == [] then 0 else 10 * ReadDecimal(s[..|s| - 1]) + (s[|s| - 1] as int - 0x30)
  }

  /** The digits of the number, most significant first and without a leading zero. */
  lemma {:induction false} DecimalReads(n: nat)
    ensures var s := Decimal(n);
            && s != [] && (forall i :: 0 <= i < |s| ==> 0x30 <= s[i] <= 0x39)
            && ReadDecimal(s) == n && (|s| > 1 ==> s[0] != 0x30)
  {
    var s := Decimal(n);
    DigitReads(n % 10);
    if n < 10 {
      assert s[..0] == [];
    } else {
      DecimalReads(n / 10);
      assert s[..|s| - 1] == Decimal(n / 10);
    }
  }

  lemma {:induction false} DigitReads(d: nat)
    requires d < 10
    ensures Digit(d) as int == 0x30 + d
  {
  }

  /** The bytes of a text whose characters are all ASCII. */
  function AsciiBytes(s: string): Bytes
    requires forall i :: 0 <= i < |s| ==> s[i] as int < 0x80
  {
    seq(|s|, i requires 0 <= i < |s| => s[i] as bv8)
  }

  /** The mark of a cut event: dots, the size of the whole event in bytes, and a newline. */
  lemma {:induction false} SuffixReads(n: nat)
    ensures Suffix(n) == AsciiBytes("...[") + Decimal(n) + AsciiBytes("B total]\n")
  {
    OpeningReads();
    ClosingReads();
  }

  lemma {:induction false} OpeningReads()
    ensures AsciiBytes("...[") == [0x2E, 0x2E, 0x2E, 0x5B]
  {
  }

  lemma {:induction false} ClosingReads()
    ensures AsciiBytes("B total]\n") == [0x42, 0x20, 0x74, 0x6F, 0x74, 0x61, 0x6C, 0x5D, 0x0A]
  {
  }

  lemma {:induction false} DecimalIsAscii(n: nat)
    ensures forall i :: 0 <= i < |Decimal(n)| ==> Decimal(n)[i] <= 0x7F
  {
    if n >= 10 { DecimalIsAscii(n / 10); }
  }

  lemma {:induction false} SuffixIsValid(n: nat)
    ensures Valid(Suffix(n))
  {
    ghost var digits := Decimal(n);
    DecimalIsAscii(n);
    AsciiIsValid([0x2E, 0x2E, 0x2E, 0x5B]);
    AsciiIsValid(digits);
    AsciiIsValid([0x42, 0x20, 0x74, 0x6F, 0x74, 0x61, 0x6C, 0x5D, 0x0A]);
    ConcatIsValid([0x2E, 0x2E, 0x2E, 0x5B], digits);
    ConcatIsValid([0x2E, 0x2E, 0x2E, 0x5B] + digits, [0x42, 0x20, 0x74, 0x6F, 0x74, 0x61, 0x6C, 0x5D, 0x0A]);
  }

  /** What is kept of a cut: without a newline at its end. */
  function Trimmed(cut: Bytes): Bytes {
    if cut != [] && cut[|cut| - 1] == 0x0A then cut[..|cut| - 1] else cut
  }

  /** One newline at the end of the cut goes, and nothing else. */
  lemma {:induction false} OneNewlineGoes(cut: Bytes, line: Bytes)
    ensures Trimmed(line + [0x0A]) == line
    ensures cut == Trimmed(cut) || cut == Trimmed(cut) + [0x0A]
    ensures cut == [] || cut[|cut| - 1] != 0x0A ==> Trimmed(cut) == cut
  {
    assert (line + [0x0A])[..|line|] == line;
  }

  class EventBuffer {
    var buf: Bytes
    const maxBytes: nat

    constructor (maxBytes: nat)
      ensures this.maxBytes == maxBytes && buf == []
    {
      this.maxBytes := maxBytes;
      buf := [];
    }

    method Write(data: Bytes) returns (n: nat)
      modifies this
      ensures buf == old(buf) + data && n == |data|
    {
      buf := buf + data;
      n := |data|;
    }

    /** The bytes that reach the terminal when the buffer is dropped. */
    method Drop() returns (output: Bytes)
      ensures |buf| <= maxBytes ==> output == buf
      ensures |buf| > maxBytes ==>
                exists cut: nat ::
                  cut <= maxBytes && IsFloor(buf, maxBytes, cut) && output == Trimmed(buf[..cut]) + Suffix(|buf|)
      ensures Valid(buf) ==> Valid(output)
    {
      if |buf| <= maxBytes {
        return buf;
      }
      var cut := Utf8Floor(buf, maxBytes);
      var slice := buf[..cut];
      var trimmed := if slice != [] && slice[|slice| - 1] == 0x0A then slice[..|slice| - 1] else slice;
      output := trimmed + Suffix(|buf|);
      if Valid(buf) { OutputIsValid(buf, maxBytes, cut); }
    }
  }

  lemma {:induction false} OutputIsValid(s: Bytes, max: nat, cut: nat)
    requires Valid(s) && max < |s| && IsFloor(s, max, cut)
    ensures Valid(Trimmed(s[..cut]) + Suffix(|s|))
  {
    FloorIsGreatestBoundary(s, max, cut);
    CutIsValid(s, cut);
    TrimmedIsValid(s[..cut]);
    SuffixIsValid(|s|);
    ConcatIsValid(Trimmed(s[..cut]), Suffix(|s|));
  }

  lemma {:induction false} TrimmedIsValid(cut: Bytes)
    requires Valid(cut)
    ensures Valid(Trimmed(cut))
  {
    if cut != [] && cut[|cut| - 1] == 0x0A {
      var last := |cut| - 1;
      assert !Tail(cut[last]);
      BoundaryIsNoTail(cut, last);
      CutIsValid(cut, last);
    }
  }

  /** A truncated event keeps a prefix within four bytes of the limit: three of a split
      character and a newline. */
  lemma {:induction false} LittleIsLost(s: Bytes, max: nat, cut: nat)
    requires Valid(s) && max < |s| && IsFloor(s, max, cut)
    ensures Trimmed(s[..cut]) <= s && max - 4 <= |Trimmed(s[..cut])| <= max
  {
    FloorIsGreatestBoundary(s, max, cut);
  }
}
