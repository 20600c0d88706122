/** The synthetic tool-call ids `turn{n}_{i}` (src/agent/session.rs) never collide. */
module CallIds {
  function Digit(d: nat): char
    requires d < 10
  {
    ('0' as int + d) as char
  }

  function ShowNat(n: nat): string {
    if n < 10 then [Digit(n)] else ShowNat(n / 10) + [Digit(n % 10)]
  }

  function CallId(turn: nat, i: nat): string {
    "turn" + ShowNat(turn) + "_" + ShowNat(i)
  }

  lemma {:induction false} ShowNatInjective(a: nat, b: nat)
    requires ShowNat(a) == ShowNat(b)
    ensures a == b
  {
    ShowNatNonEmpty(a / 10);
    ShowNatNonEmpty(b / 10);
    if a >= 10 && b >= 10 {
      var x, y := ShowNat(a), ShowNat(b);
      assert x[..|x| - 1] == ShowNat(a / 10) && y[..|y| - 1] == ShowNat(b / 10);
      assert x[|x| - 1] == Digit(a % 10) && y[|y| - 1] == Digit(b % 10);
      ShowNatInjective(a / 10, b / 10);
    }
  }

  lemma {:induction false} ShowNatNonEmpty(n: nat)
    ensures ShowNat(n) != []
  {
  }

  lemma {:induction false} ShowNatDigits(n: nat)
    ensures '_' !in ShowNat(n)
  {
    if n >= 10 { ShowNatDigits(n / 10); }
  }

  lemma {:induction false} SeparatorSplits(a: string, b: string, c: string, d: string)
    requires '_' !in a && '_' !in c && a + "_" + b == c + "_" + d
    ensures a == c && b == d
  {
    var x, y := a + "_" + b, c + "_" + d;
    if a == [] || c == [] {
      assert x[0] == y[0];
      assert a == c;
      assert b == x[1..] && d == y[1..];
    } else {
      assert x[0] == a[0] && y[0] == c[0];
      assert x[1..] == a[1..] + "_" + b && y[1..] == c[1..] + "_" + d;
      SeparatorSplits(a[1..], b, c[1..], d);
      assert a == [a[0]] + a[1..] && c == [c[0]] + c[1..];
    }
  }

  lemma {:induction false} CallIdInjective(m: nat, i: nat, n: nat, j: nat)
    requires CallId(m, i) == CallId(n, j)
    ensures m == n && i == j
  {
    ShowNatDigits(m);
    ShowNatDigits(n);
    var x, y := ShowNat(m) + "_" + ShowNat(i), ShowNat(n) + "_" + ShowNat(j);
    assert CallId(m, i) == "turn" + x && CallId(n, j) == "turn" + y;
    assert x == CallId(m, i)[4..] && y == CallId(n, j)[4..];
    SeparatorSplits(ShowNat(m), ShowNat(i), ShowNat(n), ShowNat(j));
    ShowNatInjective(m, n);
    ShowNatInjective(i, j);
  }

  /** A number read from decimal digits. */
  function ReadDigits(s: string): nat
    requires forall i :: 0 <= i < |s| ==> '0' <= s[i] <= '9'
  {
    if s == [] then 0 else 10 * ReadDigits(s[..|s| - 1]) + (s[|s| - 1] as int - '0' as int)
  }

  /** Decimal digits of the number, without a leading zero. */
  predicate Writes(s: string, n: nat) {
    && s != [] && (forall i :: 0 <= i < |s| ==> '0' <= s[i] <= '9')
    && ReadDigits(s) == n && (|s| > 1 ==> s[0] != '0')
  }

  lemma {:induction false} ShowNatWrites(n: nat)
    ensures Writes(ShowNat(n), n)
  {
    if n >= 10 {
      ShowNatWrites(n / 10);
      var s := ShowNat(n);
      assert s[..|s| - 1] == ShowNat(n / 10);
    } else {
      assert ShowNat(n)[..0] == [];
    }
  }

  /** An id is the word turn, the turn's number, a separator and the call's, in decimal. */
  lemma {:induction false} CallIdReads(turn: nat, i: nat)
    ensures exists a, b :: Writes(a, turn) && Writes(b, i) && CallId(turn, i) == "turn" + a + "_" + b
  {
    ShowNatWrites(turn);
    ShowNatWrites(i);
  }
}
