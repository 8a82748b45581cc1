/**
 Base-B positional arithmetic, shared by the multiprecision division and
 multiplication models.  Digits are stored most significant first, as the
 digit arrays of the division code are.
 */
module Digits {

  /** The digit base, 2^HALF_BITS for a 32-bit unsigned int. */
  const B: int := 0x1_0000

  /** One more than the largest unsigned int. */
  const WORD: int := 0x1_0000_0000

  type digit = x: int | 0 <= x < B

  /** Unsigned 32-bit wrap-around. */
  function U32(x: int): int { x % WORD }

  /** The upper and lower halves of an unsigned int. */
  function HHalf(x: int): int { x / B }

  function LHalf(x: int): int { x % B }

  function Pow(b: nat, e: nat): (p: nat)
    ensures b > 0 ==> p > 0
  {
    if e == 0 then 1 else PowPos(b, Pow(b, e - 1)); b * Pow(b, e - 1)
  }

  lemma PowPos(b: nat, p: nat)
    ensures b * p >= 0
    ensures b > 0 && p > 0 ==> b * p > 0
  {}

  lemma MulMono(a: int, b: int, c: int)
    requires a <= b && c >= 0
    ensures a * c <= b * c
  {}

  lemma Dist(a: int, b: int, c: int)
    ensures (a + b) * c == a * c + b * c
  {}

  lemma Assoc(a: int, b: int, c: int)
    ensures a * b * c == a * (b * c)
  {}

  lemma DivMod(x: int, r: int)
    requires r > 0
    ensures x == (x / r) * r + x % r && 0 <= x % r < r
    ensures x >= 0 ==> x / r >= 0
  {}

  lemma PowAdd(b: nat, m: nat, n: nat)
    ensures Pow(b, m + n) == Pow(b, m) * Pow(b, n)
    decreases m
  {
    if m == 0 {
    } else {
      PowAdd(b, m - 1, n);
      Assoc(b, Pow(b, m - 1), Pow(b, n));
    }
  }

  /** The number a digit string stands for. */
  function Val(s: seq<digit>): (v: nat)
  {
    if s == [] then 0 else Val(s[..|s| - 1]) * B + s[|s| - 1]
  }

  lemma {:induction false} ValBound(s: seq<digit>)
    ensures Val(s) < Pow(B, |s|)
  {
    if s == [] {
    } else {
      ValBound(s[..|s| - 1]);
      assert Val(s[..|s| - 1]) + 1 <= Pow(B, |s| - 1);
    }
  }

  /** Concatenation is shift and add. */
  lemma {:induction false} ValAppend(s: seq<digit>, t: seq<digit>)
    ensures Val(s + t) == Val(s) * Pow(B, |t|) + Val(t)
    decreases |t|
  {
    if t == [] {
      assert s + t == s;
    } else {
      var t' := t[..|t| - 1];
      assert (s + t)[..|s + t| - 1] == s + t';
      ValAppend(s, t');
      assert Pow(B, |t|) == B * Pow(B, |t'|);
      calc {
        Val(s + t);
        (Val(s) * Pow(B, |t'|) + Val(t')) * B + t[|t| - 1];
        Val(s) * Pow(B, |t'|) * B + Val(t);
        { assert Val(s) * Pow(B, |t'|) * B == Val(s) * (Pow(B, |t'|) * B); }
        Val(s) * Pow(B, |t|) + Val(t);
      }
    }
  }

  /** Splitting at a position, in terms of slices. */
  lemma ValSplit(s: seq<digit>, k: nat)
    requires k <= |s|
    ensures Val(s) == Val(s[..k]) * Pow(B, |s| - k) + Val(s[k..])
  {
    assert s == s[..k] + s[k..];
    ValAppend(s[..k], s[k..]);
  }

  /** The leading digit peeled off. */
  lemma ValCons(s: seq<digit>)
    requires s != []
    ensures Val(s) == s[0] * Pow(B, |s| - 1) + Val(s[1..])
  {
    ValSplit(s, 1);
    assert s[..1] == [s[0]];
    assert Val([s[0]]) == s[0] by { assert [s[0]][..0] == []; }
  }

  lemma {:induction false} ValZeros(s: seq<digit>)
    requires forall i :: 0 <= i < |s| ==> s[i] == 0
    ensures Val(s) == 0
  {
    if s == [] {
    } else {
      ValZeros(s[..|s| - 1]);
    }
  }

  /** Only zeros denote zero. */
  lemma {:induction false} ValZeroInv(s: seq<digit>)
    requires Val(s) == 0
    ensures forall i :: 0 <= i < |s| ==> s[i] == 0
  {
    if s == [] {
    } else {
      ValZeroInv(s[..|s| - 1]);
      forall i | 0 <= i < |s| ensures s[i] == 0 {
        if i < |s| - 1 { assert s[i] == s[..|s| - 1][i]; }
      }
    }
  }

  /** Bitwise or of two natural numbers. */
  function Or(x: nat, y: nat): (z: nat)
    decreases x + y
  {
    if x == 0 && y == 0 then 0
    else 2 * Or(x / 2, y / 2) + (if x % 2 == 1 || y % 2 == 1 then 1 else 0)
  }

  /** Or of operands whose bits do not overlap is addition. */
  lemma {:induction false} OrDisjoint(x: nat, y: nat, k: nat)
    requires y < Pow(2, k) && x % Pow(2, k) == 0
    ensures Or(x, y) == x + y
    decreases k
  {
    if k == 0 {
      OrZero(x);
    } else {
      var p := Pow(2, k - 1);
      var w := x / Pow(2, k);
      assert x == w * Pow(2, k) == w * (2 * p) == 2 * (w * p);
      assert x / 2 == w * p && (x / 2) % p == 0 by { ModMul(w, p); }
      OrDisjoint(x / 2, y / 2, k - 1);
    }
  }

  lemma {:induction false} OrSym(x: nat, y: nat)
    ensures Or(x, y) == Or(y, x)
    decreases x + y
  {
    if x != 0 || y != 0 { OrSym(x / 2, y / 2); }
  }

  lemma ModMul(w: nat, p: nat)
    requires p > 0
    ensures (w * p) % p == 0
  {
    DivModUnique(w * p, p, w, 0);
  }

  lemma {:induction false} OrZero(x: nat)
    ensures Or(x, 0) == x
    decreases x
  {
    if x == 0 {
    } else {
      OrZero(x / 2);
    }
  }

  /** Quotient and remainder are determined by the division identity. */
  lemma DivModUnique(a: int, b: int, q: int, r: int)
    requires b > 0 && a == q * b + r && 0 <= r < b
    ensures a / b == q && a % b == r
  {
    var q' := a / b;
    var r' := a % b;
    assert a == q' * b + r';
    assert (q' - q) * b == r - r' && (q - q') * b == r' - r;
    if q' > q {
      MulMono(1, q' - q, b);
    } else if q' < q {
      MulMono(1, q - q', b);
    }
  }
}
