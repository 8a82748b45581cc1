/**
 Multiprecision division of 64-bit numbers in base 2^16: Knuth's Algorithm D
 (The Art of Computer Programming, volume 2, section 4.3.1) over digit arrays
 that are updated in place, with 32-bit wrap-around borrows.
 */
module Qdivrem {
  import opened Digits

  /** Two digits side by side; the operands of the or never overlap. */
  function Combine(a: digit, b: digit): (r: int)
    ensures r == a * B + b && r < WORD
  {
    CombineSum(a, b);
    Or(U32(a * B), b)
  }

  lemma CombineSum(a: digit, b: digit)
    ensures 0 <= U32(a * B) && Or(U32(a * B), b) == a * B + b
  {
    PowTwo16();
    hide Pow, Or;
    OrDisjoint(a * B, b, 16);
  }

  lemma PowTwo16()
    ensures Pow(2, 16) == B
  {
    PowAdd(2, 8, 8);
    assert Pow(2, 8) == 256 by { PowAdd(2, 4, 4); }
  }

  /** 2^d and 2^(16-d) multiply to the base. */
  lemma PowSplit(d: nat)
    requires d <= 16
    ensures Pow(2, d) * Pow(2, 16 - d) == B
  {
    PowAdd(2, d, 16 - d);
    PowTwo16();
  }

  //////////////////////////////////////////////////////////////////////
  // Shifting digit strings

  /** A digit times p splits into what stays and what is carried out. */
  lemma ShiftInt(x: int, p: int, r: int)
    requires 0 <= x < B && p > 0 && r > 0 && p * r == B
    ensures x * p == (x / r) * B + LHalf(x * p)
    ensures 0 <= x / r < p
    ensures LHalf(x * p) == (x % r) * p
    ensures LHalf(x * p) % p == 0
    ensures 0 <= LHalf(x * p) <= B - p
  {
    var h, l := x / r, x % r;
    DivMod(x, r);
    assert x * p == h * B + l * p by {
      assert x * p == (h * r + l) * p;
      Dist(h * r, l, p);
      Assoc(h, r, p);
      assert r * p == B;
    }
    assert 0 <= l * p <= B - p by { MulMono(l, r - 1, p); MulMono(0, l, p); Dist(r, -1, p); }
    DivModUnique(x * p, B, h, l * p);
    ModMul(l, p);
    if h >= p { MulMono(p, h, r); }
  }

  /** A digit moved left by sh bits, and the digit to its right moving into the gap. */
  lemma ShiftDigit(x: digit, y: digit, sh: nat)
    requires sh <= 16
    ensures x * Pow(2, sh) == (x / Pow(2, 16 - sh)) * B + LHalf(x * Pow(2, sh))
    ensures LHalf(x * Pow(2, sh)) == (x % Pow(2, 16 - sh)) * Pow(2, sh)
    ensures 0 <= y / Pow(2, 16 - sh) && LHalf(x * Pow(2, sh)) + y / Pow(2, 16 - sh) < B
    ensures Or(LHalf(x * Pow(2, sh)), y / Pow(2, 16 - sh)) == LHalf(x * Pow(2, sh)) + y / Pow(2, 16 - sh)
    ensures Or(y / Pow(2, 16 - sh), LHalf(x * Pow(2, sh))) == LHalf(x * Pow(2, sh)) + y / Pow(2, 16 - sh)
  {
    var p, r := Pow(2, sh), Pow(2, 16 - sh);
    PowSplit(sh);
    ShiftInt(x, p, r);
    ShiftInt(y, p, r);
    OrDisjoint(LHalf(x * p), y / r, sh);
    OrSym(LHalf(x * p), y / r);
  }

  /** The digit `shl` stores at position i of p[0..len]. */
  function ShlDigit(s: seq<digit>, sh: nat, i: nat): (r: digit)
    requires sh <= 16 && i < |s|
    ensures r == LHalf(s[i] * Pow(2, sh)) + (if i + 1 < |s| then s[i + 1] / Pow(2, 16 - sh) else 0)
  {
    var lo := LHalf(s[i] * Pow(2, sh));
    if i + 1 < |s| then
      ShiftDigit(s[i], s[i + 1], sh);
      Or(lo, s[i + 1] / Pow(2, 16 - sh))
    else lo
  }

  /** Shifting every digit multiplies the number, less what falls out on the left. */
  lemma {:induction false} ShlVal(s: seq<digit>, t: seq<digit>, sh: nat, k: nat)
    requires sh <= 16 && 0 < k <= |s| == |t|
    requires forall i :: 0 <= i < |s| ==> t[i] == ShlDigit(s, sh, i)
    ensures Val(s[..k]) * Pow(2, sh)
         == s[0] / Pow(2, 16 - sh) * Pow(B, k) + Val(t[..k - 1]) * B + LHalf(s[k - 1] * Pow(2, sh))
    decreases k
  {
    hide Pow, Val;
    var p := Pow(2, sh);
    ShiftDigit(s[k - 1], s[k - 1], sh);
    PowUp(k);
    ValLast(s, k);
    var h := s[0] / Pow(2, 16 - sh);
    if k == 1 {
      ValNone(s);
      ValNone(t);
    } else {
      ShlVal(s, t, sh, k - 1);
      ValLast(t, k - 1);
      ShlStep(Val(s[..k - 1]), s[k - 1], p, h, Pow(B, k - 1), Val(t[..k - 2]),
              LHalf(s[k - 2] * p), s[k - 1] / Pow(2, 16 - sh), LHalf(s[k - 1] * p));
    }
  }

  lemma PowUp(k: nat)
    requires k > 0
    ensures Pow(B, k) == B * Pow(B, k - 1) && Pow(B, 0) == 1
  {}

  lemma ValLast(s: seq<digit>, k: nat)
    requires 0 < k <= |s|
    ensures Val(s[..k]) == Val(s[..k - 1]) * B + s[k - 1]
  {
    assert s[..k][..k - 1] == s[..k - 1];
  }

  lemma ValNone(s: seq<digit>)
    ensures Val(s[..0]) == 0
  {}

  lemma ShlStep(x: int, y: int, p: int, h: int, w: int, z: int, l: int, c: int, l': int)
    requires x * p == h * w + z * B + l
    requires y * p == c * B + l'
    ensures (x * B + y) * p == h * (B * w) + (z * B + (l + c)) * B + l'
  {}

  ghost predicate Scaled(x: int, y: int, p: int)
  {
    x == y * p
  }

  /** t is s times 2^sh, less the bits that fall out on the left. */
  ghost predicate ShiftedLeft(t: seq<digit>, s: seq<digit>, sh: nat)
    requires sh <= 16
  {
    && |t| == |s| > 0
    && s[0] / Pow(2, 16 - sh) * Pow(B, |s|) + Val(t) == Val(s) * Pow(2, sh)
  }

  lemma ShlWhole(s: seq<digit>, t: seq<digit>, sh: nat)
    requires sh <= 16 && 0 < |s| == |t|
    requires forall i :: 0 <= i < |s| ==> t[i] == ShlDigit(s, sh, i)
    ensures ShiftedLeft(t, s, sh)
  {
    var k := |s|;
    ShlVal(s, t, sh, k);
    assert s[..k] == s;
    assert t[..k - 1] + [t[k - 1]] == t;
  }

  lemma NothingLost(t: seq<digit>, s: seq<digit>, sh: nat)
    requires sh <= 16 && ShiftedLeft(t, s, sh) && s[0] < Pow(2, 16 - sh)
    ensures Scaled(Val(t), Val(s), Pow(2, sh))
  {
    SmallQuotient(s[0], Pow(2, 16 - sh), Pow(B, |s|));
  }

  lemma SmallQuotient(x: int, r: int, w: int)
    requires 0 <= x < r
    ensures x / r * w == 0
  {}

  /** Shift p[off..off+len] left in place; len+1 digits are written. */
  method Shl(p: array<digit>, off: nat, len: nat, sh: nat)
    requires off + len < p.Length && sh <= 16
    modifies p
    ensures forall i :: 0 <= i < p.Length && !(off <= i <= off + len) ==> p[i] == old(p[i])
    ensures ShiftedLeft(p[off..off + len + 1], old(p[off..off + len + 1]), sh)
  {
    ghost var s := p[off..off + len + 1];
    var i := 0;
    while i < len
      invariant 0 <= i <= len
      invariant forall k :: 0 <= k < p.Length && !(off <= k < off + i) ==> p[k] == old(p[k])
      invariant forall k :: 0 <= k < i ==> p[off + k] == ShlDigit(s, sh, k)
    {
      assert p[off + i] == s[i] && p[off + i + 1] == s[i + 1];
      ShiftDigit(p[off + i], p[off + i + 1], sh);
      p[off + i] := Or(LHalf(p[off + i] * Pow(2, sh)), p[off + i + 1] / Pow(2, 16 - sh));
      i := i + 1;
    }
    assert p[off + i] == s[len];
    p[off + i] := LHalf(p[off + i] * Pow(2, sh));
    ghost var t := p[off..off + len + 1];
    ShlWhole(s, t, sh);
  }

  /** The digit the denormalising loop stores: the low bits of the digit to the left come in on top. */
  function ShrDigit(s: seq<digit>, d: nat, i: nat): (r: digit)
    requires d <= 16 && 0 < i < |s|
    ensures r == s[i] / Pow(2, d) + (s[i - 1] % Pow(2, d)) * Pow(2, 16 - d)
  {
    ShiftDigit(s[i - 1], s[i], 16 - d);
    Or(s[i] / Pow(2, d), LHalf(s[i - 1] * Pow(2, 16 - d)))
  }

  /** Shifting every digit right divides the number. */
  lemma {:induction false} ShrVal(s: seq<digit>, t: seq<digit>, d: nat, k: nat)
    requires d <= 16 && 0 < k <= |s| == |t| && s[0] == 0
    requires forall i :: 0 < i < |s| ==> t[i] == ShrDigit(s, d, i)
    ensures Val(s[..k]) == Val(t[1..k]) * Pow(2, d) + s[k - 1] % Pow(2, d)
  {
    assert s[..k][..k - 1] == s[..k - 1];
    if k == 1 {
      assert Val(s[..1]) == 0 && t[1..1] == [];
      ModMul(0, Pow(2, d));
    } else {
      ShrVal(s, t, d, k - 1);
      assert t[1..k][..k - 2] == t[1..k - 1];
      PowSplit(d);
      ShrStep(Val(t[1..k - 1]), Pow(2, d), Pow(2, 16 - d), s[k - 2], s[k - 1], t[k - 1], Val(s[..k - 1]));
    }
  }

  lemma ShrStep(n: int, p: int, r: int, x: int, y: int, z: int, w: int)
    requires p > 0 && p * r == B
    requires z == y / p + (x % p) * r
    requires w == n * p + x % p
    ensures w * B + y == (n * B + z) * p + y % p
  {}

  ghost predicate ShiftedRight(t: seq<digit>, s: seq<digit>, d: nat)
  {
    Val(t) == Val(s) / Pow(2, d)
  }

  /** Shift u[off..off+len] right in place, into u[off+1..off+len]; u[off] is cleared. */
  method Shr(u: array<digit>, off: nat, len: nat, d: nat)
    requires off + len < u.Length && 0 < d <= 16
    modifies u
    ensures forall i :: 0 <= i < u.Length && !(off <= i <= off + len) ==> u[i] == old(u[i])
    ensures u[off] == 0
    ensures old(u[off]) == 0 ==> ShiftedRight(u[off..off + len + 1], old(u[off..off + len + 1]), d)
  {
    ghost var s := u[off..off + len + 1];
    var i := off + len;
    while i > off
      invariant off <= i <= off + len
      invariant forall k :: 0 <= k < u.Length && !(i < k <= off + len) ==> u[k] == old(u[k])
      invariant forall k :: i < k <= off + len ==> u[k] == ShrDigit(s, d, k - off)
    {
      assert u[i] == s[i - off] && u[i - 1] == s[i - off - 1];
      ShiftDigit(u[i - 1], u[i], 16 - d);
      u[i] := Or(u[i] / Pow(2, d), LHalf(u[i - 1] * Pow(2, 16 - d)));
      i := i - 1;
    }
    u[i] := 0;
    ghost var t := u[off..off + len + 1];
    if s[0] == 0 { ShrWhole(s, t, d); }
  }

  lemma ShrWhole(s: seq<digit>, t: seq<digit>, d: nat)
    requires d <= 16 && 0 < |s| == |t| && s[0] == 0 && t[0] == 0
    requires forall i :: 0 < i < |s| ==> t[i] == ShrDigit(s, d, i)
    ensures ShiftedRight(t, s, d)
  {
    var k := |s|;
    ShrVal(s, t, d, k);
    assert s[..k] == s;
    ValCons(t);
    assert t[1..k] == t[1..];
    Quotient(Val(s), Pow(2, d), Val(t), s[k - 1]);
  }

  lemma Quotient(a: int, p: int, q: int, x: int)
    requires p > 0 && a == q * p + x % p
    ensures a / p == q
  {
    DivMod(x, p);
    DivModUnique(a, p, q, x % p);
  }

  //////////////////////////////////////////////////////////////////////
  // Step D3: estimating a quotient digit

  /** q is the largest digit with q * v at most u. */
  ghost predicate BestDigit(q: int, v: int, u: int)
  {
    0 <= q < B && q * v <= u && (q == B - 1 || (q + 1) * v > u)
  }

  /** x is the number U without the digits of weight below W. */
  ghost predicate Truncates(x: int, W: int, U: int)
  {
    x * W <= U < (x + 1) * W
  }

  /**
   Two digits of divisor against three of dividend.  The result is the largest
   digit whose product with v1v2 does not exceed u0u1u2.
   */
  method EstimateDigit(u0: digit, u1: digit, u2: digit, v1: digit, v2: digit)
    returns (qhat: int)
    requires v1 >= B / 2
    requires u0 * B + u1 <= v1 * B + v2
    ensures 0 <= qhat < B
    ensures BestDigit(qhat, v1 * B + v2, (u0 * B + u1) * B + u2)
  {
    var rhat: int;
    var tooBig := u0 == v1;
    if tooBig {
      qhat := B;
      rhat := u1;
    } else {
      var nn := Combine(u0, u1);
      qhat := nn / v1;
      rhat := nn % v1;
      FirstEstimate(u0, u1, u2, v1, v2);
    }
    while tooBig || U32(v2 * qhat) > Combine(rhat, u2)
      invariant 0 <= rhat < B && 0 <= qhat <= B
      invariant !tooBig ==> qhat < B
      invariant tooBig ==> qhat == B
      invariant Bracket(u0, u1, u2, v1, v2, qhat, rhat)
      decreases qhat
    {
      Correct(u0, u1, u2, v1, v2, qhat, rhat);
      tooBig := false;
      qhat := qhat - 1;
      rhat := rhat + v1;
      if rhat >= B { break; }
    }
    Settled(u0, u1, u2, v1, v2, qhat, rhat);
  }

  /** rhat is what is left of u0u1 after qhat * v1, and no digit above qhat can be right. */
  ghost predicate Bracket(u0: digit, u1: digit, u2: digit, v1: digit, v2: digit, q: int, r: int)
  {
    && q * v1 + r == u0 * B + u1
    && (q >= B - 1 || (q + 1) * (v1 * B + v2) > (u0 * B + u1) * B + u2)
  }

  lemma Correct(u0: digit, u1: digit, u2: digit, v1: digit, v2: digit, q: int, r: int)
    requires Bracket(u0, u1, u2, v1, v2, q, r)
    requires 0 <= r && (q == B || (0 <= q < B && U32(v2 * q) > r * B + u2))
    ensures q > 0 && Bracket(u0, u1, u2, v1, v2, q - 1, r + v1)
  {
    Dist(q, -1, v1);
    if q < B {
      Products(v2, q);
      assert q != 0;
      assert q * (v1 * B + v2) == q * v1 * B + v2 * q by { Split(q, v1, v2); }
    }
  }

  lemma Settled(u0: digit, u1: digit, u2: digit, v1: digit, v2: digit, q: digit, r: int)
    requires Bracket(u0, u1, u2, v1, v2, q, r)
    requires r >= B || U32(v2 * q) <= r * B + u2
    ensures BestDigit(q, v1 * B + v2, (u0 * B + u1) * B + u2)
  {
    Products(v2, q);
    Split(q, v1, v2);
  }

  lemma Split(q: int, v1: int, v2: int)
    ensures q * (v1 * B + v2) == q * v1 * B + v2 * q
  {}

  lemma Products(v: digit, q: digit)
    ensures 0 <= v * q <= (B - 1) * (B - 1) && U32(v * q) == v * q
  {
    MulMono(0, v, q);
    MulMono(v, B - 1, q);
  }

  lemma FirstEstimate(u0: digit, u1: digit, u2: digit, v1: digit, v2: digit)
    requires u0 < v1
    ensures 0 <= (u0 * B + u1) / v1 < B && 0 <= (u0 * B + u1) % v1 < v1
    ensures ((u0 * B + u1) / v1) * v1 + (u0 * B + u1) % v1 == u0 * B + u1
    ensures ((u0 * B + u1) / v1 + 1) * (v1 * B + v2) > (u0 * B + u1) * B + u2
  {
    var nn := u0 * B + u1;
    var q := nn / v1;
    assert nn == q * v1 + nn % v1;
    if q >= B { MulMono(B, q, v1); }
    assert (q + 1) * v1 == q * v1 + v1 >= nn + 1;
    assert (q + 1) * (v1 * B + v2) == (q + 1) * v1 * B + (q + 1) * v2;
    MulMono(0, q + 1, v2);
  }

  /**
   The estimate from the leading digits is the true quotient digit or one more.
   U and V are u[j..j+n] and v[1..n]; W is the weight of the digits the estimate ignored.
   */
  lemma TrialDigit(U: nat, V: nat, W: nat, u3: nat, v2: nat, qhat: int)
    requires W > 0 && V > 0 && U < V * B && v2 >= B
    requires Truncates(u3, W, U) && Truncates(v2, W, V)
    requires BestDigit(qhat, v2, u3)
    ensures qhat == U / V || qhat == U / V + 1
  {
    EstimateInt(U, V, W, u3, v2, qhat);
    Dist(qhat, -1, V);
    if U - qhat * V >= 0 {
      DivModUnique(U, V, qhat, U - qhat * V);
    } else {
      DivModUnique(U, V, qhat - 1, U - qhat * V + V);
    }
  }

  lemma EstimateInt(U: int, V: int, W: int, u3: int, v2: int, q: int)
    requires W > 0 && U < V * B && v2 >= B
    requires Truncates(u3, W, U) && Truncates(v2, W, V)
    requires BestDigit(q, v2, u3)
    ensures U - q * V < V && U - q * V + V > 0
  {
    NotTooSmall(U, V, W, u3, v2, q);
    NotTooLarge(U, V, W, u3, v2, q);
  }

  lemma NotTooSmall(U: int, V: int, W: int, u3: int, v2: int, q: int)
    requires 0 <= q < B && W > 0
    requires U < (u3 + 1) * W && v2 * W <= V
    requires U < V * B
    requires q == B - 1 || (q + 1) * v2 > u3
    ensures U - q * V < V
  {
    Dist(q, 1, V);
    if q != B - 1 {
      MulMono(u3 + 1, (q + 1) * v2, W);
      Assoc(q + 1, v2, W);
      MulMono(v2 * W, V, q + 1);
    }
  }

  lemma NotTooLarge(U: int, V: int, W: int, u3: int, v2: int, q: int)
    requires 0 <= q < B && W > 0
    requires u3 * W <= U && v2 * W <= V < (v2 + 1) * W
    requires v2 >= B && q * v2 <= u3
    ensures U - q * V + V > 0
  {
    MulMono(V, (v2 + 1) * W, q);
    Assoc(q, v2 + 1, W);
    assert q * (v2 + 1) == q * v2 + q;
    MulMono(q * v2 + q, u3 + B - 1, W);
    Dist(u3, B - 1, W);
    MulMono(B, v2, W);
    Dist(B, -1, W);
  }

  //////////////////////////////////////////////////////////////////////
  // Steps D4 to D6: multiply, subtract, add back

  /** One digit of the multiply-subtract: the wrapped word carries the exact borrow. */
  method SubtractDigit(u: digit, v: digit, qhat: digit, t: digit) returns (u': digit, t': digit)
    ensures u' - t' * B == u - v * qhat - t
  {
    Products(v, qhat);
    BorrowInt(u, v * qhat, t);
    var w := U32(u - v * qhat - t);
    u', t' := LHalf(w), LHalf(B - HHalf(w));
  }

  lemma BorrowInt(u: int, p: int, t: int)
    requires 0 <= u < B && 0 <= t < B && 0 <= p <= (B - 1) * (B - 1)
    ensures var w := U32(u - p - t);
            var t' := LHalf(B - HHalf(w));
            0 <= t' < B && LHalf(w) - t' * B == u - p - t
  {}

  /** Digits i+1..n of the window hold the difference so far, with borrow t outstanding. */
  ghost predicate Subtracted(now: seq<digit>, was: seq<digit>, v: seq<digit>, i: nat, q: digit, t: nat)
    requires |now| == |was| == |v| > i
  {
    Val(now[i + 1..]) == Val(was[i + 1..]) - q * Val(v[i + 1..]) + t * Pow(B, |v| - 1 - i)
  }

  lemma NothingSubtracted(was: seq<digit>, v: seq<digit>, q: digit)
    requires |was| == |v| > 0
    ensures Subtracted(was, was, v, |v| - 1, q, 0)
  {}

  lemma SubtractedStep(now: seq<digit>, now': seq<digit>, was: seq<digit>, v: seq<digit>,
                       i: nat, q: digit, t: digit, t': digit)
    requires |now| == |now'| == |was| == |v| > i > 0
    requires Subtracted(now, was, v, i, q, t)
    requires now'[i + 1..] == now[i + 1..]
    requires now'[i] - t' * B == was[i] - v[i] * q - t
    ensures Subtracted(now', was, v, i - 1, q, t')
  {
    TailStep(now', i);
    TailStep(was, i);
    TailStep(v, i);
    SubtractStep(now'[i], was[i], v[i], q, t, t', Pow(B, |v| - 1 - i),
                 Val(now[i + 1..]), Val(was[i + 1..]), Val(v[i + 1..]));
  }

  lemma TailStep(s: seq<digit>, i: nat)
    requires i < |s|
    ensures Val(s[i..]) == s[i] * Pow(B, |s| - 1 - i) + Val(s[i + 1..])
  {
    ValCons(s[i..]);
    assert s[i..][1..] == s[i + 1..];
  }

  /** now = was - q * v, plus the borrow into the leading digit if there is one. */
  ghost predicate SubtractedModulo(now: seq<digit>, was: seq<digit>, v: seq<digit>, q: digit, borrow: bool)
  {
    Val(now) == Val(was) - q * Val(v) + (if borrow then Pow(B, |now|) else 0)
  }

  /** u[a..a+n] -= qhat * v[c+1..c+n]; the final borrow out of u[a] is reported. */
  method MultiplySubtract(u: array<digit>, a: nat, v: array<digit>, c: nat, n: nat, qhat: digit)
    returns (borrow: bool)
    requires u != v && a + n < u.Length && c + n < v.Length
    modifies u
    ensures forall i :: 0 <= i < u.Length && !(a <= i <= a + n) ==> u[i] == old(u[i])
    ensures SubtractedModulo(u[a..a + n + 1], old(u[a..a + n + 1]), v[c + 1..c + n + 1], qhat, borrow)
  {
    hide Pow, Val, Subtracted, SubtractedModulo;
    ghost var was := u[a..a + n + 1];
    ghost var vs := [0] + v[c + 1..c + n + 1];
    var t, i := 0, n;
    NothingSubtracted(was, vs, qhat);
    while i > 0
      invariant 0 <= i <= n && 0 <= t < B
      invariant forall k :: 0 <= k < u.Length && !(a + i < k <= a + n) ==> u[k] == old(u[k])
      invariant Subtracted(u[a..a + n + 1], was, vs, i, qhat, t)
    {
      ghost var now, t0 := u[a..a + n + 1], t;
      u[i + a], t := SubtractDigit(u[i + a], v[c + i], qhat, t);
      assert v[c + i] == vs[i];
      assert u[a..a + n + 1] == now[i := u[i + a]];
      SubtractedStep(now, u[a..a + n + 1], was, vs, i, qhat, t0, t);
      i := i - 1;
    }
    ghost var now, t0 := u[a..a + n + 1], t;
    t := U32(u[a] - t);
    u[a] := LHalf(t);
    borrow := HHalf(t) != 0;
    LastBorrow(was[0], t0);
    assert u[a..a + n + 1] == now[0 := u[a]];
    assert vs[1..] == v[c + 1..c + n + 1];
    SubtractedLast(now, u[a..a + n + 1], was, vs, qhat, t0, borrow);
  }

  lemma SubtractedLast(now: seq<digit>, now': seq<digit>, was: seq<digit>, v: seq<digit>, q: digit, t: digit,
                       borrow: bool)
    requires |now| == |now'| == |was| == |v| > 0
    requires Subtracted(now, was, v, 0, q, t)
    requires now'[1..] == now[1..]
    requires now'[0] - (if borrow then B else 0) == was[0] - t
    ensures SubtractedModulo(now', was, v[1..], q, borrow)
  {
    ValCons(now');
    ValCons(was);
    LastSubtract(now'[0], was[0], t, if borrow then B else 0, Pow(B, |v| - 1));
  }

  lemma LastSubtract(u': int, u: int, t: int, b: int, w: int)
    requires u' - b == u - t
    ensures u' * w == u * w - t * w + b * w
  {}

  lemma LastBorrow(u: digit, t: digit)
    ensures var w := U32(u - t);
            LHalf(w) - (if HHalf(w) != 0 then B else 0) == u - t
  {}

  lemma SubtractStep(u': int, u: int, v: int, q: int, t: int, t': int, w: int, x': int, x: int, y: int)
    requires u' - t' * B == u - v * q - t
    requires x' == x - q * y + t * w
    ensures u' * w + x' == (u * w + x) - q * (v * w + y) + t' * (B * w)
  {}

  /** Digits i+1..n of the window hold the sum so far, with carry t outstanding. */
  ghost predicate Added(now: seq<digit>, was: seq<digit>, v: seq<digit>, i: nat, t: nat)
    requires |now| == |was| == |v| > i
  {
    Val(now[i + 1..]) + t * Pow(B, |v| - 1 - i) == Val(was[i + 1..]) + Val(v[i + 1..])
  }

  lemma NothingAdded(was: seq<digit>, v: seq<digit>)
    requires |was| == |v| > 0
    ensures Added(was, was, v, |v| - 1, 0)
  {}

  lemma AddedStep(now: seq<digit>, now': seq<digit>, was: seq<digit>, v: seq<digit>, i: nat, t: nat, t': nat)
    requires |now| == |now'| == |was| == |v| > i
    requires Added(now, was, v, i, t)
    requires now'[i + 1..] == now[i + 1..]
    requires now'[i] + t' * B == t + was[i] + v[i]
    ensures Val(now'[i..]) + t' * Pow(B, |v| - i) == Val(was[i..]) + Val(v[i..])
    ensures i > 0 ==> Added(now', was, v, i - 1, t')
  {
    TailStep(now', i);
    TailStep(was, i);
    TailStep(v, i);
    AddStep(now'[i], was[i], v[i], t, t', Pow(B, |v| - 1 - i));
  }

  lemma AddStep(u': int, u: int, v: int, t: int, t': int, w: int)
    requires u' + t' * B == t + u + v
    ensures u' * w + t' * (B * w) == t * w + u * w + v * w
  {}

  /** now = was + v, less the carry out of the leading digit if there is one. */
  ghost predicate AddedModulo(now: seq<digit>, was: seq<digit>, v: seq<digit>)
  {
    Val(now) == Val(was) + Val(v) - (if Val(was) + Val(v) < Pow(B, |now|) then 0 else Pow(B, |now|))
  }

  /** u[a..a+n] += v[c+1..c+n], dropping the carry out of u[a]. */
  method AddBack(u: array<digit>, a: nat, v: array<digit>, c: nat, n: nat)
    requires u != v && a + n < u.Length && c + n < v.Length
    modifies u
    ensures forall i :: 0 <= i < u.Length && !(a <= i <= a + n) ==> u[i] == old(u[i])
    ensures AddedModulo(u[a..a + n + 1], old(u[a..a + n + 1]), v[c + 1..c + n + 1])
  {
    hide Pow, Val, Added, AddedModulo;
    ghost var was := u[a..a + n + 1];
    ghost var vs := [0] + v[c + 1..c + n + 1];
    var t, i := 0, n;
    NothingAdded(was, vs);
    while i > 0
      invariant 0 <= i <= n && 0 <= t <= 1
      invariant forall k :: 0 <= k < u.Length && !(a + i < k <= a + n) ==> u[k] == old(u[k])
      invariant Added(u[a..a + n + 1], was, vs, i, t)
    {
      ghost var now, t0 := u[a..a + n + 1], t;
      Halves(t + u[i + a] + v[c + i]);
      t := t + u[i + a] + v[c + i];
      u[i + a] := LHalf(t);
      t := HHalf(t);
      assert v[c + i] == vs[i];
      assert u[a..a + n + 1] == now[i := u[i + a]];
      AddedStep(now, u[a..a + n + 1], was, vs, i, t0, t);
      i := i - 1;
    }
    ghost var now := u[a..a + n + 1];
    assert now[0] == was[0];
    Halves(u[a] + t);
    u[a] := LHalf(u[a] + t);
    assert u[a..a + n + 1] == now[0 := u[a]];
    assert vs[0] == 0 && vs[1..] == v[c + 1..c + n + 1];
    AddedLast(now, u[a..a + n + 1], was, vs, t, HHalf(was[0] + t));
  }

  lemma Halves(x: int)
    ensures 0 <= LHalf(x) < B && x == LHalf(x) + HHalf(x) * B
    ensures 0 <= x < 2 * B ==> 0 <= HHalf(x) <= 1
  {}

  lemma AddedLast(now: seq<digit>, now': seq<digit>, was: seq<digit>, v: seq<digit>, t: nat, t': nat)
    requires |now| == |now'| == |was| == |v| > 0 && v[0] == 0 && t' <= 1
    requires Added(now, was, v, 0, t)
    requires now'[1..] == now[1..]
    requires now'[0] + t' * B == t + was[0]
    ensures AddedModulo(now', was, v[1..])
  {
    assert Val(now') + t' * Pow(B, |v|) == Val(was) + Val(v[1..]) by {
      AddedStep(now, now', was, v, 0, t, t');
      ValCons(v);
      assert was[0..] == was && v[0..] == v && now'[0..] == now';
    }
    CarryDropped(now', was, v[1..], t');
  }

  lemma CarryDropped(now: seq<digit>, was: seq<digit>, v: seq<digit>, t: nat)
    requires t <= 1
    requires Val(now) + t * Pow(B, |now|) == Val(was) + Val(v)
    ensures AddedModulo(now, was, v)
  {}

  //////////////////////////////////////////////////////////////////////
  // Steps D3 to D6 together: one quotient digit

  /** What one round of the main loop leaves of the dividend's prefix. */
  ghost predicate Reduced(now: seq<digit>, was: seq<digit>, v: seq<digit>, qhat: int)
  {
    && Val(was) == qhat * Val(v) + Val(now)
    && Val(now) < Val(v)
  }

  /** A prefix of k digits brackets the whole number. */
  lemma PrefixBracket(s: seq<digit>, k: nat)
    requires k <= |s|
    ensures Truncates(Val(s[..k]), Pow(B, |s| - k), Val(s))
  {
    hide Pow, Val;
    ValSplit(s, k);
    ValBound(s[k..]);
    Dist(Val(s[..k]), 1, Pow(B, |s| - k));
  }

  lemma TwoDigits(s: seq<digit>)
    requires |s| == 2
    ensures Val(s) == s[0] * B + s[1]
  {
    assert s[..1] == [s[0]];
    assert [s[0]][..0] == [];
    assert Val([s[0]]) == s[0];
  }

  lemma ThreeDigits(s: seq<digit>)
    requires |s| == 3
    ensures Val(s) == (s[0] * B + s[1]) * B + s[2]
  {
    TwoDigits(s[..2]);
  }

  /** The first two digits of a number below V are at most the first two of V. */
  lemma LeadingPair(w: seq<digit>, v: seq<digit>)
    requires |w| == |v| + 1 && |v| >= 2
    requires Val(w[..|v|]) < Val(v)
    ensures w[0] * B + w[1] <= v[0] * B + v[1]
  {
    var x := w[..|v|];
    PrefixBracket(x, 2);
    PrefixBracket(v, 2);
    TwoDigits(x[..2]);
    TwoDigits(v[..2]);
    PrefixOrder(Val(x[..2]), Val(v[..2]), Pow(B, |v| - 2), Val(x), Val(v));
  }

  lemma PrefixOrder(a: int, b: int, p: int, x: int, y: int)
    requires p > 0 && Truncates(a, p, x) && x < y && y <= (b + 1) * p
    ensures a <= b
  {}

  /** A prefix below V < B^n has only zeros before its last n digits. */
  lemma LeadingZeros(s: seq<digit>, n: nat, V: int)
    requires n <= |s| && Val(s) < V <= Pow(B, n)
    ensures forall i :: 0 <= i < |s| - n ==> s[i] == 0
  {
    var k := |s| - n;
    assert Val(s[..k]) == 0 by {
      PrefixBracket(s, k);
      PrefixOrder(Val(s[..k]), 0, Pow(B, n), Val(s), V);
    }
    ValZeroInv(s[..k]);
    assert forall i :: 0 <= i < k ==> s[i] == s[..k][i];
  }

  lemma DropZeros(s: seq<digit>, k: nat)
    requires k <= |s| && forall i :: 0 <= i < k ==> s[i] == 0
    ensures Val(s) == Val(s[k..])
  {
    ValSplit(s, k);
    ValZeros(s[..k]);
  }

  lemma WindowSmall(w: seq<digit>, v: seq<digit>)
    requires |w| == |v| + 1 && Val(w[..|v|]) < Val(v)
    ensures Val(w) < Val(v) * B
  {}

  /** The window u[a..a+n] is small enough for one quotient digit, and its estimate is right or one too big. */
  lemma WindowEstimate(w: seq<digit>, v: seq<digit>, qhat: int)
    requires |w| == |v| + 1 && |v| >= 2 && v[0] >= B / 2
    requires Val(w[..|v|]) < Val(v)
    requires BestDigit(qhat, v[0] * B + v[1], (w[0] * B + w[1]) * B + w[2])
    ensures Val(w) - qhat * Val(v) < Val(v) && Val(w) - qhat * Val(v) + Val(v) > 0
  {
    hide Pow, Val, Truncates, BestDigit;
    WindowSmall(w, v);
    PrefixBracket(w, 3);
    PrefixBracket(v, 2);
    ThreeDigits(w[..3]);
    TwoDigits(v[..2]);
    assert v[0] * B >= B / 2 * B;
    EstimateInt(Val(w), Val(v), Pow(B, |v| - 2), Val(w[..3]), Val(v[..2]), qhat);
  }

  /** One round of the main loop: the quotient digit for the window ending at u[a+n]. */
  method DivideStep(u: array<digit>, a: nat, v: array<digit>, c: nat, n: nat) returns (qhat: digit)
    requires u != v && a + n < u.Length && c + n < v.Length
    requires n >= 2 && v[c + 1] >= B / 2
    requires Val(u[..a + n]) < Val(v[c + 1..c + n + 1])
    modifies u
    ensures forall i :: a + n < i < u.Length ==> u[i] == old(u[i])
    ensures Reduced(u[..a + n + 1], old(u[..a + n + 1]), v[c + 1..c + n + 1], qhat)
  {
    hide Pow, Val, SubtractedModulo, AddedModulo;
    ghost var was, vs := u[..a + n + 1], v[c + 1..c + n + 1];
    ghost var w := u[a..a + n + 1];
    assert was[..a + |vs|] == u[..a + n];
    Window(was, a, vs);
    assert was[a..] == w && vs[0] == v[c + 1] && vs[1] == v[c + 2];
    qhat := EstimateDigit(u[a], u[a + 1], u[a + 2], v[c + 1], v[c + 2]);
    WindowEstimate(w, vs, qhat);
    var borrow := MultiplySubtract(u, a, v, c, n, qhat);
    ghost var w1 := u[a..a + n + 1];
    if borrow {
      assert qhat > 0 by { BorrowMeansTooBig(w1, w, vs, qhat); }
      AddBack(u, a, v, c, n);
      AfterAddBack(u[a..a + n + 1], w1, w, vs, qhat);
      qhat := qhat - 1;
    } else {
      AfterSubtract(w1, w, vs, qhat);
    }
    ghost var now := u[..a + n + 1];
    assert now[a..] == u[a..a + n + 1];
    assert forall i :: 0 <= i < a ==> now[i] == was[i];
    DropZeros(now, a);
    assert Reduced(now, was, vs, qhat);
  }

  lemma BorrowMeansTooBig(w1: seq<digit>, w: seq<digit>, v: seq<digit>, q: digit)
    requires |w1| == |w| && SubtractedModulo(w1, w, v, q, true)
    ensures q > 0
  {
    ValBound(w1);
    if q == 0 { assert q * Val(v) == 0; }
  }

  lemma AfterSubtract(w1: seq<digit>, w: seq<digit>, v: seq<digit>, q: digit)
    requires SubtractedModulo(w1, w, v, q, false)
    requires Val(w) - q * Val(v) < Val(v)
    ensures Reduced(w1, w, v, q)
  {}

  lemma AfterAddBack(w2: seq<digit>, w1: seq<digit>, w: seq<digit>, v: seq<digit>, q: digit)
    requires |w1| == |w| == |w2| && q > 0
    requires SubtractedModulo(w1, w, v, q, true) && AddedModulo(w2, w1, v)
    requires Val(w) - q * Val(v) + Val(v) > 0
    ensures Reduced(w2, w, v, q - 1)
  {
    ValBound(w1);
    AddBackInt(Val(w2), Val(w1), Val(w), Val(v), q, q * Val(v), Pow(B, |w|));
  }

  lemma AddBackInt(x2: int, x1: int, U: int, V: int, q: int, qV: int, P: int)
    requires x1 == U - qV + P && 0 <= x1 < P && U - qV + V > 0 && qV == q * V
    requires x2 == x1 + V - (if x1 + V < P then 0 else P)
    ensures U == (q - 1) * V + x2 && x2 < V
  {}

  /** Below V, the dividend's prefix is all in the window. */
  lemma Window(s: seq<digit>, a: nat, v: seq<digit>)
    requires |s| == a + |v| + 1 && |v| >= 2
    requires Val(s[..a + |v|]) < Val(v)
    ensures Val(s) == Val(s[a..])
    ensures Val(s[a..][..|v|]) < Val(v)
    ensures forall i :: 0 <= i < a ==> s[i] == 0
    ensures s[a] * B + s[a + 1] <= v[0] * B + v[1]
  {
    var x := s[..a + |v|];
    ValBound(v);
    LeadingZeros(x, |v|, Val(v));
    assert forall i :: 0 <= i < a ==> s[i] == x[i];
    DropZeros(s, a);
    DropZeros(x, a);
    assert x[a..] == s[a..][..|v|];
    LeadingPair(s[a..], v);
  }

  //////////////////////////////////////////////////////////////////////
  // The whole division

  /** The digits of a 64-bit number, after a leading zero, as the halves of its two words. */
  function Digits64(x: int): (s: seq<digit>)
    requires 0 <= x < WORD * WORD
    ensures |s| == 5 && s[0] == 0 && Val(s) == x
  {
    var h, l := x / WORD, x % WORD;
    FiveDigits([0, HHalf(h), LHalf(h), HHalf(l), LHalf(l)]);
    [0, HHalf(h), LHalf(h), HHalf(l), LHalf(l)]
  }

  lemma FiveDigits(s: seq<digit>)
    requires |s| == 5
    ensures Val(s) == (((s[0] * B + s[1]) * B + s[2]) * B + s[3]) * B + s[4]
  {
    ThreeDigits(s[..3]);
    assert s[..4][..3] == s[..3];
  }

  /** The number stored in digits 1 to 4. */
  method Join(s: array<digit>) returns (x: int)
    requires s.Length == 5 && s[0] == 0
    ensures x == Val(s[..])
  {
    FiveDigits(s[..]);
    x := Combine(s[1], s[2]) * WORD + Combine(s[3], s[4]);
  }

  /** Division by a single digit, one digit at a time. */
  method DivideByDigit(u: array<digit>, t: digit) returns (q: int, r: int)
    requires u.Length == 5 && u[0] == 0 && t != 0
    ensures Val(u[..]) == q * t + r && 0 <= r < t
  {
    FiveDigits(u[..]);
    var q1 := u[1] / t;
    DigitQuotient(0, u[1], t);
    var rbj := Combine(u[1] % t, u[2]);
    var q2, r2 := rbj / t, rbj % t;
    DigitQuotient(u[1] % t, u[2], t);
    rbj := Combine(r2, u[3]);
    var q3, r3 := rbj / t, rbj % t;
    DigitQuotient(r2, u[3], t);
    rbj := Combine(r3, u[4]);
    var q4 := rbj / t;
    DigitQuotient(r3, u[4], t);
    r := rbj % t;
    q := Combine(q1, q2) * WORD + Combine(q3, q4);
    LongDivision(u[1], u[2], u[3], u[4], t, q1, q2, q3, q4, u[1] % t, r2, r3, r);
  }

  lemma DigitQuotient(r: int, x: int, t: int)
    requires 0 <= r < t < B && 0 <= x < B
    ensures 0 <= (r * B + x) / t < B && 0 <= (r * B + x) % t < t
    ensures r * B + x == (r * B + x) / t * t + (r * B + x) % t
  {}

  lemma LongDivision(u1: int, u2: int, u3: int, u4: int, t: int,
                     q1: int, q2: int, q3: int, q4: int, r1: int, r2: int, r3: int, r4: int)
    requires u1 == q1 * t + r1 && r1 * B + u2 == q2 * t + r2
    requires r2 * B + u3 == q3 * t + r3 && r3 * B + u4 == q4 * t + r4
    ensures ((u1 * B + u2) * B + u3) * B + u4 == ((q1 * B + q2) * WORD + (q3 * B + q4)) * t + r4
  {}

  /** After some rounds: the quotient digits found so far, and what is left of the dividend. */
  ghost predicate Progress(N: int, V: int, q: seq<digit>, u: seq<digit>, k: nat)
    requires k <= |u|
  {
    && N == Val(q) * V * Pow(B, |u| - k) + Val(u)
    && Val(u[..k]) < V
  }

  lemma ProgressStart(u: seq<digit>, v: seq<digit>, q: seq<digit>, k: nat)
    requires k <= |u| && Val(u[..k]) < Val(v)
    requires forall i :: 0 <= i < |q| ==> q[i] == 0
    ensures Progress(Val(u), Val(v), q, u, k)
  {
    ValZeros(q);
  }

  lemma ProgressBound(N: int, v: seq<digit>, q: seq<digit>, u: seq<digit>, k: nat)
    requires k <= |u| && Progress(N, Val(v), q, u, k)
    ensures Val(u[..k]) < Val(v)
  {}

  lemma ProgressEnd(was: seq<digit>, v: seq<digit>, q: seq<digit>, u: seq<digit>)
    requires Progress(Val(was), Val(v), q, u, |u|)
    ensures Reduced(u, was, v, Val(q))
  {
    hide Val, Pow;
    PowUp(1);
    assert u[..|u|] == u;
  }

  lemma ProgressStep(N: int, v: seq<digit>, q: seq<digit>, was: seq<digit>, now: seq<digit>, k: nat, qhat: digit)
    requires k < |was| == |now|
    requires Progress(N, Val(v), q, was, k)
    requires Reduced(now[..k + 1], was[..k + 1], v, qhat)
    requires now[k + 1..] == was[k + 1..]
    ensures Progress(N, Val(v), q + [qhat], now, k + 1)
  {
    assert Val(q + [qhat]) == Val(q) * B + qhat by { assert (q + [qhat])[..|q|] == q; }
    assert Pow(B, |was| - k) == B * Pow(B, |was| - k - 1);
    hide Pow, Val;
    ValSplit(was, k + 1);
    ValSplit(now, k + 1);
    ProgressInt(N, Val(v), Val(q), qhat, Pow(B, |was| - k - 1),
                Val(was[..k + 1]), Val(now[..k + 1]), Val(was[k + 1..]));
  }

  lemma ProgressInt(N: int, V: int, Q: int, q: int, P: int, x: int, y: int, z: int)
    requires N == Q * V * (B * P) + (x * P + z)
    requires x == q * V + y
    ensures N == (Q * B + q) * V * P + (y * P + z)
  {}

  /** The first window of the normalised dividend is below the normalised divisor. */
  lemma FirstWindow(u: seq<digit>, v: seq<digit>, x: seq<digit>, V: int, p: int, k: nat)
    requires |v| < k + 1 <= |u| == |x| && p > 0 && |v| >= 1
    requires forall i :: 0 <= i <= k - |v| ==> u[i] == 0
    requires v[0] != 0 && Scaled(V, Val(v), p)
    requires Scaled(Val(x), Val(u), p)
    ensures Val(x[..k]) < V
  {
    hide Pow, Val;
    var n := |v|;
    var z := k - n + 1;
    DropZeros(u, z);
    ValBound(u[z..]);
    PowAdd(B, n - 1, |u| - k);
    PrefixBracket(x, k);
    LeadingNonzero(v);
    WindowInt(Val(x[..k]), Pow(B, |u| - k), Val(x), Val(u), p, Pow(B, n - 1), Val(v), V);
  }

  lemma LeadingNonzero(v: seq<digit>)
    requires v != [] && v[0] != 0
    ensures Val(v) >= Pow(B, |v| - 1)
  {}

  lemma WindowInt(X: int, P: int, N: int, N0: int, p: int, w: int, V0: int, V: int)
    requires P > 0 && p > 0 && Truncates(X, P, N) && Scaled(N, N0, p) && N0 < w * P
    requires Scaled(V, V0, p) && V0 >= w
    ensures X < V
  {}

  /** Scaling by the normalising factor cancels out of the result. */
  lemma Denormalised(N: int, V: int, N0: int, V0: int, p: int, Q: int, R: int)
    requires p > 0 && Scaled(N, N0, p) && Scaled(V, V0, p)
    requires N == Q * V + R && 0 <= R < V
    ensures N0 == Q * V0 + R / p && 0 <= R / p < V0
  {
    var x := N0 - Q * V0;
    assert x * p == R by {
      Dist(N0, 0 - Q * V0, p);
      Assoc(Q, V0, p);
    }
    DivModUnique(R, p, x, 0);
    if x >= V0 { MulMono(V0, x, p); }
    if x < 0 { MulMono(x, -1, p); }
  }

  /** A shift that keeps the leading digit below B leaves it at least as large as it was multiplied. */
  lemma LeadingShifted(s: seq<digit>, t: seq<digit>, d: nat)
    requires d <= 16 && ShiftedLeft(t, s, d) && s[0] * Pow(2, d) < B
    ensures Scaled(Val(t), Val(s), Pow(2, d))
    ensures t[0] >= s[0] * Pow(2, d)
  {
    PowSplit(d);
    FitsInt(s[0], Pow(2, d), Pow(2, 16 - d));
    NothingLost(t, s, d);
    LeadingDigit(s, t, Pow(2, d));
  }

  lemma FitsInt(x: int, p: int, r: int)
    requires p > 0 && p * r == B && x * p < B
    ensures x < r
  {}

  lemma LeadingDigit(s: seq<digit>, t: seq<digit>, p: int)
    requires |s| == |t| > 0 && p > 0 && Scaled(Val(t), Val(s), p)
    ensures t[0] >= s[0] * p
  {
    ValCons(s);
    ValCons(t);
    ValBound(t[1..]);
    LeadingInt(s[0], p, Pow(B, |s| - 1), Val(s[1..]), t[0], Val(t[1..]));
  }

  lemma LeadingInt(x: int, p: int, w: int, y: int, z: int, y': int)
    requires w > 0 && p > 0 && y >= 0 && 0 <= y' < w
    requires z * w + y' == (x * w + y) * p
    ensures z >= x * p
  {
    Dist(x * w, y, p);
    Assoc(x, w, p);
    Assoc(x, p, w);
    MulMono(0, y, p);
    if z < x * p {
      MulMono(z + 1, x * p, w);
      Dist(z, 1, w);
    }
  }

  lemma ShiftedWithin(s: seq<digit>, t: seq<digit>, a: nat, d: nat)
    requires d <= 16 && a < |s| == |t| && s[..a] == t[..a]
    requires forall i :: 0 <= i <= a ==> s[i] == 0
    requires ShiftedLeft(t[a..], s[a..], d)
    ensures Scaled(Val(t), Val(s), Pow(2, d))
  {
    assert forall i :: 0 <= i < a ==> t[i] == t[..a][i];
    DropZeros(s, a);
    DropZeros(t, a);
    NothingLost(t[a..], s[a..], d);
  }

  /** How far to shift a leading digit to bring it up to B/2. */
  method ShiftAmount(v1: digit) returns (d: nat)
    requires v1 != 0
    ensures d < 16 && B / 2 <= v1 * Pow(2, d) < B
  {
    d := 0;
    var t := v1;
    assert Pow(2, 15) == B / 2 by { PowAdd(2, 1, 15); PowTwo16(); }
    while t < B / 2
      invariant 0 <= d <= 15 && Pow(2, d) <= t < B
      invariant t == v1 * Pow(2, d)
      decreases B - t
    {
      assert d != 15;
      Assoc(v1, Pow(2, d), 2);
      t := t * 2;
      d := d + 1;
    }
  }

  /** D1: shift dividend and divisor so that the divisor's leading digit is at least B/2. */
  method Normalise(u: array<digit>, a: nat, m: nat, v: array<digit>, c: nat, n: nat) returns (d: nat)
    requires u != v && u.Length == v.Length == 5
    requires n >= 2 && c + n == 4 && a + m + n == 4
    requires v[c + 1] != 0 && forall i :: 0 <= i <= a ==> u[i] == 0
    modifies u, v
    ensures d < 16 && v[c + 1] >= B / 2
    ensures Scaled(Val(u[..]), old(Val(u[..])), Pow(2, d))
    ensures Scaled(Val(v[c + 1..]), old(Val(v[c + 1..])), Pow(2, d))
  {
    d := ShiftAmount(v[c + 1]);
    if d > 0 {
      Shl(u, a, m + n, d);
      ghost var us, vs := old(u[..]), old(v[..]);
      assert u[a..a + m + n + 1] == u[..][a..] && old(u[a..a + m + n + 1]) == us[a..];
      assert us[..a] == u[..][..a];
      ShiftedWithin(us, u[..], a, d);
      ghost var us' := u[..];
      Shl(v, c + 1, n - 1, d);
      assert u[..] == us';
      assert v[c + 1..c + 1 + n] == v[c + 1..] && old(v[c + 1..c + 1 + n]) == vs[c + 1..];
      LeadingShifted(old(v[c + 1..]), v[c + 1..], d);
    }
  }

  /** D2 to D7: the quotient digits, one per window, into q[o..o+m]. */
  method DivideDigits(u: array<digit>, a: nat, m: nat, v: array<digit>, c: nat, n: nat, q: array<digit>)
    requires u != v && u != q && v != q && u.Length == v.Length == q.Length == 5
    requires n >= 2 && c + n == 4 && a + m + n == 4
    requires v[c + 1] >= B / 2
    requires forall k :: 0 <= k < 4 - m ==> q[k] == 0
    requires Val(u[..a + n]) < Val(v[c + 1..])
    modifies u, q
    ensures q[0] == 0
    ensures Reduced(u[..], old(u[..]), v[c + 1..], Val(q[..]))
  {
    hide Pow, Val, Progress, Reduced;
    ghost var vs, N := v[c + 1..], Val(u[..]);
    assert u[..][..a + n] == u[..a + n];
    ProgressStart(u[..], vs, q[..4 - m], a + n);
    var j := 0;
    while j <= m
      invariant 0 <= j <= m + 1
      invariant v[c + 1..] == vs && v[c + 1] >= B / 2
      invariant forall k :: 0 <= k < 4 - m ==> q[k] == 0
      invariant Progress(N, Val(vs), q[..4 - m + j], u[..], a + j + n)
    {
      ghost var was, qs := u[..], q[..4 - m + j];
      assert was[..a + j + n] == u[..a + j + n] && v[c + 1..c + n + 1] == vs;
      assert Val(was[..a + j + n]) < Val(vs) by { ProgressBound(N, vs, qs, was, a + j + n); }
      var qhat := DivideStep(u, a + j, v, c, n);
      assert u[..][a + j + n + 1..] == was[a + j + n + 1..];
      assert u[..][..a + j + n + 1] == u[..a + j + n + 1];
      ProgressStep(N, vs, qs, was, u[..], a + j + n, qhat);
      q[4 - m + j] := qhat;
      assert q[..4 - m + (j + 1)] == qs + [qhat];
      j := j + 1;
    }
    assert q[..5] == q[..];
    ProgressEnd(old(u[..]), vs, q[..], u[..]);
  }

  /** Shift the remainder back by the normalising amount. */
  method Denormalise(u: array<digit>, a: nat, n: nat, d: nat)
    requires u.Length == 5 && a + n == 4 && d < 16
    requires forall i :: 0 <= i <= a ==> u[i] == 0
    modifies u
    ensures ShiftedRight(u[..], old(u[..]), d) && u[0] == 0
  {
    if d > 0 {
      Shr(u, a, n, d);
      assert u[a..a + n + 1] == u[..][a..] && old(u[a..a + n + 1]) == old(u[..])[a..];
      DropZeros(u[..], a);
      DropZeros(old(u[..]), a);
    }
  }

  /** Algorithm D: the divisor has n > 1 digits, v[c+1..c+n]. */
  method LongDivide(u: array<digit>, v: array<digit>, c: nat, n: nat) returns (q: int, r: int)
    requires u != v && u.Length == v.Length == 5
    requires n >= 2 && c + n == 4
    requires u[0] == 0 && v[c + 1] != 0
    requires Val(u[..]) >= Val(v[c + 1..])
    modifies u, v
    ensures old(Val(u[..])) == q * old(Val(v[c + 1..])) + r
    ensures 0 <= r < old(Val(v[c + 1..]))
  {
    hide Pow, Val, Scaled, Truncates;
    ghost var us0, vs0 := u[..], v[c + 1..];
    var m, a := 4 - n, 0;
    while u[a + 1] == 0
      invariant 0 <= m && a + m + n == 4
      invariant forall i :: 0 <= i <= a ==> u[i] == 0
      invariant u[..] == us0 && v[c + 1..] == vs0
      decreases m
    {
      DividendLongEnough(us0, vs0, a, m);
      m, a := m - 1, a + 1;
    }
    var qs := new digit[5];
    var i := 4 - m;
    while i > 0
      invariant 0 <= i <= 4 - m
      invariant forall k :: i <= k < 4 - m ==> qs[k] == 0
      invariant u[..] == us0 && v[c + 1..] == vs0
    {
      i := i - 1;
      qs[i] := 0;
    }
    var d := Normalise(u, a, m, v, c, n);
    ghost var us, vs := u[..], v[c + 1..];
    FirstWindow(us0, vs0, us, Val(vs), Pow(2, d), a + n);
    assert us[..a + n] == u[..a + n];
    DivideDigits(u, a, m, v, c, n, qs);
    ghost var rs := u[..];
    ValBound(vs);
    LeadingZeros(rs, n, Val(vs));
    Denormalised(Val(us), Val(vs), Val(us0), Val(vs0), Pow(2, d), Val(qs[..]), Val(rs));
    Denormalise(u, a + m, n, d);
    q := Join(qs);
    r := Join(u);
  }

  lemma DividendLongEnough(u: seq<digit>, v: seq<digit>, a: nat, m: nat)
    requires |u| == 5 && a + m + |v| == 4 && |v| > 0 && v[0] != 0
    requires Val(u) >= Val(v)
    requires forall i :: 0 <= i <= a + 1 ==> u[i] == 0
    ensures m > 0
  {
    hide Val;
    DropZeros(u, a + 2);
    ValBound(u[a + 2..]);
    LeadingNonzero(v);
  }

  /** u / v and u % v for 64-bit numbers. */
  method Divide64(ull: int, vll: int) returns (q: int, r: int)
    requires 0 <= ull < WORD * WORD && 0 < vll < WORD * WORD
    ensures ull == q * vll + r && 0 <= r < vll
  {
    hide Val, Pow;
    if ull < vll {
      return 0, ull;
    }
    var us, vs := Digits64(ull), Digits64(vll);
    var u, v := new digit[5], new digit[5];
    u[0], u[1], u[2], u[3], u[4] := us[0], us[1], us[2], us[3], us[4];
    v[0], v[1], v[2], v[3], v[4] := vs[0], vs[1], vs[2], vs[3], vs[4];
    assert u[..] == us && v[..] == vs;
    var c, n := 0, 4;
    while v[c + 1] == 0
      invariant 2 <= n && c + n == 4
      invariant u[..] == us && v[..] == vs
      invariant forall i :: 0 <= i <= c ==> v[i] == 0
      decreases n
    {
      n := n - 1;
      if n == 1 {
        FiveDigits(vs);
        q, r := DivideByDigit(u, v[c + 2]);
        return;
      }
      c := c + 1;
    }
    assert v[c + 1..] == vs[c + 1..];
    DropZeros(vs, c + 1);
    q, r := LongDivide(u, v, c, n);
  }
}
