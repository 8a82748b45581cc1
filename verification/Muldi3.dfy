/**
 64-bit multiplication from 16-bit products: two nested uses of the
 three-multiplication method of The Art of Computer Programming, volume 2,
 section 4.3.3, with hand-written carry and borrow detection.
 */
module Muldi3 {
  import opened Digits

  const WORD2: int := 0x1_0000_0000_0000_0000

  type word = x: int | 0 <= x < WORD

  /** The low half moved to the upper half of a word. */
  function LHUp(x: word): (r: word) { U32(x * B) }

  /** The signed 64-bit number congruent to x modulo 2^64. */
  function Wrap64(x: int): (r: int)
    ensures -WORD2 / 2 <= r < WORD2 / 2 && (r - x) % WORD2 == 0
  {
    var y := x % WORD2;
    if y < WORD2 / 2 then y else y - WORD2
  }

  //////////////////////////////////////////////////////////////////////
  // Carry and borrow detection

  /** Adding two-word numbers: the low word wrapped exactly when it came out smaller. */
  method AddInto(h: word, l: word, H: word, L: word) returns (h': word, l': word, ghost k: int)
    ensures l' < l <==> l + L >= WORD
    ensures h' * WORD + l' == h * WORD + l + H * WORD + L - k * WORD2
  {
    l' := U32(l + L);
    var carry := if l' < l then 1 else 0;
    h' := U32(h + H + carry);
    k := (h + H + carry) / WORD;
  }

  /** Subtracting two-word numbers: the low word borrowed exactly when it came out larger. */
  method SubtractFrom(h: word, l: word, H: word, L: word) returns (h': word, l': word, ghost k: int)
    ensures l' > l <==> l < L
    ensures h' * WORD + l' == h * WORD + l - H * WORD - L - k * WORD2
  {
    l' := U32(l - L);
    var borrow := if l' > l then 1 else 0;
    h' := U32(h - H - borrow);
    k := (h - H - borrow) / WORD;
  }

  /** x << N as a two-word number. */
  lemma ShiftUp(x: word)
    ensures x * B == HHalf(x) * WORD + LHUp(x)
    ensures HHalf(x) < B
  {}

  //////////////////////////////////////////////////////////////////////
  // 32 x 32 -> 64

  lemma DigitProduct(x: digit, y: digit)
    ensures 0 <= x * y <= (B - 1) * (B - 1) && U32(x * y) == x * y
  {
    MulMono(0, x, y);
    MulMono(x, B - 1, y);
  }

  /** |u1 - u0| * |v0 - v1| carries the sign the code remembers. */
  lemma SignedProduct(u1: int, u0: int, v1: int, v0: int)
    ensures var ud := if u1 >= u0 then u1 - u0 else u0 - u1;
            var vd := if v0 >= v1 then v0 - v1 else v1 - v0;
            var neg := (u1 < u0) != (v0 < v1);
            (u1 - u0) * (v0 - v1) == (if neg then 0 - ud * vd else ud * vd)
  {}

  /** A product of two-digit numbers from the three partial products. */
  lemma Karatsuba(w: int, u1: int, u0: int, v1: int, v0: int)
    ensures (u1 * w + u0) * (v1 * w + v0)
         == u1 * v1 * (w * w) + (u1 * v1 + u0 * v0 + (u1 - u0) * (v0 - v1)) * w + u0 * v0
  {}

  /** The exact 64-bit product of two unsigned words. */
  method MultiplyWords(u: word, v: word) returns (prod: int)
    ensures prod == u * v && 0 <= prod < WORD2
  {
    var u1, u0, v1, v0 := HHalf(u), LHalf(u), HHalf(v), LHalf(v);
    hide U32;
    DigitProduct(u0, v0);
    DigitProduct(u1, v1);
    PartialProducts(u, v);
    hide HHalf, LHalf;
    var low: word := U32(u0 * v0);
    if u1 == 0 && v1 == 0 {
      return low;
    }
    var udiff, neg := if u1 >= u0 then u1 - u0 else u0 - u1, u1 < u0;
    var vdiff := if v0 >= v1 then v0 - v1 else v1 - v0;
    if v0 < v1 { neg := !neg; }
    DigitProduct(udiff, vdiff);
    SignedProduct(u1, u0, v1, v0);
    var mid: word := U32(udiff * vdiff);
    var high: word := U32(u1 * v1);
    MiddleTerm(u1 * v1, u0 * v0, (u1 - u0) * (v0 - v1), mid, neg, u * v);
    prod := Assemble(high, mid, low, neg, u * v);
  }

  lemma MiddleTerm(high: int, low: int, m: int, mid: int, neg: bool, uv: int)
    requires uv == high * WORD + (high + low + m) * B + low
    requires m == (if neg then 0 - mid else mid)
    ensures uv == high * WORD + (high + low + (if neg then 0 - mid else mid)) * B + low
  {}

  lemma PartialProducts(u: word, v: word)
    ensures var u1, u0, v1, v0 := HHalf(u), LHalf(u), HHalf(v), LHalf(v);
            u * v == u1 * v1 * WORD + (u1 * v1 + u0 * v0 + (u1 - u0) * (v0 - v1)) * B + u0 * v0
    ensures 0 <= u * v < WORD2
    ensures HHalf(u) == 0 && HHalf(v) == 0 ==> u * v == LHalf(u) * LHalf(v)
  {
    Karatsuba(B, HHalf(u), LHalf(u), HHalf(v), LHalf(v));
    WordProduct(u, v);
  }

  lemma WordProduct(u: word, v: word)
    ensures 0 <= u * v < WORD2
  {
    MulMono(0, u, v);
    MulMono(u, WORD - 1, v);
  }

  /** (high << 2N) + (high << N) +/- (mid << N) + (low << N) + low, in two words. */
  method Assemble(high: word, mid: word, low: word, neg: bool, ghost uv: int) returns (prod: int)
    requires high <= (B - 1) * (B - 1)
    requires 0 <= uv < WORD2
    requires uv == high * WORD + (high + low + (if neg then 0 - mid else mid)) * B + low
    ensures prod == uv
  {
    var prodh, prodl := U32(high + HHalf(high)), LHUp(high);
    Spread(high);
    ShiftUp(mid);
    ShiftUp(low);
    hide U32, HHalf, LHUp;
    ghost var p0, k1, k2, k3 := prodh * WORD + prodl, 0, 0, 0;
    if neg {
      prodh, prodl, k1 := SubtractFrom(prodh, prodl, HHalf(mid), LHUp(mid));
    } else {
      prodh, prodl, k1 := AddInto(prodh, prodl, HHalf(mid), LHUp(mid));
    }
    ghost var p1 := prodh * WORD + prodl;
    assert p1 == p0 + (if neg then 0 - mid * B else mid * B) - k1 * WORD2;
    prodh, prodl, k2 := AddInto(prodh, prodl, HHalf(low), LHUp(low));
    ghost var p2 := prodh * WORD + prodl;
    assert p2 == p1 + low * B - k2 * WORD2;
    prodl, prodh, k3 := AddLow(prodh, prodl, low);
    prod := prodh * WORD + prodl;
    SumUp(high, mid, low, neg, uv, p0, p1, p2, prod, k1, k2, k3);
  }

  lemma Spread(high: word)
    requires high <= (B - 1) * (B - 1)
    ensures U32(high + HHalf(high)) * WORD + LHUp(high) == high * WORD + high * B
  {
    ShiftUp(high);
    assert HHalf(high) <= B - 2;
  }

  /** The wraps cancel, because the true product fits. */
  lemma SumUp(high: int, mid: int, low: int, neg: bool, uv: int,
              p0: int, p1: int, p2: int, p3: int, k1: int, k2: int, k3: int)
    requires uv == high * WORD + (high + low + (if neg then 0 - mid else mid)) * B + low
    requires p0 == high * WORD + high * B
    requires p1 == p0 + (if neg then 0 - mid * B else mid * B) - k1 * WORD2
    requires p2 == p1 + low * B - k2 * WORD2
    requires p3 == p2 + low - k3 * WORD2
    requires 0 <= uv < WORD2 && 0 <= p3 < WORD2
    ensures p3 == uv
  {}

  /** The last addition compares with the addend instead of the old low word. */
  method AddLow(h: word, l: word, low: word) returns (l': word, h': word, ghost k: int)
    ensures l' < low <==> l + low >= WORD
    ensures h' * WORD + l' == h * WORD + l + low - k * WORD2
  {
    l', h' := U32(l + low), h;
    k := 0;
    if l' < low {
      h' := U32(h + 1);
      k := (h + 1) / WORD;
    }
  }

  //////////////////////////////////////////////////////////////////////
  // 64 x 64 -> 64, signed

  /** The product of two signed 64-bit numbers modulo 2^64. */
  method Multiply64(a: int, b: int) returns (r: int)
    requires -WORD2 / 2 <= a < WORD2 / 2 && -WORD2 / 2 <= b < WORD2 / 2
    ensures r == Wrap64(a * b)
  {
    var u, negall := if a >= 0 then a else -a, a < 0;
    var v := if b >= 0 then b else -b;
    if b < 0 { negall := !negall; }
    var prod := MultiplyUnsigned(u, v);
    r := if negall then Wrap64(-prod) else Wrap64(prod);
    SignOut(a, b, u, v, prod, negall);
  }

  lemma SignOut(a: int, b: int, u: int, v: int, prod: int, negall: bool)
    requires u == (if a >= 0 then a else -a) && v == (if b >= 0 then b else -b)
    requires negall == ((a < 0) != (b < 0))
    requires (prod - u * v) % WORD2 == 0
    ensures Wrap64(if negall then -prod else prod) == Wrap64(a * b)
  {
    assert a * b == (if negall then 0 - u * v else u * v) by {
      SignedProduct(a, 0, 0, b);
      SignedProduct(u, 0, 0, v);
    }
    SameWrap(if negall then 0 - prod else prod, a * b);
  }

  lemma SameWrap(x: int, y: int)
    requires (x - y) % WORD2 == 0
    ensures Wrap64(x) == Wrap64(y)
  {}

  /** Unsigned 64-bit operands; only the low 64 bits of the product are kept. */
  method MultiplyUnsigned(u: int, v: int) returns (prod: int)
    requires 0 <= u < WORD2 && 0 <= v < WORD2
    ensures 0 <= prod < WORD2 && (prod - u * v) % WORD2 == 0
  {
    var u1, u0, v1, v0 := u / WORD, u % WORD, v / WORD, v % WORD;
    if u1 == 0 && v1 == 0 {
      prod := MultiplyWords(u0, v0);
    } else {
      var low := MultiplyWords(u0, v0);
      var udiff, negmid := if u1 >= u0 then u1 - u0 else u0 - u1, u1 < u0;
      var vdiff := if v0 >= v1 then v0 - v1 else v1 - v0;
      if v0 < v1 { negmid := !negmid; }
      var mid := U32(udiff * vdiff);
      var high := U32(u1 * v1);
      var h := U32(high + (if negmid then 0 - mid else mid) + low % WORD + low / WORD);
      prod := h * WORD + low % WORD;
      Karatsuba(WORD, u1, u0, v1, v0);
      SignedProduct(u1, u0, v1, v0);
      LowHalf(u1 * v1, udiff * vdiff, low, negmid, u * v);
    }
  }

  /** Multiples of 2^n in the upper partial products vanish modulo 2^2n. */
  lemma LowHalf(high: int, mid: int, low: int, negmid: bool, uv: int)
    requires 0 <= low < WORD2
    requires uv == high * WORD2 + (high + low + (if negmid then 0 - mid else mid)) * WORD + low
    ensures var h := U32(U32(high) + (if negmid then 0 - U32(mid) else U32(mid)) + low % WORD + low / WORD);
            (h * WORD + low % WORD - uv) % WORD2 == 0
  {
    var lo, hi := low % WORD, low / WORD;
    var s' := U32(high) + (if negmid then 0 - U32(mid) else U32(mid)) + lo + hi;
    var kh := Whole(high);
    var km := Whole(mid);
    var j := Whole(s');
    var k := kh + if negmid then -km else km;
    hide U32;
    Multiple(-(j + k + high + hi), U32(s') * WORD + lo - uv);
  }

  /** How often a word goes into a number. */
  lemma Whole(x: int) returns (k: int)
    ensures x == k * WORD + U32(x)
  {
    k := x / WORD;
  }

  lemma Multiple(k: int, x: int)
    requires x == k * WORD2
    ensures x % WORD2 == 0
  {}
}
