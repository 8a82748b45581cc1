/** What printf prints for %d, atoi reads back. */
module PrintParse {
  import D = Digits
  import P = Printf
  import A = Atoi

  ghost predicate AllDigits(s: string) { forall i :: 0 <= i < |s| ==> A.IsDigit(s[i]) }

  lemma DigitBack(d: nat)
    requires d < 10
    ensures A.IsDigit(P.DigitChar(d)) && A.DigitOf(P.DigitChar(d)) == d
  {}

  /** A decimal numeral denotes its number. */
  lemma {:induction false} NumeralValue(m: nat)
    ensures AllDigits(P.Numeral(m, 10)) && A.Number(P.Numeral(m, 10)) == m
  {
    if m < 10 {
      DigitBack(m);
      assert P.Numeral(m, 10)[..0] == "";
    } else {
      NumeralValue(m / 10);
      DigitBack(m % 10);
      var s := P.Numeral(m, 10);
      assert s[..|s| - 1] == P.Numeral(m / 10, 10);
    }
  }

  lemma {:induction false} NumberOf(a: string, b: string)
    requires AllDigits(a) && AllDigits(b)
    ensures AllDigits(a + b) && A.Number(a + b) == A.Number(a) * D.Pow(10, |b|) + A.Number(b)
  {
    if b == "" {
      assert a + b == a;
    } else {
      var c := b[..|b| - 1];
      NumberOf(a, c);
      assert (a + b)[..|a + b| - 1] == a + c;
      Shifted(A.Number(a), D.Pow(10, |c|));
    }
  }

  lemma Shifted(x: nat, p: nat)
    ensures x * p * 10 == x * (10 * p)
  {}

  lemma {:induction false} Zeros(k: nat)
    ensures AllDigits(P.Repeat('0', k)) && A.Number(P.Repeat('0', k)) == 0
  {
    if k == 0 {
    } else {
      Zeros(k - 1);
      var s := P.Repeat('0', k);
      assert s[..|s| - 1] == P.Repeat('0', k - 1);
    }
  }

  lemma {:induction false} RunOf(d: string, rest: string)
    requires AllDigits(d) && (rest == "" || !A.IsDigit(rest[0]))
    ensures A.Run(d + rest) == |d|
  {
    if d == "" { assert d + rest == rest; }
    else {
      RunOf(d[1..], rest);
      assert (d + rest)[1..] == d[1..] + rest;
    }
  }

  lemma {:induction false} BlanksOf(k: nat, t: string)
    requires t != "" && !A.Blank(t[0])
    ensures A.Blanks(P.Repeat(' ', k) + t) == k
  {
    var s := P.Repeat(' ', k) + t;
    assert s[k] == t[0];
    if k > 0 { assert s[0] == ' '; }
    if A.Blanks(s) < k { assert A.Blank(s[A.Blanks(s)]); }
  }

  /** Blanks, a sign, digits, and something that is not a digit. */
  lemma ValueOf(k: nat, neg: bool, d: string, rest: string)
    requires AllDigits(d) && d != "" && (rest == "" || !A.IsDigit(rest[0]))
    ensures A.Value(P.Repeat(' ', k) + ((if neg then "-" else "") + (d + rest)))
         == if neg then -(A.Number(d) as int) else A.Number(d)
  {
    hide A.Value, A.Number, A.Run, A.Blanks, P.Repeat;
    var t := (if neg then "-" else "") + (d + rest);
    var s := P.Repeat(' ', k) + t;
    assert t[0] == if neg then '-' else d[0];
    BlanksOf(k, t);
    assert s[k..] == t;
    RunOf(d, rest);
    assert (d + rest)[..|d|] == d;
    SignedValue(s, neg, d + rest);
    if neg { assert t[1..] == d + rest; } else { assert t == d + rest; }
  }

  /** After the blanks comes what is read, with its sign. */
  lemma SignedValue(s: string, neg: bool, u: string)
    requires u != "" && A.IsDigit(u[0]) && s[A.Blanks(s)..] == (if neg then "-" else "") + u
    ensures A.Value(s) == if neg then -(A.Number(u[..A.Run(u)]) as int) else A.Number(u[..A.Run(u)])
  {
    hide A.Number, A.Run, A.Blanks;
    var t := s[A.Blanks(s)..];
    assert t[0] == if neg then '-' else u[0];
    if neg { assert t[1..] == u; } else { assert t == u; }
  }

  /** The padding is blanks or zeros, as it is after any modifiers. */
  predicate Plausible(pf: P.PF) { pf.fillchar == ' ' || pf.fillchar == '0' }

  /** The zeros that pad a left-aligned field read as digits. */
  predicate ZerosOnRight(pf: P.PF, n: int)
  {
    pf.rightspc && pf.fillchar == '0' && pf.spacing > |Text(n)|
  }

  /** The number without padding. */
  function Text(n: int): (s: string)
  {
    (if n < 0 then "-" else "") + P.Numeral(P.Abs(n), 10)
  }

  lemma FieldOf(pf: P.PF, n: int)
    requires -A.HALF <= n < A.HALF
    ensures P.NumberField(pf, 'd', P.Int(n)) == P.Field(pf, if n < 0 then "-" else "", P.Numeral(P.Abs(n), 10))
  {
    hide P.Numeral, P.Field;
    SignedBack(n);
    if n < 0 { assert "-" + "" == "-"; } else { assert "" + "" == ""; }
  }

  lemma SignedBack(n: int)
    requires -A.HALF <= n < A.HALF
    ensures P.Signed(n, P.WORD) == P.Signed(n, P.LLONG) == n && A.AsInt(n) == n
  {}

  function Pad(pf: P.PF, n: int): (k: nat) { if pf.spacing > |Text(n)| then pf.spacing - |Text(n)| else 0 }

  /** What atoi makes of a padded number. */
  lemma FieldValue(pf: P.PF, n: int)
    requires Plausible(pf) && -A.HALF <= n < A.HALF
    ensures A.Value(P.NumberField(pf, 'd', P.Int(n))) == if ZerosOnRight(pf, n) then n * D.Pow(10, Pad(pf, n)) else n
  {
    hide A.Value, A.Number, P.Numeral, P.Repeat, P.NumberField, D.Pow;
    FieldOf(pf, n);
    if !pf.rightspc { LeftPadded(pf, n); }
    else if pf.fillchar == '0' { ZeroPadded(n, Pad(pf, n)); }
    else { RightPadded(n, Pad(pf, n)); }
  }

  function Sign(n: int): (s: string) { if n < 0 then "-" else "" }

  lemma ZeroPadded(n: int, pad: nat)
    ensures A.Value(Sign(n) + P.Numeral(P.Abs(n), 10) + P.Repeat('0', pad)) == n * D.Pow(10, pad)
    ensures D.Pow(10, 0) == 1
  {
    hide A.Value, A.Number, P.Numeral, P.Repeat, D.Pow;
    var d, rest := P.Numeral(P.Abs(n), 10), P.Repeat('0', pad);
    NumeralValue(P.Abs(n));
    RepeatNone(' ');
    Zeros(pad);
    NumberOf(d, rest);
    ValueOf(0, n < 0, d + rest, "");
    assert P.Repeat(' ', 0) + (Sign(n) + (d + rest + "")) == Sign(n) + d + rest;
    PowNone();
    Scaled(n, P.Abs(n), D.Pow(10, pad));
  }

  lemma RightPadded(n: int, pad: nat)
    ensures A.Value(Sign(n) + P.Numeral(P.Abs(n), 10) + P.Repeat(' ', pad)) == n
  {
    hide A.Value, A.Number, P.Numeral, P.Repeat;
    var d, rest := P.Numeral(P.Abs(n), 10), P.Repeat(' ', pad);
    NumeralValue(P.Abs(n));
    RepeatNone(' ');
    ValueOf(0, n < 0, d, rest);
    assert P.Repeat(' ', 0) + (Sign(n) + (d + rest)) == Sign(n) + d + rest;
  }

  lemma LeftPadded(pf: P.PF, n: int)
    requires Plausible(pf) && !pf.rightspc
    ensures A.Value(P.Field(pf, Sign(n), P.Numeral(P.Abs(n), 10))) == n
  {
    hide A.Value, A.Number, P.Numeral, P.Repeat;
    var d, pad := P.Numeral(P.Abs(n), 10), Pad(pf, n);
    NumeralValue(P.Abs(n));
    RepeatNone(' ');
    if pf.fillchar == '0' {
      var zeros := P.Repeat('0', pad);
      Zeros(pad);
      NumberOf(zeros, d);
      ValueOf(0, n < 0, zeros + d, "");
      assert P.Repeat(' ', 0) + (Sign(n) + (zeros + d + "")) == Sign(n) + zeros + d;
    } else {
      ValueOf(pad, n < 0, d, "");
      assert P.Repeat(' ', pad) + (Sign(n) + (d + "")) == P.Repeat(' ', pad) + Sign(n) + d;
    }
  }

  lemma RepeatNone(c: char)
    ensures P.Repeat(c, 0) == ""
  {}

  lemma PowNone()
    ensures D.Pow(10, 0) == 1
  {}

  lemma Scaled(n: int, m: nat, p: nat)
    requires m == P.Abs(n)
    ensures (if n < 0 then -(m * p) else m * p) == n * p
  {}

  /** Multiplying by an odd number does not make a number divisible by a power of two. */
  lemma {:induction false} OddFactor(n: int, o: int, q: int, e: nat) returns (k: int)
    requires n * o == q * D.Pow(2, e) && o % 2 == 1
    ensures n == k * D.Pow(2, e)
    decreases e
  {
    hide D.Pow;
    PowStep(e);
    if e == 0 { k := n; }
    else {
      var p := D.Pow(2, e - 1);
      var h := Halve(n, o, q, p);
      k := OddFactor(h, o, q, e - 1);
      Double(k, p, h, n);
    }
  }

  lemma PowStep(e: nat)
    ensures D.Pow(2, e) == if e == 0 then 1 else 2 * D.Pow(2, e - 1)
  {}

  lemma Halve(n: int, o: int, q: int, p: int) returns (h: int)
    requires n * o == q * (2 * p) && o % 2 == 1
    ensures n == 2 * h && h * o == q * p
  {
    var x := q * p;
    assert n * o == 2 * x;
    var m := o / 2;
    assert n * o == 2 * (n * m) + n;
    h := x - n * m;
    assert 2 * (h * o) == n * o;
  }

  lemma Double(k: int, p: int, h: int, n: int)
    requires h == k * p && n == 2 * h
    ensures n == k * (2 * p)
  {}

  lemma TenPowerEven(k: nat)
    requires k > 0
    ensures D.Pow(10, k) % 2 == 0
  {
    hide D.Pow;
    TenTimes(k);
    TenEven(D.Pow(10, k - 1));
  }

  lemma TenTimes(k: nat)
    requires k > 0
    ensures D.Pow(10, k) == 10 * D.Pow(10, k - 1)
  {}

  lemma TenEven(p: nat)
    ensures 10 * p % 2 == 0
  {}

  lemma Word()
    ensures D.Pow(2, 32) == A.WORD
  {
    assert D.Pow(2, 1) == 2 && D.Pow(2, 2) == 4;
    D.PowAdd(2, 2, 2);
    D.PowAdd(2, 4, 4);
    D.PowAdd(2, 8, 8);
    D.PowAdd(2, 16, 16);
  }

  /** Zeros appended to a number other than zero always change it, also modulo 2^32. */
  lemma ZerosShow(n: int, k: nat)
    requires -A.HALF <= n < A.HALF && n != 0 && k > 0
    ensures A.AsInt(n * D.Pow(10, k)) != n
  {
    hide D.Pow;
    var p := D.Pow(10, k);
    if A.AsInt(n * p) == n {
      var q := Congruent(n * p, n);
      TenPowerEven(k);
      assert n * (p - 1) == n * p - n == q * A.WORD;
      Word();
      var j := OddFactor(n, p - 1, q, 32);
    }
  }

  lemma Congruent(x: int, n: int) returns (q: int)
    requires A.AsInt(x) == n
    ensures x - n == q * A.WORD
  {
    q := if x % A.WORD < A.HALF then x / A.WORD else x / A.WORD + 1;
  }

  /** atoi reads back a number printed in a field exactly unless zeros were put on the right of one other than zero. */
  lemma FieldBack(pf: P.PF, n: int)
    requires Plausible(pf) && -A.HALF <= n < A.HALF
    ensures A.AsInt(A.Value(P.NumberField(pf, 'd', P.Int(n)))) == n <==> !(ZerosOnRight(pf, n) && n != 0)
  {
    hide A.Value, P.NumberField, D.Pow;
    FieldValue(pf, n);
    SignedBack(n);
    if ZerosOnRight(pf, n) && n != 0 { ZerosShow(n, pf.spacing - |Text(n)|); }
  }

  /**
   atoi reads back what printf prints for a format of one %d, whatever its modifiers, exactly unless
   they hold a minus sign, their digits start with a zero and denote more than the number's length,
   and the number is not zero.
   */
  lemma RoundTrip(mods: string, n: int)
    requires P.AllModifiers(mods) && -A.HALF <= n < A.HALF
    ensures A.AsInt(A.Value(P.Output(P.START, "%" + mods + "d", [P.Int(n)]))) == n <==>
      !('-' in mods && P.ZeroFirst(P.DigitsIn(mods)) && P.Denotes(P.DigitsIn(mods), 10) > |Text(n)| && n != 0)
  {
    hide A.Value, P.Output, P.NumberField, P.ModifiedBy, P.DigitsIn, P.Denotes, Text;
    P.ModifiersMean(mods);
    P.OneConversion(mods, 'd', P.Int(n));
    FieldBack(P.ModifiedBy(P.START.(inPct := true), mods), n);
  }

  /** Forty-two in a field of five, with both flags. */
  lemma FortyTwo()
    ensures P.Output(P.START, "%-05d", [P.Int(42)]) == "42000"
    ensures A.AsInt(A.Value("42000")) == 42000
  {
    var mods := "-05";
    assert "%-05d" == "%" + mods + "d";
    P.OneConversion(mods, 'd', P.Int(42));
    FortyTwoField();
    NumeralFive();
  }

  lemma FortyTwoField()
    ensures P.NumberField(P.ModifiedBy(P.START.(inPct := true), "-05"), 'd', P.Int(42)) == "42000"
  {
    hide P.NumberField, P.Repeat, P.Numeral, P.ModifiedBy, P.DigitsIn, P.Denotes;
    P.ModifiersMean("-05");
    DigitsFive();
    FieldOf(P.ModifiedBy(P.START.(inPct := true), "-05"), 42);
    TextFortyTwo();
    assert "" + "42" + "000" == "42000";
  }

  lemma DigitsFive()
    ensures P.DigitsIn("-05") == "05" && P.Denotes("05", 10) == 5
  {
    hide P.DigitsIn, P.Denotes;
    assert "" + "-" == "-" && "-" + "0" == "-0" && "-0" + "5" == "-05" && "" + "0" == "0" && "0" + "5" == "05";
    P.NoDigits();
    P.DigitsStep("", '-');
    P.DigitsStep("-", '0');
    P.DigitsStep("-0", '5');
    P.DenotesStep("", '0', 10);
    P.DenotesStep("0", '5', 10);
  }

  lemma TextFortyTwo()
    ensures P.Numeral(42, 10) == "42" && P.Repeat('0', 3) == "000"
  {}

  lemma NumeralFive()
    ensures A.AsInt(A.Value("42000")) == 42000
  {
    hide A.Value, A.Number, P.Repeat;
    var d := "42000";
    ValueOf(0, false, d, "");
    RepeatNone(' ');
    assert P.Repeat(' ', 0) + ("" + (d + "")) == d;
    NumberOf42000();
    SignedBack(42000);
  }

  lemma NumberOf42000()
    ensures A.Number("42000") == 42000
  {
    hide A.Number, P.Numeral, P.Repeat;
    TextFortyTwo();
    NumeralValue(42);
    Zeros(3);
    NumberOf("42", "000");
    assert "42" + "000" == "42000";
    assert D.Pow(10, 1) == 10 && D.Pow(10, 2) == 100 && D.Pow(10, 3) == 1000;
  }
}
