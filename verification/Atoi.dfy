/** Parsing a decimal number, with C's wrap-around. */
module Atoi {

  const WORD := 0x1_0000_0000
  const HALF := 0x8000_0000

  predicate IsDigit(c: char) { '0' <= c <= '9' }

  function DigitOf(c: char): (d: nat)
    requires IsDigit(c)
    ensures d < 10
  {
    c as int - '0' as int
  }

  /** The 32-bit pattern of x read as an int. */
  function AsInt(x: int): (n: int)
    ensures -HALF <= n < HALF && (x - n) % WORD == 0
  {
    var u := x % WORD;
    if u < HALF then u else u - WORD
  }

  /** The length of the run of digits at the start. */
  function Run(s: string): (n: nat)
    ensures n <= |s| && (forall i :: 0 <= i < n ==> IsDigit(s[i])) && (n < |s| ==> !IsDigit(s[n]))
  {
    if s == "" || !IsDigit(s[0]) then 0 else 1 + Run(s[1..])
  }

  /** The number a string of digits denotes. */
  function Number(s: string): (n: nat)
    requires forall i :: 0 <= i < |s| ==> IsDigit(s[i])
  {
    if s == "" then 0 else Number(s[..|s| - 1]) * 10 + DigitOf(s[|s| - 1])
  }

  predicate Blank(c: char) { c == ' ' || c == '\t' }

  function Blanks(s: string): (n: nat)
    ensures n <= |s| && (forall i :: 0 <= i < n ==> Blank(s[i])) && (n < |s| ==> !Blank(s[n]))
  {
    if s == "" || !Blank(s[0]) then 0 else 1 + Blanks(s[1..])
  }

  /** What s denotes: blanks, an optional sign, digits, and anything. */
  function Value(s: string): (n: int)
  {
    var t := s[Blanks(s)..];
    if t != "" && t[0] == '-' then -(Number(t[1..][..Run(t[1..])]) as int)
    else if t != "" && t[0] == '+' then Number(t[1..][..Run(t[1..])])
    else Number(t[..Run(t)])
  }

  /** Spaces and tabs in front make no difference. */
  lemma {:induction false} BlanksIgnored(b: string, s: string)
    requires forall i :: 0 <= i < |b| ==> b[i] == ' ' || b[i] == '\t'
    ensures Value(b + s) == Value(s)
    decreases |b|
  {
    hide Value;
    if b == "" {
      assert b + s == s;
    } else {
      BlanksIgnored(b[1..], s);
      BlankIgnored(b[0], b[1..] + s);
      assert b + s == [b[0]] + (b[1..] + s);
    }
  }

  lemma BlankIgnored(c: char, s: string)
    requires c == ' ' || c == '\t'
    ensures Value([c] + s) == Value(s)
  {
    hide Run, Number;
    assert ([c] + s)[1..] == s;
    assert ([c] + s)[Blanks([c] + s)..] == s[Blanks(s)..];
  }

  /** A sign in front of digits: plus makes no difference, minus negates. */
  lemma SignsMean(d: string)
    requires d != "" && IsDigit(d[0])
    ensures Value("+" + d) == Value(d) && Value("-" + d) == -Value(d)
    ensures Value(d) == Number(d[..Run(d)])
  {
    hide Value, Run, Number;
    Unblank("+" + d);
    Unblank("-" + d);
    Unblank(d);
    assert ("+" + d)[1..] == d && ("-" + d)[1..] == d;
  }

  lemma Unblank(t: string)
    requires t != "" && !Blank(t[0])
    ensures t[0] == '-' ==> Value(t) == -(Number(t[1..][..Run(t[1..])]) as int)
    ensures t[0] == '+' ==> Value(t) == Number(t[1..][..Run(t[1..])])
    ensures t[0] != '-' && t[0] != '+' ==> Value(t) == Number(t[..Run(t)])
  {
    hide Run, Number;
    assert t[0..] == t;
  }

  /** The loop over the digits from `start` on. */
  method ReadDigits(s: string, start: nat) returns (val: nat)
    requires start <= |s|
    ensures val == Number(s[start..][..Run(s[start..])]) % WORD
  {
    hide Run, Number;
    ghost var d := s[start..];
    var i := start;
    val := 0;
    NumberStep(d, 0);
    while i < |s| && IsDigit(s[i])
      invariant start <= i <= start + Run(d)
      invariant val == Number(d[..i - start]) % WORD
    {
      NumberStep(d, i - start);
      Shift(Number(d[..i - start]), DigitOf(s[i]));
      val := (val * 10 + DigitOf(s[i])) % WORD;
      i := i + 1;
    }
  }

  lemma NumberStep(d: string, k: nat)
    requires k <= Run(d)
    ensures Number(d[..0]) == 0
    ensures k < Run(d) ==> Number(d[..k + 1]) == Number(d[..k]) * 10 + DigitOf(d[k])
  {
    if k < Run(d) { assert d[..k + 1][..k] == d[..k]; }
  }

  /** The end of s stands for the terminating null character. */
  method Parse(s: string) returns (n: int)
    ensures n == AsInt(Value(s))
  {
    hide Run, Number, AsInt, Blanks;
    var i := 0;
    while i < |s| && Blank(s[i])
      invariant 0 <= i <= Blanks(s)
    {
      i := i + 1;
    }
    ghost var t := s[i..];
    assert t == s[Blanks(s)..];
    var neg := i < |s| && s[i] == '-';
    if i < |s| && (s[i] == '-' || s[i] == '+') { i := i + 1; assert s[i..] == t[1..]; }
    var val := ReadDigits(s, i);
    Negate(Number(s[i..][..Run(s[i..])]));
    n := if neg then AsInt(-(val as int)) else AsInt(val);
  }

  lemma Shift(x: nat, d: nat)
    ensures (x % WORD * 10 + d) % WORD == (x * 10 + d) % WORD
  {}

  lemma Same(x: int, k: int)
    ensures (x + k * WORD) % WORD == x % WORD
  {}

  lemma Negate(x: nat)
    ensures AsInt(-(x % WORD)) == AsInt(-(x as int)) && AsInt(x % WORD) == AsInt(x)
  {
    var q := x / WORD;
    assert -(x as int) == -(x % WORD) + (-q) * WORD;
    Same(-(x % WORD), -q);
  }
}
