/**
 The printf core: a state machine over the characters of the format.  What a
 format and its arguments denote is defined by functions on values; the code,
 which sends its output on in pieces and counts it, is proved to produce that.
 */
module Printf {
  import B = SnpBuffer
  import D = Digits

  const WORD := 0x1_0000_0000
  const LLONG := 0x1_0000_0000_0000_0000
  const NUMBER_BUF_SIZE := 23

  /** An argument: an integer, a string, or a null string pointer. */
  datatype Arg = Int(n: int) | Str(s: string) | NullStr

  datatype ArgSize = INTSZ | LONGSZ | LLONGSZ | SIZETSZ

  /** The state between characters; sign, number and base live only while a number is printed. */
  datatype PF = PF(inPct: bool, size: ArgSize, spacing: nat, rightspc: bool, fillchar: char, altformat: bool)

  const START := PF(false, INTSZ, 0, false, ' ', false)

  // ---- What a conversion denotes ----

  function Repeat(c: char, n: nat): (s: string)
    ensures |s| == n && forall i :: 0 <= i < n ==> s[i] == c
  {
    if n == 0 then "" else Repeat(c, n - 1) + [c]
  }

  /** A field: prefixes and text, padded to the field width. */
  function Field(pf: PF, prefix: string, text: string): (s: string)
  {
    var len := |prefix| + |text|;
    var pad := Repeat(pf.fillchar, if pf.spacing > len then pf.spacing - len else 0);
    if pf.rightspc then prefix + text + pad
    else if pf.fillchar == '0' then prefix + pad + text
    else pad + prefix + text
  }

  function DigitChar(d: nat): (c: char)
    requires d < 16
  {
    "0123456789abcdef"[d]
  }

  /** n in base b. */
  function Numeral(n: nat, b: nat): (s: string)
    requires 2 <= b <= 16
    ensures s != ""
  {
    if n < b then [DigitChar(n)] else Numeral(n / b, b) + [DigitChar(n % b)]
  }

  function Base(ch: char): (b: nat)
    ensures b == 8 || b == 10 || b == 16
  {
    if ch == 'd' || ch == 'u' then 10 else if ch == 'o' then 8 else 16
  }

  function Bits(size: ArgSize): (m: nat) { if size.LLONGSZ? then LLONG else WORD }

  /** The value of the low bits of n read as a signed number. */
  function Signed(n: int, m: nat): (v: int)
    requires m > 0
  {
    var u := n % m;
    if 2 * u < m then u else u - m
  }

  /** The value of an argument, as the conversion and the size say it is to be read. */
  function Value(size: ArgSize, ch: char, arg: Arg): (v: int)
    ensures -LLONG < v < LLONG
  {
    var n := if arg.Int? then arg.n else 0;
    if ch == 'p' then n % WORD else if ch == 'd' then Signed(n, Bits(size)) else n % Bits(size)
  }

  function Abs(n: int): (m: nat) { if n < 0 then -n else n }

  function Prefix(pf: PF, ch: char, neg: bool): (s: string)
  {
    (if neg then "-" else "")
    + (if pf.altformat || ch == 'p' then (if Base(ch) == 16 then "0x" else if Base(ch) == 8 then "0" else "") else "")
  }

  function NumberField(pf: PF, ch: char, arg: Arg): (s: string)
  {
    var v := Value(pf.size, ch, arg);
    Field(pf, Prefix(pf, ch, v < 0), Numeral(Abs(v), Base(ch)))
  }

  /** A C string ends at its first null character. */
  function CString(s: string): (t: string)
  {
    if s == "" || s[0] == '\0' then "" else [s[0]] + CString(s[1..])
  }

  predicate IsModifier(ch: char) { ch == '#' || ch == '-' || ch == 'l' || ch == 'z' || '0' <= ch <= '9' }

  predicate IsInteger(ch: char) { ch == 'd' || ch == 'o' || ch == 'u' || ch == 'p' || ch == 'x' }

  function Modified(pf: PF, ch: char): (pf': PF)
    requires IsModifier(ch)
  {
    if ch == '#' then pf.(altformat := true)
    else if ch == '-' then pf.(rightspc := true)
    else if ch == 'l' then pf.(size := if pf.size.LONGSZ? then LLONGSZ else LONGSZ)
    else if ch == 'z' then pf.(size := SIZETSZ)
    else if ch == '0' && pf.spacing == 0 then pf.(fillchar := '0')
    else pf.(spacing := pf.spacing * 10 + (ch as int - '0' as int))
  }

  predicate AllModifiers(mods: string) { forall i :: 0 <= i < |mods| ==> IsModifier(mods[i]) }

  /** The state after a string of modifiers. */
  function ModifiedBy(pf: PF, mods: string): (pf': PF)
    requires AllModifiers(mods)
  {
    if mods == "" then pf else Modified(ModifiedBy(pf, mods[..|mods| - 1]), mods[|mods| - 1])
  }

  predicate TakesArg(ch: char) { IsInteger(ch) || ch == 's' || ch == 'c' }

  /** The text for a conversion that ends with ch. */
  function Converted(pf: PF, ch: char, arg: Arg): (s: string)
  {
    if IsInteger(ch) then NumberField(pf, ch, arg)
    else if ch == 's' then Field(pf, "", if arg.Str? then CString(arg.s) else "(null)")
    else if ch == 'c' then Field(pf, "", CString([CharOf(arg)]))
    else Field(pf, "", [ch])
  }

  function CharOf(arg: Arg): (c: char)
  {
    if arg.Int? then (arg.n % 256) as char else '\0'
  }

  function First(ap: seq<Arg>): (a: Arg) { if ap == [] then Int(0) else ap[0] }

  function Rest(ap: seq<Arg>): (r: seq<Arg>) { if ap == [] then [] else ap[1..] }

  /** All the text for a format, from a state on. */
  function Output(pf: PF, format: string, ap: seq<Arg>): (s: string)
    decreases |format|
  {
    if format == "" then ""
    else
      var ch, rest := format[0], format[1..];
      if !pf.inPct then
        if ch == '%' then Output(pf.(inPct := true), rest, ap) else [ch] + Output(pf, rest, ap)
      else if IsModifier(ch) then Output(Modified(pf, ch), rest, ap)
      else Converted(pf, ch, First(ap)) + Output(START, rest, if TakesArg(ch) then Rest(ap) else ap)
  }

  /** The digit a character stands for. */
  function DigitValue(c: char): (d: nat)
  {
    if '0' <= c <= '9' then c as int - '0' as int else if 'a' <= c <= 'f' then c as int - 'a' as int + 10 else 0
  }

  /** The number a string of digits denotes in base b. */
  function Denotes(s: string, b: nat): (n: nat)
  {
    if s == "" then 0 else Denotes(s[..|s| - 1], b) * b + DigitValue(s[|s| - 1])
  }

  /** A numeral denotes its number, and is the shortest that does: it starts with a zero only for zero. */
  lemma {:induction false} NumeralDenotes(n: nat, b: nat)
    requires 2 <= b <= 16
    ensures Denotes(Numeral(n, b), b) == n
    ensures Numeral(n, b)[0] == '0' <==> n == 0
  {
    hide DigitChar, DigitValue, Numeral, Denotes;
    NumeralStep(n, b);
    var q, d := Divided(n, b);
    DigitBack(d);
    DenotesStep(if q > 0 then Numeral(q, b) else "", DigitChar(d), b);
    if q == 0 {
    } else {
      NumeralDenotes(q, b);
    }
  }

  lemma Divided(n: nat, b: nat) returns (q: nat, d: nat)
    requires 2 <= b
    ensures q == n / b && d == n % b && n == q * b + d && d < b && (q > 0 ==> q < n) && (q == 0 ==> n == d)
  {
    D.DivMod(n, b);
    q, d := n / b, n % b;
    assert q * b >= q * 2;
  }

  lemma DenotesStep(t: string, c: char, b: nat)
    ensures Denotes(t + [c], b) == Denotes(t, b) * b + DigitValue(c) && Denotes("", b) == 0
  {}

  lemma DigitBack(d: nat)
    requires d < 16
    ensures DigitValue(DigitChar(d)) == d && (DigitChar(d) == '0' <==> d == 0)
  {}

  /** The digits among some modifiers. */
  function DigitsIn(mods: string): (s: string)
  {
    if mods == "" then ""
    else DigitsIn(mods[..|mods| - 1]) + if '0' <= mods[|mods| - 1] <= '9' then [mods[|mods| - 1]] else ""
  }

  /**
   What modifiers mean: the field width is the number their digits denote, the field is padded with
   zeros if the first digit is one and with blanks otherwise, a minus sign puts the padding on the right.
   */
  predicate Means(pf: PF, mods: string)
  {
    && pf.inPct && pf.spacing == Denotes(DigitsIn(mods), 10)
    && pf.fillchar == (if ZeroFirst(DigitsIn(mods)) then '0' else ' ')
    && (pf.rightspc <==> '-' in mods) && (pf.altformat <==> '#' in mods)
  }

  predicate ZeroFirst(digits: string) { digits != "" && digits[0] == '0' }

  lemma {:induction false} ModifiersMean(mods: string)
    requires AllModifiers(mods)
    ensures Means(ModifiedBy(START.(inPct := true), mods), mods)
  {
    if mods == "" {
    } else {
      hide Means;
      var m, c := mods[..|mods| - 1], mods[|mods| - 1];
      assert mods == m + [c];
      ModifiersMean(m);
      MeansStep(ModifiedBy(START.(inPct := true), m), m, c);
    }
  }

  lemma MeansStep(pf: PF, m: string, c: char)
    requires Means(pf, m) && IsModifier(c)
    ensures Means(Modified(pf, c), m + [c])
  {
    hide Denotes, DigitsIn;
    DigitsStep(m, c);
    DigitsPositive(m);
    DenotesStep(DigitsIn(m), c, 10);
    assert forall x :: x in m + [c] <==> x in m || x == c;
  }

  lemma DigitsStep(m: string, c: char)
    ensures DigitsIn(m + [c]) == if '0' <= c <= '9' then DigitsIn(m) + [c] else DigitsIn(m)
  {}

  /** Digits that denote zero are none, or start with one. */
  lemma {:induction false} DigitsPositive(m: string)
    ensures DigitsIn(m) == "" || '0' <= DigitsIn(m)[0] <= '9'
    ensures Denotes(DigitsIn(m), 10) == 0 ==> DigitsIn(m) == "" || DigitsIn(m)[0] == '0'
    decreases |m|
  {
    hide DigitsIn, Denotes;
    if m == "" {
      NoDigits();
    } else {
      var m', c := m[..|m| - 1], m[|m| - 1];
      assert m == m' + [c];
      DigitsStep(m', c);
      DigitsPositive(m');
      DenotesStep(DigitsIn(m'), c, 10);
    }
  }

  lemma NoDigits()
    ensures DigitsIn("") == ""
  {}

  /** Modifiers print nothing. */
  lemma {:induction false} OutputModified(pf: PF, mods: string, tail: string, ap: seq<Arg>)
    requires pf.inPct && AllModifiers(mods)
    ensures ModifiedBy(pf, mods).inPct && Output(pf, mods + tail, ap) == Output(ModifiedBy(pf, mods), tail, ap)
    decreases |mods|
  {
    if mods == "" {
      assert mods + tail == tail;
    } else {
      var m, c := mods[..|mods| - 1], mods[|mods| - 1];
      assert mods + tail == m + ([c] + tail);
      assert ([c] + tail)[1..] == tail;
      OutputModified(pf, m, [c] + tail, ap);
    }
  }

  /** What a format of one conversion prints. */
  lemma OneConversion(mods: string, ch: char, arg: Arg)
    requires AllModifiers(mods) && !IsModifier(ch)
    ensures Output(START, "%" + mods + [ch], [arg]) == Converted(ModifiedBy(START.(inPct := true), mods), ch, arg)
  {
    hide Converted, ModifiedBy;
    var pf := START.(inPct := true);
    var f := "%" + mods + [ch];
    assert f[0] == '%' && f[1..] == mods + [ch];
    OutputModified(pf, mods, [ch], [arg]);
    OutputLast(ModifiedBy(pf, mods), ch, arg);
  }

  lemma OutputLast(pf: PF, ch: char, arg: Arg)
    requires pf.inPct && !IsModifier(ch)
    ensures Output(pf, [ch], [arg]) == Converted(pf, ch, arg)
  {}

  // ---- The digit loop ----

  /** What is left of a number after its last k digits in a base of at least 8. */
  lemma DivideSmaller(x: nat, b: nat, k: nat)
    requires 8 <= b && x < D.Pow(8, k + 1)
    ensures x / b < D.Pow(8, k)
  {}

  lemma Pow22()
    ensures D.Pow(8, 22) >= LLONG
  {
    D.PowAdd(8, 11, 11);
    Pow11();
  }

  lemma Pow11()
    ensures D.Pow(8, 11) == 0x2_0000_0000
  {}

  /** Digits are written from the end of a buffer of NUMBER_BUF_SIZE characters; they always fit. */
  method FormatNumber(num: nat, base: nat) returns (text: string)
    requires num < LLONG && (base == 8 || base == 10 || base == 16)
    ensures text == Numeral(num, base)
  {
    hide D.Pow, Numeral;
    var buf := new char[NUMBER_BUF_SIZE];
    var x: int := NUMBER_BUF_SIZE - 1;
    buf[x] := '\0';
    x := x - 1;
    Pow22();
    var xnum: nat := num;
    var more := true;
    assert Numeral(num, base) == Numeral(xnum, base) + buf[x + 1..NUMBER_BUF_SIZE - 1];
    while more
      invariant -1 <= x < NUMBER_BUF_SIZE - 1
      invariant buf[NUMBER_BUF_SIZE - 1] == '\0' && forall k :: x < k < NUMBER_BUF_SIZE - 1 ==> buf[k] != '\0'
      invariant more ==> x >= 0 && xnum < D.Pow(8, x + 1)
      invariant Numeral(num, base) == (if more then Numeral(xnum, base) else "") + buf[x + 1..NUMBER_BUF_SIZE - 1]
      decreases x + 1, more
    {
      ghost var tail := buf[x + 1..NUMBER_BUF_SIZE - 1];
      ghost var left := if xnum / base > 0 then Numeral(xnum / base, base) else "";
      NumeralStep(xnum, base);
      DivideSmaller(xnum, base, x);
      var c := DigitChar(xnum % base);
      buf[x] := c;
      assert buf[x + 1..NUMBER_BUF_SIZE - 1] == tail;
      assert left + [c] + tail == left + buf[x..NUMBER_BUF_SIZE - 1];
      x := x - 1;
      xnum := xnum / base;
      more := xnum > 0;
      PowZero(x);
    }
    text := StringAt(buf, x + 1);
  }

  /** The text from x up to the null character. */
  method StringAt(buf: array<char>, x: nat) returns (text: string)
    requires exists k :: x <= k < buf.Length && buf[k] == '\0'
    ensures '\0' !in text && x + |text| < buf.Length && text == buf[x..x + |text|] && buf[x + |text|] == '\0'
  {
    var i := x;
    while buf[i] != '\0'
      invariant x <= i && exists k :: i <= k < buf.Length && buf[k] == '\0'
      invariant forall k :: x <= k < i ==> buf[k] != '\0'
      decreases buf.Length - i
    {
      i := i + 1;
    }
    text := buf[x..i];
  }

  lemma PowZero(x: int)
    ensures x == -1 ==> D.Pow(8, (x + 1) as nat) == 1
  {}

  lemma NumeralStep(n: nat, b: nat)
    requires 2 <= b <= 16
    ensures n % b < b && n / b >= 0
    ensures Numeral(n, b) == (if n / b > 0 then Numeral(n / b, b) else "") + [DigitChar(n % b)]
  {
    D.DivMod(n, b);
    if n < b { D.DivModUnique(n, b, 0, n); } else { assert n / b > 0; }
  }

  // ---- The code ----

  /** The negation of a negative argument fits an unsigned long long. */
  lemma SignedRange(n: int, size: ArgSize)
    ensures var v := Signed(n, Bits(size)); -LLONG < v < LLONG && (v < 0 ==> (-v) % LLONG == -v)
  {}

  lemma Assoc(a: string, b: string, c: string)
    ensures a + b + c == a + (b + c) && a + "" == a
  {}

  /** The pieces in the order they are sent. */
  lemma FieldIs(pf: PF, prefix: string, prefix2: string, stuff: string, spc: nat)
    requires var len := |prefix| + |prefix2| + |stuff|; spc == if pf.spacing > len then pf.spacing - len else 0
    ensures var pad := Repeat(pf.fillchar, spc);
      Field(pf, prefix + prefix2, stuff) ==
        if spc == 0 then "" + prefix + prefix2 + stuff
        else if pf.rightspc then "" + prefix + prefix2 + stuff + pad
        else if pf.fillchar == '0' then "" + prefix + prefix2 + pad + stuff
        else "" + pad + prefix + prefix2 + stuff
  {}

  class Session {
    const out: B.Snp
    var pf: PF
    var charcount: nat
    var ap: seq<Arg>

    ghost predicate Valid()
      reads this, out, out.buf
    {
      out.Valid() && charcount == |out.text|
    }

    constructor (out: B.Snp, ap: seq<Arg>)
      requires out.Valid() && out.text == ""
      ensures Valid() && this.out == out && this.ap == ap && pf == START
    {
      this.out, this.ap, pf, charcount := out, ap, START, 0;
    }

    /** __pf_print */
    method Print(txt: string)
      requires Valid()
      modifies this`charcount, out, out.buf
      ensures Valid() && out.text == old(out.text) + txt
    {
      out.Send(txt);
      charcount := charcount + |txt|;
    }

    method Fill(spc: nat)
      requires Valid()
      modifies this`charcount, out, out.buf
      ensures Valid() && out.text == old(out.text) + Repeat(pf.fillchar, spc)
    {
      ghost var start := out.text;
      for i := 0 to spc
        invariant Valid() && out.text == start + Repeat(pf.fillchar, i)
      {
        Print([pf.fillchar]);
        assert start + Repeat(pf.fillchar, i) + [pf.fillchar] == start + (Repeat(pf.fillchar, i) + [pf.fillchar]);
      }
    }

    method PrintStuff(prefix: string, prefix2: string, stuff: string)
      requires Valid()
      modifies this`charcount, out, out.buf
      ensures Valid() && out.text == old(out.text) + Field(pf, prefix + prefix2, stuff)
    {
      hide B.Snp.Valid, Repeat, Field;
      ghost var t, u := out.text, "";
      var len := |prefix| + |prefix2| + |stuff|;
      var spc := if pf.spacing > len then pf.spacing - len else 0;
      ghost var pad := Repeat(pf.fillchar, spc);
      if spc > 0 && !pf.rightspc && pf.fillchar != '0' { Fill(spc); Assoc(t, u, pad); u := u + pad; }
      Print(prefix);
      Assoc(t, u, prefix);
      u := u + prefix;
      Print(prefix2);
      Assoc(t, u, prefix2);
      u := u + prefix2;
      if spc > 0 && !pf.rightspc && pf.fillchar == '0' { Fill(spc); Assoc(t, u, pad); u := u + pad; }
      Print(stuff);
      Assoc(t, u, stuff);
      u := u + stuff;
      if spc > 0 && pf.rightspc { Fill(spc); Assoc(t, u, pad); u := u + pad; }
      FieldIs(pf, prefix, prefix2, stuff, spc);
    }

    /** __pf_modifier */
    method Modify(ch: char)
      requires IsModifier(ch)
      modifies this`pf
      ensures pf == Modified(old(pf), ch)
    {
      match ch {
        case '#' => pf := pf.(altformat := true);
        case '-' => pf := pf.(rightspc := true);
        case 'l' => pf := pf.(size := if pf.size.LONGSZ? then LLONGSZ else LONGSZ);
        case 'z' => pf := pf.(size := SIZETSZ);
        case '0' =>
          if pf.spacing > 0 { pf := pf.(spacing := pf.spacing * 10); } else { pf := pf.(fillchar := '0'); }
        case _ =>
          assert '0' < ch <= '9';
          pf := pf.(spacing := pf.spacing * 10 + (ch as int - '0' as int));
      }
    }

    /** __pf_getnum: the magnitude, in an unsigned long long, and the sign. */
    method GetNum(ch: char) returns (num: nat, neg: bool)
      requires IsInteger(ch)
      modifies this`ap
      ensures ap == Rest(old(ap)) && num < LLONG
      ensures (if neg then -(num as int) else num) == Value(pf.size, ch, First(old(ap))) && (neg ==> num > 0)
    {
      hide Signed;
      var arg := First(ap);
      ap := Rest(ap);
      var n := if arg.Int? then arg.n else 0;
      SignedRange(n, pf.size);
      neg := false;
      if ch == 'p' {
        num := n % WORD;
      } else if ch == 'd' {
        var signednum := Signed(n, if pf.size.LLONGSZ? then LLONG else WORD);
        if signednum < 0 {
          neg := true;
          num := (-signednum) % LLONG;
        } else {
          num := signednum;
        }
      } else {
        num := n % if pf.size.LLONGSZ? then LLONG else WORD;
      }
    }

    /** __pf_setbase and __pf_printnum */
    method PrintInteger(ch: char)
      requires Valid() && IsInteger(ch)
      modifies this`charcount, this`ap, out, out.buf
      ensures Valid() && out.text == old(out.text) + NumberField(pf, ch, First(old(ap))) && ap == Rest(old(ap))
    {
      hide Field, Numeral, B.Snp.Valid;
      var num, neg := GetNum(ch);
      var base := if ch == 'd' || ch == 'u' then 10 else if ch == 'x' || ch == 'p' then 16 else 8;
      var text := FormatNumber(num, base);
      var baseprefix := pf.altformat || ch == 'p';
      var bprefix := if baseprefix && base == 16 then "0x" else if baseprefix && base == 8 then "0" else "";
      PrintStuff(if neg then "-" else "", bprefix, text);
    }

    /** __pf_send */
    method SendChar(ch: char)
      requires Valid()
      modifies this, out, out.buf
      ensures Valid()
      ensures old(pf).inPct && !IsModifier(ch) ==>
        && out.text == old(out.text) + Converted(old(pf), ch, First(old(ap)))
        && pf == START && ap == (if TakesArg(ch) then Rest(old(ap)) else old(ap))
      ensures !old(pf).inPct || IsModifier(ch) ==>
        && ap == old(ap)
        && out.text == old(out.text) + (if old(pf).inPct || ch == '%' then "" else [ch])
        && pf == (if old(pf).inPct then Modified(old(pf), ch) else old(pf).(inPct := ch == '%'))
    {
      hide Field, NumberField, B.Snp.Valid;
      assert "" + "" == "";
      if !pf.inPct && ch != '%' {
        Print([ch]);
      } else if !pf.inPct {
        pf := pf.(inPct := true);
      } else if IsModifier(ch) {
        Modify(ch);
      } else {
        if IsInteger(ch) {
          PrintInteger(ch);
        } else if ch == 's' {
          var arg := First(ap);
          ap := Rest(ap);
          PrintStuff("", "", if arg.Str? then CString(arg.s) else "(null)");
        } else {
          var text := [ch];
          if ch == 'c' {
            text := CString([CharOf(First(ap))]);
            ap := Rest(ap);
          }
          PrintStuff("", "", text);
        }
        pf := START;
      }
    }
  }

  /** __vprintf: returns the number of characters sent. */
  method Vprintf(out: B.Snp, format: string, args: seq<Arg>) returns (chars: nat)
    requires out.Valid() && out.text == ""
    modifies out, out.buf
    ensures out.Valid() && out.text == Output(START, format, args) && chars == |out.text|
  {
    var s := new Session(out, args);
    hide B.Snp.Valid, Converted, Modified, Output;
    assert format[0..] == format;
    for i := 0 to |format|
      invariant s.Valid() && s.out == out && fresh(s)
      invariant Output(START, format, args) == out.text + Output(s.pf, format[i..], s.ap)
    {
      OutputStep(s.pf, format, i, s.ap);
      ghost var text := out.text;
      ghost var piece := if s.pf.inPct && !IsModifier(format[i]) then Converted(s.pf, format[i], First(s.ap))
                         else if s.pf.inPct || format[i] == '%' then "" else [format[i]];
      s.SendChar(format[i]);
      Assoc(text, piece, Output(s.pf, format[i + 1..], s.ap));
    }
    OutputEnd(s.pf, s.ap);
    chars := s.charcount;
  }

  /** The output of a format is that of its first character, and of the rest from the state it leaves. */
  lemma OutputStep(pf: PF, format: string, i: nat, ap: seq<Arg>)
    requires i < |format|
    ensures var ch, rest := format[i], format[i + 1..];
      Output(pf, format[i..], ap) ==
        if pf.inPct && !IsModifier(ch) then
          Converted(pf, ch, First(ap)) + Output(START, rest, if TakesArg(ch) then Rest(ap) else ap)
        else if pf.inPct then "" + Output(Modified(pf, ch), rest, ap)
        else if ch == '%' then "" + Output(pf.(inPct := true), rest, ap)
        else [ch] + Output(pf.(inPct := false), rest, ap)
  {}

  lemma OutputEnd(pf: PF, ap: seq<Arg>)
    ensures Output(pf, "", ap) == ""
  {}
}
