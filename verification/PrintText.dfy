/** What printf prints, conversion by conversion, in terms of the format's own characters. */
module PrintText {
  import P = Printf

  // ---- What modifiers say ----

  /** The number of l's since the last z. */
  function Ls(mods: string): (n: nat)
  {
    if mods == "" then 0
    else
      var n, c := Ls(mods[..|mods| - 1]), mods[|mods| - 1];
      if c == 'l' then n + 1 else if c == 'z' then 0 else n
  }

  /** A second l makes a long long; one more makes a long again. */
  predicate LongLong(mods: string) { Ls(mods) > 0 && Ls(mods) % 2 == 0 }

  /** Arguments are read modulo this. */
  function Modulus(mods: string): (m: nat)
  {
    if LongLong(mods) then 0x1_0000_0000_0000_0000 else 0x1_0000_0000
  }

  const INSIDE := P.START.(inPct := true)

  lemma {:induction false} SizeMeans(mods: string)
    requires P.AllModifiers(mods)
    ensures P.ModifiedBy(INSIDE, mods).size.LLONGSZ? <==> LongLong(mods)
    ensures P.ModifiedBy(INSIDE, mods).size.LONGSZ? <==> Ls(mods) % 2 == 1
    decreases |mods|
  {
    if mods == "" {
    } else {
      SizeMeans(mods[..|mods| - 1]);
    }
  }

  /** Prefix and text in a field: of the width the digits denote, filled with zeros if the first digit is one. */
  function Padded(mods: string, prefix: string, text: string): (s: string)
  {
    var width, len := P.Denotes(P.DigitsIn(mods), 10), |prefix| + |text|;
    var pad := if width > len then width - len else 0;
    if '-' in mods then prefix + text + P.Repeat(if P.ZeroFirst(P.DigitsIn(mods)) then '0' else ' ', pad)
    else if P.ZeroFirst(P.DigitsIn(mods)) then prefix + P.Repeat('0', pad) + text
    else P.Repeat(' ', pad) + prefix + text
  }

  lemma FieldIs(mods: string, prefix: string, text: string)
    requires P.AllModifiers(mods)
    ensures P.Field(P.ModifiedBy(INSIDE, mods), prefix, text) == Padded(mods, prefix, text)
  {
    hide P.ModifiedBy, P.DigitsIn, P.Denotes, P.Repeat;
    P.ModifiersMean(mods);
  }

  /** What printf prints for one conversion. */
  function Printed(mods: string, ch: char, arg: P.Arg): (s: string)
  {
    P.Output(P.START, "%" + mods + [ch], [arg])
  }

  // ---- Numbers ----

  lemma NumberIs(mods: string, ch: char, n: int, prefix: string, m: nat)
    requires P.AllModifiers(mods) && P.IsInteger(ch)
    requires var v := P.Value(P.ModifiedBy(INSIDE, mods).size, ch, P.Int(n));
      P.Abs(v) == m && prefix == P.Prefix(P.ModifiedBy(INSIDE, mods), ch, v < 0)
    ensures Printed(mods, ch, P.Int(n)) == Padded(mods, prefix, P.Numeral(m, P.Base(ch)))
  {
    hide P.Output, P.ModifiedBy, P.Numeral, P.Field, P.Prefix, P.Value;
    P.OneConversion(mods, ch, P.Int(n));
    FieldIs(mods, prefix, P.Numeral(m, P.Base(ch)));
  }

  /** %x, %o and %u print the argument, modulo 2^32 or 2^64, in base 16, 8 and 10. */
  lemma Unsigned(mods: string, n: int)
    requires P.AllModifiers(mods)
    ensures Printed(mods, 'x', P.Int(n)) ==
            Padded(mods, if '#' in mods then "0x" else "", P.Numeral(n % Modulus(mods), 16))
    ensures Printed(mods, 'o', P.Int(n)) ==
            Padded(mods, if '#' in mods then "0" else "", P.Numeral(n % Modulus(mods), 8))
    ensures Printed(mods, 'u', P.Int(n)) == Padded(mods, "", P.Numeral(n % Modulus(mods), 10))
  {
    hide P.ModifiedBy, P.Numeral, P.DigitsIn, P.Denotes, Padded, Printed;
    P.ModifiersMean(mods);
    SizeMeans(mods);
    var m := n % Modulus(mods);
    NumberIs(mods, 'x', n, if '#' in mods then "0x" else "", m);
    NumberIs(mods, 'o', n, if '#' in mods then "0" else "", m);
    NumberIs(mods, 'u', n, "", m);
  }

  /** %p prints the argument modulo 2^32 in base 16, with a prefix. */
  lemma Pointer(mods: string, n: int)
    requires P.AllModifiers(mods)
    ensures Printed(mods, 'p', P.Int(n)) == Padded(mods, "0x", P.Numeral(n % 0x1_0000_0000, 16))
  {
    hide P.ModifiedBy, P.Numeral, Padded, Printed;
    NumberIs(mods, 'p', n, "0x", n % 0x1_0000_0000);
  }

  /** %d prints the signed number that the argument is congruent to. */
  lemma Signed(mods: string, n: int, v: int)
    requires P.AllModifiers(mods) && -(Modulus(mods) as int) <= 2 * v < Modulus(mods) && (n - v) % Modulus(mods) == 0
    ensures Printed(mods, 'd', P.Int(n)) ==
            Padded(mods, if v < 0 then "-" else "", P.Numeral(if v < 0 then -v else v, 10))
  {
    hide P.ModifiedBy, P.Numeral, P.DigitsIn, P.Denotes, Padded, Printed, P.Signed;
    SizeMeans(mods);
    SignedIs(n, v, Modulus(mods));
    NumberIs(mods, 'd', n, if v < 0 then "-" else "", if v < 0 then -v else v);
  }

  lemma SignedIs(n: int, v: int, m: nat)
    requires m == 0x1_0000_0000 || m == 0x1_0000_0000_0000_0000
    requires -(m as int) <= 2 * v < m && (n - v) % m == 0
    ensures P.Signed(n, m) == v
  {}

  // ---- Strings and characters ----

  /** %s prints a string up to its first null character. */
  lemma Text(mods: string, a: string, b: string)
    requires P.AllModifiers(mods) && '\0' !in a
    ensures Printed(mods, 's', P.Str(a)) == Padded(mods, "", a)
    ensures Printed(mods, 's', P.Str(a + "\0" + b)) == Padded(mods, "", a)
    ensures Printed(mods, 's', P.NullStr) == Padded(mods, "", "(null)")
  {
    hide P.Output, P.ModifiedBy, P.Field, P.CString, Padded;
    UpToNull(a, "");
    UpToNull(a, "\0" + b);
    assert a + "" == a && a + ("\0" + b) == a + "\0" + b;
    P.OneConversion(mods, 's', P.Str(a));
    P.OneConversion(mods, 's', P.Str(a + "\0" + b));
    P.OneConversion(mods, 's', P.NullStr);
    FieldIs(mods, "", a);
    FieldIs(mods, "", "(null)");
  }

  lemma {:induction false} UpToNull(a: string, b: string)
    requires '\0' !in a && (b == "" || b[0] == '\0')
    ensures P.CString(a + b) == a
    decreases |a|
  {
    if a == "" {
      assert a + b == b;
    } else {
      UpToNull(a[1..], b);
      assert (a + b)[1..] == a[1..] + b && a[0] in a;
    }
  }

  /** %c prints the character, or nothing for the null one. */
  lemma Character(mods: string, n: int)
    requires P.AllModifiers(mods)
    ensures Printed(mods, 'c', P.Int(n)) == Padded(mods, "", if n % 256 == 0 then "" else [(n % 256) as char])
  {
    hide P.Output, P.ModifiedBy, P.Field, Padded;
    P.OneConversion(mods, 'c', P.Int(n));
    var c := (n % 256) as char;
    assert [c][1..] == "" && (c as int == '\0' as int <==> n % 256 == 0);
    assert P.CString([c]) == if n % 256 == 0 then "" else [c];
    FieldIs(mods, "", P.CString([c]));
  }

  /** Anything else, a second percent sign for one, prints itself. */
  lemma Itself(mods: string, ch: char, arg: P.Arg)
    requires P.AllModifiers(mods) && ch !in "#-lz0123456789" && ch !in "douxpsc"
    ensures Printed(mods, ch, arg) == Padded(mods, "", [ch])
  {
    hide P.Output, P.ModifiedBy, P.Field, Padded;
    NoConversion(ch);
    P.OneConversion(mods, ch, arg);
    FieldIs(mods, "", [ch]);
  }

  lemma NoConversion(ch: char)
    requires ch !in "#-lz0123456789" && ch !in "douxpsc"
    ensures !P.IsModifier(ch) && !P.TakesArg(ch)
  {
    Among(ch);
  }

  lemma Among(ch: char)
    ensures P.IsModifier(ch) ==> ch in "#-lz0123456789"
    ensures P.TakesArg(ch) <==> ch in "douxpsc"
  {
    AmongModifiers(ch);
    var s := "douxpsc";
    assert s[0] == 'd' && s[1] == 'o' && s[2] == 'u' && s[3] == 'x' && s[4] == 'p' && s[5] == 's' && s[6] == 'c';
  }

  /** The modifiers are these characters. */
  lemma AmongModifiers(ch: char)
    ensures P.IsModifier(ch) <==> ch in "#-lz0123456789"
  {
    var s := "#-lz0123456789";
    assert s[0] == '#' && s[1] == '-' && s[2] == 'l' && s[3] == 'z';
    assert s[4] == '0' && s[5] == '1' && s[6] == '2' && s[7] == '3' && s[8] == '4' && s[9] == '5' && s[10] == '6'
           && s[11] == '7' && s[12] == '8' && s[13] == '9';
    if '0' <= ch <= '9' { assert s[4 + (ch as int - '0' as int)] == ch; }
  }

  // ---- Whole formats ----

  /** Text without a percent sign prints itself. */
  lemma {:induction false} Literal(t: string, rest: string, ap: seq<P.Arg>)
    requires '%' !in t
    ensures P.Output(P.START, t + rest, ap) == t + P.Output(P.START, rest, ap)
    decreases |t|
  {
    hide P.Output;
    if t == "" {
      assert t + rest == rest;
    } else {
      Literal(t[1..], rest, ap);
      var f := t + rest;
      assert f[0..] == f && f[1..] == t[1..] + rest && f[0] == t[0] && t[0] in t;
      P.OutputStep(P.START, f, 0, ap);
      assert [t[0]] + (t[1..] + P.Output(P.START, rest, ap)) == t + P.Output(P.START, rest, ap);
    }
  }

  /**
   A conversion prints what it would print alone, and the rest of the format what it would, with the
   arguments that are left.
   */
  lemma Sequence(mods: string, ch: char, rest: string, arg: P.Arg, ap: seq<P.Arg>)
    requires P.AllModifiers(mods) && ch !in "#-lz0123456789"
    ensures P.Output(P.START, "%" + mods + [ch] + rest, [arg] + ap)
         == Printed(mods, ch, arg) + P.Output(P.START, rest, if ch in "douxpsc" then ap else [arg] + ap)
  {
    hide P.ModifiedBy, P.Converted, P.Output, P.IsModifier, P.TakesArg;
    Among(ch);
    var f, pf, tail, args := "%" + mods + [ch] + rest, P.ModifiedBy(INSIDE, mods), [ch] + rest, [arg] + ap;
    P.OutputStep(P.START, f, 0, args);
    assert f[0..] == f && f[1..] == mods + tail;
    P.OutputModified(INSIDE, mods, tail, args);
    P.OutputStep(pf, tail, 0, args);
    assert tail[0..] == tail && tail[1..] == rest && args[1..] == ap;
    P.OneConversion(mods, ch, arg);
    assert "" + P.Output(INSIDE, mods + tail, args) == P.Output(INSIDE, mods + tail, args);
  }

  lemma ConversionsPlain(ch: char)
    requires P.TakesArg(ch)
    ensures ch !in "#-lz0123456789"
  {}

  /** Of two conversions, the second takes the second argument. */
  lemma Two(mods: string, ch: char, arg: P.Arg, mods': string, ch': char, arg': P.Arg)
    requires P.AllModifiers(mods) && P.AllModifiers(mods') && ch in "douxpsc" && ch' in "douxpsc"
    ensures P.Output(P.START, "%" + mods + [ch] + ("%" + mods' + [ch']), [arg, arg'])
         == Printed(mods, ch, arg) + Printed(mods', ch', arg')
  {
    hide P.Output;
    assert [arg] + [arg'] == [arg, arg'];
    Among(ch);
    ConversionsPlain(ch);
    Sequence(mods, ch, "%" + mods' + [ch'], arg, [arg']);
  }

  // ---- Without width or flags ----

  lemma Bare(mods: string, prefix: string, text: string)
    requires P.DigitsIn(mods) == ""
    ensures Padded(mods, prefix, text) == prefix + text
  {
    hide P.DigitsIn;
    assert P.Denotes("", 10) == 0;
    assert prefix + text + "" == prefix + text && "" + prefix + text == prefix + text;
    assert prefix + "" + text == prefix + text;
  }

  lemma Flags()
    ensures P.DigitsIn("") == P.DigitsIn("#") == P.DigitsIn("ll") == ""
    ensures Ls("") == Ls("#") == 0 && Ls("ll") == 2
  {
    assert "" + "#" == "#" && "" + "l" == "l" && "l" + "l" == "ll";
    assert "ll"[..1] == "l" && "l"[..0] == "" && "#"[..0] == "";
    P.NoDigits();
    P.DigitsStep("", '#');
    P.DigitsStep("", 'l');
    P.DigitsStep("l", 'l');
    assert Ls("l") == 1;
  }

  /** The simple formats, and what their digits denote. */
  lemma Simple(n: int)
    ensures P.Output(P.START, "%x", [P.Int(n)]) == P.Numeral(n % 0x1_0000_0000, 16)
    ensures P.Output(P.START, "%o", [P.Int(n)]) == P.Numeral(n % 0x1_0000_0000, 8)
    ensures P.Output(P.START, "%u", [P.Int(n)]) == P.Numeral(n % 0x1_0000_0000, 10)
    ensures P.Output(P.START, "%p", [P.Int(n)]) == "0x" + P.Numeral(n % 0x1_0000_0000, 16)
    ensures P.Output(P.START, "%#x", [P.Int(n)]) == "0x" + P.Numeral(n % 0x1_0000_0000, 16)
    ensures P.Output(P.START, "%#o", [P.Int(n)]) == "0" + P.Numeral(n % 0x1_0000_0000, 8)
    ensures P.Output(P.START, "%llx", [P.Int(n)]) == P.Numeral(n % 0x1_0000_0000_0000_0000, 16)
  {
    hide P.Output, P.Numeral, Padded, P.DigitsIn, Ls;
    Flags();
    Unsigned("", n);
    Unsigned("#", n);
    Unsigned("ll", n);
    Pointer("", n);
    assert "%" + "" + "x" == "%x" && "%" + "" + "o" == "%o" && "%" + "" + "u" == "%u" && "%" + "" + "p" == "%p";
    assert "%" + "#" + "x" == "%#x" && "%" + "#" + "o" == "%#o" && "%" + "ll" + "x" == "%llx";
    var w, l := n % 0x1_0000_0000, n % 0x1_0000_0000_0000_0000;
    Bare("", "", P.Numeral(w, 16));
    Bare("", "", P.Numeral(w, 8));
    Bare("", "", P.Numeral(w, 10));
    Bare("", "0x", P.Numeral(w, 16));
    Bare("#", "0x", P.Numeral(w, 16));
    Bare("#", "0", P.Numeral(w, 8));
    Bare("ll", "", P.Numeral(l, 16));
    assert "" + P.Numeral(w, 16) == P.Numeral(w, 16) && "" + P.Numeral(w, 8) == P.Numeral(w, 8);
    assert "" + P.Numeral(w, 10) == P.Numeral(w, 10) && "" + P.Numeral(l, 16) == P.Numeral(l, 16);
  }

  lemma Denoting(n: int)
    ensures P.Denotes(P.Output(P.START, "%x", [P.Int(n)]), 16) == n % 0x1_0000_0000
    ensures P.Denotes(P.Output(P.START, "%o", [P.Int(n)]), 8) == n % 0x1_0000_0000
    ensures P.Denotes(P.Output(P.START, "%u", [P.Int(n)]), 10) == n % 0x1_0000_0000
    ensures P.Denotes(P.Output(P.START, "%llx", [P.Int(n)]), 16) == n % 0x1_0000_0000_0000_0000
  {
    hide P.Output, P.Numeral, P.Denotes;
    Simple(n);
    P.NumeralDenotes(n % 0x1_0000_0000, 16);
    P.NumeralDenotes(n % 0x1_0000_0000, 8);
    P.NumeralDenotes(n % 0x1_0000_0000, 10);
    P.NumeralDenotes(n % 0x1_0000_0000_0000_0000, 16);
  }

  /** Two hundred and fifty-five in hexadecimal, and eight in octal. */
  lemma Samples()
    ensures P.Output(P.START, "%x", [P.Int(255)]) == "ff" && P.Output(P.START, "%o", [P.Int(8)]) == "10"
  {
    hide P.Output, P.Numeral;
    Simple(255);
    Simple(8);
    P.NumeralStep(255, 16);
    P.NumeralStep(15, 16);
    P.NumeralStep(8, 8);
    P.NumeralStep(1, 8);
    assert "" + "f" == "f" && "f" + "f" == "ff" && "" + "1" == "1" && "1" + "0" == "10";
  }
}
