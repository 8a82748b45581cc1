/** Printing into a buffer of limited size. */
module Snprintf {
  import B = SnpBuffer
  import P = Printf

  /**
   As much of the output as fits, then a null character; nothing past that is
   written, and the length of the whole output is returned.  With a length of
   zero nothing is written at all.
   */
  method Vsnprintf(buf: array<char>, len: nat, format: string, args: seq<P.Arg>) returns (chars: nat)
    requires len <= buf.Length
    modifies buf
    ensures var total := P.Output(P.START, format, args);
      && chars == |total|
      && (len == 0 ==> buf[..] == old(buf[..]))
      && (len > 0 ==>
            var n := B.Min(len - 1, |total|);
            buf[..n] == total[..n] && buf[n] == '\0' && buf[n + 1..] == old(buf[n + 1..]))
  {
    hide P.Output;
    var snp := new B.Snp(buf, if len == 0 then 0 else len - 1);
    chars := P.Vprintf(snp, format, args);
    if len > 0 { buf[snp.pos] := '\0'; }
  }
}
