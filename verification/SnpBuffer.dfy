/** The context vsnprintf hands to the printf core: a buffer, its room, and the next position. */
module SnpBuffer {

  function Min(a: nat, b: nat): (m: nat) { if a < b then a else b }

  class Snp {
    const buf: array<char>
    const room: nat             // characters that may be written, the terminator not counted
    var pos: nat
    ghost var text: string      // everything sent so far
    ghost const before: seq<char>

    ghost predicate Valid()
      reads this, buf
    {
      && room <= buf.Length == |before| && pos == Min(|text|, room)
      && buf[..] == text[..pos] + before[pos..]
    }

    constructor (buf: array<char>, room: nat)
      requires room <= buf.Length
      ensures Valid() && text == "" && this.buf == buf && this.room == room && before == buf[..]
    {
      this.buf, this.room, pos, text, before := buf, room, 0, "", buf[..];
    }

    /** Each character is stored if there is room, and dropped otherwise. */
    method Send(data: string)
      requires Valid()
      modifies this, buf
      ensures Valid() && text == old(text) + data
    {
      ghost var start := text;
      for i := 0 to |data|
        invariant Valid() && text == start + data[..i]
      {
        text := text + [data[i]];
        if pos < room {
          buf[pos] := data[i];
          pos := pos + 1;
        }
        assert buf[..] == text[..pos] + before[pos..];
        assert start + data[..i] + [data[i]] == start + data[..i + 1];
      }
      assert data[..|data|] == data;
    }
  }
}
