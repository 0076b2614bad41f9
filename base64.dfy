/**
 * Base64 with the standard alphabet and `=` padding (section 4 of
 * RFC 4648), as `window.btoa` applies it to a string of byte-valued code
 * units.
 */
module Base64 {
  import opened Wrappers
  import opened Utf8

  type sextet = x: int | 0 <= x < 64

  /** The alphabet `A-Z a-z 0-9 + /`. */
  function CharOf(i: sextet): char {
    if i < 26 then ('A' as int + i) as char
    else if i < 52 then ('a' as int + (i - 26)) as char
    else if i < 62 then ('0' as int + (i - 52)) as char
    else if i == 62 then '+'
    else '/'
  }

  function IndexOf(c: char): (r: Option<sextet>)
    ensures r.Some? ==> CharOf(r.value) == c
  {
    if 'A' <= c <= 'Z' then Some(c as int - 'A' as int)
    else if 'a' <= c <= 'z' then Some(c as int - 'a' as int + 26)
    else if '0' <= c <= '9' then Some(c as int - '0' as int + 52)
    else if c == '+' then Some(62)
    else if c == '/' then Some(63)
    else None
  }

  lemma IndexOfCharOf(i: sextet)
    ensures IndexOf(CharOf(i)) == Some(i)
    ensures CharOf(i) != '='
  {
  }

  /** Three bytes as four sextets. */
  function Quad(b0: byte, b1: byte, b2: byte): seq<sextet> {
    [b0 as int / 4, (b0 as int % 4) * 16 + b1 as int / 16, (b1 as int % 16) * 4 + b2 as int / 64, b2 as int % 64]
  }

  function Chars(q: seq<sextet>): (r: string)
    ensures |r| == |q|
    ensures forall i :: 0 <= i < |q| ==> r[i] == CharOf(q[i])
  {
    if q == [] then [] else [CharOf(q[0])] + Chars(q[1..])
  }

  /** `btoa`: every three bytes become four characters; a short tail is padded with `=`. */
  function Encode(b: seq<byte>): (r: string)
    ensures |r| == 4 * ((|b| + 2) / 3)
    decreases |b|
  {
    if b == [] then ""
    else if |b| == 1 then Chars(Quad(b[0], 0, 0)[..2]) + "=="
    else if |b| == 2 then Chars(Quad(b[0], b[1], 0)[..3]) + "="
    else Chars(Quad(b[0], b[1], b[2])) + Encode(b[3..])
  }

  /** The bytes rebuilt from four sextets. */
  function Unquad(c0: sextet, c1: sextet, c2: sextet, c3: sextet): seq<byte> {
    [c0 as int * 4 + c1 as int / 16, (c1 as int % 16) * 16 + c2 as int / 4, (c2 as int % 4) * 64 + c3 as int]
  }

  /** Decoding, the inverse of `Encode` on its image; `None` on malformed input. */
  function Decode(s: string): Option<seq<byte>>
    decreases |s|
  {
    if s == [] then Some([])
    else if |s| < 4 then None
    else
      var i0, i1 := IndexOf(s[0]), IndexOf(s[1]);
      if i0.None? || i1.None? then None
      else if |s| == 4 && s[2] == '=' && s[3] == '=' then
        Some(Unquad(i0.value, i1.value, 0, 0)[..1])
      else
        var i2 := IndexOf(s[2]);
        if i2.None? then None
        else if |s| == 4 && s[3] == '=' then
          Some(Unquad(i0.value, i1.value, i2.value, 0)[..2])
        else
          var i3 := IndexOf(s[3]);
          if i3.None? then None
          else match Decode(s[4..])
            case None => None
            case Some(rest) => Some(Unquad(i0.value, i1.value, i2.value, i3.value) + rest)
  }

  lemma DivMod16(a: int, r: int)
    requires 0 <= r < 16
    ensures (a * 16 + r) / 16 == a && (a * 16 + r) % 16 == r
  {
  }

  lemma DivMod4(a: int, r: int)
    requires 0 <= r < 4
    ensures (a * 4 + r) / 4 == a && (a * 4 + r) % 4 == r
  {
  }

  /** The sextets of three bytes give the bytes back. */
  lemma UnquadQuad(b0: byte, b1: byte, b2: byte)
    ensures var q := Quad(b0, b1, b2); Unquad(q[0], q[1], q[2], q[3]) == [b0, b1, b2]
  {
    var q := Quad(b0, b1, b2);
    DivMod16(b0 % 4, b1 / 16);
    DivMod4(b1 % 16, b2 / 64);
    assert q[0] as int * 4 + q[1] as int / 16 == b0;
    assert (q[1] as int % 16) * 16 + q[2] as int / 4 == b1;
    assert (q[2] as int % 4) * 64 + q[3] as int == b2;
  }

  /** A full group of four characters decodes to its three bytes, ahead of whatever follows. */
  lemma DecodeGroup(b0: byte, b1: byte, b2: byte, rest: string)
    requires Decode(rest).Some?
    ensures Decode(Chars(Quad(b0, b1, b2)) + rest) == Some([b0, b1, b2] + Decode(rest).value)
  {
    var q := Quad(b0, b1, b2);
    var s := Chars(q) + rest;
    IndexOfCharOf(q[0]); IndexOfCharOf(q[1]); IndexOfCharOf(q[2]); IndexOfCharOf(q[3]);
    UnquadQuad(b0, b1, b2);
    assert s[..4] == Chars(q) && s[4..] == rest;
    assert IndexOf(s[0]) == Some(q[0]) && IndexOf(s[1]) == Some(q[1]);
    assert IndexOf(s[2]) == Some(q[2]) && IndexOf(s[3]) == Some(q[3]);
    assert s[2] != '=' && s[3] != '=';
  }

  /** One byte encodes to two characters and `==`, which decode back to it. */
  lemma DecodeOne(b0: byte)
    ensures Decode(Encode([b0])) == Some([b0])
  {
    var q := Quad(b0, 0, 0);
    var s := Encode([b0]);
    IndexOfCharOf(q[0]); IndexOfCharOf(q[1]);
    UnquadQuad(b0, 0, 0);
    assert s == [CharOf(q[0]), CharOf(q[1]), '=', '='];
    assert Unquad(q[0], q[1], 0, 0)[..1] == [b0];
  }

  /** Two bytes encode to three characters and `=`, which decode back to them. */
  lemma DecodeTwo(b0: byte, b1: byte)
    ensures Decode(Encode([b0, b1])) == Some([b0, b1])
  {
    var q := Quad(b0, b1, 0);
    var s := Encode([b0, b1]);
    IndexOfCharOf(q[0]); IndexOfCharOf(q[1]); IndexOfCharOf(q[2]);
    UnquadQuad(b0, b1, 0);
    assert s == [CharOf(q[0]), CharOf(q[1]), CharOf(q[2]), '='];
    assert Unquad(q[0], q[1], q[2], 0)[..2] == [b0, b1];
  }

  /** Decoding inverts encoding. */
  lemma {:induction false} DecodeEncode(b: seq<byte>)
    ensures Decode(Encode(b)) == Some(b)
    decreases |b|
  {
    if |b| == 1 {
      assert b == [b[0]];
      DecodeOne(b[0]);
    } else if |b| == 2 {
      assert b == [b[0], b[1]];
      DecodeTwo(b[0], b[1]);
    } else if |b| >= 3 {
      DecodeEncode(b[3..]);
      DecodeEncodeStep(b);
    }
  }

  lemma SplitThree(b: seq<byte>)
    requires |b| >= 3
    ensures [b[0], b[1], b[2]] + b[3..] == b
  {
  }

  /** The induction step of `DecodeEncode`: a leading group of three bytes. */
  lemma DecodeEncodeStep(b: seq<byte>)
    requires |b| >= 3 && Decode(Encode(b[3..])) == Some(b[3..])
    ensures Decode(Encode(b)) == Some(b)
  {
    var rest := Encode(b[3..]);
    var head := Chars(Quad(b[0], b[1], b[2]));
    assert b != [] && |b| != 1 && |b| != 2;
    assert Encode(b) == head + rest;
    DecodeGroup(b[0], b[1], b[2], rest);
    assert Decode(head + rest) == Some([b[0], b[1], b[2]] + b[3..]);
    SplitThree(b);
  }

  lemma EncodeInjective(a: seq<byte>, b: seq<byte>)
    requires Encode(a) == Encode(b)
    ensures a == b
  {
    DecodeEncode(a);
    DecodeEncode(b);
  }
}
