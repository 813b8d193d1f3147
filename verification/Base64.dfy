/** `base64_encode`, which prints the websocket key, against a decoder written from section 4 of RFC 4648. */
module Base64 {
  import opened Prelude

  /** Table 1 of RFC 4648. */
  function Symbol(i: nat): (c: char)
    requires i < 64
    ensures c != '='
  {
    if i < 26 then ('A' as int + i) as char
    else if i < 52 then ('a' as int + (i - 26)) as char
    else if i < 62 then ('0' as int + (i - 52)) as char
    else if i == 62 then '+' else '/'
  }

  /** The alphabet of that table. */
  const UPPER := "ABCDEFGHIJKLMNOPQRSTUVWXYZ"
  const LOWER := "abcdefghijklmnopqrstuvwxyz"

  /** The printed symbols are those of the table, in its order. */
  lemma Alphabet(i: nat)
    requires i < 64
    ensures i < 26 ==> Symbol(i) == UPPER[i]
    ensures 26 <= i < 52 ==> Symbol(i) == LOWER[i - 26]
    ensures 52 <= i < 62 ==> Symbol(i) == "0123456789"[i - 52]
    ensures Symbol(62) == '+' && Symbol(63) == '/'
  {
  }

  /** The reverse lookup of the decoder. */
  function Index(c: char): (r: Option<nat>)
    ensures r.Some? ==> r.value < 64
  {
    if 'A' <= c <= 'Z' then Some(c as int - 'A' as int)
    else if 'a' <= c <= 'z' then Some(c as int - 'a' as int + 26)
    else if '0' <= c <= '9' then Some(c as int - '0' as int + 52)
    else if c == '+' then Some(62) else if c == '/' then Some(63) else None
  }

  lemma IndexOfSymbol(i: nat)
    requires i < 64
    ensures Index(Symbol(i)) == Some(i)
  {
  }

  function At(b: seq<byte>, i: nat): byte { if i < |b| then b[i] else 0 }

  /** The 24-bit group at the front; absent octets count as zero. */
  function Group(b: seq<byte>): (v: nat)
    ensures v < 0x1000000
  {
    At(b, 0) as int * 65536 + At(b, 1) as int * 256 + At(b, 2) as int
  }

  function Quad(b: seq<byte>): (q: string)
    requires b != []
    ensures |q| == 4
  {
    var v := Group(b);
    [Symbol(v / 262144), Symbol(v / 4096 % 64),
     if |b| > 1 then Symbol(v / 64 % 64) else '=', if |b| > 2 then Symbol(v % 64) else '=']
  }

  /** What the encoder writes. */
  function Encode(b: seq<byte>): string
    decreases |b|
  {
    if b == [] then "" else Quad(b) + Encode(b[Min(3, |b|)..])
  }

  /** Decoding one quantum of four characters; `last` admits padding. */
  function DecodeQuad(q: string, last: bool): Option<seq<byte>>
    requires |q| == 4
  {
    var pad2 := last && q[2] == '=' && q[3] == '=';
    var pad1 := last && q[3] == '=';
    var a, b := Index(q[0]), Index(q[1]);
    var c := if pad2 then Some(0) else Index(q[2]);
    var d := if pad1 then Some(0) else Index(q[3]);
    if a.None? || b.None? || c.None? || d.None? then None
    else
      var v := a.value * 262144 + b.value * 4096 + c.value * 64 + d.value;
      var bytes := [v / 65536, v / 256 % 256, v % 256];
      Some(if pad2 then bytes[..1] else if pad1 then bytes[..2] else bytes)
  }

  /** The decoder of section 4 of RFC 4648. */
  function Decode(s: string): Option<seq<byte>>
    decreases |s|
  {
    if s == "" then Some([])
    else if |s| < 4 then None
    else match DecodeQuad(s[..4], |s| == 4)
      case None => None
      case Some(front) => match Decode(s[4..])
        case None => None
        case Some(back) => Some(front + back)
  }

  lemma SextetsRebuild(v: nat)
    requires v < 0x1000000
    ensures v / 262144 < 64
    ensures v / 262144 * 262144 + v / 4096 % 64 * 4096 + v / 64 % 64 * 64 + v % 64 == v
  {
    assert v / 4096 == v / 64 / 64 && v / 262144 == v / 4096 / 64;
  }

  lemma QuadDecodes(b: seq<byte>, last: bool)
    requires b != [] && (|b| >= 3 || last)
    ensures DecodeQuad(Quad(b), last) == Some(b[..Min(3, |b|)])
  {
    hide Symbol, Index;
    var v := Group(b);
    SextetsRebuild(v);
    IndexOfSymbol(v / 262144);
    IndexOfSymbol(v / 4096 % 64);
    IndexOfSymbol(v / 64 % 64);
    IndexOfSymbol(v % 64);
    GroupBytes(At(b, 0), At(b, 1), At(b, 2));
    var bytes: seq<byte> := [At(b, 0), At(b, 1), At(b, 2)];
    assert bytes[..Min(3, |b|)] == b[..Min(3, |b|)];
    var q := Quad(b);
    if |b| == 1 {
      assert DecodeQuad(q, last) == Some(bytes[..1]);
    } else if |b| == 2 {
      assert DecodeQuad(q, last) == Some(bytes[..2]);
    } else {
      assert bytes[..3] == bytes;
      assert DecodeQuad(q, last) == Some(bytes);
    }
  }

  lemma Split64(q: nat, r: nat)
    requires r < 64
    ensures (64 * q + r) / 64 == q && (64 * q + r) % 64 == r
  {
  }

  lemma Split256(q: nat, r: nat)
    requires r < 256
    ensures (256 * q + r) / 256 == q && (256 * q + r) % 256 == r
  {
  }

  lemma Split65536(q: nat, r: nat)
    requires r < 65536
    ensures (65536 * q + r) / 65536 == q
  {
  }

  lemma GroupBytes(x: byte, y: byte, z: byte)
    ensures var v := x as int * 65536 + y as int * 256 + z as int;
            v / 65536 == x && v / 256 % 256 == y && v % 256 == z
    ensures y == 0 && z == 0 ==> (x as int * 65536 + y as int * 256 + z as int) / 64 % 64 == 0
    ensures z == 0 ==> (x as int * 65536 + y as int * 256 + z as int) % 64 == 0
  {
    var a: int, b: int, c: int := x, y, z;
    Split65536(a, b * 256 + c);
    Split256(a * 256 + b, c);
    Split256(a, b);
    if c == 0 {
      Split64(a * 1024 + b * 4, 0);
      Split64(a * 16, 0);
    }
  }

  /** Base64 is inverted by the standard decoder, for every byte string. */
  lemma {:induction false} DecodeEncode(b: seq<byte>)
    ensures Decode(Encode(b)) == Some(b)
    decreases |b|
  {
    hide Quad, DecodeQuad;
    if b != [] {
      var rest := b[Min(3, |b|)..];
      DecodeEncode(rest);
      EncodeShape(rest);
      var s := Encode(b);
      assert s[..4] == Quad(b) && s[4..] == Encode(rest);
      QuadDecodes(b, |s| == 4);
      assert b[..Min(3, |b|)] + rest == b;
    }
  }

  /** Four characters for every three octets or part thereof. */
  lemma {:induction false} EncodeShape(b: seq<byte>)
    ensures |Encode(b)| == 4 * ((|b| + 2) / 3)
    decreases |b|
  {
    hide Quad;
    if b != [] { EncodeShape(b[Min(3, |b|)..]); }
  }

  lemma Injective(a: seq<byte>, b: seq<byte>)
    requires Encode(a) == Encode(b)
    ensures a == b
  {
    DecodeEncode(a);
    DecodeEncode(b);
  }

  lemma EncodeUnfold(b: seq<byte>)
    ensures b == [] ==> Encode(b) == ""
    ensures b != [] ==> Encode(b) == Quad(b) + Encode(b[Min(3, |b|)..])
  {
  }

  /** `base64_encode(in, inlen, out)`; the output buffer needs room for the terminator. For the 16-byte
      key this is 25 of the 32 bytes `ws_dial` provides. */
  method EncodeInto(input: seq<byte>, out: array<char>) returns (j: nat)
    requires 4 * ((|input| + 2) / 3) < out.Length
    modifies out
    ensures j == 4 * ((|input| + 2) / 3)
    ensures out[..j] == Encode(input) && out[j] == '\0'
  {
    hide Encode, Symbol;
    var i := 0;
    j := 0;
    EncodeShape(input);
    EncodeUnfold([]);
    assert input[0..] == input;
    while i < |input|
      invariant 0 <= i <= |input| && 0 <= j && j + |Encode(input[i..])| == |Encode(input)|
      invariant out[..j] + Encode(input[i..]) == Encode(input)
      decreases |input| - i
    {
      var n := |input|;
      ghost var tail := input[i..];
      EncodeUnfold(tail);
      var v: nat := input[i] as int * 65536;
      if i + 1 < n { v := v + input[i + 1] as int * 256; }
      if i + 2 < n { v := v + input[i + 2] as int; }
      assert v == Group(tail);
      var c2 := if i + 1 < n then Symbol(v / 64 % 64) else '=';
      var c3 := if i + 2 < n then Symbol(v % 64) else '=';
      ghost var done := out[..j];
      out[j], out[j + 1], out[j + 2], out[j + 3] := Symbol(v / 262144), Symbol(v / 4096 % 64), c2, c3;
      assert out[..j + 4] == done + Quad(tail);
      j := j + 4;
      i := if i + 3 <= n then i + 3 else n;
      assert tail[Min(3, |tail|)..] == input[i..];
    }
    assert input[i..] == [];
    out[j] := '\0';
  }

  /** Test vectors of section 10 of RFC 4648: "f", "fo", "foobar". */
  lemma TestVectors()
    ensures Encode([102]) == "Zg==" && Encode([102, 111]) == "Zm8="
    ensures Encode([102, 111, 111, 98, 97, 114]) == "Zm9vYmFy"
  {
    hide Encode, Quad;
    QuadsOfVectors();
    EncodeGroup([102], []);
    EncodeGroup([102, 111], []);
    EncodeGroup([102, 111, 111], [98, 97, 114]);
    EncodeGroup([98, 97, 114], []);
    assert [102, 111, 111] + [98, 97, 114] == [102, 111, 111, 98, 97, 114];
    assert "Zm9v" + "YmFy" == "Zm9vYmFy";
  }

  lemma QuadsOfVectors()
    ensures Quad([102]) == "Zg==" && Quad([102, 111]) == "Zm8="
    ensures Quad([102, 111, 111]) == "Zm9v" && Quad([98, 97, 114]) == "YmFy"
  {
    assert Group([102]) == 6684672 && Group([102, 111]) == 6713088;
    assert Group([102, 111, 111]) == 6713199 && Group([98, 97, 114]) == 6447474;
  }

  lemma EncodeGroup(b: seq<byte>, rest: seq<byte>)
    requires 1 <= |b| <= 3 && (|b| < 3 ==> rest == [])
    ensures Encode(b + rest) == Quad(b) + Encode(rest) && Encode([]) == ""
    ensures rest == [] ==> Encode(b) == Quad(b)
  {
    var s := b + rest;
    assert s[Min(3, |s|)..] == rest;
    assert Group(s) == Group(b);
    if rest == [] { assert s == b && Quad(b) + "" == Quad(b); }
  }
}
