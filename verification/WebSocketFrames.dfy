/** The C client's websocket framing: `ws_send_text`, `read_full`, `ws_recv_text`, against the frame layout of
    sections 5.2 and 5.3 of RFC 6455. */
module WebSocketFrames {
  import opened Prelude

  // ---------- masking ----------

  function Pow2(w: nat): nat { if w == 0 then 1 else 2 * Pow2(w - 1) }

  /** Bitwise exclusive or of the low `w` bits. */
  function XorBits(w: nat, a: nat, b: nat): nat {
    if w == 0 then 0 else (a % 2 + b % 2) % 2 + 2 * XorBits(w - 1, a / 2, b / 2)
  }

  lemma Halve(bit: nat, y: nat)
    requires bit < 2
    ensures (bit + 2 * y) / 2 == y && (bit + 2 * y) % 2 == bit
  {
  }

  lemma BitTwice(x: nat, y: nat)
    requires x < 2 && y < 2
    ensures ((x + y) % 2 + y) % 2 == x
  {
  }

  lemma XorUnfold(w: nat, a: nat, b: nat)
    requires w > 0
    ensures XorBits(w, a, b) == (a % 2 + b % 2) % 2 + 2 * XorBits(w - 1, a / 2, b / 2)
  {
  }

  lemma {:induction false} XorTwice(w: nat, a: nat, b: nat)
    requires a < Pow2(w)
    ensures XorBits(w, a, b) < Pow2(w) && XorBits(w, XorBits(w, a, b), b) == a
  {
    if w > 0 {
      hide XorBits;
      var bit, y := (a % 2 + b % 2) % 2, XorBits(w - 1, a / 2, b / 2);
      XorTwice(w - 1, a / 2, b / 2);
      XorUnfold(w, a, b);
      Halve(bit, y);
      XorUnfold(w, bit + 2 * y, b);
      BitTwice(a % 2, b % 2);
    }
  }

  function Xor(a: byte, b: byte): byte {
    XorTwice(8, a, b);
    assert Pow2(8) == 256;
    XorBits(8, a, b)
  }

  type Key = k: seq<byte> | |k| == 4 witness [0, 0, 0, 0]

  /** Section 5.3 of RFC 6455: octet `i` is xored with octet `i mod 4` of the key. */
  function Mask(s: seq<byte>, key: Key): (r: seq<byte>)
    ensures |r| == |s|
  {
    seq(|s|, i requires 0 <= i < |s| => Xor(s[i], key[i % 4]))
  }

  /** Bit `b` of `x`, the lowest being bit 0. */
  function Bit(x: nat, b: nat): nat { if b == 0 then x % 2 else Bit(x / 2, b - 1) }

  lemma BitHalf(x: nat, b: nat)
    ensures b == 0 ==> Bit(x, b) == x % 2
    ensures b > 0 ==> Bit(x, b) == Bit(x / 2, b - 1)
  {
  }

  lemma {:induction false} XorBit(w: nat, a: nat, b: nat, k: nat)
    requires k < w
    ensures Bit(XorBits(w, a, b), k) == (Bit(a, k) + Bit(b, k)) % 2
  {
    hide XorBits, Bit;
    var bit, y := (a % 2 + b % 2) % 2, XorBits(w - 1, a / 2, b / 2);
    XorUnfold(w, a, b);
    Halve(bit, y);
    BitHalf(a, k);
    BitHalf(b, k);
    BitHalf(bit + 2 * y, k);
    if k > 0 { XorBit(w - 1, a / 2, b / 2, k - 1); }
  }

  lemma {:induction false} SameBits(w: nat, x: nat, y: nat)
    requires x < Pow2(w) && y < Pow2(w) && forall b :: 0 <= b < w ==> Bit(x, b) == Bit(y, b)
    ensures x == y
  {
    if w > 0 {
      hide Bit;
      BitHalf(x, 0);
      BitHalf(y, 0);
      forall b | 0 <= b < w - 1 ensures Bit(x / 2, b) == Bit(y / 2, b) {
        BitHalf(x, b + 1);
        BitHalf(y, b + 1);
      }
      SameBits(w - 1, x / 2, y / 2);
    }
  }

  /** Section 5.3 of RFC 6455, bit by bit: `p` is `s` masked with the key. */
  ghost predicate Masked(p: seq<byte>, s: seq<byte>, key: Key) {
    |p| == |s| && forall i, b :: 0 <= i < |s| && 0 <= b < 8 ==>
                    (Bit(p[i], b) == 1 <==> Bit(s[i], b) != Bit(key[i % 4], b))
  }

  lemma BitIsBit(x: nat, b: nat)
    ensures Bit(x, b) == 0 || Bit(x, b) == 1
  {
  }

  /** The masked text is what the standard says, bit by bit, and nothing else is. */
  lemma MaskBits(s: seq<byte>, key: Key, p: seq<byte>)
    ensures Masked(p, s, key) <==> p == Mask(s, key)
  {
    hide Bit;
    var m := Mask(s, key);
    forall i, b: nat | 0 <= i < |s| && b < 8
      ensures Bit(m[i], b) == 1 <==> Bit(s[i], b) != Bit(key[i % 4], b)
    {
      XorBit(8, s[i], key[i % 4], b);
      BitIsBit(s[i], b);
      BitIsBit(key[i % 4], b);
    }
    if Masked(p, s, key) {
      forall i | 0 <= i < |s| ensures p[i] == m[i] {
        forall b: nat | b < 8 ensures Bit(p[i], b) == Bit(m[i], b) {
          BitIsBit(p[i], b);
          BitIsBit(m[i], b);
        }
        assert Pow2(8) == 256;
        SameBits(8, p[i], m[i]);
      }
    }
  }

  /** A message of two octets. */
  lemma MaskExample()
    ensures Mask([65, 66], [1, 2, 3, 4]) == [64, 64]
  {
    assert Mask([65, 66], [1, 2, 3, 4])[0] == Xor(65, 1) && Mask([65, 66], [1, 2, 3, 4])[1] == Xor(66, 2);
    XorExample();
  }

  lemma XorExample()
    ensures XorBits(8, 65, 1) == 64 && XorBits(8, 66, 2) == 64
  {
    hide XorBits;
    assert Pow2(6) == 64 && Pow2(7) == 128;
    XorZero(7, 32);
    XorZero(6, 16);
    XorUnfold(8, 65, 1);
    XorUnfold(8, 66, 2);
    XorUnfold(7, 33, 1);
  }

  lemma {:induction false} XorZero(w: nat, a: nat)
    requires a < Pow2(w)
    ensures XorBits(w, a, 0) == a
  {
    if w > 0 { XorZero(w - 1, a / 2); }
  }

  lemma MaskTwice(s: seq<byte>, key: Key)
    ensures Mask(Mask(s, key), key) == s
  {
    forall i | 0 <= i < |s| ensures Mask(Mask(s, key), key)[i] == s[i] {
      XorTwice(8, s[i], key[i % 4]);
      assert Pow2(8) == 256;
    }
  }

  // ---------- frames ----------

  function BigEndian(n: nat, k: nat): (r: seq<byte>)
    ensures |r| == k
  {
    if k == 0 then [] else BigEndian(n / 256, k - 1) + [n % 256]
  }

  /** `len = (len << 8) | ext[i]` over the extension octets. */
  function Value(s: seq<byte>): nat {
    if s == [] then 0 else 256 * Value(s[..|s| - 1]) + s[|s| - 1]
  }

  function Pow256(k: nat): nat { if k == 0 then 1 else 256 * Pow256(k - 1) }

  lemma {:induction false} ValueOfBigEndian(n: nat, k: nat)
    requires n < Pow256(k)
    ensures Value(BigEndian(n, k)) == n
  {
    if k > 0 {
      ValueOfBigEndian(n / 256, k - 1);
      assert BigEndian(n, k)[..k - 1] == BigEndian(n / 256, k - 1);
    }
  }

  /** Network byte order: the octet of weight 256^j stands j places from the end. */
  lemma {:induction false} BigEndianDigit(n: nat, k: nat, j: nat)
    requires j < k
    ensures BigEndian(n, k)[k - 1 - j] == Digit256(n, j)
  {
    if j > 0 { BigEndianDigit(n / 256, k - 1, j - 1); }
  }

  function Digit256(n: nat, j: nat): byte { if j == 0 then n % 256 else Digit256(n / 256, j - 1) }

  function Weigh2(a: int, b: int): int { 0x100 * a + b }

  function Weigh4(a: int, b: int, c: int, d: int): int { 0x1_0000 * Weigh2(a, b) + Weigh2(c, d) }

  lemma ValueOfTwo(s: seq<byte>)
    requires |s| == 2
    ensures Value(s) == Weigh2(s[0], s[1])
  {
    assert Value(s[..1]) == 256 * Value(s[..1][..0]) + s[0];
  }

  /** Eight octets, most significant first. */
  lemma ValueOfEight(s: seq<byte>)
    requires |s| == 8
    ensures Value(s) == 0x1_0000_0000 * Weigh4(s[0], s[1], s[2], s[3]) + Weigh4(s[4], s[5], s[6], s[7])
  {
    hide Value;
    ValueNil();
    assert s[..0] == [] && s[..8] == s;
    forall i | 0 <= i < 8 ensures Value(s[..i + 1]) == 256 * Value(s[..i]) + s[i] { ValueSnoc(s, i); }
    assert Value(s[..2]) == Weigh2(s[0], s[1]);
    assert Value(s[..4]) == Weigh4(s[0], s[1], s[2], s[3]);
  }

  lemma ValueNil()
    ensures Value([]) == 0
  {
  }

  lemma ValueSnoc(s: seq<byte>, i: nat)
    requires i < |s|
    ensures Value(s[..i + 1]) == 256 * Value(s[..i]) + s[i]
  {
    assert s[..i + 1][..i] == s[..i];
  }

  /** The minimal payload-length encoding of section 5.2: the 7-bit field and its extension. */
  function LengthForm(len: nat): (r: (nat, seq<byte>))
    requires len < TWO_TO_63
    ensures r.0 < 128
  {
    if len < 126 then (len, []) else if len < 65536 then (126, BigEndian(len, 2)) else (127, BigEndian(len, 8))
  }

  lemma LengthFormValue(len: nat)
    requires len < TWO_TO_63
    ensures len < 126 ==> LengthForm(len) == (len, [])
    ensures 126 <= len < 65536 ==>
              LengthForm(len).0 == 126 && |LengthForm(len).1| == 2 && Value(LengthForm(len).1) == len
    ensures 65536 <= len ==> LengthForm(len).0 == 127 && |LengthForm(len).1| == 8 && Value(LengthForm(len).1) == len
  {
    assert Pow256(2) == 65536;
    assert Pow256(8) == 65536 * 65536 * 65536 * 65536 by {
      assert Pow256(4) == 65536 * 65536;
      assert Pow256(6) == 65536 * 65536 * 65536;
    }
    if 126 <= len < 65536 { ValueOfBigEndian(len, 2); }
    if 65536 <= len { ValueOfBigEndian(len, 8); }
  }

  /** One frame of section 5.2: first octet, mask bit and length, masking key if any, payload. */
  datatype Frame = Frame(first: byte, key: Option<Key>, msg: seq<byte>)

  function KeyBytes(key: Option<Key>): seq<byte> {
    match key case None => [] case Some(k) => k
  }

  function Payload(f: Frame): (r: seq<byte>)
    ensures |r| == |f.msg|
  {
    match f.key case None => f.msg case Some(k) => Mask(f.msg, k)
  }

  function Encode(f: Frame): seq<byte>
    requires |f.msg| < TWO_TO_63
  {
    var (len7, ext) := LengthForm(|f.msg|);
    [f.first, (if f.key.Some? then 128 else 0) + len7] + (ext + (KeyBytes(f.key) + Payload(f)))
  }

  // ---------- what one receive call makes of the byte stream ----------

  datatype Received = Lost | Text(msg: seq<byte>, rest: seq<byte>)

  function ExtLen(len7: nat): nat {
    if len7 == 126 then 2 else if len7 == 127 then 8 else 0
  }

  /** `ws_recv_text` on a stream that starts with `s`, for a buffer of `bufsize` bytes. */
  function Recv(s: seq<byte>, bufsize: nat): Received {
    if |s| < 2 then Lost
    else
      var len7, masked := s[1] % 128, s[1] / 128 == 1;
      var x := ExtLen(len7);
      var m := if masked then 4 else 0;
      if |s| < 2 + x + m then Lost
      else
        var len := if x == 0 then len7 else Value(s[2..2 + x]);
        var at := 2 + x + m;
        if len >= bufsize || |s| < at + len || s[0] % 16 == 8 then Lost
        else
          var raw := s[at..at + len];
          Text(if masked then Mask(raw, s[2 + x..at]) else raw, s[at + len..])
  }

  /** One frame in front of anything is received whole, and nothing behind it is touched, if and only if
      it fits the buffer and is not a close frame. */
  lemma RecvOne(f: Frame, rest: seq<byte>, bufsize: nat)
    requires |f.msg| < TWO_TO_63
    ensures Recv(Encode(f) + rest, bufsize) == Text(f.msg, rest) <==> |f.msg| < bufsize && f.first % 16 != 8
  {
    hide Mask, Value, BigEndian, LengthForm;
    var len := |f.msg|;
    LengthFormValue(len);
    var (len7, ext) := LengthForm(len);
    var k, p := KeyBytes(f.key), Payload(f);
    var head := [f.first, (if f.key.Some? then 128 else 0) + len7];
    Layout(head, ext, k, p, rest);
    if f.key.Some? { MaskTwice(f.msg, f.key.value); }
  }

  /** The payload length that the header declares. */
  predicate Declares(s: seq<byte>, len: nat) {
    && |s| >= 2
    && match s[1] % 128
       case 126 => |s| >= 4 && len == Weigh2(s[2], s[3])
       case 127 => |s| >= 10
                   && len == 0x1_0000_0000 * Weigh4(s[2], s[3], s[4], s[5]) + Weigh4(s[6], s[7], s[8], s[9])
       case short => len == short
  }

  /** On any stream, well-formed or not: a message that is received has the declared length and fits the buffer, its
      frame is no close frame, its bits are those on the stream, unmasked if the mask bit is set, and what follows them
      is left. */
  lemma RecvReads(s: seq<byte>, bufsize: nat)
    requires Recv(s, bufsize).Text?
    ensures var Text(msg, rest) := Recv(s, bufsize);
            var at := |s| - |rest| - |msg|;
            && Declares(s, |msg|) && |msg| < bufsize && s[0] % 16 != 8 && 2 <= at && rest == s[at + |msg|..]
            && at == (match s[1] % 128 case 126 => 4 case 127 => 10 case _ => 2) + (if s[1] >= 128 then 4 else 0)
            && if s[1] >= 128 then Masked(msg, s[at..at + |msg|], s[at - 4..at]) else msg == s[at..at + |msg|]
  {
    hide Mask, Value, Masked;
    var x := ExtLen(s[1] % 128);
    if x == 2 { ValueOfTwo(s[2..4]); }
    if x == 8 { ValueOfEight(s[2..10]); }
    var Text(msg, rest) := Recv(s, bufsize);
    if s[1] >= 128 { MaskBits(s[6 + x..6 + x + |msg|], s[2 + x..6 + x], msg); }
  }

  /** Conversely, a frame that is not a close frame and fits the buffer is received once all of it is there, also if its
      length is not in minimal form. */
  lemma RecvComplete(s: seq<byte>, bufsize: nat, len: nat)
    requires Declares(s, len) && len < bufsize && s[0] % 16 != 8
    requires |s| >= (match s[1] % 128 case 126 => 4 case 127 => 10 case _ => 2) + (if s[1] >= 128 then 4 else 0) + len
    ensures Recv(s, bufsize).Text? && |Recv(s, bufsize).msg| == len
  {
    hide Mask, Value;
    var x := ExtLen(s[1] % 128);
    if x == 2 { ValueOfTwo(s[2..4]); }
    if x == 8 { ValueOfEight(s[2..10]); }
  }

  /** Where the fields of a frame are. */
  lemma Layout(head: seq<byte>, ext: seq<byte>, k: seq<byte>, p: seq<byte>, rest: seq<byte>)
    requires |head| == 2
    ensures var s := head + (ext + (k + p)) + rest;
            var at := 2 + |ext| + |k|;
            && s[0] == head[0] && s[1] == head[1] && s[2..2 + |ext|] == ext && s[2 + |ext|..at] == k
            && s[at..at + |p|] == p && s[at + |p|..] == rest
  {
    var s := head + (ext + (k + p)) + rest;
    assert s == head + ext + k + p + rest;
  }

  // ---------- whole streams ----------

  function Stream(fs: seq<Frame>): seq<byte>
    requires forall i :: 0 <= i < |fs| ==> |fs[i].msg| < TWO_TO_63
  {
    if fs == [] then [] else Encode(fs[0]) + Stream(fs[1..])
  }

  /** `n` receive calls in a row: the messages and what is left unread. */
  function RecvAll(s: seq<byte>, n: nat, bufsize: nat): Option<(seq<seq<byte>>, seq<byte>)> {
    if n == 0 then Some(([], s))
    else match Recv(s, bufsize)
      case Lost => None
      case Text(m, rest) =>
        match RecvAll(rest, n - 1, bufsize)
        case None => None
        case Some((ms, left)) => Some(([m] + ms, left))
  }

  function Messages(fs: seq<Frame>): seq<seq<byte>> {
    seq(|fs|, i requires 0 <= i < |fs| => fs[i].msg)
  }

  /** Stream round trip: any list of frames, masked or not, with any keys, is received as exactly its messages,
      in order, and every byte is consumed. */
  lemma {:induction false} StreamRoundTrip(fs: seq<Frame>, bufsize: nat)
    requires forall i :: 0 <= i < |fs| ==> |fs[i].msg| < TWO_TO_63 && |fs[i].msg| < bufsize && fs[i].first % 16 != 8
    ensures RecvAll(Stream(fs), |fs|, bufsize) == Some((Messages(fs), []))
  {
    hide Recv, Encode;
    if fs != [] {
      RecvOne(fs[0], Stream(fs[1..]), bufsize);
      StreamRoundTrip(fs[1..], bufsize);
      assert Messages(fs) == [fs[0].msg] + Messages(fs[1..]);
    }
  }

  lemma {:induction false} StreamSnoc(fs: seq<Frame>, f: Frame)
    requires (forall i :: 0 <= i < |fs| ==> |fs[i].msg| < TWO_TO_63) && |f.msg| < TWO_TO_63
    ensures Stream(fs + [f]) == Stream(fs) + Encode(f)
  {
    hide Encode;
    if fs == [] {
      assert fs + [f] == [f];
      assert Stream([f]) == Encode(f) + Stream([f][1..]);
    } else {
      StreamSnoc(fs[1..], f);
      assert (fs + [f])[1..] == fs[1..] + [f];
    }
  }

  // ---------- descriptors ----------

  /** A connected socket: bytes the peer will deliver, bytes written so far. On a healthy connection a read
      returns at least one of the bytes to come and a write is complete; how many bytes a read returns is open. */
  class Descriptor {
    var input: seq<byte>
    var output: seq<byte>
    const healthy: bool

    constructor (input: seq<byte>, healthy: bool)
      ensures this.input == input && this.output == [] && this.healthy == healthy
    {
      this.input, this.output, this.healthy := input, [], healthy;
    }

    /** `read(fd, dst + at, n)` */
    method Read(dst: array<byte>, at: nat, n: nat) returns (r: int)
      requires 0 < n && at + n <= dst.Length
      modifies this`input, dst
      ensures r <= n && r <= |old(input)|
      ensures r > 0 ==> dst[..at + r] == old(dst[..at]) + old(input[..r]) && input == old(input[r..])
      ensures r <= 0 ==> input == old(input) && dst[..] == old(dst[..])
      ensures healthy && old(input) != [] ==> r > 0
    {
      var k: int := *;
      var fault: bool := *;
      if input == [] || (fault && !healthy) { return 0; }
      r := if 1 <= k <= n && k <= |input| then k else 1;
      forall i | 0 <= i < r { dst[at + i] := input[i]; }
      input := input[r..];
    }

    /** `write(fd, src, |src|)` */
    method Write(src: seq<byte>) returns (w: int)
      modifies this`output
      ensures 0 <= w <= |src| && output == old(output) + src[..w]
      ensures healthy ==> w == |src|
    {
      var k: int := *;
      w := if !healthy && 0 <= k < |src| then k else |src|;
      output := output + src[..w];
    }
  }

  /** `read_full`: all `n` bytes or failure, however the reads are chunked. */
  method ReadFull(fd: Descriptor, dst: array<byte>, n: nat) returns (ok: bool)
    requires n <= dst.Length
    modifies fd`input, dst
    ensures ok ==> n <= |old(fd.input)| && dst[..n] == old(fd.input[..n]) && fd.input == old(fd.input[n..])
    ensures fd.healthy ==> (ok <==> n <= |old(fd.input)|)
  {
    var got := 0;
    while got < n
      invariant 0 <= got <= n && got <= |old(fd.input)|
      invariant dst[..got] == old(fd.input[..got]) && fd.input == old(fd.input[got..])
    {
      var r := fd.Read(dst, got, n - got);
      if r <= 0 { return false; }
      assert old(fd.input[..got]) + old(fd.input[got..])[..r] == old(fd.input[..got + r]);
      got := got + r;
    }
    return true;
  }

  /** The unmasking loop, in place. */
  method UnmaskInPlace(buf: array<byte>, len: nat, key: Key)
    requires len <= buf.Length
    modifies buf
    ensures buf[..len] == Mask(old(buf[..len]), key) && Masked(buf[..len], old(buf[..len]), key)
  {
    hide Xor, Bit;
    var i := 0;
    while i < len
      invariant 0 <= i <= len
      invariant forall j :: 0 <= j < i ==> buf[j] == Xor(old(buf[j]), key[j % 4])
      invariant forall j :: i <= j < len ==> buf[j] == old(buf[j])
    {
      buf[i] := Xor(buf[i], key[i % 4]);
      i := i + 1;
    }
    MaskBits(old(buf[..len]), key, buf[..len]);
  }

  lemma Window(s: seq<byte>, at: nat, n: nat)
    requires at + n <= |s|
    ensures s[at..][..n] == s[at..at + n] && s[at..][n..] == s[at + n..]
  {
  }

  /** The header half of `ws_recv_text`: length, masking key, and the stream position behind the header. */
  method RecvHeader(fd: Descriptor) returns (ok: bool, opcode: nat, key: Option<Key>, len: nat)
    modifies fd`input
    ensures ok ==> var s := old(fd.input);
                   && |s| >= 2 && opcode == s[0] % 16
                   && var x := ExtLen(s[1] % 128);
                      var m := if s[1] / 128 == 1 then 4 else 0;
                   && |s| >= 2 + x + m && fd.input == s[2 + x + m..]
                   && len == (if x == 0 then s[1] % 128 else Value(s[2..2 + x]))
                   && key == (if s[1] / 128 == 1 then Some(s[2 + x..2 + x + m]) else None)
    ensures fd.healthy && !ok ==> var s := old(fd.input);
                   |s| < 2 || |s| < 2 + ExtLen(s[1] % 128) + (if s[1] / 128 == 1 then 4 else 0)
  {
    hide Value;
    opcode, key, len := 0, None, 0;
    ghost var s := fd.input;
    var hdr := new byte[2](_ => 0);
    ok := ReadFull(fd, hdr, 2);
    if !ok { return; }
    assert hdr[0] == hdr[..2][0] == s[0] && hdr[1] == hdr[..2][1] == s[1];
    opcode := hdr[0] % 16;
    len := hdr[1] % 128;
    ghost var x := ExtLen(len);
    if ExtLen(len) > 0 {
      ok, len := ReadLength(fd, ExtLen(len));
      if !ok { return; }
      Window(s, 2, x);
    }
    if hdr[1] / 128 == 1 {
      var k;
      ok, k := ReadKey(fd);
      if !ok { return; }
      Window(s, 2 + x, 4);
      key := Some(k);
    }
  }

  /** The extended length. */
  method ReadLength(fd: Descriptor, n: nat) returns (ok: bool, len: nat)
    requires n <= 8
    modifies fd`input
    ensures ok ==> n <= |old(fd.input)| && len == Value(old(fd.input[..n])) && fd.input == old(fd.input[n..])
    ensures fd.healthy ==> (ok <==> n <= |old(fd.input)|)
  {
    len := 0;
    var ext := new byte[8](_ => 0);
    ok := ReadFull(fd, ext, n);
    if ok { len := ValueOf(ext, n); }
  }

  /** The masking key. */
  method ReadKey(fd: Descriptor) returns (ok: bool, key: Key)
    modifies fd`input
    ensures ok ==> 4 <= |old(fd.input)| && key == old(fd.input[..4]) && fd.input == old(fd.input[4..])
    ensures fd.healthy ==> (ok <==> 4 <= |old(fd.input)|)
  {
    var mask := new byte[4](_ => 0);
    ok := ReadFull(fd, mask, 4);
    key := mask[..];
    assert mask[..] == mask[..4];
  }

  /** The big-endian accumulation loop. */
  method ValueOf(ext: array<byte>, n: nat) returns (len: nat)
    requires n <= ext.Length
    ensures len == Value(ext[..n])
  {
    len := 0;
    for i := 0 to n
      invariant len == Value(ext[..i])
    {
      assert ext[..i + 1][..i] == ext[..i];
      len := 256 * len + ext[i];
    }
  }

  /** `ws_recv_text`: agrees with `Recv` on every stream, and on a healthy connection fails only where `Recv` does. */
  method RecvText(fd: Descriptor, buf: array<byte>) returns (rc: int)
    modifies fd`input, buf
    ensures -1 <= rc < buf.Length
    ensures rc >= 0 ==> Recv(old(fd.input), buf.Length) == Text(buf[..rc], fd.input) && buf[rc] == 0
    ensures fd.healthy ==> (rc >= 0 <==> Recv(old(fd.input), buf.Length).Text?)
  {
    hide Mask, Value;
    ghost var s := fd.input;
    var ok, opcode, key, len := RecvHeader(fd);
    if !ok { return -1; }
    if len >= buf.Length { return -1; }
    ghost var at := |s| - |fd.input|;
    if len > 0 {
      ok := ReadFull(fd, buf, len);
      if !ok { return -1; }
    }
    Window(s, at, len);
    assert buf[..len] == s[at..at + len];
    if key.Some? { UnmaskInPlace(buf, len, key.value); }
    buf[len] := 0;
    if opcode == 8 { return -1; }
    rc := len;
  }

  /** The header bytes of a final, masked text frame; never more than the eight of the C array. */
  method ClientHeader(len: nat, key: Key) returns (hdr: array<byte>, hlen: nat)
    requires len < 65536
    ensures fresh(hdr) && hdr.Length == 8 && hlen <= 8
    ensures hdr[..hlen] == (if len < 126 then [0x81, 0x80 + len] else [0x81, 0xFE, len / 256, len % 256]) + key
  {
    hdr := new byte[8](_ => 0);
    hlen := 2;
    hdr[0] := 0x81;
    if len < 126 {
      hdr[1] := 0x80 + len;
    } else {
      hdr[1] := 0x80 + 126;
      hdr[2] := len / 256;
      hdr[3] := len % 256;
      hlen := 4;
    }
    assert hdr[..hlen] == if len < 126 then [0x81, 0x80 + len] else [0x81, 0xFE, len / 256, len % 256];
    forall i | 0 <= i < 4 { hdr[hlen + i] := key[i]; }
    hlen := hlen + 4;
  }

  /** A final, masked text frame of fewer than 2^16 octets: 0x81, the length with the mask bit, in one octet or behind
      126 in two, the key, and the text masked with it. */
  ghost predicate OnWire(s: seq<byte>, msg: seq<byte>, key: Key) {
    var at := if |msg| < 126 then 6 else 8;
    && |s| == at + |msg| && s[0] == 0x81 && s[at - 4..at] == key && Masked(s[at..], msg, key)
    && if |msg| < 126 then s[1] == 0x80 + |msg| else s[1] == 0xFE && s[2] == |msg| / 256 && s[3] == |msg| % 256
  }

  /** A short frame, octet by octet. */
  lemma EncodeShort(f: Frame)
    requires f.key.Some? && |f.msg| < 65536
    ensures var len := |f.msg|;
            Encode(f) == (if len < 126 then [f.first, 0x80 + len] else [f.first, 0xFE, len / 256, len % 256])
                         + f.key.value + Mask(f.msg, f.key.value)
  {
    hide Mask, LengthForm;
    LengthFormValue(|f.msg|);
    if |f.msg| >= 126 { TwoByteForm(|f.msg|); }
  }

  lemma OnWireShort(f: Frame)
    requires f.first == 0x81 && f.key.Some? && |f.msg| < 65536
    ensures OnWire(Encode(f), f.msg, f.key.value)
  {
    hide Mask, Encode, Masked;
    EncodeShort(f);
    var at := if |f.msg| < 126 then 6 else 8;
    assert Encode(f)[at..] == Mask(f.msg, f.key.value) && Encode(f)[at - 4..at] == f.key.value;
    MaskBits(f.msg, f.key.value, Encode(f)[at..]);
  }

  /** `ws_send_text`: the header fits its eight bytes, and success means that exactly one final, masked text frame in
      minimal length form went out, octet by octet as `OnWire` says; failure leaves a prefix of such a frame. The text
      is a C string. */
  method SendText(fd: Descriptor, msg: seq<byte>, memory: bool) returns (ok: bool, ghost f: Frame)
    requires 0 !in msg
    modifies fd`output
    ensures f.first == 0x81 && f.key.Some? && f.msg == msg
    ensures ok ==> |msg| < 65536 && memory && fd.output == old(fd.output) + Encode(f)
    ensures ok ==> OnWire(fd.output[|old(fd.output)|..], msg, f.key.value)
    ensures fd.healthy && memory && |msg| < 65536 ==> ok
    ensures !ok && |msg| >= 65536 ==> fd.output == old(fd.output)
    ensures !ok && |msg| < 65536 ==> old(fd.output) <= fd.output <= old(fd.output) + Encode(f)
  {
    hide Mask, LengthForm, OnWire;
    var r0: int, r1: int, r2: int, r3: int := *, *, *, *;
    var key: Key := [r0 % 256, r1 % 256, r2 % 256, r3 % 256];
    f := Frame(0x81, Some(key), msg);
    var len := |msg|;
    if len >= 65536 { return false, f; }
    var hdr, hlen := ClientHeader(len, key);
    var payload := Mask(msg, key);
    EncodeShort(f);
    OnWireShort(f);
    assert Encode(f) == hdr[..hlen] + payload;
    var w := fd.Write(hdr[..hlen]);
    if w != hlen { return false, f; }
    if !memory { return false, f; }
    var v := fd.Write(payload);
    ok := v == len;
    assert ok ==> fd.output[|old(fd.output)|..] == Encode(f);
  }

  lemma TwoByteForm(len: nat)
    requires 126 <= len < 65536
    ensures LengthForm(len) == (126, [len / 256, len % 256])
  {
    assert BigEndian(len / 256, 1) == BigEndian(len / 256 / 256, 0) + [len / 256 % 256] == [len / 256];
    assert BigEndian(len, 2) == BigEndian(len / 256, 1) + [len % 256] == [len / 256, len % 256];
  }
}
