/** The tail of `ws_dial`: reading the HTTP upgrade response one byte at a time (section 4.1 of RFC 6455). */
module WebSocketUpgrade {
  import opened Prelude
  import opened CStrings
  import opened WebSocketFrames

  /** `char resp[2048]`, one byte kept for the NUL. */
  const LIMIT: nat := 2047

  /** The blank line ends at offset `e`. */
  predicate EndsAt(s: seq<byte>, e: int) {
    4 <= e <= |s| && s[e - 4] == 13 && s[e - 3] == 10 && s[e - 2] == 13 && s[e - 1] == 10
  }

  ghost predicate FirstEnd(s: seq<byte>, e: int) {
    EndsAt(s, e) && forall d :: d < e ==> !EndsAt(s, d)
  }

  /** How many bytes the loop takes when it has already taken `i` without meeting the blank line. */
  function Taken(s: seq<byte>, i: nat): (r: Option<nat>)
    requires i <= LIMIT && i <= |s|
    ensures r.Some? ==> r.value <= LIMIT && r.value <= |s|
    decreases LIMIT - i
  {
    if i == LIMIT then Some(i)
    else if i == |s| then None
    else if EndsAt(s, i + 1) then Some(i + 1)
    else Taken(s, i + 1)
  }

  lemma {:induction false} TakenToEnd(s: seq<byte>, i: nat, e: nat)
    requires i < e <= |s| && i <= LIMIT
    requires EndsAt(s, e) && forall d :: i < d < e ==> !EndsAt(s, d)
    ensures Taken(s, i) == Some(if e <= LIMIT then e else LIMIT)
    decreases e - i
  {
    if i < LIMIT && i + 1 != e {
      TakenToEnd(s, i + 1, e);
    }
  }

  function Chars(bs: seq<byte>): string {
    seq(|bs|, i requires 0 <= i < |bs| => bs[i] as char)
  }

  function UpToNul(s: string): string {
    match CStr(s) case None => s case Some(t) => t
  }

  /** The status test, on the response as a C string. */
  predicate Switching(resp: seq<byte>) {
    var text := UpToNul(Chars(resp));
    Contains(text, " 101 ") || Contains(text, "101 Switching")
  }

  /** The text stands in the stream from offset `i` on. */
  predicate Spells(s: seq<byte>, i: nat, text: seq<byte>) { i + |text| <= |s| && s[i..i + |text|] == text }

  /** ` 101 ` and `101 Switching`, octet by octet. */
  const CODE_101: seq<byte> := [32, 49, 48, 49, 32]
  const PHRASE_101: seq<byte> := [49, 48, 49, 32, 83, 119, 105, 116, 99, 104, 105, 110, 103]

  /** One of the two stands somewhere before the first NUL. */
  ghost predicate Announces101(resp: seq<byte>) {
    exists i: nat :: i <= |resp| && 0 !in resp[..i] && (Spells(resp, i, CODE_101) || Spells(resp, i, PHRASE_101))
  }

  lemma UpToNulIs(resp: seq<byte>)
    ensures var n := |UpToNul(Chars(resp))|;
            && n <= |resp| && UpToNul(Chars(resp)) == Chars(resp)[..n] && 0 !in resp[..n]
            && (n < |resp| ==> resp[n] == 0)
  {
    var s := Chars(resp);
    var n := |UpToNul(s)|;
    assert s[..n] == UpToNul(s);
    forall k | 0 <= k < n ensures resp[k] != 0 {
      assert s[..n][k] == s[k] == resp[k] as char;
    }
  }

  /** A literal is found in the response as a C string exactly if its octets stand before the first NUL. */
  lemma FoundMeans(resp: seq<byte>, pat: string, text: seq<byte>)
    requires |pat| == |text| && 0 !in text && forall k :: 0 <= k < |pat| ==> pat[k] == text[k] as char
    ensures Contains(UpToNul(Chars(resp)), pat)
       <==> exists i: nat :: i <= |resp| && 0 !in resp[..i] && Spells(resp, i, text)
  {
    hide UpToNul, Chars, Find;
    var t := UpToNul(Chars(resp));
    UpToNulIs(resp);
    FindIsFirst(t, pat);
    if Contains(t, pat) {
      var i := Find(t, pat).value;
      FoundThere(resp, pat, text, |t|, i);
      assert 0 !in resp[..i] by { assert resp[..i] == resp[..|t|][..i]; }
    }
    if i: nat :| i <= |resp| && 0 !in resp[..i] && Spells(resp, i, text) {
      forall k | 0 <= k < i + |text| ensures resp[k] != 0 {
        if k < i { assert resp[k] in resp[..i]; } else { assert resp[i..i + |text|][k - i] in text; }
      }
      FoundThere(resp, pat, text, |t|, i);
    }
  }

  lemma FoundThere(resp: seq<byte>, pat: string, text: seq<byte>, n: nat, i: nat)
    requires |pat| == |text| && forall k :: 0 <= k < |pat| ==> pat[k] == text[k] as char
    requires i + |pat| <= n <= |resp|
    ensures pat <= Chars(resp)[..n][i..] <==> Spells(resp, i, text)
  {
    var t := Chars(resp)[..n][i..];
    forall k | 0 <= k < |pat| ensures t[k] == pat[k] <==> resp[i + k] == text[k] {
      assert t[k] == resp[i + k] as char;
    }
    if pat <= t { assert forall k :: 0 <= k < |pat| ==> t[k] == pat[k]; }
    if Spells(resp, i, text) {
      forall k | 0 <= k < |pat| ensures resp[i + k] == text[k] { assert resp[i..i + |text|][k] == text[k]; }
    }
  }

  /** The status test, octet by octet. */
  lemma SwitchingMeans(resp: seq<byte>)
    ensures Switching(resp) <==> Announces101(resp)
  {
    hide Contains, UpToNul, Chars;
    FoundMeans(resp, " 101 ", CODE_101);
    FoundMeans(resp, "101 Switching", PHRASE_101);
  }

  // ---------- responses by their status ----------

  predicate Latin(s: string) { forall i :: 0 <= i < |s| ==> s[i] < 256 as char }

  function Octets(s: string): (r: seq<byte>)
    requires Latin(s)
    ensures |r| == |s|
  {
    seq(|s|, i requires 0 <= i < |s| => s[i] as int)
  }

  /** `HTTP/1.1 `, a status code, a blank and everything up to the blank line. */
  function Response(code: string, text: string): seq<byte>
    requires Latin(code) && Latin(text)
  {
    Octets("HTTP/1.1 ") + (Octets(code) + ([32] + (Octets(text) + [13, 10, 13, 10])))
  }

  /** The stream begins with a complete response of the given status that fits the buffer. */
  ghost predicate BeginsWith(s: seq<byte>, code: string, text: string) {
    && Latin(code) && Latin(text) && |code| == 3 && '\0' !in code
    && var r := Response(code, text);
       r <= s && FirstEnd(r, |r|) && |r| <= LIMIT
  }

  lemma Layout101(code: string, text: string)
    requires Latin(code) && Latin(text) && |code| == 3
    ensures var r := Response(code, text);
            && |r| == 17 + |text| && r[..9] == [72, 84, 84, 80, 47, 49, 46, 49, 32]
            && r[9] == code[0] as int && r[10] == code[1] as int && r[11] == code[2] as int && r[12] == 32
            && (forall k :: 0 <= k < |text| ==> r[13 + k] == text[k] as int)
            && r[13 + |text|..] == [13, 10, 13, 10]
  {
    var r := Response(code, text);
    assert Octets("HTTP/1.1 ") == [72, 84, 84, 80, 47, 49, 46, 49, 32];
    assert r[..9] == Octets("HTTP/1.1 ");
  }

  /** A response is accepted if its status is 101; with any other it is rejected unless its text has a 1 in it, which
      could make one of the two literals. */
  lemma StatusDecides(code: string, text: string)
    requires Latin(code) && Latin(text) && |code| == 3 && '\0' !in code
    ensures code == "101" ==> Announces101(Response(code, text))
    ensures '1' !in text && code != "101" ==> !Announces101(Response(code, text))
  {
    hide Response;
    var r := Response(code, text);
    Layout101(code, text);
    if code == "101" {
      assert Spells(r, 8, CODE_101) by { assert r[8] == r[..9][8]; }
      assert 0 !in r[..8] by { assert r[..8] == r[..9][..8]; }
    } else if '1' !in text {
      forall i: nat ensures !Spells(r, i, CODE_101) && !Spells(r, i, PHRASE_101) {
        NoOther(r, code, text, i);
      }
    }
  }

  lemma NoOther(r: seq<byte>, code: string, text: string, i: nat)
    requires Latin(text) && |code| == 3 && Latin(code) && '1' !in text && code != "101" && r == Response(code, text)
    ensures !Spells(r, i, CODE_101) && !Spells(r, i, PHRASE_101)
  {
    hide Response;
    Layout101(code, text);
    var n := 13 + |text|;
    forall k | 13 <= k < |r| ensures r[k] != 49 {
      if k < n { assert r[k] == text[k - 13] as int; } else { assert r[k] == r[n..][k - n]; }
    }
    assert forall k :: 0 <= k < 9 ==> r[k] == r[..9][k];
    if Spells(r, i, CODE_101) { Digits(r, i, 1, CODE_101); }
    if Spells(r, i, PHRASE_101) { Digits(r, i, 0, PHRASE_101); }
  }

  lemma Digits(r: seq<byte>, i: nat, at: nat, lit: seq<byte>)
    requires Spells(r, i, lit) && at + 2 < |lit| && lit[at] == 49 && lit[at + 1] == 48 && lit[at + 2] == 49
    ensures r[i + at] == 49 && r[i + at + 1] == 48 && r[i + at + 2] == 49
  {
    var here := r[i..i + |lit|];
    assert here[at] == r[i + at] && here[at + 1] == r[i + at + 1] && here[at + 2] == r[i + at + 2];
  }

  /** `memcmp(p, "\r\n\r\n", 4) == 0` */
  predicate IsBlankLine(p: seq<byte>)
    requires |p| == 4
  {
    p[0] == 13 && p[1] == 10 && p[2] == 13 && p[3] == 10
  }

  /** The byte-at-a-time loop and the status test. */
  method ReadResponse(fd: Descriptor) returns (ok: bool, total: nat)
    modifies fd`input
    ensures ok ==> Taken(old(fd.input), 0) == Some(total) && fd.input == old(fd.input[total..])
                   && Announces101(old(fd.input[..total]))
    ensures fd.healthy && !ok ==>
              Taken(old(fd.input), 0).None? || !Announces101(old(fd.input)[..Taken(old(fd.input), 0).value])
  {
    hide Switching, Announces101;
    ghost var s := fd.input;
    var resp := new byte[LIMIT + 1](_ => 0);
    total := 0;
    while total < LIMIT
      invariant 0 <= total <= LIMIT && total <= |s|
      invariant fd.input == s[total..] && resp[..total] == s[..total]
      invariant Taken(s, 0) == Taken(s, total)
    {
      var r := fd.Read(resp, total, 1);
      if r != 1 { return false, total; }
      assert s[..total] + s[total..][..1] == s[..total + 1];
      total := total + 1;
      assert forall k :: 0 <= k < total ==> resp[k] == resp[..total][k] == s[k];
      if total >= 4 && IsBlankLine(resp[total - 4..total]) { break; }
    }
    ok := Switching(resp[..total]);
    SwitchingMeans(resp[..total]);
  }

  /** The stream stays aligned with the frames if and only if the response, up to and including its first blank
      line, fits the buffer; a longer response is cut inside its header block. */
  lemma Alignment(head: seq<byte>, rest: seq<byte>)
    requires FirstEnd(head, |head|)
    ensures Taken(head + rest, 0) == Some(|head|) <==> |head| <= 2047
    ensures |head| > 2047 ==> Taken(head + rest, 0) == Some(2047)
  {
    var s := head + rest;
    forall d | 0 < d < |head| ensures !EndsAt(s, d) {
      assert !EndsAt(head, d);
    }
    assert EndsAt(s, |head|);
    TakenToEnd(s, 0, |head|);
  }

  /** Without a blank line all 2047 bytes are taken, and a shorter stream is a failure. */
  lemma {:induction false} NoBlankLine(s: seq<byte>, i: nat)
    requires i <= LIMIT && i <= |s| && forall d :: i < d <= |s| && d <= LIMIT ==> !EndsAt(s, d)
    ensures Taken(s, i) == if |s| >= 2047 then Some(2047) else None
    decreases LIMIT - i
  {
    if i < LIMIT && i < |s| { NoBlankLine(s, i + 1); }
  }

  /** After a well-aligned upgrade the next receive call returns the first frame's message. */
  lemma UpgradeThenReceive(head: seq<byte>, f: Frame, rest: seq<byte>, bufsize: nat)
    requires FirstEnd(head, |head|) && |head| <= LIMIT
    requires |f.msg| < TWO_TO_63 && |f.msg| < bufsize && f.first % 16 != 8
    ensures var s := head + (Encode(f) + rest);
            Taken(s, 0).Some? && Recv(s[Taken(s, 0).value..], bufsize) == Text(f.msg, rest)
  {
    hide Recv, Encode;
    var s := head + (Encode(f) + rest);
    Alignment(head, Encode(f) + rest);
    assert s[|head|..] == Encode(f) + rest;
    RecvOne(f, rest, bufsize);
  }

  /** The upgrade response at the front of the stream is complete and switches protocols. */
  ghost predicate Accepts(s: seq<byte>) {
    Taken(s, 0).Some? && Announces101(s[..Taken(s, 0).value])
  }

  /** A stream that begins with a response of status 101 is accepted; any other status is rejected, unless the text
      behind it has a 1 in it. */
  lemma AcceptsByStatus(s: seq<byte>, code: string, text: string)
    requires BeginsWith(s, code, text)
    ensures Taken(s, 0) == Some(|Response(code, text)|)
    ensures code == "101" ==> Accepts(s)
    ensures '1' !in text && code != "101" ==> !Accepts(s)
  {
    hide Response, Taken, Announces101, FirstEnd;
    var r := Response(code, text);
    assert s == r + s[|r|..];
    Alignment(r, s[|r|..]);
    assert s[..|r|] == r;
    StatusDecides(code, text);
  }

  /** Two answers as they come over the wire. */
  lemma AcceptedAndRejected(rest: seq<byte>)
    ensures Accepts(Response("101", "Switching Protocols") + rest)
    ensures !Accepts(Response("200", "OK") + rest)
  {
    hide Accepts, Response, FirstEnd, Announces101;
    OneLine("101", "Switching Protocols");
    OneLine("200", "OK");
    Layout101("101", "Switching Protocols");
    Layout101("200", "OK");
    AcceptsByStatus(Response("101", "Switching Protocols") + rest, "101", "Switching Protocols");
    AcceptsByStatus(Response("200", "OK") + rest, "200", "OK");
  }

  lemma OneLine(code: string, text: string)
    requires Latin(code) && Latin(text) && |code| == 3 && '\r' !in code && '\r' !in text
    ensures var r := Response(code, text); FirstEnd(r, |r|)
  {
    hide Response;
    Layout101(code, text);
    var r := Response(code, text);
    var n := 13 + |text|;
    assert r[n] == r[n..][0] && r[n + 1] == r[n..][1] && r[n + 2] == r[n..][2] && r[n + 3] == r[n..][3];
    assert forall k :: 0 <= k < 9 ==> r[k] == r[..9][k];
    forall k | 13 <= k < n ensures r[k] != 13 { assert r[k] == text[k - 13] as int; }
  }

  // ---------- a whole conversation ----------

  /** Text frames that carry the messages. */
  ghost predicate Carries(fs: seq<Frame>, msgs: seq<seq<byte>>) {
    |fs| == |msgs| && forall i :: 0 <= i < |fs| ==> fs[i].msg == msgs[i] && |fs[i].msg| < 65536 && fs[i].first == 0x81
  }

  /** Every message is shorter than 2^16 bytes and finds memory for its masked copy. */
  ghost predicate Sendable(msgs: seq<seq<byte>>, memory: nat -> bool) {
    forall i :: 0 <= i < |msgs| ==> |msgs[i]| < 65536 && memory(i)
  }

  /** Sends messages one after the other until one fails; `memory` tells which of them find memory for a copy. */
  method SendAll(fd: Descriptor, msgs: seq<seq<byte>>, memory: nat -> bool) returns (ok: bool, ghost fs: seq<Frame>)
    requires fd.output == [] && forall i :: 0 <= i < |msgs| ==> 0 !in msgs[i]
    modifies fd`output
    ensures ok ==> Carries(fs, msgs) && fd.output == Stream(fs) && Sendable(msgs, memory)
    ensures fd.healthy && Sendable(msgs, memory) ==> ok
  {
    hide Encode, Stream;
    fs := [];
    NoFrames();
    var i := 0;
    while i < |msgs|
      invariant 0 <= i <= |msgs| && Carries(fs, msgs[..i]) && fd.output == Stream(fs) && Sendable(msgs[..i], memory)
    {
      ghost var f;
      ok, f := SendText(fd, msgs[i], memory(i));
      if !ok { return; }
      StreamSnoc(fs, f);
      fs := fs + [f];
      i := i + 1;
    }
    assert msgs[..i] == msgs;
    ok := true;
  }

  lemma NoFrames()
    ensures Stream([]) == []
  {
  }

  lemma StreamHead(fs: seq<Frame>, i: nat)
    requires i < |fs| && forall k :: 0 <= k < |fs| ==> |fs[k].msg| < TWO_TO_63
    ensures Stream(fs[i..]) == Encode(fs[i]) + Stream(fs[i + 1..])
  {
    assert fs[i..][1..] == fs[i + 1..];
  }

  /** Receives `n` messages, as far as they come. */
  method ReceiveAll(fd: Descriptor, n: nat, bufsize: nat, ghost fs: seq<Frame>, ghost msgs: seq<seq<byte>>)
    returns (got: seq<seq<byte>>)
    requires fd.healthy && Carries(fs, msgs) && n == |msgs| && forall i :: 0 <= i < |msgs| ==> |msgs[i]| < bufsize
    requires fd.input == Stream(fs)
    modifies fd`input
    ensures got == msgs && fd.input == []
  {
    hide Encode, Recv, Stream;
    NoFrames();
    var buf := new byte[bufsize](_ => 0);
    got := [];
    var i := 0;
    assert fs[0..] == fs;
    while i < n
      invariant 0 <= i <= n && got == msgs[..i] && fd.input == Stream(fs[i..])
      modifies fd`input, buf
    {
      StreamHead(fs, i);
      RecvOne(fs[i], Stream(fs[i + 1..]), bufsize);
      var rc := RecvText(fd, buf);
      got := got + [buf[..rc]];
      i := i + 1;
    }
  }

  lemma WholeResponse(head: seq<byte>, code: string, text: string)
    requires FirstEnd(head, |head|) && BeginsWith(head, code, text)
    ensures head == Response(code, text)
  {
    hide Response;
    var r := Response(code, text);
    assert forall i :: 0 <= i < |r| ==> head[i] == r[i];
    assert EndsAt(head, |r|);
  }

  /** The control channel from end to end: one side sends messages, the other first reads the upgrade response `head`
      off the same stream and then makes one receive call per message. However the transport cuts the bytes into
      reads, it gets exactly the messages, in order, and nothing is left over. On a transport that does not fail,
      sending fails only for a message that is too long or finds no memory. */
  method Conversation(head: seq<byte>, msgs: seq<seq<byte>>, bufsize: nat, memory: nat -> bool)
    returns (sent: bool, switched: bool, got: seq<seq<byte>>, left: seq<byte>)
    requires FirstEnd(head, |head|) && |head| <= LIMIT
    requires forall i :: 0 <= i < |msgs| ==> 0 !in msgs[i] && |msgs[i]| < bufsize
    ensures sent <==> Sendable(msgs, memory)
    ensures sent ==> (switched <==> Announces101(head))
    ensures forall code, text :: sent && BeginsWith(head, code, text) ==>
              (code == "101" ==> switched) && ('1' !in text && code != "101" ==> !switched)
    ensures sent && switched ==> got == msgs && left == []
  {
    hide Announces101, Stream, Taken, FirstEnd, Response;
    switched, got, left := false, [], [];
    var out := new Descriptor([], true);
    ghost var fs;
    sent, fs := SendAll(out, msgs, memory);
    if !sent { return; }
    Alignment(head, out.output);
    var input := head + out.output;
    forall code, text | BeginsWith(head, code, text)
      ensures (code == "101" ==> Announces101(head)) && ('1' !in text && code != "101" ==> !Announces101(head))
    {
      WholeResponse(head, code, text);
      StatusDecides(code, text);
    }
    assert input[..|head|] == head && input[|head|..] == out.output;
    var fd := new Descriptor(input, true);
    var total;
    switched, total := ReadResponse(fd);
    if switched {
      got := ReceiveAll(fd, |msgs|, bufsize, fs, msgs);
      left := fd.input;
    }
  }
}
