/** The token message of the C client: the text printed by `send_token`, and what a reader of the same kind as the
    client's own recovers from it. */
module TokenJson {
  import opened Prelude
  import opened CStrings
  import opened QpInfoJson
  import opened ResourceTrace

  datatype Token = Token(addr: int, rkey: int, start: int, length: int)

  /** The ranges of `send_token`'s arguments. */
  predicate IsToken(v: Token) {
    0 <= v.addr < TWO_TO_64 && 0 <= v.rkey < TWO_TO_32 && 0 <= v.start < TWO_TO_64 && 0 <= v.length < TWO_TO_64
  }

  /** Everything behind the type: `gap(20 + i)` blanks follow the i-th colon and `gap(30 + i)` the i-th comma. */
  function TokenFields(v: Token, gap: nat -> nat): Fields {
    [("data", Spaces(gap(20)) + "{"),
     ("addr", Number(v.addr, gap(21), "," + Spaces(gap(31)))),
     ("rkey", Number(v.rkey, gap(22), "," + Spaces(gap(32)))),
     ("start", Number(v.start, gap(23), "," + Spaces(gap(33)))),
     ("length", Number(v.length, gap(24), "}}"))]
  }

  function TokenText(v: Token, gap: nat -> nat): string {
    Front("token", gap) + Render(TokenFields(v, gap))
  }

  /** The message as the client prints it. */
  lemma TokenPrinted(v: Token)
    ensures TokenText(v, NoGap())
         == "{\"type\":\"token\",\"data\":{\"addr\":" + (DecInt(v.addr) + (",\"rkey\":" + (DecInt(v.rkey)
            + (",\"start\":" + (DecInt(v.start) + (",\"length\":" + (DecInt(v.length) + "}}")))))))
  {
    hide DecInt, Render, Front, Quoted, TokenFields;
    var fs := TokenFields(v, NoGap());
    var a, r, s, l := DecInt(v.addr), DecInt(v.rkey), DecInt(v.start), DecInt(v.length);
    TokenLiterals();
    FieldsPrinted(v);
    FrontPrinted("token");
    RenderNil();
    RenderFrom(fs, 4);
    RenderFrom(fs, 3);
    RenderFrom(fs, 2);
    RenderFrom(fs, 1);
    RenderFrom(fs, 0);
    var t4 := l + "}}";
    assert Render(fs[4..]) == Quoted("length", ':') + t4;
    var t3 := s + (",\"length\":" + t4);
    assert Render(fs[3..]) == Quoted("start", ':') + t3 by { Glue3(s, ",", Quoted("length", ':'), t4); }
    var t2 := r + (",\"start\":" + t3);
    assert Render(fs[2..]) == Quoted("rkey", ':') + t2 by { Glue3(r, ",", Quoted("start", ':'), t3); }
    var t1 := a + (",\"rkey\":" + t2);
    assert Render(fs[1..]) == Quoted("addr", ':') + t1 by { Glue3(a, ",", Quoted("rkey", ':'), t2); }
    assert Render(fs[0..]) == Quoted("data", ':') + ("{" + (Quoted("addr", ':') + t1));
    Glue4(Front("token", NoGap()), Quoted("data", ':'), "{", Quoted("addr", ':'), t1);
    assert fs[0..] == fs;
  }

  lemma TokenLiterals()
    ensures Quoted("data", ':') == "\"data\":" && Quoted("addr", ':') == "\"addr\":"
    ensures "," + Quoted("rkey", ':') == ",\"rkey\":" && "," + Quoted("start", ':') == ",\"start\":"
    ensures "," + Quoted("length", ':') == ",\"length\":"
    ensures "{\"type\":\"" + "token" + "\"," + "\"data\":" + "{" + "\"addr\":"
         == "{\"type\":\"token\",\"data\":{\"addr\":"
  {
  }

  lemma FieldsPrinted(v: Token)
    ensures TokenFields(v, NoGap())
         == [("data", "{"), ("addr", DecInt(v.addr) + ","), ("rkey", DecInt(v.rkey) + ","),
             ("start", DecInt(v.start) + ","), ("length", DecInt(v.length) + "}}")]
  {
    hide DecInt, Spaces;
    NoSpaces();
    assert "" + "{" == "{" && "," + "" == ",";
    NothingBefore(DecInt(v.addr) + ",");
    NothingBefore(DecInt(v.rkey) + ",");
    NothingBefore(DecInt(v.start) + ",");
    NothingBefore(DecInt(v.length) + "}}");
  }

  /** The four numbers behind a token message. */
  function ParseToken(json: string): Option<Token> {
    if !Contains(json, "\"token\"") then None
    else
      match (GetU64(json, "addr"), GetU64(json, "rkey"), GetU64(json, "start"), GetU64(json, "length"))
      case (Some(addr), Some(rkey), Some(start), Some(length)) => Some(Token(addr, rkey % TWO_TO_32, start, length))
      case _ => None
  }

  lemma DecimalPlain(x: int)
    ensures Plain(DecInt(x))
  {
  }

  lemma NumberPlain(x: int, blanks: nat, after: string)
    requires Plain(after)
    ensures Plain(Number(x, blanks, after))
  {
    hide DecInt, Spaces;
    DecimalPlain(x);
    SpacesPlain(blanks);
  }

  lemma TokenDistinct(v: Token, gap: nat -> nat)
    ensures Distinct(TokenFields(v, gap))
  {
    hide Number, Spaces;
    forall n ensures Plain(Spaces(n)) { SpacesPlain(n); }
    NumberPlain(v.addr, gap(21), "," + Spaces(gap(31)));
    NumberPlain(v.rkey, gap(22), "," + Spaces(gap(32)));
    NumberPlain(v.start, gap(23), "," + Spaces(gap(33)));
    NumberPlain(v.length, gap(24), "}}");
    assert |"data"| == 4 && |"addr"| == 4 && |"rkey"| == 4 && |"start"| == 5 && |"length"| == 6;
    assert "data"[0] != "addr"[0] && "data"[0] != "rkey"[0] && "addr"[0] != "rkey"[0];
  }

  lemma TokenKeys(v: Token, gap: nat -> nat)
    ensures var fs := TokenFields(v, gap);
            |fs| == 5 && fs[1].0 != "type" && fs[2].0 != "type" && fs[3].0 != "type" && fs[4].0 != "type"
  {
    assert |"type"| == 4 && "type"[0] == 't' && "addr"[0] == 'a' && "rkey"[0] == 'r';
  }

  /** Token round trip: for every 64-bit address, offset and length and every 32-bit key, with blanks anywhere behind
      colons and commas, the four numbers are recovered. */
  lemma TokenRoundTrip(v: Token, gap: nat -> nat)
    requires IsToken(v)
    ensures ParseToken(TokenText(v, gap)) == Some(v)
  {
    hide GetU64, Contains, Front, Render, Number, Distinct, Spaces;
    var fs := TokenFields(v, gap);
    TokenDistinct(v, gap);
    TokenKeys(v, gap);
    assert Plain("token") && "\"" + "token" + "\"" == "\"token\"";
    TypeSeen("token", gap, Render(fs));
    NumberOf("token", gap, fs, 1, v.addr, gap(21), "," + Spaces(gap(31)));
    NumberOf("token", gap, fs, 2, v.rkey, gap(22), "," + Spaces(gap(32)));
    NumberOf("token", gap, fs, 3, v.start, gap(23), "," + Spaces(gap(33)));
    NumberOf("token", gap, fs, 4, v.length, gap(24), "}}");
  }

  lemma WideDecimal(x: int)
    requires 0 <= x < TWO_TO_64
    ensures |DecInt(x)| <= 20
  {
    assert Pow10(20) == 100_000_000_000_000_000_000 by {
      assert Pow10(5) == 100_000;
      assert Pow10(10) == 10_000_000_000;
      assert Pow10(15) == 1_000_000_000_000_000;
    }
    DecLength(x, Pow10(20), 20);
  }

  /** The message, terminator included, fits the 256-byte buffer of `send_token`. */
  lemma TokenFits(v: Token)
    requires IsToken(v)
    ensures |TokenText(v, NoGap())| < 256
  {
    hide DecInt;
    WideDecimal(v.addr);
    WideDecimal(v.rkey);
    WideDecimal(v.start);
    WideDecimal(v.length);
    RenderSize(TokenFields(v, NoGap()), 32);
    assert |"token"| == 5 && |"type"| == 4;
  }

  lemma {:induction false} RenderFree(fs: Fields, c: char)
    requires c != '"' && c != ':' && forall i :: 0 <= i < |fs| ==> c !in fs[i].0 && c !in fs[i].1
    ensures c !in Render(fs)
  {
    if fs != [] { RenderFree(fs[1..], c); }
  }

  lemma NumberFree(x: int, after: string, c: char)
    requires c != '-' && !IsDigit(c) && c !in after
    ensures c !in Number(x, 0, after)
  {
  }

  lemma TokenIsCString(v: Token)
    ensures '\0' !in TokenText(v, NoGap())
  {
    hide Number, Quoted;
    NumberFree(v.addr, "," + Spaces(0), '\0');
    NumberFree(v.rkey, "," + Spaces(0), '\0');
    NumberFree(v.start, "," + Spaces(0), '\0');
    NumberFree(v.length, "}}", '\0');
    RenderFree(TokenFields(v, NoGap()), '\0');
    FrontFree();
  }

  lemma FrontFree()
    ensures '\0' !in Front("token", NoGap())
  {
  }

  /** `send_token` up to the send call: the buffer holds the whole message as a C string. */
  method PrintToken(v: Token) returns (msg: array<char>)
    requires IsToken(v)
    ensures msg.Length == 256 && CStr(msg[..]) == Some(TokenText(v, NoGap()))
  {
    hide TokenText, CStr;
    var text := TokenText(v, NoGap());
    TokenFits(v);
    TokenIsCString(v);
    msg := new char[256](_ => '\0');
    var n := SnPrintf(msg, 0, text);
    assert msg[..] == text + msg[n..];
    CStrOf(text, msg[n..]);
  }

  /** What a lawful trace announces is what goes over the wire: the text for a token, whatever its address and key,
      reads back as offset 0 and the length of the memory at the time. */
  lemma AnnouncedOnWire(t: seq<Event>, i: nat, addr: int, rkey: int, gap: nat -> nat)
    requires Lawful(t) && i < |t| && t[i].Announce? && t[i].length < TWO_TO_64
    requires 0 <= addr < TWO_TO_64 && 0 <= rkey < TWO_TO_32
    ensures Lawful(t[..i])
    ensures var token := Token(addr, rkey, t[i].start, t[i].length);
            && ParseToken(TokenText(token, gap)) == Some(token)
            && token.start == 0 && token.length == |Replay(t[..i]).value.mem|
  {
    hide Replay, ParseToken, TokenText;
    PrefixLawful(t, i);
    ReplaySound(t[..i]);
    StepAnnounce(Replay(t[..i]).value, t[i]);
    TokenRoundTrip(Token(addr, rkey, t[i].start, t[i].length), gap);
  }
}
