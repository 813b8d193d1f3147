/** The queue-pair exchange of the C client: the JSON text printed by `send_qpinfo_client` and the substring-search
    reader of `recv_qpinfo_server`. */
module QpInfoJson {
  import opened Prelude
  import opened CStrings

  datatype QpInfo = QpInfo(qpn: int, lid: int, gid: seq<byte>, gidIdx: int, mtu: int)

  /** The ranges of `qpinfo_t`'s fields. */
  predicate InRange(v: QpInfo) {
    && 0 <= v.qpn < TWO_TO_32 && 0 <= v.lid < 65536 && |v.gid| == 16 && 0 <= v.gidIdx < 256
    && -TWO_TO_31 <= v.mtu < TWO_TO_31
  }

  // ---------- the reader ----------

  /** `"name"` followed by one character; with a colon, this is the pattern `json_find_key` searches for. */
  function Quoted(name: string, c: char): (q: string)
    ensures |q| == |name| + 3 && q[0] == '"'
  {
    "\"" + name + ['"', c]
  }

  function SkipBlanks(s: string): string
    decreases |s|
  {
    if s != "" && s[0] == ' ' then SkipBlanks(s[1..]) else s
  }

  function SkipSeparators(s: string): string
    decreases |s|
  {
    if s != "" && (s[0] == ' ' || s[0] == ',') then SkipSeparators(s[1..]) else s
  }

  /** `json_find_key` */
  function FindKey(json: string, key: string): Option<string> {
    match Find(json, Quoted(key, ':'))
    case None => None
    case Some(i) => Some(SkipBlanks(json[i + |key| + 3..]))
  }

  /** `json_get_u64` */
  function GetU64(json: string, key: string): Option<int> {
    match FindKey(json, key) case None => None case Some(p) => Some(Strtoull(p).0)
  }

  /** The sixteen-element loop of `json_get_bytes16`, from the cursor `p`. */
  function ReadBytes(p: string, n: nat): seq<byte>
    decreases n
  {
    if n == 0 then []
    else
      var (v, rest) := Strtoull(SkipSeparators(p));
      [v % 256] + ReadBytes(rest, n - 1)
  }

  function GetBytes16(json: string, key: string): Option<seq<byte>> {
    match FindKey(json, key)
    case None => None
    case Some(p) => if p == "" || p[0] != '[' then None else Some(ReadBytes(p[1..], 16))
  }

  /** `recv_qpinfo_server`, from the received text on. */
  function ParseQpInfo(json: string, typ: string): Option<QpInfo> {
    if !Contains(json, "\"" + typ + "\"") then None
    else
      match (GetU64(json, "qpn"), GetU64(json, "lid"), GetBytes16(json, "gid"), GetU64(json, "gid_idx"),
             GetU64(json, "mtu_enum"))
      case (Some(qpn), Some(lid), Some(gid), Some(idx), Some(mtu)) =>
        Some(QpInfo(qpn % TWO_TO_32, lid % 65536, gid, idx % 256, WrapInt32(mtu)))
      case _ => None
  }

  lemma ReadBytesStep(p: string, n: nat)
    ensures n == 0 ==> ReadBytes(p, n) == []
    ensures n > 0 ==> var (v, rest) := Strtoull(SkipSeparators(p));
                      ReadBytes(p, n) == [v % 256] + ReadBytes(rest, n - 1)
  {
  }

  /** The loop of `json_get_bytes16` as it runs, filling `out`. */
  method ReadBytesInto(p: string, out: array<byte>)
    modifies out
    ensures out[..] == ReadBytes(p, out.Length)
  {
    hide Strtoull, ReadBytes;
    var q := p;
    for i := 0 to out.Length
      invariant out[..i] + ReadBytes(q, out.Length - i) == ReadBytes(p, out.Length)
    {
      ReadBytesStep(q, out.Length - i);
      var (v, rest) := Strtoull(SkipSeparators(q));
      ghost var done := out[..i];
      out[i] := v % 256;
      assert out[..i + 1] == done + [v % 256];
      q := rest;
    }
    ReadBytesStep(q, 0);
    assert out[..out.Length] == out[..];
  }

  // ---------- the text ----------

  function Spaces(n: nat): string { seq(n, _ => ' ') }

  /** The list tail `,b,c,...`, with `gap(k)` blanks behind the comma that precedes the last `k` numbers. */
  function ListTail(bs: seq<byte>, gap: nat -> nat): string {
    if bs == [] then "" else "," + (Spaces(gap(|bs|)) + (Dec(bs[0]) + ListTail(bs[1..], gap)))
  }

  function List(bs: seq<byte>, gap: nat -> nat): string
    requires bs != []
  {
    Dec(bs[0]) + ListTail(bs[1..], gap)
  }

  /** Keys and the unquoted text behind each of them. */
  type Fields = seq<(string, string)>

  function Render(fs: Fields): string {
    if fs == [] then "" else Quoted(fs[0].0, ':') + (fs[0].1 + Render(fs[1..]))
  }

  function Number(x: int, blanks: nat, after: string): string { Spaces(blanks) + (DecInt(x) + after) }

  /** Everything behind the type: `gap(20 + i)` blanks follow the i-th colon and `gap(30 + i)` the i-th comma. */
  function DataFields(v: QpInfo, gap: nat -> nat): Fields
    requires |v.gid| == 16
  {
    [("data", Spaces(gap(20)) + "{"),
     ("qpn", Number(v.qpn, gap(21), "," + Spaces(gap(31)))),
     ("lid", Number(v.lid, gap(22), "," + Spaces(gap(32)))),
     ("gid", Spaces(gap(23)) + ("[" + (List(v.gid, gap) + ("]," + Spaces(gap(33)))))),
     ("gid_idx", Number(v.gidIdx, gap(24), "," + Spaces(gap(34)))),
     ("mtu_enum", Number(v.mtu, gap(25), "}}"))]
  }

  function Front(typ: string, gap: nat -> nat): string {
    "{" + (Quoted("type", ':') + (Spaces(gap(19)) + (Quoted(typ, ',') + Spaces(gap(30)))))
  }

  /** A queue-pair message of type `typ`. */
  function QpText(typ: string, v: QpInfo, gap: nat -> nat): string
    requires |v.gid| == 16
  {
    Front(typ, gap) + Render(DataFields(v, gap))
  }

  // ---------- first-match reasoning ----------

  predicate Plain(s: string) { '"' !in s }

  /** A usable key: non-empty, quote-free, and not beginning with the punctuation that follows a closing quote. */
  predicate IsKey(s: string) { s != "" && Plain(s) && s[0] != ':' && s[0] != ',' }

  /** A quoted name is passed over unless it is the key itself followed by a colon. */
  lemma SkipQuoted(name: string, c: char, b: string, key: string)
    requires Plain(name) && IsKey(key) && (c == ':' || c == ',') && (name != key || c != ':')
    ensures Find(Quoted(name, c) + b, Quoted(key, ':')) == Shift(|name| + 3, Find(b, Quoted(key, ':')))
  {
    hide Find;
    var a, pat := Quoted(name, c), Quoted(key, ':');
    var n, k := |name|, |key|;
    var s := a + b;
    assert s[n + 1] == '"' && s[n + 2] == c && pat[k + 1] == '"' && pat[k + 2] == ':';
    assert forall i :: 0 <= i < n ==> s[i + 1] == name[i];
    assert forall i :: 0 <= i < k ==> pat[i + 1] == key[i];
    forall i | 0 <= i < |a| ensures !(pat <= s[i..]) {
      if i == 0 {
        var j := if n < k then n + 1 else if n > k then k + 1 else if c != ':' then n + 2 else 1 + Mismatch(name, key);
        assert s[0..][j] != pat[j];
      } else if i == n + 1 {
        assert s[i..][1] == c != pat[1];
      } else if i == n + 2 {
        assert s[i..][0] == c;
      } else {
        assert s[i..][0] == name[i - 1];
      }
    }
    FindSkips(a, b, pat);
  }

  ghost function Mismatch(a: string, b: string): (j: nat)
    requires |a| == |b| && a != b
    ensures j < |a| && a[j] != b[j]
  {
    if a[0] != b[0] then 0 else
      assert a == [a[0]] + a[1..] && b == [b[0]] + b[1..];
      1 + Mismatch(a[1..], b[1..])
  }

  ghost predicate Distinct(fs: Fields) {
    && (forall i :: 0 <= i < |fs| ==> IsKey(fs[i].0) && Plain(fs[i].1))
    && (forall i, j :: 0 <= i < j < |fs| ==> fs[i].0 != fs[j].0)
  }

  /** Searching for the k-th key among distinct ones stops exactly at its own value: `"gid":` never matches
      `"gid_idx":`. */
  lemma {:induction false} FindField(fs: Fields, k: nat) returns (at: nat)
    requires Distinct(fs) && k < |fs|
    ensures Find(Render(fs), Quoted(fs[k].0, ':')) == Some(at)
    ensures at + |fs[k].0| + 3 <= |Render(fs)|
    ensures Render(fs)[at + |fs[k].0| + 3..] == fs[k].1 + Render(fs[k + 1..])
  {
    hide Find;
    var (name, v) := fs[0];
    var pat := Quoted(fs[k].0, ':');
    var rest := Render(fs[1..]);
    var here := Quoted(name, ':');
    if k == 0 {
      FindHere(here, v + rest);
      at := 0;
      assert Render(fs)[|name| + 3..] == v + rest;
    } else {
      var i := FindField(fs[1..], k - 1);
      assert fs[1..][k..] == fs[k + 1..];
      SkipQuoted(name, ':', v + rest, fs[k].0);
      SkipFree(v, rest, pat);
      at := |name| + 3 + |v| + i;
      assert Render(fs)[at + |fs[k].0| + 3..] == rest[i + |fs[k].0| + 3..];
    }
  }

  lemma SpacesPlain(n: nat)
    ensures Plain(Spaces(n))
  {
  }

  /** The front of the message is passed over on the way to any key but `type`. */
  lemma SkipFront(typ: string, gap: nat -> nat, b: string, key: string)
    requires Plain(typ) && IsKey(key) && key != "type"
    ensures Find(Front(typ, gap) + b, Quoted(key, ':')) == Shift(|Front(typ, gap)|, Find(b, Quoted(key, ':')))
  {
    hide Find, Quoted;
    var pat := Quoted(key, ':');
    var s0, s1 := Spaces(gap(19)), Spaces(gap(30));
    SpacesPlain(gap(19));
    SpacesPlain(gap(30));
    var t3 := s1 + b;
    var t2 := Quoted(typ, ',') + t3;
    var t1 := s0 + t2;
    assert Front(typ, gap) + b == "{" + (Quoted("type", ':') + t1);
    SkipFree("{", Quoted("type", ':') + t1, pat);
    SkipQuoted("type", ':', t1, key);
    SkipFree(s0, t2, pat);
    SkipQuoted(typ, ',', t3, key);
    SkipFree(s1, b, pat);
  }

  lemma {:induction false} BlanksGone(n: nat, t: string)
    requires t == "" || t[0] != ' '
    ensures SkipBlanks(Spaces(n) + t) == t
  {
    if n > 0 {
      BlanksGone(n - 1, t);
      assert (Spaces(n) + t)[1..] == Spaces(n - 1) + t;
    } else {
      assert Spaces(0) + t == t;
    }
  }

  lemma {:induction false} SeparatorsGone(n: nat, t: string)
    requires t == "" || (t[0] != ' ' && t[0] != ',')
    ensures SkipSeparators(Spaces(n) + t) == t
  {
    if n > 0 {
      SeparatorsGone(n - 1, t);
      assert (Spaces(n) + t)[1..] == Spaces(n - 1) + t;
    } else {
      assert Spaces(0) + t == t;
    }
  }

  lemma ReadNumber(x: int, t: string)
    requires -TWO_TO_64 < x < TWO_TO_64 && (t == "" || !IsDigit(t[0]))
    ensures Strtoull(DecInt(x) + t) == (x % TWO_TO_64, t)
  {
    ScanDecInt(x, t);
  }

  lemma DecStart(n: nat, t: string)
    ensures Dec(n) != "" && Dec(n)[0] != ' ' && Dec(n)[0] != ',' && SkipSeparators(Dec(n) + t) == Dec(n) + t
  {
  }

  /** One number is read off the front, and the cursor moves exactly behind it. */
  lemma ReadFirst(p: string, b: byte, t: string, n: nat)
    requires SkipSeparators(p) == Dec(b) + t && (t == "" || !IsDigit(t[0]))
    ensures ReadBytes(p, n + 1) == [b] + ReadBytes(t, n)
  {
    hide Strtoull, Dec, SkipSeparators;
    ReadNumber(b, t);
    assert DecInt(b) == Dec(b);
  }

  lemma TailStart(bs: seq<byte>, gap: nat -> nat, t: string)
    requires t == "" || !IsDigit(t[0])
    ensures ListTail(bs, gap) + t == "" || !IsDigit((ListTail(bs, gap) + t)[0])
  {
    hide Dec, Spaces;
  }

  lemma TailSeparators(bs: seq<byte>, gap: nat -> nat, t: string)
    requires bs != []
    ensures SkipSeparators(ListTail(bs, gap) + t) == Dec(bs[0]) + (ListTail(bs[1..], gap) + t)
  {
    hide Dec, Spaces;
    var num := Dec(bs[0]) + (ListTail(bs[1..], gap) + t);
    var s := Spaces(gap(|bs|)) + num;
    DecStart(bs[0], "");
    SeparatorsGone(gap(|bs|), num);
    assert ListTail(bs, gap) + t == "," + s;
    assert ("," + s)[1..] == s;
  }

  lemma {:induction false} ReadTail(bs: seq<byte>, gap: nat -> nat, t: string)
    requires t == "" || !IsDigit(t[0])
    ensures ReadBytes(ListTail(bs, gap) + t, |bs|) == bs
  {
    hide Strtoull, Dec, SkipSeparators, ListTail;
    if bs != [] {
      TailStart(bs[1..], gap, t);
      TailSeparators(bs, gap, t);
      ReadFirst(ListTail(bs, gap) + t, bs[0], ListTail(bs[1..], gap) + t, |bs| - 1);
      ReadTail(bs[1..], gap, t);
    }
  }

  lemma ListUnfold(bs: seq<byte>, gap: nat -> nat, t: string)
    requires bs != []
    ensures List(bs, gap) + t == Dec(bs[0]) + (ListTail(bs[1..], gap) + t)
  {
    hide Dec, ListTail;
  }

  lemma ReadList(bs: seq<byte>, gap: nat -> nat, t: string)
    requires bs != [] && (t == "" || !IsDigit(t[0]))
    ensures ReadBytes(List(bs, gap) + t, |bs|) == bs
  {
    hide *;
    var back := ListTail(bs[1..], gap) + t;
    ListUnfold(bs, gap, t);
    DecStart(bs[0], back);
    TailStart(bs[1..], gap, t);
    ReadFirst(List(bs, gap) + t, bs[0], back, |bs| - 1);
    ReadTail(bs[1..], gap, t);
  }

  lemma {:induction false} ListPlain(bs: seq<byte>, gap: nat -> nat)
    ensures Plain(ListTail(bs, gap)) && (bs != [] ==> Plain(List(bs, gap)))
  {
    if bs != [] { ListPlain(bs[1..], gap); }
  }

  lemma FieldsDistinct(v: QpInfo, gap: nat -> nat)
    requires InRange(v)
    ensures Distinct(DataFields(v, gap))
  {
    hide DecInt, Dec, List, Spaces;
    ListPlain(v.gid, gap);
    DecIntLength(v.qpn); DecIntLength(v.lid); DecIntLength(v.gidIdx); DecIntLength(v.mtu);
    forall n ensures Plain(Spaces(n)) { SpacesPlain(n); }
    assert "gid" != "gid_idx" && "qpn"[0] != "lid"[0] && "qpn"[0] != "gid"[0] && "lid"[0] != "gid"[0];
    assert |"data"| == 4 && |"qpn"| == 3 && |"lid"| == 3 && |"gid"| == 3 && |"gid_idx"| == 7 && |"mtu_enum"| == 8;
  }

  /** The text behind the k-th key of a message. */
  lemma KeyOf(typ: string, gap: nat -> nat, fs: Fields, k: nat)
    requires Plain(typ) && Distinct(fs) && k < |fs| && fs[k].0 != "type"
    ensures FindKey(Front(typ, gap) + Render(fs), fs[k].0) == Some(SkipBlanks(fs[k].1 + Render(fs[k + 1..])))
  {
    hide Find, Quoted, Front, SkipBlanks, Render, Distinct, FindKey;
    var key := fs[k].0;
    KeyIsKey(fs, k);
    var at := FindField(fs, k);
    SkipFront(typ, gap, Render(fs), key);
    KeyBehind(Front(typ, gap), Render(fs), key, at);
  }

  lemma KeyBehind(front: string, body: string, key: string, at: nat)
    requires Find(body, Quoted(key, ':')) == Some(at) && at + |key| + 3 <= |body|
    requires Find(front + body, Quoted(key, ':')) == Shift(|front|, Some(at))
    ensures FindKey(front + body, key) == Some(SkipBlanks(body[at + |key| + 3..]))
  {
    hide Find, Quoted, SkipBlanks;
    assert (front + body)[|front| + at + |key| + 3..] == body[at + |key| + 3..];
  }

  lemma KeyIsKey(fs: Fields, k: nat)
    requires Distinct(fs) && k < |fs|
    ensures IsKey(fs[k].0)
  {
  }

  /** A number behind the k-th key is read as it was printed, modulo 2^64. */
  lemma NumberOf(typ: string, gap: nat -> nat, fs: Fields, k: nat, x: int, blanks: nat, after: string)
    requires Plain(typ) && Distinct(fs) && k < |fs| && fs[k].0 != "type" && -TWO_TO_64 < x < TWO_TO_64
    requires fs[k].1 == Number(x, blanks, after) && after != "" && !IsDigit(after[0])
    ensures GetU64(Front(typ, gap) + Render(fs), fs[k].0) == Some(x % TWO_TO_64)
  {
    hide Front, FindKey, Strtoull, DecInt, Render, Distinct;
    KeyOf(typ, gap, fs, k);
    var t := after + Render(fs[k + 1..]);
    var p := DecInt(x) + t;
    assert Number(x, blanks, after) + Render(fs[k + 1..]) == Spaces(blanks) + p;
    NumberStart(x);
    BlanksGone(blanks, p);
    ReadNumber(x, t);
  }

  lemma KeyOfMessage(typ: string, v: QpInfo, gap: nat -> nat, k: nat)
    requires InRange(v) && Plain(typ) && k < 6
    ensures var fs := DataFields(v, gap);
            FindKey(QpText(typ, v, gap), fs[k].0) == Some(SkipBlanks(fs[k].1 + Render(fs[k + 1..])))
  {
    hide FindKey, Front, DataFields, SkipBlanks, Render, Distinct;
    FieldsDistinct(v, gap);
    KeysNotType(v, gap, k);
    KeyOf(typ, gap, DataFields(v, gap), k);
  }

  lemma KeysNotType(v: QpInfo, gap: nat -> nat, k: nat)
    requires |v.gid| == 16 && k < 6
    ensures |DataFields(v, gap)| == 6 && DataFields(v, gap)[k].0 != "type"
  {
    assert |"data"| == 4 && "data"[0] != "type"[0];
  }

  lemma NumberRead(typ: string, v: QpInfo, gap: nat -> nat, k: nat, x: int, blanks: nat, after: string)
    requires InRange(v) && Plain(typ) && k < 6 && -TWO_TO_31 <= x < TWO_TO_32
    requires DataFields(v, gap)[k].1 == Number(x, blanks, after) && after != "" && !IsDigit(after[0])
    ensures GetU64(QpText(typ, v, gap), DataFields(v, gap)[k].0) == Some(x % TWO_TO_64)
  {
    hide GetU64, Front, DataFields, Render, Distinct;
    FieldsDistinct(v, gap);
    KeysNotType(v, gap, k);
    NumberOf(typ, gap, DataFields(v, gap), k, x, blanks, after);
  }

  lemma NumberStart(x: int)
    ensures DecInt(x) != "" && DecInt(x)[0] != ' '
  {
  }

  lemma GidRead(typ: string, v: QpInfo, gap: nat -> nat)
    requires InRange(v) && Plain(typ)
    ensures GetBytes16(QpText(typ, v, gap), "gid") == Some(v.gid)
  {
    hide QpText, FindKey, Strtoull, DecInt, Render, List, ReadBytes;
    KeyOfMessage(typ, v, gap, 3);
    var t := "]," + Spaces(gap(33)) + Render(DataFields(v, gap)[4..]);
    var p := "[" + (List(v.gid, gap) + t);
    assert DataFields(v, gap)[3].1 + Render(DataFields(v, gap)[4..]) == Spaces(gap(23)) + p;
    BlanksGone(gap(23), p);
    assert p[1..] == List(v.gid, gap) + t;
    ReadList(v.gid, gap, t);
  }

  lemma Occurs(a: string, pat: string, b: string)
    ensures Contains(a + (pat + b), pat)
  {
    FindIsFirst(a + (pat + b), pat);
    assert (a + (pat + b))[|a|..] == pat + b;
  }

  lemma TypeSeen(typ: string, gap: nat -> nat, b: string)
    ensures Contains(Front(typ, gap) + b, "\"" + typ + "\"")
  {
    hide Find, Contains;
    var a := "{" + (Quoted("type", ':') + Spaces(gap(19)));
    var pat := "\"" + typ + "\"";
    var t := "," + Spaces(gap(30)) + b;
    assert Quoted(typ, ',') == pat + ",";
    assert Front(typ, gap) + b == a + (pat + t);
    Occurs(a, pat, t);
  }

  lemma NumbersRead(typ: string, v: QpInfo, gap: nat -> nat)
    requires InRange(v) && Plain(typ)
    ensures GetU64(QpText(typ, v, gap), "qpn") == Some(v.qpn)
    ensures GetU64(QpText(typ, v, gap), "lid") == Some(v.lid)
    ensures GetU64(QpText(typ, v, gap), "gid_idx") == Some(v.gidIdx)
    ensures GetU64(QpText(typ, v, gap), "mtu_enum") == Some(v.mtu % TWO_TO_64)
  {
    hide GetU64, QpText, List, Spaces, Number;
    NumberRead(typ, v, gap, 1, v.qpn, gap(21), "," + Spaces(gap(31)));
    NumberRead(typ, v, gap, 2, v.lid, gap(22), "," + Spaces(gap(32)));
    NumberRead(typ, v, gap, 4, v.gidIdx, gap(24), "," + Spaces(gap(34)));
    NumberRead(typ, v, gap, 5, v.mtu, gap(25), "}}");
  }

  /** QP-info round trip: for all field values and all placements of blanks behind colons and commas, the reader
      recovers the fields that were printed. */
  lemma QpInfoRoundTrip(typ: string, v: QpInfo, gap: nat -> nat)
    requires InRange(v) && Plain(typ)
    ensures ParseQpInfo(QpText(typ, v, gap), typ) == Some(v)
  {
    hide GetU64, GetBytes16, Contains, Front, DataFields, WrapInt32;
    TypeSeen(typ, gap, Render(DataFields(v, gap)));
    NumbersRead(typ, v, gap);
    GidRead(typ, v, gap);
    MtuCast(v.mtu);
  }

  /** Reading a negative number through `strtoull` and narrowing restores it. */
  lemma MtuCast(x: int)
    requires -TWO_TO_31 <= x < TWO_TO_31
    ensures WrapInt32(x % TWO_TO_64) == x
  {
  }

  // ---------- messages of another type ----------

  function Name(s: string): string { "\"" + s + "\"" }

  /** A quoted name is passed over in the search for another. */
  lemma SkipOther(name: string, c: char, b: string, other: string)
    requires Plain(name) && IsKey(other) && (c == ':' || c == ',') && name != other
    ensures Find(Quoted(name, c) + b, Name(other)) == Shift(|name| + 3, Find(b, Name(other)))
  {
    hide Find;
    var a, pat := Quoted(name, c), Name(other);
    var n, k := |name|, |other|;
    var s := a + b;
    assert s[n + 1] == '"' && s[n + 2] == c && pat[k + 1] == '"';
    assert forall i :: 0 <= i < n ==> s[i + 1] == name[i];
    assert forall i :: 0 <= i < k ==> pat[i + 1] == other[i];
    forall i | 0 <= i < |a| ensures !(pat <= s[i..]) {
      if i == 0 {
        var j := if n < k then n + 1 else if n > k then k + 1 else 1 + Mismatch(name, other);
        assert s[0..][j] != pat[j];
      } else if i == n + 1 {
        assert s[i..][1] == c != pat[1];
      } else {
        assert s[i..][0] != pat[0];
      }
    }
    FindSkips(a, b, pat);
  }

  lemma {:induction false} NameAbsent(fs: Fields, other: string)
    requires IsKey(other)
    requires forall i :: 0 <= i < |fs| ==> Plain(fs[i].0) && Plain(fs[i].1) && fs[i].0 != other
    ensures Find(Render(fs), Name(other)) == None
  {
    hide Find, Quoted;
    if fs == [] {
      FindIsFirst("", Name(other));
    } else {
      NameAbsent(fs[1..], other);
      SkipOther(fs[0].0, ':', fs[0].1 + Render(fs[1..]), other);
      SkipFree(fs[0].1, Render(fs[1..]), Name(other));
    }
  }

  /** A message of another type is not read, whatever it says. */
  lemma OtherTypeRejected(typ: string, other: string, v: QpInfo, gap: nat -> nat)
    requires InRange(v) && Plain(typ) && IsKey(other) && other != typ && other != "type"
    requires other !in ["data", "qpn", "lid", "gid", "gid_idx", "mtu_enum"]
    ensures ParseQpInfo(QpText(typ, v, gap), other) == None
  {
    hide Find, Quoted, DataFields, Render, Spaces;
    var fs := DataFields(v, gap);
    FieldNames(v, gap);
    FieldsDistinct(v, gap);
    NameAbsent(fs, other);
    var r, g, h := Render(fs), Spaces(gap(19)), Spaces(gap(30));
    SpacesPlain(gap(19));
    SpacesPlain(gap(30));
    SkipFree(h, r, Name(other));
    SkipOther(typ, ',', h + r, other);
    SkipFree(g, Quoted(typ, ',') + (h + r), Name(other));
    SkipOther("type", ':', g + (Quoted(typ, ',') + (h + r)), other);
    SkipFree("{", Quoted("type", ':') + (g + (Quoted(typ, ',') + (h + r))), Name(other));
    assert QpText(typ, v, gap) == "{" + (Quoted("type", ':') + (g + (Quoted(typ, ',') + (h + r))));
  }

  lemma FieldNames(v: QpInfo, gap: nat -> nat)
    requires |v.gid| == 16
    ensures var fs := DataFields(v, gap);
            && |fs| == 6 && fs[0].0 == "data" && fs[1].0 == "qpn" && fs[2].0 == "lid" && fs[3].0 == "gid"
            && fs[4].0 == "gid_idx" && fs[5].0 == "mtu_enum"
  {
  }

  // ---------- the printed text ----------

  lemma Glue3(a: string, b: string, c: string, d: string)
    ensures (a + b) + (c + d) == a + ((b + c) + d)
  {
  }

  lemma Glue4(a: string, b: string, c: string, d: string, e: string)
    ensures a + (b + (c + (d + e))) == (a + b + c + d) + e
  {
  }

  lemma RenderNil()
    ensures Render([]) == ""
  {
  }

  lemma RenderFrom(fs: Fields, i: nat)
    requires i < |fs|
    ensures Render(fs[i..]) == Quoted(fs[i].0, ':') + (fs[i].1 + Render(fs[i + 1..]))
  {
    assert fs[i..][1..] == fs[i + 1..];
  }

  lemma NothingBefore(s: string)
    ensures "" + s == s
  {
  }

  /** The message as the client prints it. */
  lemma ClientPrinted(v: QpInfo)
    requires |v.gid| == 16
    ensures QpText(CLIENT, v, NoGap())
         == "{\"type\":\"qpinfo_client\",\"data\":{\"qpn\":" + (DecInt(v.qpn) + (",\"lid\":" + (DecInt(v.lid)
            + (",\"gid\":[" + (List(v.gid, NoGap()) + ("],\"gid_idx\":" + (DecInt(v.gidIdx)
            + (",\"mtu_enum\":" + (DecInt(v.mtu) + "}}")))))))))
  {
    hide DecInt, Render, Front, Quoted, DataFields, List;
    var fs := DataFields(v, NoGap());
    var q, l, g, x, m := DecInt(v.qpn), DecInt(v.lid), List(v.gid, NoGap()), DecInt(v.gidIdx), DecInt(v.mtu);
    ClientLiterals();
    ClientOpening();
    FieldsPrinted(v);
    FrontPrinted(CLIENT);
    RenderNil();
    forall i | 0 <= i < 6 ensures Render(fs[i..]) == Quoted(fs[i].0, ':') + (fs[i].1 + Render(fs[i + 1..])) {
      RenderFrom(fs, i);
    }
    var t5 := m + "}}";
    assert fs[6..] == [] && t5 + "" == t5;
    assert Render(fs[5..]) == Quoted("mtu_enum", ':') + t5;
    var t4 := x + (",\"mtu_enum\":" + t5);
    assert Render(fs[4..]) == Quoted("gid_idx", ':') + t4 by { Glue3(x, ",", Quoted("mtu_enum", ':'), t5); }
    var t3 := g + ("],\"gid_idx\":" + t4);
    assert Render(fs[3..]) == (Quoted("gid", ':') + "[") + t3 by {
      GlueList(Quoted("gid", ':'), g, Quoted("gid_idx", ':'), t4);
    }
    var t2 := l + (",\"gid\":[" + t3);
    assert Render(fs[2..]) == Quoted("lid", ':') + t2 by { Glue3(l, ",", Quoted("gid", ':') + "[", t3); }
    var t1 := q + (",\"lid\":" + t2);
    assert Render(fs[1..]) == Quoted("qpn", ':') + t1 by { Glue3(q, ",", Quoted("lid", ':'), t2); }
    Glue4(Front(CLIENT, NoGap()), Quoted("data", ':'), "{", Quoted("qpn", ':'), t1);
    assert fs[0..] == fs;
  }

  lemma GlueList(key: string, g: string, next: string, t: string)
    ensures key + (("[" + (g + "],")) + (next + t)) == (key + "[") + (g + (("]," + next) + t))
  {
  }

  lemma ClientLiterals()
    ensures "," + Quoted("lid", ':') == ",\"lid\":" && "," + (Quoted("gid", ':') + "[") == ",\"gid\":["
    ensures "]," + Quoted("gid_idx", ':') == "],\"gid_idx\":" && "," + Quoted("mtu_enum", ':') == ",\"mtu_enum\":"
  {
  }

  lemma ClientOpening()
    ensures Quoted("data", ':') == "\"data\":" && Quoted("qpn", ':') == "\"qpn\":"
    ensures "{\"type\":\"" + "qpinfo_client" + "\"," + "\"data\":" + "{" + "\"qpn\":"
         == "{\"type\":\"qpinfo_client\",\"data\":{\"qpn\":"
  {
  }

  lemma FieldsPrinted(v: QpInfo)
    requires |v.gid| == 16
    ensures DataFields(v, NoGap())
         == [("data", "{"), ("qpn", DecInt(v.qpn) + ","), ("lid", DecInt(v.lid) + ","),
             ("gid", "[" + (List(v.gid, NoGap()) + "],")), ("gid_idx", DecInt(v.gidIdx) + ","),
             ("mtu_enum", DecInt(v.mtu) + "}}")]
  {
    hide DecInt, Spaces, List;
    NoSpaces();
    assert "" + "{" == "{" && "," + "" == "," && "]," + "" == "],";
    NothingBefore(DecInt(v.qpn) + ",");
    NothingBefore(DecInt(v.lid) + ",");
    NothingBefore("[" + (List(v.gid, NoGap()) + "],"));
    NothingBefore(DecInt(v.gidIdx) + ",");
    NothingBefore(DecInt(v.mtu) + "}}");
  }

  /** The list is printed with single commas. */
  lemma ListPrinted(bs: seq<byte>, b: byte)
    requires bs != []
    ensures List([b], NoGap()) == Dec(b)
    ensures List([b] + bs, NoGap()) == Dec(b) + ("," + List(bs, NoGap()))
  {
    hide Dec;
    NoSpaces();
    assert ([b] + bs)[1..] == bs && [b][1..] == [];
    NothingBefore(Dec(bs[0]) + ListTail(bs[1..], NoGap()));
  }

  // ---------- the size of the printed text ----------

  const CLIENT := "qpinfo_client"

  /** The client itself prints no blanks. */
  function NoGap(): nat -> nat { (n: nat) => 0 }

  lemma NoSpaces()
    ensures Spaces(0) == ""
  {
  }

  lemma FrontPrinted(typ: string)
    ensures Front(typ, NoGap()) == "{\"type\":\"" + typ + "\","
  {
    NoSpaces();
    assert "{\"type\":\"" == "{" + "\"type\":" + "\"";
  }

  lemma ByteSize(b: byte)
    ensures |Dec(b)| <= 3
  {
    assert Pow10(3) == 1000;
    DecLength(b, 1000, 3);
  }

  lemma {:induction false} TailSize(bs: seq<byte>)
    ensures |ListTail(bs, NoGap())| <= 4 * |bs|
  {
    if bs != [] {
      ByteSize(bs[0]);
      TailSize(bs[1..]);
    }
  }

  lemma {:induction false} RenderSize(fs: Fields, bound: nat)
    requires forall i :: 0 <= i < |fs| ==> |fs[i].0| + 3 + |fs[i].1| <= bound
    ensures |Render(fs)| <= bound * |fs|
  {
    if fs != [] { RenderSize(fs[1..], bound); }
  }

  /** The whole message, terminator included, fits the 512-byte buffer of `send_qpinfo_client`, so that none of
      its successive `snprintf` calls truncates. */
  lemma ClientTextFits(v: QpInfo)
    requires InRange(v)
    ensures |QpText(CLIENT, v, NoGap())| < 512
  {
    hide DecInt, Dec, ListTail;
    DecIntLength(v.qpn); DecIntLength(v.lid); DecIntLength(v.gidIdx); DecIntLength(v.mtu);
    TailSize(v.gid[1..]);
    ByteSize(v.gid[0]);
    var fs := DataFields(v, NoGap());
    assert |fs[3].1| <= 66;
    assert |CLIENT| == 13;
    RenderSize(fs, 72);
  }
}
