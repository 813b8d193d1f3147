/** The hand-written XML printer (`s3_complete_multipart`) and substring-search parser (`parse_parts`)
    of the C multipart client. The tags are a parameter, so that the proofs rest only on how the tags
    differ; `XML` is the set the client uses. */
module CompleteXml {
  import opened Prelude
  import opened CStrings

  /** The part number and ETag of a `completed_part_t`, the ETag as a C string. */
  datatype Part = Part(number: int, etag: string)

  /** What fits a `completed_part_t`: an `int`, and a terminated string in `char etag[256]`. */
  predicate Stored(p: Part) {
    -TWO_TO_31 <= p.number < TWO_TO_31 && |p.etag| <= 255 && '\0' !in p.etag
  }

  predicate AllStored(ps: seq<Part>) {
    forall i :: 0 <= i < |ps| ==> Stored(ps[i])
  }

  /** The tags the printer writes and the parser searches for. */
  datatype Tags = Tags(part: string, endPart: string, number: string, endNumber: string,
                       etag: string, endEtag: string, upload: string, endUpload: string)

  const XML := Tags("<Part>", "</Part>", "<PartNumber>", "</PartNumber>", "<ETag>", "</ETag>",
                    "<CompleteMultipartUpload>", "</CompleteMultipartUpload>")

  /** A tag: `<` at the front and nowhere else. */
  ghost predicate IsTag(s: string) { Leads(s) && s[0] == '<' }

  /** All that the parser relies on: tags that are passed over on the way to another differ from it. */
  ghost predicate Separated(t: Tags) {
    && IsTag(t.part) && IsTag(t.endPart) && IsTag(t.number) && IsTag(t.endNumber) && IsTag(t.etag) && IsTag(t.endEtag)
    && Differs(t.part, t.endPart) && Differs(t.number, t.endPart) && Differs(t.endNumber, t.endPart)
    && Differs(t.etag, t.endPart) && Differs(t.endEtag, t.endPart)
    && Differs(t.part, t.number)
    && Differs(t.part, t.etag) && Differs(t.number, t.etag) && Differs(t.endNumber, t.etag)
    && Differs(t.upload, t.part) && Differs(t.endUpload, t.part)
  }

  /** The sizes behind the body buffer's `256 + 384 * count` bytes. */
  predicate Sized(t: Tags) {
    && |t.part| + |t.endPart| + |t.number| + |t.endNumber| + |t.etag| + |t.endEtag| == 51
    && |t.upload| == 25 && |t.endUpload| == 26 && 1 <= |t.endPart| <= |t.endEtag|
  }

  lemma DiffersAt(a: string, pat: string, k: nat)
    requires k < |a| && k < |pat| && a[k] != pat[k] && forall i :: 1 <= i < |a| ==> a[i] != pat[0]
    ensures Differs(a, pat)
  {
  }

  lemma PartsApart()
    ensures IsTag("<Part>") && IsTag("</Part>") && IsTag("<PartNumber>") && IsTag("</PartNumber>")
    ensures Differs("<Part>", "</Part>") && Differs("<PartNumber>", "</Part>")
    ensures Differs("</PartNumber>", "</Part>") && Differs("<Part>", "<PartNumber>")
  {
    hide Differs;
    DiffersAt("<Part>", "</Part>", 1);
    DiffersAt("<PartNumber>", "</Part>", 1);
    DiffersAt("</PartNumber>", "</Part>", 6);
    DiffersAt("<Part>", "<PartNumber>", 5);
  }

  lemma EtagsApart()
    ensures IsTag("<ETag>") && IsTag("</ETag>")
    ensures Differs("<ETag>", "</Part>") && Differs("</ETag>", "</Part>")
    ensures Differs("<Part>", "<ETag>") && Differs("<PartNumber>", "<ETag>") && Differs("</PartNumber>", "<ETag>")
  {
    hide Differs;
    DiffersAt("<ETag>", "</Part>", 1);
    DiffersAt("</ETag>", "</Part>", 2);
    DiffersAt("<Part>", "<ETag>", 1);
    DiffersAt("<PartNumber>", "<ETag>", 1);
    DiffersAt("</PartNumber>", "<ETag>", 1);
  }

  lemma UploadApart()
    ensures Differs("<CompleteMultipartUpload>", "<Part>")
  {
    hide Differs;
    DiffersAt("<CompleteMultipartUpload>", "<Part>", 1);
  }

  lemma EndUploadApart()
    ensures Differs("</CompleteMultipartUpload>", "<Part>")
  {
    hide Differs;
    DiffersAt("</CompleteMultipartUpload>", "<Part>", 1);
  }

  /** `<Part>` is never confused with `<PartNumber>`, nor `</Part>` with `</PartNumber>`. */
  lemma XmlSeparated()
    ensures Separated(XML) && Sized(XML)
  {
    hide Differs, IsTag;
    PartsApart();
    EtagsApart();
    UploadApart();
    EndUploadApart();
  }

  // ---------- printer ----------

  /** An empty ETag is printed as a pair of quotes. */
  function Shown(p: Part): (e: string)
    ensures e != ""
  {
    if p.etag == "" then "\"\"" else p.etag
  }

  function AfterEtag(t: Tags, p: Part): string { t.etag + (Shown(p) + (t.endEtag + t.endPart)) }

  function Item(t: Tags, p: Part): string {
    t.part + (t.number + (DecInt(p.number) + (t.endNumber + AfterEtag(t, p))))
  }

  function Items(t: Tags, ps: seq<Part>): string {
    if ps == [] then "" else Item(t, ps[0]) + Items(t, ps[1..])
  }

  function Body(t: Tags, ps: seq<Part>): string {
    t.upload + (Items(t, ps) + t.endUpload)
  }

  lemma {:induction false} ItemsSnoc(t: Tags, ps: seq<Part>, p: Part)
    ensures Items(t, ps + [p]) == Items(t, ps) + Item(t, p)
  {
    hide Item;
    if ps == [] {
      assert ps + [p] == [p];
      assert Items(t, [p]) == Item(t, p) + Items(t, [p][1..]);
    } else {
      ItemsSnoc(t, ps[1..], p);
      assert (ps + [p])[1..] == ps[1..] + [p];
    }
  }

  lemma ItemsNil(t: Tags)
    ensures Items(t, []) == ""
  {
  }

  lemma ItemLength(t: Tags, p: Part)
    requires Sized(t) && Stored(p)
    ensures |Item(t, p)| <= 317
  {
    DecIntLength(p.number);
  }

  /** `s3_complete_multipart`'s body: no `snprintf` truncates, so the buffer holds the whole document. */
  method CompleteBody(t: Tags, ps: seq<Part>) returns (body: array<char>, len: nat)
    requires AllStored(ps) && Sized(t)
    ensures fresh(body) && body.Length == 256 + 384 * |ps|
    ensures len < body.Length && body[..len] == Body(t, ps) && body[len] == '\0'
  {
    hide Item, Items;
    body := new char[256 + 384 * |ps|](_ => '\0');
    ItemsNil(t);
    var pos := Append(body, 0, t.upload);
    var i := 0;
    while i < |ps|
      invariant 0 <= i <= |ps|
      invariant 0 <= pos <= 25 + 317 * i
      invariant body[..pos] == t.upload + Items(t, ps[..i])
    {
      var item := Item(t, ps[i]);
      ItemLength(t, ps[i]);
      pos := Append(body, pos, item);
      ItemsSnoc(t, ps[..i], ps[i]);
      assert ps[..i] + [ps[i]] == ps[..i + 1];
      Glue(t.upload, Items(t, ps[..i]), item);
      i := i + 1;
    }
    assert ps[..i] == ps;
    len := Append(body, pos, t.endUpload);
    Glue(t.upload, Items(t, ps), t.endUpload);
  }

  /** `pos += snprintf(body + pos, cap - pos, "%s", text)` where the text fits. */
  method Append(body: array<char>, pos: nat, text: string) returns (end: nat)
    requires pos + |text| < body.Length
    modifies body
    ensures end == pos + |text| && body[..end] == old(body[..pos]) + text && body[end] == '\0'
  {
    var n := SnPrintf(body, pos, text);
    assert text[..n] == text;
    end := pos + n;
  }

  // ---------- parser ----------

  /** `find_tag_text`: the text between the first opening tag and the next closing tag,
      cut to the output buffer. */
  function TagText(xml: string, open: string, close: string, outlen: nat): (r: Option<string>)
    requires outlen >= 1
    ensures r.Some? ==> |r.value| < outlen
  {
    match Find(xml, open)
    case None => None
    case Some(i) =>
      var p := xml[i + |open|..];
      match Find(p, close)
      case None => None
      case Some(j) => Some(p[..Min(j, outlen - 1)])
  }

  /** One `<Part>` block; a block without both tags is passed over. */
  function ParseBlock(t: Tags, block: string): Option<Part> {
    match (TagText(block, t.number, t.endNumber, 32), TagText(block, t.etag, t.endEtag, 256))
    case (Some(num), Some(etag)) => Some(Part(Atoi(num), etag))
    case _ => None
  }

  /** The next block at or after the front of `s`, and the text behind it. */
  function NextBlock(t: Tags, s: string): (r: Option<(string, string)>)
    requires t.endPart != ""
    ensures r.Some? ==> |r.value.1| < |s|
  {
    match Find(s, t.part)
    case None => None
    case Some(i) =>
      var q := s[i..];
      match Find(q, t.endPart)
      case None => None
      case Some(e) => Some((q[..e + |t.endPart|], q[e + |t.endPart|..]))
  }

  function OfBlock(t: Tags, block: string): seq<Part> {
    match ParseBlock(t, block) case None => [] case Some(p) => [p]
  }

  /** The list `parse_parts` collects. */
  function ParseParts(t: Tags, s: string): seq<Part>
    requires t.endPart != ""
    decreases |s|
  {
    match NextBlock(t, s)
    case None => []
    case Some((block, rest)) => OfBlock(t, block) + ParseParts(t, rest)
  }

  // ---------- round trip ----------

  /** ETag text on which the substring searches cannot go wrong. */
  predicate Clean(t: Tags, e: string) {
    !Contains(e, t.endEtag) && !Contains(e, t.endPart)
  }

  /** A part as the parser reports it. */
  function Reread(ps: seq<Part>): seq<Part> {
    seq(|ps|, i requires 0 <= i < |ps| => Part(ps[i].number, Shown(ps[i])))
  }

  lemma EndOfItem(t: Tags, p: Part, rest: string)
    requires Separated(t) && Stored(p) && Clean(t, Shown(p))
    ensures Find(Item(t, p) + rest, t.endPart) == Some(|Item(t, p)| - |t.endPart|)
  {
    hide Find, Dec, DecInt, Contains, Differs, Shown;
    DecIntLength(p.number);
    var d, e := DecInt(p.number), Shown(p);
    var t6 := t.endEtag + (t.endPart + rest);
    var t4 := t.etag + (e + t6);
    var t3 := t.endNumber + t4;
    assert Item(t, p) + rest == t.part + (t.number + (d + t3));
    SkipLiteral(t.part, t.number + (d + t3), t.endPart);
    SkipLiteral(t.number, d + t3, t.endPart);
    SkipFree(d, t3, t.endPart);
    SkipLiteral(t.endNumber, t4, t.endPart);
    SkipLiteral(t.etag, e + t6, t.endPart);
    SkipText(e, t6, t.endPart);
    SkipLiteral(t.endEtag, t.endPart + rest, t.endPart);
    FindHere(t.endPart, rest);
  }

  /** `find_tag_text` between its tags, cut to the size of the output. */
  lemma TagTextAt(pre: string, open: string, text: string, close: string, post: string, outlen: nat)
    requires outlen > 0
    requires Find(pre + (open + (text + (close + post))), open) == Some(|pre|)
    requires Find(text + (close + post), close) == Some(|text|)
    ensures TagText(pre + (open + (text + (close + post))), open, close, outlen)
         == Some(if |text| < outlen then text else text[..outlen - 1])
  {
    hide Find;
    var p := text + (close + post);
    assert (pre + (open + p))[|pre| + |open|..] == p;
    assert p[..|text|] == text;
    if |text| >= outlen { assert p[..outlen - 1] == text[..outlen - 1]; }
  }

  lemma ItemNumber(t: Tags, p: Part)
    requires Separated(t) && Stored(p)
    ensures TagText(Item(t, p), t.number, t.endNumber, 32) == Some(DecInt(p.number))
  {
    hide Find, Dec, DecInt, Contains, Differs, TagText, AfterEtag;
    DecIntLength(p.number);
    var d, t4 := DecInt(p.number), AfterEtag(t, p);
    var t2 := d + (t.endNumber + t4);
    SkipLiteral(t.part, t.number + t2, t.number);
    FindHere(t.number, t2);
    SkipFree(d, t.endNumber + t4, t.endNumber);
    FindHere(t.endNumber, t4);
    TagTextAt(t.part, t.number, d, t.endNumber, t4, 32);
  }

  lemma ItemEtag(t: Tags, p: Part)
    requires Separated(t) && Stored(p) && Clean(t, Shown(p))
    ensures TagText(Item(t, p), t.etag, t.endEtag, 256) == Some(Shown(p))
  {
    hide Find, Dec, DecInt, Contains, Differs, TagText;
    DecIntLength(p.number);
    var d, e := DecInt(p.number), Shown(p);
    var t5 := e + (t.endEtag + t.endPart);
    var t4 := t.etag + t5;
    var t3 := t.endNumber + t4;
    SkipLiteral(t.part, t.number + (d + t3), t.etag);
    SkipLiteral(t.number, d + t3, t.etag);
    SkipFree(d, t3, t.etag);
    SkipLiteral(t.endNumber, t4, t.etag);
    FindHere(t.etag, t5);
    SkipText(e, t.endEtag + t.endPart, t.endEtag);
    FindHere(t.endEtag, t.endPart);
    var pre := t.part + (t.number + (d + t.endNumber));
    assert Item(t, p) == pre + t4 == t.part + (t.number + (d + t3));
    TagTextAt(pre, t.etag, e, t.endEtag, t.endPart, 256);
  }

  /** One printed part is read back, and the cursor ends exactly behind it. */
  lemma ParseItem(t: Tags, p: Part, rest: string)
    requires Separated(t) && Stored(p) && Clean(t, Shown(p))
    ensures ParseParts(t, Item(t, p) + rest) == [Part(p.number, Shown(p))] + ParseParts(t, rest)
  {
    hide Find, TagText, Dec, DecInt, Clean;
    var s := Item(t, p) + rest;
    FindHere(t.part, (t.number + (DecInt(p.number) + (t.endNumber + AfterEtag(t, p)))) + rest);
    assert t.part + ((t.number + (DecInt(p.number) + (t.endNumber + AfterEtag(t, p)))) + rest) == s;
    assert s[0..] == s;
    EndOfItem(t, p, rest);
    assert s[..|Item(t, p)|] == Item(t, p) && s[|Item(t, p)|..] == rest;
    assert NextBlock(t, s) == Some((Item(t, p), rest));
    ItemNumber(t, p);
    ItemEtag(t, p);
    AtoiDecInt(p.number);
  }

  lemma NoItems(t: Tags)
    requires Separated(t)
    ensures ParseParts(t, t.endUpload) == []
  {
    hide Differs;
    SkipLiteral(t.endUpload, "", t.part);
    assert t.endUpload + "" == t.endUpload;
  }

  lemma {:induction false} ParseItems(t: Tags, ps: seq<Part>)
    requires Separated(t) && AllStored(ps)
    requires forall i :: 0 <= i < |ps| ==> Clean(t, Shown(ps[i]))
    ensures ParseParts(t, Items(t, ps) + t.endUpload) == Reread(ps)
  {
    hide ParseParts, Separated, Item, Clean, Stored, Shown;
    if ps == [] {
      NoItems(t);
      assert Items(t, ps) + t.endUpload == t.endUpload;
      assert Reread(ps) == [];
    } else {
      var tail := Items(t, ps[1..]) + t.endUpload;
      assert Items(t, ps) + t.endUpload == Item(t, ps[0]) + tail;
      ParseItem(t, ps[0], tail);
      ParseItems(t, ps[1..]);
      assert Reread(ps) == [Part(ps[0].number, Shown(ps[0]))] + Reread(ps[1..]);
    }
  }

  /** An occurrence in a slice is an occurrence in the whole. */
  lemma SliceHas(s: string, lo: nat, hi: nat, pat: string) returns (i: nat)
    requires lo <= hi <= |s| && Contains(s[lo..hi], pat)
    ensures lo <= i && i + |pat| <= hi && pat <= s[i..]
  {
    var x := Find(s[lo..hi], pat).value;
    i := lo + x;
    FindIsFirst(s[lo..hi], pat);
    assert s[lo..hi][x..] <= s[i..];
  }

  /** Text before the first occurrence has no occurrence. */
  lemma PrefixFree(s: string, pat: string, m: nat)
    requires Find(s, pat).Some? && m <= Find(s, pat).value && pat != ""
    ensures !Contains(s[..m], pat)
  {
    FindIsFirst(s, pat);
    if Contains(s[0..m], pat) {
      var i := SliceHas(s, 0, m, pat);
    }
    assert s[0..m] == s[..m];
  }

  /** Whatever text the parser is given, the ETags it stores are clean. */
  lemma BlockEtagClean(t: Tags, block: string)
    requires t.endPart != "" && |t.endPart| <= |t.endEtag|
    requires |block| >= |t.endPart| && Find(block, t.endPart) == Some(|block| - |t.endPart|)
    requires ParseBlock(t, block).Some?
    ensures Clean(t, ParseBlock(t, block).value.etag)
  {
    hide Find, Atoi;
    var lo := Find(block, t.etag).value + |t.etag|;
    var p := block[lo..];
    var j := Find(p, t.endEtag).value;
    var m := Min(j, 255);
    PrefixFree(p, t.endEtag, m);
    FindIsFirst(block, t.endPart);
    assert p[..m] == block[lo..lo + m];
    if Contains(block[lo..lo + m], t.endPart) {
      var i := SliceHas(block, lo, lo + m, t.endPart);
    }
  }

  lemma BlockEnds(q: string, pat: string, e: nat)
    requires Find(q, pat) == Some(e)
    ensures Find(q[..e + |pat|], pat) == Some(e)
  {
    FindIsFirst(q, pat);
    var b := q[..e + |pat|];
    assert q[e..][..|pat|] == pat;
    assert b == q[..e] + pat;
    forall i | 0 <= i < |q[..e]| ensures !(pat <= (q[..e] + pat)[i..]) {
      assert b[i..] == q[i..][..|b| - i];
    }
    FindSkips(q[..e], pat, pat);
  }

  lemma {:induction false} ParsedEtagsClean(t: Tags, s: string)
    requires t.endPart != "" && |t.endPart| <= |t.endEtag|
    ensures forall i :: 0 <= i < |ParseParts(t, s)| ==> Clean(t, ParseParts(t, s)[i].etag)
    decreases |s|
  {
    hide Find, Clean, ParseBlock;
    var n := NextBlock(t, s);
    if n.Some? {
      var (block, rest) := n.value;
      ParsedEtagsClean(t, rest);
      var q := s[Find(s, t.part).value..];
      BlockEnds(q, t.endPart, Find(q, t.endPart).value);
      if ParseBlock(t, block).Some? {
        BlockEtagClean(t, block);
      }
    }
  }

  lemma SameFromBlock(t: Tags, a: string, b: string)
    requires t.endPart != ""
    requires Find(a + b, t.part) == Shift(|a|, Find(b, t.part))
    ensures ParseParts(t, a + b) == ParseParts(t, b)
  {
    hide Find, OfBlock;
    if Find(b, t.part).Some? {
      var i := Find(b, t.part).value;
      assert (a + b)[|a| + i..] == b[i..];
    }
  }

  lemma RoundTripOf(t: Tags, ps: seq<Part>)
    requires Separated(t) && Sized(t) && AllStored(ps)
    ensures ParseParts(t, Body(t, ps)) == Reread(ps) <==> forall i :: 0 <= i < |ps| ==> Clean(t, Shown(ps[i]))
  {
    var inner := Items(t, ps) + t.endUpload;
    SkipLiteral(t.upload, inner, t.part);
    SameFromBlock(t, t.upload, inner);
    if forall i :: 0 <= i < |ps| ==> Clean(t, Shown(ps[i])) {
      ParseItems(t, ps);
    }
    if ParseParts(t, Body(t, ps)) == Reread(ps) {
      ParsedEtagsClean(t, Body(t, ps));
      forall i | 0 <= i < |ps| ensures Clean(t, Shown(ps[i])) {
        assert ParseParts(t, Body(t, ps))[i].etag == Shown(ps[i]);
      }
    }
  }

  /** The parser returns the list itself if and only if every ETag is non-empty and clean: an empty one comes back as
      the pair of quotes it was printed as. */
  lemma ExactOf(t: Tags, ps: seq<Part>)
    requires Separated(t) && Sized(t) && AllStored(ps)
    ensures ParseParts(t, Body(t, ps)) == ps <==> forall i :: 0 <= i < |ps| ==> ps[i].etag != "" && Clean(t, ps[i].etag)
  {
    hide ParseParts, Body, Clean, Separated, AllStored;
    RoundTripOf(t, ps);
    if forall i :: 0 <= i < |ps| ==> ps[i].etag != "" && Clean(t, ps[i].etag) {
      assert Reread(ps) == ps;
    }
    if ParseParts(t, Body(t, ps)) == ps {
      ParsedEtagsClean(t, Body(t, ps));
      assert forall i :: 0 <= i < |ps| ==> Clean(t, ps[i].etag);
      QuotesClean(t);
      assert forall i :: 0 <= i < |ps| ==> Clean(t, Shown(ps[i]));
      forall i | 0 <= i < |ps| ensures ps[i].etag != "" {
        assert Reread(ps)[i].etag == Shown(ps[i]);
      }
    }
  }

  lemma QuotesClean(t: Tags)
    requires Separated(t)
    ensures Clean(t, "\"\"")
  {
    hide Find, Contains, Differs;
    PlainFree("\"\"", t.endEtag);
    PlainFree("\"\"", t.endPart);
  }

  // ---------- documents that were not printed by the client ----------

  /** A block is taken for what is in it, and the cursor ends behind it. */
  lemma AnyBlock(t: Tags, text: string, rest: string)
    requires Separated(t) && !Contains(text, t.endPart)
    ensures ParseParts(t, t.part + (text + (t.endPart + rest)))
         == OfBlock(t, t.part + (text + t.endPart)) + ParseParts(t, rest)
  {
    hide Find, Contains, ParseBlock, Differs;
    var s, block := t.part + (text + (t.endPart + rest)), t.part + (text + t.endPart);
    FindHere(t.part, text + (t.endPart + rest));
    assert s[0..] == s;
    SkipLiteral(t.part, text + (t.endPart + rest), t.endPart);
    SkipText(text, t.endPart + rest, t.endPart);
    FindHere(t.endPart, rest);
    assert s[..|block|] == block && s[|block|..] == rest;
    assert NextBlock(t, s) == Some((block, rest));
  }

  /** A block that lacks one of the four tags is passed over. */
  lemma IncompleteBlock(t: Tags, block: string)
    requires || !Contains(block, t.number) || !Contains(block, t.endNumber)
             || !Contains(block, t.etag) || !Contains(block, t.endEtag)
    ensures OfBlock(t, block) == []
  {
    hide Find;
    NoTagText(block, t.number, t.endNumber, 32);
    NoTagText(block, t.etag, t.endEtag, 256);
  }

  lemma NoTagText(s: string, open: string, close: string, outlen: nat)
    requires outlen >= 1
    ensures !Contains(s, open) || !Contains(s, close) ==> TagText(s, open, close, outlen) == None
  {
    hide Find;
    if Contains(s, open) && !Contains(s, close) { FoundLater(s, open, close); }
  }

  lemma FoundLater(s: string, open: string, close: string)
    requires Contains(s, open) && !Contains(s, close)
    ensures Find(s[Find(s, open).value + |open|..], close).None?
  {
    hide Find;
    var at := Find(s, open).value + |open|;
    FindIsFirst(s, close);
    FindIsFirst(s[at..], close);
    forall i | 0 <= i <= |s| - at ensures !(close <= s[at..][i..]) {
      assert s[at..][i..] == s[at + i..];
    }
  }

  /** A part that is never closed ends the parse. */
  lemma UnclosedPart(t: Tags, text: string)
    requires Separated(t) && !Contains(t.part + text, t.endPart)
    ensures ParseParts(t, t.part + text) == []
  {
    hide Find;
    FindHere(t.part, text);
    assert (t.part + text)[0..] == t.part + text;
  }

  // ---------- with the client's own tags ----------

  function XmlBody(ps: seq<Part>): string { Body(XML, ps) }

  /** The printed text of a part. */
  lemma PartPrinted(p: Part)
    ensures Item(XML, p) == "<Part><PartNumber>" + (DecInt(p.number) + ("</PartNumber><ETag>"
                            + ((if p.etag == "" then "\"\"" else p.etag) + "</ETag></Part>")))
  {
    hide DecInt;
    TagLiterals();
    var e := Shown(p) + ("</ETag>" + "</Part>");
    Glue("</PartNumber>", "<ETag>", e);
    Glue("<Part>", "<PartNumber>", DecInt(p.number) + (("</PartNumber>" + "<ETag>") + e));
  }

  lemma TagLiterals()
    ensures "<Part>" + "<PartNumber>" == "<Part><PartNumber>" && "</ETag>" + "</Part>" == "</ETag></Part>"
    ensures "</PartNumber>" + "<ETag>" == "</PartNumber><ETag>"
  {
  }

  lemma Glue(a: string, b: string, c: string)
    ensures a + (b + c) == (a + b) + c
  {
  }

  /** The printed text around and between the parts. */
  lemma BodyPrinted(ps: seq<Part>, p: Part)
    ensures XmlBody(ps) == "<CompleteMultipartUpload>" + (Items(XML, ps) + "</CompleteMultipartUpload>")
    ensures Items(XML, []) == "" && Items(XML, ps + [p]) == Items(XML, ps) + Item(XML, p)
  {
    hide Items, Item;
    ItemsNil(XML);
    ItemsSnoc(XML, ps, p);
  }

  /** `parse_parts` with the client's tags. */
  function ListedIn(body: string): seq<Part> {
    XmlSeparated();
    ParseParts(XML, body)
  }

  /** Contains neither `</ETag>` nor `</Part>`. */
  predicate CleanEtag(e: string) { Clean(XML, e) }

  /** XML round trip, with its exact condition: the parser returns the printed list, in order, if and only if every
      ETag is non-empty and contains neither closing tag. Without the first of these the parts still come back one by
      one, an empty ETag as a pair of quotes. */
  lemma RoundTrip(ps: seq<Part>)
    requires AllStored(ps)
    ensures ListedIn(XmlBody(ps)) == ps <==> forall i :: 0 <= i < |ps| ==> ps[i].etag != "" && CleanEtag(ps[i].etag)
    ensures ListedIn(XmlBody(ps)) == Reread(ps) <==> forall i :: 0 <= i < |ps| ==> CleanEtag(Shown(ps[i]))
  {
    hide ParseParts, Body, Clean, Reread, Shown, Separated, AllStored;
    XmlSeparated();
    RoundTripOf(XML, ps);
    ExactOf(XML, ps);
  }

  /** The condition is not idle: an ETag that closes itself early is read back as something else. */
  lemma RoundTripFails()
    ensures ListedIn(XmlBody([Part(1, "x</ETag>")])) != [Part(1, "x</ETag>")]
  {
    hide ListedIn, XmlBody, Find;
    var p := Part(1, "x</ETag>");
    assert p.etag == "x" + ("</ETag>" + "");
    SkipFree("x", "</ETag>" + "", "</ETag>");
    FindHere("</ETag>", "");
    RoundTrip([p]);
    assert !CleanEtag([p][0].etag);
  }

  /** In particular, ETags without `<` always survive. */
  lemma PlainIsClean(e: string)
    requires '<' !in e
    ensures CleanEtag(e)
  {
    hide Find, Contains;
    PlainFree(e, "</ETag>");
    PlainFree(e, "</Part>");
  }

  lemma PlainFree(e: string, pat: string)
    requires pat != "" && pat[0] !in e
    ensures !Contains(e, pat)
  {
    SkipFree(e, "", pat);
    assert e + "" == e;
  }

  // ---------- the parser as it runs: a cursor, a doubling array, fixed buffers ----------

  datatype RawSlot = RawSlot(number: int, etag: seq<char>, size: int)

  /** A `completed_part_t` in memory. */
  type Slot = s: RawSlot | |s.etag| == 256 witness RawSlot(0, seq(256, _ => '\0'), 0)

  function Padding(n: nat): (z: seq<char>)
    ensures |z| == n && forall i :: 0 <= i < n ==> z[i] == '\0'
  {
    seq(n, _ => '\0')
  }

  /** `strncpy(dst, src, 255)`: pads with NULs, never touches the last byte. */
  function StrNCpy255(dst: seq<char>, src: string): (r: seq<char>)
    requires |dst| == 256 && |src| <= 255
    ensures |r| == 256 && r[255] == dst[255] && r[..255] == src + Padding(255 - |src|)
  {
    src + Padding(255 - |src|) + dst[255..]
  }

  /** A slot holds a parsed part: its number, and its ETag padded over the first 255 bytes. */
  predicate Keeps(s: Slot, p: Part) {
    |p.etag| <= 255 && s.number == p.number && s.etag[..255] == p.etag + Padding(255 - |p.etag|)
  }

  /** Reading the slot as a C string gives the ETag exactly when it is shorter than 255 characters or
      the last byte, which the parser never writes, happened to be zero. */
  lemma ReadSlot(s: Slot, p: Part)
    requires Keeps(s, p) && '\0' !in p.etag
    ensures |p.etag| <= 254 || s.etag[255] == '\0' <==> CStr(s.etag) == Some(p.etag)
  {
    var tail := Padding(255 - |p.etag|) + s.etag[255..];
    assert s.etag == s.etag[..255] + s.etag[255..] == p.etag + tail;
    if |p.etag| <= 254 || s.etag[255] == '\0' {
      CStrOf(p.etag, tail);
    }
  }

  /** `realloc` to twice the size: old entries are kept, new ones are whatever memory held. */
  method Grow(a: array<Slot>) returns (b: array<Slot>)
    requires a.Length > 0
    ensures fresh(b) && b.Length == 2 * a.Length && b[..a.Length] == a[..]
  {
    b := new Slot[2 * a.Length];
    forall i | 0 <= i < a.Length { b[i] := a[i]; }
  }

  /** Stores one parsed part, growing the array first when it is full; `memory` tells whether `realloc` succeeds. */
  method Push(a: array<Slot>, count: nat, p: Part, size: Option<int>, memory: bool) returns (r: Option<array<Slot>>)
    requires 8 <= a.Length && count <= a.Length && |p.etag| <= 255
    modifies a
    ensures r.None? <==> count == a.Length && !memory
    ensures r.Some? ==> count < r.value.Length && a.Length <= r.value.Length && (r.value == a || fresh(r.value))
    ensures r.Some? ==> r.value[..count] == old(a[..count]) && Keeps(r.value[count], p)
    ensures r.Some? && count < 8 ==> r.value == a && a[count].etag[255] == old(a[count].etag[255])
                                     && a[count + 1..] == old(a[count + 1..])
  {
    var b := a;
    if count == a.Length {
      if !memory { return None; }
      b := Grow(a);
    }
    var slot := b[count];
    b[count] := RawSlot(p.number, StrNCpy255(slot.etag, p.etag), if size.Some? then size.value else slot.size);
    r := Some(b);
  }

  lemma ParseStep(t: Tags, s: string)
    requires t.endPart != ""
    ensures NextBlock(t, s).None? ==> ParseParts(t, s) == []
    ensures NextBlock(t, s).Some? ==>
              ParseParts(t, s) == OfBlock(t, NextBlock(t, s).value.0) + ParseParts(t, NextBlock(t, s).value.1)
  {
  }

  /** The last byte of the first eight slots is still the zero that `calloc` left. */
  ghost predicate Zeroed(a: array<Slot>)
    reads a
  {
    8 <= a.Length && forall i :: 0 <= i < 8 ==> a[i].etag[255] == '\0'
  }

  /** Stores what a block holds, if it holds a part; `memory` tells whether a `realloc` would succeed, and `asked`
      whether it was called. */
  method StoreBlock(t: Tags, block: string, a: array<Slot>, count: nat, memory: bool)
    returns (r: Option<array<Slot>>, stored: bool, asked: bool)
    requires count <= a.Length && Zeroed(a)
    modifies a
    ensures (stored <==> |OfBlock(t, block)| == 1) && (!stored <==> OfBlock(t, block) == [])
    ensures (asked <==> stored && count == a.Length) && (r.None? <==> asked && !memory)
    ensures r.Some? ==> count + (if stored then 1 else 0) <= r.value.Length && (r.value == a || fresh(r.value))
    ensures r.Some? ==> Zeroed(r.value) && r.value[..count] == old(a[..count])
    ensures r.Some? && stored ==> Keeps(r.value[count], OfBlock(t, block)[0])
  {
    hide Find, Atoi, Keeps, Atoll, TagText;
    var num := TagText(block, t.number, t.endNumber, 32);
    var etag := TagText(block, t.etag, t.endEtag, 256);
    if num.None? || etag.None? { return Some(a), false, false; }
    stored, asked := true, count == a.Length;
    var sizeText := TagText(block, "<Size>", "</Size>", 64);
    var size := if sizeText.Some? then Some(Atoll(sizeText.value)) else None;
    r := Push(a, count, Part(Atoi(num.value), etag.value), size, memory);
  }

  /** `parse_parts`; `memory` tells which allocations succeed, and `asked` how many were made. The call fails if and
      only if one of them does. */
  method ParsePartsInto(t: Tags, xml: string, memory: nat -> bool)
    returns (r: Option<array<Slot>>, count: nat, asked: nat)
    requires t.endPart != ""
    ensures r.None? <==> exists k :: 0 <= k < asked && !memory(k)
    ensures r.Some? ==> fresh(r.value) && count == |ParseParts(t, xml)| <= r.value.Length
    ensures r.Some? ==> forall i :: 0 <= i < count ==> Keeps(r.value[i], ParseParts(t, xml)[i])
    ensures r.Some? ==> forall i :: 0 <= i < count && i < 8 ==> r.value[i].etag[255] == '\0'
  {
    hide Find, Keeps, OfBlock, ParseParts;
    count, asked := 0, 1;
    if !memory(0) { return None, 0, 1; }
    var parts := new Slot[8](_ => RawSlot(0, Padding(256), 0));
    var p := 0;
    ghost var done: seq<Part> := [];
    assert xml[0..] == xml;
    while true
      invariant 0 <= p <= |xml| && fresh(parts) && forall k :: 0 <= k < asked ==> memory(k)
      invariant count == |done| <= parts.Length && Zeroed(parts)
      invariant ParseParts(t, xml) == done + ParseParts(t, xml[p..])
      invariant forall i :: 0 <= i < count ==> Keeps(parts[i], done[i])
      decreases |xml| - p
    {
      ghost var s := xml[p..];
      ParseStep(t, s);
      var at := Find(xml[p..], t.part);
      if at.None? { break; }
      p := p + at.value;
      assert s[at.value..] == xml[p..];
      var end := Find(xml[p..], t.endPart);
      if end.None? { break; }
      var blockLen := end.value + |t.endPart|;
      var block := xml[p..][..blockLen];
      asked := asked + 1;
      if !memory(asked - 1) { return None, 0, asked; }
      p := p + blockLen;
      assert NextBlock(t, s) == Some((block, xml[p..]));
      ghost var was := parts[..];
      var grown, stored, again := StoreBlock(t, block, parts, count, memory(asked));
      if again { asked := asked + 1; }
      if grown.None? { return None, 0, asked; }
      parts := grown.value;
      assert forall i :: 0 <= i < count ==> parts[i] == parts[..count][i] == was[i];
      done := done + OfBlock(t, block);
      if stored { count := count + 1; }
    }
    assert ParseParts(t, xml) == done;
    r := Some(parts);
  }
}
