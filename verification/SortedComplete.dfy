/** `complete_multipart` and `completeMultipart` of the Python and Java clients: sort the parts, print them, post the
    list. */
module SortedComplete {
  import opened Prelude
  import CStrings
  import opened CompleteXml
  import opened UploadProtocol
  import opened S3Server
  import opened Partition
  import opened UploadSpec

  // ---------- sorting by part number ----------

  function Insert(p: Part, ps: seq<Part>): seq<Part> {
    if ps == [] || p.number <= ps[0].number then [p] + ps else [ps[0]] + Insert(p, ps[1..])
  }

  /** A stable sort by part number, as `sorted(key=...)` and `List.sort` are. */
  function Sort(ps: seq<Part>): seq<Part> {
    if ps == [] then [] else Insert(ps[0], Sort(ps[1..]))
  }

  predicate Ascending(ps: seq<Part>) {
    forall i, j :: 0 <= i < j < |ps| ==> ps[i].number <= ps[j].number
  }

  /** `x` is no greater than any number in the list. */
  predicate Least(x: int, ps: seq<Part>) {
    forall i :: 0 <= i < |ps| ==> x <= ps[i].number
  }

  lemma AscendingCons(p: Part, ps: seq<Part>)
    ensures Ascending([p] + ps) <==> Ascending(ps) && Least(p.number, ps)
  {
    var r := [p] + ps;
    assert forall i :: 0 <= i < |ps| ==> r[i + 1] == ps[i];
    if Ascending(r) {
      forall i | 0 <= i < |ps| ensures p.number <= ps[i].number { assert r[0].number <= r[i + 1].number; }
      forall i, j | 0 <= i < j < |ps| ensures ps[i].number <= ps[j].number {
        assert r[i + 1].number <= r[j + 1].number;
      }
    }
  }

  lemma {:induction false} InsertSorts(p: Part, ps: seq<Part>)
    requires Ascending(ps)
    ensures Ascending(Insert(p, ps)) && multiset(Insert(p, ps)) == multiset{p} + multiset(ps)
    ensures forall x :: Least(x, ps) && x <= p.number ==> Least(x, Insert(p, ps))
  {
    hide Ascending;
    if ps == [] {
      AscendingCons(p, []);
      NoneAscending();
    } else {
      assert ps == [ps[0]] + ps[1..];
      AscendingCons(ps[0], ps[1..]);
      if p.number <= ps[0].number {
        AscendingCons(p, ps);
      } else {
        InsertSorts(p, ps[1..]);
        AscendingCons(ps[0], Insert(p, ps[1..]));
        forall x | Least(x, ps) && x <= p.number ensures Least(x, Insert(p, ps)) {
          assert Least(x, ps[1..]);
        }
      }
    }
  }

  lemma NoneAscending()
    ensures Ascending([])
  {
  }

  /** It is a sort, ... */
  lemma {:induction false} SortSorts(ps: seq<Part>)
    ensures Ascending(Sort(ps)) && multiset(Sort(ps)) == multiset(ps)
  {
    hide Insert;
    if ps != [] {
      SortSorts(ps[1..]);
      InsertSorts(ps[0], Sort(ps[1..]));
      assert ps == [ps[0]] + ps[1..];
    }
  }

  /** ... and it leaves a list that is in order alone. */
  lemma {:induction false} SortKeeps(ps: seq<Part>)
    requires Ascending(ps)
    ensures Sort(ps) == ps
  {
    if ps != [] {
      SortKeeps(ps[1..]);
      assert ps == [ps[0]] + ps[1..];
    }
  }

  /** The parts of one number, in order. */
  function WithNumber(ps: seq<Part>, n: int): seq<Part> {
    if ps == [] then [] else (if ps[0].number == n then [ps[0]] else []) + WithNumber(ps[1..], n)
  }

  lemma {:induction false} InsertStable(p: Part, ps: seq<Part>, n: int)
    ensures WithNumber(Insert(p, ps), n) == WithNumber([p] + ps, n)
  {
    assert ([p] + ps)[1..] == ps;
    if ps != [] && p.number > ps[0].number {
      InsertStable(p, ps[1..], n);
      assert ([p] + ps[1..])[1..] == ps[1..];
      assert Insert(p, ps)[1..] == Insert(p, ps[1..]);
    }
  }

  /** Parts of the same number keep their order. */
  lemma {:induction false} SortStable(ps: seq<Part>, n: int)
    ensures WithNumber(Sort(ps), n) == WithNumber(ps, n)
  {
    hide Insert;
    if ps != [] {
      SortStable(ps[1..], n);
      InsertStable(ps[0], Sort(ps[1..]), n);
      assert ([ps[0]] + Sort(ps[1..]))[1..] == Sort(ps[1..]);
    }
  }

  /** The list a run has collected is sent as it is. */
  lemma SortNeedless(start: int, end: int)
    ensures Sort(PartList(start, end)) == PartList(start, end)
  {
    SortKeeps(PartList(start, end));
  }

  // ---------- printing ----------

  /** A part as Python and Java print it: an empty ETag stays empty. */
  function PlainItem(p: Part): string {
    XML.part + (XML.number + (CStrings.DecInt(p.number)
      + (XML.endNumber + (XML.etag + (p.etag + (XML.endEtag + XML.endPart))))))
  }

  function PlainItems(ps: seq<Part>): string {
    if ps == [] then "" else PlainItems(ps[..|ps| - 1]) + PlainItem(ps[|ps| - 1])
  }

  function PlainBody(ps: seq<Part>): string {
    XML.upload + (PlainItems(ps) + XML.endUpload)
  }

  /** The printed text. */
  lemma PlainPrinted(p: Part, ps: seq<Part>)
    ensures PlainItem(p) == "<Part><PartNumber>" + (CStrings.DecInt(p.number) + ("</PartNumber><ETag>"
                            + (p.etag + "</ETag></Part>")))
    ensures PlainBody(ps) == "<CompleteMultipartUpload>" + (PlainItems(ps) + "</CompleteMultipartUpload>")
    ensures PlainItems([]) == "" && PlainItems(ps + [p]) == PlainItems(ps) + PlainItem(p)
  {
    assert (ps + [p])[..|ps|] == ps;
    PlainItemPrinted(p);
  }

  lemma PlainItemPrinted(p: Part)
    ensures PlainItem(p) == "<Part><PartNumber>" + (CStrings.DecInt(p.number) + ("</PartNumber><ETag>"
                            + (p.etag + "</ETag></Part>")))
  {
    hide CStrings.DecInt;
    TagLiterals();
    var e := p.etag + ("</ETag>" + "</Part>");
    Glue("</PartNumber>", "<ETag>", e);
    Glue("<Part>", "<PartNumber>", CStrings.DecInt(p.number) + (("</PartNumber>" + "<ETag>") + e));
  }

  lemma PlainItemIs(p: Part)
    ensures p.etag != "" ==> PlainItem(p) == Item(XML, p)
    ensures p.etag == "" ==> |PlainItem(p)| < |Item(XML, p)|
  {
  }

  lemma {:induction false} PlainItemsAre(ps: seq<Part>)
    ensures |PlainItems(ps)| <= |Items(XML, ps)|
    ensures PlainItems(ps) == Items(XML, ps) <==> forall i :: 0 <= i < |ps| ==> ps[i].etag != ""
    ensures (exists i :: 0 <= i < |ps| && ps[i].etag == "") ==> |PlainItems(ps)| < |Items(XML, ps)|
  {
    hide PlainItem, Item;
    if ps == [] {
      ItemsNil(XML);
    } else {
      var front, p := ps[..|ps| - 1], ps[|ps| - 1];
      PlainItemsAre(front);
      PlainItemIs(p);
      ItemsSnoc(XML, front, p);
      assert front + [p] == ps;
      assert forall i :: 0 <= i < |front| ==> ps[i] == front[i];
    }
  }

  /** The body is the C client's if and only if no ETag is empty. */
  lemma PlainIsXml(ps: seq<Part>)
    ensures PlainBody(ps) == XmlBody(ps) <==> forall i :: 0 <= i < |ps| ==> ps[i].etag != ""
  {
    hide PlainItems, Items;
    PlainItemsAre(ps);
    var a, b := PlainItems(ps), Items(XML, ps);
    if PlainBody(ps) == XmlBody(ps) {
      assert |XML.upload + (a + XML.endUpload)| == |XML.upload + (b + XML.endUpload)|;
      assert |a| == |b|;
    }
  }

  /** The loop that builds the body. */
  method PrintSorted(parts: seq<Part>) returns (body: string)
    ensures body == PlainBody(Sort(parts))
  {
    hide Sort, PlainItem;
    var sorted := Sort(parts);
    body := XML.upload;
    var i := 0;
    while i < |sorted|
      invariant 0 <= i <= |sorted| && body == XML.upload + PlainItems(sorted[..i])
    {
      assert sorted[..i + 1][..i] == sorted[..i];
      body := body + PlainItem(sorted[i]);
      i := i + 1;
      assert body == XML.upload + PlainItems(sorted[..i]);
    }
    assert sorted[..i] == sorted;
    body := body + XML.endUpload;
  }

  /** Sort, print, post. */
  method CompleteSorted(srv: Server, id: string, parts: seq<Part>) returns (ok: bool)
    modifies srv
    ensures srv.log == old(srv.log) + [CompleteCall(ok)] && srv.parts == old(srv.parts)
    ensures srv.listed == ListedIn(PlainBody(Sort(parts))) && Ends(old(srv.status), srv.status, id, Completed, ok)
    ensures ok ==> Present(srv.parts, id, srv.listed)
                   && srv.content == Some(Flatten(Pieces(srv.parts, id, srv.listed)))
    ensures Willing(srv.answers) && IsActive(old(srv.status), id) && Present(srv.parts, id, srv.listed) ==> ok
  {
    hide Willing, ListedIn, PlainBody, Sort;
    var body := PrintSorted(parts);
    ok := srv.Complete(id, body);
  }

  /** The body of a run lists exactly its parts, in order. */
  lemma SortedBodyLists(start: int, end: int)
    requires 1 <= start && end < TWO_TO_31
    ensures ListedIn(PlainBody(Sort(PartList(start, end)))) == PartList(start, end)
  {
    hide ListedIn, PlainBody, XmlBody, Sort, EtagOf;
    SortNeedless(start, end);
    var ps := PartList(start, end);
    forall i | 0 <= i < |ps| ensures ps[i].etag != "" { EtagFits(start + i); }
    PlainIsXml(ps);
    BodyLists(start, end);
  }

  /** The complete request for a range whose slices are stored: the object becomes their concatenation. Part numbers
      beyond 2^31 are not read back from the body. */
  method CompleteRange(srv: Server, id: string, list: seq<Part>,
                       ghost file: seq<byte>, ghost ps: nat, ghost start: int, ghost end: int) returns (ok: bool)
    requires IsRange(|file|, ps, start, end) && StoredAs(srv.parts, id, file, ps, start, end)
    requires list == PartList(start, end)
    modifies srv
    ensures srv.log == old(srv.log) + [CompleteCall(ok)] && srv.parts == old(srv.parts)
    ensures ok && end < TWO_TO_31 ==> srv.content == Some(Flatten(Slices(file, ps, start, end)))
    ensures end < TWO_TO_31 ==> srv.listed == PartList(start, end)
    ensures Ends(old(srv.status), srv.status, id, Completed, ok)
    ensures end < TWO_TO_31 && Willing(srv.answers) && IsActive(old(srv.status), id) ==> ok
  {
    hide Willing, Slice, Slices, Ceil, StoredAs, ListedIn, PlainBody, PartList, EtagOf, Sort, Present, Pieces, Ends;
    ok := CompleteSorted(srv, id, list);
    if end < TWO_TO_31 {
      SortedBodyLists(start, end);
      Assembled(srv.parts, id, file, ps, start, end);
    }
  }
}
