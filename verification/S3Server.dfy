/** The server as the clients see it: upload status and stored parts (the `multipart_uploads` and `parts` tables). Two
    things are assumed of it: that a successful part request has stored the bytes it read from client memory, and that
    a successful complete has concatenated the stored parts in the order in which its body lists them. Any request may
    fail, and a request that the client sees fail may still have taken effect. */
module S3Server {
  import opened Prelude
  import CStrings
  import opened CompleteXml
  import opened ResourceTrace
  import opened UploadProtocol

  datatype Status = Active | Completed | Aborted

  type PartMap = map<(string, int), seq<byte>>

  /** All listed parts are stored. */
  predicate Present(parts: PartMap, id: string, listed: seq<Part>) {
    forall i :: 0 <= i < |listed| ==> (id, listed[i].number) in parts
  }

  /** The stored parts in the order listed. */
  function Pieces(parts: PartMap, id: string, listed: seq<Part>): seq<seq<byte>>
    requires Present(parts, id, listed)
  {
    seq(|listed|, i requires 0 <= i < |listed| => parts[(id, listed[i].number)])
  }

  type StatusMap = map<string, Status>

  /** A request to end an upload: it moves that one, if it was active, to `to`, or does nothing and is seen to fail. */
  predicate Ends(before: StatusMap, now: StatusMap, id: string, to: Status, ok: bool) {
    || (!ok && now == before)
    || (IsActive(before, id) && now == before[id := to])
  }

  /** How the server answers a request: whether it does what is asked, whether its answer reaches the client, how often
      it reads client memory, and the id or ETag that it gives out. */
  datatype Answer = Answer(takes: bool, replies: bool, fetches: nat, name: string, etag: string)

  /** The answer to the n-th request. */
  type Answers = nat -> Answer

  /** The server does whatever is asked and says so. */
  ghost predicate Willing(answers: Answers) {
    forall n :: answers(n).takes && answers(n).replies && answers(n).fetches > 0 && |answers(n).name| <= 128
  }

  predicate IsActive(status: StatusMap, id: string) { id in status && status[id] == Active }

  /** `tags` are the ETags the server has answered with, and `listed` the list of the last complete request. */
  class Server {
    const answers: Answers
    var status: StatusMap
    var parts: PartMap
    var tags: map<(string, int), string>
    var content: Option<seq<byte>>
    var listed: seq<Part>
    var log: seq<Call>

    constructor (answers: Answers)
      ensures status == map[] && parts == map[] && content == None && listed == [] && log == []
      ensures this.answers == answers
    {
      this.answers := answers;
      status, parts, tags, content, listed, log := map[], map[], map[], None, [], [];
    }

    /** CreateMultipartUpload: a new upload under an unused id, which is at most 128 characters long. A request that the
        client sees fail may have left an upload behind. */
    method Create() returns (id: Option<string>)
      modifies this
      ensures log == old(log) + [CreateCall(id.Some?)] && content == old(content) && parts == old(parts)
      ensures listed == old(listed)
      ensures id.None? ==>
                status == old(status) || exists name :: name !in old(status) && status == old(status)[name := Active]
      ensures id.Some? ==> id.value !in old(status) && status == old(status)[id.value := Active] && |id.value| <= 128
      ensures Willing(answers) && answers(|old(log)|).name !in old(status) ==> id.Some?
    {
      var a := answers(|log|);
      id := None;
      if a.takes && a.name !in status && |a.name| <= 128 {
        status := status[a.name := Active];
        if a.replies { id := Some(a.name); }
      }
      log := log + [CreateCall(id.Some?)];
    }

    /** UploadPart with an RDMA request id: the server reads the announced memory, any number of times, while the
        request is pending. */
    method Put(w: World, id: string, pn: int) returns (ok: bool, etag: string)
      requires w.Valid() && w.st.window && Rec(w.trace).pending == []
      modifies this, w
      ensures w.Valid() && w.st == old(w.st).(window := false)
      ensures Answered(old(Rec(w.trace)), Rec(w.trace), pn, ok, old(w.st.mem))
      ensures log == old(log) + [PutCall(pn, ok)] && status == old(status) && content == old(content)
      ensures listed == old(listed)
      ensures ok ==> parts == old(parts)[(id, pn) := old(w.st.mem)] && tags == old(tags)[(id, pn) := etag]
      ensures !ok ==> parts == old(parts) || parts == old(parts)[(id, pn) := old(w.st.mem)]
      ensures Willing(answers) && IsActive(status, id) ==> ok
    {
      hide Replay, Follow, Rec;
      ghost var before := Rec(w.trace);
      var a := answers(|log|);
      var i := 0;
      while i < a.fetches
        invariant 0 <= i <= a.fetches && w.Valid() && w.st == old(w.st)
        invariant Rec(w.trace) == before.(pending := Rec(w.trace).pending) && |Rec(w.trace).pending| == i
        invariant forall x :: x in Rec(w.trace).pending ==> x == w.st.mem
        modifies w
      {
        w.Emit(RemoteRead(w.st.mem));
        i := i + 1;
      }
      ok, etag := false, a.etag;
      if i > 0 && a.takes && IsActive(status, id) {
        parts, tags := parts[(id, pn) := w.st.mem], tags[(id, pn) := etag];
        ok := a.replies;
      }
      ghost var read := Rec(w.trace).pending;
      w.Emit(PutDone(pn, ok));
      assert Rec(w.trace).puts == before.puts + [ResourceTrace.Put(pn, ok, read)];
      log := log + [PutCall(pn, ok)];
    }

    /** CompleteMultipartUpload: the object is the stored parts in the order listed. No other upload is touched. */
    method CompleteListed(id: string, list: seq<Part>) returns (ok: bool)
      modifies this
      ensures log == old(log) + [CompleteCall(ok)] && parts == old(parts) && tags == old(tags) && listed == list
      ensures ok ==> Present(parts, id, list) && content == Some(Flatten(Pieces(parts, id, list)))
      ensures Ends(old(status), status, id, Completed, ok)
      ensures status == old(status) ==> content == old(content)
      ensures Willing(answers) && IsActive(old(status), id) && Present(parts, id, list) ==> ok
    {
      var a := answers(|log|);
      ok := false;
      if a.takes && IsActive(status, id) && Present(parts, id, list) {
        content := Some(Flatten(Pieces(parts, id, list)));
        status := status[id := Completed];
        ok := a.replies;
      }
      listed := list;
      log := log + [CompleteCall(ok)];
    }

    /** The same request with the list printed as an XML body. */
    method Complete(id: string, body: string) returns (ok: bool)
      modifies this
      ensures log == old(log) + [CompleteCall(ok)] && parts == old(parts) && listed == ListedIn(body)
      ensures ok ==> Present(parts, id, ListedIn(body)) && content == Some(Flatten(Pieces(parts, id, ListedIn(body))))
      ensures Ends(old(status), status, id, Completed, ok)
      ensures Willing(answers) && IsActive(old(status), id) && Present(parts, id, ListedIn(body)) ==> ok
    {
      hide ListedIn, Willing;
      ok := CompleteListed(id, ListedIn(body));
    }

    /** AbortMultipartUpload: no other upload is touched, and no part. */
    method Abort(id: string) returns (ok: bool)
      modifies this
      ensures log == old(log) + [AbortCall(ok)] && listed == old(listed)
      ensures content == old(content) && parts == old(parts)
      ensures Ends(old(status), status, id, Aborted, ok)
      ensures Willing(answers) && IsActive(old(status), id) ==> ok
    {
      var a := answers(|log|);
      ok := false;
      if a.takes && IsActive(status, id) {
        status := status[id := Aborted];
        ok := a.replies;
      }
      log := log + [AbortCall(ok)];
    }
  }

  // ---------- what a completed list assembles to ----------

  /** The ETag the C, Python and Java clients make up: `"part-N"`, quotes included. */
  function EtagOf(pn: int): string { "\"part-" + (CStrings.DecInt(pn) + "\"") }

  /** The list of completed parts `start..end`. */
  function PartList(start: int, end: int): (r: seq<Part>)
    ensures |r| == Count(start, end)
  {
    seq(Count(start, end), i => Part(start + i, EtagOf(start + i)))
  }

  lemma EtagFits(pn: int)
    requires -TWO_TO_31 <= pn < TWO_TO_31
    ensures Stored(Part(pn, EtagOf(pn))) && '<' !in EtagOf(pn) && EtagOf(pn) != ""
  {
    CStrings.DecIntLength(pn);
    DigitsOnly(pn);
  }

  lemma DigitsOnly(x: int)
    ensures '\0' !in CStrings.DecInt(x)
  {
  }

  /** The complete body of a run over `start..end` lists exactly those parts, in order. */
  lemma BodyLists(start: int, end: int)
    requires 1 <= start && end < TWO_TO_31
    ensures AllStored(PartList(start, end))
    ensures ListedIn(XmlBody(PartList(start, end))) == PartList(start, end)
  {
    hide ListedIn, XmlBody, EtagOf, CleanEtag, Stored;
    var ps := PartList(start, end);
    forall i | 0 <= i < |ps| ensures Stored(ps[i]) && CleanEtag(ps[i].etag) && ps[i].etag != "" {
      EtagFits(start + i);
      PlainIsClean(ps[i].etag);
    }
    RoundTrip(ps);
  }

  /** The body for a file of one part, as it goes over the wire. */
  lemma BodyOfOne()
    ensures PartList(1, 1) == [Part(1, "\"part-1\"")]
    ensures XmlBody(PartList(1, 1)) == "<CompleteMultipartUpload>" + (("<Part><PartNumber>" + ("1"
              + ("</PartNumber><ETag>" + ("\"part-1\"" + "</ETag></Part>")))) + "</CompleteMultipartUpload>")
  {
    hide Item, Items, XmlBody;
    assert CStrings.DecInt(1) == "1";
    var p := Part(1, "\"part-1\"");
    assert EtagOf(1) == "\"part-" + ("1" + "\"") == p.etag;
    assert PartList(1, 1) == [p];
    BodyPrinted([], p);
    BodyPrinted([p], p);
    PartPrinted(p);
    assert [] + [p] == [p] && "" + Item(XML, p) == Item(XML, p);
  }
}
