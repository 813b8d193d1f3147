/** The C client's multipart upload: `upload_one_part_rdma`, `upload_parts_rdma` and the `all` action. */
module CMultipart {
  import opened Prelude
  import opened CompleteXml
  import opened ResourceTrace
  import opened CSession
  import opened Partition
  import opened UploadProtocol
  import opened S3Server
  import opened UploadSpec

  /** No step on the client's side fails, and the host is welcoming. */
  ghost predicate Unhindered(faults: Schedule, net: Network) { Faultless(faults) && Welcoming(net) }

  /** No step that fills the mapping always fails. */
  ghost predicate FillWorks(faults: Schedule) {
    Works(faults, SetUp(Acquiring(Mapping))) && Works(faults, SeekFile) && Works(faults, ReadFile)
  }

  /** No step towards a part request always fails, and some host accepts. */
  ghost predicate Able(faults: Schedule, net: Network) {
    FillWorks(faults) && Works(faults, SetUp(Allocating)) && SessionWorks(faults) && Accepting(net)
  }

  /** No step towards the part loop always fails. */
  ghost predicate Opens(faults: Schedule) {
    Works(faults, OpenFile) && Works(faults, StatFile) && Works(faults, AllocateList)
  }

  /** `mmap_part`: on success the mapping holds exactly the requested bytes of the file. */
  method MmapPart(w: World, data: seq<byte>) returns (ok: bool)
    requires w.Valid() && Idle(w.st) && data != []
    modifies w
    ensures w.Valid() && !w.st.window
    ensures ok ==> OnlyMapping(w.st.live) && w.st.mem == data && w.st.filled
    ensures ok ==> Rec(w.trace) == Note(Rec(old(w.trace)), Fill(data))
    ensures !ok ==> Idle(w.st) && Rec(w.trace) == Rec(old(w.trace))
    ensures (Faultless(w.faults) ==> ok) && (ok ==> FillWorks(w.faults))
  {
    hide Replay, Follow, Rec, Works, Faultless;
    var h := w.Try(Mapping, |data|);
    if h.None? { return false; }
    ok := w.Call(SeekFile);
    if ok { ok := w.Call(ReadFile); }
    if !ok {
      w.Emit(Release(Mapping, h.value));
      return;
    }
    w.Emit(Fill(data));
  }

  /** `upload_one_part_rdma`: whatever fails, nothing is left held; success means that the server has stored the
      bytes. A request is sent only if no step before it always fails, and if nothing fails on the client's side, the
      only failure is that of the request. */
  method UploadOnePart(w: World, srv: Server, id: string, pn: int, data: seq<byte>) returns (out: Option<Part>)
    requires w.Valid() && Idle(w.st) && data != [] && Rec(w.trace).pending == []
    modifies w, srv
    ensures w.Valid() && Idle(w.st) && Rec(w.trace).abandoned == old(Rec(w.trace)).abandoned
    ensures srv.status == old(srv.status) && srv.content == old(srv.content)
    ensures out.Some? ==> out.value == Part(pn, EtagOf(pn)) && Sent(old(Now(w, srv)), Now(w, srv), id, pn, data, true)
    ensures out.None? ==>
              Sent(old(Now(w, srv)), Now(w, srv), id, pn, data, false) || NotSent(old(Now(w, srv)), Now(w, srv), data)
    ensures Unhindered(w.faults, w.net) && out.None? ==> srv.log == old(srv.log) + [PutCall(pn, false)]
    ensures srv.log != old(srv.log) ==> Able(w.faults, w.net)
    ensures Unhindered(w.faults, w.net) && Willing(srv.answers) && IsActive(srv.status, id) ==> out.Some?
  {
    hide Replay, Follow, Rec, SawOnly, Willing, Works, Faultless, FillWorks, SessionWorks, Welcoming, Accepting;
    var ok := MmapPart(w, data);
    if !ok { return None; }
    var buf := w.st.live.mapping.value;
    var sess := SendSetup(w);
    if sess == null {
      w.Emit(Release(Mapping, buf));
      return None;
    }
    var etag;
    ok, etag := srv.Put(w, id, pn);
    sess.Cleanup(w);
    w.Emit(Release(Mapping, buf));
    if !ok { return None; }
    return Some(Part(pn, EtagOf(pn)));
  }

  /** The part loop of `upload_parts_rdma`, filling the `parts` array. The counter is unbounded here; in C it is an
      `int`, and a range that ends with the largest `int` makes its last increment overflow, which C leaves undefined.
      */
  method UploadLoop(w: World, srv: Server, id: string, file: seq<byte>, ps: nat, start: int, end: int)
    returns (ok: bool, out: array<Part>)
    requires w.Valid() && Idle(w.st) && IsRange(|file|, ps, start, end) && Rec(w.trace).pending == []
    modifies w, srv
    ensures w.Valid() && Idle(w.st) && fresh(out) && Rec(w.trace).abandoned == old(Rec(w.trace)).abandoned
    ensures srv.status == old(srv.status) && srv.content == old(srv.content)
    ensures Upload(old(Now(w, srv)), Now(w, srv), id, file, ps, start, end, ok)
    ensures ok ==> out[..] == PartList(start, end)
    ensures srv.log != old(srv.log) ==> Able(w.faults, w.net)
    ensures Unhindered(w.faults, w.net) && !ok ==> LastDenied(srv.log)
    ensures Unhindered(w.faults, w.net) && Willing(srv.answers) && IsActive(srv.status, id) ==> ok
  {
    hide Willing, Slice, Ceil, EtagOf, Rec, Upload, Sent, NotSent, Replay, Follow, Unhindered, Able;
    ghost var was := Now(w, srv);
    var n := Count(start, end);
    out := new Part[n](_ => Part(0, ""));
    UploadNothing(was, id, file, ps, start, end);
    var pn := start;
    while pn <= end
      invariant start <= pn <= end + 1 && w.Valid() && Idle(w.st) && fresh(out) && out.Length == n
      invariant srv.status == old(srv.status) && srv.content == old(srv.content)
      invariant Upload(was, Now(w, srv), id, file, ps, start, pn - 1, true) && Rec(w.trace).pending == []
      invariant Rec(w.trace).abandoned == was.rec.abandoned && (srv.log != was.log ==> Able(w.faults, w.net))
      invariant forall i :: 0 <= i < pn - start ==> out[i] == Part(start + i, EtagOf(start + i))
    {
      ghost var before := Now(w, srv);
      var data := SliceCAndGo(file, ps, pn);
      SliceNonEmpty(file, ps, pn);
      var part := UploadOnePart(w, srv, id, pn, data);
      UploadNext(was, before, Now(w, srv), id, file, ps, start, pn, end, part.Some?);
      if part.None? { return false, out; }
      out[pn - start] := part.value;
      pn := pn + 1;
    }
    assert out[..] == PartList(start, end);
    ok := true;
  }

  /** The file is not empty, and the `-part` option lies between 0 and the number of parts as an `int`. */
  predicate Asked(file: seq<byte>, ps: nat, part: int)
    requires ps > 0
  {
    file != [] && 0 <= part <= WrapInt32(Ceil(|file|, ps))
  }

  lemma PlanCRange(size: nat, ps: nat, part: int)
    requires ps > 0 && size > 0
    ensures var (start, end) := Bounds(PlanC(size, ps, part)); IsRange(size, ps, start, end) && end < TWO_TO_31
  {
  }

  /** `upload_parts_rdma`, for a `-part` option `part`: one outside of 0 and the number of parts is refused before
      anything is sent. If nothing fails on the client's side, any other option ends in success or behind a part request
      that was seen to fail. */
  method UploadParts(w: World, srv: Server, id: string, file: seq<byte>, ps: nat, part: int)
    returns (r: Option<seq<Part>>)
    requires w.Valid() && Idle(w.st) && ps > 0 && |file| + ps - 1 < TWO_TO_63 && Rec(w.trace).pending == []
    modifies w, srv
    ensures w.Valid() && Idle(w.st) && Rec(w.trace).abandoned == old(Rec(w.trace)).abandoned
    ensures srv.status == old(srv.status) && srv.content == old(srv.content)
    ensures var (start, end) := Bounds(PlanC(|file|, ps, part));
            && Upload(old(Now(w, srv)), Now(w, srv), id, file, ps, start, end, r.Some?)
            && (file != [] ==> IsRange(|file|, ps, start, end))
            && (r.Some? ==> r.value == PartList(start, end))
    ensures r.Some? || srv.log != old(srv.log) ==> Asked(file, ps, part) && Opens(w.faults)
    ensures srv.log != old(srv.log) ==> Able(w.faults, w.net)
    ensures Unhindered(w.faults, w.net) && Asked(file, ps, part) && r.None? ==>
              LastDenied(srv.log)
    ensures Unhindered(w.faults, w.net) && Willing(srv.answers) && IsActive(srv.status, id) && Asked(file, ps, part) ==>
              r.Some?
  {
    hide Willing, Slice, Ceil, EtagOf, WrapInt32, Rec, Upload, Replay, Follow, Works, Faultless, Able, Welcoming;
    var (start, end) := Bounds(PlanC(|file|, ps, part));
    UploadNothing(Now(w, srv), id, file, ps, start, end);
    PlanCRefuses(|file|, ps, part);
    var ok := w.Call(OpenFile);
    if !ok { return None; }
    ok := w.Call(StatFile);
    if !ok || file == [] { return None; }
    if PlanC(|file|, ps, part).Refused? { return None; }
    ok := w.Call(AllocateList);
    if !ok { return None; }
    var out;
    ok, out := UploadLoop(w, srv, id, file, ps, start, end);
    if !ok { return None; }
    return Some(out[..]);
  }

  /** Uploading every part on its own, with `-part 1`, `-part 2`, ... until one fails, does what one call for all
      parts does: the same slices are read and stored in the same order by the same requests, and if a call fails, it
      has failed as that call may fail. */
  method UploadOneByOne(w: World, srv: Server, id: string, file: seq<byte>, ps: nat) returns (ok: bool)
    requires w.Valid() && Idle(w.st) && Rec(w.trace).pending == []
    requires file != [] && ps > 0 && |file| + ps - 1 < TWO_TO_63 && Ceil(|file|, ps) < TWO_TO_31
    modifies w, srv
    ensures w.Valid() && Idle(w.st)
    ensures Bounds(PlanC(|file|, ps, 0)) == (1, Ceil(|file|, ps))
    ensures Upload(old(Now(w, srv)), Now(w, srv), id, file, ps, 1, Ceil(|file|, ps), ok)
    ensures Unhindered(w.faults, w.net) && !ok ==> LastDenied(srv.log)
    ensures Unhindered(w.faults, w.net) && Willing(srv.answers) && IsActive(old(srv.status), id) ==> ok
  {
    hide Willing, Slice, Ceil, EtagOf, PlanC, Rec, Upload, Replay, Follow, Unhindered, Able, Works;
    var n := Ceil(|file|, ps);
    ghost var was := Now(w, srv);
    PlanCIsWhole(|file|, ps, 0);
    CeilBounds(|file|, ps);
    UploadNothing(was, id, file, ps, 1, n);
    var k := 1;
    while k <= n
      invariant 1 <= k <= n + 1 && w.Valid() && Idle(w.st) && Rec(w.trace).pending == []
      invariant Upload(was, Now(w, srv), id, file, ps, 1, k - 1, true) && srv.status == old(srv.status)
    {
      ghost var before := Now(w, srv);
      PlanCPart(|file|, ps, k);
      var r := UploadParts(w, srv, id, file, ps, k);
      UploadMore(was, before, Now(w, srv), id, file, ps, 1, k, n, r.Some?);
      if r.None? { return false; }
      UploadGrows(was, Now(w, srv), id, file, ps, 1, k, true);
      k := k + 1;
    }
    ok := true;
  }

  /** What `char upload_id[256]` holds of an id. */
  function Held(id: string): string { if |id| < 256 then id else id[..255] }

  /** The `all` action. In every run nothing stays held, every delivered token is followed by its part request, the
      requests form one of the lawful histories and are those of the trace, for each part the server has read nothing
      but that part's slice, and an exit code of 0 means that the stored object is the concatenation of the planned
      slices: the file itself if and only if all parts were asked for and their number fits an `int`, or the file is a
      single part and that one was asked for. All requests are for the upload that was created, and no other upload
      changes. A `-part` option outside of 0 and the number of parts sends no part and no complete; with any other, a
      run that meets no failure on the client's side fails only behind a request that was seen to fail. `memory` tells
      whether the complete body can be allocated. */
  method All(w: World, srv: Server, file: seq<byte>, ps: nat, part: int, memory: bool) returns (exit: int)
    requires w.Valid() && Idle(w.st) && ps > 0 && |file| + ps - 1 < TWO_TO_63 && Rec(w.trace).pending == []
    modifies w, srv
    ensures w.Valid() && Idle(w.st) && Rec(w.trace).abandoned == old(Rec(w.trace)).abandoned
    ensures old(srv.log) < srv.log
    ensures var (start, end) := Bounds(PlanC(|file|, ps, part));
            && Carried(old(Now(w, srv)), Now(w, srv), file, ps, start, end)
            && RunC(srv.log[|old(srv.log)|..], start, end, memory)
            && (file != [] ==> IsRange(|file|, ps, start, end))
            && (exit == 0 ==> file != [] && srv.content == Some(Flatten(Slices(file, ps, start, end))))
            && (Completes(srv.log[|old(srv.log)|..]) ==> srv.listed == PartList(start, end))
    ensures exit == 0 ==> (srv.content == Some(file)
              <==> (part == 0 && Ceil(|file|, ps) < TWO_TO_31) || (part == 1 && Ceil(|file|, ps) == 1))
    ensures exit == 0 <==> srv.log[|srv.log| - 1] == CompleteCall(true)
    ensures Settled(old(BookOf(srv)), BookOf(srv), srv.log[|old(srv.log)|..])
    ensures Sends(srv.log[|old(srv.log)|..]) ==> Able(w.faults, w.net)
    ensures Sends(srv.log[|old(srv.log)|..]) || Completes(srv.log[|old(srv.log)|..]) ==>
              Asked(file, ps, part) && Opens(w.faults)
    ensures Unhindered(w.faults, w.net) && memory && Asked(file, ps, part) && exit != 0 ==>
              srv.log[|old(srv.log)|] == CreateCall(false) || EndsDenied(srv.log)
    ensures Unhindered(w.faults, w.net) && memory && Asked(file, ps, part)
            && Willing(srv.answers) && srv.answers(|old(srv.log)|).name !in old(srv.status) ==>
              exit == 0
  {
    hide Willing, Slice, Slices, Ceil, EtagOf, WrapInt32, Rec, Upload, Carried, StoredAs, PartList, Replay, Follow,
         Unhindered, Able, Opens, RunC, Settled, Handled, Sends, Completes, Asked, EndsDenied, Tail, Foreign;
    ghost var was, book := Now(w, srv), BookOf(srv);
    ghost var (start, end) := Bounds(PlanC(|file|, ps, part));
    if file != [] { EndToEnd(file, ps, part); }
    var id := srv.Create();
    ghost var created := Now(w, srv);
    if id.None? {
      CarriedNothing(was, created, [CreateCall(false)], file, ps, start, end);
      SettledNothing(book, BookOf(srv));
      NotCreated(start, end);
      return 1;
    }
    ghost var sent, tail;
    exit, sent, tail := Guarded(w, srv, Held(id.value), file, ps, part, memory);
    WholeHistory(was, book, created, sent, Now(w, srv), srv.status, tail, id.value, file, ps, start, end, memory,
                 exit == 0);
  }

  /** Create, the part requests and what follows them, all for one upload, are one of the histories. */
  lemma WholeHistory(was: Snap, book: Book, created: Snap, sent: Snap, now: Snap, status: StatusMap, tail: seq<Call>,
                     id: string, file: seq<byte>, ps: nat, start: int, end: int, memory: bool, ok: bool)
    requires created == was.(log := was.log + [CreateCall(true)]) && now == sent.(log := sent.log + tail)
    requires Upload(created, sent, id, file, ps, start, end, Unaborted(tail)) && Tail(tail, memory, ok)
    requires id !in book.status && book.parts == was.parts
    requires Handled(book.status[id := Active], status, id, tail)
    ensures was.log < now.log && now.log[|was.log|] == CreateCall(true)
    ensures Carried(was, now, file, ps, start, end) && Settled(book, Book(status, now.parts), now.log[|was.log|..])
    ensures RunC(now.log[|was.log|..], start, end, memory) && (ok <==> now.log[|now.log| - 1] == CompleteCall(true))
    ensures Completes(now.log[|was.log|..]) <==> tail != [] && tail[0].CompleteCall?
    ensures Sends(now.log[|was.log|..]) <==> sent.log != created.log
  {
    hide Upload, Carried, Settled, Handled, RunC, Completes, Sends, Foreign, Moved, Uploaded;
    var up := Unaborted(tail);
    UploadGrows(created, sent, id, file, ps, start, end, up);
    UploadKeepsOthers(created, sent, id, file, ps, start, end, up);
    UploadMoves(created, sent, id, file, ps, start, end, up);
    var puts := sent.log[|created.log|..];
    CarriedBy(was, created, sent, now, tail, id, file, ps, start, end);
    SettledBy(book, book.status[id := Active], Book(status, now.parts), id, puts, tail);
    EndedRun(now.log[|was.log|..], puts, tail, start, end, memory, ok);
  }

  predicate Unaborted(tail: seq<Call>) { tail == [] || !tail[0].AbortCall? }

  /** What follows the part requests: one abort behind an upload call that failed, one complete behind one that
      succeeded, if there is memory for its body. */
  predicate Tail(tail: seq<Call>, memory: bool, ok: bool) {
    if !Unaborted(tail) then |tail| == 1 && !ok
    else tail == (if memory then [CompleteCall(ok)] else []) && (ok ==> memory)
  }

  /** The `all` action behind a successful create. */
  method Guarded(w: World, srv: Server, id: string, file: seq<byte>, ps: nat, part: int, memory: bool)
    returns (exit: int, ghost sent: Snap, ghost tail: seq<Call>)
    requires w.Valid() && Idle(w.st) && ps > 0 && |file| + ps - 1 < TWO_TO_63 && Rec(w.trace).pending == []
    modifies w, srv
    ensures w.Valid() && Idle(w.st) && Rec(w.trace).abandoned == old(Rec(w.trace)).abandoned
    ensures var (start, end) := Bounds(PlanC(|file|, ps, part));
            && Upload(old(Now(w, srv)), sent, id, file, ps, start, end, Unaborted(tail))
            && (exit == 0 ==> IsRange(|file|, ps, start, end)
                              && srv.content == Some(Flatten(Slices(file, ps, start, end))))
            && (tail != [] && tail[0].CompleteCall? ==> srv.listed == PartList(start, end))
    ensures Now(w, srv) == sent.(log := sent.log + tail) && Tail(tail, memory, exit == 0)
    ensures Handled(old(srv.status), srv.status, id, tail)
    ensures Unaborted(tail) || sent.log != old(srv.log) ==> Asked(file, ps, part) && Opens(w.faults)
    ensures sent.log != old(srv.log) ==> Able(w.faults, w.net)
    ensures Unhindered(w.faults, w.net) && memory && Asked(file, ps, part) && exit != 0 ==> EndsDenied(srv.log)
    ensures Unhindered(w.faults, w.net) && memory && Asked(file, ps, part)
            && Willing(srv.answers) && IsActive(old(srv.status), id) ==>
              exit == 0
  {
    hide Willing, Slice, Slices, Ceil, EtagOf, WrapInt32, Rec, Moved, Uploaded, StoredAs, PartList, Replay, Follow,
         Unhindered, Able, Opens, Handled, Asked;
    ghost var (start, end) := Bounds(PlanC(|file|, ps, part));
    ghost var status := srv.status;
    var r := UploadParts(w, srv, id, file, ps, part);
    sent := Now(w, srv);
    if r.None? {
      var aborted := srv.Abort(id);
      HandledBy(status, srv.status, id, aborted);
      DeniedThen(sent.log, AbortCall(aborted));
      return 1, sent, [AbortCall(aborted)];
    }
    AskedIs(file, ps, part);
    var ok := Finish(srv, id, r.value, memory, file, ps, start, end);
    exit, tail := if ok then 0 else 1, if memory then [CompleteCall(ok)] else [];
  }

  lemma AskedIs(file: seq<byte>, ps: nat, part: int)
    requires ps > 0
    ensures Asked(file, ps, part) <==> file != [] && PlanC(|file|, ps, part).Range?
  {
    PlanCRefuses(|file|, ps, part);
  }

  /** The end of the `all` action behind a successful upload call: `s3_complete_multipart`, which is not reached by any
      request if there is no memory for its body. */
  method Finish(srv: Server, id: string, list: seq<Part>, memory: bool,
                ghost file: seq<byte>, ghost ps: nat, ghost start: int, ghost end: int) returns (ok: bool)
    requires IsRange(|file|, ps, start, end) && StoredAs(srv.parts, id, file, ps, start, end) && end < TWO_TO_31
    requires list == PartList(start, end)
    modifies srv
    ensures srv.log == old(srv.log) + (if memory then [CompleteCall(ok)] else []) && srv.parts == old(srv.parts)
    ensures ok ==> memory && srv.content == Some(Flatten(Slices(file, ps, start, end)))
    ensures memory ==> srv.listed == PartList(start, end)
    ensures Handled(old(srv.status), srv.status, id, if memory then [CompleteCall(ok)] else [])
    ensures memory && Willing(srv.answers) && IsActive(old(srv.status), id) ==> ok
  {
    hide Willing, Slice, Slices, Ceil, StoredAs, ListedIn, XmlBody, PartList, EtagOf, Present, Pieces, Handled;
    ghost var status := srv.status;
    HandledBy(status, status, id, false);
    if !memory { return false; }
    BodyLists(start, end);
    var body := PrintBody(list);
    ok := srv.Complete(id, body);
    HandledBy(status, srv.status, id, ok);
    Assembled(srv.parts, id, file, ps, start, end);
  }

  /** Create, the part requests and what follows them are one of the histories. */
  lemma EndedRun(calls: seq<Call>, puts: seq<Call>, tail: seq<Call>, start: int, end: int, memory: bool, ok: bool)
    requires calls == [CreateCall(true)] + puts + tail && Tail(tail, memory, ok)
    requires Uploaded(puts, start, end, Unaborted(tail))
    ensures RunC(calls, start, end, memory) && (ok <==> calls[|calls| - 1] == CompleteCall(true))
    ensures (Completes(calls) <==> tail != [] && tail[0].CompleteCall?) && (Sends(calls) <==> puts != [])
    ensures calls[0] == CreateCall(true)
  {
    UploadedIsCut(puts, start, end, Unaborted(tail));
    CutIsPuts(puts, start, end);
    if !Unaborted(tail) {
      assert tail == [AbortCall(tail[0].ok)];
    } else if tail == [] {
      assert calls == [CreateCall(true)] + OkPuts(start, Count(start, end));
    } else {
      assert calls[1 + |puts|] == tail[0];
    }
    if puts != [] { assert calls[1] == puts[0]; }
  }

  /** The complete body, read out of its buffer as a C string. */
  method PrintBody(ps: seq<Part>) returns (body: string)
    requires AllStored(ps)
    ensures body == XmlBody(ps)
  {
    hide Body, AllStored, Separated;
    XmlSeparated();
    var buf, len := CompleteBody(XML, ps);
    body := buf[..len];
  }

  /** End to end, with the exact condition: the planned slices are the file, byte for byte, if and only if all parts
      were asked for and their number fits an `int`, or the file is a single part and that one was asked for. */
  lemma EndToEnd(file: seq<byte>, ps: nat, part: int)
    requires file != [] && ps > 0
    ensures var (start, end) := Bounds(PlanC(|file|, ps, part));
            && IsRange(|file|, ps, start, end)
            && (Flatten(Slices(file, ps, start, end)) == file
                <==> (part == 0 && Ceil(|file|, ps) < TWO_TO_31) || (part == 1 && Ceil(|file|, ps) == 1))
  {
    hide Slices, Ceil;
    var (start, end) := Bounds(PlanC(|file|, ps, part));
    PlanCRange(|file|, ps, part);
    WholeFile(file, ps, start, end);
    PlanCIsWhole(|file|, ps, part);
  }

  /** The condition is not idle: asking for part 1 of a two-part file stores half of it, and the run reports success. */
  lemma HalfAFile()
    ensures PlanC(2, 1, 1).Range?
    ensures var (start, end) := Bounds(PlanC(2, 1, 1));
            IsRange(2, 1, start, end) && Flatten(Slices([7, 8], 1, start, end)) != [7, 8]
  {
    EndToEnd([7, 8], 1, 1);
  }
}
