/** The Python multipart upload: the part loop and the `all` action with its exception handler. */
module PythonMultipart {
  import opened Prelude
  import opened CompleteXml
  import opened ResourceTrace
  import opened PythonSession
  import opened Partition
  import opened UploadProtocol
  import opened S3Server
  import opened UploadSpec
  import opened SortedComplete

  /** No step towards a part request always fails. */
  ghost predicate Able(faults: Schedule) { Works(faults, ReadFile) && SetUpWorks(faults) }

  /** No step towards the part loop does. */
  ghost predicate Opens(faults: Schedule) { Works(faults, StatFile) && Works(faults, OpenFile) }

  /** Nothing is held, and every websocket that was dialed was followed by a queue pair that became ready to send. */
  predicate Ready(s: Ledger) { Idle(s) && !s.marks.shaking }

  /** What is held after a call: nothing, or a websocket, and that exactly when it was dialed and no queue pair became
      ready to send behind it. */
  predicate Kept(s: Ledger, returned: bool) {
    && OnlySocket(s.live) && !s.window && (s.live.socket.Some? <==> s.marks.shaking)
    && (returned ==> Ready(s))
  }

  /** `upload_part_rdma`: the session is destroyed however the request ends. A request is sent only if no step before it
      always fails, and if nothing fails on the client's side, the only failure is that of the request. */
  method UploadPart(w: World, srv: Server, id: string, pn: int, data: seq<byte>) returns (out: Option<Part>)
    requires w.Valid() && Ready(w.st) && data != [] && Rec(w.trace).pending == []
    modifies w, srv
    ensures w.Valid() && Kept(w.st, out.Some?)
    ensures srv.status == old(srv.status) && srv.content == old(srv.content)
    ensures out.Some? ==> out.value == Part(pn, EtagOf(pn)) && Sent(old(Now(w, srv)), Now(w, srv), id, pn, data, true)
    ensures out.None? ==>
              Sent(old(Now(w, srv)), Now(w, srv), id, pn, data, false) || NotSent(old(Now(w, srv)), Now(w, srv), data)
    ensures Faultless(w.faults) && out.None? ==> srv.log == old(srv.log) + [PutCall(pn, false)]
    ensures srv.log != old(srv.log) ==> SetUpWorks(w.faults)
    ensures Faultless(w.faults) && Willing(srv.answers) && IsActive(srv.status, id) ==> out.Some?
  {
    hide Willing, Replay, Follow, Rec, SawOnly, SetUpWorks, Faultless;
    var sess := SendSetup(w, data);
    if sess == null { return None; }
    var ok, etag := srv.Put(w, id, pn);
    sess.Cleanup(w);
    if !ok { return None; }
    return Some(Part(pn, EtagOf(pn)));
  }

  lemma PlanPythonRange(size: nat, ps: int, part: int)
    requires size > 0
    ensures var (start, end) := Bounds(PlanPython(size, ps, part)); IsRange(size, Effective(ps), start, end)
    ensures PlanPython(size, ps, part).Range? ==> ps != 0
    ensures var (start, end) := Bounds(PlanPython(size, ps, part));
            ps < 0 && start <= end ==> size == 1 && start == end == 1
  {
    if ps > 0 {
      PlanPythonPositive(size, ps, part);
      PlansInside(size, ps, part);
      CeilBounds(size, ps);
    } else {
      PlanPythonNegative(size, ps, part);
    }
  }

  /** `upload_parts`; `None` is an exception. A `-part` option outside of what there is raises one before anything is
      sent. If nothing fails on the client's side, any other ends in success or behind a part request that was seen to
      fail. */
  method UploadParts(w: World, srv: Server, id: string, file: seq<byte>, ps: int, part: int)
    returns (r: Option<seq<Part>>)
    requires w.Valid() && Ready(w.st) && Rec(w.trace).pending == []
    modifies w, srv
    ensures w.Valid() && Kept(w.st, r.Some?)
    ensures srv.status == old(srv.status) && srv.content == old(srv.content)
    ensures var (start, end) := Bounds(PlanPython(|file|, ps, part));
            && Upload(old(Now(w, srv)), Now(w, srv), id, file, Effective(ps), start, end, r.Some?)
            && (file != [] ==> IsRange(|file|, Effective(ps), start, end))
            && (r.Some? ==> r.value == PartList(start, end))
    ensures r.Some? || srv.log != old(srv.log) ==> file != [] && OffersPython(|file|, ps, part)
                                                   && Opens(w.faults)
    ensures srv.log != old(srv.log) ==> Able(w.faults)
    ensures Faultless(w.faults) && file != [] && OffersPython(|file|, ps, part) && r.None? ==>
              LastDenied(srv.log)
    ensures Faultless(w.faults) && Willing(srv.answers) && IsActive(srv.status, id) && file != []
            && OffersPython(|file|, ps, part) ==>
              r.Some?
  {
    hide Willing, Slice, Ceil, EtagOf, Rec, Upload, Sent, NotSent, PlanPython, OffersPython, Effective, Replay, Follow,
         Works, Faultless, Able;
    var (start, end) := Bounds(PlanPython(|file|, ps, part));
    UploadNothing(Now(w, srv), id, file, Effective(ps), start, end);
    if file != [] {
      PlanPythonRange(|file|, ps, part);
      PlanPythonRefuses(|file|, ps, part);
    }
    var ok := w.Call(StatFile);
    if !ok || file == [] || PlanPython(|file|, ps, part).Refused? { return None; }
    ok := w.Call(OpenFile);
    if !ok { return None; }
    r := SendParts(w, srv, id, file, ps, start, end);
  }

  /** One round of the part loop: seek, read, upload. */
  method SendPart(w: World, srv: Server, id: string, file: seq<byte>, ps: int, pn: int) returns (out: Option<Part>)
    requires w.Valid() && Ready(w.st) && Rec(w.trace).pending == []
    requires file != [] && 1 <= pn <= Ceil(|file|, Effective(ps)) && (ps > 0 || (ps < 0 && |file| == 1 && pn == 1))
    modifies w, srv
    ensures w.Valid() && Kept(w.st, out.Some?)
    ensures srv.status == old(srv.status) && srv.content == old(srv.content)
    ensures out.Some? ==> out.value == Part(pn, EtagOf(pn))
    ensures var s, now, data := old(Now(w, srv)), Now(w, srv), Slice(file, Effective(ps), pn);
            Sent(s, now, id, pn, data, out.Some?) || (out.None? && NotSent(s, now, data))
    ensures Faultless(w.faults) && out.None? ==> srv.log == old(srv.log) + [PutCall(pn, false)]
    ensures srv.log != old(srv.log) ==> Able(w.faults)
    ensures Faultless(w.faults) && Willing(srv.answers) && IsActive(srv.status, id) ==> out.Some?
  {
    hide Willing, Slice, Ceil, EtagOf, Rec, Sent, NotSent, Replay, Follow, Works, Faultless, SetUpWorks;
    var data := SlicePython(file, ps, pn);
    SliceNonEmpty(file, Effective(ps), pn);
    Unsent(Now(w, srv), data);
    var readable := w.Call(ReadFile);
    if !readable { return None; }
    out := UploadPart(w, srv, id, pn, data);
  }

  /** The part loop of `upload_parts`. */
  method SendParts(w: World, srv: Server, id: string, file: seq<byte>, ps: int, start: int, end: int)
    returns (r: Option<seq<Part>>)
    requires w.Valid() && Ready(w.st) && Rec(w.trace).pending == []
    requires IsRange(|file|, Effective(ps), start, end) && ps != 0
    requires ps < 0 && start <= end ==> |file| == 1 && start == end == 1
    modifies w, srv
    ensures w.Valid() && Kept(w.st, r.Some?)
    ensures srv.status == old(srv.status) && srv.content == old(srv.content)
    ensures Upload(old(Now(w, srv)), Now(w, srv), id, file, Effective(ps), start, end, r.Some?)
    ensures r.Some? ==> r.value == PartList(start, end)
    ensures srv.log != old(srv.log) ==> Able(w.faults)
    ensures Faultless(w.faults) && r.None? ==> LastDenied(srv.log)
    ensures Faultless(w.faults) && Willing(srv.answers) && IsActive(srv.status, id) ==> r.Some?
  {
    hide Willing, Slice, Ceil, EtagOf, Rec, Upload, Sent, NotSent, Effective, Replay, Follow, Able, Faultless;
    ghost var eff := Effective(ps);
    ghost var was := Now(w, srv);
    UploadNothing(was, id, file, eff, start, end);
    var parts: seq<Part> := [];
    var pn := start;
    while pn <= end
      invariant start <= pn <= end + 1 && w.Valid() && Ready(w.st) && Rec(w.trace).pending == []
      invariant srv.status == old(srv.status) && srv.content == old(srv.content)
      invariant Upload(was, Now(w, srv), id, file, eff, start, pn - 1, true)
      invariant parts == PartList(start, pn - 1) && (srv.log != was.log ==> Able(w.faults))
    {
      ghost var before := Now(w, srv);
      var p := SendPart(w, srv, id, file, ps, pn);
      UploadNext(was, before, Now(w, srv), id, file, eff, start, pn, end, p.Some?);
      if p.None? { return None; }
      parts := parts + [p.value];
      pn := pn + 1;
      assert parts == PartList(start, pn - 1);
    }
    return Some(parts);
  }

  /** What follows the part requests: a complete that succeeds, one that fails and an abort, or only an abort. */
  predicate Tail(tail: seq<Call>, ok: bool) {
    if ok then tail == [CompleteCall(true)]
    else if Listed(tail) then |tail| == 2 && tail[0] == CompleteCall(false) && tail[1].AbortCall?
    else |tail| == 1 && tail[0].AbortCall?
  }

  predicate Listed(tail: seq<Call>) { tail != [] && tail[0].CompleteCall? }

  /** The part of the `all` action behind a successful upload call: complete, and abort if that raises. */
  method Finish(srv: Server, id: string, list: seq<Part>,
                ghost file: seq<byte>, ghost ps: nat, ghost start: int, ghost end: int)
    returns (ok: bool, ghost tail: seq<Call>)
    requires IsRange(|file|, ps, start, end) && StoredAs(srv.parts, id, file, ps, start, end)
    requires list == PartList(start, end)
    modifies srv
    ensures srv.log == old(srv.log) + tail && Tail(tail, ok) && Listed(tail) && srv.parts == old(srv.parts)
    ensures ok && end < TWO_TO_31 ==> srv.content == Some(Flatten(Slices(file, ps, start, end)))
    ensures end < TWO_TO_31 ==> srv.listed == PartList(start, end)
    ensures Handled(old(srv.status), srv.status, id, tail)
    ensures end < TWO_TO_31 && Willing(srv.answers) && IsActive(old(srv.status), id) ==> ok
  {
    hide Willing, Slice, Slices, Ceil, StoredAs, PartList, Ends, Handled;
    ghost var before := srv.status;
    ok := CompleteRange(srv, id, list, file, ps, start, end);
    tail := [CompleteCall(ok)];
    ghost var mid := srv.status;
    HandledBy(before, mid, id, ok);
    if !ok {
      var b := srv.Abort(id);
      tail := [CompleteCall(false), AbortCall(b)];
      HandledTwice(before, mid, srv.status, id, b);
    }
  }

  /** What a caller can check to know that Python's range is the whole file. */
  predicate WholePython(size: nat, ps: int, part: int) {
    (ps > 0 && (part == 0 || (part == 1 && Ceil(size, ps) == 1))) || (ps < 0 && size == 1 && 0 <= part <= 1)
  }

  /** End to end for Python, with the exact condition. */
  lemma EndToEnd(file: seq<byte>, ps: int, part: int)
    requires file != []
    ensures var (start, end) := Bounds(PlanPython(|file|, ps, part));
            && IsRange(|file|, Effective(ps), start, end)
            && (Flatten(Slices(file, Effective(ps), start, end)) == file <==> WholePython(|file|, ps, part))
  {
    hide Slices;
    var (start, end) := Bounds(PlanPython(|file|, ps, part));
    PlanPythonRange(|file|, ps, part);
    WholeFile(file, Effective(ps), start, end);
    CeilBounds(|file|, Effective(ps));
    if ps > 0 { PlanPythonPositive(|file|, ps, part); } else { PlanPythonNegative(|file|, ps, part); }
  }

  /** The guarded block of the `all` action and its handler. */
  method Guarded(w: World, srv: Server, id: string, file: seq<byte>, ps: int, part: int)
    returns (returned: bool, ghost sent: Snap, ghost tail: seq<Call>)
    requires w.Valid() && Ready(w.st) && Rec(w.trace).pending == []
    modifies w, srv
    ensures w.Valid() && Kept(w.st, returned)
    ensures returned ==> Rec(w.trace).abandoned == old(Rec(w.trace)).abandoned
    ensures var (start, end) := Bounds(PlanPython(|file|, ps, part));
            && Upload(old(Now(w, srv)), sent, id, file, Effective(ps), start, end, Listed(tail))
            && (end < TWO_TO_31 ==>
                  && (returned ==> IsObject(srv.content, file, Effective(ps), start, end))
                  && (Listed(tail) ==> srv.listed == PartList(start, end)))
    ensures Now(w, srv) == sent.(log := sent.log + tail) && Tail(tail, returned) && (returned ==> Listed(tail))
    ensures Handled(old(srv.status), srv.status, id, tail)
    ensures Listed(tail) || sent.log != old(srv.log) ==>
              file != [] && OffersPython(|file|, ps, part) && Opens(w.faults)
    ensures sent.log != old(srv.log) ==> Able(w.faults)
    ensures Faultless(w.faults) && file != [] && OffersPython(|file|, ps, part) && !returned ==>
              DeniedBeforeLast(srv.log)
    ensures Faultless(w.faults) && file != [] && OffersPython(|file|, ps, part) && Willing(srv.answers)
            && IsActive(old(srv.status), id) && Bounds(PlanPython(|file|, ps, part)).1 < TWO_TO_31 ==>
              returned
  {
    hide Willing, Slice, Slices, Ceil, Rec, Moved, Uploaded, StoredAs, PartList, PlanPython, OffersPython, Effective,
         Replay, Follow, EtagOf, Able, Opens, Faultless, Handled, Ends, LastDenied, DeniedBeforeLast;
    ghost var (start, end) := Bounds(PlanPython(|file|, ps, part));
    ghost var status := srv.status;
    var r := UploadParts(w, srv, id, file, ps, part);
    sent := Now(w, srv);
    if r.None? {
      var aborted := srv.Abort(id);
      HandledBy(status, srv.status, id, aborted);
      DeniedThen(sent.log, AbortCall(aborted));
      return false, sent, [AbortCall(aborted)];
    }
    returned, tail := Finish(srv, id, r.value, file, Effective(ps), start, end);
    if !returned {
      assert tail == [CompleteCall(false), tail[1]];
      DeniedThen(sent.log, tail[1]);
    }
  }

  /** Create, the part requests and what follows them, all for one upload, are one of the managed histories. */
  lemma WholeHistory(was: Snap, book: Book, created: Snap, sent: Snap, now: Snap, status: StatusMap, tail: seq<Call>,
                     id: string, file: seq<byte>, ps: nat, start: int, end: int, ok: bool)
    requires created == was.(log := was.log + [CreateCall(true)]) && now == sent.(log := sent.log + tail)
    requires Upload(created, sent, id, file, ps, start, end, Listed(tail)) && Tail(tail, ok)
    requires id !in book.status && book.parts == was.parts
    requires Handled(book.status[id := Active], status, id, tail)
    ensures was.log < now.log && now.log[|was.log|] == CreateCall(true)
    ensures Carried(was, now, file, ps, start, end) && Settled(book, Book(status, now.parts), now.log[|was.log|..])
    ensures RunManaged(now.log[|was.log|..], start, end) && (ok <==> now.log[|now.log| - 1] == CompleteCall(true))
    ensures Completes(now.log[|was.log|..]) <==> Listed(tail)
    ensures Sends(now.log[|was.log|..]) <==> sent.log != created.log
  {
    hide Upload, Carried, Settled, Handled, RunManaged, Completes, Sends, Foreign, Moved, Uploaded;
    UploadGrows(created, sent, id, file, ps, start, end, Listed(tail));
    UploadKeepsOthers(created, sent, id, file, ps, start, end, Listed(tail));
    UploadMoves(created, sent, id, file, ps, start, end, Listed(tail));
    var puts := sent.log[|created.log|..];
    CarriedBy(was, created, sent, now, tail, id, file, ps, start, end);
    SettledBy(book, book.status[id := Active], Book(status, now.parts), id, puts, tail);
    EndedRun(now.log[|was.log|..], puts, tail, start, end, ok);
  }

  lemma EndedRun(calls: seq<Call>, puts: seq<Call>, tail: seq<Call>, start: int, end: int, ok: bool)
    requires calls == [CreateCall(true)] + puts + tail && Tail(tail, ok)
    requires Uploaded(puts, start, end, Listed(tail))
    ensures RunManaged(calls, start, end) && (ok <==> calls[|calls| - 1] == CompleteCall(true))
    ensures (Completes(calls) <==> Listed(tail)) && (Sends(calls) <==> puts != []) && calls[0] == CreateCall(true)
  {
    UploadedIsCut(puts, start, end, Listed(tail));
    CutIsPuts(puts, start, end);
    if !Listed(tail) {
      assert tail == [AbortCall(tail[0].ok)];
    } else {
      assert calls[1 + |puts|] == tail[0];
      if !ok { assert tail == [CompleteCall(false), AbortCall(tail[1].ok)]; }
    }
    if puts != [] { assert calls[1] == puts[0]; }
  }

  /** The Python `all` action: every run is one of the managed histories, its part requests are those of the trace
      and for each part the server has read nothing but that part's slice, nothing stays held but a websocket dialed
      for a handshake that failed, and a normal return means that the object is the concatenation of the planned
      slices: the whole file exactly under `WholePython`. All requests are for the upload that was created, and no
      other upload changes. A `-part` option outside of what there is sends no part and no complete; with any other, a
      run that meets no failure on the client's side is aborted only behind a request that was seen to fail. */
  method All(w: World, srv: Server, file: seq<byte>, ps: int, part: int) returns (returned: bool)
    requires w.Valid() && Ready(w.st) && Rec(w.trace).pending == []
    modifies w, srv
    ensures w.Valid() && Kept(w.st, returned) && old(srv.log) < srv.log
    ensures returned ==> Rec(w.trace).abandoned == old(Rec(w.trace)).abandoned
    ensures var (start, end) := Bounds(PlanPython(|file|, ps, part));
            && Carried(old(Now(w, srv)), Now(w, srv), file, Effective(ps), start, end)
            && RunManaged(srv.log[|old(srv.log)|..], start, end)
            && (file != [] ==> IsRange(|file|, Effective(ps), start, end))
            && (returned ==> file != [])
            && (end < TWO_TO_31 ==>
                  && (returned ==> IsObject(srv.content, file, Effective(ps), start, end))
                  && (Completes(srv.log[|old(srv.log)|..]) ==> srv.listed == PartList(start, end)))
    ensures returned && Bounds(PlanPython(|file|, ps, part)).1 < TWO_TO_31 ==>
              (srv.content == Some(file) <==> WholePython(|file|, ps, part))
    ensures returned <==> srv.log[|srv.log| - 1] == CompleteCall(true)
    ensures Settled(old(BookOf(srv)), BookOf(srv), srv.log[|old(srv.log)|..])
    ensures Sends(srv.log[|old(srv.log)|..]) ==> Able(w.faults)
    ensures Sends(srv.log[|old(srv.log)|..]) || Completes(srv.log[|old(srv.log)|..]) ==>
              file != [] && OffersPython(|file|, ps, part) && Opens(w.faults)
    ensures Faultless(w.faults) && file != [] && OffersPython(|file|, ps, part) && !returned ==>
              srv.log[|old(srv.log)|] == CreateCall(false) || DeniedBeforeLast(srv.log)
    ensures Faultless(w.faults) && file != [] && OffersPython(|file|, ps, part) && Willing(srv.answers)
            && srv.answers(|old(srv.log)|).name !in old(srv.status)
            && Bounds(PlanPython(|file|, ps, part)).1 < TWO_TO_31 ==>
              returned
  {
    hide Willing, Slice, Slices, Ceil, Rec, Upload, Carried, StoredAs, PartList, PlanPython, OffersPython, Effective,
         Replay, Follow, EtagOf, RunManaged, WholePython, Able, Opens, Faultless, Settled, Handled, Sends, Completes,
         Foreign, IsObject, Tail, DeniedBeforeLast;
    ghost var was, book := Now(w, srv), BookOf(srv);
    ghost var (start, end) := Bounds(PlanPython(|file|, ps, part));
    if file != [] { PlanPythonRange(|file|, ps, part); }
    var id := srv.Create();
    ghost var created := Now(w, srv);
    if id.None? {
      CarriedNothing(was, created, [CreateCall(false)], file, Effective(ps), start, end);
      SettledNothing(book, BookOf(srv));
      NotCreated(start, end);
      return false;
    }
    ghost var sent, tail;
    returned, sent, tail := Guarded(w, srv, id.value, file, ps, part);
    WholeHistory(was, book, created, sent, Now(w, srv), srv.status, tail, id.value, file, Effective(ps), start, end,
                 returned);
    if returned && end < TWO_TO_31 { IsWhole(srv.content, file, ps, part); }
  }

  lemma IsWhole(content: Option<seq<byte>>, file: seq<byte>, ps: int, part: int)
    requires var (start, end) := Bounds(PlanPython(|file|, ps, part));
             IsObject(content, file, Effective(ps), start, end)
    ensures content == Some(file) <==> WholePython(|file|, ps, part)
  {
    hide PlanPython, Slices, Effective, WholePython;
    EndToEnd(file, ps, part);
  }
}
