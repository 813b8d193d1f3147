/** The Java multipart upload: the part loop and the `all` action, whose handler catches every exception and no
    `Error`. Which steps fail, and how, is the schedule of the world. */
module JavaMultipart {
  import opened Prelude
  import opened CompleteXml
  import opened ResourceTrace
  import CSession
  import opened JavaSession
  import opened Partition
  import opened UploadProtocol
  import opened S3Server
  import opened UploadSpec
  import opened SortedComplete

  /** The largest array `Files.readAllBytes` allocates; it throws `OutOfMemoryError` beyond. */
  const MAX_ARRAY: int := TWO_TO_31 - 9

  /** The platform has no array for a file that large. */
  ghost predicate OnPlatform(faults: Schedule, size: nat) {
    size > MAX_ARRAY ==> forall n :: faults(ReadFile, n) != Fine
  }

  /** The file can be opened and read, if memory permits. */
  ghost predicate Readable(faults: Schedule) {
    forall n :: faults(StatFile, n) != Exception && faults(ReadFile, n) != Exception
  }

  /** No step towards a part request always fails; copying the part knows no exception. */
  ghost predicate Able(faults: Schedule) { Survives(faults, CopyPart) && SetUpWorks(faults) }

  /** No step towards the part loop always fails. */
  ghost predicate Opens(faults: Schedule) { Works(faults, StatFile) && Works(faults, ReadFile) }

  /** Nothing is held, no `Error` has been thrown and no handshake has failed. */
  predicate Ready(s: Ledger) { Idle(s) && Calm(s.marks) }

  /** What is held after a call: verbs resources if and only if the set-up or the clean-up of a session threw an `Error`
      while the device was held; a websocket if and only if no queue pair became ready to send behind it or a set-up
      threw an `Error` while it was held. */
  predicate Kept<T>(s: Ledger, o: Outcome<T>) {
    && !s.window && (s.marks.thrown <==> o.Thrown?) && (o.Returned? ==> Ready(s))
    && (s.live.device.Some? <==> s.marks.spilled) && (!s.marks.spilled ==> OnlySocket(s.live))
    && (s.live.socket.Some? <==> s.marks.shaking || s.marks.dropped)
  }

  /** Without direct memory, a queue pair that becomes ready to send is never released. */
  ghost predicate Starves(faults: Schedule, m: Marks) {
    NoDirectMemory(faults) && m.reached ==> m.spilled
  }

  /** `uploadPartRdma`: the session is destroyed however the request ends, also by an `Error`. */
  method UploadPart(w: World, srv: Server, id: string, pn: int, data: seq<byte>) returns (o: Outcome<Part>)
    requires w.Valid() && Ready(w.st) && data != [] && Rec(w.trace).pending == [] && Starves(w.faults, w.st.marks)
    modifies w, srv
    ensures w.Valid() && Kept(w.st, o) && Starves(w.faults, w.st.marks)
    ensures Unlinked(w.faults) ==> o.Thrown? && !w.st.marks.spilled
    ensures NoDirectMemory(w.faults) ==> !o.Returned? && (OtherwiseFine(w.faults) ==> w.st.marks.spilled)
    ensures Faultless(w.faults) && !o.Returned? ==> o.Raised? && srv.log == old(srv.log) + [PutCall(pn, false)]
    ensures srv.status == old(srv.status) && srv.content == old(srv.content)
    ensures o.Returned? ==> o.value == Part(pn, EtagOf(pn)) && Sent(old(Now(w, srv)), Now(w, srv), id, pn, data, true)
    ensures !o.Returned? ==>
              || Sent(old(Now(w, srv)), Now(w, srv), id, pn, data, false)
              || NotSent(old(Now(w, srv)), Now(w, srv), data)
              || (o.Thrown? && Sent(old(Now(w, srv)), Now(w, srv), id, pn, data, true))
    ensures srv.log != old(srv.log) ==> SetUpWorks(w.faults)
    ensures o.Returned? ==> Survives(w.faults, Request)
    ensures Faultless(w.faults) && Willing(srv.answers) && IsActive(srv.status, id) ==> o.Returned?
  {
    hide Willing, Survives, Replay, Follow, Rec, SawOnly, NoDirectMemory, OtherwiseFine, Unlinked, Faultless,
         SetUpWorks;
    var setup := SendSetup(w, data);
    if setup.Thrown? { return Thrown; }
    if setup.Raised? { return Raised; }
    var ok, thrown := SendRequest(w, srv, id, pn, setup.value);
    if thrown { return Thrown; }
    if !ok { return Raised; }
    return Returned(Part(pn, EtagOf(pn)));
  }

  /** The part request and the `finally` block that destroys the session. */
  method SendRequest(w: World, srv: Server, id: string, pn: int, s: RdmaSession) returns (ok: bool, thrown: bool)
    requires w.Valid() && w.st.window && s.Owns(w.st.live) && CSession.FullSession(w.st.live) && Calm(w.st.marks)
    requires Rec(w.trace).pending == []
    modifies w, srv, s
    ensures w.Valid() && (if thrown then Kept<()>(w.st, Thrown) else Ready(w.st))
    ensures w.st.marks.reached == old(w.st.marks.reached)
    ensures Answered(old(Rec(w.trace)), Rec(w.trace), pn, ok, old(w.st.mem))
    ensures srv.log == old(srv.log) + [PutCall(pn, ok)]
    ensures srv.status == old(srv.status) && srv.content == old(srv.content)
    ensures ok ==> srv.parts == old(srv.parts)[(id, pn) := old(w.st.mem)]
    ensures !ok ==> srv.parts == old(srv.parts) || srv.parts == old(srv.parts)[(id, pn) := old(w.st.mem)]
    ensures (Faultless(w.faults) ==> !thrown) && (!thrown ==> Survives(w.faults, Request))
    ensures Willing(srv.answers) && IsActive(srv.status, id) ==> ok
  {
    hide Willing, Survives, Works, Replay, Follow, Rec, Answered, NoDirectMemory, OtherwiseFine, Unlinked, Faultless,
         Readable;
    var etag;
    ok, etag := srv.Put(w, id, pn);
    var f := Step(w, Request);
    thrown := s.Cleanup(w);
    thrown := thrown || f == Error;
  }

  lemma PlanJavaRange(size: nat, ps: nat, part: int)
    requires 0 < size < TWO_TO_31 && 0 < ps < TWO_TO_63
    ensures var (start, end) := Bounds(PlanJava(size, ps, part)); IsRange(size, ps, start, end)
  {
    PlanJavaIs(size, ps, part);
    PlansInside(size, ps, part);
  }

  /** A part of a loop that an `Error` leaves. */
  lemma ThrownAt(s: Snap, mid: Snap, now: Snap, id: string, file: seq<byte>, ps: nat, start: int, k: int, end: int)
    requires IsRange(|file|, ps, start, end) && start <= k <= end && mid.rec.pending == []
    requires Upload(s, mid, id, file, ps, start, k - 1, true)
    requires var data := Slice(file, ps, k);
             Sent(mid, now, id, k, data, true) || Sent(mid, now, id, k, data, false) || NotSent(mid, now, data)
    ensures Moved(s, now, id, file, ps, start, end) && Cut(now.log[|s.log|..], start, end)
  {
    hide Slice, Ceil, Sent, NotSent, Moved, Uploaded, Cut;
    var ok := Sent(mid, now, id, k, Slice(file, ps, k), true);
    UploadNext(s, mid, now, id, file, ps, start, k, end, ok);
    if ok {
      UploadCut(s, now, id, file, ps, start, k, end);
    } else {
      UploadGrows(s, now, id, file, ps, start, end, false);
      UploadedIsCut(now.log[|s.log|..], start, end, false);
    }
  }

  /** The part loop of `uploadParts`. */
  method SendParts(w: World, srv: Server, id: string, file: seq<byte>, ps: nat, start: int, end: int)
    returns (r: Outcome<seq<Part>>)
    requires w.Valid() && Ready(w.st) && Rec(w.trace).pending == [] && Starves(w.faults, w.st.marks)
    requires IsRange(|file|, ps, start, end) && |file| < TWO_TO_31 && ps < TWO_TO_63
    modifies w, srv
    ensures w.Valid() && Kept(w.st, r) && Starves(w.faults, w.st.marks)
    ensures srv.status == old(srv.status) && srv.content == old(srv.content)
    ensures !r.Thrown? ==> Upload(old(Now(w, srv)), Now(w, srv), id, file, ps, start, end, r.Returned?)
    ensures r.Thrown? ==> Moved(old(Now(w, srv)), Now(w, srv), id, file, ps, start, end)
                          && Cut(srv.log[|old(srv.log)|..], start, end)
    ensures r.Returned? ==> r.value == PartList(start, end)
    ensures start <= end && Unlinked(w.faults) ==> r.Thrown? && !w.st.marks.spilled
    ensures start <= end && NoDirectMemory(w.faults) && OtherwiseFine(w.faults) ==> w.st.marks.spilled
    ensures Faultless(w.faults) ==> !r.Thrown?
    ensures Faultless(w.faults) && !r.Returned? ==> LastDenied(srv.log)
    ensures srv.log != old(srv.log) ==> Able(w.faults)
    ensures Faultless(w.faults) && Willing(srv.answers) && IsActive(srv.status, id) ==> r.Returned?
  {
    hide Willing, Slice, Ceil, EtagOf, Rec, Upload, Moved, Cut, Uploaded, Sent, NotSent, Replay, Follow, NoDirectMemory,
         OtherwiseFine, Unlinked, Faultless, Starves, Works, Survives, SetUpWorks;
    ghost var was := Now(w, srv);
    UploadNothing(was, id, file, ps, start, end);
    var parts: seq<Part> := [];
    var pn := start;
    while pn <= end
      invariant start <= pn <= end + 1 && w.Valid() && Ready(w.st) && Rec(w.trace).pending == []
      invariant srv.status == old(srv.status) && srv.content == old(srv.content)
      invariant Upload(was, Now(w, srv), id, file, ps, start, pn - 1, true)
      invariant parts == PartList(start, pn - 1)
      invariant srv.log != was.log ==> Able(w.faults)
      invariant (Unlinked(w.faults) || NoDirectMemory(w.faults) ==> pn == start) && Starves(w.faults, w.st.marks)
    {
      ghost var before := Now(w, srv);
      var data := SliceJava(file, ps, pn);
      SliceNonEmpty(file, ps, pn);
      var f := Step(w, CopyPart);
      if f == Error {
        Unsent(before, data);
        ThrownAt(was, before, before, id, file, ps, start, pn, end);
        return Thrown;
      }
      var p := UploadPart(w, srv, id, pn, data);
      if p.Thrown? {
        ThrownAt(was, before, Now(w, srv), id, file, ps, start, pn, end);
        return Thrown;
      }
      UploadNext(was, before, Now(w, srv), id, file, ps, start, pn, end, p.Returned?);
      if p.Raised? { return Raised; }
      parts := parts + [p.value];
      pn := pn + 1;
      assert parts == PartList(start, pn - 1);
    }
    return Returned(parts);
  }

  /** `uploadParts`. A readable file too large for an array always ends in an `Error`, and so does a missing library
      as soon as there is a part to send; without direct memory and with nothing else amiss a session is leaked. */
  method UploadParts(w: World, srv: Server, id: string, file: seq<byte>, ps: nat, part: int)
    returns (r: Outcome<seq<Part>>)
    requires w.Valid() && Ready(w.st) && Rec(w.trace).pending == [] && 0 < ps < TWO_TO_63
    requires OnPlatform(w.faults, |file|) && Starves(w.faults, w.st.marks)
    modifies w, srv
    ensures w.Valid() && Kept(w.st, r) && Starves(w.faults, w.st.marks)
    ensures srv.status == old(srv.status) && srv.content == old(srv.content)
    ensures var (start, end) := Bounds(PlanJava(|file|, ps, part));
            && (!r.Thrown? ==> Upload(old(Now(w, srv)), Now(w, srv), id, file, ps, start, end, r.Returned?))
            && (r.Thrown? ==> Moved(old(Now(w, srv)), Now(w, srv), id, file, ps, start, end)
                              && Cut(srv.log[|old(srv.log)|..], start, end))
            && (r.Returned? ==> r.value == PartList(start, end))
            && Certain(w.faults, |file|, ps, part, w.st.marks)
    ensures |file| > MAX_ARRAY ==> Now(w, srv) == old(Now(w, srv))
    ensures Faultless(w.faults) ==> !r.Thrown?
    ensures Faultless(w.faults) && 0 < |file| <= MAX_ARRAY && OffersJava(|file|, ps, part) && !r.Returned? ==>
              LastDenied(srv.log)
    ensures r.Returned? || srv.log != old(srv.log) ==>
              0 < |file| <= MAX_ARRAY && OffersJava(|file|, ps, part) && Opens(w.faults)
    ensures srv.log != old(srv.log) ==> Able(w.faults)
    ensures Faultless(w.faults) && Willing(srv.answers) && IsActive(srv.status, id)
            && 0 < |file| <= MAX_ARRAY && OffersJava(|file|, ps, part) ==>
              r.Returned?
  {
    hide Willing, Slice, Ceil, EtagOf, Rec, Upload, Moved, Cut, Uploaded, PlanJava, Replay, Follow, NoDirectMemory,
         OtherwiseFine, Unlinked, Faultless, Readable, Starves, OffersJava, Able, Works, Survives;
    if 0 < |file| <= MAX_ARRAY { PlanJavaRefuses(|file|, ps, part); }
    var (start, end) := Bounds(PlanJava(|file|, ps, part));
    ghost var was := Now(w, srv);
    UploadNothing(was, id, file, ps, start, end);
    ThrownFirst(was, id, file, ps, start, end);
    var f := Step(w, StatFile);
    if f != Fine { return Failed(f); }
    if file == [] || PlanJava(|file|, ps, part).Refused? { return Raised; }
    f := Step(w, ReadFile);
    if f != Fine { return Failed(f); }
    PlanJavaRange(|file|, ps, part);
    r := SendParts(w, srv, id, file, ps, start, end);
  }

  /** The ledger behind an `Error` that no session threw. */
  function Torn(s: Ledger): Ledger { s.(marks := s.marks.(thrown := true)) }

  lemma OutsideTears(s: Ledger, site: Site)
    requires !site.SetUp? && !site.CleanUp?
    ensures s.(marks := Crash(s.marks, site, s.live)) == Torn(s)
  {
  }

  /** A step outside of a session. */
  method Step(w: World, site: Site) returns (f: Fault)
    requires w.Valid() && !site.SetUp? && !site.CleanUp?
    modifies w
    ensures w.Valid() && Rec(w.trace) == Rec(old(w.trace)) && f == w.faults(site, |old(w.trace)|)
    ensures w.st == if f == Error then Torn(old(w.st)) else old(w.st)
    ensures OtherwiseFine(w.faults) ==> f == Fine
    ensures Faultless(w.faults) ==> f == Fine
    ensures old(Starves(w.faults, w.st.marks)) ==> Starves(w.faults, w.st.marks)
    ensures Readable(w.faults) && (site == StatFile || site == ReadFile) ==> f != Exception
    ensures (f == Fine ==> Works(w.faults, site)) && (f != Error ==> Survives(w.faults, site))
  {
    hide Replay, Follow, Rec, Works, Survives;
    OutsideTears(w.st, site);
    f := w.Ask(site);
  }

  /** Failures that the input makes certain, once the upload is created: a readable, planned file too large for an
      array ends in an `Error`; so does a missing library as soon as there is a part to send, and nothing is leaked;
      and if nothing fails but the allocation of direct memory, a session is leaked. */
  ghost predicate Certain(faults: Schedule, size: nat, ps: nat, part: int, m: Marks)
    requires 0 < ps < TWO_TO_63
  {
    var (start, end) := Bounds(PlanJava(size, ps, part));
    && (Readable(faults) && size > MAX_ARRAY && PlanJava(size, ps, part).Range? ==> m.thrown && !m.spilled)
    && (Readable(faults) && size > 0 && Unlinked(faults) && start <= end ==> m.thrown && !m.spilled)
    && (OtherwiseFine(faults) && NoDirectMemory(faults) && 0 < size <= MAX_ARRAY && start <= end ==> m.spilled)
  }

  lemma ThrownFirst(s: Snap, id: string, file: seq<byte>, ps: nat, start: int, end: int)
    requires Upload(s, s, id, file, ps, start, end, false)
    ensures Moved(s, s, id, file, ps, start, end) && Cut(s.log[|s.log|..], start, end)
  {
    hide Moved, Uploaded, Cut;
    UploadedIsCut(s.log[|s.log|..], start, end, false);
  }

  /** The requests behind a successful upload call: complete, and abort if that raises; an `Error` leaves with the
      upload open. */
  ghost predicate Concluded(tail: seq<Call>, o: Outcome<()>) {
    match o
    case Returned(_) => tail == [CompleteCall(true)]
    case Raised => |tail| == 2 && tail[0] == CompleteCall(false) && tail[1].AbortCall?
    case Thrown => tail == [] || tail == [CompleteCall(false)]
  }

  /** The part of the `all` action behind a successful upload call. */
  method Finish(w: World, srv: Server, id: string, list: seq<Part>,
                ghost file: seq<byte>, ghost ps: nat, ghost start: int, ghost end: int)
    returns (o: Outcome<()>, ghost tail: seq<Call>)
    requires IsRange(|file|, ps, start, end) && StoredAs(srv.parts, id, file, ps, start, end) && end < TWO_TO_31
    requires list == PartList(start, end) && w.Valid()
    modifies w, srv
    ensures w.Valid() && Rec(w.trace) == Rec(old(w.trace))
    ensures w.st == if o.Thrown? then Torn(old(w.st)) else old(w.st)
    ensures srv.log == old(srv.log) + tail && Concluded(tail, o) && srv.parts == old(srv.parts)
    ensures Handled(old(srv.status), srv.status, id, tail) && (tail != [] ==> srv.listed == PartList(start, end))
    ensures o.Returned? ==> srv.content == Some(Flatten(Slices(file, ps, start, end)))
    ensures Faultless(w.faults) ==> !o.Thrown?
    ensures (tail != [] ==> Survives(w.faults, PrintList)) && (|tail| == 2 ==> Survives(w.faults, PostList))
    ensures Faultless(w.faults) && Willing(srv.answers) && IsActive(old(srv.status), id) ==> o.Returned?
  {
    hide Willing, Slice, Slices, Ceil, StoredAs, PartList, Rec, Replay, Follow, Flatten, Starves, OtherwiseFine,
         Faultless, Readable, Torn, Handled, Ends, Works, Survives;
    ghost var before := srv.status;
    HandledBy(before, before, id, false);
    var f := Step(w, PrintList);
    if f == Error { return Thrown, []; }
    var ok := CompleteRange(srv, id, list, file, ps, start, end);
    ghost var mid := srv.status;
    HandledBy(before, mid, id, ok);
    if ok { return Returned(()), [CompleteCall(true)]; }
    f := Step(w, PostList);
    if f == Error { return Thrown, [CompleteCall(false)]; }
    var b := srv.Abort(id);
    HandledTwice(before, mid, srv.status, id, b);
    return Raised, [CompleteCall(false), AbortCall(b)];
  }

  /** What a caller can check to know that Java's range is the whole file: the `long` sum must not overflow. */
  predicate WholeJava(size: nat, ps: nat, part: int)
    requires ps > 0
  {
    size + ps - 1 < TWO_TO_63 && (part == 0 || (part == 1 && Ceil(size, ps) == 1))
  }

  /** End to end for Java, with the exact condition. */
  lemma EndToEnd(file: seq<byte>, ps: nat, part: int)
    requires 0 < |file| <= MAX_ARRAY && 0 < ps < TWO_TO_63
    ensures var (start, end) := Bounds(PlanJava(|file|, ps, part));
            && IsRange(|file|, ps, start, end) && end < TWO_TO_31
            && (Flatten(Slices(file, ps, start, end)) == file <==> WholeJava(|file|, ps, part))
  {
    hide Slices, PlanJava, Ceil, WrapInt32;
    var (start, end) := Bounds(PlanJava(|file|, ps, part));
    PlanJavaRange(|file|, ps, part);
    PlanJavaIs(|file|, ps, part);
    WholeFile(file, ps, start, end);
    CeilBounds(|file|, ps);
    CeilSmall(|file|, ps);
    if |file| + ps - 1 < TWO_TO_63 { PlanCIsWhole(|file|, ps, part); }
  }

  /** The requests behind a successful create: the part requests, and what follows them. */
  ghost predicate Ended(puts: seq<Call>, tail: seq<Call>, start: int, end: int, o: Outcome<()>) {
    match o
    case Returned(_) => Uploaded(puts, start, end, true) && tail == [CompleteCall(true)]
    case Raised =>
      || (Uploaded(puts, start, end, false) && exists b :: tail == [AbortCall(b)])
      || (Uploaded(puts, start, end, true) && exists b :: tail == [CompleteCall(false), AbortCall(b)])
    case Thrown =>
      || (Cut(puts, start, end) && tail == [])
      || (Uploaded(puts, start, end, true) && tail == [CompleteCall(false)])
  }

  lemma EndedRun(calls: seq<Call>, puts: seq<Call>, tail: seq<Call>, start: int, end: int, o: Outcome<()>)
    requires calls == [CreateCall(true)] + puts + tail && Ended(puts, tail, start, end, o)
    ensures if o.Thrown? then RunThrown(calls, start, end) else RunManaged(calls, start, end)
    ensures o.Returned? <==> calls[|calls| - 1] == CompleteCall(true)
    ensures forall i :: 0 <= i < |tail| ==> !tail[i].PutCall?
    ensures forall i :: 0 <= i < |puts| ==> puts[i].PutCall?
    ensures (Completes(calls) <==> Listed(tail)) && (Sends(calls) <==> puts != []) && calls[0] == CreateCall(true)
  {
    hide Uploaded, Cut;
    if Uploaded(puts, start, end, true) {
      UploadedOk(puts, start, end);
      UploadedIsCut(puts, start, end, true);
    } else if Uploaded(puts, start, end, false) {
      UploadedIsCut(puts, start, end, false);
    }
    CutIsPuts(puts, start, end);
    if tail == [] { assert calls == [CreateCall(true)] + puts; } else { assert calls[1 + |puts|] == tail[0]; }
    if puts != [] { assert calls[1] == puts[0]; }
  }

  /** Create, the part requests and what follows them, all for one upload, are one of the histories. */
  lemma WholeHistory(was: Snap, book: Book, created: Snap, sent: Snap, now: Snap, status: StatusMap, tail: seq<Call>,
                     id: string, file: seq<byte>, ps: nat, start: int, end: int, o: Outcome<()>)
    requires created == was.(log := was.log + [CreateCall(true)]) && now == sent.(log := sent.log + tail)
    requires Moved(created, sent, id, file, ps, start, end) && created.log <= sent.log
    requires Ended(sent.log[|created.log|..], tail, start, end, o)
    requires id !in book.status && book.parts == was.parts
    requires Handled(book.status[id := Active], status, id, tail)
    ensures was.log < now.log && now.log[|was.log|] == CreateCall(true)
    ensures Carried(was, now, file, ps, start, end) && Settled(book, Book(status, now.parts), now.log[|was.log|..])
    ensures if o.Thrown? then RunThrown(now.log[|was.log|..], start, end)
            else RunManaged(now.log[|was.log|..], start, end)
    ensures o.Returned? <==> now.log[|now.log| - 1] == CompleteCall(true)
    ensures Completes(now.log[|was.log|..]) <==> Listed(tail)
    ensures Sends(now.log[|was.log|..]) <==> sent.log != created.log
  {
    hide Carried, Settled, Handled, RunManaged, RunThrown, Completes, Sends, Foreign, Moved, Ended, Elsewhere, Listed;
    var puts := sent.log[|created.log|..];
    assert now.log[|was.log|..] == [CreateCall(true)] + puts + tail;
    EndedRun(now.log[|was.log|..], puts, tail, start, end, o);
    MovedGrows(created, sent, id, file, ps, start, end);
    ElsewhereIsForeign(created.parts, sent.parts, id, start, end);
    CarriedBy(was, created, sent, now, tail, id, file, ps, start, end);
    SettledBy(book, book.status[id := Active], Book(status, now.parts), id, puts, tail);
  }

  predicate Listed(tail: seq<Call>) { tail != [] && tail[0].CompleteCall? }

  /** The guarded block of the `all` action and its handler. */
  method Guarded(w: World, srv: Server, id: string, file: seq<byte>, ps: nat, part: int)
    returns (o: Outcome<()>, ghost sent: Snap, ghost tail: seq<Call>)
    requires w.Valid() && Ready(w.st) && Rec(w.trace).pending == [] && 0 < ps < TWO_TO_63
    requires OnPlatform(w.faults, |file|) && Starves(w.faults, w.st.marks)
    modifies w, srv
    ensures w.Valid() && Kept(w.st, o) && Starves(w.faults, w.st.marks)
    ensures o.Returned? ==> Rec(w.trace).abandoned == old(Rec(w.trace)).abandoned
    ensures var (start, end) := Bounds(PlanJava(|file|, ps, part));
            && Moved(old(Now(w, srv)), sent, id, file, ps, start, end)
            && old(srv.log) <= sent.log && srv.log == sent.log + tail && Rec(w.trace) == sent.rec
            && Ended(sent.log[|old(srv.log)|..], tail, start, end, o)
            && (o.Returned? ==> 0 < |file| <= MAX_ARRAY && IsRange(|file|, ps, start, end)
                                && srv.content == Some(Flatten(Slices(file, ps, start, end))))
            && Certain(w.faults, |file|, ps, part, w.st.marks)
    ensures |file| > MAX_ARRAY ==> Rec(w.trace) == old(Rec(w.trace))
    ensures srv.parts == sent.parts && Handled(old(srv.status), srv.status, id, tail)
    ensures Listed(tail) || sent.log != old(srv.log) ==>
              0 < |file| <= MAX_ARRAY && OffersJava(|file|, ps, part) && Opens(w.faults)
    ensures sent.log != old(srv.log) ==> Able(w.faults)
    ensures var (start, end) := Bounds(PlanJava(|file|, ps, part)); Listed(tail) ==> srv.listed == PartList(start, end)
    ensures Faultless(w.faults) && 0 < |file| <= MAX_ARRAY && OffersJava(|file|, ps, part) && !o.Returned? ==>
              DeniedBeforeLast(srv.log)
    ensures Faultless(w.faults) && 0 < |file| <= MAX_ARRAY && OffersJava(|file|, ps, part) && Willing(srv.answers)
            && IsActive(old(srv.status), id) ==>
              o.Returned?
  {
    hide Willing, Slice, Slices, Ceil, Rec, Moved, Uploaded, StoredAs, OkPuts, PartList, PlanJava, Replay, Follow,
         EtagOf, Cut, Elsewhere, Unlinked, NoDirectMemory, OtherwiseFine, Faultless, Readable, Starves, OffersJava,
         Opens, Able, Handled, Ends, LastDenied, DeniedBeforeLast;
    ghost var was, status := Now(w, srv), srv.status;
    HandledBy(status, status, id, false);
    ghost var (start, end) := Bounds(PlanJava(|file|, ps, part));
    var r := UploadParts(w, srv, id, file, ps, part);
    sent, tail := Now(w, srv), [];
    MovedGrows(was, sent, id, file, ps, start, end);
    if r.Thrown? { return Thrown, sent, []; }
    if r.Raised? {
      var aborted := srv.Abort(id);
      HandledBy(status, srv.status, id, aborted);
      DeniedThen(sent.log, AbortCall(aborted));
      return Raised, sent, [AbortCall(aborted)];
    }
    EndToEnd(file, ps, part);
    UploadedIsCut(sent.log[|was.log|..], start, end, true);
    ghost var m := w.st.marks;
    o, tail := Finish(w, srv, id, r.value, file, ps, start, end);
    StarvesStill(w.faults, m);
    if o.Raised? {
      assert tail == [CompleteCall(false), AbortCall(tail[1].ok)];
      DeniedThen(sent.log, tail[1]);
    }
  }

  lemma StarvesStill(faults: Schedule, m: Marks)
    requires Starves(faults, m)
    ensures Starves(faults, m.(thrown := true))
  {
  }

  /** The Java `all` action: as Python's as long as no `Error` is thrown. An `Error` before the end of the run leaves a
      created upload without complete or abort; what is held afterwards is what `Kept` says. All requests are for the
      upload that was created, and no other upload changes. A `-part` option outside of what there is sends no part and
      no complete; with any other, a run that meets no failure on the client's side is aborted only behind a request
      that was seen to fail. */
  method All(w: World, srv: Server, file: seq<byte>, ps: nat, part: int) returns (o: Outcome<()>)
    requires w.Valid() && Ready(w.st) && Rec(w.trace).pending == [] && 0 < ps < TWO_TO_63
    requires OnPlatform(w.faults, |file|) && Starves(w.faults, w.st.marks)
    modifies w, srv
    ensures w.Valid() && Kept(w.st, o) && Starves(w.faults, w.st.marks)
    ensures o.Returned? ==> Rec(w.trace).abandoned == old(Rec(w.trace)).abandoned
    ensures var (start, end) := Bounds(PlanJava(|file|, ps, part));
            && Carried(old(Now(w, srv)), Now(w, srv), file, ps, start, end)
            && |srv.log| > |old(srv.log)|
            && (if o.Thrown? then RunThrown(srv.log[|old(srv.log)|..], start, end)
                else RunManaged(srv.log[|old(srv.log)|..], start, end))
            && (0 < |file| <= MAX_ARRAY ==> IsRange(|file|, ps, start, end))
            && (o.Returned? ==> IsRange(|file|, ps, start, end)
                                && srv.content == Some(Flatten(Slices(file, ps, start, end))))
            && (srv.log[|old(srv.log)|] == CreateCall(true) ==> Certain(w.faults, |file|, ps, part, w.st.marks))
    ensures |file| > MAX_ARRAY ==> Rec(w.trace) == old(Rec(w.trace))
    ensures o.Returned? ==> (srv.content == Some(file) <==> WholeJava(|file|, ps, part))
    ensures o.Returned? <==> srv.log[|srv.log| - 1] == CompleteCall(true)
    ensures Settled(old(BookOf(srv)), BookOf(srv), srv.log[|old(srv.log)|..])
    ensures Sends(srv.log[|old(srv.log)|..]) ==> Able(w.faults)
    ensures Sends(srv.log[|old(srv.log)|..]) || Completes(srv.log[|old(srv.log)|..]) ==>
              0 < |file| <= MAX_ARRAY && OffersJava(|file|, ps, part) && Opens(w.faults)
    ensures var (start, end) := Bounds(PlanJava(|file|, ps, part));
            Completes(srv.log[|old(srv.log)|..]) ==> srv.listed == PartList(start, end)
    ensures Faultless(w.faults) && 0 < |file| <= MAX_ARRAY && OffersJava(|file|, ps, part) && !o.Returned? ==>
              srv.log[|old(srv.log)|] == CreateCall(false) || DeniedBeforeLast(srv.log)
    ensures Faultless(w.faults) && 0 < |file| <= MAX_ARRAY && OffersJava(|file|, ps, part) && Willing(srv.answers)
            && srv.answers(|old(srv.log)|).name !in old(srv.status) ==>
              o.Returned?
  {
    hide Willing, Slice, Slices, Ceil, Rec, Moved, Carried, PlanJava, Replay, Follow, RunManaged, RunThrown, Ended,
         Completes, Sends, WholeJava, Elsewhere, Foreign, Certain, Starves, OnPlatform, OffersJava, Opens, Able,
         Handled, Settled, DeniedBeforeLast, Faultless, PartList;
    ghost var was, book := Now(w, srv), BookOf(srv);
    ghost var (start, end) := Bounds(PlanJava(|file|, ps, part));
    if 0 < |file| <= MAX_ARRAY { EndToEnd(file, ps, part); }
    var id := srv.Create();
    ghost var created := Now(w, srv);
    if id.None? {
      CarriedNothing(was, created, [CreateCall(false)], file, ps, start, end);
      SettledNothing(book, BookOf(srv));
      NotCreated(start, end);
      return Raised;
    }
    ghost var sent, tail;
    o, sent, tail := Guarded(w, srv, id.value, file, ps, part);
    WholeHistory(was, book, created, sent, Now(w, srv), srv.status, tail, id.value, file, ps, start, end, o);
  }
}
