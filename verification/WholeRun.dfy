/** Whole `all` runs from a clean start, with every promise stated about the finished run alone. */
module WholeRun {
  import opened Prelude
  import opened CompleteXml
  import opened ResourceTrace
  import opened Partition
  import opened UploadProtocol
  import opened S3Server
  import opened UploadSpec
  import CMultipart
  import GoMultipart
  import PythonMultipart
  import JavaSession
  import JavaMultipart

  /** Everything of kind `k` that was acquired was released, exactly once. */
  ghost predicate Conserved(t: seq<Event>, k: Kind) {
    forall id: nat :: Acquired(t, k, id) == Released(t, k, id) <= 1
  }

  /** Whenever something is released, all its children had been released before. */
  ghost predicate Ordered(t: seq<Event>) {
    forall j: nat, child: Kind, id: nat :: j < |t| && t[j].Release? && IsParent(t[j].kind, child) ==>
      Acquired(t[..j], child, id) == Released(t[..j], child, id)
  }

  /** Whatever the server read, it read while the request for a part in `start..end` was pending, and it is the slice of
      that very part. */
  ghost predicate ReadsItsPart(t: seq<Event>, file: seq<byte>, ps: nat, start: int, end: int)
    requires IsRange(|file|, ps, start, end)
  {
    && (forall m: nat, j: nat :: m < |t| && t[m].RemoteRead? && Returns(t, m, j) ==>
          start <= t[j].part <= end && t[m].data == Slice(file, ps, t[j].part))
    && (forall m: nat :: m < |t| && t[m].RemoteRead? ==> exists j: nat :: Returns(t, m, j))
  }

  /** The part requests of the history are those of the trace, in order and with the same results. */
  predicate SameRequests(log: seq<Call>, t: seq<Event>) {
    PartCalls(log) == Requests(Rec(t).puts)
  }

  lemma IdleConserves(t: seq<Event>, k: Kind)
    requires Lawful(t)
    ensures Conserved(t, k) <==> Get(Replay(t).value.live, k).None?
  {
    hide Replay, Follow, Get;
    forall id: nat ensures Released(t, k, id) <= Acquired(t, k, id) <= 1 {
      Balance(t, k, id);
    }
    var h := Get(Replay(t).value.live, k);
    if h.Some? { Balance(t, k, h.value); }
    forall id: nat | h.None? ensures Acquired(t, k, id) == Released(t, k, id) {
      Balance(t, k, id);
    }
  }

  lemma LawfulIsOrdered(t: seq<Event>)
    requires Lawful(t)
    ensures Ordered(t)
  {
    hide Replay, Follow;
    forall j: nat, child: Kind, id: nat | j < |t| && t[j].Release? && IsParent(t[j].kind, child)
      ensures Acquired(t[..j], child, id) == Released(t[..j], child, id)
    {
      ChildrenFirst(t, j, child, id);
    }
  }

  /** Token safety in terms of the file. */
  lemma ServerSeesItsPart(t: seq<Event>, file: seq<byte>, ps: nat, start: int, end: int)
    requires IsRange(|file|, ps, start, end) && Rec(t).pending == []
    requires ReadOwnSlice(Rec(t).puts, file, ps, start, end)
    ensures ReadsItsPart(t, file, ps, start, end)
  {
    hide Rec, Slice, Returns;
    forall m: nat, j: nat | m < |t| && t[m].RemoteRead? && Returns(t, m, j)
      ensures j < |t| && t[j].PutDone? && start <= t[j].part <= end && t[m].data == Slice(file, ps, t[j].part)
    {
      ReturnsAt(t, m, j);
      ReadIsRecorded(t, m, j);
    }
    forall m: nat | m < |t| && t[m].RemoteRead? ensures exists j: nat :: Returns(t, m, j) {
      ReadReturns(t, m);
    }
  }

  lemma ReturnsAt(t: seq<Event>, m: nat, j: nat)
    requires Returns(t, m, j)
    ensures j < |t| && t[j].PutDone?
  {
  }

  /** What a run from a clean start has carried. */
  lemma FromStart(s: Snap, log: seq<Call>, t: seq<Event>, parts: PartMap, file: seq<byte>, ps: nat,
                  start: int, end: int)
    requires s.log == [] && s.rec == BLANK && Carried(s, Snap(log, Rec(t), parts), file, ps, start, end)
    ensures SameRequests(log, t) && log[0..] == log && |PartCalls(log)| == |Rec(t).puts|
    ensures IsRange(|file|, ps, start, end) ==> ReadsItsPart(t, file, ps, start, end)
  {
    hide Rec, PartCalls, Ceil, ReadsItsPart, ReadOwnSlice;
    assert log[0..] == log && Rec(t).puts[0..] == Rec(t).puts;
    if IsRange(|file|, ps, start, end) { ServerSeesItsPart(t, file, ps, start, end); }
  }

  /** What a run leaves behind: its trace, its requests, the list of its complete request, the uploads and parts on the
      server, and the object. */
  datatype Run = Run(trace: seq<Event>, log: seq<Call>, listed: seq<Part>, book: Book, content: Option<seq<byte>>)

  /** A server that knows no upload. */
  const NO_BOOK := Book(map[], map[])

  /** The C client, for every schedule of faults and every network; `memory` tells whether the complete body can be
      allocated. The trace ends each step as the schedule says, nothing stays held, and the object is what the requests
      say. All requests are for the one upload that was created, and it ends as the last of them says. Out of range, a
      `-part` option sends no part and no complete. In range, with no fault and a welcoming host, only a request that
      was seen to fail makes the run fail. A part is only sent if no step on the way always fails. */
  method RunC(file: seq<byte>, ps: nat, part: int, memory: bool, faults: Schedule, net: Network, answers: Answers)
    returns (run: Run, exit: int)
    requires ps > 0 && |file| + ps - 1 < TWO_TO_63
    ensures Lawful(run.trace) && Ordered(run.trace) && Follow(run.trace, faults) && forall k :: Conserved(run.trace, k)
    ensures SameRequests(run.log, run.trace)
    ensures Rec(run.trace).abandoned == 0 && Tokens(run.trace) == |PartCalls(run.log)|
    ensures run.log != [] && Settled(NO_BOOK, run.book, run.log)
    ensures var (start, end) := Bounds(PlanC(|file|, ps, part));
            && UploadProtocol.RunC(run.log, start, end, memory)
            && (file != [] ==> IsRange(|file|, ps, start, end) && ReadsItsPart(run.trace, file, ps, start, end))
            && (Completes(run.log) ==> run.listed == PartList(start, end))
    ensures part < 0 || part > Ceil(|file|, ps) ==> !Sends(run.log) && !Completes(run.log) && exit != 0
    ensures Sends(run.log) || Completes(run.log) ==> CMultipart.Asked(file, ps, part) && CMultipart.Opens(faults)
    ensures Sends(run.log) ==> CMultipart.Able(faults, net)
    ensures CMultipart.Unhindered(faults, net) && memory && CMultipart.Asked(file, ps, part)
            && run.log[0] == CreateCall(true) && exit != 0 ==>
              EndsDenied(run.log)
    ensures CMultipart.Unhindered(faults, net) && memory && CMultipart.Asked(file, ps, part) && Willing(answers) ==>
              exit == 0
    ensures exit == 0 <==> run.log[|run.log| - 1] == CompleteCall(true)
    ensures exit == 0 ==> (run.content == Some(file)
              <==> (part == 0 && Ceil(|file|, ps) < TWO_TO_31) || (part == 1 && Ceil(|file|, ps) == 1))
  {
    hide Replay, Follow, Slice, Carried, Ceil, WrapInt32, ReadsItsPart, Conserved, Ordered, SameRequests, Tokens,
         Unshaken, UploadProtocol.RunC, Settled, Sends, Completes, Willing, EndsDenied, CMultipart.Opens,
         CMultipart.Able, CMultipart.Unhindered;
    var w := new World(faults, net);
    var srv := new Server(answers);
    ghost var was := Now(w, srv);
    exit := CMultipart.All(w, srv, file, ps, part, memory);
    run := Run(w.trace, srv.log, srv.listed, BookOf(srv), srv.content);
    LawfulIsOrdered(run.trace);
    forall k ensures Conserved(run.trace, k) { IdleConserves(run.trace, k); }
    TokenBalance(run.trace);
    var (start, end) := Bounds(PlanC(|file|, ps, part));
    FromStart(was, run.log, run.trace, srv.parts, file, ps, start, end);
    LastCompletes(run.log);
    WrapBelow(Ceil(|file|, ps));
  }

  lemma LastCompletes(log: seq<Call>)
    ensures log != [] && log[|log| - 1] == CompleteCall(true) ==> Completes(log)
  {
  }

  lemma FromWire(s: Snap, log: seq<Call>, t: seq<Event>, parts: PartMap, file: seq<byte>, ps: nat, n: nat)
    requires ps > 0 && s.log == [] && s.rec == BLANK
    requires GoMultipart.WireCarried(s, Snap(log, Rec(t), parts), file, ps, n)
    ensures GoMultipart.RunWired(log, n) && SameRequests(log, t) && |PartCalls(log)| == |Rec(t).puts| && log != []
    ensures GoMultipart.ReadInOrder(Rec(t).puts, file, ps, 1)
  {
    hide Rec, PartCalls, Ceil, GoMultipart.ReadInOrder, GoMultipart.WirePuts;
    assert log[0..] == log && Rec(t).puts[0..] == Rec(t).puts;
  }

  /** The Go client, for every schedule of faults; `stat` tells whether the file's status can be had. Part numbers are
      32 bits on the wire: the history is described by them for any number of parts, and by the plan's own numbers below
      2^31. Up to 2^32 parts the completed list carries the server's own ETags. */
  method RunGo(file: seq<byte>, ps: nat, stat: bool, faults: Schedule, answers: Answers)
    returns (run: Run, ok: bool)
    requires ps > 0 && |file| + ps - 1 < TWO_TO_63
    ensures Lawful(run.trace) && Ordered(run.trace) && Follow(run.trace, faults) && forall k :: Conserved(run.trace, k)
    ensures Rec(run.trace).abandoned == 0
    ensures run.log == [] <==> file == [] || !stat
    ensures run.log == [] ==> !ok && run.trace == [] && run.book == NO_BOOK
    ensures run.log != [] ==>
              && GoMultipart.RunWired(run.log, Ceil(|file|, ps)) && SameRequests(run.log, run.trace)
              && Settled(NO_BOOK, run.book, run.log)
              && Tokens(run.trace) == |PartCalls(run.log)| && GoMultipart.ReadInOrder(Rec(run.trace).puts, file, ps, 1)
              && (ok <==> run.log[|run.log| - 1] == CompleteCall(true))
              && (ok && Ceil(|file|, ps) <= TWO_TO_32 ==> run.content == Some(file))
              && (Faultless(faults) && run.log[0] == CreateCall(true) && !ok ==> EndsDenied(run.log))
              && (Faultless(faults) && Willing(answers) && Ceil(|file|, ps) <= TWO_TO_32 ==> ok)
    ensures Sends(run.log) ==> GoMultipart.Able(faults)
    ensures Completes(run.log) ==> Works(faults, OpenFile) && GoMultipart.Numbered(run.listed, 1, Ceil(|file|, ps))
    ensures run.log != [] && Ceil(|file|, ps) < TWO_TO_31 ==>
              && UploadProtocol.RunC(run.log, 1, Ceil(|file|, ps), true)
              && IsRange(|file|, ps, 1, Ceil(|file|, ps)) && ReadsItsPart(run.trace, file, ps, 1, Ceil(|file|, ps))
  {
    hide Replay, Follow, Slice, Carried, Ceil, ReadsItsPart, Conserved, Ordered, SameRequests, Tokens, Unshaken,
         UploadProtocol.RunC, Settled, Sends, Completes, Willing, EndsDenied, Faultless, GoMultipart.Able, Works;
    var w := new World(faults, NOBODY);
    var srv := new Server(answers);
    ghost var was := Now(w, srv);
    ok := GoMultipart.All(w, srv, file, ps, stat);
    run := Run(w.trace, srv.log, srv.listed, BookOf(srv), srv.content);
    LawfulIsOrdered(run.trace);
    forall k ensures Conserved(run.trace, k) { IdleConserves(run.trace, k); }
    TokenBalance(run.trace);
    if file != [] && stat {
      CeilBounds(|file|, ps);
      FromWire(was, run.log, run.trace, srv.parts, file, ps, Ceil(|file|, ps));
      if Ceil(|file|, ps) < TWO_TO_31 { FromStart(was, run.log, run.trace, srv.parts, file, ps, 1, Ceil(|file|, ps)); }
    } else {
      assert run.log[0..] == run.log;
    }
  }

  /** The Python client, for every schedule of faults: exactly one end, for the upload that was created, and everything
      released but a websocket, and that exactly when it was dialed and no queue pair became ready to send behind it.
      Out of range, a `-part` option sends no part and no complete; in range and with no fault, only a request that was
      seen to fail leads to an abort. */
  method RunPython(file: seq<byte>, ps: int, part: int, faults: Schedule, answers: Answers)
    returns (run: Run, returned: bool)
    ensures Lawful(run.trace) && Ordered(run.trace) && Follow(run.trace, faults)
    ensures forall k :: k != Socket || returned ==> Conserved(run.trace, k)
    ensures Conserved(run.trace, Socket) <==> !Unshaken(run.trace)
    ensures SameRequests(run.log, run.trace) && Tokens(run.trace) == |PartCalls(run.log)| + Rec(run.trace).abandoned
    ensures returned ==> Rec(run.trace).abandoned == 0
    ensures var (start, end) := Bounds(PlanPython(|file|, ps, part));
            && (file != [] ==>
                  && IsRange(|file|, Effective(ps), start, end)
                  && ReadsItsPart(run.trace, file, Effective(ps), start, end))
            && (Completes(run.log) && end < TWO_TO_31 ==> run.listed == PartList(start, end))
    ensures run.log != [] && Settled(NO_BOOK, run.book, run.log)
    ensures run.log[0] == CreateCall(true) ==>
              |Terminals(run.log)| == 1 && Terminals(run.log)[0] == run.log[|run.log| - 1]
    ensures part < 0 || (ps > 0 && part > Ceil(|file|, ps)) ==> !Sends(run.log) && !Completes(run.log) && !returned
    ensures Sends(run.log) || Completes(run.log) ==>
              file != [] && OffersPython(|file|, ps, part) && PythonMultipart.Opens(faults)
    ensures Sends(run.log) ==> PythonMultipart.Able(faults)
    ensures Faultless(faults) && file != [] && OffersPython(|file|, ps, part)
            && run.log[0] == CreateCall(true) && !returned ==>
              DeniedBeforeLast(run.log)
    ensures Faultless(faults) && file != [] && OffersPython(|file|, ps, part) && Willing(answers)
            && Bounds(PlanPython(|file|, ps, part)).1 < TWO_TO_31 ==>
              returned
    ensures returned <==> run.log[|run.log| - 1] == CompleteCall(true)
    ensures returned && Bounds(PlanPython(|file|, ps, part)).1 < TWO_TO_31 ==>
              (run.content == Some(file) <==> PythonMultipart.WholePython(|file|, ps, part))
  {
    hide Replay, Follow, Slice, Slices, Carried, Ceil, ReadsItsPart, Conserved, Ordered, SameRequests, Tokens, Unshaken,
         RunManaged, PlanPython, Effective, Terminals, PythonMultipart.WholePython, Settled, Sends, Completes, Willing,
         DeniedBeforeLast, Faultless, PythonMultipart.Opens, PythonMultipart.Able;
    var w := new World(faults, NOBODY);
    var srv := new Server(answers);
    ghost var was := Now(w, srv);
    returned := PythonMultipart.All(w, srv, file, ps, part);
    run := Run(w.trace, srv.log, srv.listed, BookOf(srv), srv.content);
    LawfulIsOrdered(run.trace);
    forall k ensures Conserved(run.trace, k) <==> Get(w.st.live, k).None? { IdleConserves(run.trace, k); }
    assert Get(w.st.live, Socket) == w.st.live.socket;
    MarksShow(run.trace);
    TokenBalance(run.trace);
    var (start, end) := Bounds(PlanPython(|file|, ps, part));
    FromStart(was, run.log, run.trace, srv.parts, file, Effective(ps), start, end);
    ManagedNonEmpty(run.log, start, end);
    LastCompletes(run.log);
    if run.log[0] == CreateCall(true) { ExactlyOneEnd(run.log, start, end); }
  }

  lemma ManagedNonEmpty(calls: seq<Call>, start: int, end: int)
    requires RunManaged(calls, start, end)
    ensures calls != []
  {
  }

  /** The schedule as the platform makes it: a file too large for an array cannot be read. */
  function Platform(faults: Schedule, size: nat): Schedule {
    (site: Site, n: nat) =>
      if site == ReadFile && size > JavaMultipart.MAX_ARRAY && faults(site, n) == Fine then Error else faults(site, n)
  }

  lemma PlatformKeeps(faults: Schedule, size: nat)
    ensures JavaMultipart.OnPlatform(Platform(faults, size), size)
    ensures JavaMultipart.Readable(faults) ==> JavaMultipart.Readable(Platform(faults, size))
    ensures JavaSession.Unlinked(faults) ==> JavaSession.Unlinked(Platform(faults, size))
    ensures JavaSession.NoDirectMemory(faults) ==> JavaSession.NoDirectMemory(Platform(faults, size))
    ensures size <= JavaMultipart.MAX_ARRAY && JavaSession.OtherwiseFine(faults) ==>
              JavaSession.OtherwiseFine(Platform(faults, size))
    ensures size <= JavaMultipart.MAX_ARRAY && Faultless(faults) ==>
              Faultless(Platform(faults, size))
  {
  }

  /** No step ends in an `Error`. */
  ghost predicate Errorless(faults: Schedule) { forall site, n :: faults(site, n) != Error }

  lemma NothingThrown(t: seq<Event>, faults: Schedule, size: nat)
    requires Follow(t, Platform(faults, size)) && Errorless(faults) && size <= JavaMultipart.MAX_ARRAY
    ensures !Threw(t)
  {
  }

  /** The Java client, for every schedule of faults. The trace ends each step as the schedule says. A created upload
      gets exactly one end if and only if no `Error` was thrown. Verbs resources and memory are released if and only if
      no set-up or clean-up of a session threw an `Error` while the device was held, and websockets if and only if each
      was followed by a queue pair that became ready to send and no set-up threw an `Error` while one was held. All
      requests are for the one upload that was created. Out of range, a `-part` option sends no part and no complete; in
      range and with no fault, only a request that was seen to fail leads to an abort. */
  method RunJava(file: seq<byte>, ps: nat, part: int, faults: Schedule, answers: Answers)
    returns (run: Run, returned: bool)
    requires 0 < ps < TWO_TO_63
    ensures Lawful(run.trace) && Ordered(run.trace) && Follow(run.trace, Platform(faults, |file|))
    ensures forall k :: k != Socket && !Spilled(run.trace) ==> Conserved(run.trace, k)
    ensures Spilled(run.trace) ==> !Conserved(run.trace, Device)
    ensures Conserved(run.trace, Socket) <==> !Unshaken(run.trace) && !Dropped(run.trace)
    ensures SameRequests(run.log, run.trace) && Tokens(run.trace) == |PartCalls(run.log)| + Rec(run.trace).abandoned
    ensures returned ==> Rec(run.trace).abandoned == 0 && forall k :: Conserved(run.trace, k)
    ensures run.log != [] && Settled(NO_BOOK, run.book, run.log)
    ensures run.log[0] == CreateCall(true) ==> (|Terminals(run.log)| == 1 <==> !Threw(run.trace))
    ensures Threw(run.trace) ==> run.log[0] == CreateCall(true) && Terminals(run.log) == []
    ensures Errorless(faults) && |file| <= JavaMultipart.MAX_ARRAY ==> !Threw(run.trace) && !Spilled(run.trace)
    ensures var (start, end) := Bounds(PlanJava(|file|, ps, part));
            && (0 < |file| <= JavaMultipart.MAX_ARRAY ==>
                  IsRange(|file|, ps, start, end) && ReadsItsPart(run.trace, file, ps, start, end))
            && (|file| > JavaMultipart.MAX_ARRAY ==> Rec(run.trace) == BLANK)
            && (Completes(run.log) ==> run.listed == PartList(start, end))
    ensures run.log[0] == CreateCall(true) ==> Doomed(run.trace, faults, |file|, ps, part)
    ensures JavaSession.NoDirectMemory(faults) && Reached(run.trace) ==> Spilled(run.trace)
    ensures part < 0 || part > Ceil(|file|, ps) ==> !Sends(run.log) && !Completes(run.log) && !returned
    ensures Sends(run.log) || Completes(run.log) ==>
              && 0 < |file| <= JavaMultipart.MAX_ARRAY && OffersJava(|file|, ps, part)
              && JavaMultipart.Opens(Platform(faults, |file|))
    ensures Sends(run.log) ==> JavaMultipart.Able(Platform(faults, |file|))
    ensures Faultless(faults) && 0 < |file| <= JavaMultipart.MAX_ARRAY && OffersJava(|file|, ps, part)
            && run.log[0] == CreateCall(true) && !returned ==>
              DeniedBeforeLast(run.log)
    ensures Faultless(faults) && 0 < |file| <= JavaMultipart.MAX_ARRAY && OffersJava(|file|, ps, part)
            && Willing(answers) ==>
              returned
    ensures returned <==> run.log[|run.log| - 1] == CompleteCall(true)
    ensures returned ==> (run.content == Some(file) <==> JavaMultipart.WholeJava(|file|, ps, part))
  {
    hide Replay, Follow, Slice, Slices, Carried, Ceil, ReadsItsPart, Conserved, Ordered, SameRequests, RunManaged,
         RunThrown, PlanJava, Terminals, JavaMultipart.WholeJava, Tokens, Unshaken, Spilled, Dropped, Threw, Reached,
         JavaMultipart.Certain, JavaMultipart.OnPlatform, Platform, Errorless, Doomed, Settled, Sends, Completes,
         Willing, DeniedBeforeLast, Faultless, JavaMultipart.Opens, JavaMultipart.Able;
    PlatformKeeps(faults, |file|);
    var w := new World(Platform(faults, |file|), NOBODY);
    var srv := new Server(answers);
    ghost var was := Now(w, srv);
    var o := JavaMultipart.All(w, srv, file, ps, part);
    run := Run(w.trace, srv.log, srv.listed, BookOf(srv), srv.content);
    returned := o.Returned?;
    LastCompletes(run.log);
    LawfulIsOrdered(run.trace);
    forall k ensures Conserved(run.trace, k) <==> Get(w.st.live, k).None? { IdleConserves(run.trace, k); }
    assert Get(w.st.live, Device) == w.st.live.device && Get(w.st.live, Socket) == w.st.live.socket;
    MarksShow(run.trace);
    TokenBalance(run.trace);
    var (start, end) := Bounds(PlanJava(|file|, ps, part));
    FromStart(was, run.log, run.trace, srv.parts, file, ps, start, end);
    if o.Thrown? {
      NoEnd(run.log, start, end);
    } else if run.log[0] == CreateCall(true) {
      ExactlyOneEnd(run.log, start, end);
    }
    if run.log[0] == CreateCall(true) { DoomedBy(run.trace, faults, |file|, ps, part); }
    if Errorless(faults) && |file| <= JavaMultipart.MAX_ARRAY {
      NothingThrown(run.trace, faults, |file|);
      SpilledThrew(run.trace);
    }
  }

  lemma SpilledThrew(t: seq<Event>)
    ensures Spilled(t) ==> Threw(t)
  {
  }

  /** Failures that the input makes certain: `JavaMultipart.Certain`, in terms of the trace. */
  ghost predicate Doomed(t: seq<Event>, faults: Schedule, size: nat, ps: nat, part: int)
    requires 0 < ps < TWO_TO_63
  {
    var (start, end) := Bounds(PlanJava(size, ps, part));
    && (JavaMultipart.Readable(faults) && size > JavaMultipart.MAX_ARRAY && PlanJava(size, ps, part).Range? ==>
          Threw(t) && !Spilled(t))
    && (JavaMultipart.Readable(faults) && size > 0 && JavaSession.Unlinked(faults) && start <= end ==>
          Threw(t) && !Spilled(t))
    && (JavaSession.OtherwiseFine(faults) && JavaSession.NoDirectMemory(faults)
        && 0 < size <= JavaMultipart.MAX_ARRAY && start <= end ==>
          Spilled(t))
  }

  lemma DoomedBy(t: seq<Event>, faults: Schedule, size: nat, ps: nat, part: int)
    requires 0 < ps < TWO_TO_63 && Lawful(t)
    requires JavaMultipart.Certain(Platform(faults, size), size, ps, part, Replay(t).value.marks)
    ensures Doomed(t, faults, size, ps, part)
  {
    hide Replay, Platform, PlanJava, Threw, Spilled, JavaMultipart.Readable, JavaSession.Unlinked,
         JavaSession.NoDirectMemory, JavaSession.OtherwiseFine;
    MarksShow(t);
    PlatformKeeps(faults, size);
  }

  const TEN_BYTES: seq<byte> := [0, 1, 2, 3, 4, 5, 6, 7, 8, 9]

  lemma OnePart()
    ensures Bounds(PlanJava(|TEN_BYTES|, 5 * 1024 * 1024, 0)) == (1, 1)
  {
  }

  /** A concrete `Error`: ten bytes, and no native library. Whatever else happens, a created upload is left open. */
  method MissingLibrary(answers: Answers) returns (trace: seq<Event>, log: seq<Call>)
    ensures log != [] && (log[0] == CreateCall(true) ==> Terminals(log) == [])
    ensures forall k :: k != Socket ==> Conserved(trace, k)
  {
    hide Terminals, Conserved, Ordered, ReadsItsPart, Lawful, Threw, Spilled, Dropped, Unshaken, Reached, PlanJava,
         Follow, Platform, Errorless, Completes, Sends, Settled, Willing, DeniedBeforeLast, OffersJava, Ceil, PartList,
         JavaMultipart.Opens, JavaMultipart.Able, Faultless, SameRequests, Tokens, JavaMultipart.WholeJava;
    OnePart();
    var faults := (site: Site, n: nat) => if site == SetUp(Linking) || site == CleanUp(Linking) then Error else Fine;
    var run, returned := RunJava(TEN_BYTES, 5 * 1024 * 1024, 0, faults, answers);
    trace, log := run.trace, run.log;
    SpilledThrew(trace);
  }

  /** A concrete leak: ten bytes, and nothing fails but the allocation of direct memory. A created upload is left open
      and its device is never closed. */
  method NoDirectMemory(answers: Answers) returns (trace: seq<Event>, log: seq<Call>)
    ensures log != []
    ensures log[0] == CreateCall(true) ==> Terminals(log) == [] && !Conserved(trace, Device)
  {
    hide Terminals, Conserved, Ordered, ReadsItsPart, Lawful, Threw, Spilled, Dropped, Unshaken, Reached, PlanJava,
         Follow, Platform, Errorless, Completes, Sends, Settled, Willing, DeniedBeforeLast, OffersJava, Ceil, PartList,
         JavaMultipart.Opens, JavaMultipart.Able, Faultless, SameRequests, Tokens, JavaMultipart.WholeJava;
    OnePart();
    var faults := (site: Site, n: nat) => if site == SetUp(Acquiring(Mapping)) then Error else Fine;
    var run, returned := RunJava(TEN_BYTES, 5 * 1024 * 1024, 0, faults, answers);
    trace, log := run.trace, run.log;
    SpilledThrew(trace);
  }
}
