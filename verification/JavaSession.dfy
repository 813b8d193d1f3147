/** The RDMA session of the Java library. Every step that may fail does so as the schedule of the world says: with an
    exception, which `catch (Exception)` sees, or with an `Error`, which it does not (the native library cannot be
    linked, direct memory or the heap is exhausted, a symbol is missing). An `Error` leaves `sendSetup` past its
    clean-up. A step that has no exception to raise takes one for a normal end. */
module JavaSession {
  import opened Prelude
  import opened ResourceTrace
  import opened CSession
  import opened UploadSpec

  /** How a call ends: normally, with an exception, or with an `Error`. */
  datatype Outcome<T> = Returned(value: T) | Raised | Thrown

  /** How a call ends that is left by a failing step. */
  function Failed<T>(f: Fault): Outcome<T> { if f == Error then Thrown else Raised }

  /** No verbs resource is held. */
  predicate NoVerbs(l: Live) { WithoutVerbs(l) == l }

  /** No `Error` has been thrown, and no handshake has failed. */
  predicate Calm(m: Marks) { !m.shaking && !m.thrown && !m.spilled && !m.dropped }

  /** The native library cannot be linked. */
  ghost predicate Unlinked(faults: Schedule) {
    forall n :: faults(SetUp(Linking), n) == Error && faults(CleanUp(Linking), n) == Error
  }

  /** There is no direct memory. */
  ghost predicate NoDirectMemory(faults: Schedule) {
    forall n :: faults(SetUp(Acquiring(Mapping)), n) == Error
  }

  /** Nothing else fails. */
  ghost predicate OtherwiseFine(faults: Schedule) {
    forall site, n :: site != SetUp(Acquiring(Mapping)) ==> faults(site, n) == Fine
  }

  /** No step behind the handshake always fails; a buffer and a close know no exception. */
  ghost predicate OfferWorks(faults: Schedule) {
    && Survives(faults, SetUp(Acquiring(Mapping))) && Works(faults, SetUp(Acquiring(Region)))
    && Works(faults, SetUp(Announcing)) && Survives(faults, SetUp(Closing))
  }

  /** No step on the way to a delivered token does. */
  ghost predicate SetUpWorks(faults: Schedule) { DialWorks(faults) && OfferWorks(faults) }

  class RdmaSession {
    var ctx: Option<nat>
    var pd: Option<nat>
    var cq: Option<nat>
    var qp: Option<nat>
    var mr: Option<nat>
    var buf: Option<nat>

    ghost predicate Owns(l: Live)
      reads this
    {
      ctx == l.device && pd == l.domain && cq == l.completion && qp == l.queuePair && mr == l.region && buf == l.mapping
    }

    constructor ()
      ensures ctx.None? && pd.None? && cq.None? && qp.None? && mr.None? && buf.None?
    {
      ctx, pd, cq, qp, mr, buf := None, None, None, None, None, None;
    }

    /** `cleanup`, also behind `destroy` and `close`: releases children first. It begins by touching the library. If
        that or a release call throws, the device is held if it was before. */
    method Cleanup(w: World) returns (thrown: bool)
      requires w.Valid() && Owns(w.st.live) && !w.st.window
      modifies this, w
      ensures w.Valid() && !w.st.window && Rec(w.trace) == Rec(old(w.trace))
      ensures w.st.marks == if thrown then Crash(old(w.st.marks), CleanUp(Linking), old(w.st.live)) else old(w.st.marks)
      ensures !thrown ==> w.st.live == NOTHING.(socket := old(w.st.live.socket))
      ensures thrown ==> w.st.live.device == old(w.st.live.device) && w.st.live.socket == old(w.st.live.socket)
      ensures thrown && old(w.st.live.device).None? ==> w.st.live == old(w.st.live)
      ensures (Unlinked(w.faults) ==> thrown) && (Faultless(w.faults) ==> !thrown)
      ensures !thrown ==> ctx.None? && pd.None? && cq.None? && qp.None? && mr.None? && buf.None?
    {
      hide Replay, Follow, Rec, Legal, Apply;
      ReplaySound(w.trace);
      Rooted(w.st);
      var link := w.Ask(CleanUp(Linking));
      if link == Error { return true; }
      thrown := ReleaseChildren(w);
      if thrown { return; }
      thrown := ReleaseOrThrow(w, Device, ctx);
      if thrown { return; }
      ctx := None;
      Drop(w, Mapping, buf);
      buf := None;
    }

    /** The releases of `cleanup` before the device is closed. */
    method ReleaseChildren(w: World) returns (thrown: bool)
      requires w.Valid() && Owns(w.st.live) && !w.st.window
      modifies this, w
      ensures w.Valid() && Rec(w.trace) == Rec(old(w.trace))
      ensures ctx == old(ctx) && buf == old(buf)
      ensures w.st == old(w.st).(live := w.st.live, marks := w.st.marks)
      ensures w.st.marks == if thrown then Crash(old(w.st.marks), CleanUp(Linking), old(w.st.live)) else old(w.st.marks)
      ensures !thrown ==> w.st.live == WithoutVerbs(old(w.st.live)).(device := old(w.st.live.device))
      ensures w.st.live.device == old(w.st.live.device) && w.st.live.socket == old(w.st.live.socket)
      ensures NoVerbs(old(w.st.live)) || Faultless(w.faults) ==> !thrown
      ensures !thrown ==> pd.None? && cq.None? && qp.None? && mr.None?
    {
      hide Replay, Follow, Rec, Legal, Apply;
      thrown := ReleaseOrThrow(w, Region, mr);
      if thrown { return; }
      mr := None;
      thrown := ReleaseOrThrow(w, QueuePair, qp);
      if thrown { return; }
      qp := None;
      thrown := ReleaseOrThrow(w, Completion, cq);
      if thrown { return; }
      cq := None;
      thrown := ReleaseOrThrow(w, Domain, pd);
      if thrown { return; }
      pd := None;
    }

    /** Device, protection domain, completion queue, queue pair. */
    method AcquireVerbs(w: World) returns (o: Outcome<()>)
      requires w.Valid() && Owns(w.st.live) && OnlySocket(w.st.live) && w.st.live.socket.Some? && !w.st.window
      requires !w.st.marks.thrown && !w.st.marks.spilled && !w.st.marks.dropped
      modifies this, w
      ensures w.Valid() && Owns(w.st.live) && !w.st.window && Rec(w.trace) == Rec(old(w.trace))
      ensures WithoutVerbs(w.st.live) == old(w.st.live) && w.st.live.region.None?
      ensures w.st.marks == Left(old(w.st.marks), o, w.st.live)
      ensures o.Returned? ==> w.st.live.device.Some? && w.st.live.domain.Some? && w.st.live.completion.Some?
      ensures o.Returned? ==> w.st.live.queuePair.Some? && w.st.qp == Reset && !w.st.announced
      ensures (OtherwiseFine(w.faults) ==> o.Returned?) && (o.Returned? ==> VerbsWork(w.faults))
    {
      hide Replay, Follow, Rec, Legal, Apply, Childless, Crash, Works, OtherwiseFine;
      var f;
      ctx, f := ObtainOrFail(w, Device);
      if f == Fine { pd, f := ObtainOrFail(w, Domain); }
      if f == Fine { cq, f := ObtainOrFail(w, Completion); }
      if f == Fine { qp, f := ObtainOrFail(w, QueuePair); }
      o := if f == Fine then Returned(()) else Failed(f);
    }

    /** `handshake`: neither an exception nor an `Error` closes the websocket. */
    method Handshake(w: World) returns (o: Outcome<()>)
      requires w.Valid() && Owns(w.st.live) && w.st.live == NOTHING && !w.st.window && Calm(w.st.marks)
      modifies this, w
      ensures w.Valid() && Owns(w.st.live) && !w.st.window && Rec(w.trace) == Rec(old(w.trace))
      ensures w.st.live.mapping.None? && w.st.live.region.None?
      ensures var m := w.st.marks;
              && (w.st.live.socket.Some? <==> o.Returned? || m.shaking) && (o.Returned? ==> !m.shaking)
              && (m.thrown <==> o.Thrown?) && (m.spilled <==> o.Thrown? && w.st.live.device.Some?)
              && (m.dropped <==> o.Thrown? && w.st.live.socket.Some?)
              && m.reached == (old(w.st.marks.reached) || o.Returned?)
      ensures w.st.live.device.None? ==> OnlySocket(w.st.live)
      ensures Unlinked(w.faults) ==> !o.Returned? && w.st.live.device.None?
      ensures o.Returned? ==> w.st.live.device.Some? && w.st.live.domain.Some? && w.st.live.completion.Some?
      ensures o.Returned? ==> w.st.live.queuePair.Some? && w.st.qp == ReadyToSend && !w.st.announced
      ensures OtherwiseFine(w.faults) ==> o.Returned?
      ensures o.Returned? ==> DialWorks(w.faults) && Survives(w.faults, SetUp(Linking))
    {
      hide Replay, Follow, Rec, Works, Survives, VerbsWork, RiseWorks;
      var f := w.Ask(SetUp(Acquiring(Socket)));
      if f != Fine { return Failed(f); }
      w.Emit(Acquire(Socket, w.st.next, 0));
      f := w.Ask(SetUp(Enrolling));
      if f != Fine { return Failed(f); }
      f := w.Ask(SetUp(Linking));
      if f == Error { return Thrown; }
      o := AcquireVerbs(w);
      if o.Returned? { o := RaiseQueuePair(w); }
      ReplaySound(w.trace);
      Rooted(w.st);
    }

    /** Buffer, region and token. A direct buffer that cannot be had is an `Error`. */
    method Offer(w: World, data: seq<byte>) returns (o: Outcome<()>)
      requires w.Valid() && Owns(w.st.live) && !w.st.window && !w.st.announced && w.st.qp == ReadyToSend && data != []
      requires w.st.live.mapping.None? && w.st.live.region.None? && w.st.live.socket.Some? && w.st.live.device.Some?
      requires w.st.live.queuePair.Some? && w.st.live.domain.Some? && Calm(w.st.marks)
      modifies this, w
      ensures w.Valid() && Owns(w.st.live) && w.st.window == o.Returned?
      ensures w.st.live == old(w.st.live).(mapping := w.st.live.mapping, region := w.st.live.region)
      ensures w.st.marks == Left(old(w.st.marks), o, w.st.live)
      ensures o.Returned? ==> w.st.live.mapping.Some? && w.st.live.region.Some? && w.st.mem == data
      ensures w.st.live.mapping.None? ==> o.Thrown?
      ensures (NoDirectMemory(w.faults) ==> w.st.live.mapping.None?) && (Faultless(w.faults) ==> o.Returned?)
      ensures Rec(w.trace) == if w.st.live.mapping.None? then Rec(old(w.trace)) else Note(Rec(old(w.trace)), Fill(data))
      ensures o.Returned? ==> Survives(w.faults, SetUp(Acquiring(Mapping)))
      ensures o.Returned? ==> Works(w.faults, SetUp(Acquiring(Region))) && Works(w.faults, SetUp(Announcing))
    {
      hide Replay, Follow, Rec, OtherwiseFine, NoDirectMemory, Legal, Apply, Works, Survives;
      buf := FillDirect(w, data);
      if buf.None? { return Thrown; }
      var f;
      mr, f := RegionOrFail(w);
      if mr.None? { return Failed(f); }
      f := w.Ask(SetUp(Announcing));
      SendToken(w, f == Fine);
      if f != Fine { return Failed(f); }
      o := Returned(());
    }
  }

  /** The marks behind a part of the set-up that ended with `o`, with `l` held and the websocket open. */
  function Left<T>(m: Marks, o: Outcome<T>, l: Live): Marks {
    if o.Thrown? then Crash(m, SetUp(Linking), l) else m
  }

  /** A call of the verbs library that yields a resource or fails: a null result becomes an exception. */
  method ObtainOrFail(w: World, k: Kind) returns (h: Option<nat>, f: Fault)
    requires w.Valid() && IsVerb(k) && Get(w.st.live, k).None? && Supported(w.st.live, k)
    modifies w
    ensures w.Valid() && Rec(w.trace) == Rec(old(w.trace))
    ensures h.Some? <==> f == Fine
    ensures h.Some? ==> h.value == old(w.st.next) && w.st == WithVerb(old(w.st), k)
    ensures h.None? ==> w.st == old(w.st).(marks := Left<()>(old(w.st.marks), Failed(f), old(w.st.live)))
    ensures (OtherwiseFine(w.faults) ==> f == Fine) && (f == Fine ==> Works(w.faults, SetUp(Acquiring(k))))
  {
    hide Replay, Follow, Rec, Works, Survives;
    f := w.Ask(SetUp(Acquiring(k)));
    if f != Fine { return None, f; }
    h := Some(w.st.next);
    w.Emit(Acquire(k, w.st.next, 0));
  }

  /** Registers the buffer; a null result becomes an exception. */
  method RegionOrFail(w: World) returns (h: Option<nat>, f: Fault)
    requires w.Valid() && w.st.live.domain.Some? && w.st.live.mapping.Some? && w.st.live.region.None? && w.st.filled
    modifies w
    ensures w.Valid() && Rec(w.trace) == Rec(old(w.trace))
    ensures h.Some? <==> f == Fine
    ensures h.Some? ==> h.value == old(w.st.next) && w.st == WithRegion(old(w.st))
    ensures h.None? ==> w.st == old(w.st).(marks := Left<()>(old(w.st.marks), Failed(f), old(w.st.live)))
    ensures (Faultless(w.faults) ==> h.Some?) && (h.Some? ==> Works(w.faults, SetUp(Acquiring(Region))))
  {
    hide Replay, Follow, Rec, Works, Survives;
    f := w.Ask(SetUp(Acquiring(Region)));
    if f != Fine { return None, f; }
    h := Some(w.st.next);
    w.Emit(Acquire(Region, w.st.next, |w.st.mem|));
  }

  /** A direct buffer with the data in it; `None` is an `Error`. */
  method FillDirect(w: World, data: seq<byte>) returns (h: Option<nat>)
    requires w.Valid() && w.st.live.mapping.None? && w.st.live.region.None?
    modifies w
    ensures w.Valid() && (NoDirectMemory(w.faults) ==> h.None?) && (Faultless(w.faults) ==> h.Some?)
    ensures h.None? ==> w.st == old(w.st).(marks := Crash(old(w.st.marks), SetUp(Linking), old(w.st.live)))
    ensures h.Some? ==> w.st == old(w.st).(live := old(w.st.live).(mapping := h), next := old(w.st.next) + 1,
                                           mem := data, filled := true)
    ensures Rec(w.trace) == if h.None? then Rec(old(w.trace)) else Note(Rec(old(w.trace)), Fill(data))
    ensures h.Some? ==> Survives(w.faults, SetUp(Acquiring(Mapping)))
  {
    hide Replay, Follow, Rec, Works, Survives;
    var f := w.Ask(SetUp(Acquiring(Mapping)));
    if f == Error { return None; }
    h := Some(w.st.next);
    w.Emit(Acquire(Mapping, w.st.next, |data|));
    w.Emit(Fill(data));
  }

  /** INIT, the queue-pair exchange over the control channel, RTR, RTS. */
  method RaiseQueuePair(w: World) returns (o: Outcome<()>)
    requires w.Valid() && w.st.live.queuePair.Some? && w.st.qp == Reset
    modifies w
    ensures w.Valid() && Rec(w.trace) == Rec(old(w.trace))
    ensures w.st == old(w.st).(qp := w.st.qp, marks := w.st.marks)
    ensures if o.Returned? then w.st.qp == ReadyToSend && w.st.marks == Shaken(old(w.st.marks))
            else w.st.marks == Left(old(w.st.marks), o, w.st.live)
    ensures (OtherwiseFine(w.faults) ==> o.Returned?) && (o.Returned? ==> RiseWorks(w.faults))
  {
    hide Replay, Follow, Rec, Works, Survives;
    var f := Move(w, Init);
    if f != Fine { return Failed(f); }
    f := w.Ask(SetUp(Querying));
    if f != Fine { return Failed(f); }
    f := w.Ask(SetUp(Exchanging));
    if f != Fine { return Failed(f); }
    f := Move(w, ReadyToReceive);
    if f != Fine { return Failed(f); }
    f := Move(w, ReadyToSend);
    if f != Fine { return Failed(f); }
    o := Returned(());
  }

  /** One transition of the queue pair. */
  method Move(w: World, q: QpState) returns (f: Fault)
    requires w.Valid() && w.st.live.queuePair.Some? && Follows(w.st.qp, q)
    modifies w
    ensures w.Valid() && Rec(w.trace) == Rec(old(w.trace)) && f == w.faults(SetUp(Moving(q)), |old(w.trace)|)
    ensures f == Fine ==> Works(w.faults, SetUp(Moving(q)))
    ensures f != Fine ==> w.st == old(w.st).(marks := Left<()>(old(w.st.marks), Failed(f), old(w.st.live)))
    ensures f == Fine ==> w.st == old(w.st).(qp := q, marks := w.st.marks)
    ensures f == Fine ==> w.st.marks == if q == ReadyToSend then Shaken(old(w.st.marks)) else old(w.st.marks)
  {
    hide Replay, Follow, Rec, Works, Survives;
    f := w.Ask(SetUp(Moving(q)));
    if f == Fine { w.Emit(ToState(q)); }
  }

  /** `if (p != null) lib.release(p)`, where the call may throw. */
  method ReleaseOrThrow(w: World, k: Kind, p: Option<nat>) returns (thrown: bool)
    requires w.Valid() && p == Get(w.st.live, k) && Childless(w.st.live, k) && !w.st.window
    modifies w
    ensures Rec(w.trace) == Rec(old(w.trace)) && w.Valid()
    ensures thrown ==> p.Some? && w.st == old(w.st).(marks := Crash(old(w.st.marks), CleanUp(Linking), old(w.st.live)))
    ensures !thrown ==> w.st == old(w.st).(live := Set(old(w.st.live), k, None))
    ensures Faultless(w.faults) ==> !thrown
  {
    hide Replay, Follow, Rec;
    if p.None? { return false; }
    var f := w.Ask(CleanUp(Releasing(k)));
    if f == Error { return true; }
    w.Emit(Release(k, p.value));
    return false;
  }

  /** Without a device there is no verbs resource. */
  lemma Rooted(s: Ledger)
    requires Sound(s)
    ensures !NoVerbs(s.live) ==> s.live.device.Some?
  {
    assert Get(s.live, Region) == s.live.region && Get(s.live, QueuePair) == s.live.queuePair;
    assert Get(s.live, Domain) == s.live.domain && Get(s.live, Completion) == s.live.completion;
  }

  /** `sendSetup`. A normal return holds everything but the websocket, with the token delivered. Otherwise verbs
      resources are held if and only if an `Error` was thrown while the device was held, and a websocket if and only if
      no queue pair became ready to send behind it or an `Error` was thrown while it was held. Every call throws if the
      library cannot be linked; without direct memory none returns, and one whose queue pair becomes ready to send
      leaks. If nothing fails, the call returns; it returns only if no step always fails. */
  method SendSetup(w: World, data: seq<byte>) returns (o: Outcome<RdmaSession>)
    requires w.Valid() && Idle(w.st) && data != [] && Calm(w.st.marks)
    requires NoDirectMemory(w.faults) ==> !w.st.marks.reached
    modifies w
    ensures w.Valid() && w.st.window == o.Returned?
    ensures o.Returned? ==> fresh(o.value) && o.value.Owns(w.st.live) && FullSession(w.st.live) && w.st.mem == data
    ensures var m := w.st.marks;
            && (m.thrown <==> o.Thrown?) && (w.st.live.device.Some? <==> o.Returned? || m.spilled)
            && (o.Returned? ==> Calm(m)) && (w.st.live.socket.Some? <==> m.shaking || m.dropped)
            && (w.st.live.device.None? ==> OnlySocket(w.st.live))
            && (Unlinked(w.faults) ==> o.Thrown? && !m.spilled)
            && (NoDirectMemory(w.faults) ==> !o.Returned? && (m.reached ==> m.spilled))
            && (NoDirectMemory(w.faults) && OtherwiseFine(w.faults) ==> m.spilled)
            && (Faultless(w.faults) ==> o.Returned?)
    ensures o.Returned? ==> SetUpWorks(w.faults)
    ensures var now, was := Rec(w.trace), Rec(old(w.trace));
            && (o.Returned? ==> now == Note(was, Fill(data)))
            && (|| now == was || now == Note(was, Fill(data))
                || (o.Thrown? && now == Note(Note(was, Fill(data)), Abandon)))
  {
    hide Replay, Follow, Rec, Works, Survives, DialWorks;
    var s := new RdmaSession();
    var shake := s.Handshake(w);
    if shake.Thrown? { return Thrown; }
    if shake.Returned? {
      var offer := s.Offer(w, data);
      if offer.Thrown? { return Thrown; }
      var f := w.Ask(SetUp(Closing));
      if f == Error {
        if offer.Returned? { w.Emit(Abandon); }
        return Thrown;
      }
      WsClose(w);
      if offer.Returned? { return Returned(s); }
    }
    var thrown := s.Cleanup(w);
    o := if thrown then Thrown else Raised;
  }
}
