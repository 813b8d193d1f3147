/** The RDMA session of the Python library: the session owns its buffer, failures are exceptions, and `_cleanup`
    clears every field it releases. */
module PythonSession {
  import opened Prelude
  import opened ResourceTrace
  import opened CSession
  import opened UploadSpec

  /** No step behind the handshake does. */
  ghost predicate OfferWorks(faults: Schedule) {
    && Works(faults, SetUp(Acquiring(Mapping))) && Works(faults, SetUp(Acquiring(Region)))
    && Works(faults, SetUp(Announcing)) && Works(faults, SetUp(Closing))
  }

  /** No step on the way to a delivered token does. */
  ghost predicate SetUpWorks(faults: Schedule) { DialWorks(faults) && OfferWorks(faults) }

  class RDMASession {
    var ctx: Option<nat>
    var pd: Option<nat>
    var cq: Option<nat>
    var qp: Option<nat>
    var mr: Option<nat>
    var buf: Option<nat>

    ghost predicate Owns(l: Live)
      reads this
    {
      ctx == l.device && pd == l.domain && cq == l.completion && qp == l.queuePair && mr == l.region && buf == l.mapping
    }

    predicate Cleared()
      reads this
    {
      ctx.None? && pd.None? && cq.None? && qp.None? && mr.None? && buf.None?
    }

    constructor ()
      ensures Cleared()
    {
      ctx, pd, cq, qp, mr, buf := None, None, None, None, None, None;
    }

    /** `_cleanup`, also behind `destroy`: releases children first; a second call does nothing. */
    method Cleanup(w: World)
      requires w.Valid() && Owns(w.st.live) && !w.st.window
      modifies this, w
      ensures w.Valid() && w.st == old(w.st).(live := NOTHING.(socket := old(w.st.live.socket)))
      ensures Owns(w.st.live) && Cleared() && Rec(w.trace) == Rec(old(w.trace))
      ensures old(Cleared()) ==> w.trace == old(w.trace)
    {
      hide Replay, Follow, Rec, Legal, Apply;
      DropVerbs(w, mr, qp, cq, pd, ctx);
      Drop(w, Mapping, buf);
      mr, qp, cq, pd, ctx, buf := None, None, None, None, None, None;
    }

    method AcquireVerbs(w: World) returns (ok: bool)
      requires w.Valid() && Owns(w.st.live) && OnlySocket(w.st.live) && !w.st.window
      modifies this, w
      ensures w.Valid() && Owns(w.st.live) && !w.st.window && Rec(w.trace) == Rec(old(w.trace))
      ensures WithoutVerbs(w.st.live) == old(w.st.live) && w.st.live.region.None?
      ensures ok ==> w.st.live.device.Some? && w.st.live.domain.Some?
      ensures ok ==> w.st.live.completion.Some? && w.st.live.queuePair.Some?
      ensures ok ==> w.st.qp == Reset && !w.st.announced
      ensures w.st.marks == old(w.st.marks)
      ensures (Faultless(w.faults) ==> ok) && (ok ==> VerbsWork(w.faults))
    {
      hide Replay, Follow, Rec, Legal, Apply, Childless, Works, Faultless;
      ctx := Obtain(w, Device);
      if ctx.None? { return false; }
      pd := Obtain(w, Domain);
      if pd.None? { return false; }
      cq := Obtain(w, Completion);
      if cq.None? { return false; }
      qp := Obtain(w, QueuePair);
      return qp.Some?;
    }

    /** `_handshake`: an exception leaves the websocket to nobody. */
    method Handshake(w: World) returns (ok: bool)
      requires w.Valid() && Owns(w.st.live) && w.st.live == NOTHING && !w.st.window && !w.st.marks.shaking
      modifies this, w
      ensures w.Valid() && Owns(w.st.live) && !w.st.window && Rec(w.trace) == Rec(old(w.trace))
      ensures w.st.live.mapping.None? && w.st.live.region.None?
      ensures w.st.live.socket.Some? <==> ok || w.st.marks.shaking
      ensures ok ==> !w.st.marks.shaking
      ensures ok ==> w.st.live.device.Some? && w.st.live.domain.Some?
      ensures ok ==> w.st.live.completion.Some? && w.st.live.queuePair.Some?
      ensures ok ==> w.st.qp == ReadyToSend && !w.st.announced
      ensures Faultless(w.faults) ==> ok
      ensures ok ==> DialWorks(w.faults)
    {
      hide Replay, Follow, Rec, Works, Faultless, VerbsWork, RiseWorks;
      var ws := w.Try(Socket, 0);
      if ws.None? { return false; }
      ok := w.Call(SetUp(Enrolling));
      if ok { ok := AcquireVerbs(w); }
      if ok { ok := BringUp(w); }
    }

    /** Buffer, region and token; on any exception the caller closes the websocket and cleans up. `closes` tells whether
        `ws.close()` returns; if it raises behind a token that was sent, the token is given up. */
    method Offer(w: World, data: seq<byte>) returns (sent: bool, closes: bool)
      requires w.Valid() && Owns(w.st.live) && !w.st.window && !w.st.announced && w.st.qp == ReadyToSend && data != []
      requires w.st.live.mapping.None? && w.st.live.region.None? && w.st.live.socket.Some?
      requires w.st.live.queuePair.Some? && w.st.live.domain.Some?
      modifies this, w
      ensures w.Valid() && Owns(w.st.live) && w.st.window == (sent && closes)
      ensures w.st.live == old(w.st.live).(mapping := w.st.live.mapping, region := w.st.live.region)
      ensures w.st.marks == old(w.st.marks)
      ensures sent ==> w.st.live.mapping.Some? && w.st.live.region.Some? && w.st.mem == data
      ensures var now, filled := Rec(w.trace), Note(Rec(old(w.trace)), Fill(data));
              if sent then now == (if closes then filled else Note(filled, Abandon))
              else now == filled || now == Rec(old(w.trace))
      ensures Faultless(w.faults) ==> sent && closes
      ensures sent && closes ==> OfferWorks(w.faults)
    {
      hide Replay, Follow, Rec, Childless, Crash, Shaken, Works, Faultless;
      sent, closes := false, false;
      buf := w.Try(Mapping, |data|);
      if buf.None? { return; }
      w.Emit(Fill(data));
      mr := TryRegion(w);
      if mr.None? { return; }
      sent := w.Call(SetUp(Announcing));
      SendToken(w, sent);
      if !sent { return; }
      closes := w.Call(SetUp(Closing));
      if !closes { w.Emit(Abandon); }
    }
  }

  /** `send_setup`: success holds everything but the websocket, with the token delivered. On failure nothing is held but
      a websocket, and that exactly when one was dialed and no queue pair became ready to send behind it. A token is
      given up exactly when it was delivered and the call failed. The call succeeds if no step fails, and only if none
      always fails. */
  method SendSetup(w: World, data: seq<byte>) returns (s: RDMASession?)
    requires w.Valid() && Idle(w.st) && data != [] && !w.st.marks.shaking
    modifies w
    ensures w.Valid()
    ensures s == null ==> OnlySocket(w.st.live) && !w.st.window
    ensures w.st.live.socket.Some? <==> w.st.marks.shaking
    ensures w.st.marks.shaking <==> Unshaken(w.trace)
    ensures s != null ==> fresh(s) && s.Owns(w.st.live) && w.st.window && FullSession(w.st.live) && w.st.mem == data
    ensures var now, was := Rec(w.trace), Rec(old(w.trace));
            && (s != null ==> now == Note(was, Fill(data)))
            && (now == was || now == Note(was, Fill(data)) || now == Note(Note(was, Fill(data)), Abandon))
            && now.abandoned - was.abandoned
               == Tokens(w.trace) - Tokens(old(w.trace)) - (if s != null then 1 else 0)
    ensures (Faultless(w.faults) ==> s != null) && (s != null ==> SetUpWorks(w.faults))
  {
    hide Replay, Follow, Rec, Tokens, SetUpWorks, Faultless;
    TokenBalance(w.trace);
    s := Setup(w, data);
    TokenBalance(w.trace);
    MarksShow(w.trace);
  }

  /** The two halves of `send_setup` and its handler. */
  method Setup(w: World, data: seq<byte>) returns (s: RDMASession?)
    requires w.Valid() && Idle(w.st) && data != [] && !w.st.marks.shaking
    modifies w
    ensures w.Valid() && (s == null ==> OnlySocket(w.st.live) && !w.st.window)
    ensures w.st.live.socket.Some? <==> w.st.marks.shaking
    ensures s != null ==> fresh(s) && s.Owns(w.st.live) && w.st.window && FullSession(w.st.live) && w.st.mem == data
    ensures var now, was := Rec(w.trace), Rec(old(w.trace));
            && (s != null ==> now == Note(was, Fill(data)))
            && (now == was || now == Note(was, Fill(data)) || now == Note(Note(was, Fill(data)), Abandon))
    ensures (Faultless(w.faults) ==> s != null) && (s != null ==> SetUpWorks(w.faults))
  {
    hide Replay, Follow, Rec, DialWorks, OfferWorks, Faultless;
    s := new RDMASession();
    var shaken := s.Handshake(w);
    if !shaken {
      s.Cleanup(w);
      return null;
    }
    var sent, closes := s.Offer(w, data);
    WsClose(w);
    if !sent || !closes {
      s.Cleanup(w);
      s := null;
    }
  }
}
