/** The RDMA session of the C library: `rdma_handshake`, `rdma_send_setup`, `cleanup`. Every verbs and socket call may
    fail. */
module CSession {
  import opened Prelude
  import opened ResourceTrace
  import opened WebSocketFrames
  import opened WebSocketUpgrade

  /** The ledger's resources without those of the verbs library. */
  function WithoutVerbs(l: Live): Live {
    l.(device := None, domain := None, completion := None, queuePair := None, region := None)
  }

  /** Only the mapping is held. */
  predicate OnlyMapping(l: Live) { l.mapping.Some? && l.socket.None? && WithoutVerbs(l) == l }

  /** Everything but the socket is held. */
  predicate FullSession(l: Live) {
    && l.mapping.Some? && l.socket.None? && l.device.Some? && l.domain.Some?
    && l.completion.Some? && l.queuePair.Some? && l.region.Some?
  }

  /** `if (p) release(p)` */
  method Drop(w: World, k: Kind, p: Option<nat>)
    requires w.Valid() && p == Get(w.st.live, k) && Childless(w.st.live, k) && !w.st.window
    modifies w
    ensures Rec(w.trace) == Rec(old(w.trace))
    ensures w.Valid() && w.st == old(w.st).(live := Set(old(w.st.live), k, None))
    ensures p.None? ==> w.trace == old(w.trace)
  {
    hide Replay, Follow, Rec;
    if p.Some? { w.Emit(Release(k, p.value)); }
  }

  /** The five release calls of a clean-up, children first. */
  method DropVerbs(w: World, mr: Option<nat>, qp: Option<nat>, cq: Option<nat>, pd: Option<nat>, ctx: Option<nat>)
    requires w.Valid() && !w.st.window && mr == w.st.live.region && qp == w.st.live.queuePair
    requires cq == w.st.live.completion && pd == w.st.live.domain && ctx == w.st.live.device
    modifies w
    ensures Rec(w.trace) == Rec(old(w.trace))
    ensures w.Valid() && w.st == old(w.st).(live := WithoutVerbs(old(w.st.live)))
    ensures mr.None? && qp.None? && cq.None? && pd.None? && ctx.None? ==> w.trace == old(w.trace)
  {
    hide Replay, Follow, Rec;
    Drop(w, Region, mr);
    Drop(w, QueuePair, qp);
    Drop(w, Completion, cq);
    Drop(w, Domain, pd);
    Drop(w, Device, ctx);
  }

  /** None of the calls that acquire a verbs resource always fails. */
  ghost predicate VerbsWork(faults: Schedule) {
    && Works(faults, SetUp(Acquiring(Device))) && Works(faults, SetUp(Acquiring(Domain)))
    && Works(faults, SetUp(Acquiring(Completion))) && Works(faults, SetUp(Acquiring(QueuePair)))
  }

  /** None of the steps that bring up a queue pair does. */
  ghost predicate RiseWorks(faults: Schedule) {
    && Works(faults, SetUp(Moving(Init))) && Works(faults, SetUp(Querying)) && Works(faults, SetUp(Exchanging))
    && Works(faults, SetUp(Moving(ReadyToReceive))) && Works(faults, SetUp(Moving(ReadyToSend)))
  }

  /** None of the steps of a handshake behind the dial does. */
  ghost predicate HandshakeWorks(faults: Schedule) {
    Works(faults, SetUp(Enrolling)) && VerbsWork(faults) && RiseWorks(faults)
  }

  /** None of the steps of a handshake does, with the dial done by a library. */
  ghost predicate DialWorks(faults: Schedule) { Works(faults, SetUp(Acquiring(Socket))) && HandshakeWorks(faults) }

  /** None of those on the way from the dial to a token does. */
  ghost predicate SessionWorks(faults: Schedule) {
    HandshakeWorks(faults) && Works(faults, SetUp(Acquiring(Region))) && Works(faults, SetUp(Announcing))
  }

  predicate IsVerb(k: Kind) { k == Device || k == Domain || k == Completion || k == QueuePair }

  /** The ledger with a new resource of the verbs library. */
  function WithVerb(s: Ledger, k: Kind): Ledger {
    s.(live := Set(s.live, k, Some(s.next)), next := s.next + 1, announced := s.announced && k != Device,
       qp := if k == QueuePair then Reset else s.qp)
  }

  /** A call of the verbs library that yields a resource or fails. */
  method Obtain(w: World, k: Kind) returns (h: Option<nat>)
    requires w.Valid() && IsVerb(k) && Get(w.st.live, k).None? && Supported(w.st.live, k)
    modifies w
    ensures w.Valid() && Rec(w.trace) == Rec(old(w.trace))
    ensures h.None? ==> w.st == old(w.st)
    ensures h.Some? ==> h.value == old(w.st.next) && w.st == WithVerb(old(w.st), k)
    ensures (Faultless(w.faults) ==> h.Some?) && (h.Some? ==> Works(w.faults, SetUp(Acquiring(k))))
  {
    hide Replay, Follow, Rec, Works, Faultless;
    h := w.Try(k, 0);
  }

  /** The ledger with the mapped memory registered. */
  function WithRegion(s: Ledger): Ledger {
    s.(live := s.live.(region := Some(s.next)), next := s.next + 1, regionSize := |s.mem|)
  }

  /** `ibv_reg_mr` over the whole of the mapped memory. */
  method TryRegion(w: World) returns (h: Option<nat>)
    requires w.Valid() && w.st.live.domain.Some? && w.st.live.mapping.Some? && w.st.live.region.None? && w.st.filled
    modifies w
    ensures w.Valid() && Rec(w.trace) == Rec(old(w.trace))
    ensures h.None? ==> w.st == old(w.st)
    ensures h.Some? ==> h.value == old(w.st.next) && w.st == WithRegion(old(w.st))
    ensures (Faultless(w.faults) ==> h.Some?) && (h.Some? ==> Works(w.faults, SetUp(Acquiring(Region))))
  {
    hide Replay, Follow, Rec, Works, Faultless;
    h := w.Try(Region, |w.st.mem|);
  }

  /** The token message for the registered memory. */
  method SendToken(w: World, delivered: bool)
    requires w.Valid() && w.st.live.socket.Some? && w.st.live.queuePair.Some? && w.st.qp == ReadyToSend
    requires w.st.live.region.Some? && w.st.live.mapping.Some? && !w.st.announced
    modifies w
    ensures w.Valid() && Rec(w.trace) == Rec(old(w.trace))
    ensures w.st == old(w.st).(announced := true, window := delivered)
  {
    hide Replay, Follow, Rec;
    w.Emit(Announce(w.st.live.region.value, w.st.live.mapping.value, 0, w.st.regionSize, delivered));
  }

  /** `struct rdma_session`: a null pointer is `None`. */
  class Session {
    var ctx: Option<nat>
    var pd: Option<nat>
    var cq: Option<nat>
    var qp: Option<nat>
    var mr: Option<nat>

    /** The session's pointers are exactly the verbs resources held. */
    ghost predicate Owns(l: Live)
      reads this
    {
      ctx == l.device && pd == l.domain && cq == l.completion && qp == l.queuePair && mr == l.region
    }

    /** `calloc` */
    constructor ()
      ensures ctx.None? && pd.None? && cq.None? && qp.None? && mr.None?
    {
      ctx, pd, cq, qp, mr := None, None, None, None, None;
    }

    /** `cleanup`: whatever was acquired is released, children first. */
    method Cleanup(w: World)
      requires w.Valid() && Owns(w.st.live) && !w.st.window
      modifies w
      ensures Rec(w.trace) == Rec(old(w.trace))
      ensures w.Valid() && w.st == old(w.st).(live := WithoutVerbs(old(w.st.live)))
    {
      hide Replay, Follow, Rec;
      DropVerbs(w, mr, qp, cq, pd, ctx);
    }

    /** Device, protection domain, completion queue, queue pair. */
    method AcquireVerbs(w: World) returns (ok: bool)
      requires w.Valid() && Owns(w.st.live) && WithoutVerbs(w.st.live) == w.st.live && !w.st.window
      modifies this, w
      ensures Rec(w.trace) == Rec(old(w.trace))
      ensures w.Valid() && Owns(w.st.live) && !w.st.window
      ensures w.st.mem == old(w.st.mem) && w.st.filled == old(w.st.filled)
      ensures WithoutVerbs(w.st.live) == old(w.st.live) && w.st.live.region.None?
      ensures ok ==> w.st.live.device.Some? && w.st.live.domain.Some?
      ensures ok ==> w.st.live.completion.Some? && w.st.live.queuePair.Some?
      ensures ok ==> w.st.qp == Reset && !w.st.announced
      ensures (Faultless(w.faults) ==> ok) && (ok ==> VerbsWork(w.faults))
    {
      hide Replay, Follow, Rec, Legal, Apply, Childless, Works, Faultless;
      ctx := Obtain(w, Device);
      if ctx.None? { return false; }
      pd := Obtain(w, Domain);
      if pd.None? { return false; }
      cq := Obtain(w, Completion);
      if cq.None? { return false; }
      qp := Obtain(w, QueuePair);
      return qp.Some?;
    }

    /** `rdma_handshake`, with whomever the network has at the time: on failure the socket is closed and the session
        keeps what it got; on success the socket is open and the queue pair is ready to send. It succeeds if no step
        fails and the host is welcoming, and only if no step always fails and some host accepts. */
    method Handshake(w: World) returns (ok: bool)
      requires w.Valid() && Owns(w.st.live) && OnlyMapping(w.st.live) && !w.st.window
      modifies this, w
      ensures Rec(w.trace) == Rec(old(w.trace))
      ensures w.Valid() && Owns(w.st.live) && !w.st.window
      ensures w.st.mem == old(w.st.mem) && w.st.filled == old(w.st.filled)
      ensures WithoutVerbs(w.st.live).(socket := None) == old(w.st.live) && w.st.live.region.None?
      ensures w.st.live.socket.Some? <==> ok
      ensures ok ==> w.st.live.device.Some? && w.st.live.domain.Some?
      ensures ok ==> w.st.live.completion.Some? && w.st.live.queuePair.Some?
      ensures ok ==> w.st.qp == ReadyToSend && !w.st.announced
      ensures Faultless(w.faults) && Welcoming(w.net) ==> ok
      ensures ok ==> HandshakeWorks(w.faults) && Accepting(w.net)
    {
      hide Replay, Follow, Rec, Works, Faultless, VerbsWork, RiseWorks, Accepts, Reachable;
      var peer := w.net(|w.trace|);
      var request: seq<byte> := *;
      var fd := new Descriptor(peer.stream, peer.healthy);
      ok := Dial(w, peer.addresses, request, fd);
      if !ok { return; }
      var registered := w.Call(SetUp(Enrolling));
      if registered {
        ok := AcquireVerbs(w);
        if ok { ok := BringUp(w); }
      } else {
        ok := false;
      }
      if !ok { WsClose(w); }
    }
  }

  /** Some address can be connected to. */
  ghost predicate Reachable(addresses: seq<Address>) {
    exists i :: 0 <= i < |addresses| && addresses[i].opens && addresses[i].connects
  }

  /** The host can always be connected to, answers with a response that switches protocols, and the connection is
      sound. */
  ghost predicate Welcoming(net: Network) {
    forall n :: Reachable(net(n).addresses) && Accepts(net(n).stream) && net(n).healthy
  }

  /** At some time or other the host can be connected to and answers so. */
  ghost predicate Accepting(net: Network) {
    exists n :: Reachable(net(n).addresses) && Accepts(net(n).stream)
  }

  /** The ledger is as it was, except for the socket. */
  ghost predicate SocketOnly(was: Ledger, now: Ledger) {
    now == was.(live := was.live.(socket := now.live.socket), next := now.next, marks := now.marks)
  }

  /** The address loop of `ws_dial`: a socket that cannot be connected is closed before the next address is tried. */
  method ConnectAny(w: World, addresses: seq<Address>) returns (ok: bool)
    requires w.Valid() && w.st.live.socket.None?
    modifies w
    ensures w.Valid() && SocketOnly(old(w.st), w.st) && Rec(w.trace) == Rec(old(w.trace))
    ensures (ok <==> Reachable(addresses)) && (w.st.live.socket.Some? <==> ok)
  {
    hide Replay, Follow, Rec;
    var i := 0;
    while i < |addresses|
      invariant 0 <= i <= |addresses| && w.Valid() && SocketOnly(old(w.st), w.st) && w.st.live.socket.None?
      invariant Rec(w.trace) == Rec(old(w.trace)) && !Reachable(addresses[..i])
    {
      var a := addresses[i];
      assert addresses[..i + 1] == addresses[..i] + [a];
      if a.opens {
        w.Emit(Acquire(Socket, w.st.next, 0));
        if a.connects { return true; }
        w.Emit(Release(Socket, w.st.live.socket.value));
      }
      i := i + 1;
    }
    assert addresses[..i] == addresses;
    ok := false;
  }

  /** `ws_dial`, with the resolved addresses, the text of the upgrade request and the connection that is obtained. The
      socket is held afterwards exactly on success; every other socket opened on the way has been closed. Success
      means that the response has been taken off the stream, and a connection that does not fail succeeds if and only
      if the response accepts: with a status of 101 it does, with another it does not, unless the text behind it has a 1
      in it. */
  method Dial(w: World, addresses: seq<Address>, request: seq<byte>, fd: Descriptor) returns (ok: bool)
    requires w.Valid() && w.st.live.socket.None?
    modifies w, fd
    ensures w.Valid() && SocketOnly(old(w.st), w.st) && Rec(w.trace) == Rec(old(w.trace))
    ensures w.st.live.socket.Some? <==> ok
    ensures ok ==> Reachable(addresses) && fd.output == old(fd.output) + request && Accepts(old(fd.input))
                   && fd.input == old(fd.input)[Taken(old(fd.input), 0).value..]
    ensures fd.healthy ==> (ok <==> Reachable(addresses) && Accepts(old(fd.input)))
    ensures forall code, text :: BeginsWith(old(fd.input), code, text) ==>
              && (fd.healthy && Reachable(addresses) && code == "101" ==> ok)
              && ('1' !in text && code != "101" ==> !ok)
  {
    hide Replay, Follow, Rec, Announces101, Taken, Reachable, BeginsWith;
    forall code, text | BeginsWith(fd.input, code, text)
      ensures (code == "101" ==> Accepts(fd.input)) && ('1' !in text && code != "101" ==> !Accepts(fd.input))
    {
      AcceptsByStatus(fd.input, code, text);
    }
    ok := ConnectAny(w, addresses);
    if !ok { return; }
    var n := fd.Write(request);
    if n != |request| {
      w.Emit(Release(Socket, w.st.live.socket.value));
      return false;
    }
    var total;
    ok, total := ReadResponse(fd);
    if !ok { w.Emit(Release(Socket, w.st.live.socket.value)); }
  }

  /** INIT, the queue-pair exchange over the control channel, RTR, RTS. */
  method BringUp(w: World) returns (ok: bool)
    requires w.Valid() && w.st.live.queuePair.Some? && w.st.qp == Reset
    modifies w
    ensures Rec(w.trace) == Rec(old(w.trace))
    ensures w.Valid() && w.st == old(w.st).(qp := w.st.qp, marks := w.st.marks)
    ensures ok ==> w.st.qp == ReadyToSend && w.st.marks == Shaken(old(w.st.marks))
    ensures !ok ==> w.st.marks == old(w.st.marks)
    ensures (Faultless(w.faults) ==> ok) && (ok ==> RiseWorks(w.faults))
  {
    hide Replay, Follow, Rec, Works, Faultless;
    ok := w.Call(SetUp(Moving(Init)));
    if !ok { return; }
    w.Emit(ToState(Init));
    ok := w.Call(SetUp(Querying));
    if !ok { return; }
    ok := w.Call(SetUp(Exchanging));
    if !ok { return; }
    ok := w.Call(SetUp(Moving(ReadyToReceive)));
    if !ok { return; }
    w.Emit(ToState(ReadyToReceive));
    ok := w.Call(SetUp(Moving(ReadyToSend)));
    if !ok { return; }
    w.Emit(ToState(ReadyToSend));
  }

  /** `ws_close` */
  method WsClose(w: World)
    requires w.Valid() && w.st.live.socket.Some?
    modifies w
    ensures Rec(w.trace) == Rec(old(w.trace))
    ensures w.Valid() && w.st == old(w.st).(live := old(w.st.live).(socket := None))
  {
    hide Replay, Follow, Rec;
    w.Emit(Release(Socket, w.st.live.socket.value));
  }

  /** The second half of `rdma_send_setup`: register the buffer, send the token, close the socket. */
  method Register(w: World, s: Session) returns (ok: bool)
    requires w.Valid() && s.Owns(w.st.live) && !w.st.window && !w.st.announced && w.st.qp == ReadyToSend
    requires w.st.live.mapping.Some? && w.st.live.socket.Some? && w.st.live.queuePair.Some? && w.st.live.domain.Some?
    requires w.st.live.region.None? && w.st.filled
    modifies w, s
    ensures Rec(w.trace) == Rec(old(w.trace))
    ensures w.Valid() && s.Owns(w.st.live) && w.st.window == ok
    ensures w.st.mem == old(w.st.mem) && w.st.filled == old(w.st.filled)
    ensures w.st.live == old(w.st.live).(socket := None, region := w.st.live.region)
    ensures ok ==> w.st.live.region.Some?
    ensures Faultless(w.faults) ==> ok
    ensures ok ==> Works(w.faults, SetUp(Acquiring(Region))) && Works(w.faults, SetUp(Announcing))
  {
    hide Replay, Follow, Rec, Works, Faultless;
    s.mr := TryRegion(w);
    if s.mr.None? {
      WsClose(w);
      return false;
    }
    ok := w.Call(SetUp(Announcing));
    SendToken(w, ok);
    WsClose(w);
  }

  /** `rdma_send_setup` over the mapped buffer: either nothing but the mapping is held, or the session holds all five
      verbs resources, the token has been delivered, and the socket is closed. It succeeds if no step fails and the host
      is welcoming, and only if no step always fails and some host accepts. */
  method SendSetup(w: World) returns (s: Session?)
    requires w.Valid() && OnlyMapping(w.st.live) && w.st.filled && !w.st.window
    modifies w
    ensures Rec(w.trace) == Rec(old(w.trace))
    ensures w.Valid() && w.st.mem == old(w.st.mem) && w.st.filled == old(w.st.filled)
    ensures s == null ==> w.st.live == old(w.st.live) && !w.st.window
    ensures s != null ==> fresh(s) && s.Owns(w.st.live) && w.st.window && FullSession(w.st.live)
                          && w.st.live.mapping == old(w.st.live.mapping)
    ensures Faultless(w.faults) && Welcoming(w.net) ==> s != null
    ensures s != null ==> SessionWorks(w.faults) && Works(w.faults, SetUp(Allocating)) && Accepting(w.net)
  {
    hide Replay, Follow, Rec, Works, Faultless, HandshakeWorks, Welcoming, Accepting;
    var ok := w.Call(SetUp(Allocating));
    if !ok { return null; }
    s := new Session();
    ok := s.Handshake(w);
    if ok {
      ok := Register(w, s);
      if ok { return s; }
    }
    s.Cleanup(w);
    return null;
  }
}
