/** The Go client: one function per part whose releases are deferred, the part loop, and the `all` action. */
module GoMultipart {
  import opened Prelude
  import opened CompleteXml
  import opened ResourceTrace
  import opened CSession
  import opened Partition
  import opened UploadProtocol
  import opened S3Server
  import opened UploadSpec

  // ---------- deferred releases ----------

  /** The deferred releases `d` are exactly the resources held, and nothing deferred later is a parent of something
      deferred earlier. */
  ghost predicate Stack(l: Live, d: seq<Kind>) {
    && (forall k :: Get(l, k).Some? <==> k in d)
    && (forall i, j :: 0 <= i < j < |d| ==> d[i] != d[j] && !IsParent(d[j], d[i]))
  }

  lemma StackEmpty(l: Live)
    ensures Stack(l, []) <==> l == NOTHING
  {
    if Stack(l, []) {
      assert Get(l, Mapping).None? && Get(l, Socket).None? && Get(l, Device).None? && Get(l, Domain).None?;
      assert Get(l, Completion).None? && Get(l, QueuePair).None? && Get(l, Region).None?;
    }
  }

  /** A resource whose parents are all held may be deferred on top. */
  lemma StackPush(s: Ledger, d: seq<Kind>, k: Kind, h: nat)
    requires Sound(s) && Stack(s.live, d) && Get(s.live, k).None?
    ensures Stack(Set(s.live, k, Some(h)), d + [k])
  {
    hide Get, Set, Supported, Childless;
    var l := Set(s.live, k, Some(h));
    forall c ensures Get(l, c).Some? <==> c in d + [k] {
      SetGet(s.live, k, Some(h), c);
    }
    forall i | 0 <= i < |d| ensures d[i] != k && !IsParent(k, d[i]) {
      assert d[i] in d;
      TestsMatchRelation(s.live, d[i]);
    }
  }

  /** Last in, first out never releases a parent before its child. */
  lemma StackPop(l: Live, d: seq<Kind>)
    requires d != [] && Stack(l, d)
    ensures var k := d[|d| - 1]; Get(l, k).Some? && Childless(l, k) && Stack(Set(l, k, None), d[..|d| - 1])
  {
    hide Get, Set, Supported, Childless;
    var k, rest := d[|d| - 1], d[..|d| - 1];
    assert k in d;
    forall c | IsParent(k, c) ensures Get(l, c).None? {
      if c in d {
        var i :| 0 <= i < |d| && d[i] == c;
        NotOwnParent(k, c);
      }
    }
    TestsMatchRelation(l, k);
    forall c ensures Get(Set(l, k, None), c).Some? <==> c in rest {
      SetGet(l, k, None, c);
      assert d == rest + [k];
      if c in rest {
        var i :| 0 <= i < |rest| && rest[i] == c;
        assert d[i] != d[|d| - 1];
      }
    }
  }

  lemma NotOwnParent(p: Kind, c: Kind)
    requires IsParent(p, c)
    ensures p != c
  {
  }

  /** The function returns: deferred releases run in reverse order. */
  method RunDeferred(w: World, d: seq<Kind>)
    requires w.Valid() && Stack(w.st.live, d) && !w.st.window
    modifies w
    ensures w.Valid() && Idle(w.st) && Rec(w.trace) == Rec(old(w.trace))
  {
    hide Replay, Follow, Rec, Get, Set, Childless, Stack;
    var i := |d|;
    assert d[..i] == d;
    while i > 0
      invariant 0 <= i <= |d| && w.Valid() && !w.st.window && Stack(w.st.live, d[..i])
      invariant Rec(w.trace) == Rec(old(w.trace))
    {
      StackPop(w.st.live, d[..i]);
      assert d[..i][..i - 1] == d[..i - 1];
      var k := d[i - 1];
      w.Emit(Release(k, Get(w.st.live, k).value));
      i := i - 1;
    }
    StackEmpty(w.st.live);
  }

  /** Acquire, and defer the release; a failure leaves the stack as it is. */
  method TryDefer(w: World, k: Kind, size: nat, d: seq<Kind>) returns (ok: bool, d': seq<Kind>)
    requires w.Valid() && Stack(w.st.live, d) && Get(w.st.live, k).None? && Supported(w.st.live, k)
    requires k == Region ==> w.st.filled && size == |w.st.mem|
    modifies w
    ensures w.Valid() && Stack(w.st.live, d') && Rec(w.trace) == Rec(old(w.trace))
    ensures ok ==> d' == d + [k] && w.st == Apply(old(w.st), Acquire(k, old(w.st.next), size))
    ensures !ok ==> d' == d && w.st == old(w.st)
    ensures (Faultless(w.faults) ==> ok) && (ok ==> Works(w.faults, SetUp(Acquiring(k))))
  {
    hide Replay, Follow, Rec, Stack, Get, Set, Supported, Works, Faultless;
    ReplaySound(w.trace);
    ghost var s := w.st;
    var h := w.Try(k, size);
    if h.None? { return false, d; }
    StackPush(s, d, k, h.value);
    return true, d + [k];
  }

  // ---------- one part ----------

  /** No step between the mapping and the part request always fails. */
  ghost predicate ConnectWorks(faults: Schedule) { Works(faults, SetUp(Acquiring(Socket))) && SessionWorks(faults) }

  /** No step towards a part request always fails. */
  ghost predicate Able(faults: Schedule) {
    Works(faults, SetUp(Acquiring(Mapping))) && Works(faults, ReadFile) && ConnectWorks(faults)
  }

  /** `mmapPart`: its own failures unmap; the caller defers the unmapping otherwise. */
  method MmapPart(w: World, data: seq<byte>) returns (ok: bool)
    requires w.Valid() && Idle(w.st) && data != []
    modifies w
    ensures w.Valid() && !w.st.window
    ensures ok ==> w.st.live == NOTHING.(mapping := w.st.live.mapping) && w.st.live.mapping.Some?
    ensures ok ==> w.st.mem == data && w.st.filled && Rec(w.trace) == Note(Rec(old(w.trace)), Fill(data))
    ensures !ok ==> Idle(w.st) && Rec(w.trace) == Rec(old(w.trace))
    ensures Faultless(w.faults) ==> ok
    ensures ok ==> Works(w.faults, SetUp(Acquiring(Mapping))) && Works(w.faults, ReadFile)
  {
    hide Replay, Follow, Rec, Works, Faultless;
    var h := w.Try(Mapping, |data|);
    if h.None? { return false; }
    ok := w.Call(ReadFile);
    if !ok {
      w.Emit(Release(Mapping, h.value));
      return;
    }
    w.Emit(Fill(data));
  }

  /** `uploadPartRDMA` between the mapping and the part request: `ok` means that the token has been delivered. Whatever
      happens, `d` are the releases the function has deferred. It succeeds if no step fails, and only if none always
      fails. */
  method Connect(w: World) returns (ok: bool, d: seq<Kind>)
    requires w.Valid() && w.st.live == NOTHING.(mapping := w.st.live.mapping) && w.st.live.mapping.Some?
    requires w.st.filled && !w.st.window
    modifies w
    ensures w.Valid() && Stack(w.st.live, d) && w.st.window == ok && w.st.mem == old(w.st.mem)
    ensures Rec(w.trace) == Rec(old(w.trace))
    ensures (Faultless(w.faults) ==> ok) && (ok ==> ConnectWorks(w.faults))
  {
    hide Replay, Follow, Rec, Stack, Works, Faultless, VerbsWork, RiseWorks;
    d := [Mapping];
    MappingAlone(w.st.live);
    ok, d := TryDefer(w, Socket, 0, d);
    if !ok { return; }
    ok := w.Call(SetUp(Enrolling));
    if !ok {
      // connectRDMAControl closes the connection itself before the caller can defer it
      MappingAlone(w.st.live.(socket := None));
      WsClose(w);
      return false, [Mapping];
    }
    ok, d := OpenVerbs(w, d);
    if !ok { return; }
    ok := BringUp(w);
    if !ok { return; }
    ok, d := TryDefer(w, Region, |w.st.mem|, d);
    if !ok { return; }
    ok := w.Call(SetUp(Announcing));
    SendToken(w, ok);
  }

  /** Device, protection domain, completion queue, queue pair, each with its deferred release. */
  method OpenVerbs(w: World, before: seq<Kind>) returns (ok: bool, d: seq<Kind>)
    requires w.Valid() && Stack(w.st.live, before) && WithoutVerbs(w.st.live) == w.st.live && !w.st.window
    modifies w
    ensures w.Valid() && Stack(w.st.live, d) && Rec(w.trace) == Rec(old(w.trace)) && !w.st.window
    ensures w.st.mem == old(w.st.mem) && w.st.filled == old(w.st.filled)
    ensures WithoutVerbs(w.st.live) == old(w.st.live) && w.st.live.region.None?
    ensures ok ==> w.st.live.domain.Some? && w.st.live.queuePair.Some? && w.st.qp == Reset && !w.st.announced
    ensures (Faultless(w.faults) ==> ok) && (ok ==> VerbsWork(w.faults))
  {
    hide Replay, Follow, Rec, Stack, Works, Faultless;
    ok, d := TryDefer(w, Device, 0, before);
    if !ok { return; }
    ok, d := TryDefer(w, Domain, 0, d);
    if !ok { return; }
    ok, d := TryDefer(w, Completion, 0, d);
    if !ok { return; }
    ok, d := TryDefer(w, QueuePair, 0, d);
  }

  lemma MappingAlone(l: Live)
    requires l == NOTHING.(mapping := l.mapping) && l.mapping.Some?
    ensures Stack(l, [Mapping])
  {
  }

  /** `uploadPartRDMA`: on every return path the deferred calls release everything, children first. The ETag is the one
      the server answered with. A request is sent only if no step before it always fails, and if nothing fails on the
      client's side, the only failure is that of the request. */
  method UploadPart(w: World, srv: Server, id: string, pn: int, data: seq<byte>) returns (etag: Option<string>)
    requires w.Valid() && Idle(w.st) && data != [] && Rec(w.trace).pending == []
    modifies w, srv
    ensures w.Valid() && Idle(w.st) && Rec(w.trace).abandoned == old(Rec(w.trace)).abandoned
    ensures Rec(w.trace).pending == [] && srv.status == old(srv.status) && srv.content == old(srv.content)
    ensures etag.Some? ==> Sent(old(Now(w, srv)), Now(w, srv), id, pn, data, true)
    ensures etag.None? ==>
              Sent(old(Now(w, srv)), Now(w, srv), id, pn, data, false) || NotSent(old(Now(w, srv)), Now(w, srv), data)
    ensures etag.Some? ==> srv.tags == old(srv.tags)[(id, pn) := etag.value]
    ensures Faultless(w.faults) && etag.None? ==> srv.log == old(srv.log) + [PutCall(pn, false)]
    ensures srv.log != old(srv.log) ==> Able(w.faults)
    ensures Faultless(w.faults) && Willing(srv.answers) && IsActive(srv.status, id) ==> etag.Some?
  {
    hide Willing, Replay, Follow, Rec, Stack, SawOnly, Works, Faultless, ConnectWorks;
    var mapped := MmapPart(w, data);
    if !mapped { return None; }
    var ok, d := Connect(w);
    var reply := "";
    if ok {
      ok, reply := srv.Put(w, id, pn);
    }
    RunDeferred(w, d);
    etag := if ok then Some(reply) else None;
  }

  // ---------- part numbers on the wire ----------

  /** The part numbers of a completed list, narrowed to 32 bits. */
  predicate Numbered(list: seq<Part>, start: int, end: int) {
    |list| == Count(start, end) && forall i :: 0 <= i < |list| ==> list[i].number == WrapInt32(start + i)
  }

  /** Requests for the parts from `start` on, numbered as on the wire: `k` succeeded, in order, and if not all did, one
      more may have failed. */
  predicate WirePuts(calls: seq<Call>, start: int, k: nat, all: bool) {
    && (|calls| == k || (!all && |calls| == k + 1))
    && forall i :: 0 <= i < |calls| ==> calls[i] == PutCall(WrapInt32(start + i), i < k)
  }

  /** The i-th request let the server read nothing but the slice of the i-th part, whatever its number. */
  ghost predicate ReadInOrder(puts: seq<Put>, file: seq<byte>, ps: nat, start: int)
    requires ps > 0 && 1 <= start
  {
    start - 1 + |puts| <= Ceil(|file|, ps)
    && forall i :: 0 <= i < |puts| ==> SawOnly(puts[i], Slice(file, ps, start + i))
  }

  /** What an upload has done when `k` parts have succeeded, for any number of parts. */
  ghost predicate Wired(s: Snap, now: Snap, file: seq<byte>, ps: nat, start: int, k: nat, all: bool)
    requires ps > 0 && 1 <= start
  {
    && s.log <= now.log && s.rec.puts <= now.rec.puts
    && now.log[|s.log|..] == Requests(now.rec.puts[|s.rec.puts|..])
    && WirePuts(now.log[|s.log|..], start, k, all)
    && ReadInOrder(now.rec.puts[|s.rec.puts|..], file, ps, start)
  }

  /** The first `k` parts are stored under their numbers. */
  ghost predicate WireStored(parts: PartMap, id: string, file: seq<byte>, ps: nat, start: int, k: nat)
    requires ps > 0 && 1 <= start && start - 1 + k <= Ceil(|file|, ps)
  {
    forall pn :: start <= pn < start + k ==>
      (id, WrapInt32(pn)) in parts && parts[(id, WrapInt32(pn))] == Slice(file, ps, pn)
  }

  lemma WiredNothing(s: Snap, file: seq<byte>, ps: nat, start: int)
    requires ps > 0 && 1 <= start <= Ceil(|file|, ps) + 1
    ensures Wired(s, s, file, ps, start, 0, true) && Wired(s, s, file, ps, start, 0, false)
  {
    hide Ceil, Slice;
    assert s.log[|s.log|..] == [] && s.rec.puts[|s.rec.puts|..] == [];
  }

  /** One more part. */
  lemma WiredNext(s: Snap, mid: Snap, now: Snap, id: string, file: seq<byte>, ps: nat, start: int, k: nat, ok: bool)
    requires ps > 0 && 1 <= start && start + k <= Ceil(|file|, ps) && Wired(s, mid, file, ps, start, k, true)
    requires var data := Slice(file, ps, start + k);
             Sent(mid, now, id, WrapInt32(start + k), data, ok) || (!ok && NotSent(mid, now, data))
    ensures ok ==> Wired(s, now, file, ps, start, k + 1, true)
    ensures !ok ==> Wired(s, now, file, ps, start, k, false)
  {
    hide Slice, Ceil, SawOnly, WrapInt32, Sent, NotSent;
    if Sent(mid, now, id, WrapInt32(start + k), Slice(file, ps, start + k), ok) {
      SentAppends(mid, now, id, WrapInt32(start + k), Slice(file, ps, start + k), ok);
      var p := now.rec.puts[|mid.rec.puts|];
      assert now.rec.puts[|s.rec.puts|..] == mid.rec.puts[|s.rec.puts|..] + [p];
      assert now.log[|s.log|..] == mid.log[|s.log|..] + [PutCall(p.part, ok)];
      RequestsAppend(mid.rec.puts[|s.rec.puts|..], [p]);
      assert Requests([p]) == [PutCall(p.part, ok)];
    } else {
      NotSentKeeps(mid, now, Slice(file, ps, start + k));
    }
  }

  lemma SentAppends(s: Snap, now: Snap, id: string, pn: int, data: seq<byte>, ok: bool)
    requires Sent(s, now, id, pn, data, ok)
    ensures now.log == s.log + [PutCall(pn, ok)] && |now.rec.puts| == |s.rec.puts| + 1 && s.rec.puts <= now.rec.puts
    ensures var p := now.rec.puts[|s.rec.puts|]; p.part == pn && p.ok == ok && SawOnly(p, data)
    ensures ok ==> now.parts == s.parts[(id, pn) := data]
  {
  }

  lemma NotSentKeeps(s: Snap, now: Snap, data: seq<byte>)
    requires NotSent(s, now, data)
    ensures now.log == s.log && now.rec.puts == s.rec.puts
  {
  }

  /** Numbers less than 2^32 apart stay different on the wire. */
  lemma WrapInjective(a: int, b: int)
    requires 0 < b - a < TWO_TO_32
    ensures WrapInt32(a) != WrapInt32(b)
  {
    assert (b - a) % TWO_TO_32 == b - a;
  }

  lemma StoredNext(before: PartMap, now: PartMap, id: string, file: seq<byte>, ps: nat, start: int, k: nat)
    requires ps > 0 && 1 <= start && start + k <= Ceil(|file|, ps) && k < TWO_TO_32
    requires WireStored(before, id, file, ps, start, k)
    requires now == before[(id, WrapInt32(start + k)) := Slice(file, ps, start + k)]
    ensures WireStored(now, id, file, ps, start, k + 1)
  {
    hide Slice, Ceil, WrapInt32;
    forall pn | start <= pn < start + k ensures WrapInt32(pn) != WrapInt32(start + k) {
      WrapInjective(pn, start + k);
    }
  }

  /** Every listed part has the ETag that the server answered with. */
  predicate Tagged(tags: map<(string, int), string>, id: string, list: seq<Part>) {
    forall i :: 0 <= i < |list| ==> (id, list[i].number) in tags && tags[(id, list[i].number)] == list[i].etag
  }

  lemma TaggedNext(tags: map<(string, int), string>, id: string, list: seq<Part>, p: Part, start: int)
    requires Tagged(tags, id, list) && Numbered(list, start, start + |list| - 1) && |list| < TWO_TO_32
    requires p.number == WrapInt32(start + |list|)
    ensures Tagged(tags[(id, p.number) := p.etag], id, list + [p])
  {
    hide WrapInt32;
    forall i | 0 <= i < |list| ensures list[i].number != p.number { WrapInjective(start + i, start + |list|); }
  }

  // ---------- the loop and the all action ----------

  /** The part loop of `uploadFilePartsRDMA`, for any number of parts. */
  method UploadLoop(w: World, srv: Server, id: string, file: seq<byte>, ps: nat, start: int, end: int)
    returns (r: Option<seq<Part>>, ghost k: nat)
    requires w.Valid() && Idle(w.st) && Rec(w.trace).pending == [] && IsRange(|file|, ps, start, end)
    modifies w, srv
    ensures w.Valid() && Idle(w.st) && srv.status == old(srv.status)
    ensures Rec(w.trace).pending == [] && Rec(w.trace).abandoned == old(Rec(w.trace)).abandoned
    ensures Wired(old(Now(w, srv)), Now(w, srv), file, ps, start, k, r.Some?) && k <= Count(start, end)
    ensures r.Some? <==> k == Count(start, end)
    ensures r.Some? ==> Numbered(r.value, start, end)
    ensures r.Some? && k <= TWO_TO_32 ==>
              WireStored(srv.parts, id, file, ps, start, k) && Tagged(srv.tags, id, r.value)
    ensures end < TWO_TO_31 ==> Upload(old(Now(w, srv)), Now(w, srv), id, file, ps, start, end, r.Some?)
    ensures Foreign(old(srv.parts), srv.parts, id) && (srv.log != old(srv.log) ==> Able(w.faults))
    ensures Faultless(w.faults) && r.None? ==> LastDenied(srv.log)
    ensures Faultless(w.faults) && Willing(srv.answers) && IsActive(srv.status, id) ==> r.Some?
  {
    hide Willing, Slice, Ceil, Rec, Upload, Sent, NotSent, Replay, Follow, WrapInt32, Wired, WireStored, Tagged,
         Foreign, Able, Faultless;
    ghost var was := Now(w, srv);
    UploadNothing(was, id, file, ps, start, end);
    WiredNothing(was, file, ps, start);
    StoredNothing(was.parts, srv.tags, id, file, ps, start);
    var parts: seq<Part> := [];
    var pn := start;
    while pn <= end
      invariant start <= pn <= end + 1 && w.Valid() && Idle(w.st) && srv.status == old(srv.status)
      invariant Rec(w.trace).pending == [] && Rec(w.trace).abandoned == was.rec.abandoned
      invariant Wired(was, Now(w, srv), file, ps, start, pn - start, true) && Numbered(parts, start, pn - 1)
      invariant pn - start <= TWO_TO_32 ==>
                  WireStored(srv.parts, id, file, ps, start, pn - start) && Tagged(srv.tags, id, parts)
      invariant Foreign(was.parts, srv.parts, id) && (srv.log != was.log ==> Able(w.faults))
      invariant end < TWO_TO_31 ==> Upload(was, Now(w, srv), id, file, ps, start, pn - 1, true)
    {
      ghost var before, tags := Now(w, srv), srv.tags;
      var data := SliceCAndGo(file, ps, pn);
      SliceNonEmpty(file, ps, pn);
      var number := WrapInt32(pn);
      Narrow(pn);
      var etag := UploadPart(w, srv, id, number, data);
      if end < TWO_TO_31 {
        UploadNext(was, before, Now(w, srv), id, file, ps, start, pn, end, etag.Some?);
      }
      WiredNext(was, before, Now(w, srv), id, file, ps, start, pn - start, etag.Some?);
      ForeignNext(was.parts, before, Now(w, srv), id, number, data, etag.Some?);
      if etag.None? { return None, pn - start; }
      SentAppends(before, Now(w, srv), id, number, data, true);
      if pn - start < TWO_TO_32 {
        StoredNext(before.parts, srv.parts, id, file, ps, start, pn - start);
        TaggedNext(tags, id, parts, Part(number, etag.value), start);
      }
      parts := parts + [Part(number, etag.value)];
      pn := pn + 1;
    }
    return Some(parts), Count(start, end);
  }

  lemma StoredNothing(parts: PartMap, tags: map<(string, int), string>, id: string, file: seq<byte>, ps: nat,
                      start: int)
    requires ps > 0 && 1 <= start <= Ceil(|file|, ps) + 1
    ensures WireStored(parts, id, file, ps, start, 0) && Tagged(tags, id, []) && Foreign(parts, parts, id)
  {
  }

  lemma ForeignNext(parts: PartMap, before: Snap, now: Snap, id: string, pn: int, data: seq<byte>, ok: bool)
    requires Foreign(parts, before.parts, id)
    requires Sent(before, now, id, pn, data, ok) || (!ok && NotSent(before, now, data))
    ensures Foreign(parts, now.parts, id)
  {
  }

  /** `uploadFilePartsRDMA`. Part numbers are narrowed to 32 bits on the wire: the requests carry the narrowed
      numbers, in order, the i-th of them let the server read the i-th slice, and as long as no two numbers coincide
      (up to 2^32 parts) all slices are stored. With fewer than 2^31 parts the numbers are those of the plan. */
  method UploadParts(w: World, srv: Server, id: string, file: seq<byte>, ps: nat, onlyPart: int)
    returns (r: Option<seq<Part>>, ghost k: nat)
    requires w.Valid() && Idle(w.st) && Rec(w.trace).pending == []
    requires file != [] && ps > 0 && |file| + ps - 1 < TWO_TO_63
    modifies w, srv
    ensures w.Valid() && Idle(w.st) && srv.status == old(srv.status)
    ensures Rec(w.trace).pending == [] && Rec(w.trace).abandoned == old(Rec(w.trace)).abandoned
    ensures var (start, end) := Bounds(PlanGo(|file|, ps, onlyPart));
            && IsRange(|file|, ps, start, end)
            && Wired(old(Now(w, srv)), Now(w, srv), file, ps, start, k, r.Some?)
            && k <= Count(start, end) && (r.Some? ==> k == Count(start, end) && Numbered(r.value, start, end))
            && (r.None? ==> k < Count(start, end) || k == 0)
            && (r.Some? && k <= TWO_TO_32 ==>
                  WireStored(srv.parts, id, file, ps, start, k) && Tagged(srv.tags, id, r.value))
            && (Ceil(|file|, ps) < TWO_TO_31 ==>
                  Upload(old(Now(w, srv)), Now(w, srv), id, file, ps, start, end, r.Some?))
    ensures r.Some? || srv.log != old(srv.log) ==> 0 <= onlyPart <= Ceil(|file|, ps) && Works(w.faults, OpenFile)
    ensures Foreign(old(srv.parts), srv.parts, id) && (srv.log != old(srv.log) ==> Able(w.faults))
    ensures Faultless(w.faults) && 0 <= onlyPart <= Ceil(|file|, ps) && r.None? ==> LastDenied(srv.log)
    ensures Faultless(w.faults) && Willing(srv.answers) && IsActive(srv.status, id)
            && 0 <= onlyPart <= Ceil(|file|, ps) ==>
              r.Some?
  {
    hide Willing, Slice, Ceil, Rec, Upload, Replay, Follow, WrapInt32, Wired, WireStored, Works, Faultless, Able,
         Tagged;
    PlanGoRefuses(|file|, ps, onlyPart);
    var (start, end) := Bounds(PlanGo(|file|, ps, onlyPart));
    PlansInside(|file|, ps, onlyPart);
    CeilBounds(|file|, ps);
    ghost var was := Now(w, srv);
    UploadNothing(was, id, file, ps, start, end);
    WiredNothing(was, file, ps, start);
    var opens := w.Call(OpenFile);
    if !opens || PlanGo(|file|, ps, onlyPart).Refused? { return None, 0; }
    r, k := UploadLoop(w, srv, id, file, ps, start, end);
  }

  lemma Narrow(pn: int)
    requires 1 <= pn
    ensures pn < TWO_TO_31 ==> WrapInt32(pn) == pn
  {
  }

  /** Stored parts, listed by their numbers on the wire, are the slices in order. */
  lemma PiecesByNumber(parts: PartMap, id: string, list: seq<Part>, file: seq<byte>, ps: nat, start: int, end: int)
    requires IsRange(|file|, ps, start, end) && Numbered(list, start, end)
    requires WireStored(parts, id, file, ps, start, Count(start, end))
    ensures Present(parts, id, list) && Pieces(parts, id, list) == Slices(file, ps, start, end)
  {
    hide Slice, Ceil, WrapInt32;
    forall i | 0 <= i < |list| ensures (id, list[i].number) in parts
                                       && parts[(id, list[i].number)] == Slice(file, ps, start + i) {
      assert list[i].number == WrapInt32(start + i);
    }
  }

  /** An `all` run of the Go client over `n` parts, with the numbers on the wire. */
  ghost predicate RunWired(calls: seq<Call>, n: nat) {
    || calls == [CreateCall(false)]
    || (exists puts, k: nat, ok ::
          WirePuts(puts, 1, k, false) && (k < n || k == 0) && calls == [CreateCall(true)] + puts + [AbortCall(ok)])
    || (exists puts, ok :: WirePuts(puts, 1, n, true) && calls == [CreateCall(true)] + puts + [CompleteCall(ok)])
  }

  /** What such a run has carried, for any number of parts. */
  ghost predicate WireCarried(s: Snap, now: Snap, file: seq<byte>, ps: nat, n: nat)
    requires ps > 0
  {
    && s.log <= now.log && s.rec.puts <= now.rec.puts && now.rec.pending == []
    && RunWired(now.log[|s.log|..], n)
    && PartCalls(now.log[|s.log|..]) == Requests(now.rec.puts[|s.rec.puts|..])
    && ReadInOrder(now.rec.puts[|s.rec.puts|..], file, ps, 1)
  }

  lemma NothingCarried(s: Snap, now: Snap, file: seq<byte>, ps: nat, n: nat)
    requires ps > 0 && now.log == s.log + [CreateCall(false)] && now.rec == s.rec && s.rec.pending == []
    ensures WireCarried(s, now, file, ps, n)
  {
    hide Ceil, Slice;
    assert now.log[|s.log|..] == [CreateCall(false)] && now.rec.puts[|s.rec.puts|..] == [];
    PartCallsNone([CreateCall(false)]);
    CeilNat(|file|, ps);
  }

  lemma CeilNat(size: nat, ps: nat)
    requires ps > 0
    ensures Ceil(size, ps) >= 0
  {
  }

  lemma WiredCarries(s: Snap, mid: Snap, up: Snap, now: Snap, last: Call, file: seq<byte>, ps: nat, n: nat, k: nat,
                     all: bool)
    requires ps > 0 && mid.log == s.log + [CreateCall(true)] && mid.rec == s.rec && now.rec.pending == []
    requires Wired(mid, up, file, ps, 1, k, all) && now.log == up.log + [last] && now.rec == up.rec
    requires if all then k == n && last.CompleteCall? else (k < n || k == 0) && last.AbortCall?
    ensures WireCarried(s, now, file, ps, n)
  {
    hide Ceil, Slice, WirePuts, ReadInOrder, PartCalls;
    var puts := up.log[|mid.log|..];
    assert now.log[|s.log|..] == [CreateCall(true)] + puts + [last];
    WirePutsArePuts(puts, 1, k, all);
    PartCallsOf(CreateCall(true), puts, [last]);
    if all {
      assert now.log[|s.log|..] == [CreateCall(true)] + puts + [CompleteCall(last.ok)];
    } else {
      assert now.log[|s.log|..] == [CreateCall(true)] + puts + [AbortCall(last.ok)];
    }
  }

  lemma WirePutsArePuts(calls: seq<Call>, start: int, k: nat, all: bool)
    requires WirePuts(calls, start, k, all)
    ensures forall i :: 0 <= i < |calls| ==> calls[i].PutCall?
  {
  }

  /** The `all` action behind a successful create. */
  method Guarded(w: World, srv: Server, id: string, file: seq<byte>, ps: nat)
    returns (ok: bool, ghost sent: Snap, ghost k: nat, ghost last: Call)
    requires w.Valid() && Idle(w.st) && Rec(w.trace).pending == []
    requires file != [] && ps > 0 && |file| + ps - 1 < TWO_TO_63
    modifies w, srv
    ensures w.Valid() && Idle(w.st) && Rec(w.trace).abandoned == old(Rec(w.trace)).abandoned
    ensures var n, all := Ceil(|file|, ps), last.CompleteCall?;
            && Rec(w.trace).pending == [] && Wired(old(Now(w, srv)), sent, file, ps, 1, k, all)
            && (if all then k == n else last.AbortCall? && (k < n || k == 0)) && (ok <==> last == CompleteCall(true))
            && (n < TWO_TO_31 ==> Upload(old(Now(w, srv)), sent, id, file, ps, 1, n, all))
            && (all ==> Numbered(srv.listed, 1, n) && (n <= TWO_TO_32 ==> Tagged(srv.tags, id, srv.listed)))
            && (ok && n <= TWO_TO_32 ==> srv.content == Some(file))
    ensures Now(w, srv) == sent.(log := sent.log + [last]) && Foreign(old(srv.parts), srv.parts, id)
    ensures Handled(old(srv.status), srv.status, id, [last])
    ensures last.CompleteCall? ==> Works(w.faults, OpenFile)
    ensures sent.log != old(srv.log) ==> Works(w.faults, OpenFile) && Able(w.faults)
    ensures Faultless(w.faults) && !ok ==> EndsDenied(srv.log)
    ensures Faultless(w.faults) && Willing(srv.answers) && IsActive(old(srv.status), id)
            && Ceil(|file|, ps) <= TWO_TO_32 ==>
              ok
  {
    hide Willing, Slice, Slices, Ceil, Rec, Upload, Replay, Follow, Numbered, Wired, WireStored, Handled, Ends, Foreign,
         Works, Able, Faultless, Tagged;
    ghost var status := srv.status;
    CeilBounds(|file|, ps);
    var r;
    r, k := UploadParts(w, srv, id, file, ps, 0);
    sent := Now(w, srv);
    if r.None? {
      var aborted := srv.Abort(id);
      HandledBy(status, srv.status, id, aborted);
      DeniedThen(sent.log, AbortCall(aborted));
      return false, sent, k, AbortCall(aborted);
    }
    if k <= TWO_TO_32 { PiecesByNumber(srv.parts, id, r.value, file, ps, 1, k); }
    ok := srv.CompleteListed(id, r.value);
    last := CompleteCall(ok);
    HandledBy(status, srv.status, id, ok);
    if ok && k <= TWO_TO_32 {
      PiecesByNumber(srv.parts, id, r.value, file, ps, 1, k);
      WholeFile(file, ps, 1, k);
    }
  }

  /** Create, the part requests and the request behind them, all for one upload, are one of the histories. */
  lemma WholeHistory(was: Snap, book: Book, created: Snap, sent: Snap, now: Snap, status: StatusMap, last: Call,
                     id: string, file: seq<byte>, ps: nat, n: nat, k: nat)
    requires ps > 0 && created == was.(log := was.log + [CreateCall(true)]) && now == sent.(log := sent.log + [last])
    requires now.rec.pending == [] && Wired(created, sent, file, ps, 1, k, last.CompleteCall?)
    requires if last.CompleteCall? then k == n else last.AbortCall? && (k < n || k == 0)
    requires id !in book.status && book.parts == was.parts && Foreign(was.parts, now.parts, id)
    requires Handled(book.status[id := Active], status, id, [last])
    ensures was.log < now.log && now.log[|was.log|] == CreateCall(true) && now.log[|now.log| - 1] == last
    ensures WireCarried(was, now, file, ps, n) && Settled(book, Book(status, now.parts), now.log[|was.log|..])
    ensures Completes(now.log[|was.log|..]) <==> last.CompleteCall?
    ensures Sends(now.log[|was.log|..]) <==> sent.log != created.log
  {
    hide Settled, Handled, Foreign, ReadInOrder, WirePuts, WireCarried;
    WiredCarries(was, created, sent, now, last, file, ps, n, k, last.CompleteCall?);
    var puts := sent.log[|created.log|..];
    var calls := now.log[|was.log|..];
    WirePutsArePuts(puts, 1, k, last.CompleteCall?);
    assert calls == [CreateCall(true)] + puts + [last];
    SettledBy(book, book.status[id := Active], Book(status, now.parts), id, puts, [last]);
    assert calls[|calls| - 1] == last;
    if puts != [] { assert calls[1] == puts[0]; }
  }

  /** With fewer than 2^31 parts it is one of the C histories. */
  lemma CHistory(was: Snap, created: Snap, sent: Snap, now: Snap, last: Call, id: string, file: seq<byte>, ps: nat,
                 n: nat)
    requires created == was.(log := was.log + [CreateCall(true)]) && now == sent.(log := sent.log + [last])
    requires Upload(created, sent, id, file, ps, 1, n, last.CompleteCall?) && (last.CompleteCall? || last.AbortCall?)
    ensures was.log <= now.log && Carried(was, now, file, ps, 1, n) && RunC(now.log[|was.log|..], 1, n, true)
  {
    hide Upload, Carried, Moved, Uploaded, OkPuts;
    var all := last.CompleteCall?;
    UploadGrows(created, sent, id, file, ps, 1, n, all);
    UploadMoves(created, sent, id, file, ps, 1, n, all);
    CarriedBy(was, created, sent, now, [last], id, file, ps, 1, n);
    var puts := sent.log[|created.log|..];
    if all {
      UploadedOk(puts, 1, n);
      assert last == CompleteCall(last.ok);
    } else {
      AbortedHistory(puts, 1, n, last.ok);
      assert last == AbortCall(last.ok);
    }
  }

  /** Every listed part has the ETag with which the server answered its request. */
  ghost predicate TagsKept(tags: map<(string, int), string>, list: seq<Part>) { exists id :: Tagged(tags, id, list) }

  /** The `all` action, which always asks for all parts: an empty file, or one whose status cannot be had (`stat`), ends
      the run before create. Otherwise, for any number of parts: nothing stays held, the requests are those of the
      trace and carry the parts in order under their 32-bit numbers, the i-th of them let the server read the i-th
      slice, and success has stored the file byte for byte unless two numbers coincide, which takes more than 2^32
      parts; so long the completed list carries the server's own ETags. With fewer than 2^31 parts the history is one of
      the C histories. All requests are for the upload that was created, and no other upload changes. If nothing fails
      on the client's side, a run fails only behind a request that was seen to fail. */
  method All(w: World, srv: Server, file: seq<byte>, ps: nat, stat: bool) returns (ok: bool)
    requires w.Valid() && Idle(w.st) && ps > 0 && |file| + ps - 1 < TWO_TO_63 && Rec(w.trace).pending == []
    modifies w, srv
    ensures w.Valid() && Idle(w.st) && Rec(w.trace).abandoned == old(Rec(w.trace)).abandoned
    ensures file == [] || !stat ==>
              !ok && w.trace == old(w.trace) && srv.log == old(srv.log) && BookOf(srv) == old(BookOf(srv))
    ensures file != [] && stat ==>
              && old(srv.log) < srv.log
              && WireCarried(old(Now(w, srv)), Now(w, srv), file, ps, Ceil(|file|, ps))
              && Settled(old(BookOf(srv)), BookOf(srv), srv.log[|old(srv.log)|..])
              && (ok <==> srv.log[|srv.log| - 1] == CompleteCall(true))
              && (ok && Ceil(|file|, ps) <= TWO_TO_32 ==> srv.content == Some(file))
              && (Faultless(w.faults) && !ok ==>
                    srv.log[|old(srv.log)|] == CreateCall(false) || EndsDenied(srv.log))
              && (Faultless(w.faults) && Willing(srv.answers) && srv.answers(|old(srv.log)|).name !in old(srv.status)
                  && Ceil(|file|, ps) <= TWO_TO_32 ==>
                    ok)
    ensures Sends(srv.log[|old(srv.log)|..]) ==> Able(w.faults)
    ensures Completes(srv.log[|old(srv.log)|..]) ==>
              && Works(w.faults, OpenFile) && Numbered(srv.listed, 1, Ceil(|file|, ps))
              && (Ceil(|file|, ps) <= TWO_TO_32 ==> TagsKept(srv.tags, srv.listed))
    ensures file != [] && stat && Ceil(|file|, ps) < TWO_TO_31 ==>
              && Carried(old(Now(w, srv)), Now(w, srv), file, ps, 1, Ceil(|file|, ps))
              && RunC(srv.log[|old(srv.log)|..], 1, Ceil(|file|, ps), true)
  {
    hide Willing, Slice, Slices, Ceil, Rec, Upload, Carried, StoredAs, Replay, Follow, Numbered, Wired, WireStored,
         WireCarried,
         Settled, Handled, Foreign, Sends, Completes, RunC, Works, Able, Faultless, Tagged, EndsDenied;
    ghost var was, book := Now(w, srv), BookOf(srv);
    ghost var n := Ceil(|file|, ps);
    if !stat || file == [] {
      NoRequests(srv.log);
      return false;
    }
    CeilBounds(|file|, ps);
    var id := srv.Create();
    ghost var created := Now(w, srv);
    if id.None? {
      CarriedNothing(was, created, [CreateCall(false)], file, ps, 1, n);
      NothingCarried(was, created, file, ps, n);
      SettledNothing(book, BookOf(srv));
      NotCreated(1, n);
      return false;
    }
    ghost var sent, k, last;
    ok, sent, k, last := Guarded(w, srv, id.value, file, ps);
    WholeHistory(was, book, created, sent, Now(w, srv), srv.status, last, id.value, file, ps, n, k);
    if n < TWO_TO_31 { CHistory(was, created, sent, Now(w, srv), last, id.value, file, ps, n); }
  }

  lemma NoRequests(log: seq<Call>)
    ensures !Sends(log[|log|..]) && !Completes(log[|log|..])
  {
  }
}
