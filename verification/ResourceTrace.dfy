/** A ledger for everything a transfer acquires, and the traces it accepts. The clients record each step of a transfer
    as an event; this module says which traces are lawful and what lawfulness means for a whole run. */
module ResourceTrace {
  import opened Prelude

  datatype Kind = Mapping | Socket | Device | Domain | Completion | QueuePair | Region

  /** `p` must be held before a `c` can be created, and must outlive it. */
  predicate IsParent(p: Kind, c: Kind) {
    match c
    case Domain => p == Device
    case Completion => p == Device
    case QueuePair => p == Domain || p == Completion
    case Region => p == Domain || p == Mapping
    case _ => false
  }

  /** The one resource of each kind that is held, if any. */
  datatype Live = Live(mapping: Option<nat>, socket: Option<nat>, device: Option<nat>, domain: Option<nat>,
                       completion: Option<nat>, queuePair: Option<nat>, region: Option<nat>)

  const NOTHING := Live(None, None, None, None, None, None, None)

  function Get(l: Live, k: Kind): Option<nat> {
    match k
    case Mapping => l.mapping
    case Socket => l.socket
    case Device => l.device
    case Domain => l.domain
    case Completion => l.completion
    case QueuePair => l.queuePair
    case Region => l.region
  }

  function Set(l: Live, k: Kind, h: Option<nat>): Live {
    match k
    case Mapping => l.(mapping := h)
    case Socket => l.(socket := h)
    case Device => l.(device := h)
    case Domain => l.(domain := h)
    case Completion => l.(completion := h)
    case QueuePair => l.(queuePair := h)
    case Region => l.(region := h)
  }

  /** All parents of a `k` are held. */
  predicate Supported(l: Live, k: Kind) {
    match k
    case Domain => l.device.Some?
    case Completion => l.device.Some?
    case QueuePair => l.domain.Some? && l.completion.Some?
    case Region => l.domain.Some? && l.mapping.Some?
    case _ => true
  }

  /** No child of the `k` is held. */
  predicate Childless(l: Live, k: Kind) {
    match k
    case Device => l.domain.None? && l.completion.None?
    case Domain => l.queuePair.None? && l.region.None?
    case Completion => l.queuePair.None?
    case Mapping => l.region.None?
    case _ => true
  }

  /** Both tests are what the parent relation says. */
  lemma TestsMatchRelation(l: Live, k: Kind)
    ensures Supported(l, k) <==> forall p :: IsParent(p, k) ==> Get(l, p).Some?
    ensures Childless(l, k) <==> forall c :: IsParent(k, c) ==> Get(l, c).None?
  {
    assert Get(l, Device) == l.device && Get(l, Domain) == l.domain && Get(l, Mapping) == l.mapping;
    assert Get(l, Completion) == l.completion && Get(l, QueuePair) == l.queuePair && Get(l, Region) == l.region;
  }

  /** Queue-pair states, in the order of section 10.3.1 of the InfiniBand Architecture Specification, Volume 1. */
  datatype QpState = Reset | Init | ReadyToReceive | ReadyToSend

  predicate Follows(a: QpState, b: QpState) {
    (a == Reset && b == Init) || (a == Init && b == ReadyToReceive) || (a == ReadyToReceive && b == ReadyToSend)
  }

  /** How a step of a client ends: normally or not. On a virtual machine it fails with an exception, which the handlers
      see, or with an `Error`, which they do not; elsewhere the two are one. */
  datatype Fault = Fine | Exception | Error

  datatype Step =
    | Allocating | Enrolling | Linking | Acquiring(kind: Kind) | Releasing(kind: Kind) | Moving(to: QpState)
    | Querying | Exchanging | Announcing | Closing

  /** The program points at which a step can fail: in the set-up of a session, in its clean-up, and outside. */
  datatype Site =
    | SetUp(step: Step) | CleanUp(step: Step) | Request | OpenFile | StatFile | SeekFile | ReadFile | CopyPart
    | AllocateList | PrintList | PostList

  /** Which steps fail, and how: the fault at a site when so many events have gone before. */
  type Schedule = (Site, nat) -> Fault

  /** Nothing fails. */
  ghost predicate Faultless(faults: Schedule) { forall site, n :: faults(site, n) == Fine }

  /** The step does not always fail. */
  ghost predicate Works(faults: Schedule, site: Site) { exists n :: faults(site, n) == Fine }

  /** The step does not always end in an `Error`. */
  ghost predicate Survives(faults: Schedule, site: Site) { exists n :: faults(site, n) != Error }

  /** One address of a host: whether a socket can be opened for it, and whether connecting succeeds. */
  datatype Address = Address(opens: bool, connects: bool)

  /** What a client meets that dials by hand: the host's addresses, the bytes the other side sends, and whether the
      connection is sound. */
  datatype Peer = Peer(addresses: seq<Address>, stream: seq<byte>, healthy: bool)

  /** Whom it meets when so many events have gone before. */
  type Network = nat -> Peer

  const NOBODY: Network := _ => Peer([], [], false)

  datatype Event =
    | Acquire(kind: Kind, id: nat, size: nat)
    | Release(kind: Kind, id: nat)
    | Fill(data: seq<byte>)                       // the part is read into the mapping
    | ToState(state: QpState)
    | Announce(region: nat, mapping: nat, start: nat, length: nat, delivered: bool)  // the token message
    | RemoteRead(data: seq<byte>)                 // the server reads client memory
    | PutDone(part: int, ok: bool)                // the part request returns
    | Abandon                                     // the client gives a sent token up: no part request will follow
    | Ran(site: Site, fault: Fault)               // a step that may throw has ended
    | Called(site: Site, ok: bool)                // a step that may fail has ended

  /** What a trace has come to: a websocket was dialed and no queue pair has become ready to send since (`shaking`),
      some queue pair has ever become ready to send (`reached`), an `Error` was thrown (`thrown`), one was thrown by
      the set-up or clean-up of a session while the device was held (`spilled`), one was thrown by a set-up while the
      websocket was held (`dropped`). */
  datatype Marks = Marks(shaking: bool, reached: bool, thrown: bool, spilled: bool, dropped: bool)

  /** `window` is the time between a delivered token and the return of the part request, or the moment the client gives
      the token up. */
  datatype Ledger = Ledger(live: Live, next: nat, qp: QpState, mem: seq<byte>, filled: bool, regionSize: nat,
                           announced: bool, window: bool, marks: Marks)

  const EMPTY :=
    Ledger(NOTHING, 0, Reset, [], false, 0, false, false, Marks(false, false, false, false, false))

  predicate Legal(s: Ledger, e: Event) {
    var l := s.live;
    match e
    case Acquire(k, id, size) =>
      && Get(l, k).None? && Supported(l, k) && id == s.next
      && (k == Region ==> s.filled && size == |s.mem|)
    case Release(k, id) => Get(l, k) == Some(id) && Childless(l, k) && (k != Socket ==> !s.window)
    case Fill(data) => l.mapping.Some? && l.region.None? && |data| == |s.mem|
    case ToState(q) => l.queuePair.Some? && Follows(s.qp, q)
    case Announce(r, m, start, length, _) =>
      && l.socket.Some? && l.queuePair.Some? && s.qp == ReadyToSend
      && l.region == Some(r) && l.mapping == Some(m)
      && start == 0 && length == s.regionSize && !s.announced
    case RemoteRead(data) => s.window && data == s.mem
    case PutDone(_, _) => s.window
    case Abandon => s.window
    case Ran(_, _) => true
    case Called(_, _) => true
  }

  function Zeros(n: nat): (z: seq<byte>)
    ensures |z| == n
  {
    seq(n, _ => 0)
  }

  function Shaken(m: Marks): Marks { m.(shaking := false, reached := true) }

  /** An `Error` at `site`, with `l` held. */
  function Crash(m: Marks, site: Site, l: Live): Marks {
    m.(thrown := true,
       spilled := m.spilled || ((site.SetUp? || site.CleanUp?) && l.device.Some?),
       dropped := m.dropped || (site.SetUp? && l.socket.Some?))
  }

  function Apply(s: Ledger, e: Event): Ledger {
    match e
    case Acquire(k, id, size) =>
      var t := s.(live := Set(s.live, k, Some(id)), next := s.next + 1);
      if k == Mapping then t.(mem := Zeros(size), filled := false)
      else if k == Socket then t.(marks := t.marks.(shaking := true))
      else if k == Device then t.(announced := false)
      else if k == QueuePair then t.(qp := Reset)
      else if k == Region then t.(regionSize := size)
      else t
    case Release(k, _) => s.(live := Set(s.live, k, None))
    case Fill(data) => s.(mem := data, filled := true)
    case ToState(q) => s.(qp := q, marks := if q == ReadyToSend then Shaken(s.marks) else s.marks)
    case Announce(_, _, _, _, delivered) => s.(announced := true, window := delivered)
    case RemoteRead(_) => s
    case PutDone(_, _) => s.(window := false)
    case Abandon => s.(window := false)
    case Ran(site, fault) => if fault == Error then s.(marks := Crash(s.marks, site, s.live)) else s
    case Called(_, _) => s
  }

  /** The ledger after a trace; `None` if some event was not lawful. */
  function Replay(t: seq<Event>): Option<Ledger> {
    if t == [] then Some(EMPTY)
    else match Replay(t[..|t| - 1])
      case None => None
      case Some(s) => if Legal(s, t[|t| - 1]) then Some(Apply(s, t[|t| - 1])) else None
  }

  predicate Lawful(t: seq<Event>) { Replay(t).Some? }

  lemma {:induction false} PrefixLawful(t: seq<Event>, i: nat)
    requires Lawful(t) && i <= |t|
    ensures Lawful(t[..i])
    ensures i < |t| ==> && Legal(Replay(t[..i]).value, t[i])
                        && Replay(t[..i + 1]) == Some(Apply(Replay(t[..i]).value, t[i]))
    decreases |t|
  {
    hide Legal, Apply;
    var front := t[..|t| - Min(1, |t|)];
    if i == |t| {
      assert t[..i] == t;
    } else if i == |t| - 1 {
      assert t[..i + 1] == t;
    } else {
      PrefixLawful(front, i);
      assert front[..i] == t[..i] && front[..i + 1] == t[..i + 1];
    }
  }

  // ---------- what a ledger always satisfies ----------

  /** Held resources are numbered below `next` and have their parents. */
  predicate Sound(s: Ledger) {
    && (forall k :: Get(s.live, k).Some? ==> Supported(s.live, k) && Get(s.live, k).value < s.next)
    && (s.live.region.Some? ==> s.filled && s.regionSize == |s.mem|)
    && (s.window ==> s.announced && s.qp == ReadyToSend && s.live.region.Some? && s.live.queuePair.Some?)
  }

  lemma SetGet(l: Live, k: Kind, h: Option<nat>, c: Kind)
    ensures Get(Set(l, k, h), c) == if c == k then h else Get(l, c)
  {
  }

  lemma SetSupported(l: Live, k: Kind, h: Option<nat>, c: Kind)
    requires Supported(l, c) && (h.Some? || !IsParent(k, c))
    ensures Supported(Set(l, k, h), c)
  {
  }

  lemma StepSound(s: Ledger, e: Event)
    requires Sound(s) && Legal(s, e)
    ensures Sound(Apply(s, e))
  {
    hide Get, Set, Supported;
    var u := Apply(s, e);
    if e.Acquire? || e.Release? {
      var h := if e.Acquire? then Some(e.id) else None;
      forall c ensures Get(u.live, c).Some? ==> Supported(u.live, c) && Get(u.live, c).value < u.next {
        SetGet(s.live, e.kind, h, c);
        TestsMatchRelation(s.live, e.kind);
        if Get(u.live, c).Some? { SetSupported(s.live, e.kind, h, c); }
      }
      FieldsOf(s.live, e.kind, h);
    }
  }

  lemma FieldsOf(l: Live, k: Kind, h: Option<nat>)
    ensures Set(l, k, h).region == if k == Region then h else l.region
    ensures Set(l, k, h).queuePair == if k == QueuePair then h else l.queuePair
    ensures Get(l, Region) == l.region && Get(l, QueuePair) == l.queuePair && Get(l, Mapping) == l.mapping
    ensures Get(l, Device) == l.device && Get(l, Domain) == l.domain
    ensures Supported(l, Region) ==> l.mapping.Some? && l.domain.Some?
    ensures Supported(l, Domain) ==> l.device.Some?
  {
  }

  lemma {:induction false} ReplaySound(t: seq<Event>)
    requires Lawful(t)
    ensures Sound(Replay(t).value)
  {
    hide Legal, Apply;
    if t != [] {
      ReplaySound(t[..|t| - 1]);
      StepSound(Replay(t[..|t| - 1]).value, t[|t| - 1]);
    }
  }

  // ---------- conservation ----------

  function Acquired(t: seq<Event>, k: Kind, id: nat): nat {
    if t == [] then 0
    else
      var e := t[|t| - 1];
      Acquired(t[..|t| - 1], k, id) + (if e.Acquire? && e.kind == k && e.id == id then 1 else 0)
  }

  function Released(t: seq<Event>, k: Kind, id: nat): nat {
    if t == [] then 0
    else Released(t[..|t| - 1], k, id) + (if t[|t| - 1] == Release(k, id) then 1 else 0)
  }

  predicate Holds(s: Ledger, k: Kind, id: nat) { Get(s.live, k) == Some(id) }

  lemma StepHolds(s: Ledger, e: Event, k: Kind, id: nat)
    requires Sound(s) && Legal(s, e)
    ensures Holds(s, k, id) ==> id < s.next
    ensures var u := Apply(s, e);
            && u.next >= s.next
            && (Holds(u, k, id)
                <==> (e.Acquire? && e.kind == k && e.id == id) || (Holds(s, k, id) && e != Release(k, id)))
            && (e.Acquire? && e.kind == k && e.id == id ==> id == s.next && u.next == s.next + 1)
            && (e == Release(k, id) ==> Holds(s, k, id))
  {
    hide Get, Set, Supported, Childless;
    if e.Acquire? { SetGet(s.live, e.kind, Some(e.id), k); }
    if e.Release? { SetGet(s.live, e.kind, None, k); }
  }

  /** At every moment of a lawful run a resource is held if and only if it was acquired and not yet released, and
      neither ever happens twice. */
  lemma {:induction false} Balance(t: seq<Event>, k: Kind, id: nat)
    requires Lawful(t)
    ensures var s := Replay(t).value;
            && Released(t, k, id) <= Acquired(t, k, id) <= 1
            && (Acquired(t, k, id) - Released(t, k, id) == 1 <==> Holds(s, k, id))
            && (id >= s.next ==> Acquired(t, k, id) == 0)
  {
    hide Legal, Apply, Sound;
    if t != [] {
      var front := t[..|t| - 1];
      Balance(front, k, id);
      ReplaySound(front);
      StepHolds(Replay(front).value, t[|t| - 1], k, id);
    }
  }

  /** Resource conservation: a lawful run that ends with nothing held has released everything it acquired, each
      exactly once and after its acquisition. */
  lemma Conservation(t: seq<Event>, k: Kind, id: nat, i: nat)
    requires Lawful(t) && Replay(t).value.live == NOTHING && i <= |t|
    ensures Acquired(t, k, id) == Released(t, k, id) <= 1
    ensures Released(t[..i], k, id) <= Acquired(t[..i], k, id)
  {
    Balance(t, k, id);
    PrefixLawful(t, i);
    Balance(t[..i], k, id);
  }

  /** Children before parents: when a resource is released, every child ever acquired has been released. */
  lemma ChildrenFirst(t: seq<Event>, j: nat, child: Kind, id: nat)
    requires Lawful(t) && j < |t| && t[j].Release? && IsParent(t[j].kind, child)
    ensures Acquired(t[..j], child, id) == Released(t[..j], child, id)
  {
    PrefixLawful(t, j);
    Balance(t[..j], child, id);
    TestsMatchRelation(Replay(t[..j]).value.live, t[j].kind);
  }

  /** At most one at a time: when a resource is acquired, no other of its kind is held. With `Device` for the kind:
      at most one session is alive. */
  lemma OneAtATime(t: seq<Event>, i: nat, id: nat)
    requires Lawful(t) && i < |t| && t[i].Acquire?
    ensures Acquired(t[..i], t[i].kind, id) == Released(t[..i], t[i].kind, id)
  {
    PrefixLawful(t, i);
    Balance(t[..i], t[i].kind, id);
  }

  // ---------- tokens ----------

  /** Ends the time in which a token may be used. */
  predicate EndsWindow(e: Event) { e.PutDone? || e.Abandon? }

  /** Between a delivered token and the return of the part request the ledger keeps what the token promised. */
  lemma StepInWindow(s: Ledger, e: Event)
    requires Sound(s) && s.window && Legal(s, e) && !EndsWindow(e)
    ensures var u := Apply(s, e);
            && u.window && u.mem == s.mem && u.qp == ReadyToSend
            && (forall k :: Get(s.live, k).Some? && k != Socket ==> Get(u.live, k) == Get(s.live, k))
  {
    InWindow(s);
  }

  lemma InWindow(s: Ledger)
    requires Sound(s) && s.window
    ensures forall k :: k != Socket ==> Get(s.live, k).Some?
  {
    assert Get(s.live, Region) == s.live.region && Get(s.live, QueuePair) == s.live.queuePair;
    assert Get(s.live, Domain) == s.live.domain && Get(s.live, Device) == s.live.device;
  }

  lemma StepAnnounce(s: Ledger, e: Event)
    requires Sound(s) && Legal(s, e) && e.Announce?
    ensures s.qp == ReadyToSend && e.start == 0 && e.length == |s.mem|
    ensures var u := Apply(s, e);
            && u.announced && (u.window <==> e.delivered) && u.qp == s.qp && u.mem == s.mem
            && Holds(u, Region, e.region) && Holds(u, Mapping, e.mapping) && u.live.queuePair.Some?
  {
  }

  lemma StepMemory(s: Ledger, e: Event)
    ensures e.Fill? ==> Apply(s, e).mem == e.data
    ensures !e.Fill? && !(e.Acquire? && e.kind == Mapping) ==> Apply(s, e).mem == s.mem
  {
  }

  lemma StepAnnounced(s: Ledger, e: Event)
    ensures e.Announce? || (s.announced && !(e.Acquire? && e.kind == Device)) ==> Apply(s, e).announced
  {
  }

  /** Token safety: a delivered token is sent on a queue pair that is ready to send, for a region registered over
      exactly the announced bytes; and until the part request returns or the client gives the token up, region,
      mapping and queue pair stay in place and the memory keeps the contents it had when the token was sent. */
  lemma {:induction false} TokenSafety(t: seq<Event>, i: nat, m: nat)
    requires Lawful(t) && i < m <= |t| && t[i].Announce? && t[i].delivered
    requires forall x :: i < x < m ==> !EndsWindow(t[x])
    ensures Lawful(t[..i]) && Lawful(t[..m])
    ensures var before, now := Replay(t[..i]).value, Replay(t[..m]).value;
            && before.qp == ReadyToSend && t[i].start == 0 && t[i].length == |before.mem|
            && now.window && now.qp == ReadyToSend && now.mem == before.mem
            && Holds(now, Region, t[i].region) && Holds(now, Mapping, t[i].mapping) && now.live.queuePair.Some?
    decreases m - i
  {
    hide Replay, Legal, Apply, Sound;
    PrefixLawful(t, i);
    ReplaySound(t[..i]);
    StepAnnounce(Replay(t[..i]).value, t[i]);
    if m == i + 1 {
    } else {
      TokenSafety(t, i, m - 1);
      PrefixLawful(t, m - 1);
      PrefixLawful(t, m);
      ReplaySound(t[..m - 1]);
      InWindow(Replay(t[..m - 1]).value);
      StepInWindow(Replay(t[..m - 1]).value, t[m - 1]);
      FieldsOf(Replay(t[..m - 1]).value.live, Mapping, None);
      FieldsOf(Replay(t[..m]).value.live, Mapping, None);
    }
  }

  /** Hence whatever the server reads in that time is the memory as it was when the token was sent. */
  lemma ServerReadsAnnounced(t: seq<Event>, i: nat, m: nat)
    requires Lawful(t) && i < m < |t| && t[i].Announce? && t[i].delivered && t[m].RemoteRead?
    requires forall x :: i < x < m ==> !EndsWindow(t[x])
    ensures Lawful(t[..i]) && t[m].data == Replay(t[..i]).value.mem
  {
    TokenSafety(t, i, m);
    PrefixLawful(t, m);
  }

  /** The memory is what was last read into it. */
  lemma {:induction false} MemoryIsLastFill(t: seq<Event>, f: nat, m: nat)
    requires Lawful(t) && f < m <= |t| && t[f].Fill?
    requires forall x :: f < x < m ==> !t[x].Fill? && !(t[x].Acquire? && t[x].kind == Mapping)
    ensures Lawful(t[..m]) && Replay(t[..m]).value.mem == t[f].data
    decreases m - f
  {
    hide Replay, Legal, Apply;
    PrefixLawful(t, m - 1);
    PrefixLawful(t, m);
    StepMemory(Replay(t[..m - 1]).value, t[m - 1]);
    if m > f + 1 { MemoryIsLastFill(t, f, m - 1); }
  }

  // ---------- what a trace says about data ----------

  /** A part request that has returned: its number, whether it succeeded, and what the server read for it. */
  datatype Put = Put(part: int, ok: bool, seen: seq<seq<byte>>)

  /** Everything read into mappings, the part requests that have returned, what the server has read since the last of
      them returned, and the number of tokens given up. */
  datatype Record = Record(fills: seq<seq<byte>>, puts: seq<Put>, pending: seq<seq<byte>>, abandoned: nat)

  const BLANK := Record([], [], [], 0)

  function Note(r: Record, e: Event): Record {
    match e
    case Fill(data) => r.(fills := r.fills + [data])
    case RemoteRead(data) => r.(pending := r.pending + [data])
    case PutDone(part, ok) => r.(puts := r.puts + [Put(part, ok, r.pending)], pending := [])
    case Abandon => r.(abandoned := r.abandoned + 1)
    case _ => r
  }

  function Rec(t: seq<Event>): Record {
    if t == [] then BLANK else Note(Rec(t[..|t| - 1]), t[|t| - 1])
  }

  lemma {:induction false} FilledIsFill(t: seq<Event>)
    requires Lawful(t)
    ensures Replay(t).value.filled ==> Replay(t).value.mem in Rec(t).fills
  {
    hide Get, Set, Supported, Childless;
    if t != [] { FilledIsFill(t[..|t| - 1]); }
  }

  /** Whatever the server reads in a lawful run was read into a mapping before. */
  lemma ServerReadsFills(t: seq<Event>, m: nat)
    requires Lawful(t) && m < |t| && t[m].RemoteRead?
    ensures t[m].data in Rec(t[..m]).fills
  {
    PrefixLawful(t, m);
    ReplaySound(t[..m]);
    FilledIsFill(t[..m]);
  }

  /** The part request that is pending at `m` returns at `j`. */
  predicate Returns(t: seq<Event>, m: nat, j: nat) {
    m < j < |t| && t[j].PutDone? && forall x :: m < x < j ==> !t[x].PutDone?
  }

  lemma RecStep(t: seq<Event>, j: nat)
    requires j < |t|
    ensures Rec(t[..j + 1]) == Note(Rec(t[..j]), t[j])
  {
    assert t[..j + 1][..j] == t[..j];
  }

  lemma {:induction false} ReadPends(t: seq<Event>, m: nat, j: nat)
    requires m < j <= |t| && t[m].RemoteRead? && forall x :: m < x < j ==> !t[x].PutDone?
    ensures t[m].data in Rec(t[..j]).pending
    decreases j
  {
    hide Rec;
    RecStep(t, j - 1);
    if j > m + 1 { ReadPends(t, m, j - 1); }
  }

  lemma {:induction false} PutsGrow(t: seq<Event>, j: nat)
    requires j <= |t|
    ensures Rec(t[..j]).puts <= Rec(t).puts
    decreases |t| - j
  {
    if j < |t| {
      hide Rec;
      PutsGrow(t, j + 1);
      RecStep(t, j);
    } else {
      assert t[..j] == t;
    }
  }

  /** What the server reads is recorded under the part request that was pending at the time. */
  lemma ReadIsRecorded(t: seq<Event>, m: nat, j: nat)
    requires m < |t| && t[m].RemoteRead? && Returns(t, m, j)
    ensures exists i :: 0 <= i < |Rec(t).puts| && Rec(t).puts[i].part == t[j].part && Rec(t).puts[i].ok == t[j].ok
                        && t[m].data in Rec(t).puts[i].seen
  {
    hide Rec;
    ReadPends(t, m, j);
    RecStep(t, j);
    PutsGrow(t, j + 1);
    var i := |Rec(t[..j]).puts|;
    assert Rec(t).puts[i] == Put(t[j].part, t[j].ok, Rec(t[..j]).pending);
  }

  /** If nothing is pending at the end, every read fell into a part request that has returned. */
  lemma ReadReturns(t: seq<Event>, m: nat)
    requires m < |t| && t[m].RemoteRead? && Rec(t).pending == []
    ensures exists j: nat :: Returns(t, m, j)
  {
    hide Rec;
    assert t[..|t|] == t;
    if forall x :: m < x < |t| ==> !t[x].PutDone? {
      ReadPends(t, m, |t|);
    } else {
      var x :| m < x < |t| && t[x].PutDone?;
      var j := FirstReturn(t, m, x);
    }
  }

  lemma {:induction false} FirstReturn(t: seq<Event>, m: nat, x: nat) returns (j: nat)
    requires m < x < |t| && t[x].PutDone?
    ensures Returns(t, m, j)
    decreases x
  {
    if y: nat :| m < y < x && t[y].PutDone? {
      j := FirstReturn(t, m, y);
    } else {
      j := x;
    }
  }

  /** The record after one more part request, for which the server read `data`, and at least once if it succeeded. */
  ghost predicate Answered(before: Record, now: Record, pn: int, ok: bool, data: seq<byte>) {
    && now.puts != []
    && var p := now.puts[|now.puts| - 1];
    && now == before.(puts := before.puts + [p])
    && p.part == pn && p.ok == ok && SawOnly(p, data)
  }

  ghost predicate SawOnly(p: Put, data: seq<byte>) {
    (forall x :: x in p.seen ==> x == data) && (p.ok ==> p.seen != [])
  }

  /** A session announces its token at most once: two tokens are separated by the opening of another device. */
  lemma {:induction false} AnnouncedStays(t: seq<Event>, i: nat, m: nat)
    requires Lawful(t) && i < m <= |t| && t[i].Announce?
    requires forall x :: i < x < m ==> !(t[x].Acquire? && t[x].kind == Device)
    ensures Lawful(t[..m]) && Replay(t[..m]).value.announced
    decreases m - i
  {
    hide Replay, Legal, Apply;
    PrefixLawful(t, m - 1);
    PrefixLawful(t, m);
    StepAnnounced(Replay(t[..m - 1]).value, t[m - 1]);
    if m > i + 1 { AnnouncedStays(t, i, m - 1); }
  }

  lemma OneTokenPerSession(t: seq<Event>, i: nat, j: nat)
    requires Lawful(t) && i < j < |t| && t[i].Announce? && t[j].Announce?
    ensures exists x :: i < x < j && t[x].Acquire? && t[x].kind == Device
  {
    if forall x :: i < x < j ==> !(t[x].Acquire? && t[x].kind == Device) {
      AnnouncedStays(t, i, j);
      PrefixLawful(t, j);
    }
  }

  // ---------- the way of a queue pair ----------

  /** No queue pair is created and none changes its state in `t[i..j]`. */
  ghost predicate SameState(t: seq<Event>, i: nat, j: nat) {
    forall x :: i <= x < j <= |t| ==> !t[x].ToState? && !(t[x].Acquire? && t[x].kind == QueuePair)
  }

  lemma StepState(s: Ledger, e: Event)
    requires Legal(s, e)
    ensures e.ToState? ==> Apply(s, e).qp == e.state
                           && (e.state == Init ==> s.qp == Reset) && (e.state == ReadyToReceive ==> s.qp == Init)
                           && (e.state == ReadyToSend ==> s.qp == ReadyToReceive) && e.state != Reset
    ensures e.Acquire? && e.kind == QueuePair ==> Apply(s, e).qp == Reset
    ensures !e.ToState? && !(e.Acquire? && e.kind == QueuePair) ==> Apply(s, e).qp == s.qp
  {
    hide Get, Set, Supported, Childless;
  }

  /** A state other than RESET was entered by the last event that concerns the queue pair. */
  lemma {:induction false} Entered(t: seq<Event>, m: nat) returns (i: nat)
    requires Lawful(t) && m <= |t| && Lawful(t[..m]) && Replay(t[..m]).value.qp != Reset
    ensures i < m && t[i] == ToState(Replay(t[..m]).value.qp) && SameState(t, i + 1, m)
    decreases m
  {
    hide Replay, Legal, Apply;
    assert m > 0 by {
      EmptyTrace();
      assert t[..0] == [];
    }
    PrefixLawful(t, m - 1);
    StepState(Replay(t[..m - 1]).value, t[m - 1]);
    if t[m - 1].ToState? { i := m - 1; } else { i := Entered(t, m - 1); }
  }

  lemma EmptyTrace()
    ensures Replay([]) == Some(EMPTY)
  {
  }

  /** Before a token is announced, its queue pair has gone through INIT, RTR and RTS, in this order and each once. */
  lemma TokenOnReadyPair(t: seq<Event>, m: nat) returns (a: nat, b: nat, c: nat)
    requires Lawful(t) && m < |t| && t[m].Announce?
    ensures a < b < c < m && t[a] == ToState(Init) && t[b] == ToState(ReadyToReceive) && t[c] == ToState(ReadyToSend)
    ensures SameState(t, a + 1, b) && SameState(t, b + 1, c) && SameState(t, c + 1, m)
  {
    hide Replay, Apply;
    PrefixLawful(t, m);
    c := Entered(t, m);
    PrefixLawful(t, c);
    StepState(Replay(t[..c]).value, t[c]);
    b := Entered(t, c);
    PrefixLawful(t, b);
    StepState(Replay(t[..b]).value, t[b]);
    a := Entered(t, b);
  }

  // ---------- what the marks say about a trace ----------

  predicate Dials(e: Event) { e.Acquire? && e.kind == Socket }

  predicate Throws(e: Event) { e.Ran? && e.fault == Error }

  /** An `Error` was thrown. */
  ghost predicate Threw(t: seq<Event>) { exists i :: 0 <= i < |t| && Throws(t[i]) }

  /** Some queue pair became ready to send. */
  ghost predicate Reached(t: seq<Event>) { exists i :: 0 <= i < |t| && t[i] == ToState(ReadyToSend) }

  /** A websocket was dialed, and no queue pair became ready to send behind it. */
  ghost predicate Unshaken(t: seq<Event>) {
    exists i :: 0 <= i < |t| && Dials(t[i]) && forall j :: i < j < |t| ==> t[j] != ToState(ReadyToSend)
  }

  /** A resource of the kind is held when the i-th event happens. */
  predicate HeldAt(t: seq<Event>, i: nat, k: Kind)
    requires i <= |t|
  {
    Lawful(t[..i]) && Get(Replay(t[..i]).value.live, k).Some?
  }

  /** The set-up or clean-up of a session threw an `Error` while the device was held. */
  ghost predicate Spilled(t: seq<Event>) {
    exists i :: 0 <= i < |t| && Throws(t[i]) && (t[i].site.SetUp? || t[i].site.CleanUp?) && HeldAt(t, i, Device)
  }

  /** The set-up of a session threw an `Error` while the websocket was held. */
  ghost predicate Dropped(t: seq<Event>) {
    exists i :: 0 <= i < |t| && Throws(t[i]) && t[i].site.SetUp? && HeldAt(t, i, Socket)
  }

  lemma ThrewMore(t: seq<Event>, e: Event)
    ensures Threw(t + [e]) <==> Threw(t) || Throws(e)
    ensures Reached(t + [e]) <==> Reached(t) || e == ToState(ReadyToSend)
  {
    var u := t + [e];
    assert u[|t|] == e;
    forall i | 0 <= i < |t| ensures u[i] == t[i] {}
  }

  lemma UnshakenMore(t: seq<Event>, e: Event)
    ensures Unshaken(t + [e]) <==> Dials(e) || (Unshaken(t) && e != ToState(ReadyToSend))
  {
    var u := t + [e];
    assert u[|t|] == e;
    forall i | 0 <= i < |t| ensures u[i] == t[i] {}
    if Unshaken(t) && e != ToState(ReadyToSend) {
      var i :| 0 <= i < |t| && Dials(t[i]) && forall j :: i < j < |t| ==> t[j] != ToState(ReadyToSend);
      assert Dials(u[i]);
    }
    if Unshaken(u) {
      var i :| 0 <= i < |u| && Dials(u[i]) && forall j :: i < j < |u| ==> u[j] != ToState(ReadyToSend);
      if i < |t| { assert Dials(t[i]); }
    }
  }

  lemma SpilledMore(t: seq<Event>, e: Event)
    ensures Spilled(t + [e]) <==>
              Spilled(t) || (Throws(e) && (e.site.SetUp? || e.site.CleanUp?) && HeldAt(t, |t|, Device))
    ensures Dropped(t + [e]) <==> Dropped(t) || (Throws(e) && e.site.SetUp? && HeldAt(t, |t|, Socket))
  {
    hide Replay;
    var u := t + [e];
    assert u[|t|] == e && u[..|t|] == t == t[..|t|];
    forall i | 0 <= i < |t| ensures u[i] == t[i] && u[..i] == t[..i] {}
  }

  /** The marks of the ledger are what the trace shows. */
  lemma {:induction false} MarksShow(t: seq<Event>)
    requires Lawful(t)
    ensures var m := Replay(t).value.marks;
            && (m.shaking <==> Unshaken(t)) && (m.reached <==> Reached(t)) && (m.thrown <==> Threw(t))
            && (m.spilled <==> Spilled(t)) && (m.dropped <==> Dropped(t))
  {
    hide Legal, Apply, Unshaken, Reached, Threw, Spilled, Dropped;
    if t == [] {
      MarksAtStart();
    } else {
      var front, e := t[..|t| - 1], t[|t| - 1];
      assert t == front + [e] && front[..|front|] == front;
      MarksShow(front);
      ThrewMore(front, e);
      UnshakenMore(front, e);
      SpilledMore(front, e);
      StepMarks(Replay(front).value, e);
    }
  }

  lemma StepMarks(s: Ledger, e: Event)
    ensures var m, u := s.marks, Apply(s, e).marks;
            && (u.shaking <==> Dials(e) || (m.shaking && e != ToState(ReadyToSend)))
            && (u.reached <==> m.reached || e == ToState(ReadyToSend)) && (u.thrown <==> m.thrown || Throws(e))
            && (u.spilled <==>
                  m.spilled || (Throws(e) && (e.site.SetUp? || e.site.CleanUp?) && Get(s.live, Device).Some?))
            && (u.dropped <==> m.dropped || (Throws(e) && e.site.SetUp? && Get(s.live, Socket).Some?))
  {
    hide Apply;
    MarksAfter(s, e);
    assert Get(s.live, Device) == s.live.device && Get(s.live, Socket) == s.live.socket;
  }

  lemma MarksAfter(s: Ledger, e: Event)
    ensures Apply(s, e).marks == if Dials(e) then s.marks.(shaking := true)
                                 else if e == ToState(ReadyToSend) then Shaken(s.marks)
                                 else if Throws(e) then Crash(s.marks, e.site, s.live)
                                 else s.marks
  {
    hide Set;
  }

  lemma MarksAtStart()
    ensures !Unshaken([]) && !Reached([]) && !Threw([]) && !Spilled([]) && !Dropped([])
  {
  }

  // ---------- tokens and part requests ----------

  /** The number of tokens delivered. */
  function Tokens(t: seq<Event>): nat {
    if t == [] then 0
    else Tokens(t[..|t| - 1]) + (if t[|t| - 1].Announce? && t[|t| - 1].delivered then 1 else 0)
  }

  lemma StepTokens(s: Ledger, e: Event)
    requires Sound(s) && Legal(s, e)
    ensures var u := Apply(s, e);
            && (e.Announce? ==> !s.window && (u.window <==> e.delivered))
            && (EndsWindow(e) ==> s.window && !u.window)
            && (!e.Announce? && !EndsWindow(e) ==> u.window == s.window)
  {
  }

  /** Every delivered token has been answered by exactly one part request, or given up, or is still open. */
  lemma {:induction false} TokenBalance(t: seq<Event>)
    requires Lawful(t)
    ensures Tokens(t) == |Rec(t).puts| + Rec(t).abandoned + (if Replay(t).value.window then 1 else 0)
  {
    hide Legal, Apply, Sound;
    if t != [] {
      var front := t[..|t| - 1];
      TokenBalance(front);
      ReplaySound(front);
      StepTokens(Replay(front).value, t[|t| - 1]);
    }
  }

  // ---------- the recorder ----------

  /** A step that ended when `n` events had gone before ended as the schedule says. */
  predicate Obeys(e: Event, faults: Schedule, n: nat) {
    match e
    case Ran(site, fault) => fault == faults(site, n)
    case Called(site, ok) => ok == (faults(site, n) == Fine)
    case _ => true
  }

  /** Steps have ended as the schedule says. */
  ghost predicate Follow(t: seq<Event>, faults: Schedule) {
    forall i :: 0 <= i < |t| ==> Obeys(t[i], faults, i)
  }

  lemma FollowMore(t: seq<Event>, e: Event, faults: Schedule)
    requires Follow(t, faults) && Obeys(e, faults, |t|)
    ensures Follow(t + [e], faults)
  {
  }

  /** What the clients write to: the trace so far and its ledger; and what they meet: faults and peers. */
  class World {
    const faults: Schedule
    const net: Network
    var trace: seq<Event>
    var st: Ledger

    ghost predicate Valid()
      reads this
    {
      Replay(trace) == Some(st) && Follow(trace, faults)
    }

    constructor (faults: Schedule, net: Network)
      ensures Valid() && trace == [] && st == EMPTY && this.faults == faults && this.net == net
    {
      this.faults, this.net := faults, net;
      trace, st := [], EMPTY;
    }

    method Emit(e: Event)
      requires Valid() && Legal(st, e) && Obeys(e, faults, |trace|)
      modifies this
      ensures Valid() && trace == old(trace) + [e] && st == Apply(old(st), e)
      ensures Rec(trace) == Note(Rec(old(trace)), e)
    {
      hide Legal, Apply, Note, Follow, Obeys;
      FollowMore(trace, e, faults);
      st := Apply(st, e);
      trace := trace + [e];
      assert trace[..|trace| - 1] == old(trace);
    }

    /** A step that succeeds or fails as the schedule says. */
    method Call(site: Site) returns (ok: bool)
      requires Valid()
      modifies this
      ensures Valid() && st == old(st) && Rec(trace) == Rec(old(trace))
      ensures ok <==> faults(site, |old(trace)|) == Fine
      ensures (Faultless(faults) ==> ok) && (ok ==> Works(faults, site))
    {
      hide Replay, Rec;
      ok := faults(site, |trace|) == Fine;
      Emit(Called(site, ok));
    }

    /** A call that yields a new resource or fails. */
    method Try(k: Kind, size: nat) returns (h: Option<nat>)
      requires Valid() && Get(st.live, k).None? && Supported(st.live, k)
      requires k == Region ==> st.filled && size == |st.mem|
      modifies this
      ensures Valid() && Rec(trace) == Rec(old(trace))
      ensures h.None? ==> st == old(st)
      ensures h.Some? ==> h.value == old(st).next && st == Apply(old(st), Acquire(k, h.value, size))
      ensures (Faultless(faults) ==> h.Some?) && (h.Some? ==> Works(faults, SetUp(Acquiring(k))))
    {
      hide Replay, Rec, Apply, Works, Faultless;
      var ok := Call(SetUp(Acquiring(k)));
      if ok {
        h := Some(st.next);
        Emit(Acquire(k, st.next, size));
      } else {
        h := None;
      }
    }

    /** A step that ends as the schedule says. */
    method Ask(site: Site) returns (f: Fault)
      requires Valid()
      modifies this
      ensures Valid() && f == faults(site, |old(trace)|) 
      ensures (f == Fine ==> Works(faults, site)) && (f != Error ==> Survives(faults, site))
      ensures Rec(trace) == Rec(old(trace))
      ensures st == if f == Error then old(st).(marks := Crash(old(st.marks), site, old(st.live))) else old(st)
    {
      hide Replay, Rec;
      f := faults(site, |trace|);
      Emit(Ran(site, f));
    }
  }
}
