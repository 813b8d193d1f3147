/** What every client's upload is measured against: the slices of the file, where they end up, and in which order. */
module UploadSpec {
  import opened Prelude
  import opened ResourceTrace
  import opened Partition
  import opened UploadProtocol
  import opened S3Server

  /** No resource is held and no token is outstanding. */
  predicate Idle(s: Ledger) { s.live == NOTHING && !s.window }

  /** Nothing is held except, possibly, a websocket. */
  predicate OnlySocket(l: Live) { l == NOTHING.(socket := l.socket) }

  /** A range of parts of a non-empty file. */
  predicate IsRange(size: nat, ps: nat, start: int, end: int) {
    size > 0 && ps > 0 && 1 <= start <= end + 1 && end <= Ceil(size, ps)
  }

  /** The range of a plan; a refused plan has no parts. */
  function Bounds(p: Plan): (int, int) {
    match p case Refused => (1, 0) case Range(a, b) => (a, b)
  }

  /** Parts `start..last` are stored under the upload as the file's slices. */
  ghost predicate StoredAs(parts: PartMap, id: string, file: seq<byte>, ps: nat, start: int, last: int)
    requires ps > 0 && 1 <= start && last <= Ceil(|file|, ps)
  {
    forall pn :: start <= pn <= last ==> (id, pn) in parts && parts[(id, pn)] == Slice(file, ps, pn)
  }

  /** The object is the concatenation of slices `start..end`. */
  ghost predicate IsObject(content: Option<seq<byte>>, file: seq<byte>, ps: nat, start: int, end: int) {
    IsRange(|file|, ps, start, end) && content == Some(Flatten(Slices(file, ps, start, end)))
  }

  /** A list of stored slices assembles to their concatenation. */
  lemma Assembled(parts: PartMap, id: string, file: seq<byte>, ps: nat, start: int, end: int)
    requires ps > 0 && 1 <= start && end <= Ceil(|file|, ps) && StoredAs(parts, id, file, ps, start, end)
    ensures Present(parts, id, PartList(start, end))
    ensures Pieces(parts, id, PartList(start, end)) == Slices(file, ps, start, end)
  {
  }

  lemma SliceNonEmpty(file: seq<byte>, ps: nat, pn: int)
    requires ps > 0 && file != [] && 1 <= pn <= Ceil(|file|, ps)
    ensures Slice(file, ps, pn) != []
  {
    ExactPartition(|file|, ps, pn);
  }

  // ---------- what an upload does ----------

  /** All that an upload changes: the requests, the record of the trace, the parts stored. */
  datatype Snap = Snap(log: seq<Call>, rec: Record, parts: PartMap)

  ghost function Now(w: World, srv: Server): Snap
    reads w, srv
  {
    Snap(srv.log, Rec(w.trace), srv.parts)
  }

  /** The part requests recorded in a trace, as calls. */
  function Requests(puts: seq<Put>): (r: seq<Call>)
    ensures |r| == |puts|
  {
    seq(|puts|, i requires 0 <= i < |puts| => PutCall(puts[i].part, puts[i].ok))
  }

  /** A part that ended without a request. */
  ghost predicate NotSent(s: Snap, now: Snap, data: seq<byte>) {
    && now.log == s.log && now.parts == s.parts
    && now.rec == s.rec.(fills := now.rec.fills, abandoned := now.rec.abandoned)
    && (now.rec.fills == s.rec.fills || now.rec.fills == s.rec.fills + [data])
  }

  /** A part whose request has returned. */
  ghost predicate Sent(s: Snap, now: Snap, id: string, pn: int, data: seq<byte>, ok: bool) {
    && now.log == s.log + [PutCall(pn, ok)]
    && now.rec.fills == s.rec.fills + [data]
    && Answered(s.rec.(fills := now.rec.fills), now.rec, pn, ok, data)
    && (now.parts == s.parts[(id, pn) := data] || (!ok && now.parts == s.parts))
  }

  lemma Unsent(s: Snap, data: seq<byte>)
    ensures NotSent(s, s, data)
  {
  }

  /** What was read into mappings on top of `before` are slices `start..` of the file, in order and without gaps. */
  ghost predicate FillsAreSlices(before: seq<seq<byte>>, now: seq<seq<byte>>, file: seq<byte>, ps: nat,
                                 start: int, end: int)
    requires IsRange(|file|, ps, start, end)
  {
    exists last :: start - 1 <= last <= end && now == before + Slices(file, ps, start, last)
  }

  /** The requests are for parts `start..end`, and for each of them the server read nothing but the slice of that very
      part, and read it if the request succeeded. */
  ghost predicate ReadOwnSlice(puts: seq<Put>, file: seq<byte>, ps: nat, start: int, end: int)
    requires IsRange(|file|, ps, start, end)
  {
    forall i :: 0 <= i < |puts| ==> start <= puts[i].part <= end && SawOnly(puts[i], Slice(file, ps, puts[i].part))
  }

  /** Only parts `start..end` of the upload may have changed. */
  ghost predicate Elsewhere(before: PartMap, now: PartMap, id: string, start: int, end: int) {
    forall name: string, pn: int :: !(name == id && start <= pn <= end) ==>
      && ((name, pn) in before <==> (name, pn) in now)
      && ((name, pn) in before ==> now[(name, pn)] == before[(name, pn)])
  }

  /** What an upload call over `start..end` has done, however it ended: the requests in the log are those in the trace,
      each part request let the server read the slice of that part, and other parts are as they were. */
  ghost predicate Moved(s: Snap, now: Snap, id: string, file: seq<byte>, ps: nat, start: int, end: int) {
    && s.log <= now.log && s.rec.puts <= now.rec.puts && s.rec.pending == [] == now.rec.pending
    && now.log[|s.log|..] == Requests(now.rec.puts[|s.rec.puts|..])
    && Elsewhere(s.parts, now.parts, id, start, end)
    && if IsRange(|file|, ps, start, end) then
         && FillsAreSlices(s.rec.fills, now.rec.fills, file, ps, start, end)
         && ReadOwnSlice(now.rec.puts[|s.rec.puts|..], file, ps, start, end)
       else now == s
  }

  /** An upload call over `start..end` that returned (`ok`) or failed. */
  ghost predicate Upload(s: Snap, now: Snap, id: string, file: seq<byte>, ps: nat, start: int, end: int, ok: bool) {
    && Moved(s, now, id, file, ps, start, end)
    && Uploaded(now.log[|s.log|..], start, end, ok)
    && (ok ==> IsRange(|file|, ps, start, end) && now.rec.abandoned == s.rec.abandoned
               && now.rec.fills == s.rec.fills + Slices(file, ps, start, end)
               && StoredAs(now.parts, id, file, ps, start, end))
  }

  /** A call that sends nothing: a failure, or the success of an empty range. */
  lemma UploadNothing(s: Snap, id: string, file: seq<byte>, ps: nat, start: int, end: int)
    requires s.rec.pending == []
    ensures Upload(s, s, id, file, ps, start, end, false)
    ensures IsRange(|file|, ps, start, start - 1) ==> Upload(s, s, id, file, ps, start, start - 1, true)
  {
    hide Slice;
    assert s.log[|s.log|..] == OkPuts(start, 0) == [];
    assert FailedAfter([], start, end, 0);
    if ps > 0 && 1 <= start && start - 1 <= Ceil(|file|, ps) {
      assert s.rec.fills == s.rec.fills + Slices(file, ps, start, start - 1);
    }
  }

  lemma RequestUploads(s: Snap, now: Snap, id: string, file: seq<byte>, ps: nat, pn: int, ok: bool)
    requires IsRange(|file|, ps, pn, pn) && s.rec.pending == [] && Sent(s, now, id, pn, Slice(file, ps, pn), ok)
    ensures Upload(s, now, id, file, ps, pn, pn, ok)
  {
    hide Slice, Ceil, SawOnly;
    assert Slices(file, ps, pn, pn) == [Slice(file, ps, pn)];
    assert OkPuts(pn, 0) == [] && OkPuts(pn, 1) == [PutCall(pn, true)];
    var p := now.rec.puts[|now.rec.puts| - 1];
    assert now.rec.puts[|s.rec.puts|..] == [p];
    assert now.log[|s.log|..] == [PutCall(pn, ok)];
    assert Requests([p]) == [PutCall(pn, ok)];
    if !ok { assert FailedAfter([PutCall(pn, false)], pn, pn, 0); }
  }

  lemma NoRequestFails(s: Snap, now: Snap, id: string, file: seq<byte>, ps: nat, pn: int)
    requires IsRange(|file|, ps, pn, pn) && s.rec.pending == [] && NotSent(s, now, Slice(file, ps, pn))
    ensures Upload(s, now, id, file, ps, pn, pn, false)
  {
    hide Slice, Ceil, SawOnly;
    var data := Slice(file, ps, pn);
    assert Slices(file, ps, pn, pn) == [data] && Slices(file, ps, pn, pn - 1) == [];
    assert now.log[|s.log|..] == [] && now.rec.puts[|s.rec.puts|..] == [] && Requests([]) == [] == OkPuts(pn, 0);
    assert FailedAfter([], pn, pn, 0);
    assert now.rec.fills == s.rec.fills + [] || now.rec.fills == s.rec.fills + [data];
  }

  /** One part is an upload of the range that consists of it. */
  lemma UploadOne(s: Snap, now: Snap, id: string, file: seq<byte>, ps: nat, pn: int, ok: bool)
    requires IsRange(|file|, ps, pn, pn) && s.rec.pending == []
    requires var data := Slice(file, ps, pn); Sent(s, now, id, pn, data, ok) || (!ok && NotSent(s, now, data))
    ensures Upload(s, now, id, file, ps, pn, pn, ok)
  {
    hide Slice, Ceil, Sent, NotSent, Upload;
    if Sent(s, now, id, pn, Slice(file, ps, pn), ok) {
      RequestUploads(s, now, id, file, ps, pn, ok);
    } else {
      NoRequestFails(s, now, id, file, ps, pn);
    }
  }

  lemma Suffix<T>(a: seq<T>, b: seq<T>, c: seq<T>)
    requires a <= b <= c
    ensures c[|a|..] == b[|a|..] + c[|b|..]
  {
  }

  lemma RequestsAppend(a: seq<Put>, b: seq<Put>)
    ensures Requests(a + b) == Requests(a) + Requests(b)
  {
  }

  lemma SlicesAppend(file: seq<byte>, ps: nat, start: int, k: int, last: int)
    requires IsRange(|file|, ps, start, k - 1) && k - 1 <= last <= k && last <= Ceil(|file|, ps)
    ensures Slices(file, ps, start, k - 1) + Slices(file, ps, k, last) == Slices(file, ps, start, last)
  {
    hide Slice, Ceil;
  }

  lemma MovedMore(s: Snap, mid: Snap, now: Snap, id: string, file: seq<byte>, ps: nat, start: int, k: int, end: int)
    requires IsRange(|file|, ps, start, end) && start <= k <= end
    requires Moved(s, mid, id, file, ps, start, k - 1) && Moved(mid, now, id, file, ps, k, k)
    requires mid.rec.fills == s.rec.fills + Slices(file, ps, start, k - 1)
    ensures Moved(s, now, id, file, ps, start, end)
  {
    hide Slice, Ceil, Slices, Requests, SawOnly, Elsewhere, FillsAreSlices;
    Suffix(s.log, mid.log, now.log);
    Suffix(s.rec.puts, mid.rec.puts, now.rec.puts);
    RequestsAppend(mid.rec.puts[|s.rec.puts|..], now.rec.puts[|mid.rec.puts|..]);
    ElsewhereMore(s.parts, mid.parts, now.parts, id, start, k, end);
    FillsMore(s.rec.fills, mid.rec.fills, now.rec.fills, file, ps, start, k, end);
  }

  lemma ElsewhereMore(a: PartMap, b: PartMap, c: PartMap, id: string, start: int, k: int, end: int)
    requires start <= k <= end && Elsewhere(a, b, id, start, k - 1) && Elsewhere(b, c, id, k, k)
    ensures Elsewhere(a, c, id, start, end)
  {
  }

  lemma FillsMore(a: seq<seq<byte>>, b: seq<seq<byte>>, c: seq<seq<byte>>, file: seq<byte>, ps: nat,
                  start: int, k: int, end: int)
    requires IsRange(|file|, ps, start, end) && start <= k <= end
    requires b == a + Slices(file, ps, start, k - 1) && FillsAreSlices(b, c, file, ps, k, k)
    ensures FillsAreSlices(a, c, file, ps, start, end)
  {
    hide Slice, Ceil, Slices;
    var last :| k - 1 <= last <= k && c == b + Slices(file, ps, k, last);
    SlicesAppend(file, ps, start, k, last);
    assert c == a + Slices(file, ps, start, last);
  }

  lemma UploadedMore(a: seq<Call>, b: seq<Call>, start: int, k: int, end: int, ok: bool)
    requires start <= k <= end && Uploaded(a, start, k - 1, true) && Uploaded(b, k, k, ok)
    ensures ok ==> Uploaded(a + b, start, k, true)
    ensures !ok ==> Uploaded(a + b, start, end, false)
  {
    if ok {
      assert a + b == OkPuts(start, Count(start, k));
    } else {
      assert a + b == OkPuts(start, k - start) || a + b == OkPuts(start, k - start) + [PutCall(k, false)];
      assert FailedAfter(a + b, start, end, k - start);
    }
  }

  /** Sending parts `start..k - 1` and then part `k` on its own is sending `start..k`; if that one fails, the upload
      of the whole range has failed. */
  lemma UploadMore(s: Snap, mid: Snap, now: Snap, id: string, file: seq<byte>, ps: nat, start: int, k: int, end: int,
                   ok: bool)
    requires IsRange(|file|, ps, start, end) && start <= k <= end
    requires Upload(s, mid, id, file, ps, start, k - 1, true) && Upload(mid, now, id, file, ps, k, k, ok)
    ensures ok ==> Upload(s, now, id, file, ps, start, k, true)
    ensures !ok ==> Upload(s, now, id, file, ps, start, end, false)
  {
    hide Slice, Slices, Ceil, Moved, Uploaded;
    MovedMore(s, mid, now, id, file, ps, start, k, if ok then k else end);
    MovedGrows(s, mid, id, file, ps, start, k - 1);
    MovedGrows(mid, now, id, file, ps, k, k);
    Suffix(s.log, mid.log, now.log);
    UploadedMore(mid.log[|s.log|..], now.log[|mid.log|..], start, k, end, ok);
    if ok { SlicesAppend(file, ps, start, k, k); }
  }

  lemma MovedGrows(s: Snap, now: Snap, id: string, file: seq<byte>, ps: nat, start: int, end: int)
    requires Moved(s, now, id, file, ps, start, end)
    ensures s.log <= now.log && Elsewhere(s.parts, now.parts, id, start, end)
    ensures s.rec.pending == [] == now.rec.pending
  {
  }

  lemma UploadGrows(s: Snap, now: Snap, id: string, file: seq<byte>, ps: nat, start: int, end: int, ok: bool)
    requires Upload(s, now, id, file, ps, start, end, ok)
    ensures s.log <= now.log && now.rec.pending == []
  {
  }

  lemma UploadMoves(s: Snap, now: Snap, id: string, file: seq<byte>, ps: nat, start: int, end: int, ok: bool)
    requires Upload(s, now, id, file, ps, start, end, ok)
    ensures Moved(s, now, id, file, ps, start, end) && Uploaded(now.log[|s.log|..], start, end, ok)
  {
  }

  /** One step of a part loop. */
  lemma UploadNext(s: Snap, mid: Snap, now: Snap, id: string, file: seq<byte>, ps: nat, start: int, k: int, end: int,
                   ok: bool)
    requires IsRange(|file|, ps, start, end) && start <= k <= end && mid.rec.pending == []
    requires Upload(s, mid, id, file, ps, start, k - 1, true)
    requires var data := Slice(file, ps, k); Sent(mid, now, id, k, data, ok) || (!ok && NotSent(mid, now, data))
    ensures ok ==> Upload(s, now, id, file, ps, start, k, true)
    ensures !ok ==> Upload(s, now, id, file, ps, start, end, false)
    ensures now.rec.pending == []
  {
    hide Slice, Ceil, Upload;
    UploadOne(mid, now, id, file, ps, k, ok);
    UploadMore(s, mid, now, id, file, ps, start, k, end, ok);
  }

  /** A prefix of a range that was sent, or failed, is the whole range cut short. */
  lemma UploadCut(s: Snap, now: Snap, id: string, file: seq<byte>, ps: nat, start: int, mid: int, end: int)
    requires IsRange(|file|, ps, start, mid) && mid <= end <= Ceil(|file|, ps)
    requires Upload(s, now, id, file, ps, start, mid, true)
    ensures Moved(s, now, id, file, ps, start, end) && Cut(now.log[|s.log|..], start, end)
  {
    hide Slice, Slices, Ceil, Requests, SawOnly;
    assert CutAfter(now.log[|s.log|..], start, end, Count(start, mid));
  }

  // ---------- what a whole run does ----------

  /** What a run has done to the requests and the trace, whatever its other requests were. */
  ghost predicate Carried(s: Snap, now: Snap, file: seq<byte>, ps: nat, start: int, end: int) {
    && s.log <= now.log && s.rec.puts <= now.rec.puts && now.rec.pending == []
    && PartCalls(now.log[|s.log|..]) == Requests(now.rec.puts[|s.rec.puts|..])
    && if IsRange(|file|, ps, start, end) then
         && FillsAreSlices(s.rec.fills, now.rec.fills, file, ps, start, end)
         && ReadOwnSlice(now.rec.puts[|s.rec.puts|..], file, ps, start, end)
       else now.rec == s.rec
  }

  /** Create, an upload call, and requests that are for no part. */
  lemma CarriedBy(s: Snap, mid: Snap, up: Snap, now: Snap, tail: seq<Call>, id: string, file: seq<byte>, ps: nat,
                  start: int, end: int)
    requires mid.log == s.log + [CreateCall(true)] && mid.rec == s.rec && Moved(mid, up, id, file, ps, start, end)
    requires now.log == up.log + tail && now.rec == up.rec && forall i :: 0 <= i < |tail| ==> !tail[i].PutCall?
    ensures Carried(s, now, file, ps, start, end)
    ensures now.log[|s.log|..] == [CreateCall(true)] + up.log[|mid.log|..] + tail
  {
    hide FillsAreSlices, ReadOwnSlice, PartCalls, Ceil;
    var puts := up.log[|mid.log|..];
    assert now.log[|s.log|..] == [CreateCall(true)] + puts + tail;
    PartCallsOf(CreateCall(true), puts, tail);
  }

  lemma CarriedNothing(s: Snap, now: Snap, tail: seq<Call>, file: seq<byte>, ps: nat, start: int, end: int)
    requires now.log == s.log + tail && now.rec == s.rec && s.rec.pending == []
    requires forall i :: 0 <= i < |tail| ==> !tail[i].PutCall?
    ensures Carried(s, now, file, ps, start, end)
    ensures now.log[|s.log|..] == tail
  {
    hide Slice;
    assert now.log[|s.log|..] == tail;
    PartCallsNone(tail);
    if IsRange(|file|, ps, start, end) {
      assert s.rec.fills == s.rec.fills + Slices(file, ps, start, start - 1);
    }
  }

  lemma UploadedOk(puts: seq<Call>, start: int, end: int)
    requires Uploaded(puts, start, end, true)
    ensures puts == OkPuts(start, Count(start, end))
  {
  }

  // ---------- which upload a run is about ----------

  /** The uploads a server knows and the parts stored for them. */
  datatype Book = Book(status: StatusMap, parts: PartMap)

  function BookOf(srv: Server): Book
    reads srv
  {
    Book(srv.status, srv.parts)
  }

  /** The parts of other uploads are as they were. */
  ghost predicate Foreign(before: PartMap, now: PartMap, id: string) {
    forall name: string, pn: int :: name != id ==>
      && ((name, pn) in before <==> (name, pn) in now)
      && ((name, pn) in before ==> now[(name, pn)] == before[(name, pn)])
  }

  /** What requests make of the upload they are for: only a complete completes it, only an abort aborts it, and a last
      request that was seen to succeed has. */
  ghost predicate Reaches(s: Status, calls: seq<Call>) {
    && (s == Completed ==> Completes(calls)) && (s == Aborted ==> Aborts(calls))
    && (calls != [] && calls[|calls| - 1] == CompleteCall(true) ==> s == Completed)
    && (calls != [] && calls[|calls| - 1] == AbortCall(true) ==> s == Aborted)
  }

  /** Requests that are for one upload, and touch no other. */
  ghost predicate Handled(before: StatusMap, now: StatusMap, id: string, calls: seq<Call>) {
    IsActive(before, id) ==>
      id in now && now == before[id := now[id]] && Reaches(now[id], calls)
  }

  /** All that the requests have done, they have done to the new upload `id`. */
  ghost predicate OnlyFor(before: Book, now: Book, id: string, calls: seq<Call>) {
    && id !in before.status && id in now.status && now.status == before.status[id := now.status[id]]
    && Foreign(before.parts, now.parts, id) && Reaches(now.status[id], calls)
  }

  /** What a run has done to the uploads: every one that was known before is as it was, with all its parts; the one it
      created, if any, has ended as its requests say. A failed create may have left an upload behind. */
  ghost predicate Settled(before: Book, now: Book, calls: seq<Call>) {
    if calls != [] && calls[0] == CreateCall(true) then exists id :: OnlyFor(before, now, id, calls)
    else
      && now.parts == before.parts
      && (now.status == before.status
          || exists name :: name !in before.status && now.status == before.status[name := Active])
  }

  lemma ElsewhereIsForeign(before: PartMap, now: PartMap, id: string, start: int, end: int)
    requires Elsewhere(before, now, id, start, end)
    ensures Foreign(before, now, id)
  {
  }

  /** Nothing, a complete, or an abort behind the part requests. */
  lemma HandledBy(before: StatusMap, now: StatusMap, id: string, ok: bool)
    ensures Handled(before, before, id, [])
    ensures Ends(before, now, id, Completed, ok) ==> Handled(before, now, id, [CompleteCall(ok)])
    ensures Ends(before, now, id, Aborted, ok) ==> Handled(before, now, id, [AbortCall(ok)])
  {
    var a, c := [AbortCall(ok)], [CompleteCall(ok)];
    assert a[0].AbortCall? && c[0].CompleteCall?;
    if id in before { assert before[id := before[id]] == before; }
  }

  /** A complete that fails and an abort. */
  lemma HandledTwice(before: StatusMap, mid: StatusMap, now: StatusMap, id: string, ok: bool)
    requires Ends(before, mid, id, Completed, false) && Ends(mid, now, id, Aborted, ok)
    ensures Handled(before, now, id, [CompleteCall(false), AbortCall(ok)])
  {
    var calls := [CompleteCall(false), AbortCall(ok)];
    assert calls[0].CompleteCall? && calls[1].AbortCall?;
    if id in before { assert before[id := before[id]] == before; }
  }

  lemma SettledNothing(before: Book, now: Book)
    requires now.parts == before.parts
    requires now.status == before.status
             || exists name :: name !in before.status && now.status == before.status[name := Active]
    ensures Settled(before, now, [CreateCall(false)])
  {
  }

  /** Create, part requests, and requests that end the upload. */
  lemma SettledBy(before: Book, created: StatusMap, now: Book, id: string, puts: seq<Call>, tail: seq<Call>)
    requires id !in before.status && created == before.status[id := Active] && Foreign(before.parts, now.parts, id)
    requires Handled(created, now.status, id, tail) && forall i :: 0 <= i < |puts| ==> puts[i].PutCall?
    ensures Settled(before, now, [CreateCall(true)] + puts + tail)
  {
    hide Foreign, Reaches;
    var calls := [CreateCall(true)] + puts + tail;
    ReachesLater(now.status[id], [CreateCall(true)] + puts, tail);
    assert calls[0] == CreateCall(true);
    assert OnlyFor(before, now, id, calls);
  }

  lemma ReachesLater(s: Status, front: seq<Call>, tail: seq<Call>)
    requires Reaches(s, tail) && forall i :: 0 <= i < |front| ==> !Terminal(front[i])
    ensures Reaches(s, front + tail)
  {
    var calls := front + tail;
    if i :| 0 <= i < |tail| && tail[i].CompleteCall? { assert calls[|front| + i].CompleteCall?; }
    if i :| 0 <= i < |tail| && tail[i].AbortCall? { assert calls[|front| + i].AbortCall?; }
  }

  lemma UploadKeepsOthers(s: Snap, now: Snap, id: string, file: seq<byte>, ps: nat, start: int, end: int, ok: bool)
    requires Upload(s, now, id, file, ps, start, end, ok)
    ensures Foreign(s.parts, now.parts, id)
    ensures forall i :: |s.log| <= i < |now.log| ==> now.log[i].PutCall?
  {
    hide Foreign, ReadOwnSlice, FillsAreSlices;
    ElsewhereIsForeign(s.parts, now.parts, id, start, end);
    forall i | |s.log| <= i < |now.log| ensures now.log[i].PutCall? {
      assert now.log[i] == now.log[|s.log|..][i - |s.log|];
    }
  }
}
