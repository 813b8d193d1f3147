/** The requests of a multipart upload and the histories the clients may leave behind. */
module UploadProtocol {
  datatype Call = CreateCall(ok: bool) | PutCall(number: int, ok: bool) | CompleteCall(ok: bool) | AbortCall(ok: bool)

  /** A part or complete request that was seen to fail. */
  predicate Denied(c: Call) { (c.PutCall? || c.CompleteCall?) && !c.ok }

  /** The last request of the log was such a one. */
  predicate LastDenied(log: seq<Call>) { log != [] && Denied(log[|log| - 1]) }

  /** The last but one was. */
  predicate DeniedBeforeLast(log: seq<Call>) { |log| >= 2 && Denied(log[|log| - 2]) }

  /** One of the two. */
  predicate EndsDenied(log: seq<Call>) { LastDenied(log) || DeniedBeforeLast(log) }

  lemma DeniedThen(log: seq<Call>, c: Call)
    ensures LastDenied(log) ==> DeniedBeforeLast(log + [c])
    ensures DeniedBeforeLast(log + [CompleteCall(false), c])
  {
  }

  predicate Terminal(c: Call) { c.CompleteCall? || c.AbortCall? }

  /** Part requests `start`, `start + 1`, ... that all succeeded. */
  function OkPuts(start: int, k: nat): (r: seq<Call>)
    ensures |r| == k
  {
    seq(k, i => PutCall(start + i, true))
  }

  function Count(start: int, end: int): nat { if start <= end then end - start + 1 else 0 }

  /** The part requests of an upload call over `start..end`: some succeed in order; if it fails, it may be at a
      part request or at any step that needs none. */
  ghost predicate Uploaded(calls: seq<Call>, start: int, end: int, ok: bool) {
    if ok then calls == OkPuts(start, Count(start, end))
    else exists k: nat :: FailedAfter(calls, start, end, k)
  }

  /** Exactly `k` parts succeeded, and not all of them, unless there was nothing to send. */
  predicate FailedAfter(calls: seq<Call>, start: int, end: int, k: nat) {
    && (k == 0 || k < Count(start, end))
    && (calls == OkPuts(start, k) || (k < Count(start, end) && calls == OkPuts(start, k) + [PutCall(start + k, false)]))
  }

  /** The part requests of an upload call that was left by a Java `Error`: some, possibly all, succeeded in order, and
      one more may have failed. */
  ghost predicate Cut(calls: seq<Call>, start: int, end: int) {
    exists k: nat :: CutAfter(calls, start, end, k)
  }

  predicate CutAfter(calls: seq<Call>, start: int, end: int, k: nat) {
    && k <= Count(start, end)
    && (calls == OkPuts(start, k) || (k < Count(start, end) && calls == OkPuts(start, k) + [PutCall(start + k, false)]))
  }

  lemma CutIsPuts(calls: seq<Call>, start: int, end: int)
    requires Cut(calls, start, end)
    ensures forall i :: 0 <= i < |calls| ==> calls[i].PutCall?
  {
    var k: nat :| CutAfter(calls, start, end, k);
  }

  lemma UploadedIsCut(calls: seq<Call>, start: int, end: int, ok: bool)
    requires Uploaded(calls, start, end, ok)
    ensures Cut(calls, start, end)
  {
    if ok {
      assert CutAfter(calls, start, end, Count(start, end));
    } else {
      var k: nat :| FailedAfter(calls, start, end, k);
      assert CutAfter(calls, start, end, k);
    }
  }

  /** The part requests of a history. */
  function PartCalls(calls: seq<Call>): seq<Call> {
    if calls == [] then [] else IfPart(calls[0]) + PartCalls(calls[1..])
  }

  function IfPart(c: Call): seq<Call> { if c.PutCall? then [c] else [] }

  lemma {:induction false} PartCallsAppend(a: seq<Call>, b: seq<Call>)
    ensures PartCalls(a + b) == PartCalls(a) + PartCalls(b)
  {
    hide IfPart;
    if a == [] {
      assert a + b == b;
    } else {
      PartCallsAppend(a[1..], b);
      assert (a + b)[1..] == a[1..] + b && (a + b)[0] == a[0];
    }
  }

  lemma {:induction false} PartCallsAll(a: seq<Call>)
    requires forall i :: 0 <= i < |a| ==> a[i].PutCall?
    ensures PartCalls(a) == a
  {
    if a != [] { PartCallsAll(a[1..]); }
  }

  lemma {:induction false} PartCallsNone(a: seq<Call>)
    requires forall i :: 0 <= i < |a| ==> !a[i].PutCall?
    ensures PartCalls(a) == []
  {
    if a != [] { PartCallsNone(a[1..]); }
  }

  lemma PartCallsOf(create: Call, puts: seq<Call>, tail: seq<Call>)
    requires create.CreateCall? && (forall i :: 0 <= i < |puts| ==> puts[i].PutCall?)
    requires forall i :: 0 <= i < |tail| ==> !tail[i].PutCall?
    ensures PartCalls([create] + puts + tail) == puts
  {
    PartCallsAppend([create] + puts, tail);
    PartCallsAppend([create], puts);
    PartCallsNone([create]);
    PartCallsAll(puts);
    PartCallsNone(tail);
  }

  /** Some part request, some complete, some abort was issued. */
  ghost predicate Sends(calls: seq<Call>) { exists i :: 0 <= i < |calls| && calls[i].PutCall? }

  ghost predicate Completes(calls: seq<Call>) { exists i :: 0 <= i < |calls| && calls[i].CompleteCall? }

  ghost predicate Aborts(calls: seq<Call>) { exists i :: 0 <= i < |calls| && calls[i].AbortCall? }

  lemma AbortedHistory(puts: seq<Call>, start: int, end: int, ok: bool)
    requires Uploaded(puts, start, end, false)
    ensures var calls := [CreateCall(true)] + puts + [AbortCall(ok)];
            && !Completes(calls) && RunManaged(calls, start, end)
            && forall memory :: RunC(calls, start, end, memory)
  {
    PutsAreNotTerminal(puts, start, end);
  }

  // ---------- the C and Go histories ----------

  /** An `all` run of the C client: create, the parts, then complete, or one abort if the upload failed. `memory` tells
      whether there is memory for the complete body; without it the run ends behind its last part. The Go client has no
      such end. */
  ghost predicate RunC(calls: seq<Call>, start: int, end: int, memory: bool) {
    || calls == [CreateCall(false)]
    || (exists puts, ok :: Uploaded(puts, start, end, false) && calls == [CreateCall(true)] + puts + [AbortCall(ok)])
    || (memory && exists ok :: calls == [CreateCall(true)] + OkPuts(start, Count(start, end)) + [CompleteCall(ok)])
    || (!memory && calls == [CreateCall(true)] + OkPuts(start, Count(start, end)))
  }

  lemma PutsAreNotTerminal(puts: seq<Call>, start: int, end: int)
    requires Uploaded(puts, start, end, false)
    ensures forall i :: 0 <= i < |puts| ==> puts[i].PutCall?
  {
    var k: nat :| FailedAfter(puts, start, end, k);
  }

  /** Protocol trace safety for C: complete is issued at most once, as the last request, after every part of the range
      has succeeded in order and none has failed; an abort is likewise single and last, and excludes a complete. A
      created upload gets one of them unless there is no memory for the complete body. */
  lemma TraceSafety(calls: seq<Call>, start: int, end: int, memory: bool)
    requires RunC(calls, start, end, memory)
    ensures forall i :: 0 <= i < |calls| && Terminal(calls[i]) ==> i == |calls| - 1
    ensures forall i :: 0 <= i < |calls| && calls[i].CompleteCall? ==>
              && i == 1 + Count(start, end)
              && forall pn :: start <= pn <= end ==> calls[1 + pn - start] == PutCall(pn, true)
    ensures forall i :: 0 <= i < |calls| && calls[i].PutCall? && !calls[i].ok ==>
              calls[|calls| - 1].AbortCall? && i == |calls| - 2
    ensures |calls| > 0 && (calls[0] == CreateCall(true) && memory ==> Terminal(calls[|calls| - 1]))
    ensures !memory ==> forall i :: 0 <= i < |calls| ==> !calls[i].CompleteCall?
  {
  }

  // ---------- the Python and Java histories ----------

  /** An `all` run of the Java client that is left by an `Error` before it has issued an end. */
  ghost predicate RunThrown(calls: seq<Call>, start: int, end: int) {
    || (exists puts :: Cut(puts, start, end) && calls == [CreateCall(true)] + puts)
    || calls == [CreateCall(true)] + OkPuts(start, Count(start, end)) + [CompleteCall(false)]
  }

  /** Such a run has created an upload and ended it neither way. */
  lemma NoEnd(calls: seq<Call>, start: int, end: int)
    requires RunThrown(calls, start, end)
    ensures calls != [] && calls[0] == CreateCall(true) && Terminals(calls) == []
    ensures calls[|calls| - 1] != CompleteCall(true)
  {
    if puts :| Cut(puts, start, end) && calls == [CreateCall(true)] + puts { CutIsPuts(puts, start, end); }
    NoTerminals(calls);
  }

  /** An `all` run of the Python client, or of the Java client when no `Error` is thrown: any exception between create
      and the end of complete leads to an abort. */
  ghost predicate RunManaged(calls: seq<Call>, start: int, end: int) {
    || calls == [CreateCall(false)]
    || (exists puts, ok :: Uploaded(puts, start, end, false) && calls == [CreateCall(true)] + puts + [AbortCall(ok)])
    || calls == [CreateCall(true)] + OkPuts(start, Count(start, end)) + [CompleteCall(true)]
    || (exists ok ::
          calls == [CreateCall(true)] + OkPuts(start, Count(start, end)) + [CompleteCall(false), AbortCall(ok)])
  }

  lemma NotCreated(start: int, end: int)
    ensures RunManaged([CreateCall(false)], start, end)
    ensures forall memory :: RunC([CreateCall(false)], start, end, memory)
    ensures !Completes([CreateCall(false)]) && !Sends([CreateCall(false)])
  {
  }

  /** A successful complete, or an attempted abort. */
  function IfEnd(c: Call): seq<Call> {
    if c == CompleteCall(true) || c.AbortCall? then [c] else []
  }

  /** The ends in a history. */
  function Terminals(calls: seq<Call>): seq<Call> {
    if calls == [] then [] else IfEnd(calls[0]) + Terminals(calls[1..])
  }

  lemma {:induction false} TerminalsAppend(a: seq<Call>, b: seq<Call>)
    ensures Terminals(a + b) == Terminals(a) + Terminals(b)
  {
    hide IfEnd;
    if a == [] {
      assert a + b == b;
    } else {
      TerminalsAppend(a[1..], b);
      assert (a + b)[1..] == a[1..] + b && (a + b)[0] == a[0];
    }
  }

  lemma {:induction false} NoTerminals(a: seq<Call>)
    requires forall i :: 0 <= i < |a| ==> a[i].PutCall? || a[i].CreateCall? || a[i] == CompleteCall(false)
    ensures Terminals(a) == []
  {
    if a != [] { NoTerminals(a[1..]); }
  }

  /** Terminal states for Python and Java: after a successful create a run ends in exactly one of a complete that
      succeeded or an attempted abort, and that is its last request. */
  lemma ExactlyOneEnd(calls: seq<Call>, start: int, end: int)
    requires RunManaged(calls, start, end) && calls[0] == CreateCall(true)
    ensures |Terminals(calls)| == 1 && Terminals(calls)[0] == calls[|calls| - 1]
  {
    var last := calls[|calls| - 1];
    var front := calls[..|calls| - 1];
    assert calls == front + [last];
    if puts, ok :| Uploaded(puts, start, end, false) && calls == [CreateCall(true)] + puts + [AbortCall(ok)] {
      PutsAreNotTerminal(puts, start, end);
      assert front == [CreateCall(true)] + puts;
    }
    EndOf(front, last);
  }

  lemma EndOf(front: seq<Call>, last: Call)
    requires forall i :: 0 <= i < |front| ==>
               front[i].PutCall? || front[i].CreateCall? || front[i] == CompleteCall(false)
    requires last == CompleteCall(true) || last.AbortCall?
    ensures Terminals(front + [last]) == [last]
  {
    TerminalsAppend(front, [last]);
    NoTerminals(front);
    assert [last][1..] == [];
  }

  /** The C client does not have this property: a complete that fails, or one that finds no memory for its body and is
      not sent, is not followed by an abort. Exactly then does a run end without either. */
  lemma CEndsOpen(calls: seq<Call>, start: int, end: int, memory: bool)
    requires RunC(calls, start, end, memory) && calls[0] == CreateCall(true)
    ensures |Terminals(calls)| == 1 <==> calls[|calls| - 1] == CompleteCall(true) || calls[|calls| - 1].AbortCall?
    ensures Terminals(calls) == [] <==>
              calls[|calls| - 1] == CompleteCall(false)
              || calls == [CreateCall(true)] + OkPuts(start, Count(start, end))
    ensures memory ==> (Terminals(calls) == [] <==> calls[|calls| - 1] == CompleteCall(false))
  {
    TraceSafety(calls, start, end, memory);
    var last := calls[|calls| - 1];
    var front := calls[..|calls| - 1];
    assert calls == front + [last];
    if puts, ok :| Uploaded(puts, start, end, false) && calls == [CreateCall(true)] + puts + [AbortCall(ok)] {
      PutsAreNotTerminal(puts, start, end);
      assert front == [CreateCall(true)] + puts;
    }
    if last == CompleteCall(false) || !Terminal(last) {
      NoTerminals(calls);
    } else {
      EndOf(front, last);
    }
  }
}
