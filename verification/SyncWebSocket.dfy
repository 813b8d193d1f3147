/** The Java client's synchronous websocket: a listener reassembles fragments into a queue, a reader drains it.
    The queue is thread-safe and only the listener touches `partial`, so a concurrent run is an interleaving of
    whole calls. */
module SyncWebSocket {
  import opened Prelude

  /** A text callback's payload; `last` marks the end of a message (section 5.4 of RFC 6455). */
  datatype Fragment = Fragment(data: string, last: bool)

  /** What happens to the object: listener callbacks and reader calls, in any order. */
  datatype Op = OnText(f: Fragment) | OnError(error: string) | OnClose | RecvText

  /** What a reader call produces. */
  datatype Outcome = Message(text: string) | ErrorRaised(error: string) | ClosedRaised | Timeout

  const ERROR := "\0ERROR\0"
  const CLOSED := "\0CLOSED\0"

  /** The reader's classification of a queue entry. */
  function Interpret(entry: string): Outcome {
    if ERROR <= entry then ErrorRaised(entry[|ERROR|..])
    else if entry == CLOSED then ClosedRaised
    else Message(entry)
  }

  /** The object's state; `taken` are the entries readers have removed so far. */
  datatype State = State(taken: seq<string>, queue: seq<string>, partial: string)

  function Step(s: State, op: Op): State {
    match op
    case OnText(f) =>
      if f.last then s.(queue := s.queue + [s.partial + f.data], partial := "")
      else s.(partial := s.partial + f.data)
    case OnError(e) => s.(queue := s.queue + [ERROR + e])
    case OnClose => s.(queue := s.queue + [CLOSED])
    case RecvText => if s.queue == [] then s else s.(taken := s.taken + [s.queue[0]], queue := s.queue[1..])
  }

  function Run(ops: seq<Op>): State {
    if ops == [] then State([], [], "") else Step(Run(ops[..|ops| - 1]), ops[|ops| - 1])
  }

  class Channel {
    var queue: seq<string>
    var partial: string
    ghost var taken: seq<string>
    ghost var ops: seq<Op>

    ghost predicate Valid()
      reads this
    {
      Run(ops) == State(taken, queue, partial)
    }

    constructor ()
      ensures Valid() && ops == []
    {
      queue, partial, taken, ops := [], "", [], [];
    }

    /** `onText` */
    method ReceiveFragment(f: Fragment)
      requires Valid()
      modifies this
      ensures Valid() && ops == old(ops) + [OnText(f)]
    {
      partial := partial + f.data;
      if f.last {
        queue := queue + [partial];
        partial := "";
      }
      ops := ops + [OnText(f)];
      assert ops[..|ops| - 1] == old(ops);
    }

    /** `onError` */
    method ReceiveError(error: string)
      requires Valid()
      modifies this
      ensures Valid() && ops == old(ops) + [OnError(error)]
    {
      queue := queue + [ERROR + error];
      ops := ops + [OnError(error)];
      assert ops[..|ops| - 1] == old(ops);
    }

    /** `onClose` */
    method ReceiveClose()
      requires Valid()
      modifies this
      ensures Valid() && ops == old(ops) + [OnClose]
    {
      queue := queue + [CLOSED];
      ops := ops + [OnClose];
      assert ops[..|ops| - 1] == old(ops);
    }

    /** `recvText`; `Timeout` is the poll that found nothing. */
    method Receive() returns (r: Outcome)
      requires Valid()
      modifies this
      ensures Valid() && ops == old(ops) + [RecvText]
      ensures old(queue) == [] ==> r == Timeout && taken == old(taken)
      ensures old(queue) != [] ==> r == Interpret(old(queue)[0]) && taken == old(taken) + [old(queue)[0]]
    {
      ops := ops + [RecvText];
      assert ops[..|ops| - 1] == old(ops);
      if queue == [] { return Timeout; }
      var msg := queue[0];
      taken, queue := taken + [msg], queue[1..];
      r := Interpret(msg);
    }
  }

  // ---------- reference: cut the fragment stream at the last-flags ----------

  function Join(fs: seq<Fragment>): string {
    if fs == [] then "" else fs[0].data + Join(fs[1..])
  }

  function FirstLast(fs: seq<Fragment>): (i: nat)
    ensures i <= |fs|
    ensures i < |fs| ==> fs[i].last
    ensures forall j :: 0 <= j < i ==> !fs[j].last
  {
    if fs == [] || fs[0].last then 0 else 1 + FirstLast(fs[1..])
  }

  /** The complete messages of a fragment stream. */
  function Cut(fs: seq<Fragment>): seq<string>
    decreases |fs|
  {
    var i := FirstLast(fs);
    if i == |fs| then [] else [Join(fs[..i + 1])] + Cut(fs[i + 1..])
  }

  /** The text behind the last complete message. */
  function Left(fs: seq<Fragment>): string
    decreases |fs|
  {
    var i := FirstLast(fs);
    if i == |fs| then Join(fs) else Left(fs[i + 1..])
  }

  function Texts(ops: seq<Op>): seq<Fragment> {
    if ops == [] then []
    else Texts(ops[..|ops| - 1]) + (if ops[|ops| - 1].OnText? then [ops[|ops| - 1].f] else [])
  }

  /** A run in which no error and no close arrives. */
  predicate TextOnly(ops: seq<Op>) {
    forall i :: 0 <= i < |ops| ==> ops[i].OnText? || ops[i].RecvText?
  }

  lemma {:induction false} JoinSnoc(fs: seq<Fragment>, f: Fragment)
    ensures Join(fs + [f]) == Join(fs) + f.data
  {
    if fs == [] {
      assert [f][1..] == [] && fs + [f] == [f];
    } else {
      JoinSnoc(fs[1..], f);
      assert (fs + [f])[1..] == fs[1..] + [f];
    }
  }

  lemma {:induction false} FirstLastSnoc(fs: seq<Fragment>, f: Fragment)
    ensures FirstLast(fs) < |fs| ==> FirstLast(fs + [f]) == FirstLast(fs)
    ensures FirstLast(fs) == |fs| ==> FirstLast(fs + [f]) == if f.last then |fs| else |fs| + 1
  {
    if fs == [] {
      assert fs + [f] == [f];
      assert [f][1..] == [];
    } else if !fs[0].last {
      FirstLastSnoc(fs[1..], f);
      assert (fs + [f])[1..] == fs[1..] + [f];
    }
  }

  lemma {:induction false} CutUnfold(fs: seq<Fragment>)
    ensures FirstLast(fs) == |fs| ==> Cut(fs) == [] && Left(fs) == Join(fs)
    ensures FirstLast(fs) < |fs| ==> var i := FirstLast(fs);
              Cut(fs) == [Join(fs[..i + 1])] + Cut(fs[i + 1..]) && Left(fs) == Left(fs[i + 1..])
  {
    hide FirstLast, Join;
  }

  /** How one more fragment changes the cut. */
  lemma {:induction false} CutSnoc(fs: seq<Fragment>, f: Fragment)
    ensures f.last ==> Cut(fs + [f]) == Cut(fs) + [Left(fs) + f.data] && Left(fs + [f]) == ""
    ensures !f.last ==> Cut(fs + [f]) == Cut(fs) && Left(fs + [f]) == Left(fs) + f.data
    decreases |fs|
  {
    hide *;
    var i, g := FirstLast(fs), fs + [f];
    FirstLastSnoc(fs, f);
    CutUnfold(fs);
    CutUnfold(g);
    if i < |fs| {
      assert g[..i + 1] == fs[..i + 1] && g[i + 1..] == fs[i + 1..] + [f];
      CutSnoc(fs[i + 1..], f);
    } else {
      JoinSnoc(fs, f);
      if f.last {
        assert g[..|fs| + 1] == g && g[|fs| + 1..] == [];
        LeftNil();
      }
    }
  }

  /** Reassembly, for every interleaving of fragments, errors, closes and reads: what readers have taken, followed by
      what is queued, is exactly the entries in arrival order, and what is pending is exactly the uncut rest. */
  lemma {:induction false} Fifo(ops: seq<Op>)
    ensures Run(ops).taken + Run(ops).queue == Entries(ops)
    ensures Run(ops).partial == Left(Texts(ops))
  {
    hide Left, Cut;
    if ops == [] {
      LeftNil();
    } else {
      var front, op := ops[..|ops| - 1], ops[|ops| - 1];
      Fifo(front);
      if op.OnText? { CutSnoc(Texts(front), op.f); } else { assert Texts(ops) == Texts(front); }
      var s := Run(front);
      if op.RecvText? && s.queue != [] {
        assert s.taken + s.queue == s.taken + [s.queue[0]] + s.queue[1..];
      }
    }
  }

  lemma LeftNil()
    ensures Left([]) == "" && Cut([]) == []
  {
  }

  /** The queue entries in arrival order: the reads have no influence. */
  function Entries(ops: seq<Op>): seq<string> {
    if ops == [] then []
    else
      var front, op := ops[..|ops| - 1], ops[|ops| - 1];
      Entries(front) + match op
        case OnText(f) => if f.last then [Left(Texts(front)) + f.data] else []
        case OnError(e) => [ERROR + e]
        case OnClose => [CLOSED]
        case RecvText => []
  }

  lemma {:induction false} EntriesAreCut(ops: seq<Op>)
    requires TextOnly(ops)
    ensures Entries(ops) == Cut(Texts(ops))
  {
    hide Left, Cut;
    if ops == [] {
      LeftNil();
    } else {
      var front, op := ops[..|ops| - 1], ops[|ops| - 1];
      EntriesAreCut(front);
      if op.OnText? { CutSnoc(Texts(front), op.f); } else { assert Texts(ops) == Texts(front); }
    }
  }

  /** No text is lost or invented: the messages and the rest concatenate to the fragments. */
  lemma {:induction false} CutConserves(fs: seq<Fragment>)
    ensures Flatten(Cut(fs)) + Left(fs) == Join(fs)
    decreases |fs|
  {
    var i := FirstLast(fs);
    if i < |fs| {
      CutConserves(fs[i + 1..]);
      JoinSplits(fs, i + 1);
      assert Cut(fs)[1..] == Cut(fs[i + 1..]);
    }
  }

  lemma {:induction false} JoinSplits(fs: seq<Fragment>, k: nat)
    requires k <= |fs|
    ensures Join(fs) == Join(fs[..k]) + Join(fs[k..])
  {
    if k > 0 {
      JoinSplits(fs[1..], k - 1);
      assert fs[..k][1..] == fs[1..][..k - 1] && fs[1..][k - 1..] == fs[k..];
    } else {
      assert fs[..0] == [] && fs[0..] == fs;
    }
  }

  /** A message the reader cannot tell from an error or a close. */
  predicate LooksLikeSentinel(m: string) { ERROR <= m || m == CLOSED }

  /** With text arriving only, every reader call that finds an entry returns it as the message it is, if and only if
      no complete message taken so far looks like a sentinel; and the messages taken are a prefix of the cut stream. */
  lemma MessagesDelivered(ops: seq<Op>)
    requires TextOnly(ops)
    ensures Run(ops).taken + Run(ops).queue == Cut(Texts(ops))
    ensures (forall i :: 0 <= i < |Run(ops).taken| ==> Interpret(Run(ops).taken[i]) == Message(Cut(Texts(ops))[i]))
       <==> (forall i :: 0 <= i < |Run(ops).taken| ==> !LooksLikeSentinel(Cut(Texts(ops))[i]))
  {
    hide Run, Cut, Texts;
    Fifo(ops);
    EntriesAreCut(ops);
    var t, c := Run(ops).taken, Cut(Texts(ops));
    assert forall i :: 0 <= i < |t| ==> t[i] == c[i];
    forall i | 0 <= i < |t| ensures Interpret(t[i]) == Message(c[i]) <==> !LooksLikeSentinel(c[i]) {
      assert t[i] == c[i];
    }
  }

  // ---------- what readers get when errors and closes arrive, too ----------

  /** What has arrived, in order and for what it is: messages, errors, closes. */
  function Arrived(ops: seq<Op>): seq<Outcome> {
    if ops == [] then []
    else
      var front, op := ops[..|ops| - 1], ops[|ops| - 1];
      Arrived(front) + match op
        case OnText(f) => if f.last then [Message(Left(Texts(front)) + f.data)] else []
        case OnError(e) => [ErrorRaised(e)]
        case OnClose => [ClosedRaised]
        case RecvText => []
  }

  lemma {:induction false} ArrivedEntries(ops: seq<Op>)
    ensures |Arrived(ops)| == |Entries(ops)|
    ensures forall i :: 0 <= i < |Entries(ops)| ==>
              match Arrived(ops)[i]
              case Message(text) => Entries(ops)[i] == text
              case ErrorRaised(e) => Entries(ops)[i] == ERROR + e
              case ClosedRaised => Entries(ops)[i] == CLOSED
              case Timeout => false
  {
    hide Left, Texts;
    if ops != [] { ArrivedEntries(ops[..|ops| - 1]); }
  }

  lemma Sentinels(e: string)
    ensures Interpret(ERROR + e) == ErrorRaised(e) && Interpret(CLOSED) == ClosedRaised
  {
    assert ERROR[1] == 'E' && CLOSED[1] == 'C';
  }

  /** In any run, the i-th entry that readers take is classified as what the i-th arrival was, an error with its text, a
      close as a close and a message as that message, unless it is a message that looks like a sentinel; such a message
      is never classified as one. */
  lemma EveryArrivalDelivered(ops: seq<Op>, i: nat)
    requires i < |Run(ops).taken|
    ensures i < |Arrived(ops)|
    ensures Interpret(Run(ops).taken[i]) == Arrived(ops)[i]
       <==> !(Arrived(ops)[i].Message? && LooksLikeSentinel(Arrived(ops)[i].text))
  {
    hide Run, Arrived, Entries;
    Fifo(ops);
    ArrivedEntries(ops);
    assert Run(ops).taken[i] == Entries(ops)[i];
    if Arrived(ops)[i].ErrorRaised? { Sentinels(Arrived(ops)[i].error); }
    Sentinels("");
  }
}
