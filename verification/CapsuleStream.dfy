/** What the peer's parser makes of the bytes on the CONNECT stream, in any state of the writing side. */
module CapsuleStream {
  import opened Common
  import C = Capsule
  import W = CapsuleWriter

  function EntryBytes(queued: seq<C.Capsule>, e: W.Entry): (b: seq<Byte>) {
    match e
    case Whole(i) => if i < |queued| then C.Append(queued[i]) else []
    case Torn(i, n) => if i < |queued| && n <= |C.Append(queued[i])| then C.Append(queued[i])[..n] else []
    case Close(c) => C.Append(c)
  }

  function Bytes(queued: seq<C.Capsule>, wire: seq<W.Entry>): (b: seq<Byte>) {
    if wire == [] then [] else Bytes(queued, wire[..|wire| - 1]) + EntryBytes(queued, wire[|wire| - 1])
  }

  lemma BytesMore(queued: seq<C.Capsule>, wire: seq<W.Entry>, e: W.Entry)
    ensures Bytes(queued, wire + [e]) == Bytes(queued, wire) + EntryBytes(queued, e)
  {
    assert (wire + [e])[..|wire|] == wire;
  }

  ghost predicate InRange(queued: seq<C.Capsule>, wire: seq<W.Entry>) {
    forall k :: 0 <= k < |wire| && !wire[k].Close? ==> wire[k].i < |queued|
  }

  lemma {:induction false} WholeIsCounted(wire: seq<W.Entry>, k: nat)
    requires k < |wire| && wire[k].Whole?
    ensures wire[k].i in W.Wholes(wire)
  {
    if k < |wire| - 1 {
      WholeIsCounted(wire[..|wire| - 1], k);
    }
  }

  lemma EntriesInRange(s: W.State)
    requires W.Inv(s)
    ensures InRange(s.queued, s.wire)
  {
    hide W.CompleteOk, W.ShapeOk, W.CloseOk, W.SentOk, W.WakeOk, C.Append;
    var whole := W.Wholes(s.wire);
    assert forall j :: 0 <= j < |whole| ==> whole[j] < |s.queued|;
    forall k | 0 <= k < |s.wire| && !s.wire[k].Close?
      ensures s.wire[k].i < |s.queued|
    {
      if s.wire[k].Whole? {
        WholeIsCounted(s.wire, k);
      }
    }
  }

  /** Queueing another capsule does not change what is on the stream. */
  lemma {:induction false} BytesFrame(queued: seq<C.Capsule>, c: C.Capsule, wire: seq<W.Entry>)
    requires InRange(queued, wire)
    ensures Bytes(queued + [c], wire) == Bytes(queued, wire)
  {
    hide C.Append;
    if wire != [] {
      BytesFrame(queued, c, wire[..|wire| - 1]);
    }
  }

  /** The capsule an entry amounts to; none for one that lost bytes. */
  function EntryCapsule(queued: seq<C.Capsule>, e: W.Entry): (r: seq<C.Capsule>) {
    match e
    case Whole(i) => if i < |queued| then [C.AsSent(queued[i])] else []
    case Torn(i, n) => if i < |queued| && n == |C.Append(queued[i])| then [C.AsSent(queued[i])] else []
    case Close(c) => [C.AsSent(c)]
  }

  function Received(queued: seq<C.Capsule>, wire: seq<W.Entry>): (r: seq<C.Capsule>) {
    if wire == [] then [] else Received(queued, wire[..|wire| - 1]) + EntryCapsule(queued, wire[|wire| - 1])
  }

  lemma {:induction false} ParseWholes(queued: seq<C.Capsule>, wire: seq<W.Entry>, rest: seq<Byte>)
    requires forall k :: 0 <= k < |wire| ==> wire[k].Whole?
    ensures C.ParseAll(Bytes(queued, wire) + rest) == Received(queued, wire) + C.ParseAll(rest)
  {
    hide C.ParseNext, C.ParseAll, C.Append, EntryBytes, EntryCapsule;
    if wire == [] {
      assert Bytes(queued, wire) + rest == rest;
    } else {
      var front, last := wire[..|wire| - 1], wire[|wire| - 1];
      var more := EntryBytes(queued, last) + rest;
      ParseWholes(queued, front, more);
      assert Bytes(queued, wire) + rest == Bytes(queued, front) + more;
      ParseOne(queued, last, rest);
    }
  }

  lemma ParseOne(queued: seq<C.Capsule>, e: W.Entry, rest: seq<Byte>)
    requires e.Whole?
    ensures C.ParseAll(EntryBytes(queued, e) + rest) == EntryCapsule(queued, e) + C.ParseAll(rest)
  {
    hide C.ParseNext, C.Append, C.AsSent;
    if e.i < |queued| {
      C.CapsuleReadBack(queued[e.i], rest);
    } else {
      assert EntryBytes(queued, e) + rest == rest;
    }
  }

  lemma ParseLast(queued: seq<C.Capsule>, e: W.Entry)
    requires e.Torn? ==> e.i < |queued| && e.n <= |C.Append(queued[e.i])|
    ensures C.ParseAll(EntryBytes(queued, e)) == EntryCapsule(queued, e)
  {
    hide C.ParseNext, C.Append;
    assert C.ParseAll([]) == [] by { EmptyYieldsNothing(); }
    match e
    case Whole(i) =>
      if i < |queued| {
        C.CapsuleReadBack(queued[i], []);
        assert C.Append(queued[i]) + [] == C.Append(queued[i]);
      }
    case Torn(i, n) =>
      var whole := C.Append(queued[i]);
      if n < |whole| {
        C.CutOffYieldsNothing(queued[i], n);
      } else {
        assert whole[..n] == whole + [];
        C.CapsuleReadBack(queued[i], []);
      }
    case Close(c) =>
      C.CapsuleReadBack(c, []);
      assert C.Append(c) + [] == C.Append(c);
  }

  lemma EmptyYieldsNothing()
    ensures C.ParseAll([]) == []
  {
  }

  /** Everything the sender queued, as it is sent. */
  function AsSentAll(queued: seq<C.Capsule>): (r: seq<C.Capsule>) {
    seq(|queued|, i requires 0 <= i < |queued| => C.AsSent(queued[i]))
  }

  /** Whole entries that count up from zero amount to that many capsules of the queue. */
  lemma {:induction false} WholesAreReceived(queued: seq<C.Capsule>, wire: seq<W.Entry>)
    requires (forall k :: 0 <= k < |wire| ==> wire[k].Whole?) && |W.Wholes(wire)| <= |queued|
    requires forall k :: 0 <= k < |W.Wholes(wire)| ==> W.Wholes(wire)[k] == k
    ensures |W.Wholes(wire)| == |wire| <= |queued|
    ensures Received(queued, wire) == AsSentAll(queued)[..|wire|]
  {
    if wire != [] {
      var front, last := wire[..|wire| - 1], wire[|wire| - 1];
      assert W.Wholes(wire) == W.Wholes(front) + [last.i];
      assert forall k :: 0 <= k < |W.Wholes(front)| ==> W.Wholes(front)[k] == W.Wholes(wire)[k];
      WholesAreReceived(queued, front);
      assert last.i == W.Wholes(wire)[|wire| - 1];
    }
  }

  /**
   The peer's parser, reading whatever is on the stream in any state of any run, sees
   exactly the capsules written whole, in order, and the close capsule if it was
   sent; until a close empties the queue this is a prefix of everything queued.
   */
  lemma PeerReadsWhatWasQueued(states: seq<W.State>, actions: seq<W.Action>, i: nat)
    requires W.IsRun(states, actions) && i < |states|
    ensures
      var s := states[i];
      && C.ParseAll(Bytes(s.queued, s.wire)) == Received(s.queued, s.wire)
      && (!W.Cleared(s.closer) ==> Received(s.queued, s.wire) <= AsSentAll(s.queued))
  {
    W.RunKeeps(states, actions, i);
    hide W.Inv, Received, Bytes, C.ParseAll;
    var s := states[i];
    ParseStream(s);
    if !W.Cleared(s.closer) {
      PrefixReceived(s);
    }
  }

  lemma ShapeFacts(s: W.State)
    requires W.Inv(s)
    ensures forall k :: 0 <= k < |s.wire| - 1 ==> s.wire[k].Whole?
    ensures forall k :: 0 <= k < |s.wire| && s.wire[k].Torn? ==>
      s.wire[k].i < |s.queued| && s.wire[k].n <= |C.Append(s.queued[s.wire[k].i])|
  {
    hide W.OrderOk, W.CompleteOk, W.CloseOk, W.SentOk, W.WakeOk, W.OutcomeOk, W.CapsuleOk, C.Append, W.Wholes;
  }

  lemma ParseStream(s: W.State)
    requires W.Inv(s)
    ensures C.ParseAll(Bytes(s.queued, s.wire)) == Received(s.queued, s.wire)
  {
    hide W.Inv, C.Append, C.ParseAll, EntryBytes, EntryCapsule;
    ShapeFacts(s);
    if s.wire == [] {
      EmptyYieldsNothing();
    } else {
      var front, last := s.wire[..|s.wire| - 1], s.wire[|s.wire| - 1];
      ParseWholes(s.queued, front, EntryBytes(s.queued, last));
      ParseLast(s.queued, last);
    }
  }

  lemma PrefixReceived(s: W.State)
    requires W.Inv(s) && !W.Cleared(s.closer)
    ensures Received(s.queued, s.wire) <= AsSentAll(s.queued)
  {
    hide W.Inv, W.Wholes, C.Append, C.AsSent, EntryCapsule;
    if s.wire == [] {
      return;
    }
    hide Received;
    var front, last := s.wire[..|s.wire| - 1], s.wire[|s.wire| - 1];
    PrefixFacts(s);
    WholesAreReceived(s.queued, front);
    LastReceived(s.queued, front, last);
    assert front + [last] == s.wire;
  }

  lemma LastReceived(queued: seq<C.Capsule>, front: seq<W.Entry>, last: W.Entry)
    requires !last.Close? && last.i == |front| < |queued| && Received(queued, front) == AsSentAll(queued)[..|front|]
    ensures Received(queued, front + [last]) <= AsSentAll(queued)
  {
    hide C.Append, C.AsSent;
    assert (front + [last])[..|front|] == front;
    assert AsSentAll(queued)[..|front| + 1] == AsSentAll(queued)[..|front|] + [C.AsSent(queued[|front|])];
  }

  /** Before a close, what was written counts up from zero, and a torn capsule is the next one. */
  lemma PrefixFacts(s: W.State)
    requires W.Inv(s) && !W.Cleared(s.closer) && s.wire != []
    ensures
      var front, last := s.wire[..|s.wire| - 1], s.wire[|s.wire| - 1];
      && (forall k :: 0 <= k < |front| ==> front[k].Whole?)
      && |W.Wholes(front)| < |s.queued|
      && (forall k :: 0 <= k < |W.Wholes(front)| ==> W.Wholes(front)[k] == k)
      && !last.Close? && last.i == |W.Wholes(front)|
  {
    hide W.WakeOk, W.OutcomeOk, W.CapsuleOk, C.Append, W.Wholes;
    var front, last := s.wire[..|s.wire| - 1], s.wire[|s.wire| - 1];
    W.OrderedIsAll(W.Wholes(s.wire), s.queue.items, s.writer, |s.queued|);
    var all := W.Wholes(s.wire) + W.Unwritten(s.queue.items, s.writer);
    assert forall k :: 0 <= k < |W.Wholes(s.wire)| ==> all[k] == W.Wholes(s.wire)[k];
    W.WholesAppend(front, last);
    assert front + [last] == s.wire;
    assert s.queue.pendingClose.None?;
    assert forall k :: 0 <= k < |W.Wholes(front)| ==> W.Wholes(front)[k] == W.Wholes(s.wire)[k];
  }
}
