/**
 The whole way of a limit: published by the maps and the controller of one endpoint, put
 into its capsule queue, written to the CONNECT stream, and parsed and applied by the other
 endpoint, with every goroutine's step on the way interleaved with all others.
 */
module LimitPath {
  import opened Common
  import Config
  import C = Capsule
  import FC = FlowControl
  import In = IncomingStreams
  import Out = OutgoingStreams
  import R = ConnectReader
  import Stream = CapsuleStream
  import StreamCredit
  import W = CapsuleWriter

  type Kind = R.Kind

  datatype System = System(
    // the endpoint that gives credit
    bidi: In.State,
    uni: In.State,
    data: FC.Incoming,
    hand: map<Kind, int>,          // limits published and not in the queue yet; the publishing lock is held
    w: W.State,
    // the stream
    unread: seq<Byte>,
    // the endpoint that uses it
    r: R.State,
    ended: Option<R.End>,
    delivered: map<Kind, set<StreamId>>, // streams handed to AddStream
    // history
    read: nat,                     // things on the stream that were read
    lossless: bool                 // no limit was kept from the queue
  )

  datatype Action =
    | OnIn(k: Kind, inc: In.Action)
    | ReadData(n: nat)             // AddBytesRead
    | Enqueue(k: Kind)             // queueCapsule with a limit
    | Skip(k: Kind)                // queueCapsule finds that the context ended
    | OnWriter(a: W.Action)
    | Take                         // a turn of the reading loop
    | StreamEnds                   // the reading loop fails
    | OnOut(k: Kind, out: Out.Action)
    | SendData(n: nat)             // AddBytesSent
    | Arrive(k: Kind, id: StreamId)

  // ---------- the two endpoints, by kind ----------

  function Incoming(s: System, k: Kind): (r: In.State) {
    if k == R.Bidi then s.bidi else s.uni
  }

  function SetIncoming(s: System, k: Kind, m: In.State): (r: System) {
    if k == R.Bidi then s.(bidi := m) else s.(uni := m)
  }

  function Outgoing(s: System, k: Kind): (r: Out.State) {
    if k == R.Bidi then s.r.bidi else s.r.uni
  }

  function SetOutgoing(s: System, k: Kind, m: Out.State): (r: System) {
    if k == R.Bidi then s.(r := s.r.(bidi := m)) else s.(r := s.r.(uni := m))
  }

  /** The last limit published. */
  function Published(s: System, k: Kind): (r: int) {
    match k
    case Data => s.data.maxData
    case Bidi => s.bidi.pub.queued
    case Uni => s.uni.pub.queued
  }

  function InHand(s: System, k: Kind): (r: Option<int>) {
    if k in s.hand then Some(s.hand[k]) else None
  }

  function Delivered(s: System, k: Kind): (r: set<StreamId>) {
    if k in s.delivered then s.delivered[k] else {}
  }

  predicate Fits(k: Kind, limit: int) {
    0 <= limit <= if k == R.Data then VARINT_MAX else MAX_STREAMS_LIMIT
  }

  function CapsuleOf(k: Kind, limit: int): (c: C.Capsule)
    requires Fits(k, limit)
  {
    match k
    case Data => C.MaxData(limit)
    case Bidi => C.MaxStreamsBidi(limit)
    case Uni => C.MaxStreamsUni(limit)
  }

  predicate IsBlocked(c: C.Capsule) {
    c.DataBlocked? || c.StreamsBlockedBidi? || c.StreamsBlockedUni?
  }

  // ---------- steps ----------

  /**
   Publishing waits for the lock that is held until the limit before is in the queue. A
   limit that no varint holds never gets there: encoding it ends the program.
   */
  predicate Enabled(s: System, a: Action) {
    match a
    case OnIn(k, inc) => k != R.Data && !inc.DoAdd? && In.Enabled(Incoming(s, k), inc) && (inc.DoPublish? ==> k !in s.hand)
    case ReadData(n) => s.r.flowControl && R.Data !in s.hand
    case Enqueue(k) => k in s.hand && Fits(k, s.hand[k]) && s.w.queue.checked > 0
    case Skip(k) => k in s.hand && s.w.ctxDone
    case OnWriter(a) => W.Enabled(s.w, a) && (a.DoAppend? ==> IsBlocked(a.c))
    case Take => s.ended.None? && C.ParseNext(s.unread).Capsule?
    case StreamEnds => s.ended.None?
    case OnOut(k, out) => k != R.Data && !out.DoUpdate? && Out.Enabled(Outgoing(s, k), out)
    case SendData(_) => true
    case Arrive(k, id) => k != R.Data && id in Outgoing(s, k).streams.created && id !in Delivered(s, k)
  }

  function Publish(s: System, k: Kind, m: In.State): (r: System) {
    var t := SetIncoming(s, k, m);
    if m.pub.queued == Incoming(s, k).pub.queued then t else t.(hand := s.hand[k := m.pub.queued])
  }

  function Tail(before: seq<W.Entry>, after: seq<W.Entry>): (r: seq<W.Entry>) {
    if |before| <= |after| then after[|before|..] else []
  }

  function SetWriter(s: System, w: W.State): (r: System) {
    s.(w := w, unread := s.unread + Stream.Bytes(w.queued, Tail(s.w.wire, w.wire)))
  }

  function AfterSend(s: System, n: nat): (r: System) {
    s.(r := s.r.(data := FC.AfterBytesSent(s.r.data, n)))
  }

  function Next(s: System, a: Action): (r: System)
    requires Enabled(s, a)
  {
    match a
    case OnIn(k, inc) => Publish(s, k, In.Next(Incoming(s, k), inc))
    case ReadData(n) =>
      var data := FC.AfterBytesRead(s.data, n);
      s.(data := data, hand := if data.maxData == s.data.maxData then s.hand else s.hand[R.Data := data.maxData])
    case Enqueue(k) =>
      s.(w := W.Append(s.w, CapsuleOf(k, s.hand[k])), hand := s.hand - {k},
         lossless := s.lossless && |s.w.queue.items| < W.MAX_QUEUED)
    case Skip(k) => s.(hand := s.hand - {k}, lossless := false)
    case OnWriter(a) => SetWriter(s, W.Next(s.w, a))
    case Take =>
      var p := C.ParseNext(s.unread);
      var turn := R.Apply(s.r, p.c);
      s.(unread := p.rest, r := turn.s, ended := turn.end, read := if p.c.CloseSession? then s.read else s.read + 1)
    case StreamEnds => s.(ended := Some(R.Unreadable))
    case OnOut(k, out) => SetOutgoing(s, k, Out.Next(Outgoing(s, k), out))
    case SendData(n) => AfterSend(s, n)
    case Arrive(k, id) =>
      SetIncoming(s, k, In.AddStream(Incoming(s, k), id)).(delivered := s.delivered[k := Delivered(s, k) + {id}])
  }

  /** The step in which an endpoint would report that its peer broke flow control. */
  predicate Violates(s: System, a: Action)
    requires Enabled(s, a)
  {
    match a
    case Take => R.Apply(s.r, C.ParseNext(s.unread).c).end == Some(R.LimitNotIncreased)
    case Arrive(k, _) => In.TooMany(Incoming(s, k))
    case _ => false
  }

  /** `b` gives credit to `a`. */
  function Start(a: Config.Config, b: Config.Config, aSettings: Config.Settings, bSettings: Config.Settings): (s: System) {
    var fa := Config.Negotiated(a, b, bSettings);
    var fb := Config.Negotiated(b, a, aSettings);
    System(In.Init(fb.maxIncomingStreams, true), In.Init(fb.maxIncomingUniStreams, false), FC.NewIncoming(0, fb.maxIncomingData),
           map[], W.FRESH, [],
           R.State(fa.enabled, Out.Init(fa.maxOutgoingStreams), Out.Init(fa.maxOutgoingUniStreams), FC.NewOutgoing(fa.maxOutgoingData)),
           None, map[], 0, true)
  }

  ghost predicate IsRun(states: seq<System>, actions: seq<Action>) {
    && |states| == |actions| + 1
    && (exists a, b, aSettings, bSettings :: states[0] == Start(a, b, aSettings, bSettings))
    && forall i :: 0 <= i < |actions| ==> Enabled(states[i], actions[i]) && states[i + 1] == Next(states[i], actions[i])
  }

  // ---------- limits of one kind ----------

  /** The limit of a kind that a capsule carries, if it does. */
  function Value(c: C.Capsule, k: Kind): (v: int) {
    var limit := R.LimitOf(c, k);
    if limit == [] then -1 else limit[0]
  }

  /** Limits of one kind were queued in increasing order. */
  ghost predicate Climbing(queued: seq<C.Capsule>, k: Kind) {
    forall i, j :: 0 <= i < j < |queued| && Value(queued[i], k) >= 0 && Value(queued[j], k) >= 0 ==>
      Value(queued[i], k) < Value(queued[j], k)
  }

  /** Limits ahead of the reader are above its own. */
  ghost predicate Ahead(queued: seq<C.Capsule>, from: nat, k: Kind, current: int) {
    forall i :: from <= i < |queued| && Value(queued[i], k) >= 0 ==> Value(queued[i], k) > current
  }

  /** Nothing is above what was published, and only a limit in hand is as high as it without being queued. */
  ghost predicate Below(queued: seq<C.Capsule>, k: Kind, current: int, published: int, hand: Option<int>) {
    && 0 <= current <= published
    && (hand.Some? ==> hand.value == published && current < published)
    && forall i :: 0 <= i < |queued| ==> Value(queued[i], k) <= published && (hand.Some? ==> Value(queued[i], k) < published)
  }

  /** The last limit published was applied, is ahead of the reader, or is in hand. */
  ghost predicate OnItsWay(queued: seq<C.Capsule>, from: nat, k: Kind, current: int, published: int, hand: Option<int>) {
    hand.Some? || published == current || exists i :: from <= i < |queued| && Value(queued[i], k) == published
  }

  ghost predicate KindOk(queued: seq<C.Capsule>, from: nat, k: Kind, current: int, published: int, hand: Option<int>, complete: bool) {
    && Climbing(queued, k)
    && Ahead(queued, from, k, current)
    && Below(queued, k, current, published, hand)
    && (complete ==> OnItsWay(queued, from, k, current, published, hand))
  }

  lemma KindPublishes(queued: seq<C.Capsule>, from: nat, k: Kind, current: int, published: int, limit: int, complete: bool)
    requires KindOk(queued, from, k, current, published, None, complete) && published < limit
    ensures KindOk(queued, from, k, current, limit, Some(limit), complete)
  {
  }

  lemma ClimbingMore(queued: seq<C.Capsule>, k: Kind, c: C.Capsule)
    requires Climbing(queued, k)
    requires Value(c, k) >= 0 ==> forall i :: 0 <= i < |queued| ==> Value(queued[i], k) < Value(c, k)
    ensures Climbing(queued + [c], k)
  {
    hide Value;
    var more := queued + [c];
    assert forall i :: 0 <= i < |queued| ==> more[i] == queued[i];
  }

  lemma AheadMore(queued: seq<C.Capsule>, from: nat, k: Kind, current: int, c: C.Capsule)
    requires Ahead(queued, from, k, current) && (Value(c, k) >= 0 ==> Value(c, k) > current)
    ensures Ahead(queued + [c], from, k, current)
  {
    hide Value;
    var more := queued + [c];
    assert forall i :: 0 <= i < |queued| ==> more[i] == queued[i];
  }

  lemma BelowMore(queued: seq<C.Capsule>, k: Kind, current: int, published: int, hand: Option<int>, hand': Option<int>, c: C.Capsule)
    requires Below(queued, k, current, published, hand) && Value(c, k) <= published
    requires hand' == None || (hand' == hand && Value(c, k) < published)
    ensures Below(queued + [c], k, current, published, hand')
  {
    hide Value;
    var more := queued + [c];
    assert forall i :: 0 <= i < |queued| ==> more[i] == queued[i];
  }

  lemma OnItsWayMore(queued: seq<C.Capsule>, from: nat, k: Kind, current: int, published: int, hand: Option<int>, hand': Option<int>, c: C.Capsule)
    requires OnItsWay(queued, from, k, current, published, hand) && from <= |queued|
    requires hand' == hand || Value(c, k) == published
    ensures OnItsWay(queued + [c], from, k, current, published, hand')
  {
    hide Value;
    var more := queued + [c];
    if Value(c, k) == published {
      assert Value(more[|queued|], k) == published;
    } else if hand.None? && published != current {
      var i :| from <= i < |queued| && Value(queued[i], k) == published;
      assert Value(more[i], k) == published;
    }
  }

  /** The limit in hand enters the queue. */
  lemma KindQueues(queued: seq<C.Capsule>, from: nat, k: Kind, current: int, published: int, limit: int, complete: bool, c: C.Capsule)
    requires KindOk(queued, from, k, current, published, Some(limit), complete) && from <= |queued| && Value(c, k) == limit
    ensures KindOk(queued + [c], from, k, current, published, None, complete)
  {
    ClimbingMore(queued, k, c);
    AheadMore(queued, from, k, current, c);
    BelowMore(queued, k, current, published, Some(limit), None, c);
    hide Climbing, Ahead, Below;
    if complete {
      OnItsWayMore(queued, from, k, current, published, Some(limit), None, c);
    }
  }

  /** A capsule that carries no limit of the kind. */
  lemma KindIgnores(queued: seq<C.Capsule>, from: nat, k: Kind, current: int, published: int, hand: Option<int>, complete: bool, c: C.Capsule)
    requires KindOk(queued, from, k, current, published, hand, complete) && from <= |queued| && Value(c, k) == -1
    ensures KindOk(queued + [c], from, k, current, published, hand, complete)
  {
    ClimbingMore(queued, k, c);
    AheadMore(queued, from, k, current, c);
    BelowMore(queued, k, current, published, hand, hand, c);
    hide Climbing, Ahead, Below;
    if complete {
      OnItsWayMore(queued, from, k, current, published, hand, hand, c);
    }
  }

  lemma KindDrops(queued: seq<C.Capsule>, from: nat, k: Kind, current: int, published: int, hand: Option<int>, complete: bool)
    requires KindOk(queued, from, k, current, published, hand, complete)
    ensures KindOk(queued, from, k, current, published, None, false)
    ensures KindOk(queued, from, k, current, published, hand, false)
  {
  }

  /** The reader comes past capsule `i`, and applies it or not. */
  lemma KindTakes(queued: seq<C.Capsule>, from: nat, i: nat, k: Kind, current: int, current': int, published: int, hand: Option<int>, complete: bool)
    requires KindOk(queued, from, k, current, published, hand, complete) && from <= i < |queued|
    requires current' == current || (current' == Value(queued[i], k) && current' >= 0)
    requires complete && Value(queued[i], k) >= 0 ==> current' == Value(queued[i], k)
    requires (hand.Some? ==> current' < published) && (complete ==> i == from)
    ensures KindOk(queued, i + 1, k, current', published, hand, complete)
  {
    assert Value(queued[i], k) <= published;
    if complete && hand.None? && published != current {
      var j :| from <= j < |queued| && Value(queued[j], k) == published;
    }
  }

  // ---------- what the components' steps do to the limits ----------

  lemma OutMoves(s: Out.State, a: Out.Action)
    requires !a.DoUpdate? && Out.Enabled(s, a)
    ensures
      var r := Out.Next(s, a);
      r.max == s.max && s.streams.created <= r.streams.created && (r.closeErr.None? ==> s.closeErr.None?)
  {
    if Out.IsCall(a) {
      Out.CallMoves(s, a);
      hide Out.Next;
    }
  }

  /** Every step of the writing side puts at most one more thing on the stream, and queues only what it is given. */
  lemma WriterMoves(s: W.State, a: W.Action)
    requires W.Enabled(s, a) && (s.closer == W.NotClosing <==> s.closeErr.None?)
    ensures
      var r := W.Next(s, a);
      && (r.wire == s.wire || exists e :: r.wire == s.wire + [e])
      && (r.queued == s.queued || (a.DoAppend? && r.wire == s.wire && r.queued == s.queued + [a.c]))
      && (W.Cleared(s.closer) ==> W.Cleared(r.closer))
  {
    hide C.Append;
    match a
    case DoFailedClose(err) => W.ClosesFrame(s, err, W.NotFirst);
    case DoTornClose(err) => W.ClosesFrame(s, err, W.Exited(W.AfterTear));
    case DoWritten => assert W.Next(s, a).wire == s.wire + [W.Whole(s.writer.i)];
    case DoWriteTears(n) => assert W.Next(s, a).wire == s.wire + [W.Torn(s.writer.i, n)];
    case DoSendClose(ok) => assert ok ==> W.Next(s, a).wire == s.wire + [W.Close(s.writer.c)];
    case _ =>
  }

  lemma ApplyKind(r: R.State, c: C.Capsule, k: Kind)
    requires !c.CloseSession?
    ensures
      var turn := R.Apply(r, c);
      && (R.Current(turn.s, k) == R.Current(r, k) || (R.Current(turn.s, k) == Value(c, k) && Value(c, k) >= 0))
      && (R.Reading(turn.s) <==> R.Reading(r)) && turn.s.flowControl == r.flowControl
      && (R.Reading(r) && turn.end.None? && Value(c, k) >= 0 ==> R.Current(turn.s, k) == Value(c, k))
      && (turn.end.Some? ==> exists j :: 0 <= Value(c, j) <= R.Current(r, j))
  {
    hide Out.UpdateStreamLimit;
    match c
    case MaxData(limit) => assert Value(c, R.Data) == limit;
    case MaxStreamsBidi(limit) =>
      UpdateFacts(r.bidi, limit);
      assert Value(c, R.Bidi) == limit;
    case MaxStreamsUni(limit) =>
      UpdateFacts(r.uni, limit);
      assert Value(c, R.Uni) == limit;
    case _ =>
  }

  lemma UpdateFacts(s: Out.State, limit: nat)
    ensures
      var r := Out.UpdateStreamLimit(s, limit);
      && r.closeErr == s.closeErr && r.streams == s.streams
      && r.max == if s.closeErr.None? && limit > s.max then limit else s.max
  {
  }

  lemma ApplyKeepsMaps(r: R.State, c: C.Capsule)
    requires Out.Inv(r.bidi) && Out.Inv(r.uni)
    ensures
      var t := R.Apply(r, c).s;
      Out.Inv(t.bidi) && Out.Inv(t.uni) && t.bidi.streams == r.bidi.streams && t.uni.streams == r.uni.streams
  {
    hide Out.Inv, Out.UpdateStreamLimit;
    match c
    case MaxStreamsBidi(limit) =>
      Out.UpdateStreamLimitKeeps(r.bidi, limit);
      UpdateFacts(r.bidi, limit);
    case MaxStreamsUni(limit) =>
      Out.UpdateStreamLimitKeeps(r.uni, limit);
      UpdateFacts(r.uni, limit);
    case _ =>
  }

  // ---------- what is on the stream ----------

  lemma {:induction false} WholesAt(wire: seq<W.Entry>)
    requires forall j :: 0 <= j < |wire| ==> wire[j].Whole?
    ensures |W.Wholes(wire)| == |wire| && forall j :: 0 <= j < |wire| ==> W.Wholes(wire)[j] == wire[j].i
  {
    if wire != [] {
      WholesAt(wire[..|wire| - 1]);
    }
  }

  ghost predicate InOrder(wire: seq<W.Entry>) {
    forall j, l :: 0 <= j < l < |wire| && !wire[l].Close? ==> !wire[j].Close? && wire[j].i < wire[l].i
  }

  ghost predicate CountsUp(wire: seq<W.Entry>) {
    forall j :: 0 <= j < |wire| && !wire[j].Close? ==> wire[j].i == j
  }

  lemma WholesOf(front: seq<W.Entry>, last: W.Entry)
    requires forall j :: 0 <= j < |front| ==> front[j].Whole?
    ensures
      var whole := W.Wholes(front + [last]);
      && |whole| == |front| + (if last.Whole? then 1 else 0)
      && (forall j :: 0 <= j < |front| ==> whole[j] == front[j].i)
      && (last.Whole? ==> whole[|front|] == last.i)
  {
    WholesAt(front);
    W.WholesAppend(front, last);
  }

  /** Positions on the stream increase; they count up from zero if those of the capsules written whole do. */
  lemma OrderOf(front: seq<W.Entry>, last: W.Entry)
    requires forall j :: 0 <= j < |front| ==> front[j].Whole?
    requires StrictlyIncreasing(W.Wholes(front + [last])) && (last.Torn? ==> W.Before(W.Wholes(front + [last]), last.i))
    ensures InOrder(front + [last])
    ensures
      var whole := W.Wholes(front + [last]);
      (forall j :: 0 <= j < |whole| ==> whole[j] == j) && (last.Torn? ==> last.i == |whole|) ==> CountsUp(front + [last])
  {
    WholesOf(front, last);
    hide W.Wholes;
  }

  lemma OrderFacts(w: W.State)
    requires W.Inv(w)
    ensures forall j :: 0 <= j < |w.wire| - 1 ==> w.wire[j].Whole?
    ensures StrictlyIncreasing(W.Wholes(w.wire))
    ensures forall j :: 0 <= j < |w.wire| && w.wire[j].Torn? ==> W.Before(W.Wholes(w.wire), w.wire[j].i)
    ensures !W.Cleared(w.closer) ==> forall j :: 0 <= j < |w.wire| && w.wire[j].Torn? ==> w.wire[j].i == |W.Wholes(w.wire)|
    ensures !W.Cleared(w.closer) ==> forall j :: 0 <= j < |W.Wholes(w.wire)| ==> W.Wholes(w.wire)[j] == j
  {
    hide W.CloseOk, W.SentOk, W.WakeOk, W.OutcomeOk, W.CapsuleOk, C.Append, W.Wholes;
    if !W.Cleared(w.closer) {
      W.OrderedIsAll(W.Wholes(w.wire), w.queue.items, w.writer, |w.queued|);
      var all := W.Wholes(w.wire) + W.Unwritten(w.queue.items, w.writer);
      assert forall j :: 0 <= j < |W.Wholes(w.wire)| ==> W.Wholes(w.wire)[j] == all[j];
    }
  }

  lemma EntryOrder(w: W.State)
    requires W.Inv(w)
    ensures Stream.InRange(w.queued, w.wire) && InOrder(w.wire)
    ensures !W.Cleared(w.closer) ==> CountsUp(w.wire)
    ensures forall j :: 0 <= j < |w.wire| - 1 ==> w.wire[j].Whole?
  {
    Stream.EntriesInRange(w);
    OrderFacts(w);
    hide W.Inv, W.Wholes;
    if w.wire != [] {
      var front, last := w.wire[..|w.wire| - 1], w.wire[|w.wire| - 1];
      assert front + [last] == w.wire;
      OrderOf(front, last);
    }
  }

  lemma {:induction false} BytesConcat(queued: seq<C.Capsule>, a: seq<W.Entry>, b: seq<W.Entry>)
    ensures Stream.Bytes(queued, a + b) == Stream.Bytes(queued, a) + Stream.Bytes(queued, b)
  {
    hide Stream.EntryBytes;
    if b == [] {
      assert a + b == a;
    } else {
      assert (a + b)[..|a + b| - 1] == a + b[..|b| - 1];
      BytesConcat(queued, a, b[..|b| - 1]);
    }
  }

  /** What was not read yet begins with the next thing on the stream. */
  lemma BytesFirst(queued: seq<C.Capsule>, wire: seq<W.Entry>)
    requires wire != []
    ensures Stream.Bytes(queued, wire) == Stream.EntryBytes(queued, wire[0]) + Stream.Bytes(queued, wire[1..])
  {
    hide Stream.EntryBytes;
    BytesConcat(queued, [wire[0]], wire[1..]);
    assert wire == [wire[0]] + wire[1..];
    assert [wire[0]][..0] == [];
  }

  ghost predicate NoClose(queued: seq<C.Capsule>) {
    forall i :: 0 <= i < |queued| ==> !queued[i].CloseSession?
  }

  /** The reader stands between two things on the stream. */
  ghost predicate ReadOk(queued: seq<C.Capsule>, wire: seq<W.Entry>, read: nat, unread: seq<Byte>, ended: bool) {
    && read <= |wire|
    && (forall j :: 0 <= j < read ==> !wire[j].Close?)
    && (!ended ==> unread == Stream.Bytes(queued, wire[read..]))
  }

  /** One position past the last capsule read. */
  function Frontier(wire: seq<W.Entry>, read: nat): (r: nat) {
    if 0 < read <= |wire| && !wire[read - 1].Close? then wire[read - 1].i + 1 else 0
  }

  /** The parser finds the next capsule on the stream as it was queued. */
  lemma TakeReads(w: W.State, read: nat, unread: seq<Byte>)
    requires W.Inv(w) && NoClose(w.queued) && ReadOk(w.queued, w.wire, read, unread, false) && C.ParseNext(unread).Capsule?
    ensures read < |w.wire|
    ensures
      var p, e := C.ParseNext(unread), w.wire[read];
      && (e.Close? ==> p.c.CloseSession?)
      && (!e.Close? ==> e.i < |w.queued| && p.c == w.queued[e.i] && p.rest == Stream.Bytes(w.queued, w.wire[read + 1..]))
  {
    EntryOrder(w);
    assert C.ParseNext([]).Failure?;
    assert read < |w.wire|;
    var left := w.wire[read..];
    BytesFirst(w.queued, left);
    var e, rest := w.wire[read], Stream.Bytes(w.queued, left[1..]);
    assert left[1..] == w.wire[read + 1..];
    assert e.Torn? ==> rest == [];
    assert e.Torn? ==> 0 < e.n <= |C.Append(w.queued[e.i])|;
    hide W.Inv, C.ParseNext, C.Append;
    ParseEntry(w.queued, e, rest);
  }

  lemma ParseEntry(queued: seq<C.Capsule>, e: W.Entry, rest: seq<Byte>)
    requires NoClose(queued) && (!e.Close? ==> e.i < |queued|)
    requires e.Torn? ==> rest == [] && e.n <= |C.Append(queued[e.i])|
    requires C.ParseNext(Stream.EntryBytes(queued, e) + rest).Capsule?
    ensures
      var p := C.ParseNext(Stream.EntryBytes(queued, e) + rest);
      && (e.Close? ==> p.c == C.AsSent(e.c))
      && (!e.Close? ==> p.c == queued[e.i] && p.rest == rest)
  {
    hide C.ParseNext, C.Append;
    match e
    case Whole(i) => C.CapsuleReadBack(queued[i], rest);
    case Torn(i, n) =>
      var whole := C.Append(queued[i]);
      assert whole[..n] + rest == whole[..n];
      if n < |whole| {
        C.CutOffYieldsNothing(queued[i], n);
      } else {
        assert whole[..n] == whole;
        C.CapsuleReadBack(queued[i], rest);
      }
    case Close(c) => C.CapsuleReadBack(c, rest);
  }

  // ---------- invariant ----------

  /** Nothing was lost on the way so far. */
  ghost predicate Complete(s: System) {
    s.lossless && !W.Cleared(s.w.closer) && R.Reading(s.r) && s.ended.None?
  }

  ghost predicate KindAt(s: System, k: Kind) {
    KindOk(s.w.queued, Frontier(s.w.wire, s.read), k, R.Current(s.r, k), Published(s, k), InHand(s, k), Complete(s))
  }

  ghost predicate StreamsOk(s: System, k: Kind) {
    && Incoming(s, k).streams.arrived <= Delivered(s, k) <= Outgoing(s, k).streams.created
    && In.Accounted(Incoming(s, k), Delivered(s, k))
  }

  ghost predicate PartsOk(s: System) {
    && W.Inv(s.w) && In.Inv(s.bidi) && In.Inv(s.uni) && Out.Inv(s.r.bidi) && Out.Inv(s.r.uni)
    && FC.WindowOk(s.data)
    && (R.Data in s.hand ==> s.data.maxData == s.data.bytesRead + s.data.receiveWindow)
  }

  ghost predicate Inv(s: System) {
    && PartsOk(s)
    && NoClose(s.w.queued)
    && ReadOk(s.w.queued, s.w.wire, s.read, s.unread, s.ended.Some?)
    && (forall k :: KindAt(s, k))
    && StreamsOk(s, R.Bidi) && StreamsOk(s, R.Uni)
  }

  // ---------- preservation ----------

  lemma OnInKeeps(s: System, k: Kind, inc: In.Action)
    requires Inv(s) && Enabled(s, OnIn(k, inc))
    ensures Inv(Next(s, OnIn(k, inc)))
  {
    hide In.Accounted, W.Inv, In.Inv, Out.Inv, FC.WindowOk, NoClose, ReadOk, KindOk, In.Next, In.Enabled;
    var r := Next(s, OnIn(k, inc));
    In.StepKeeps(Incoming(s, k), inc);
    In.AccountedStays(Incoming(s, k), inc, Delivered(s, k));
    In.PublicationMoves(Incoming(s, k), inc);
    forall j ensures KindAt(r, j) {
      assert KindAt(s, j);
      if j == k && Published(r, k) != Published(s, k) {
        KindPublishes(s.w.queued, Frontier(s.w.wire, s.read), k, R.Current(s.r, k), Published(s, k), Published(r, k), Complete(s));
      }
    }
  }

  lemma UpdateIsWindow(f: FC.Incoming, n: nat)
    ensures
      var r := FC.AfterBytesRead(f, n);
      r.maxData != f.maxData ==> r.maxData == r.bytesRead + r.receiveWindow
  {
  }

  lemma ReadDataKeeps(s: System, n: nat)
    requires Inv(s) && Enabled(s, ReadData(n))
    ensures Inv(Next(s, ReadData(n)))
  {
    hide In.Accounted, W.Inv, In.Inv, Out.Inv, FC.WindowOk, NoClose, ReadOk, KindOk, FC.AfterBytesRead;
    var r := Next(s, ReadData(n));
    FC.WindowKept(s.data, n);
    UpdateIsWindow(s.data, n);
    forall j ensures KindAt(r, j) {
      assert KindAt(s, j);
      if j == R.Data && Published(r, j) != Published(s, j) {
        KindPublishes(s.w.queued, Frontier(s.w.wire, s.read), j, R.Current(s.r, j), Published(s, j), Published(r, j), Complete(s));
      }
    }
  }

  lemma FrontierInRange(s: System)
    requires W.Inv(s.w)
    ensures Frontier(s.w.wire, s.read) <= |s.w.queued|
  {
    Stream.EntriesInRange(s.w);
    hide W.Inv;
  }

  lemma QueuedReadOk(w: W.State, c: C.Capsule, read: nat, unread: seq<Byte>, ended: bool)
    requires W.Inv(w) && NoClose(w.queued) && !c.CloseSession? && ReadOk(w.queued, w.wire, read, unread, ended)
    ensures NoClose(w.queued + [c]) && ReadOk(w.queued + [c], w.wire, read, unread, ended)
  {
    Stream.EntriesInRange(w);
    hide W.Inv;
    Stream.BytesFrame(w.queued, c, w.wire[read..]);
  }

  lemma CapsuleValue(k: Kind, limit: int, j: Kind)
    requires Fits(k, limit)
    ensures Value(CapsuleOf(k, limit), j) == (if j == k then limit else -1) && !CapsuleOf(k, limit).CloseSession?
  {
  }

  /** What queueing a capsule changes of the writing side. */
  lemma AppendMoves(w: W.State, c: C.Capsule)
    requires w.queue.checked > 0
    ensures
      var r := W.Append(w, c);
      && r.wire == w.wire && r.closer == w.closer
      && r.queued == if |w.queue.items| < W.MAX_QUEUED then w.queued + [c] else w.queued
  {
  }

  lemma EnqueueKeeps(s: System, k: Kind)
    requires Inv(s) && Enabled(s, Enqueue(k))
    ensures Inv(Next(s, Enqueue(k)))
  {
    hide In.Accounted, W.Inv, In.Inv, Out.Inv, FC.WindowOk, NoClose, ReadOk, KindOk, W.Append, CapsuleOf;
    var r, c := Next(s, Enqueue(k)), CapsuleOf(k, s.hand[k]);
    CapsuleValue(k, s.hand[k], k);
    W.AppendKeeps(s.w, c);
    AppendMoves(s.w, c);
    QueuedReadOk(s.w, c, s.read, s.unread, s.ended.Some?);
    FrontierInRange(s);
    forall j ensures KindAt(r, j) {
      assert KindAt(s, j);
      EnqueueKind(s, k, j);
    }
  }

  lemma EnqueueKind(s: System, k: Kind, j: Kind)
    requires W.Inv(s.w) && KindAt(s, j) && Enabled(s, Enqueue(k))
    ensures KindAt(Next(s, Enqueue(k)), j)
  {
    hide W.Inv, KindOk, W.Append, CapsuleOf, Value;
    var c, from := CapsuleOf(k, s.hand[k]), Frontier(s.w.wire, s.read);
    CapsuleValue(k, s.hand[k], j);
    AppendMoves(s.w, c);
    FrontierInRange(s);
    if |s.w.queue.items| >= W.MAX_QUEUED {
      KindDrops(s.w.queued, from, j, R.Current(s.r, j), Published(s, j), InHand(s, j), Complete(s));
    } else if j == k {
      KindQueues(s.w.queued, from, j, R.Current(s.r, j), Published(s, j), s.hand[k], Complete(s), c);
    } else {
      KindIgnores(s.w.queued, from, j, R.Current(s.r, j), Published(s, j), InHand(s, j), Complete(s), c);
    }
  }

  lemma SkipKeeps(s: System, k: Kind)
    requires Inv(s) && Enabled(s, Skip(k))
    ensures Inv(Next(s, Skip(k)))
  {
    hide In.Accounted, W.Inv, In.Inv, Out.Inv, FC.WindowOk, NoClose, ReadOk, KindOk;
    var r := Next(s, Skip(k));
    forall j ensures KindAt(r, j) {
      assert KindAt(s, j);
      KindDrops(s.w.queued, Frontier(s.w.wire, s.read), j, R.Current(s.r, j), Published(s, j), InHand(s, j), Complete(s));
    }
  }

  /** Less is claimed once something may have been lost. */
  lemma KindWeakens(s: System, r: System, k: Kind)
    requires KindAt(s, k) && (Complete(r) ==> Complete(s))
    requires r.w.queued == s.w.queued && Frontier(r.w.wire, r.read) == Frontier(s.w.wire, s.read)
    requires R.Current(r.r, k) == R.Current(s.r, k) && Published(r, k) == Published(s, k) && InHand(r, k) == InHand(s, k)
    ensures KindAt(r, k)
  {
    KindDrops(s.w.queued, Frontier(s.w.wire, s.read), k, R.Current(s.r, k), Published(s, k), InHand(s, k), Complete(s));
    hide KindOk;
  }

  lemma BlockedValue(c: C.Capsule, k: Kind)
    requires IsBlocked(c)
    ensures Value(c, k) == -1 && !c.CloseSession?
  {
  }

  /** More on the stream: the reader has as much more to read. */
  lemma WrittenReadOk(queued: seq<C.Capsule>, wire: seq<W.Entry>, wire': seq<W.Entry>, read: nat, unread: seq<Byte>, ended: bool)
    requires ReadOk(queued, wire, read, unread, ended) && (wire' == wire || exists e :: wire' == wire + [e])
    ensures ReadOk(queued, wire', read, unread + Stream.Bytes(queued, Tail(wire, wire')), ended)
    ensures Frontier(wire', read) == Frontier(wire, read)
  {
    hide Stream.Bytes;
    assert wire' == wire + Tail(wire, wire');
    assert wire'[read..] == wire[read..] + Tail(wire, wire');
    BytesConcat(queued, wire[read..], Tail(wire, wire'));
  }

  lemma CloserFacts(w: W.State)
    requires W.Inv(w)
    ensures w.closer == W.NotClosing <==> w.closeErr.None?
  {
  }

  lemma OnWriterKeeps(s: System, a: W.Action)
    requires Inv(s) && Enabled(s, OnWriter(a))
    ensures Inv(Next(s, OnWriter(a)))
  {
    hide In.Accounted, W.Inv, In.Inv, Out.Inv, FC.WindowOk, NoClose, ReadOk, KindOk, W.Next, W.Enabled;
    var r := Next(s, OnWriter(a));
    CloserFacts(s.w);
    W.StepKeeps(s.w, a);
    WriterMoves(s.w, a);
    WrittenReadOk(s.w.queued, s.w.wire, r.w.wire, s.read, s.unread, s.ended.Some?);
    if r.w.queued == s.w.queued {
      forall j ensures KindAt(r, j) {
        assert KindAt(s, j);
        KindWeakens(s, r, j);
      }
    } else {
      BlockedValue(a.c, R.Data);
      assert Tail(s.w.wire, r.w.wire) == [];
      assert Stream.Bytes(r.w.queued, []) == [];
      assert s.unread + [] == s.unread;
      QueuedReadOk(s.w, a.c, s.read, s.unread, s.ended.Some?);
      FrontierInRange(s);
      forall j ensures KindAt(r, j) {
        assert KindAt(s, j);
        BlockedKind(s, r, a.c, j);
      }
    }
  }

  lemma BlockedKind(s: System, r: System, c: C.Capsule, k: Kind)
    requires KindAt(s, k) && IsBlocked(c) && (Complete(r) ==> Complete(s)) && Frontier(s.w.wire, s.read) <= |s.w.queued|
    requires r.w.queued == s.w.queued + [c] && Frontier(r.w.wire, r.read) == Frontier(s.w.wire, s.read)
    requires R.Current(r.r, k) == R.Current(s.r, k) && Published(r, k) == Published(s, k) && InHand(r, k) == InHand(s, k)
    ensures KindAt(r, k)
  {
    BlockedValue(c, k);
    var from, current, published, hand := Frontier(s.w.wire, s.read), R.Current(s.r, k), Published(s, k), InHand(s, k);
    hide KindOk, Value;
    KindIgnores(s.w.queued, from, k, current, published, hand, Complete(s), c);
    KindDrops(s.w.queued + [c], from, k, current, published, hand, Complete(s));
  }

  lemma OnOutKeeps(s: System, k: Kind, out: Out.Action)
    requires Inv(s) && Enabled(s, OnOut(k, out))
    ensures Inv(Next(s, OnOut(k, out)))
  {
    hide In.Accounted, W.Inv, In.Inv, Out.Inv, FC.WindowOk, NoClose, ReadOk, KindOk, Out.Next, Out.Enabled;
    var r := Next(s, OnOut(k, out));
    Out.StepKeeps(Outgoing(s, k), out);
    OutMoves(Outgoing(s, k), out);
    forall j ensures KindAt(r, j) {
      assert KindAt(s, j);
      KindWeakens(s, r, j);
    }
  }

  lemma SendDataKeeps(s: System, n: nat)
    requires Inv(s)
    ensures Inv(AfterSend(s, n))
  {
    hide In.Accounted, W.Inv, In.Inv, Out.Inv, FC.WindowOk, NoClose, ReadOk, KindOk;
    var r := AfterSend(s, n);
    forall j ensures KindAt(r, j) {
      assert KindAt(s, j);
      KindWeakens(s, r, j);
    }
  }

  lemma ReadEnds(queued: seq<C.Capsule>, wire: seq<W.Entry>, read: nat, unread: seq<Byte>, ended: bool, rest: seq<Byte>)
    requires ReadOk(queued, wire, read, unread, ended)
    ensures ReadOk(queued, wire, read, rest, true)
  {
  }

  lemma StreamEndsKeeps(s: System)
    requires Inv(s) && Enabled(s, StreamEnds)
    ensures Inv(Next(s, StreamEnds))
  {
    hide In.Accounted, W.Inv, In.Inv, Out.Inv, FC.WindowOk, NoClose, ReadOk, KindOk;
    var r := Next(s, StreamEnds);
    ReadEnds(s.w.queued, s.w.wire, s.read, s.unread, false, s.unread);
    forall j ensures KindAt(r, j) {
      assert KindAt(s, j);
      KindWeakens(s, r, j);
    }
  }

  /** A stream on its way always fits within the receiver's limit. */
  lemma ArrivalFits(inc: In.State, out: Out.State, id: StreamId, delivered: set<StreamId>)
    requires In.Inv(inc) && Out.Inv(out) && out.max <= inc.pub.queued
    requires inc.streams.arrived <= delivered <= out.streams.created && id in out.streams.created && id !in delivered
    ensures inc.num < inc.max
  {
    var others := out.streams.created - {id};
    assert inc.streams.arrived <= others;
    StreamCredit.CardinalityMonotone(inc.streams.arrived, others);
  }

  lemma LimitBelow(s: System, k: Kind)
    requires KindAt(s, k)
    ensures 0 <= R.Current(s.r, k) <= Published(s, k) && (k in s.hand ==> s.hand[k] == Published(s, k)) && Climbing(s.w.queued, k)
  {
  }

  lemma ArriveKeeps(s: System, k: Kind, id: StreamId)
    requires Inv(s) && Enabled(s, Arrive(k, id))
    ensures Inv(Next(s, Arrive(k, id))) && !Violates(s, Arrive(k, id))
  {
    hide In.Accounted, W.Inv, In.Inv, Out.Inv, FC.WindowOk, NoClose, ReadOk, KindOk, In.AddStream;
    var r, inc := Next(s, Arrive(k, id)), Incoming(s, k);
    In.AddMoves(inc, id);
    assert KindAt(s, k);
    LimitBelow(s, k);
    ArrivalFits(inc, Outgoing(s, k), id, Delivered(s, k));
    In.AccountedAdds(inc, id, Delivered(s, k));
    assert In.Enabled(inc, In.DoAdd(id));
    In.StepKeeps(inc, In.DoAdd(id));
    forall j ensures KindAt(r, j) {
      assert KindAt(s, j);
      KindWeakens(s, r, j);
    }
  }

  // ---------- the reading loop ----------

  /** The capsule read next carries a limit above the reader's, so it is applied. */
  lemma TakeKind(s: System, i: nat, k: Kind)
    requires KindAt(s, k) && Frontier(s.w.wire, s.read) <= i < |s.w.queued| && !s.w.queued[i].CloseSession?
    requires R.Apply(s.r, s.w.queued[i]).end.None? && (Complete(s) ==> i == Frontier(s.w.wire, s.read))
    ensures KindOk(s.w.queued, i + 1, k, R.Current(R.Apply(s.r, s.w.queued[i]).s, k), Published(s, k), InHand(s, k), Complete(s))
  {
    ApplyKind(s.r, s.w.queued[i], k);
    hide R.Apply, Value;
    KindTakes(s.w.queued, Frontier(s.w.wire, s.read), i, k,
              R.Current(s.r, k), R.Current(R.Apply(s.r, s.w.queued[i]).s, k), Published(s, k), InHand(s, k), Complete(s));
  }

  lemma AheadOf(s: System, i: nat, k: Kind)
    requires KindAt(s, k) && Frontier(s.w.wire, s.read) <= i < |s.w.queued|
    ensures Value(s.w.queued[i], k) >= 0 ==> Value(s.w.queued[i], k) > R.Current(s.r, k)
  {
  }

  lemma NothingWrong(s: System, i: nat)
    requires (forall k :: KindAt(s, k)) && Frontier(s.w.wire, s.read) <= i < |s.w.queued| && !s.w.queued[i].CloseSession?
    ensures R.Apply(s.r, s.w.queued[i]).end.None?
  {
    ApplyKind(s.r, s.w.queued[i], R.Data);
    if R.Apply(s.r, s.w.queued[i]).end.Some? {
      hide R.Apply;
      var j :| 0 <= Value(s.w.queued[i], j) <= R.Current(s.r, j);
      AheadOf(s, i, j);
    }
  }

  /** Where the reader stands after one more capsule. */
  lemma TakeMoves(w: W.State, read: nat, unread: seq<Byte>)
    requires W.Inv(w) && NoClose(w.queued) && ReadOk(w.queued, w.wire, read, unread, false) && C.ParseNext(unread).Capsule?
    ensures read < |w.wire|
    ensures
      var p, e := C.ParseNext(unread), w.wire[read];
      && (e.Close? ==> p.c.CloseSession?)
      && (!e.Close? ==>
            && Frontier(w.wire, read) <= e.i < |w.queued| && p.c == w.queued[e.i] && !p.c.CloseSession?
            && Frontier(w.wire, read + 1) == e.i + 1
            && (!W.Cleared(w.closer) ==> e.i == Frontier(w.wire, read))
            && ReadOk(w.queued, w.wire, read + 1, p.rest, false))
  {
    hide W.Inv, C.ParseNext, Stream.Bytes;
    TakeReads(w, read, unread);
    EntryOrder(w);
  }

  lemma TakeKeeps(s: System)
    requires Inv(s) && Enabled(s, Take)
    ensures Inv(Next(s, Take)) && !Violates(s, Take)
  {
    hide In.Accounted, W.Inv, In.Inv, Out.Inv, FC.WindowOk, NoClose, ReadOk, KindOk, C.ParseNext, R.Apply;
    TakeMoves(s.w, s.read, s.unread);
    var r, c, e := Next(s, Take), C.ParseNext(s.unread).c, s.w.wire[s.read];
    ApplyKeepsMaps(s.r, c);
    if e.Close? {
      R.ApplyClose(s.r, c);
      ReadEnds(s.w.queued, s.w.wire, s.read, s.unread, false, r.unread);
      forall j ensures KindAt(r, j) {
        assert KindAt(s, j);
        KindWeakens(s, r, j);
      }
    } else {
      NothingWrong(s, e.i);
      TakenKinds(s, e.i);
      ApplyKind(s.r, c, R.Data);
    }
  }

  lemma TakenKinds(s: System, i: nat)
    requires Enabled(s, Take) && (forall k :: KindAt(s, k))
    requires Frontier(s.w.wire, s.read) <= i < |s.w.queued| && C.ParseNext(s.unread).c == s.w.queued[i]
    requires !s.w.queued[i].CloseSession? && R.Apply(s.r, s.w.queued[i]).end.None?
    requires Frontier(s.w.wire, s.read + 1) == i + 1 && (!W.Cleared(s.w.closer) ==> i == Frontier(s.w.wire, s.read))
    ensures forall k :: KindAt(Next(s, Take), k)
  {
    hide C.ParseNext, KindOk, R.Apply;
    var r := Next(s, Take);
    forall k ensures KindAt(r, k) {
      assert KindAt(s, k);
      TakeKind(s, i, k);
      ApplyKind(s.r, s.w.queued[i], k);
    }
  }

  // ---------- every run ----------

  lemma NextSend(s: System, n: nat)
    ensures Next(s, SendData(n)) == AfterSend(s, n)
  {
  }

  lemma StepKeeps(s: System, a: Action)
    requires Inv(s) && Enabled(s, a)
    ensures Inv(Next(s, a)) && !Violates(s, a)
  {
    hide Inv, Next;
    match a
    case OnIn(k, inc) => OnInKeeps(s, k, inc);
    case ReadData(n) => ReadDataKeeps(s, n);
    case Enqueue(k) => EnqueueKeeps(s, k);
    case Skip(k) => SkipKeeps(s, k);
    case OnWriter(a) => OnWriterKeeps(s, a);
    case Take => TakeKeeps(s);
    case StreamEnds => StreamEndsKeeps(s);
    case OnOut(k, out) => OnOutKeeps(s, k, out);
    case SendData(n) =>
      SendDataKeeps(s, n);
      NextSend(s, n);
    case Arrive(k, id) => ArriveKeeps(s, k, id);
  }

  lemma StartKind(k: Kind, current: int)
    requires current >= 0
    ensures KindOk([], 0, k, current, current, None, true)
  {
  }

  lemma StartOk(a: Config.Config, b: Config.Config, aSettings: Config.Settings, bSettings: Config.Settings)
    ensures Inv(Start(a, b, aSettings, bSettings))
  {
    hide In.Accounted, W.Inv, In.Inv, Out.Inv, FC.WindowOk, Config.Negotiated, KindOk;
    var s := Start(a, b, aSettings, bSettings);
    var fa, fb := Config.Negotiated(a, b, bSettings), Config.Negotiated(b, a, aSettings);
    StartLimits(a, b, aSettings, bSettings);
    In.InitOk(fb.maxIncomingStreams, true);
    In.InitOk(fb.maxIncomingUniStreams, false);
    Out.InitOk(fa.maxOutgoingStreams);
    Out.InitOk(fa.maxOutgoingUniStreams);
    In.InitAccounted(fb.maxIncomingStreams, true);
    In.InitAccounted(fb.maxIncomingUniStreams, false);
    W.FreshOk();
    StartWindow(fb.maxIncomingData);
    forall k ensures KindAt(s, k) {
      StartKind(k, Published(s, k));
      KindDrops([], 0, k, Published(s, k), Published(s, k), None, true);
    }
  }

  lemma StartWindow(limit: nat)
    ensures FC.WindowOk(FC.NewIncoming(0, limit))
  {
  }

  lemma StartLimits(a: Config.Config, b: Config.Config, aSettings: Config.Settings, bSettings: Config.Settings)
    ensures
      var fa := Config.Negotiated(a, b, bSettings);
      var fb := Config.Negotiated(b, a, aSettings);
      && fa.maxOutgoingStreams == fb.maxIncomingStreams <= MAX_STREAMS_LIMIT
      && fa.maxOutgoingUniStreams == fb.maxIncomingUniStreams <= MAX_STREAMS_LIMIT
      && fa.maxOutgoingData == fb.maxIncomingData <= VARINT_MAX
  {
    Config.EndpointsAgree(a, b, aSettings, bSettings);
  }

  lemma {:induction false} RunKeeps(states: seq<System>, actions: seq<Action>, i: nat)
    requires IsRun(states, actions) && i < |states|
    ensures Inv(states[i])
  {
    hide Inv, Next, Start;
    if i == 0 {
      var a, b, aSettings, bSettings :| states[0] == Start(a, b, aSettings, bSettings);
      StartOk(a, b, aSettings, bSettings);
    } else {
      RunKeeps(states, actions, i - 1);
      StepKeeps(states[i - 1], actions[i - 1]);
    }
  }

  /**
   For any two configurations and any interleaving of both endpoints' goroutines, from
   publication over queue, writer and bytes to the reading loop: no limit is ever found
   not to increase, and no stream ever to be too many. The limits in use never exceed
   those published, limits enter the queue in increasing order, and a limit in hand can be
   encoded exactly if it counts streams, or bytes read and window together fit a varint.
   */
  lemma PeersAgreeOverTheWire(states: seq<System>, actions: seq<Action>, i: nat, k: Kind)
    requires IsRun(states, actions) && i < |actions|
    ensures Enabled(states[i], actions[i]) && !Violates(states[i], actions[i])
    ensures
      var s := states[i];
      && R.Current(s.r, k) <= Published(s, k)
      && (k in s.hand ==> (Fits(k, s.hand[k]) <==> k != R.Data || s.data.bytesRead + s.data.receiveWindow <= VARINT_MAX))
      && Climbing(s.w.queued, k)
      && (k != R.Data ==>
            var t, delivered := Incoming(s, k).streams, Delivered(s, k);
            if Incoming(s, k).closeErr.None? then t.arrived == delivered
            else forall id :: id in delivered ==> id in t.released || id in t.errs || id in t.late)
  {
    if k != R.Data {
      AccountedNow(states, actions, i, k);
    }
    hide Next, Violates, W.Inv, Out.Inv, In.Inv, NoClose, ReadOk, KindOk, FC.WindowOk;
    RunKeeps(states, actions, i);
    StepKeeps(states[i], actions[i]);
    var s := states[i];
    assert KindAt(s, k);
    LimitBelow(s, k);
    PublishedFits(s.bidi);
    PublishedFits(s.uni);
  }

  lemma AccountedNow(states: seq<System>, actions: seq<Action>, i: nat, k: Kind)
    requires IsRun(states, actions) && i < |states| && k != R.Data
    ensures In.Accounted(Incoming(states[i], k), Delivered(states[i], k))
  {
    hide W.Inv, In.Inv, Out.Inv, NoClose, ReadOk, KindOk, FC.WindowOk, In.Accounted;
    RunKeeps(states, actions, i);
  }

  lemma PublishedFits(s: In.State)
    requires In.Inv(s)
    ensures s.pub.queued <= MAX_STREAMS_LIMIT
  {
  }

  /**
   And limits do arrive: while nothing was dropped and neither side closed, once nothing is in
   hand and everything queued was read, the limits in use are the last ones published.
   */
  lemma LimitsArrive(states: seq<System>, actions: seq<Action>, i: nat, k: Kind)
    requires IsRun(states, actions) && i < |states|
    requires Complete(states[i]) && k !in states[i].hand && states[i].read == |states[i].w.queued|
    ensures R.Current(states[i].r, k) == Published(states[i], k)
  {
    hide Inv, IsRun;
    RunKeeps(states, actions, i);
    AllRead(states[i], k);
  }

  lemma AllRead(s: System, k: Kind)
    requires Inv(s) && Complete(s) && k !in s.hand && s.read == |s.w.queued|
    ensures R.Current(s.r, k) == Published(s, k)
  {
    hide In.Accounted, W.Inv, In.Inv, Out.Inv, NoClose, FC.WindowOk;
    assert KindAt(s, k);
    EntryOrder(s.w);
    assert s.read > 0 ==> s.w.wire[s.read - 1].i == s.read - 1;
  }
}
