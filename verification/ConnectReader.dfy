/**
 The CONNECT stream's reading side: every capsule is parsed and, with flow control,
 raises a limit; a close, a limit that does not increase, or the end of what can be
 parsed ends the loop and closes the session.
 */
module ConnectReader {
  import opened Common
  import C = Capsule
  import FC = FlowControl
  import Out = OutgoingStreams
  import OutMap = OutgoingStreamsMap
  import Stream = CapsuleStream
  import W = CapsuleWriter

  const H3_DATAGRAM_ERROR: nat := 0x33

  /** What the reader's capsules act on. */
  datatype State = State(flowControl: bool, bidi: Out.State, uni: Out.State, data: FC.Outgoing)

  datatype End = Unreadable | ClosedByPeer(code: nat, message: seq<Byte>) | LimitNotIncreased

  /** The error the session is closed with. */
  function CloseError(end: End): (err: Error) {
    match end
    case Unreadable => Http3Error(H3_DATAGRAM_ERROR)
    case ClosedByPeer(code, message) => SessionError(true, code, message)
    case LimitNotIncreased => Http3Error(WT_FLOW_CONTROL_ERROR)
  }

  datatype Read = Read(s: State, end: Option<End>)

  /** One turn of the loop. */
  function Apply(s: State, c: C.Capsule): (r: Read) {
    match c
    case CloseSession(code, message) => Read(s, Some(ClosedByPeer(code, message)))
    case MaxData(limit) =>
      if !s.flowControl then Read(s, None)
      else if FC.Increases(s.data, limit) then Read(s.(data := FC.AfterUpdate(s.data, limit)), None)
      else Read(s, Some(LimitNotIncreased))
    case MaxStreamsBidi(limit) =>
      if !s.flowControl then Read(s, None)
      else if Out.LimitAccepted(s.bidi, limit) then Read(s.(bidi := Out.UpdateStreamLimit(s.bidi, limit)), None)
      else Read(s, Some(LimitNotIncreased))
    case MaxStreamsUni(limit) =>
      if !s.flowControl then Read(s, None)
      else if Out.LimitAccepted(s.uni, limit) then Read(s.(uni := Out.UpdateStreamLimit(s.uni, limit)), None)
      else Read(s, Some(LimitNotIncreased))
    case _ => Read(s, None)
  }

  function ReadBytes(s: State, input: seq<Byte>): (r: (State, End))
    decreases |input|
  {
    match C.ParseNext(input)
    case Failure => (s, Unreadable)
    case Capsule(c, rest) =>
      var turn := Apply(s, c);
      if turn.end.Some? then (turn.s, turn.end.value) else ReadBytes(turn.s, rest)
  }

  function ReadCapsules(s: State, cs: seq<C.Capsule>): (r: Read)
    decreases |cs|
  {
    if cs == [] then Read(s, None)
    else
      var turn := Apply(s, cs[0]);
      if turn.end.Some? then turn else ReadCapsules(turn.s, cs[1..])
  }

  /** The switch of the loop, for any capsule but a close. */
  method Dispatch(c: C.Capsule, flowControl: bool, bidi: OutMap.StreamsMap, uni: OutMap.StreamsMap, fc: FC.OutgoingController)
    returns (ok: bool)
    requires bidi.Valid() && uni.Valid() && bidi != uni && !c.CloseSession?
    modifies bidi, uni, fc
    ensures bidi.Valid() && uni.Valid()
    ensures Read(State(flowControl, bidi.now, uni.now, fc.State()), if ok then None else Some(LimitNotIncreased))
      == Apply(old(State(flowControl, bidi.now, uni.now, fc.State())), c)
  {
    hide Out.Inv;
    ok := true;
    if !flowControl {
      return;
    }
    match c
    case MaxData(limit) => ok := fc.UpdateMaxData(limit);
    case MaxStreamsBidi(limit) => ok := bidi.UpdateStreamLimit(limit);
    case MaxStreamsUni(limit) => ok := uni.UpdateStreamLimit(limit);
    case _ =>
  }

  /** One turn of the loop; how it ends, if it does. */
  method ReadTurn(parser: C.Parser, flowControl: bool, bidi: OutMap.StreamsMap, uni: OutMap.StreamsMap, fc: FC.OutgoingController)
    returns (end: Option<End>)
    requires bidi.Valid() && uni.Valid() && bidi != uni
    modifies parser, bidi, uni, fc
    ensures bidi.Valid() && uni.Valid()
    ensures
      var s := State(flowControl, bidi.now, uni.now, fc.State());
      var before := ReadBytes(old(State(flowControl, bidi.now, uni.now, fc.State())), old(parser.input));
      match end
      case Some(e) => before == (s, e)
      case None => before == ReadBytes(s, parser.input) && |parser.input| < old(|parser.input|)
  {
    hide Out.Inv, C.ParseNext, Apply;
    var c := parser.ParseNextCapsule();
    if c.None? {
      return Some(Unreadable);
    }
    ApplyClose(State(flowControl, bidi.now, uni.now, fc.State()), c.value);
    if c.value.CloseSession? {
      return Some(ClosedByPeer(c.value.code, c.value.message));
    }
    var ok := Dispatch(c.value, flowControl, bidi, uni, fc);
    return if ok then None else Some(LimitNotIncreased);
  }

  lemma ApplyClose(s: State, c: C.Capsule)
    ensures c.CloseSession? ==> Apply(s, c) == Read(s, Some(ClosedByPeer(c.code, c.message)))
  {
  }

  /** readFromConnectStream. Without flow control `fc` stands for a controller that is never asked. */
  method ReadFromConnectStream(parser: C.Parser, flowControl: bool, bidi: OutMap.StreamsMap, uni: OutMap.StreamsMap, fc: FC.OutgoingController)
    returns (closeErr: Error, end: End)
    requires bidi.Valid() && uni.Valid() && bidi != uni
    modifies parser, bidi, uni, fc
    ensures bidi.Valid() && uni.Valid() && closeErr == CloseError(end)
    ensures end == Unreadable ==> closeErr == Http3Error(0x33)
    ensures end == LimitNotIncreased ==> closeErr == Http3Error(0x045d4487)
    ensures end.ClosedByPeer? ==> closeErr == SessionError(true, end.code, end.message)
    ensures (State(flowControl, bidi.now, uni.now, fc.State()), end)
      == ReadBytes(old(State(flowControl, bidi.now, uni.now, fc.State())), old(parser.input))
  {
    hide Out.Inv, ReadBytes;
    while true
      invariant bidi.Valid() && uni.Valid()
      invariant ReadBytes(State(flowControl, bidi.now, uni.now, fc.State()), parser.input)
        == ReadBytes(old(State(flowControl, bidi.now, uni.now, fc.State())), old(parser.input))
      decreases |parser.input|
    {
      var e := ReadTurn(parser, flowControl, bidi, uni, fc);
      if e.Some? {
        return CloseError(e.value), e.value;
      }
    }
  }

  // ---------- from bytes to limits ----------

  /** Reading the bytes is acting on the capsules in them, one by one. */
  lemma {:induction false} BytesAreCapsules(s: State, input: seq<Byte>)
    ensures
      var r := ReadCapsules(s, C.ParseAll(input));
      ReadBytes(s, input) == (r.s, if r.end.Some? then r.end.value else Unreadable)
    decreases |input|
  {
    hide C.ParseNext, Apply;
    match C.ParseNext(input)
    case Failure =>
    case Capsule(c, rest) =>
      assert C.ParseAll(input)[1..] == C.ParseAll(rest);
      BytesAreCapsules(Apply(s, c).s, rest);
  }

  datatype Kind = Data | Bidi | Uni

  function LimitOf(c: C.Capsule, k: Kind): (r: seq<int>) {
    if c.MaxData? && k == Data then [c.maxData]
    else if c.MaxStreamsBidi? && k == Bidi then [c.maxStreams]
    else if c.MaxStreamsUni? && k == Uni then [c.maxStreams]
    else []
  }

  /** The limits of one kind that the capsules carry, in order. */
  function LimitsOf(cs: seq<C.Capsule>, k: Kind): (r: seq<int>) {
    if cs == [] then [] else LimitOf(cs[0], k) + LimitsOf(cs[1..], k)
  }

  function Current(s: State, k: Kind): (r: int) {
    match k
    case Data => s.data.maxData
    case Bidi => s.bidi.max
    case Uni => s.uni.max
  }

  /** Each limit is above the one before it. */
  ghost predicate Climbs(from: int, limits: seq<int>) {
    StrictlyIncreasing([from] + limits)
  }

  function Last(from: int, limits: seq<int>): (r: int) {
    if limits == [] then from else limits[|limits| - 1]
  }

  /** Flow control is on, and both maps are open. */
  predicate Reading(s: State) {
    s.flowControl && s.bidi.closeErr.None? && s.uni.closeErr.None?
  }

  lemma ClimbsStep(from: int, x: int, rest: seq<int>)
    ensures Climbs(from, [x] + rest) <==> from < x && Climbs(x, rest)
    ensures Last(from, [x] + rest) == Last(x, rest)
  {
    var all := [from] + ([x] + rest);
    assert all[1..] == [x] + rest;
    if from < x && Climbs(x, rest) {
      forall i, j | 0 <= i < j < |all| ensures all[i] < all[j] {
        assert j > 1 ==> ([x] + rest)[0] < ([x] + rest)[j - 1];
        assert i > 0 ==> ([x] + rest)[i - 1] < ([x] + rest)[j - 1];
      }
    }
    if Climbs(from, [x] + rest) {
      assert all[0] < all[1];
      forall i, j | 0 <= i < j < |[x] + rest| ensures ([x] + rest)[i] < ([x] + rest)[j] {
        assert all[i + 1] < all[j + 1];
      }
    }
  }

  lemma ApplyOne(s: State, c: C.Capsule, k: Kind)
    requires Reading(s) && !c.CloseSession?
    ensures
      var r := Apply(s, c);
      && Reading(r.s)
      && (r.end.None? <==> forall j :: LimitOf(c, j) != [] ==> Current(s, j) < LimitOf(c, j)[0])
      && (r.end.None? ==> Current(r.s, k) == Last(Current(s, k), LimitOf(c, k)))
      && (r.end.Some? ==> r.end == Some(LimitNotIncreased))
  {
    hide Out.UpdateStreamLimit;
    RaisesLimit(s.bidi, if c.MaxStreamsBidi? then c.maxStreams else 0);
    RaisesLimit(s.uni, if c.MaxStreamsUni? then c.maxStreams else 0);
    assert LimitOf(c, Data) == if c.MaxData? then [c.maxData] else [];
    assert LimitOf(c, Bidi) == if c.MaxStreamsBidi? then [c.maxStreams] else [];
    assert LimitOf(c, Uni) == if c.MaxStreamsUni? then [c.maxStreams] else [];
  }

  lemma RaisesLimit(s: Out.State, limit: nat)
    requires s.closeErr.None?
    ensures Out.UpdateStreamLimit(s, limit).closeErr.None?
    ensures Out.LimitAccepted(s, limit) ==> Out.UpdateStreamLimit(s, limit).max == limit
  {
  }

  /**
   Capsules without a close are read to their end exactly if the limits of each kind
   climb from the current one; the current limits are then the last of each kind.
   */
  lemma {:induction false} ReadIffClimbing(s: State, cs: seq<C.Capsule>)
    requires Reading(s) && forall i :: 0 <= i < |cs| ==> !cs[i].CloseSession?
    ensures
      var r := ReadCapsules(s, cs);
      && (r.end.None? <==> forall k :: Climbs(Current(s, k), LimitsOf(cs, k)))
      && (r.end.None? ==> forall k :: Current(r.s, k) == Last(Current(s, k), LimitsOf(cs, k)))
      && (r.end.Some? ==> r.end == Some(LimitNotIncreased))
    decreases |cs|
  {
    if cs != [] {
      var turn, rest := Apply(s, cs[0]), cs[1..];
      forall k
        ensures Climbs(Current(s, k), LimitsOf(cs, k)) <==>
          (LimitOf(cs[0], k) != [] ==> Current(s, k) < LimitOf(cs[0], k)[0])
          && Climbs(Last(Current(s, k), LimitOf(cs[0], k)), LimitsOf(rest, k))
        ensures Last(Current(s, k), LimitsOf(cs, k)) == Last(Last(Current(s, k), LimitOf(cs[0], k)), LimitsOf(rest, k))
        ensures turn.end.None? ==> Current(turn.s, k) == Last(Current(s, k), LimitOf(cs[0], k))
      {
        FirstClimbs(Current(s, k), cs, k);
        ApplyOne(s, cs[0], k);
      }
      ApplyOne(s, cs[0], Data);
      hide Apply, Climbs, Last, LimitOf, LimitsOf;
      if turn.end.None? {
        ReadIffClimbing(turn.s, rest);
      }
    }
  }

  lemma FirstClimbs(from: int, cs: seq<C.Capsule>, k: Kind)
    requires cs != []
    ensures Climbs(from, LimitsOf(cs, k)) <==>
      (LimitOf(cs[0], k) != [] ==> from < LimitOf(cs[0], k)[0])
      && Climbs(Last(from, LimitOf(cs[0], k)), LimitsOf(cs[1..], k))
    ensures Last(from, LimitsOf(cs, k)) == Last(Last(from, LimitOf(cs[0], k)), LimitsOf(cs[1..], k))
  {
    var limit, rest := LimitOf(cs[0], k), LimitsOf(cs[1..], k);
    if limit == [] {
      assert limit + rest == rest;
    } else {
      assert limit == [limit[0]];
      ClimbsStep(from, limit[0], rest);
    }
  }

  lemma {:induction false} LimitsOfConcat(a: seq<C.Capsule>, b: seq<C.Capsule>, k: Kind)
    ensures LimitsOf(a + b, k) == LimitsOf(a, k) + LimitsOf(b, k)
    decreases |a|
  {
    if a == [] {
      assert a + b == b;
    } else {
      assert (a + b)[1..] == a[1..] + b;
      LimitsOfConcat(a[1..], b, k);
    }
  }

  lemma PrefixClimbs(from: int, cs: seq<C.Capsule>, all: seq<C.Capsule>, k: Kind)
    requires cs <= all && Climbs(from, LimitsOf(all, k))
    ensures Climbs(from, LimitsOf(cs, k))
  {
    assert all == cs + all[|cs|..];
    LimitsOfConcat(cs, all[|cs|..], k);
    var some, more := [from] + LimitsOf(cs, k), [from] + LimitsOf(all, k);
    assert forall i :: 0 <= i < |some| ==> some[i] == more[i];
  }

  /**
   From one endpoint's queue to the other's limits: whatever is on the stream in any
   state of any run of the writing side before a close, if the limits it queued climb
   from the reader's, the reader finds nothing wrong and ends with the last limit of
   each kind among the capsules that arrived, which are a prefix of those queued.
   */
  lemma QueuedLimitsArrive(states: seq<W.State>, actions: seq<W.Action>, i: nat, s: State)
    requires W.IsRun(states, actions) && i < |states| && !W.Cleared(states[i].closer) && Reading(s)
    requires forall j :: 0 <= j < |states[i].queued| ==> !states[i].queued[j].CloseSession?
    requires forall k :: Climbs(Current(s, k), LimitsOf(Stream.AsSentAll(states[i].queued), k))
    ensures
      var w := states[i];
      var arrived := Stream.Received(w.queued, w.wire);
      var (r, end) := ReadBytes(s, Stream.Bytes(w.queued, w.wire));
      && arrived <= Stream.AsSentAll(w.queued)
      && end == Unreadable
      && forall k :: Current(r, k) == Last(Current(s, k), LimitsOf(arrived, k))
  {
    var w := states[i];
    var arrived, all := Stream.Received(w.queued, w.wire), Stream.AsSentAll(w.queued);
    Stream.PeerReadsWhatWasQueued(states, actions, i);
    hide W.IsRun, Stream.Received, Stream.Bytes, C.ParseAll, ReadBytes, ReadCapsules, Climbs, LimitsOf;
    BytesAreCapsules(s, Stream.Bytes(w.queued, w.wire));
    forall k ensures Climbs(Current(s, k), LimitsOf(arrived, k)) {
      PrefixClimbs(Current(s, k), arrived, all, k);
    }
    forall j | 0 <= j < |arrived| ensures !arrived[j].CloseSession? {
      assert arrived[j] == all[j] == C.AsSent(w.queued[j]);
    }
    ReadIffClimbing(s, arrived);
  }
}
