/**
 Data credit between two endpoints that both run this code: one endpoint's credit to
 send, the streams it writes, the other's accounting of what arrives on them, and
 the WT_MAX_DATA capsules on their way back.
 */
module DataCredit {
  import opened Common
  import Config
  import FC = FlowControl
  import RS = ReceiveStream
  import StreamHeader
  import Varint

  /** One direction of a stream. */
  datatype Stream = Stream(
    header: seq<Byte>,       // what the sender writes before the payload
    sent: nat,               // payload bytes handed to QUIC
    finished: bool,          // the sender has finished or reset it: its final size is fixed
    rx: RS.State
  )

  datatype System = System(
    fc: FC.Outgoing,         // the sender's controller
    held: nat,               // bytes granted to writes in progress and not handed to QUIC yet
    lost: nat,               // bytes granted to writes that failed before handing them over
    streams: seq<Stream>,
    inc: FC.Incoming,        // the receiver's controller
    capsules: seq<int>,      // WT_MAX_DATA limits queued or on the wire, in order
    lossless: bool           // no capsule was dropped by a closing session
  )

  datatype Action =
    | OpenStream(streamType: nat, sessionID: Varint.VarInt)
    | OpenReply                                // the sending half of a stream that the peer opened
    | Grant(want: nat)                         // AddBytesSent
    | Send(k: nat, n: nat)
    | Abandon(n: nat)                          // a write fails: what is left of its grant is not given back
    | Finish(k: nat)
    | Receive(k: nat, rx: RS.Action)
    | Deliver                                  // a capsule reaches the sender
    | Lose                                     // a closing session drops its last queued capsule

  function Size(t: Stream): (r: nat) {
    |t.header| + t.sent
  }

  /**
   QUIC hands out no byte that was not sent. It learns the final size once the stream
   was finished or reset; a reset leaves out bytes that were not on the wire yet.
   */
  predicate Enabled(s: System, a: Action) {
    match a
    case OpenStream(streamType, sessionID) =>
      (streamType == StreamHeader.FRAME_TYPE || streamType == StreamHeader.UNI_STREAM_TYPE) && sessionID % 4 == 0
    case OpenReply => true
    case Grant(_) => true
    case Send(k, n) => k < |s.streams| && !s.streams[k].finished && n <= s.held
    case Abandon(n) => n <= s.held
    case Finish(k) => k < |s.streams|
    case Receive(k, rx) =>
      && k < |s.streams| && RS.Enabled(s.streams[k].rx, rx)
      && (rx.DoConsume? ==> s.streams[k].rx.consumed + rx.n <= Size(s.streams[k]))
      && (rx.DoFinalSize? ==> s.streams[k].finished && rx.size <= Size(s.streams[k]))
    case Deliver => s.capsules != []
    case Lose => s.capsules != []
  }

  /** The header length the receiver finds when it reads the stream's beginning. */
  function Measured(header: seq<Byte>, streamType: nat): (r: nat) {
    match StreamHeader.ParseHeader(header, streamType)
    case ToSession(_, n) => n
    case _ => 0
  }

  function Put(s: System, k: nat, t: Stream): (r: System)
    requires k < |s.streams|
  {
    s.(streams := s.streams[k := t])
  }

  /** AddBytesRead at the receiver; a new limit is queued as a capsule. */
  function ChargeSession(s: System, n: nat): (r: System) {
    var inc := FC.AfterBytesRead(s.inc, n);
    s.(inc := inc, capsules := if inc.updates == s.inc.updates then s.capsules else s.capsules + [inc.maxData])
  }

  function Next(s: System, a: Action): (r: System)
    requires Enabled(s, a)
  {
    match a
    case OpenStream(streamType, sessionID) =>
      var header := StreamHeader.Header(streamType, sessionID);
      s.(streams := s.streams + [Stream(header, 0, false, RS.Init(Measured(header, streamType)))])
    case OpenReply => s.(streams := s.streams + [Stream([], 0, false, RS.Init(0))])
    case Grant(want) => s.(fc := FC.AfterBytesSent(s.fc, want), held := s.held + FC.Granted(s.fc, want))
    case Send(k, n) => Put(s, k, s.streams[k].(sent := s.streams[k].sent + n)).(held := s.held - n)
    case Abandon(n) => s.(held := s.held - n, lost := s.lost + n)
    case Finish(k) => Put(s, k, s.streams[k].(finished := true))
    case Receive(k, rx) =>
      var t := Put(s, k, s.streams[k].(rx := RS.Next(s.streams[k].rx, rx)));
      if rx.DoCharge? then ChargeSession(t, s.streams[k].rx.charges[rx.i]) else t
    case Deliver => s.(fc := FC.AfterUpdate(s.fc, s.capsules[0]), capsules := s.capsules[1..])
    case Lose => s.(capsules := s.capsules[..|s.capsules| - 1], lossless := false)
  }

  /** The step in which an endpoint would report that its peer broke flow control. */
  predicate Violates(s: System, a: Action)
    requires Enabled(s, a)
  {
    match a
    case Receive(k, DoCharge(i)) => !FC.Accepts(s.inc, s.streams[k].rx.charges[i])
    case Deliver => !FC.Increases(s.fc, s.capsules[0])
    case _ => false
  }

  function Start(a: Config.Config, b: Config.Config, aSettings: Config.Settings, bSettings: Config.Settings): (s: System) {
    System(FC.NewOutgoing(Config.Negotiated(a, b, bSettings).maxOutgoingData), 0, 0, [],
           FC.NewIncoming(0, Config.Negotiated(b, a, aSettings).maxIncomingData), [], true)
  }

  /** A run of a session whose endpoints agreed on flow control. */
  ghost predicate IsRun(states: seq<System>, actions: seq<Action>) {
    && |states| == |actions| + 1
    && (exists a, b, aSettings, bSettings ::
          Config.Negotiated(a, b, bSettings).enabled && states[0] == Start(a, b, aSettings, bSettings))
    && forall i :: 0 <= i < |actions| ==> Enabled(states[i], actions[i]) && states[i + 1] == Next(states[i], actions[i])
  }

  // ---------- invariant ----------

  /** What the receiver accounts for on a stream was sent on it, and its header is the sender's. */
  ghost predicate StreamOk(t: Stream) {
    && RS.Inv(t.rx)
    && t.rx.header == |t.header|
    && t.rx.consumed <= Size(t)
    && t.rx.bytesRead <= Size(t)
    && (t.rx.finalSizeKnown ==> t.finished)
  }

  ghost predicate StreamsOk(streams: seq<Stream>) {
    forall k :: 0 <= k < |streams| ==> StreamOk(streams[k])
  }

  ghost function Sent(streams: seq<Stream>): seq<nat> {
    seq(|streams|, k requires 0 <= k < |streams| => streams[k].sent)
  }

  ghost function Charged(streams: seq<Stream>): seq<nat> {
    seq(|streams|, k requires 0 <= k < |streams| => streams[k].rx.charged)
  }

  ghost predicate SentOk(fc: FC.Outgoing, unsent: nat, streams: seq<Stream>) {
    Sum(Sent(streams)) + unsent == fc.bytesSent <= fc.maxData
  }

  ghost predicate LimitsOk(fc: FC.Outgoing, capsules: seq<int>, inc: FC.Incoming, lossless: bool) {
    && Ascending(fc.maxData, capsules, inc.maxData)
    && (lossless ==> inc.maxData == if capsules == [] then fc.maxData else capsules[|capsules| - 1])
  }

  ghost predicate Inv(s: System) {
    && StreamsOk(s.streams)
    && SentOk(s.fc, s.held + s.lost, s.streams)
    && s.inc.bytesRead == Sum(Charged(s.streams))
    && FC.WindowOk(s.inc)
    && LimitsOk(s.fc, s.capsules, s.inc, s.lossless)
  }

  // ---------- preservation ----------

  lemma SumsUpdate(streams: seq<Stream>, k: nat, t: Stream)
    requires k < |streams|
    ensures Sum(Sent(streams[k := t])) == Sum(Sent(streams)) - streams[k].sent + t.sent
    ensures Sum(Charged(streams[k := t])) == Sum(Charged(streams)) - streams[k].rx.charged + t.rx.charged
  {
    SumUpdate(Sent(streams), k, t.sent);
    SumUpdate(Charged(streams), k, t.rx.charged);
    assert Sent(streams[k := t]) == Sent(streams)[k := t.sent];
    assert Charged(streams[k := t]) == Charged(streams)[k := t.rx.charged];
  }

  lemma SumsAppend(streams: seq<Stream>, t: Stream)
    requires t.sent == 0 && t.rx.charged == 0
    ensures Sum(Sent(streams + [t])) == Sum(Sent(streams)) && Sum(Charged(streams + [t])) == Sum(Charged(streams))
  {
    SumAppend(Sent(streams), 0);
    SumAppend(Charged(streams), 0);
    assert Sent(streams + [t]) == Sent(streams) + [0];
    assert Charged(streams + [t]) == Charged(streams) + [0];
  }

  lemma MeasuredIsSent(streamType: nat, sessionID: Varint.VarInt)
    requires (streamType == StreamHeader.FRAME_TYPE || streamType == StreamHeader.UNI_STREAM_TYPE) && sessionID % 4 == 0
    ensures
      var header := StreamHeader.Header(streamType, sessionID);
      Measured(header, streamType) == |header|
  {
    hide StreamHeader.ParseHeader, StreamHeader.Header;
    StreamHeader.HeaderReadBack(streamType, sessionID, []);
    var header := StreamHeader.Header(streamType, sessionID);
    assert header + [] == header;
  }

  lemma NewStreamOk(streamType: nat, sessionID: Varint.VarInt)
    requires (streamType == StreamHeader.FRAME_TYPE || streamType == StreamHeader.UNI_STREAM_TYPE) && sessionID % 4 == 0
    ensures
      var header := StreamHeader.Header(streamType, sessionID);
      StreamOk(Stream(header, 0, false, RS.Init(Measured(header, streamType))))
  {
    MeasuredIsSent(streamType, sessionID);
    hide Measured, StreamHeader.Header;
  }

  lemma ReplyOk()
    ensures StreamOk(Stream([], 0, false, RS.Init(0)))
  {
  }

  lemma OpenKeeps(s: System, a: Action)
    requires Inv(s) && Enabled(s, a) && (a.OpenStream? || a.OpenReply?)
    ensures Inv(Next(s, a))
  {
    hide FC.WindowOk, LimitsOk, Measured, StreamHeader.Header, StreamOk;
    if a.OpenStream? {
      NewStreamOk(a.streamType, a.sessionID);
    } else {
      ReplyOk();
    }
    SumsAppend(s.streams, Next(s, a).streams[|s.streams|]);
  }

  /** A charge that is due was covered by what was sent, and so by the credit the receiver gave. */
  lemma ChargeFits(s: System, k: nat, i: nat)
    requires Inv(s) && k < |s.streams| && i < |s.streams[k].rx.charges|
    ensures FC.Accepts(s.inc, s.streams[k].rx.charges[i])
  {
    var rx := s.streams[k].rx;
    assert StreamOk(s.streams[k]);
    SumDrop(rx.charges, i);
    var due := Charged(s.streams)[k := rx.charged + rx.charges[i]];
    forall j | 0 <= j < |due| ensures due[j] <= Sent(s.streams)[j] {
      assert StreamOk(s.streams[j]);
    }
    SumUpdate(Charged(s.streams), k, rx.charged + rx.charges[i]);
    SumMonotone(due, Sent(s.streams));
  }

  lemma ReceiveKeepsStream(t: Stream, rx: RS.Action)
    requires StreamOk(t) && RS.Enabled(t.rx, rx)
    requires rx.DoConsume? ==> t.rx.consumed + rx.n <= Size(t)
    requires rx.DoFinalSize? ==> t.finished && rx.size <= Size(t)
    ensures StreamOk(t.(rx := RS.Next(t.rx, rx)))
    ensures RS.Next(t.rx, rx).charged == t.rx.charged + if rx.DoCharge? then t.rx.charges[rx.i] else 0
  {
    RS.StepKeeps(t.rx, rx);
    if rx.DoAccount? {
      SumDrop(t.rx.inRead, rx.i);
    }
  }

  lemma LimitsCharged(s: System, n: nat)
    requires LimitsOk(s.fc, s.capsules, s.inc, s.lossless) && FC.WindowOk(s.inc)
    ensures
      var r := ChargeSession(s, n);
      LimitsOk(r.fc, r.capsules, r.inc, r.lossless) && FC.WindowOk(r.inc)
  {
    FC.WindowKept(s.inc, n);
    hide FC.WindowOk, FC.AfterBytesRead;
    var inc := FC.AfterBytesRead(s.inc, n);
    if inc.updates != s.inc.updates {
      AscendingGrows(s.fc.maxData, s.capsules, s.inc.maxData, inc.maxData);
    }
  }

  lemma ReceiveKeeps(s: System, k: nat, rx: RS.Action)
    requires Inv(s) && Enabled(s, Receive(k, rx))
    ensures Inv(Next(s, Receive(k, rx))) && !Violates(s, Receive(k, rx))
  {
    hide StreamOk, FC.WindowOk, LimitsOk, RS.Next, Ascending;
    var t := s.streams[k];
    assert StreamOk(t);
    ReceiveKeepsStream(t, rx);
    if rx.DoCharge? {
      ChargeFits(s, k, rx.i);
    }
    var t' := t.(rx := RS.Next(t.rx, rx));
    SumsUpdate(s.streams, k, t');
    if rx.DoCharge? {
      LimitsCharged(Put(s, k, t'), t.rx.charges[rx.i]);
    }
  }

  lemma SendKeeps(s: System, a: Action)
    requires Inv(s) && Enabled(s, a) && (a.Send? || a.Finish?)
    ensures Inv(Next(s, a))
  {
    var r := Next(s, a);
    assert StreamOk(s.streams[a.k]);
    assert StreamOk(r.streams[a.k]);
    hide StreamOk, FC.WindowOk, LimitsOk;
    SumsUpdate(s.streams, a.k, r.streams[a.k]);
  }

  lemma CapsuleKeeps(s: System, a: Action)
    requires Inv(s) && Enabled(s, a) && (a.Deliver? || a.Lose?)
    ensures Inv(Next(s, a)) && !Violates(s, a)
  {
    AscendingShrinks(s.fc.maxData, s.capsules, s.inc.maxData);
    hide StreamsOk, FC.WindowOk, Ascending;
  }

  lemma StepKeeps(s: System, a: Action)
    requires Inv(s) && Enabled(s, a)
    ensures Inv(Next(s, a)) && !Violates(s, a)
  {
    match a
    case OpenStream(_, _) => OpenKeeps(s, a);
    case OpenReply => OpenKeeps(s, a);
    case Grant(want) => FC.GrantWithinLimit(s.fc, want);
    case Send(_, _) => SendKeeps(s, a);
    case Abandon(_) =>
    case Finish(_) => SendKeeps(s, a);
    case Receive(k, rx) => ReceiveKeeps(s, k, rx);
    case Deliver => CapsuleKeeps(s, a);
    case Lose => CapsuleKeeps(s, a);
  }

  lemma {:induction false} RunKeeps(states: seq<System>, actions: seq<Action>, i: nat)
    requires IsRun(states, actions) && i < |states|
    ensures Inv(states[i])
  {
    if i == 0 {
      var a, b, aSettings, bSettings :|
        Config.Negotiated(a, b, bSettings).enabled && states[0] == Start(a, b, aSettings, bSettings);
      Config.EndpointsAgree(a, b, aSettings, bSettings);
    } else {
      RunKeeps(states, actions, i - 1);
      StepKeeps(states[i - 1], actions[i - 1]);
    }
  }

  /**
   For any two configurations that use flow control and any interleaving of writing,
   reading, final sizes, charging and capsule delivery: payload sent is within the
   sender's count, that within its limit, and that within the receiver's, so that
   neither endpoint ever reports a violation. Headers count on neither side.
   */
  lemma PeersRespectDataLimits(states: seq<System>, actions: seq<Action>, i: nat)
    requires IsRun(states, actions) && i < |actions|
    ensures Enabled(states[i], actions[i]) && !Violates(states[i], actions[i])
    ensures
      var s := states[i];
      && Sum(Sent(s.streams)) <= s.fc.bytesSent <= s.fc.maxData <= s.inc.maxData
      && s.inc.bytesRead == Sum(Charged(s.streams)) <= Sum(Sent(s.streams))
      && forall k :: 0 <= k < |s.streams| ==> s.streams[k].rx.header == |s.streams[k].header|
  {
    RunKeeps(states, actions, i);
    StepKeeps(states[i], actions[i]);
    var s := states[i];
    forall j | 0 <= j < |s.streams| ensures Charged(s.streams)[j] <= Sent(s.streams)[j] && s.streams[j].rx.header == |s.streams[j].header| {
      assert StreamOk(s.streams[j]);
    }
    SumMonotone(Charged(s.streams), Sent(s.streams));
  }

  /**
   The limits under way fit into varints as long as the bytes read and the window
   together do; no limit is ever above that sum.
   */
  lemma LimitsFit(states: seq<System>, actions: seq<Action>, i: nat)
    requires IsRun(states, actions) && i < |states|
    ensures
      var s := states[i];
      && (forall l :: l in s.capsules ==> s.fc.maxData < l <= s.inc.bytesRead + s.inc.receiveWindow)
      && s.fc.maxData <= s.inc.bytesRead + s.inc.receiveWindow
      && (s.inc.bytesRead + s.inc.receiveWindow <= VARINT_MAX ==>
            s.fc.maxData <= VARINT_MAX && forall l :: l in s.capsules ==> l <= VARINT_MAX)
  {
    RunKeeps(states, actions, i);
  }

  /** What each step counts, and where. */
  lemma StepCounts(states: seq<System>, actions: seq<Action>, i: nat)
    requires IsRun(states, actions) && i < |actions|
    ensures
      var s, r := states[i], states[i + 1];
      match actions[i]
      case OpenStream(streamType, sessionID) =>
        && |r.streams| == |s.streams| + 1 && r.streams[|s.streams|].header == StreamHeader.Header(streamType, sessionID)
        && r.streams[|s.streams|].sent == 0
      case OpenReply => |r.streams| == |s.streams| + 1 && r.streams[|s.streams|].header == [] && r.streams[|s.streams|].sent == 0
      case Grant(want) =>
        var granted := Min(want, s.fc.maxData - s.fc.bytesSent);
        r.fc.bytesSent == s.fc.bytesSent + granted && r.held == s.held + granted
      case Send(k, n) => r.streams[k].sent == s.streams[k].sent + n && r.held == s.held - n
      case Abandon(n) => r.lost == s.lost + n && r.held == s.held - n
      case Finish(k) => r.streams[k].finished
      case Receive(k, DoConsume(n)) => r.streams[k].rx.consumed == s.streams[k].rx.consumed + n
      case Receive(k, DoFinalSize(size)) => r.streams[k].rx.finalSizeKnown && r.streams[k].rx.bytesRead == size
      case Receive(k, DoCharge(j)) => r.inc.bytesRead == s.inc.bytesRead + s.streams[k].rx.charges[j]
      case Deliver => r.fc.maxData == s.capsules[0] && r.capsules == s.capsules[1..]
      case _ => true
  {
    hide Inv, Measured, StreamHeader.Header;
    RunKeeps(states, actions, i);
    StepKeeps(states[i], actions[i]);
    SentWithinLimit(states[i]);
    assert states[i + 1] == Next(states[i], actions[i]);
  }

  lemma SentWithinLimit(s: System)
    requires Inv(s)
    ensures s.fc.bytesSent <= s.fc.maxData
  {
    hide StreamsOk, FC.WindowOk, LimitsOk;
  }

  // ---------- when the sender has credit ----------

  /** Bytes counted by the sender that the receiver has not counted. */
  ghost function Uncounted(s: System): int {
    s.held + s.lost + Sum(Sent(s.streams)) - Sum(Charged(s.streams))
  }

  /**
   With no capsule dropped or under way, the sender has credit exactly if what it counted
   and the receiver did not is less than the credit the receiver has left.
   */
  lemma CreditIff(states: seq<System>, actions: seq<Action>, i: nat)
    requires IsRun(states, actions) && i < |states| && states[i].lossless && states[i].capsules == []
    ensures
      var s := states[i];
      s.fc.bytesSent < s.fc.maxData <==> Uncounted(s) < s.inc.maxData - s.inc.bytesRead
  {
    RunKeeps(states, actions, i);
  }

  /** Bytes handed to QUIC that a reset kept from being sent. */
  ghost function Discarded(streams: seq<Stream>): seq<nat>
    requires StreamsOk(streams)
  {
    seq(|streams|, k requires 0 <= k < |streams| => assert StreamOk(streams[k]); Size(streams[k]) - streams[k].rx.bytesRead)
  }

  /** Everything that arrives on the stream was counted. */
  ghost predicate Settled(t: Stream) {
    t.rx.charges == [] && (t.rx.finalSizeKnown || t.rx.bytesRead == Size(t))
  }

  /** No write in progress, everything counted, all capsules delivered. */
  ghost predicate AtRest(s: System) {
    s.held == 0 && s.capsules == [] && forall k :: 0 <= k < |s.streams| ==> Settled(s.streams[k])
  }

  lemma {:induction false} DiscardedIsUncounted(streams: seq<Stream>)
    requires StreamsOk(streams) && forall k :: 0 <= k < |streams| ==> Settled(streams[k])
    ensures Sum(Sent(streams)) == Sum(Charged(streams)) + Sum(Discarded(streams))
  {
    if streams != [] {
      var last := |streams| - 1;
      var front, t := streams[..last], streams[last];
      assert StreamOk(t) && Settled(t);
      DiscardedIsUncounted(front);
      assert Sent(streams) == Sent(front) + [t.sent];
      assert Charged(streams) == Charged(front) + [t.rx.charged];
      assert Discarded(streams) == Discarded(front) + [Size(t) - t.rx.bytesRead];
      SumAppend(Sent(front), t.sent);
      SumAppend(Charged(front), t.rx.charged);
      SumAppend(Discarded(front), Size(t) - t.rx.bytesRead);
    }
  }

  /**
   At rest, the sender has credit exactly if what failed writes and resets lost is less
   than the credit the receiver has left: surely if it is less than three quarters of the
   window, and never once it is all of the window.
   */
  lemma CreditAtRest(states: seq<System>, actions: seq<Action>, i: nat)
    requires IsRun(states, actions) && i < |states| && states[i].lossless && AtRest(states[i])
    ensures
      var s := states[i];
      && StreamsOk(s.streams)
      && var gone := s.lost + Sum(Discarded(s.streams));
         var window := s.inc.receiveWindow;
         && (s.fc.bytesSent < s.fc.maxData <==> gone < s.inc.maxData - s.inc.bytesRead)
         && (gone < window - window / 4 ==> s.fc.bytesSent < s.fc.maxData)
         && (s.fc.bytesSent < s.fc.maxData ==> gone < window)
  {
    RunKeeps(states, actions, i);
    CreditIff(states, actions, i);
    DiscardedIsUncounted(states[i].streams);
  }

  /**
   The window keeps moving: once everything the sender counted has been read and every
   capsule delivered, the sender has credit, unless the receiver's window is zero.
   */
  lemma SenderHasCredit(states: seq<System>, actions: seq<Action>, i: nat)
    requires IsRun(states, actions) && i < |states|
    ensures
      var s := states[i];
      s.lossless && s.capsules == [] && s.inc.bytesRead == s.fc.bytesSent && s.inc.receiveWindow > 0 ==>
        s.fc.bytesSent < s.fc.maxData
  {
    RunKeeps(states, actions, i);
    if states[i].lossless && states[i].capsules == [] {
      CreditIff(states, actions, i);
    }
  }

  ghost predicate Starved(s: System) {
    AtRest(s) && s.fc.bytesSent == s.fc.maxData
  }

  lemma SettledStays(t: Stream, rx: RS.Action)
    requires StreamOk(t) && Settled(t) && RS.Enabled(t.rx, rx) && (rx.DoFinalSize? ==> rx.size <= Size(t))
    ensures Settled(t.(rx := RS.Next(t.rx, rx))) && !rx.DoCharge?
  {
    if rx.DoAccount? {
      SumDrop(t.rx.inRead, rx.i);
    }
  }

  lemma StarvedStays(s: System, a: Action)
    requires Inv(s) && Enabled(s, a) && Starved(s)
    ensures Starved(Next(s, a)) && Sum(Sent(Next(s, a).streams)) == Sum(Sent(s.streams))
  {
    hide FC.WindowOk, LimitsOk, RS.Inv;
    match a
    case OpenStream(streamType, sessionID) =>
      MeasuredIsSent(streamType, sessionID);
      hide Measured, StreamHeader.Header;
      SumsAppend(s.streams, Next(s, a).streams[|s.streams|]);
    case OpenReply => SumsAppend(s.streams, Next(s, a).streams[|s.streams|]);
    case Receive(k, rx) =>
      assert StreamOk(s.streams[k]);
      SettledStays(s.streams[k], rx);
      SumsUpdate(s.streams, k, Next(s, a).streams[k]);
    case Send(k, _) => SumsUpdate(s.streams, k, Next(s, a).streams[k]);
    case Finish(k) => SumsUpdate(s.streams, k, Next(s, a).streams[k]);
    case _ =>
  }

  /** Nothing gives lost credit back: a sender starved at rest stays so, and sends no byte any more. */
  lemma {:induction false} StarvedForever(states: seq<System>, actions: seq<Action>, i: nat, j: nat)
    requires IsRun(states, actions) && i <= j < |states| && Starved(states[i])
    ensures Starved(states[j]) && Sum(Sent(states[j].streams)) == Sum(Sent(states[i].streams))
  {
    hide Next, Starved;
    if i < j {
      StarvedForever(states, actions, i, j - 1);
      RunKeeps(states, actions, j - 1);
      StarvedStays(states[j - 1], actions[j - 1]);
    }
  }

  /** A run that starves the sender: with a window of eight bytes, one failed write that was granted all of them. */
  lemma FailedWriteStarves() returns (states: seq<System>, actions: seq<Action>)
    ensures IsRun(states, actions)
    ensures
      var s := states[|states| - 1];
      Starved(s) && s.lossless && s.inc.receiveWindow == 8 && s.streams == [] && s.lost == 8
  {
    var c := Config.Config(0, 0, 8);
    var fc := Config.Negotiated(c, c, map[]);
    Config.EndpointsAgree(c, c, map[], map[]);
    Config.SettingsReadBack(c, map[]);
    assert fc.enabled && fc.maxOutgoingData == 8 && fc.maxIncomingData == 8;
    var s0 := Start(c, c, map[], map[]);
    var s1 := Next(s0, Grant(8));
    var s2 := Next(s1, Abandon(8));
    states, actions := [s0, s1, s2], [Grant(8), Abandon(8)];
  }
}
