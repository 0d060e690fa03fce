/**
 Data credit over the whole way of its limits: the streams, writes and charges of two
 endpoints, with the receiver's WT_MAX_DATA limits going through its capsule queue, its
 writer, the bytes of the CONNECT stream and the sender's reading loop.
 */
module DataPath {
  import opened Common
  import C = Capsule
  import Config
  import D = DataCredit
  import FC = FlowControl
  import P = LimitPath
  import R = ConnectReader

  datatype System = System(path: P.System, held: nat, lost: nat, streams: seq<D.Stream>)

  /** The two controllers and the streams between them, without what is on its way. */
  function View(s: System): (d: D.System) {
    D.System(s.path.r.data, s.held, s.lost, s.streams, s.path.data, [], false)
  }

  datatype Action =
    | OnPath(path: P.Action)   // a step on a limit's way, or of the stream maps
    | OnData(data: D.Action)   // a step of a write, of a stream, or of a charge

  /** The step on the limit's way that a step on the data is, if any. */
  function PathStep(d: D.System, a: D.Action): (r: Option<P.Action>)
    requires D.Enabled(d, a)
  {
    match a
    case Grant(want) => Some(P.SendData(want))
    case Receive(k, DoCharge(i)) => Some(P.ReadData(d.streams[k].rx.charges[i]))
    case _ => None
  }

  predicate Enabled(s: System, a: Action) {
    match a
    case OnPath(p) => !p.ReadData? && !p.SendData? && P.Enabled(s.path, p)
    case OnData(d) =>
      && !d.Deliver? && !d.Lose? && D.Enabled(View(s), d)
      && (PathStep(View(s), d).Some? ==> P.Enabled(s.path, PathStep(View(s), d).value))
  }

  function Next(s: System, a: Action): (r: System)
    requires Enabled(s, a)
  {
    match a
    case OnPath(p) => s.(path := P.Next(s.path, p))
    case OnData(d) =>
      var t := D.Next(View(s), d);
      var step := PathStep(View(s), d);
      System(if step.Some? then P.Next(s.path, step.value) else s.path, t.held, t.lost, t.streams)
  }

  /** The step in which an endpoint would report that its peer broke flow control. */
  predicate Violates(s: System, a: Action)
    requires Enabled(s, a)
  {
    match a
    case OnPath(p) => P.Violates(s.path, p)
    case OnData(d) => D.Violates(View(s), d)
  }

  function Start(a: Config.Config, b: Config.Config, aSettings: Config.Settings, bSettings: Config.Settings): (s: System) {
    System(P.Start(a, b, aSettings, bSettings), 0, 0, [])
  }

  /** A run of a session whose endpoints agreed on flow control. */
  ghost predicate IsRun(states: seq<System>, actions: seq<Action>) {
    && |states| == |actions| + 1
    && (exists a, b, aSettings, bSettings ::
          Config.Negotiated(a, b, bSettings).enabled && states[0] == Start(a, b, aSettings, bSettings))
    && forall i :: 0 <= i < |actions| ==> Enabled(states[i], actions[i]) && states[i + 1] == Next(states[i], actions[i])
  }

  ghost predicate Inv(s: System) {
    P.Inv(s.path) && D.Inv(View(s))
  }

  /** Limits on their way leave the counts alone, and only raise the sender's limit. */
  lemma PathMoves(p: P.System, a: P.Action)
    requires P.Enabled(p, a) && !a.ReadData? && !a.SendData?
    ensures
      var r := P.Next(p, a);
      r.data == p.data && r.r.data.bytesSent == p.r.data.bytesSent && p.r.data.maxData <= r.r.data.maxData
  {
    match a
    case Take => ApplyMoves(p.r, C.ParseNext(p.unread).c);
    case _ =>
  }

  lemma ApplyMoves(r: R.State, c: C.Capsule)
    ensures
      var t := R.Apply(r, c).s;
      t.data.bytesSent == r.data.bytesSent && r.data.maxData <= t.data.maxData
  {
  }

  lemma BelowPublished(p: P.System)
    requires P.Inv(p)
    ensures p.r.data.maxData <= p.data.maxData
  {
    assert P.KindAt(p, R.Data);
    P.LimitBelow(p, R.Data);
  }

  /** The controllers' invariant speaks of their limits, whatever is on its way. */
  lemma OnItsWayForgotten(d: D.System, fc: FC.Outgoing)
    requires D.Inv(d) && fc.bytesSent == d.fc.bytesSent && d.fc.maxData <= fc.maxData <= d.inc.maxData
    ensures D.Inv(d.(fc := fc, capsules := [], lossless := false))
  {
    hide D.StreamsOk, FC.WindowOk;
  }

  lemma LimitsInOrder(d: D.System)
    requires D.Inv(d)
    ensures d.fc.maxData <= d.inc.maxData
  {
    hide D.StreamsOk, FC.WindowOk;
  }

  lemma OnPathKeeps(s: System, p: P.Action)
    requires Inv(s) && Enabled(s, OnPath(p))
    ensures Inv(Next(s, OnPath(p))) && !Violates(s, OnPath(p))
  {
    hide P.Inv, D.Inv, P.Next, P.Enabled, P.Violates;
    P.StepKeeps(s.path, p);
    PathMoves(s.path, p);
    var path := P.Next(s.path, p);
    BelowPublished(path);
    OnItsWayForgotten(View(s), path.r.data);
  }

  /** A step on the data does to both controllers what its step on the limit's way does. */
  lemma SameControllers(s: System, d: D.Action)
    requires Enabled(s, OnData(d))
    ensures
      var t, r := D.Next(View(s), d), Next(s, OnData(d));
      View(r) == t.(capsules := [], lossless := false)
  {
    match d
    case Receive(k, rx) =>
    case _ =>
  }

  lemma OnDataKeeps(s: System, d: D.Action)
    requires Inv(s) && Enabled(s, OnData(d))
    ensures Inv(Next(s, OnData(d))) && !Violates(s, OnData(d))
  {
    hide P.Inv, D.Inv, P.Next, P.Enabled, D.Next, D.Enabled;
    D.StepKeeps(View(s), d);
    if PathStep(View(s), d).Some? {
      P.StepKeeps(s.path, PathStep(View(s), d).value);
    }
    SameControllers(s, d);
    var t := D.Next(View(s), d);
    LimitsInOrder(t);
    OnItsWayForgotten(t, t.fc);
  }

  lemma StepKeeps(s: System, a: Action)
    requires Inv(s) && Enabled(s, a)
    ensures Inv(Next(s, a)) && !Violates(s, a)
  {
    hide Inv, Next, Violates;
    match a
    case OnPath(p) => OnPathKeeps(s, p);
    case OnData(d) => OnDataKeeps(s, d);
  }

  lemma StartOk(a: Config.Config, b: Config.Config, aSettings: Config.Settings, bSettings: Config.Settings)
    ensures Inv(Start(a, b, aSettings, bSettings))
  {
    hide P.Inv, Config.Negotiated;
    P.StartOk(a, b, aSettings, bSettings);
    P.StartLimits(a, b, aSettings, bSettings);
  }

  lemma {:induction false} RunKeeps(states: seq<System>, actions: seq<Action>, i: nat)
    requires IsRun(states, actions) && i < |states|
    ensures Inv(states[i])
  {
    hide Inv, Next, Enabled, Start;
    if i == 0 {
      var a, b, aSettings, bSettings :|
        Config.Negotiated(a, b, bSettings).enabled && states[0] == Start(a, b, aSettings, bSettings);
      StartOk(a, b, aSettings, bSettings);
    } else {
      RunKeeps(states, actions, i - 1);
      StepKeeps(states[i - 1], actions[i - 1]);
    }
  }

  /**
   For any two configurations that use flow control, and any interleaving of writing,
   reading, resetting and charging with the limits' way through queue, writer, bytes and
   reading loop: no charge exceeds the receiver's limit, no limit is found not to
   increase, no stream is too many, and payload sent, the sender's count, its limit and
   the receiver's are in this order.
   */
  lemma PeersAgreeOnData(states: seq<System>, actions: seq<Action>, i: nat)
    requires IsRun(states, actions) && i < |actions|
    ensures Enabled(states[i], actions[i]) && !Violates(states[i], actions[i])
    ensures
      var s := states[i];
      && Sum(D.Sent(s.streams)) <= s.path.r.data.bytesSent <= s.path.r.data.maxData <= s.path.data.maxData
      && s.path.data.bytesRead == Sum(D.Charged(s.streams)) <= Sum(D.Sent(s.streams))
  {
    hide Next, Enabled, Violates, P.Inv;
    RunKeeps(states, actions, i);
    StepKeeps(states[i], actions[i]);
    ChargedWithinSent(states[i].streams, View(states[i]));
  }

  lemma ChargedWithinSent(streams: seq<D.Stream>, d: D.System)
    requires D.Inv(d) && d.streams == streams
    ensures Sum(D.Sent(streams)) <= d.fc.bytesSent <= d.fc.maxData <= d.inc.maxData
    ensures d.inc.bytesRead == Sum(D.Charged(streams)) <= Sum(D.Sent(streams))
  {
    forall j | 0 <= j < |streams| ensures D.Charged(streams)[j] <= D.Sent(streams)[j] {
      assert D.StreamOk(streams[j]);
    }
    SumMonotone(D.Charged(streams), D.Sent(streams));
  }

  /**
   And the sender's limit becomes the receiver's: with nothing dropped or closed, nothing
   in hand and everything queued read, the sender has credit exactly if what only it
   counted is less than the receiver's credit left.
   */
  lemma CreditIff(states: seq<System>, actions: seq<Action>, i: nat)
    requires IsRun(states, actions) && i < |states|
    requires P.Complete(states[i].path) && R.Data !in states[i].path.hand && states[i].path.read == |states[i].path.w.queued|
    ensures
      var s := states[i];
      s.path.r.data.bytesSent < s.path.r.data.maxData <==>
        D.Uncounted(View(s)) < s.path.data.maxData - s.path.data.bytesRead
  {
    hide P.Inv;
    RunKeeps(states, actions, i);
    P.AllRead(states[i].path, R.Data);
    ChargedWithinSent(states[i].streams, View(states[i]));
  }
}
