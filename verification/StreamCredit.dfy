/**
 Stream credit between two endpoints that both run this code: one endpoint's
 outgoing map, the other's incoming map, the WT_MAX_STREAMS capsules under way to
 the first, and the streams under way to the second.
 */
module StreamCredit {
  import opened Common
  import Config
  import Out = OutgoingStreams
  import In = IncomingStreams

  datatype System = System(
    sender: Out.State,
    receiver: In.State,
    capsules: seq<nat>,        // WT_MAX_STREAMS limits queued or on the wire, in order
    delivered: set<StreamId>   // streams handed to the receiver's AddStream
  )

  datatype Action =
    | SenderStep(out: Out.Action)
    | ReceiverStep(inc: In.Action)
    | Arrive(id: StreamId)     // a stream reaches the receiver
    | Deliver                  // the next capsule reaches the sender
    | Lose                     // a session that closes drops its last queued capsule

  predicate Enabled(s: System, a: Action) {
    match a
    case SenderStep(out) => !out.DoUpdate? && Out.Enabled(s.sender, out)
    case ReceiverStep(inc) => !inc.DoAdd? && In.Enabled(s.receiver, inc)
    case Arrive(id) => id in s.sender.streams.created && id !in s.delivered
    case Deliver => s.capsules != []
    case Lose => s.capsules != []
  }

  /** What `after` has beyond `before`. */
  function Added(before: seq<nat>, after: seq<nat>): (r: seq<nat>) {
    if |before| <= |after| then after[|before|..] else []
  }

  function Next(s: System, a: Action): (r: System)
    requires Enabled(s, a)
  {
    match a
    case SenderStep(out) => s.(sender := Out.Next(s.sender, out))
    case ReceiverStep(inc) =>
      var receiver := In.Next(s.receiver, inc);
      s.(receiver := receiver, capsules := s.capsules + Added(s.receiver.pub.published, receiver.pub.published))
    case Arrive(id) => s.(receiver := In.AddStream(s.receiver, id), delivered := s.delivered + {id})
    case Deliver => s.(sender := Out.UpdateStreamLimit(s.sender, s.capsules[0]), capsules := s.capsules[1..])
    case Lose => s.(capsules := s.capsules[..|s.capsules| - 1])
  }

  /** The step in which an endpoint would report that its peer broke flow control. */
  predicate Violates(s: System, a: Action)
    requires Enabled(s, a)
  {
    match a
    case Arrive(_) => In.TooMany(s.receiver)
    case Deliver => !Out.LimitAccepted(s.sender, s.capsules[0])
    case _ => false
  }

  /** The maps two endpoints create for the streams that `a` opens towards `b`. */
  function Start(a: Config.Config, b: Config.Config, aSettings: Config.Settings, bSettings: Config.Settings, bidi: bool): (s: System) {
    var fa := Config.Negotiated(a, b, bSettings);
    var fb := Config.Negotiated(b, a, aSettings);
    System(Out.Init(if bidi then fa.maxOutgoingStreams else fa.maxOutgoingUniStreams),
           In.Init(if bidi then fb.maxIncomingStreams else fb.maxIncomingUniStreams, bidi), [], {})
  }

  ghost predicate IsRun(states: seq<System>, actions: seq<Action>) {
    && |states| == |actions| + 1
    && (exists a, b, aSettings, bSettings, bidi :: states[0] == Start(a, b, aSettings, bSettings, bidi))
    && forall i :: 0 <= i < |actions| ==> Enabled(states[i], actions[i]) && states[i + 1] == Next(states[i], actions[i])
  }

  ghost predicate Inv(s: System) {
    && Out.Inv(s.sender)
    && In.Inv(s.receiver)
    && Ascending(s.sender.max, s.capsules, s.receiver.pub.queued)
    && s.receiver.streams.arrived <= s.delivered <= s.sender.streams.created
    && In.Accounted(s.receiver, s.delivered)
  }

  // ---------- what single steps do to the shared quantities ----------

  lemma SenderKeepsLimit(s: Out.State, a: Out.Action)
    requires !a.DoUpdate? && Out.Enabled(s, a)
    ensures Out.Next(s, a).max == s.max
    ensures s.streams.created <= Out.Next(s, a).streams.created
  {
    if Out.IsCall(a) {
      Out.CallMoves(s, a);
      hide Out.Next;
    }
  }

  lemma ReceiverStepKeeps(s: System, a: In.Action)
    requires Inv(s) && Enabled(s, ReceiverStep(a))
    ensures Inv(Next(s, ReceiverStep(a)))
  {
    hide Out.Inv, In.Inv, In.Next, In.Accounted;
    In.StepKeeps(s.receiver, a);
    In.AccountedStays(s.receiver, a, s.delivered);
    In.PublicationMoves(s.receiver, a);
    var r := In.Next(s.receiver, a);
    var n := |s.receiver.pub.published|;
    if r.pub.published == s.receiver.pub.published {
      assert r.pub.published[n..] == [];
      assert s.capsules + [] == s.capsules;
    } else {
      assert r.pub.published[n..] == [r.pub.queued];
      AscendingGrows(s.sender.max, s.capsules, s.receiver.pub.queued, r.pub.queued);
    }
  }

  /** With the invariant, a stream on its way always fits within the receiver's limit. */
  lemma ArrivalFits(s: System, id: StreamId)
    requires Inv(s) && id in s.sender.streams.created && id !in s.delivered
    ensures s.receiver.num < s.receiver.max
  {
    var arrived := s.receiver.streams.arrived;
    assert arrived <= s.sender.streams.created - {id};
    CardinalityMonotone(arrived, s.sender.streams.created - {id});
  }

  lemma {:induction false} CardinalityMonotone(a: set<StreamId>, b: set<StreamId>)
    requires a <= b
    ensures |a| <= |b|
  {
    if a != {} {
      var x :| x in a;
      CardinalityMonotone(a - {x}, b - {x});
    }
  }

  lemma SenderStepKeeps(s: System, a: Out.Action)
    requires Inv(s) && Enabled(s, SenderStep(a))
    ensures Inv(Next(s, SenderStep(a)))
  {
    hide Out.Inv, In.Inv, Out.Next, Ascending, In.Accounted;
    Out.StepKeeps(s.sender, a);
    SenderKeepsLimit(s.sender, a);
  }

  lemma ArriveKeeps(s: System, id: StreamId)
    requires Inv(s) && Enabled(s, Arrive(id))
    ensures Inv(Next(s, Arrive(id))) && !Violates(s, Arrive(id))
  {
    hide Out.Inv, In.Inv, Ascending, In.AddStream, In.Accounted;
    ArrivalFits(s, id);
    In.AccountedAdds(s.receiver, id, s.delivered);
    In.AddMoves(s.receiver, id);
    In.StepKeeps(s.receiver, In.DoAdd(id));
  }

  lemma DeliverKeeps(s: System)
    requires Inv(s) && Enabled(s, Deliver)
    ensures Inv(Next(s, Deliver)) && !Violates(s, Deliver)
  {
    hide Out.Inv, In.Inv, Ascending, In.Accounted;
    AscendingShrinks(s.sender.max, s.capsules, s.receiver.pub.queued);
    Out.UpdateStreamLimitKeeps(s.sender, s.capsules[0]);
  }

  lemma StepKeeps(s: System, a: Action)
    requires Inv(s) && Enabled(s, a)
    ensures Inv(Next(s, a)) && !Violates(s, a)
  {
    hide Inv;
    match a
    case SenderStep(out) => SenderStepKeeps(s, out);
    case ReceiverStep(inc) => ReceiverStepKeeps(s, inc);
    case Arrive(id) => ArriveKeeps(s, id);
    case Deliver => DeliverKeeps(s);
    case Lose => LoseKeeps(s);
  }

  lemma LoseKeeps(s: System)
    requires Inv(s) && Enabled(s, Lose)
    ensures Inv(Next(s, Lose))
  {
    hide Out.Inv, In.Inv, Ascending, In.Accounted;
    AscendingShrinks(s.sender.max, s.capsules, s.receiver.pub.queued);
  }

  lemma StartOk(a: Config.Config, b: Config.Config, aSettings: Config.Settings, bSettings: Config.Settings, bidi: bool)
    ensures Inv(Start(a, b, aSettings, bSettings, bidi))
  {
    hide Out.Inv, In.Inv, Config.Negotiated;
    Config.EndpointsAgree(a, b, aSettings, bSettings);
    var fa := Config.Negotiated(a, b, bSettings);
    var fb := Config.Negotiated(b, a, aSettings);
    Out.InitOk(if bidi then fa.maxOutgoingStreams else fa.maxOutgoingUniStreams);
    In.InitOk(if bidi then fb.maxIncomingStreams else fb.maxIncomingUniStreams, bidi);
  }

  lemma {:induction false} RunKeeps(states: seq<System>, actions: seq<Action>, i: nat)
    requires IsRun(states, actions) && i < |states|
    ensures Inv(states[i])
  {
    if i == 0 {
      var a, b, aSettings, bSettings, bidi :| states[0] == Start(a, b, aSettings, bSettings, bidi);
      StartOk(a, b, aSettings, bSettings, bidi);
    } else {
      RunKeeps(states, actions, i - 1);
      StepKeeps(states[i - 1], actions[i - 1]);
    }
  }

  /**
   For any two configurations and any interleaving of opening, arriving, closing and
   capsule delivery, the receiver never finds that its peer opened too many streams,
   and the sender never receives a limit that does not increase its own. Every stream
   that arrives is counted while the receiver is open, and once it is closed gives back
   its credit, is closed with the session, or is about to be.
   */
  lemma PeersRespectStreamLimits(states: seq<System>, actions: seq<Action>, i: nat)
    requires IsRun(states, actions) && i < |actions|
    ensures Enabled(states[i], actions[i]) && !Violates(states[i], actions[i])
    ensures states[i].sender.num <= states[i].sender.max <= states[i].receiver.max
    ensures states[i].receiver.num <= |states[i].sender.streams.created| <= states[i].sender.num
    ensures
      var t, delivered := states[i].receiver.streams, states[i].delivered;
      if states[i].receiver.closeErr.None? then t.arrived == delivered && states[i].receiver.num == |delivered|
      else forall id :: id in delivered ==> id in t.released || id in t.errs || id in t.late
  {
    RunKeeps(states, actions, i);
    StepKeeps(states[i], actions[i]);
    CardinalityMonotone(states[i].receiver.streams.arrived, states[i].sender.streams.created);
  }
}
