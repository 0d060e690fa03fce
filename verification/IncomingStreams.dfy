/**
 The incoming stream map: the limit enforced on the peer is raised under one lock
 and published under another, so that several calls can be between the two.

 The functions are the critical sections; a run interleaves them in any order.
 */
module IncomingStreams {
  import opened Common

  /** The registered streams. */
  datatype Streams = Streams(
    m: set<StreamId>,
    errs: map<StreamId, Error>,      // closeErr of the streams closed with the session
    late: map<StreamId, Error>,      // arrived after the close, about to be closed with it
    arrived: set<StreamId>,          // history: streams counted
    released: set<StreamId>          // history: streams that gave their credit back
  )

  /** Publication of the limit, under its own lock. */
  datatype Publication = Publication(
    queued: nat,                     // queuedMaxStreams
    pending: multiset<nat>,          // limits raised and not taken to the second lock yet
    published: seq<nat>              // history: limits passed to queueMaxStreams
  )

  datatype State = State(
    closeErr: Option<Error>,         // cause of the map's context
    num: nat,                        // numStreams
    max: nat,                        // maxStreams
    maxOpen: nat,                    // maxOpenStreams
    bidi: bool,                      // a map of bidirectional streams
    sendClosed: set<StreamId>,       // sendSideClosed
    recvClosed: set<StreamId>,       // recvSideClosed
    callbacks: multiset<StreamId>,   // close callbacks about to call RemoveStream
    streams: Streams,
    pub: Publication
  )

  function Init(maxOpenStreams: nat, bidi: bool): (s: State) {
    var limit := Min(maxOpenStreams, MAX_STREAMS_LIMIT);
    State(None, 0, limit, limit, bidi, {}, {}, multiset{}, Streams({}, map[], map[], {}, {}), Publication(limit, multiset{}, []))
  }

  // ---------- critical sections ----------

  /** Whether AddStream reports that the peer opened too many streams. */
  predicate TooMany(s: State) {
    s.closeErr.None? && s.num >= s.max
  }

  function AddStream(s: State, id: StreamId): (r: State) {
    if s.closeErr.Some? then s.(streams := s.streams.(late := s.streams.late[id := s.closeErr.value]))
    else if s.num >= s.max then s
    else s.(num := s.num + 1,
            streams := s.streams.(m := s.streams.m + {id}, arrived := s.streams.arrived + {id}))
  }

  /** closeWithSession on a stream that arrived after the close; the map is unlocked. */
  function CloseLate(s: State, id: StreamId): (r: State)
    requires id in s.streams.late
  {
    s.(streams := s.streams.(late := s.streams.late - {id}, errs := s.streams.errs[id := s.streams.late[id]]))
  }

  /** Both halves of a bidirectional stream are closed; the one half of a unidirectional one is. */
  predicate Closed(s: State, id: StreamId) {
    id in s.recvClosed && (s.bidi ==> id in s.sendClosed)
  }

  /** One half closes, possibly again: registerClose, or the close callback of a unidirectional stream. */
  function RegisterClose(s: State, id: StreamId, sendSide: bool): (r: State) {
    var t := if sendSide then s.(sendClosed := s.sendClosed + {id}) else s.(recvClosed := s.recvClosed + {id});
    if Closed(t, id) then t.(callbacks := t.callbacks + multiset{id}) else t
  }

  /** The limit after `id` was removed from the registered streams. */
  function RaisedLimit(s: State, open: nat): (r: nat) {
    if open < s.maxOpen && s.max < MAX_STREAMS_LIMIT then
      var limit := Min(s.num + s.maxOpen - open, MAX_STREAMS_LIMIT);
      if limit > s.max then limit else s.max
    else s.max
  }

  /** RemoveStream up to the first unlock. */
  function RemoveStream(s: State, id: StreamId): (r: State) {
    var callbacks := s.callbacks - multiset{id};
    if id !in s.streams.m then s.(callbacks := callbacks)
    else
      var limit := RaisedLimit(s, |s.streams.m - {id}|);
      s.(max := limit, callbacks := callbacks,
         streams := s.streams.(m := s.streams.m - {id}, released := s.streams.released + {id}),
         pub := if limit > s.max then s.pub.(pending := s.pub.pending + multiset{limit}) else s.pub)
  }

  /** RemoveStream under the second lock. */
  function Publish(p: Publication, limit: nat): (r: Publication) {
    var q := p.(pending := p.pending - multiset{limit});
    if limit > p.queued then q.(queued := limit, published := q.published + [limit]) else q
  }

  function CloseSession(s: State, err: Error): (r: State) {
    if s.closeErr.Some? then s
    else s.(closeErr := Some(err),
            streams := s.streams.(errs := s.streams.errs + (map id | id in s.streams.m :: err), m := {}))
  }

  // ---------- runs ----------

  datatype Action =
    | DoAdd(id: StreamId)
    | DoCloseLate(id: StreamId)
    | DoRegisterClose(id: StreamId, sendSide: bool)
    | DoRemove(id: StreamId)
    | DoPublish(limit: nat)
    | DoClose(err: Error)

  /** Stream IDs arrive once; a stream's halves close, any number of times, once it was handed out or closed with the session. */
  predicate Enabled(s: State, a: Action) {
    match a
    case DoAdd(id) => id !in s.streams.arrived
    case DoCloseLate(id) => id in s.streams.late
    case DoRegisterClose(id, sendSide) => (id in s.streams.arrived || s.closeErr.Some?) && (sendSide ==> s.bidi)
    case DoRemove(id) => id in s.callbacks
    case DoPublish(limit) => limit in s.pub.pending
    case _ => true
  }

  function Next(s: State, a: Action): (r: State)
    requires Enabled(s, a)
  {
    match a
    case DoAdd(id) => AddStream(s, id)
    case DoCloseLate(id) => CloseLate(s, id)
    case DoRegisterClose(id, sendSide) => RegisterClose(s, id, sendSide)
    case DoRemove(id) => RemoveStream(s, id)
    case DoPublish(limit) => s.(pub := Publish(s.pub, limit))
    case DoClose(err) => CloseSession(s, err)
  }

  ghost predicate IsRun(states: seq<State>, actions: seq<Action>) {
    && |states| == |actions| + 1
    && (exists limit: nat, bidi :: states[0] == Init(limit, bidi))
    && forall i :: 0 <= i < |actions| ==> Enabled(states[i], actions[i]) && states[i + 1] == Next(states[i], actions[i])
  }

  // ---------- invariant ----------

  /** The enforced limit leaves room for exactly maxOpen open streams, up to the protocol's cap. */
  ghost predicate CreditOk(open: bool, num: nat, max: nat, maxOpen: nat, t: Streams) {
    && maxOpen <= MAX_STREAMS_LIMIT
    && num <= max <= MAX_STREAMS_LIMIT
    && num == |t.arrived|
    && (open ==>
          && t.arrived == t.m + t.released && t.m !! t.released
          && |t.m| <= maxOpen
          && max == Min(num + maxOpen - |t.m|, MAX_STREAMS_LIMIT))
  }

  ghost predicate PublicationOk(p: Publication, max: nat, maxOpen: nat) {
    && maxOpen <= p.queued <= max
    && StrictlyIncreasing(p.published)
    && (forall l :: l in p.published ==> maxOpen < l <= p.queued)
    && p.queued == (if p.published == [] then maxOpen else p.published[|p.published| - 1])
    && (forall l :: l in p.pending ==> l <= max)
    && (p.queued == max || max in p.pending)
  }

  /** Every stream counted is registered, gave back its credit, or was closed with the session's error. */
  ghost predicate StreamsOk(t: Streams, closeErr: Option<Error>) {
    && t.released <= t.arrived
    && match closeErr
       case None => t.late == map[] && t.errs == map[]
       case Some(err) =>
         && t.m == {}
         && (forall id :: id in t.arrived && id !in t.released ==> id in t.errs && t.errs[id] == err)
         && (forall id :: id in t.late ==> t.late[id] == err)
         && (forall id :: id in t.errs ==> t.errs[id] == err)
  }

  /** What the map's lock protects. */
  ghost predicate MapOk(s: State) {
    && CreditOk(s.closeErr.None?, s.num, s.max, s.maxOpen, s.streams)
    && PublicationOk(s.pub, s.max, s.maxOpen)
    && StreamsOk(s.streams, s.closeErr)
  }

  /** Of the streams that arrived, exactly the closed ones gave back their credit or are about to. */
  ghost predicate HalvesOk(s: State) {
    && (forall id :: id in s.callbacks ==> Closed(s, id))
    && (forall id :: id in s.streams.released ==> Closed(s, id))
    && (s.closeErr.None? ==>
          && s.sendClosed <= s.streams.arrived && s.recvClosed <= s.streams.arrived
          && forall id :: id in s.streams.arrived && Closed(s, id) ==> id in s.streams.released || id in s.callbacks)
  }

  ghost predicate Inv(s: State) {
    MapOk(s) && HalvesOk(s)
  }

  // ---------- preservation ----------

  lemma AddStreamKeeps(s: State, id: StreamId)
    requires MapOk(s) && id !in s.streams.arrived
    ensures MapOk(AddStream(s, id))
  {
    if s.closeErr.None? && s.num < s.max {
      CreditTaken(s.num, s.max, s.maxOpen, s.streams, id);
    }
    hide PublicationOk, CreditOk;
  }

  lemma CreditTaken(num: nat, max: nat, maxOpen: nat, t: Streams, id: StreamId)
    requires CreditOk(true, num, max, maxOpen, t) && num < max && id !in t.arrived
    ensures CreditOk(true, num + 1, max, maxOpen, t.(m := t.m + {id}, arrived := t.arrived + {id}))
  {
    assert id !in t.m;
    assert |t.m + {id}| == |t.m| + 1;
  }

  /** The whole effect of a removal on the limit: one more, up to the cap. */
  lemma RemoveRaisesByOne(s: State, id: StreamId)
    requires MapOk(s) && s.closeErr.None? && id in s.streams.m
    ensures RaisedLimit(s, |s.streams.m - {id}|) == Min(s.max + 1, MAX_STREAMS_LIMIT)
    ensures CreditOk(true, s.num, RemoveStream(s, id).max, s.maxOpen, RemoveStream(s, id).streams)
  {
    hide PublicationOk;
    var t := RemoveStream(s, id).streams;
    assert |t.m| == |s.streams.m| - 1;
    assert t.arrived == t.m + t.released;
  }

  /** A removal in terms of the limit, and what the program compares on the way. */
  lemma RemoveEffect(s: State, id: StreamId)
    requires MapOk(s)
    ensures id in s.streams.m ==>
      var limit := RaisedLimit(s, |s.streams.m - {id}|);
      && s.closeErr.None? && limit == Min(s.max + 1, MAX_STREAMS_LIMIT)
      && |s.streams.m - {id}| < s.maxOpen && s.max <= MAX_STREAMS_LIMIT
      && (s.max < MAX_STREAMS_LIMIT ==> limit == Min(s.num + s.maxOpen - |s.streams.m - {id}|, MAX_STREAMS_LIMIT))
  {
    if id in s.streams.m {
      OpenIfRegistered(s, id);
      RemoveRaisesByOne(s, id);
      hide PublicationOk, StreamsOk;
      assert |s.streams.m - {id}| == |s.streams.m| - 1;
    }
  }

  lemma OpenIfRegistered(s: State, id: StreamId)
    requires MapOk(s) && id in s.streams.m
    ensures s.closeErr.None?
  {
  }

  lemma RemoveStreamKeeps(s: State, id: StreamId)
    requires MapOk(s)
    ensures MapOk(RemoveStream(s, id))
  {
    if id in s.streams.m {
      RemoveRaisesByOne(s, id);
      var r := RemoveStream(s, id);
      assert PublicationOk(r.pub, r.max, r.maxOpen);
    }
  }

  lemma PublishKeeps(p: Publication, max: nat, maxOpen: nat, limit: nat)
    requires PublicationOk(p, max, maxOpen) && limit in p.pending
    ensures PublicationOk(Publish(p, limit), max, maxOpen)
  {
    var q := Publish(p, limit);
    assert forall l :: l in q.pending ==> l in p.pending;
    assert forall l :: l in p.pending && l != limit ==> l in q.pending;
    if limit > p.queued {
      assert forall i :: 0 <= i < |p.published| ==> p.published[i] in p.published;
    }
  }

  lemma CloseSessionKeeps(s: State, err: Error)
    requires MapOk(s)
    ensures MapOk(CloseSession(s, err))
  {
    hide PublicationOk;
  }

  lemma CloseLateKeeps(s: State, id: StreamId)
    requires MapOk(s) && id in s.streams.late
    ensures MapOk(CloseLate(s, id))
  {
    hide PublicationOk;
  }

  lemma StepKeepsMap(s: State, a: Action)
    requires MapOk(s) && Enabled(s, a)
    ensures MapOk(Next(s, a))
  {
    match a
    case DoAdd(id) => AddStreamKeeps(s, id);
    case DoCloseLate(id) => CloseLateKeeps(s, id);
    case DoRegisterClose(_, _) =>
    case DoRemove(id) => RemoveStreamKeeps(s, id);
    case DoPublish(limit) => PublishKeeps(s.pub, s.max, s.maxOpen, limit);
    case DoClose(err) => CloseSessionKeeps(s, err);
  }

  /** A callback runs exactly if the stream is closed after its half was registered. */
  lemma RegisterCloseKeeps(s: State, id: StreamId, sendSide: bool)
    requires HalvesOk(s) && Enabled(s, DoRegisterClose(id, sendSide))
    ensures HalvesOk(RegisterClose(s, id, sendSide))
  {
    var r := RegisterClose(s, id, sendSide);
    assert forall x :: x != id ==> (Closed(r, x) <==> Closed(s, x)) && (x in r.callbacks <==> x in s.callbacks);
  }

  /** The callback takes a registered stream out; one that runs again finds nothing to take. */
  lemma RemoveKeepsHalves(s: State, id: StreamId)
    requires Inv(s) && id in s.callbacks
    ensures HalvesOk(RemoveStream(s, id))
  {
    hide PublicationOk, RaisedLimit;
    var r := RemoveStream(s, id);
    assert s.closeErr.None? ==> s.streams.arrived == s.streams.m + s.streams.released;
    hide CreditOk, StreamsOk;
    assert forall x :: Closed(r, x) <==> Closed(s, x);
    assert forall x :: x != id ==> (x in r.callbacks <==> x in s.callbacks);
    if s.closeErr.None? && id in s.streams.arrived {
      assert id in r.streams.released;
    }
  }

  lemma StepKeeps(s: State, a: Action)
    requires Inv(s) && Enabled(s, a)
    ensures Inv(Next(s, a))
  {
    hide MapOk, HalvesOk;
    StepKeepsMap(s, a);
    match a
    case DoRegisterClose(id, sendSide) => RegisterCloseKeeps(s, id, sendSide);
    case DoRemove(id) => RemoveKeepsHalves(s, id);
    case _ => OthersKeepHalves(s, a);
  }

  lemma OthersKeepHalves(s: State, a: Action)
    requires HalvesOk(s) && Enabled(s, a) && !a.DoRegisterClose? && !a.DoRemove?
    ensures HalvesOk(Next(s, a))
  {
    var r := Next(s, a);
    assert r.callbacks == s.callbacks && r.sendClosed == s.sendClosed && r.recvClosed == s.recvClosed && r.bidi == s.bidi;
    assert r.streams.released == s.streams.released;
    assert forall x :: Closed(r, x) <==> Closed(s, x);
  }

  lemma CloseKeeps(s: State, err: Error)
    requires Inv(s)
    ensures Inv(CloseSession(s, err))
  {
    hide Inv;
    StepKeeps(s, DoClose(err));
  }

  /** Once its callbacks have run, a stream of an open map has given back its credit exactly if it is closed. */
  lemma ReleasedIffClosed(s: State, id: StreamId)
    requires HalvesOk(s) && s.closeErr.None? && id in s.streams.arrived && id !in s.callbacks
    ensures id in s.streams.released <==> Closed(s, id)
  {
  }

  lemma AddMoves(s: State, id: StreamId)
    ensures AddStream(s, id).pub == s.pub && AddStream(s, id).streams.arrived <= s.streams.arrived + {id}
  {
  }

  lemma RemoveMoves(s: State, id: StreamId)
    ensures
      var r := RemoveStream(s, id);
      r.streams.arrived == s.streams.arrived && r.pub.queued == s.pub.queued && r.pub.published == s.pub.published
  {
    hide RaisedLimit;
  }

  /** Only publishing changes what was published, and it increases. */
  lemma PublicationMoves(s: State, a: Action)
    requires !a.DoAdd? && Enabled(s, a)
    ensures
      var r := Next(s, a);
      && r.streams.arrived == s.streams.arrived
      && s.pub.queued <= r.pub.queued && (!a.DoPublish? ==> r.pub.queued == s.pub.queued)
      && (r.pub.published == s.pub.published
          || (r.pub.published == s.pub.published + [r.pub.queued] && s.pub.queued < r.pub.queued))
  {
    hide RemoveStream;
    match a
    case DoRemove(id) => RemoveMoves(s, id);
    case _ =>
  }

  lemma RemovalFrame(s: State, id: StreamId)
    ensures
      var r := RemoveStream(s, id);
      r.sendClosed == s.sendClosed && r.recvClosed == s.recvClosed && r.bidi == s.bidi
  {
  }

  /** A raised limit means that the stream gives back its credit now. */
  lemma RaisedIsReleased(s: State, id: StreamId)
    requires MapOk(s)
    ensures
      var r := RemoveStream(s, id);
      && r.streams.arrived == s.streams.arrived && r.closeErr == s.closeErr
      && (r.pub.pending != s.pub.pending ==> id !in s.streams.released && id in r.streams.released)
      && (s.callbacks[id] <= 1 ==> id !in r.callbacks)
  {
    hide PublicationOk, RaisedLimit;
  }

  // ---------- what was handed to the map ----------

  /**
   `delivered` are the streams handed to AddStream. While the map is open it counted
   them all; once it is closed each gave back its credit, was closed with the session, or
   is about to be.
   */
  ghost predicate Accounted(s: State, delivered: set<StreamId>) {
    if s.closeErr.None? then s.streams.arrived == delivered
    else forall id :: id in delivered ==> id in s.streams.released || id in s.streams.errs || id in s.streams.late
  }

  lemma AccountedStays(s: State, a: Action, delivered: set<StreamId>)
    requires Inv(s) && Enabled(s, a) && !a.DoAdd? && Accounted(s, delivered)
    ensures Accounted(Next(s, a), delivered)
  {
    StepKeepsMap(s, a);
    hide CreditOk, PublicationOk, HalvesOk;
    match a
    case DoRemove(id) => RemoveMoves(s, id);
    case _ =>
  }

  /** A stream that fits is counted; one that comes after the close is about to be closed. */
  lemma AccountedAdds(s: State, id: StreamId, delivered: set<StreamId>)
    requires Accounted(s, delivered) && (s.closeErr.None? ==> s.num < s.max)
    ensures Accounted(AddStream(s, id), delivered + {id})
  {
  }

  lemma InitAccounted(limit: nat, bidi: bool)
    ensures Accounted(Init(limit, bidi), {})
  {
  }

  // ---------- every run ----------

  lemma InitOk(limit: nat, bidi: bool)
    ensures Inv(Init(limit, bidi))
  {
  }

  lemma {:induction false} RunKeeps(states: seq<State>, actions: seq<Action>, i: nat)
    requires IsRun(states, actions) && i < |states|
    ensures Inv(states[i])
  {
    if i == 0 {
      var limit: nat, bidi :| states[0] == Init(limit, bidi);
      InitOk(limit, bidi);
    } else {
      RunKeeps(states, actions, i - 1);
      StepKeeps(states[i - 1], actions[i - 1]);
    }
  }

  /**
   Exact stream credit: while the map is open the peer may have at most maxOpen
   streams open, and the limit counts the streams it opened and the room left. Each
   stream gives its credit back once, however often its close callback runs, and
   exactly those do, or are about to, whose halves have all closed. No sum reaches
   2^62, so the 64-bit arithmetic does not wrap.
   */
  lemma ExactCredit(states: seq<State>, actions: seq<Action>, i: nat)
    requires IsRun(states, actions) && i < |states| && states[i].closeErr.None?
    ensures
      var s := states[i];
      && |s.streams.m| <= s.maxOpen
      && s.num == |s.streams.m| + |s.streams.released|
      && s.max == Min(s.num + s.maxOpen - |s.streams.m|, MAX_STREAMS_LIMIT)
      && s.max == Min(s.maxOpen + |s.streams.released|, MAX_STREAMS_LIMIT)
      && (forall id :: id in s.streams.arrived ==>
            (id in s.streams.released || id in s.callbacks <==> id in s.recvClosed && (s.bidi ==> id in s.sendClosed)))
      && s.num + s.maxOpen <= VARINT_MAX
  {
    RunKeeps(states, actions, i);
    var s := states[i];
    assert |s.streams.arrived| == |s.streams.m| + |s.streams.released|;
  }

  /**
   Publication: in any interleaving of removals the published limits strictly
   increase and never exceed the enforced one; with no call between its two
   critical sections, the last limit published is the enforced one.
   */
  lemma PublishedInOrder(states: seq<State>, actions: seq<Action>, i: nat)
    requires IsRun(states, actions) && i < |states|
    ensures
      var s := states[i];
      && StrictlyIncreasing(s.pub.published)
      && (forall l :: l in s.pub.published ==> s.maxOpen < l <= s.max)
      && (s.pub.pending == multiset{} ==>
            s.max == if s.pub.published == [] then s.maxOpen else s.pub.published[|s.pub.published| - 1])
  {
    RunKeeps(states, actions, i);
  }

  /**
   Once the map is closed, every stream still registered, and every stream that
   arrived later and whose AddStream completed, has been closed with that error.
   */
  lemma CloseLeavesNone(states: seq<State>, actions: seq<Action>, i: nat)
    requires IsRun(states, actions) && i < |states| && states[i].closeErr.Some?
    ensures
      var s := states[i];
      && s.streams.m == {}
      && (forall id :: id in s.streams.arrived && id !in s.streams.released ==>
            id in s.streams.errs && s.streams.errs[id] == s.closeErr.value)
      && (forall id :: id in AddStream(s, id).streams.late && AddStream(s, id).streams.late[id] == s.closeErr.value)
      && (forall id :: id in s.streams.late ==> CloseLate(s, id).streams.errs[id] == s.closeErr.value)
  {
    RunKeeps(states, actions, i);
  }
}
