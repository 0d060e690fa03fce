/**
 The outgoing stream map: stream credit granted by the peer, a queue of callers
 waiting for credit, and reservations that may be rolled back.

 `State` is the map's lock-protected data together with the program counter of
 every call in progress and a history of the run. Every function below is one
 critical section of the map; a run interleaves them in any order. A waiter's
 one-slot channel is identified by the call that made it.
 */
module OutgoingStreams {
  import opened Common

  type Call = nat

  datatype Outcome = Opened(id: StreamId) | Failed(err: Error)

  /** Where a call stands between two critical sections. */
  datatype Pc =
    | OpenBlocked(limit: nat)       // OpenStream, about to announce that it is blocked
    | QueuedBlocked(limit: nat)     // in the queue, about to announce
    | QueuedAnnounced               // announced, about to lock again
    | Waiting                       // in the select
    | Cancelling                    // the context ended, about to lock
    | Woken                         // received from its channel, about to lock
    | ReservedBlocked(limit: nat)   // left the queue with a reservation, about to announce
    | ReservedAnnounced             // announced, about to lock again
    | Opening(key: nat)             // opening the QUIC stream with the map unlocked
    | Returned(outcome: Outcome)
  {
    predicate InLine() {
      QueuedBlocked? || QueuedAnnounced? || Waiting? || Cancelling? || Woken?
    }
    predicate Reserves() {
      ReservedBlocked? || ReservedAnnounced? || Opening?
    }
    predicate Announces() {
      OpenBlocked? || QueuedBlocked? || ReservedBlocked?
    }
  }

  /** What QUIC answers to a request to open a stream. */
  datatype QuicOpen = QuicOk(id: StreamId) | QuicErr(err: Error)

  /** The registered streams. */
  datatype Streams = Streams(
    m: set<StreamId>,
    errs: map<StreamId, Error>,    // closeErr of the streams closed with the session
    created: set<StreamId>,        // history: QUIC streams opened
    removed: set<StreamId>         // history: streams removed while the map was open
  )

  /** Announcements of WT_STREAMS_BLOCKED. */
  datatype Blocked = Blocked(
    sent: bool,                    // blockedSent
    decidedBy: map<nat, Call>,     // history: limit -> call that took on announcing it
    announced: seq<nat>            // history: limits passed to queueBlocked
  )

  /** History of who asked for credit, in which order, and what became of it. */
  datatype Past = Past(
    line: seq<Call>,               // calls in the queue when it was last open, until they return
    arrivals: seq<Call>,           // calls in the order they asked for credit
    left: set<Call>,               // calls that left the line without a reservation
    reserved: seq<Call>            // calls in the order they took credit
  )

  datatype State = State(
    closeErr: Option<Error>,
    queue: seq<Call>,              // openQueue
    full: set<Call>,               // channels holding a token
    closedChans: set<Call>,
    num: int,                      // numStreams
    max: nat,                      // maxStreams
    ctxs: map<nat, Call>,          // streamCtxs: cancel functions of the streams being opened
    cancelled: set<Call>,          // calls whose context CloseSession cancelled
    panicked: bool,                // send on, or close of, a closed channel; empty slice
    calls: map<Call, Pc>,
    streams: Streams,
    blocked: Blocked,
    past: Past
  )

  function Init(maxStreams: nat): (s: State) {
    State(None, [], {}, {}, 0, maxStreams, map[], {}, false, map[],
          Streams({}, map[], {}, {}), Blocked(false, map[], []), Past([], [], {}, []))
  }

  // ---------- critical sections ----------

  /** maybeUnblockOpenSync */
  function Unblock(s: State): (r: State) {
    var send := |s.queue| > 0 && s.num < s.max;
    s.(full := if send then s.full + {s.queue[0]} else s.full,
       panicked := s.panicked || (send && s.queue[0] in s.closedChans))
  }

  function Return(s: State, c: Call, o: Outcome): (r: State) {
    s.(calls := s.calls[c := Returned(o)])
  }

  /** Takes on the announcement for the current limit. */
  function Decide(s: State, c: Call, pc: Pc): (r: State) {
    s.(blocked := s.blocked.(sent := true, decidedBy := s.blocked.decidedBy[s.max := c]),
       calls := s.calls[c := pc])
  }

  function Register(s: State, id: StreamId): (r: State) {
    s.(streams := s.streams.(m := s.streams.m + {id}, created := s.streams.created + {id}))
  }

  function OpenStream(s: State, c: Call, q: QuicOpen): (r: State) {
    if s.closeErr.Some? then Return(s, c, Failed(s.closeErr.value))
    else if |s.queue| > 0 then Return(s, c, Failed(StreamLimitReached))
    else if s.num >= s.max then
      if !s.blocked.sent then Decide(s, c, OpenBlocked(s.max))
      else Return(s, c, Failed(StreamLimitReached))
    else
      var t := s.(past := s.past.(arrivals := s.past.arrivals + [c], reserved := s.past.reserved + [c]));
      match q
      case QuicErr(err) => Return(Unblock(t), c, Failed(err))
      case QuicOk(id) =>
        Return(Register(t.(num := t.num + 1), id), c, Opened(id))
  }

  /** A call leaves the line without a reservation. */
  function Leave(s: State, c: Call, err: Error): (r: State) {
    Return(s.(past := s.past.(line := Without(s.past.line, c), left := s.past.left + {c})), c, Failed(err))
  }

  function StartOpening(s: State, c: Call, key: nat): (r: State) {
    s.(ctxs := s.ctxs[key := c], calls := s.calls[c := Opening(key)])
  }

  /** OpenStreamSync up to the first unlock. */
  function SyncEnter(s: State, c: Call, ctxErr: bool, key: nat): (r: State) {
    if s.closeErr.Some? then Return(s, c, Failed(s.closeErr.value))
    else if ctxErr then Return(s, c, Failed(ContextDone))
    else
      var arrivals := s.past.arrivals + [c];
      if |s.queue| == 0 && s.num < s.max then
        StartOpening(s.(num := s.num + 1, past := s.past.(arrivals := arrivals, reserved := s.past.reserved + [c])), c, key)
      else
        var u := s.(queue := s.queue + [c], past := s.past.(arrivals := arrivals, line := s.past.line + [c]));
        if s.num >= s.max && !s.blocked.sent then Decide(u, c, QueuedBlocked(s.max))
        else u.(calls := u.calls[c := Waiting])
  }

  /** queueBlocked, called with the map unlocked. */
  function Announce(s: State, c: Call): (r: State)
    requires c in s.calls && s.calls[c].Announces()
  {
    var t := s.(blocked := s.blocked.(announced := s.blocked.announced + [s.calls[c].limit]));
    match s.calls[c]
    case OpenBlocked(_) => Return(t, c, Failed(StreamLimitReached))
    case QueuedBlocked(_) => t.(calls := t.calls[c := QueuedAnnounced])
    case _ => t.(calls := t.calls[c := ReservedAnnounced])
  }

  function ResumeQueued(s: State, c: Call): (r: State) {
    if s.closeErr.Some? then Leave(s, c, s.closeErr.value)
    else s.(calls := s.calls[c := Waiting])
  }

  function Receive(s: State, c: Call): (r: State) {
    s.(full := s.full - {c}, calls := s.calls[c := Woken])
  }

  function ContextEnds(s: State, c: Call): (r: State) {
    s.(calls := s.calls[c := Cancelling])
  }

  function Cancel(s: State, c: Call): (r: State) {
    Leave(Unblock(s.(queue := Without(s.queue, c))), c, ContextDone)
  }

  /** The section after the waiter received from its channel. */
  function Wake(s: State, c: Call, ctxErr: bool, key: nat): (r: State) {
    if s.closeErr.Some? then Leave(s, c, s.closeErr.value)
    else if ctxErr then Cancel(s, c)
    else if |s.queue| == 0 then s.(panicked := true)
    else
      var t := s.(num := s.num + 1, queue := s.queue[1..],
                  past := s.past.(line := Without(s.past.line, c), reserved := s.past.reserved + [c]));
      if |t.queue| > 0 && t.num >= t.max then
        if !t.blocked.sent then Decide(t, c, ReservedBlocked(t.max))
        else StartOpening(t, c, key)
      else StartOpening(Unblock(t), c, key)
  }

  function ResumeReserved(s: State, c: Call, key: nat): (r: State) {
    if s.closeErr.Some? then Return(s, c, Failed(s.closeErr.value))
    else StartOpening(s, c, key)
  }

  /** OpenStreamSync after the QUIC stream was opened, or could not be. */
  function Finish(s: State, c: Call, q: QuicOpen): (r: State)
    requires c in s.calls && s.calls[c].Opening?
  {
    var t := s.(ctxs := s.ctxs - {s.calls[c].key});
    match q
    case QuicOk(id) =>
      if s.closeErr.Some? then
        Return(t.(streams := t.streams.(errs := t.streams.errs[id := s.closeErr.value],
                                        created := t.streams.created + {id})),
               c, Failed(s.closeErr.value))
      else
        Return(Register(t, id), c, Opened(id))
    case QuicErr(err) =>
      if s.closeErr.Some? then Return(t, c, Failed(s.closeErr.value))
      else Return(Unblock(t.(num := t.num - 1)), c, Failed(err))
  }

  function RemoveStream(s: State, id: StreamId): (r: State) {
    s.(streams := s.streams.(
         m := s.streams.m - {id},
         removed := if id in s.streams.m then s.streams.removed + {id} else s.streams.removed))
  }

  /** Whether UpdateStreamLimit accepts the limit. */
  predicate LimitAccepted(s: State, limit: nat) {
    s.closeErr.Some? || limit > s.max
  }

  function UpdateStreamLimit(s: State, limit: nat): (r: State) {
    if s.closeErr.Some? || limit <= s.max then s
    else Unblock(s.(max := limit, blocked := s.blocked.(sent := false)))
  }

  function CloseSession(s: State, err: Error): (r: State) {
    if s.closeErr.Some? then s
    else s.(closeErr := Some(err),
            panicked := s.panicked || exists i :: 0 <= i < |s.queue| && s.queue[i] in s.closedChans,
            closedChans := s.closedChans + (set i | 0 <= i < |s.queue| :: s.queue[i]),
            queue := [],
            cancelled := s.cancelled + s.ctxs.Values,
            streams := s.streams.(errs := s.streams.errs + (map id | id in s.streams.m :: err),
                                  m := {}))
  }

  // ---------- runs ----------

  datatype Action =
    | DoOpen(c: Call, q: QuicOpen)
    | DoSyncEnter(c: Call, ctxErr: bool, key: nat)
    | DoAnnounce(c: Call)
    | DoResumeQueued(c: Call)
    | DoReceive(c: Call)
    | DoContextEnds(c: Call)
    | DoCancel(c: Call)
    | DoWake(c: Call, ctxErr: bool, key: nat)
    | DoResumeReserved(c: Call, key: nat)
    | DoFinish(c: Call, q: QuicOpen)
    | DoRemove(id: StreamId)
    | DoUpdate(limit: nat)
    | DoClose(err: Error)

  predicate At(s: State, c: Call, pc: Pc) {
    c in s.calls && s.calls[c] == pc
  }

  /** QUIC never hands out a stream ID twice. */
  predicate Fresh(s: State, q: QuicOpen) {
    q.QuicOk? ==> q.id !in s.streams.created
  }

  predicate Enabled(s: State, a: Action) {
    match a
    case DoOpen(c, q) => c !in s.calls && Fresh(s, q)
    case DoSyncEnter(c, _, key) => c !in s.calls && key !in s.ctxs
    case DoAnnounce(c) => c in s.calls && s.calls[c].Announces()
    case DoResumeQueued(c) => At(s, c, QueuedAnnounced)
    case DoReceive(c) => At(s, c, Waiting) && (c in s.full || c in s.closedChans)
    case DoContextEnds(c) => At(s, c, Waiting)
    case DoCancel(c) => At(s, c, Cancelling)
    case DoWake(c, _, key) => At(s, c, Woken) && key !in s.ctxs
    case DoResumeReserved(c, key) => At(s, c, ReservedAnnounced) && key !in s.ctxs
    case DoFinish(c, q) => c in s.calls && s.calls[c].Opening? && Fresh(s, q)
    case _ => true
  }

  function Next(s: State, a: Action): (r: State)
    requires Enabled(s, a)
  {
    match a
    case DoOpen(c, q) => OpenStream(s, c, q)
    case DoSyncEnter(c, ctxErr, key) => SyncEnter(s, c, ctxErr, key)
    case DoAnnounce(c) => Announce(s, c)
    case DoResumeQueued(c) => ResumeQueued(s, c)
    case DoReceive(c) => Receive(s, c)
    case DoContextEnds(c) => ContextEnds(s, c)
    case DoCancel(c) => Cancel(s, c)
    case DoWake(c, ctxErr, key) => Wake(s, c, ctxErr, key)
    case DoResumeReserved(c, key) => ResumeReserved(s, c, key)
    case DoFinish(c, q) => Finish(s, c, q)
    case DoRemove(id) => RemoveStream(s, id)
    case DoUpdate(limit) => UpdateStreamLimit(s, limit)
    case DoClose(err) => CloseSession(s, err)
  }

  ghost predicate IsRun(states: seq<State>, actions: seq<Action>) {
    && |states| == |actions| + 1
    && (exists limit: nat :: states[0] == Init(limit))
    && forall i :: 0 <= i < |actions| ==> Enabled(states[i], actions[i]) && states[i + 1] == Next(states[i], actions[i])
  }

  // ---------- invariant ----------

  ghost function Reserving(calls: map<Call, Pc>): set<Call> {
    set c | c in calls && calls[c].Reserves()
  }

  ghost predicate QueueOk(closeErr: Option<Error>, queue: seq<Call>, line: seq<Call>, closedChans: set<Call>) {
    && queue == (if closeErr.None? then line else [])
    && NoDuplicates(line)
    && (if closeErr.None? then closedChans == {} else forall c :: c in line ==> c in closedChans)
  }

  /** The line holds exactly the calls whose program counter says they wait. */
  ghost predicate LineOk(line: seq<Call>, calls: map<Call, Pc>) {
    forall c :: c in line <==> c in calls && calls[c].InLine()
  }

  /** Credit: what was opened plus what is reserved is what was counted, and within the limit. */
  ghost predicate CreditOk(open: bool, num: int, max: nat, created: set<StreamId>, calls: map<Call, Pc>) {
    && 0 <= num <= max
    && |created| + |Reserving(calls)| <= num
    && (open ==> num == |created| + |Reserving(calls)|)
  }

  ghost predicate HoldsToken(full: set<Call>, calls: map<Call, Pc>, c: Call) {
    c in full || (c in calls && calls[c].Woken?)
  }

  /** Only the head of the queue holds a token, and it holds one exactly when credit remains. */
  ghost predicate TokensOk(queue: seq<Call>, full: set<Call>, calls: map<Call, Pc>, credit: bool) {
    && (forall c :: c in queue && HoldsToken(full, calls, c) ==> c == queue[0])
    && (queue != [] ==> (HoldsToken(full, calls, queue[0]) <==> credit))
    && (forall c :: c in full ==> c in calls)
  }

  /** Reservations follow arrival order, minus those who left. */
  ghost predicate OrderOk(past: Past) {
    && Excluding(past.arrivals, past.left) == past.reserved + past.line
    && (forall c :: c in past.line ==> c !in past.reserved)
    && (forall c :: c in past.left ==> c in past.arrivals)
  }

  ghost predicate KnownOk(arrivals: seq<Call>, calls: map<Call, Pc>) {
    forall c :: c in arrivals ==> c in calls
  }

  ghost predicate BlockedOk(b: Blocked, max: nat) {
    && (forall l :: l in b.decidedBy ==> l <= max)
    && (b.sent <==> max in b.decidedBy)
    && NoDuplicates(b.announced)
    && (forall l :: l in b.announced ==> l in b.decidedBy)
  }

  /** A decided limit that was not announced yet is announced by the one call that decided it. */
  ghost predicate PendingOk(b: Blocked, calls: map<Call, Pc>) {
    && (forall c :: c in calls && calls[c].Announces() ==>
          && calls[c].limit in b.decidedBy
          && b.decidedBy[calls[c].limit] == c
          && calls[c].limit !in b.announced)
    && (forall l :: l in b.decidedBy && l !in b.announced ==>
          && b.decidedBy[l] in calls
          && calls[b.decidedBy[l]].Announces()
          && calls[b.decidedBy[l]].limit == l)
  }

  /** Every stream opened is registered, was removed, or was closed with the session's error. */
  ghost predicate StreamsOk(t: Streams, closeErr: Option<Error>) {
    && t.m <= t.created
    && t.removed <= t.created
    && match closeErr
       case None => t.errs == map[] && t.m == t.created - t.removed
       case Some(err) => t.m == {} && forall id :: id in t.created && id !in t.removed ==> id in t.errs && t.errs[id] == err
  }

  /** A call opening a stream can be cancelled, and was if the map is closed. */
  ghost predicate ContextsOk(ctxs: map<nat, Call>, cancelled: set<Call>, closed: bool, calls: map<Call, Pc>) {
    forall c :: c in calls && calls[c].Opening? ==>
      && calls[c].key in ctxs
      && ctxs[calls[c].key] == c
      && (closed ==> c in cancelled)
  }

  ghost predicate Inv(s: State) {
    && QueueOk(s.closeErr, s.queue, s.past.line, s.closedChans)
    && LineOk(s.past.line, s.calls)
    && CreditOk(s.closeErr.None?, s.num, s.max, s.streams.created, s.calls)
    && TokensOk(s.queue, s.full, s.calls, s.num < s.max)
    && OrderOk(s.past)
    && KnownOk(s.past.arrivals, s.calls)
    && BlockedOk(s.blocked, s.max)
    && PendingOk(s.blocked, s.calls)
    && (s.queue != [] && s.num >= s.max ==> s.blocked.sent)
    && StreamsOk(s.streams, s.closeErr)
    && ContextsOk(s.ctxs, s.cancelled, s.closeErr.Some?, s.calls)
    && !s.panicked
  }

  // ---------- how one call's move affects each part of the invariant ----------

  lemma LineStays(line: seq<Call>, calls: map<Call, Pc>, c: Call, pc: Pc)
    requires LineOk(line, calls) && (c in line <==> pc.InLine())
    ensures LineOk(line, calls[c := pc])
  {
  }

  lemma LineEnters(line: seq<Call>, calls: map<Call, Pc>, c: Call, pc: Pc)
    requires LineOk(line, calls) && NoDuplicates(line) && c !in calls && pc.InLine()
    ensures LineOk(line + [c], calls[c := pc]) && NoDuplicates(line + [c])
  {
  }

  lemma LineLeaves(line: seq<Call>, calls: map<Call, Pc>, c: Call, pc: Pc)
    requires LineOk(line, calls) && NoDuplicates(line) && !pc.InLine()
    ensures LineOk(Without(line, c), calls[c := pc]) && NoDuplicates(Without(line, c))
  {
    WithoutKeepsNoDuplicates(line, c);
  }

  lemma ReservingUpdate(calls: map<Call, Pc>, c: Call, pc: Pc)
    ensures Reserving(calls[c := pc]) == if pc.Reserves() then Reserving(calls) + {c} else Reserving(calls) - {c}
    ensures c in Reserving(calls) <==> c in calls && calls[c].Reserves()
  {
  }

  lemma CreditSame(open: bool, num: int, max: nat, created: set<StreamId>, calls: map<Call, Pc>, c: Call, pc: Pc)
    requires CreditOk(open, num, max, created, calls) && (c in calls && calls[c].Reserves() <==> pc.Reserves())
    ensures CreditOk(open, num, max, created, calls[c := pc])
  {
    ReservingUpdate(calls, c, pc);
    assert Reserving(calls[c := pc]) == Reserving(calls);
  }

  lemma CreditTaken(num: int, max: nat, created: set<StreamId>, calls: map<Call, Pc>, c: Call, pc: Pc)
    requires CreditOk(true, num, max, created, calls) && num < max
    requires !(c in calls && calls[c].Reserves()) && pc.Reserves()
    ensures CreditOk(true, num + 1, max, created, calls[c := pc])
  {
    ReservingUpdate(calls, c, pc);
  }

  lemma CreditReleased(open: bool, num: int, max: nat, created: set<StreamId>, calls: map<Call, Pc>, c: Call, pc: Pc)
    requires CreditOk(open, num, max, created, calls) && c in calls && calls[c].Reserves() && !pc.Reserves()
    ensures CreditOk(open, num - 1, max, created, calls[c := pc])
    ensures CreditOk(false, num, max, created, calls[c := pc])
  {
    ReservingUpdate(calls, c, pc);
  }

  lemma CreditOpened(open: bool, num: int, max: nat, created: set<StreamId>, calls: map<Call, Pc>, c: Call, pc: Pc, id: StreamId)
    requires CreditOk(open, num, max, created, calls) && c in calls && calls[c].Reserves() && !pc.Reserves() && id !in created
    ensures CreditOk(open, num, max, created + {id}, calls[c := pc])
  {
    ReservingUpdate(calls, c, pc);
  }

  lemma CreditCounted(num: int, max: nat, created: set<StreamId>, calls: map<Call, Pc>, c: Call, pc: Pc, id: StreamId)
    requires CreditOk(true, num, max, created, calls) && num < max && c !in calls && !pc.Reserves() && id !in created
    ensures CreditOk(true, num + 1, max, created + {id}, calls[c := pc])
  {
    ReservingUpdate(calls, c, pc);
    assert Reserving(calls[c := pc]) == Reserving(calls);
  }

  /** What a call of maybeUnblockOpenSync turns into TokensOk. */
  ghost predicate TokensPre(queue: seq<Call>, full: set<Call>, calls: map<Call, Pc>, credit: bool) {
    && (forall c :: c in queue && HoldsToken(full, calls, c) ==> c == queue[0] && credit)
    && (forall c :: c in full || c in queue ==> c in calls)
  }

  lemma TokensUnblocked(queue: seq<Call>, full: set<Call>, calls: map<Call, Pc>, credit: bool)
    requires TokensPre(queue, full, calls, credit)
    ensures TokensOk(queue, if queue != [] && credit then full + {queue[0]} else full, calls, credit)
  {
    if queue != [] {
      assert queue[0] in queue;
    }
  }

  lemma TokensMoreCredit(queue: seq<Call>, full: set<Call>, calls: map<Call, Pc>, credit: bool)
    requires TokensOk(queue, full, calls, credit) && forall x :: x in queue ==> x in calls
    ensures TokensPre(queue, full, calls, true)
  {
  }

  lemma TokensEmpty(full: set<Call>, calls: map<Call, Pc>, c: Call, pc: Pc, credit: bool)
    requires TokensOk([], full, calls, true)
    ensures TokensOk([], full, calls[c := pc], credit)
  {
  }

  lemma TokensSame(queue: seq<Call>, full: set<Call>, calls: map<Call, Pc>, credit: bool, c: Call, pc: Pc)
    requires TokensOk(queue, full, calls, credit)
    requires c in queue ==> c in calls && (pc.Woken? <==> calls[c].Woken?)
    ensures TokensOk(queue, full, calls[c := pc], credit)
  {
  }

  lemma TokensEnter(queue: seq<Call>, full: set<Call>, calls: map<Call, Pc>, credit: bool, c: Call, pc: Pc)
    requires TokensOk(queue, full, calls, credit) && c !in calls && !pc.Woken?
    requires queue == [] ==> !credit
    requires forall x :: x in queue ==> x in calls
    ensures TokensOk(queue + [c], full, calls[c := pc], credit)
  {
  }

  lemma TokensReceived(queue: seq<Call>, full: set<Call>, calls: map<Call, Pc>, credit: bool, c: Call)
    requires TokensOk(queue, full, calls, credit) && c in calls && (c in full || c !in queue)
    ensures TokensOk(queue, full - {c}, calls[c := Woken], credit)
  {
  }

  /** The call leaves the queue; if it was the head, the next one is to be unblocked. */
  lemma TokensLeave(queue: seq<Call>, full: set<Call>, calls: map<Call, Pc>, credit: bool, c: Call, pc: Pc, credit': bool)
    requires TokensOk(queue, full, calls, credit) && NoDuplicates(queue) && !pc.Woken?
    requires forall x :: x in queue ==> x in calls
    requires credit' == credit || (queue != [] && c == queue[0])
    ensures TokensPre(Without(queue, c), full, calls[c := pc], credit')
  {
    var q := Without(queue, c);
    forall x | x in q && HoldsToken(full, calls[c := pc], x)
      ensures x == q[0] && credit'
    {
      assert HoldsToken(full, calls, x) && x == queue[0];
      WithoutKeepsHead(queue, c);
    }
  }

  lemma OrderAtOnce(past: Past, c: Call)
    requires OrderOk(past) && past.line == []
    requires c !in past.arrivals
    ensures OrderOk(past.(arrivals := past.arrivals + [c], reserved := past.reserved + [c]))
  {
    ExcludingAppend(past.arrivals, c, past.left);
  }

  lemma OrderEnter(past: Past, c: Call)
    requires OrderOk(past) && c !in past.arrivals
    ensures OrderOk(past.(arrivals := past.arrivals + [c], line := past.line + [c]))
  {
    ExcludingAppend(past.arrivals, c, past.left);
    assert forall x :: x in past.reserved + past.line ==> x in past.arrivals;
    assert past.reserved + past.line + [c] == past.reserved + (past.line + [c]);
  }

  lemma OrderLeave(past: Past, c: Call)
    requires OrderOk(past) && c in past.line
    ensures OrderOk(past.(line := Without(past.line, c), left := past.left + {c}))
  {
    ExcludingOneMore(past.arrivals, c, past.left);
    WithoutConcat(past.reserved, past.line, c);
    WithoutAbsent(past.reserved, c);
    assert c in past.reserved + past.line;
  }

  lemma OrderTake(past: Past)
    requires OrderOk(past) && past.line != [] && NoDuplicates(past.line)
    ensures OrderOk(past.(line := past.line[1..], reserved := past.reserved + [past.line[0]]))
  {
    assert past.reserved + past.line == (past.reserved + [past.line[0]]) + past.line[1..];
  }

  lemma PendingSame(b: Blocked, calls: map<Call, Pc>, c: Call, pc: Pc)
    requires PendingOk(b, calls) && !pc.Announces() && !(c in calls && calls[c].Announces())
    ensures PendingOk(b, calls[c := pc])
  {
  }

  lemma PendingDecided(b: Blocked, max: nat, calls: map<Call, Pc>, c: Call, pc: Pc)
    requires BlockedOk(b, max) && PendingOk(b, calls) && !b.sent
    requires pc.Announces() && pc.limit == max && !(c in calls && calls[c].Announces())
    ensures BlockedOk(b.(sent := true, decidedBy := b.decidedBy[max := c]), max)
    ensures PendingOk(b.(sent := true, decidedBy := b.decidedBy[max := c]), calls[c := pc])
  {
  }

  lemma PendingAnnounced(b: Blocked, max: nat, calls: map<Call, Pc>, c: Call, pc: Pc)
    requires BlockedOk(b, max) && PendingOk(b, calls) && c in calls && calls[c].Announces() && !pc.Announces()
    ensures BlockedOk(b.(announced := b.announced + [calls[c].limit]), max)
    ensures PendingOk(b.(announced := b.announced + [calls[c].limit]), calls[c := pc])
  {
  }

  lemma ContextsSame(ctxs: map<nat, Call>, cancelled: set<Call>, closed: bool, calls: map<Call, Pc>, c: Call, pc: Pc)
    requires ContextsOk(ctxs, cancelled, closed, calls) && !pc.Opening?
    ensures ContextsOk(ctxs, cancelled, closed, calls[c := pc])
  {
  }

  lemma ContextsStart(ctxs: map<nat, Call>, cancelled: set<Call>, calls: map<Call, Pc>, c: Call, key: nat)
    requires ContextsOk(ctxs, cancelled, false, calls) && key !in ctxs
    ensures ContextsOk(ctxs[key := c], cancelled, false, calls[c := Opening(key)])
  {
  }

  lemma ContextsEnd(ctxs: map<nat, Call>, cancelled: set<Call>, closed: bool, calls: map<Call, Pc>, c: Call, pc: Pc)
    requires ContextsOk(ctxs, cancelled, closed, calls) && c in calls && calls[c].Opening? && !pc.Opening?
    ensures ContextsOk(ctxs - {calls[c].key}, cancelled, closed, calls[c := pc])
  {
  }

  lemma KnownStays(arrivals: seq<Call>, calls: map<Call, Pc>, c: Call, pc: Pc)
    requires KnownOk(arrivals, calls)
    ensures KnownOk(arrivals, calls[c := pc]) && KnownOk(arrivals + [c], calls[c := pc])
  {
  }

  lemma StreamsOpened(t: Streams, closeErr: Option<Error>, id: StreamId)
    requires StreamsOk(t, closeErr) && id !in t.created
    ensures closeErr.None? ==> StreamsOk(t.(m := t.m + {id}, created := t.created + {id}), closeErr)
    ensures closeErr.Some? ==>
      StreamsOk(t.(errs := t.errs[id := closeErr.value], created := t.created + {id}), closeErr)
  {
  }

  // ---------- preservation by each critical section ----------

  /** Facts about one call that the invariant gives. */
  lemma CallFacts(s: State, c: Call)
    requires Inv(s)
    ensures c in s.past.line <==> c in s.calls && s.calls[c].InLine()
    ensures c in s.past.arrivals ==> c in s.calls
    ensures c in s.full ==> c in s.calls
    ensures forall x :: x in s.queue ==> x in s.calls
  {
  }

  lemma WokenIsHead(s: State, c: Call)
    requires Inv(s) && At(s, c, Woken) && s.closeErr.None?
    ensures s.queue != [] && s.queue[0] == c && s.num < s.max
  {
    assert HoldsToken(s.full, s.calls, c);
  }

  lemma ChannelsOpen(s: State)
    requires Inv(s)
    ensures s.closeErr.None? ==> s.closedChans == {} && NoDuplicates(s.queue)
    ensures s.closeErr.Some? ==> s.queue == []
  {
  }

  /** A call that holds nothing returns, or moves on within the line. */
  lemma MoveKeeps(s: State, c: Call, pc: Pc)
    requires Inv(s) && !pc.Announces() && !pc.Opening? && !(c in s.calls && s.calls[c].Announces())
    requires c in s.calls && s.calls[c].InLine() <==> pc.InLine()
    requires c in s.calls && s.calls[c].Reserves() <==> pc.Reserves()
    requires c in s.calls && s.calls[c].InLine() ==> (pc.Woken? <==> s.calls[c].Woken?)
    ensures Inv(s.(calls := s.calls[c := pc]))
  {
    hide LineOk, CreditOk, TokensOk, OrderOk, KnownOk, BlockedOk, PendingOk, StreamsOk, ContextsOk,
      NoDuplicates, TokensPre, HoldsToken;
    CallFacts(s, c);
    LineStays(s.past.line, s.calls, c, pc);
    CreditSame(s.closeErr.None?, s.num, s.max, s.streams.created, s.calls, c, pc);
    TokensSame(s.queue, s.full, s.calls, s.num < s.max, c, pc);
    KnownStays(s.past.arrivals, s.calls, c, pc);
    PendingSame(s.blocked, s.calls, c, pc);
    ContextsSame(s.ctxs, s.cancelled, s.closeErr.Some?, s.calls, c, pc);
  }

  /** The call takes on an announcement, staying where it is in line. */
  lemma DecideKeeps(s: State, c: Call, pc: Pc)
    requires Inv(s) && !s.blocked.sent && pc.Announces() && pc.limit == s.max && !(c in s.calls && s.calls[c].Announces())
    requires c in s.calls && s.calls[c].InLine() <==> pc.InLine()
    requires c in s.calls && s.calls[c].Reserves() <==> pc.Reserves()
    requires c in s.calls ==> !s.calls[c].Woken?
    ensures Inv(Decide(s, c, pc))
  {
    hide LineOk, CreditOk, TokensOk, OrderOk, KnownOk, BlockedOk, PendingOk, StreamsOk, ContextsOk,
      NoDuplicates, TokensPre, HoldsToken;
    CallFacts(s, c);
    LineStays(s.past.line, s.calls, c, pc);
    CreditSame(s.closeErr.None?, s.num, s.max, s.streams.created, s.calls, c, pc);
    TokensSame(s.queue, s.full, s.calls, s.num < s.max, c, pc);
    KnownStays(s.past.arrivals, s.calls, c, pc);
    PendingDecided(s.blocked, s.max, s.calls, c, pc);
    ContextsSame(s.ctxs, s.cancelled, s.closeErr.Some?, s.calls, c, pc);
  }

  lemma DirectOpenKeeps(s: State, c: Call, id: StreamId)
    requires Inv(s) && c !in s.calls && id !in s.streams.created && s.closeErr.None? && s.queue == [] && s.num < s.max
    ensures Inv(OpenStream(s, c, QuicOk(id)))
  {
    hide LineOk, CreditOk, TokensOk, OrderOk, KnownOk, BlockedOk, PendingOk, StreamsOk, ContextsOk,
      NoDuplicates, TokensPre, HoldsToken;
    CallFacts(s, c);
    var pc := Returned(Opened(id));
    LineStays(s.past.line, s.calls, c, pc);
    TokensEmpty(s.full, s.calls, c, pc, s.num + 1 < s.max);
    KnownStays(s.past.arrivals, s.calls, c, pc);
    ContextsSame(s.ctxs, s.cancelled, false, s.calls, c, pc);
    OrderAtOnce(s.past, c);
    PendingSame(s.blocked, s.calls, c, pc);
    CreditCounted(s.num, s.max, s.streams.created, s.calls, c, pc, id);
    StreamsOpened(s.streams, s.closeErr, id);
  }

  lemma DirectOpenFailsKeeps(s: State, c: Call, err: Error)
    requires Inv(s) && c !in s.calls && s.closeErr.None? && s.queue == [] && s.num < s.max
    ensures Inv(OpenStream(s, c, QuicErr(err)))
  {
    hide LineOk, CreditOk, TokensOk, OrderOk, KnownOk, BlockedOk, PendingOk, StreamsOk, ContextsOk,
      NoDuplicates, TokensPre, HoldsToken;
    CallFacts(s, c);
    var pc := Returned(Failed(err));
    LineStays(s.past.line, s.calls, c, pc);
    TokensEmpty(s.full, s.calls, c, pc, s.num < s.max);
    KnownStays(s.past.arrivals, s.calls, c, pc);
    ContextsSame(s.ctxs, s.cancelled, false, s.calls, c, pc);
    OrderAtOnce(s.past, c);
    PendingSame(s.blocked, s.calls, c, pc);
    CreditSame(true, s.num, s.max, s.streams.created, s.calls, c, pc);
  }

  lemma OpenStreamKeeps(s: State, c: Call, q: QuicOpen)
    requires Inv(s) && c !in s.calls && Fresh(s, q)
    ensures Inv(OpenStream(s, c, q))
  {
    if s.closeErr.Some? || |s.queue| > 0 || (s.num >= s.max && s.blocked.sent) {
      MoveKeeps(s, c, OpenStream(s, c, q).calls[c]);
    } else if s.num >= s.max {
      DecideKeeps(s, c, OpenBlocked(s.max));
    } else {
      match q
      case QuicOk(id) => DirectOpenKeeps(s, c, id);
      case QuicErr(err) => DirectOpenFailsKeeps(s, c, err);
    }
  }

  lemma FastPathKeeps(s: State, c: Call, key: nat)
    requires Inv(s) && c !in s.calls && key !in s.ctxs && s.closeErr.None? && s.queue == [] && s.num < s.max
    ensures Inv(SyncEnter(s, c, false, key))
  {
    hide LineOk, CreditOk, TokensOk, OrderOk, KnownOk, BlockedOk, PendingOk, StreamsOk, ContextsOk,
      NoDuplicates, TokensPre, HoldsToken;
    CallFacts(s, c);
    var pc := Opening(key);
    LineStays(s.past.line, s.calls, c, pc);
    TokensEmpty(s.full, s.calls, c, pc, s.num + 1 < s.max);
    KnownStays(s.past.arrivals, s.calls, c, pc);
    ContextsStart(s.ctxs, s.cancelled, s.calls, c, key);
    OrderAtOnce(s.past, c);
    PendingSame(s.blocked, s.calls, c, pc);
    CreditTaken(s.num, s.max, s.streams.created, s.calls, c, pc);
  }

  lemma EnqueueKeeps(s: State, c: Call, key: nat)
    requires Inv(s) && c !in s.calls && s.closeErr.None? && (s.queue != [] || s.num >= s.max)
    requires s.num >= s.max ==> s.blocked.sent
    ensures Inv(SyncEnter(s, c, false, key))
  {
    hide LineOk, CreditOk, TokensOk, OrderOk, KnownOk, BlockedOk, PendingOk, StreamsOk, ContextsOk,
      NoDuplicates, TokensPre, HoldsToken;
    CallFacts(s, c);
    LineEnters(s.past.line, s.calls, c, Waiting);
    TokensEnter(s.queue, s.full, s.calls, s.num < s.max, c, Waiting);
    KnownStays(s.past.arrivals, s.calls, c, Waiting);
    ContextsSame(s.ctxs, s.cancelled, false, s.calls, c, Waiting);
    OrderEnter(s.past, c);
    CreditSame(true, s.num, s.max, s.streams.created, s.calls, c, Waiting);
    PendingSame(s.blocked, s.calls, c, Waiting);
  }

  lemma EnqueueBlockedKeeps(s: State, c: Call, key: nat)
    requires Inv(s) && c !in s.calls && s.closeErr.None? && s.num >= s.max && !s.blocked.sent
    ensures Inv(SyncEnter(s, c, false, key))
  {
    hide LineOk, CreditOk, TokensOk, OrderOk, KnownOk, BlockedOk, PendingOk, StreamsOk, ContextsOk,
      NoDuplicates, TokensPre, HoldsToken;
    CallFacts(s, c);
    var pc := QueuedBlocked(s.max);
    LineEnters(s.past.line, s.calls, c, pc);
    TokensEnter(s.queue, s.full, s.calls, s.num < s.max, c, pc);
    KnownStays(s.past.arrivals, s.calls, c, pc);
    ContextsSame(s.ctxs, s.cancelled, false, s.calls, c, pc);
    OrderEnter(s.past, c);
    CreditSame(true, s.num, s.max, s.streams.created, s.calls, c, pc);
    PendingDecided(s.blocked, s.max, s.calls, c, pc);
  }

  lemma SyncEnterKeeps(s: State, c: Call, ctxErr: bool, key: nat)
    requires Inv(s) && c !in s.calls && key !in s.ctxs
    ensures Inv(SyncEnter(s, c, ctxErr, key))
  {
    if s.closeErr.Some? || ctxErr {
      MoveKeeps(s, c, SyncEnter(s, c, ctxErr, key).calls[c]);
    } else if |s.queue| == 0 && s.num < s.max {
      FastPathKeeps(s, c, key);
    } else if s.num >= s.max && !s.blocked.sent {
      EnqueueBlockedKeeps(s, c, key);
    } else {
      EnqueueKeeps(s, c, key);
    }
  }

  lemma AnnounceKeeps(s: State, c: Call)
    requires Inv(s) && c in s.calls && s.calls[c].Announces()
    ensures Inv(Announce(s, c))
  {
    hide LineOk, CreditOk, TokensOk, OrderOk, KnownOk, BlockedOk, PendingOk, StreamsOk, ContextsOk,
      NoDuplicates, TokensPre, HoldsToken;
    CallFacts(s, c);
    var pc := Announce(s, c).calls[c];
    LineStays(s.past.line, s.calls, c, pc);
    CreditSame(s.closeErr.None?, s.num, s.max, s.streams.created, s.calls, c, pc);
    TokensSame(s.queue, s.full, s.calls, s.num < s.max, c, pc);
    KnownStays(s.past.arrivals, s.calls, c, pc);
    PendingAnnounced(s.blocked, s.max, s.calls, c, pc);
    ContextsSame(s.ctxs, s.cancelled, s.closeErr.Some?, s.calls, c, pc);
  }

  lemma LeaveKeeps(s: State, c: Call, err: Error)
    requires Inv(s) && c in s.past.line && !s.calls[c].Announces() && s.closeErr.Some?
    ensures Inv(Leave(s, c, err))
  {
    hide LineOk, CreditOk, TokensOk, OrderOk, KnownOk, BlockedOk, PendingOk, StreamsOk, ContextsOk,
      NoDuplicates, TokensPre, HoldsToken;
    CallFacts(s, c);
    var pc := Returned(Failed(err));
    LineLeaves(s.past.line, s.calls, c, pc);
    CreditSame(false, s.num, s.max, s.streams.created, s.calls, c, pc);
    TokensSame(s.queue, s.full, s.calls, s.num < s.max, c, pc);
    KnownStays(s.past.arrivals, s.calls, c, pc);
    OrderLeave(s.past, c);
    PendingSame(s.blocked, s.calls, c, pc);
    ContextsSame(s.ctxs, s.cancelled, true, s.calls, c, pc);
  }

  lemma CancelKeeps(s: State, c: Call)
    requires Inv(s) && c in s.calls && (s.calls[c].Cancelling? || s.calls[c].Woken?)
    ensures Inv(Cancel(s, c))
  {
    CallFacts(s, c);
    if s.closeErr.Some? {
      LeaveKeeps(s, c, ContextDone);
    } else {
      CancelOpenKeeps(s, c);
    }
  }

  lemma CancelOpenKeeps(s: State, c: Call)
    requires Inv(s) && c in s.past.line && !s.calls[c].Announces() && s.closeErr.None?
    ensures Inv(Cancel(s, c))
  {
    hide LineOk, CreditOk, TokensOk, OrderOk, KnownOk, BlockedOk, PendingOk, StreamsOk, ContextsOk,
      NoDuplicates, TokensPre, HoldsToken;
    CallFacts(s, c);
    var pc := Returned(Failed(ContextDone));
    LineLeaves(s.past.line, s.calls, c, pc);
    CreditSame(true, s.num, s.max, s.streams.created, s.calls, c, pc);
    TokensLeave(s.queue, s.full, s.calls, s.num < s.max, c, pc, s.num < s.max);
    TokensUnblocked(Without(s.queue, c), s.full, s.calls[c := pc], s.num < s.max);
    KnownStays(s.past.arrivals, s.calls, c, pc);
    OrderLeave(s.past, c);
    PendingSame(s.blocked, s.calls, c, pc);
    ContextsSame(s.ctxs, s.cancelled, false, s.calls, c, pc);
  }

  /** The head takes credit: what holds whichever way it goes on. */
  lemma TakeFacts(s: State, c: Call, pc: Pc)
    requires Inv(s) && At(s, c, Woken) && s.closeErr.None? && pc.Reserves()
    ensures s.queue != [] && s.queue[0] == c && Without(s.queue, c) == s.queue[1..] == Without(s.past.line, c)
    ensures LineOk(s.queue[1..], s.calls[c := pc]) && NoDuplicates(s.queue[1..])
    ensures CreditOk(true, s.num + 1, s.max, s.streams.created, s.calls[c := pc])
    ensures TokensOk(s.queue[1..], if |s.queue| > 1 && s.num + 1 < s.max then s.full + {s.queue[1]} else s.full,
                     s.calls[c := pc], s.num + 1 < s.max)
    ensures KnownOk(s.past.arrivals, s.calls[c := pc])
    ensures OrderOk(s.past.(line := s.queue[1..], reserved := s.past.reserved + [c]))
  {
    hide LineOk, CreditOk, TokensOk, OrderOk, KnownOk, BlockedOk, PendingOk, StreamsOk, ContextsOk,
      NoDuplicates, TokensPre, HoldsToken;
    CallFacts(s, c);
    WokenIsHead(s, c);
    WithoutHead(s.queue);
    LineLeaves(s.past.line, s.calls, c, pc);
    CreditTaken(s.num, s.max, s.streams.created, s.calls, c, pc);
    TokensLeave(s.queue, s.full, s.calls, s.num < s.max, c, pc, s.num + 1 < s.max);
    TokensUnblocked(s.queue[1..], s.full, s.calls[c := pc], s.num + 1 < s.max);
    KnownStays(s.past.arrivals, s.calls, c, pc);
    OrderTake(s.past);
  }

  /** The head takes the last credit with others behind it, and announces that they are blocked. */
  lemma TakeLastKeeps(s: State, c: Call, key: nat)
    requires Inv(s) && At(s, c, Woken) && s.closeErr.None?
    requires |s.queue| > 1 && s.num + 1 >= s.max && !s.blocked.sent
    ensures Inv(Wake(s, c, false, key))
  {
    hide LineOk, CreditOk, TokensOk, OrderOk, KnownOk, BlockedOk, PendingOk, StreamsOk, ContextsOk,
      NoDuplicates, TokensPre, HoldsToken;
    CallFacts(s, c);
    WokenIsHead(s, c);
    var pc := ReservedBlocked(s.max);
    TakeFacts(s, c, pc);
    PendingDecided(s.blocked, s.max, s.calls, c, pc);
    ContextsSame(s.ctxs, s.cancelled, false, s.calls, c, pc);
  }

  lemma TakeKeeps(s: State, c: Call, key: nat)
    requires Inv(s) && At(s, c, Woken) && key !in s.ctxs && s.closeErr.None?
    requires !(|s.queue| > 1 && s.num + 1 >= s.max && !s.blocked.sent)
    ensures Inv(Wake(s, c, false, key))
  {
    hide LineOk, CreditOk, TokensOk, OrderOk, KnownOk, BlockedOk, PendingOk, StreamsOk, ContextsOk,
      NoDuplicates, TokensPre, HoldsToken;
    CallFacts(s, c);
    WokenIsHead(s, c);
    var pc := Opening(key);
    TakeFacts(s, c, pc);
    PendingSame(s.blocked, s.calls, c, pc);
    ContextsStart(s.ctxs, s.cancelled, s.calls, c, key);
  }

  lemma WakeKeeps(s: State, c: Call, ctxErr: bool, key: nat)
    requires Inv(s) && At(s, c, Woken) && key !in s.ctxs
    ensures Inv(Wake(s, c, ctxErr, key))
  {
    CallFacts(s, c);
    if s.closeErr.Some? {
      LeaveKeeps(s, c, s.closeErr.value);
    } else if ctxErr {
      CancelKeeps(s, c);
    } else if |s.queue| > 1 && s.num + 1 >= s.max && !s.blocked.sent {
      TakeLastKeeps(s, c, key);
    } else {
      TakeKeeps(s, c, key);
    }
  }

  lemma ResumeQueuedKeeps(s: State, c: Call)
    requires Inv(s) && At(s, c, QueuedAnnounced)
    ensures Inv(ResumeQueued(s, c))
  {
    CallFacts(s, c);
    if s.closeErr.Some? {
      LeaveKeeps(s, c, s.closeErr.value);
    } else {
      MoveKeeps(s, c, Waiting);
    }
  }

  lemma ReceiveKeeps(s: State, c: Call)
    requires Inv(s) && At(s, c, Waiting) && (c in s.full || c in s.closedChans)
    ensures Inv(Receive(s, c))
  {
    hide LineOk, CreditOk, TokensOk, OrderOk, KnownOk, BlockedOk, PendingOk, StreamsOk, ContextsOk,
      NoDuplicates, TokensPre, HoldsToken;
    CallFacts(s, c);
    LineStays(s.past.line, s.calls, c, Woken);
    CreditSame(s.closeErr.None?, s.num, s.max, s.streams.created, s.calls, c, Woken);
    TokensReceived(s.queue, s.full, s.calls, s.num < s.max, c);
    KnownStays(s.past.arrivals, s.calls, c, Woken);
    PendingSame(s.blocked, s.calls, c, Woken);
    ContextsSame(s.ctxs, s.cancelled, s.closeErr.Some?, s.calls, c, Woken);
  }

  /** With the map closed, a call gives up its reservation. */
  lemma ReleaseKeeps(s: State, c: Call, o: Outcome)
    requires Inv(s) && s.closeErr.Some? && c in s.calls && s.calls[c].Reserves() && !s.calls[c].Announces()
    ensures Inv(Return(s, c, o))
    ensures s.calls[c].Opening? ==> Inv(Return(s, c, o).(ctxs := s.ctxs - {s.calls[c].key}))
  {
    hide LineOk, CreditOk, TokensOk, OrderOk, KnownOk, BlockedOk, PendingOk, StreamsOk, ContextsOk,
      NoDuplicates, TokensPre, HoldsToken;
    CallFacts(s, c);
    var pc := Returned(o);
    LineStays(s.past.line, s.calls, c, pc);
    CreditReleased(false, s.num, s.max, s.streams.created, s.calls, c, pc);
    TokensSame(s.queue, s.full, s.calls, s.num < s.max, c, pc);
    KnownStays(s.past.arrivals, s.calls, c, pc);
    PendingSame(s.blocked, s.calls, c, pc);
    ContextsSame(s.ctxs, s.cancelled, true, s.calls, c, pc);
    if s.calls[c].Opening? {
      ContextsEnd(s.ctxs, s.cancelled, true, s.calls, c, pc);
    }
  }

  lemma ResumeReservedKeeps(s: State, c: Call, key: nat)
    requires Inv(s) && At(s, c, ReservedAnnounced) && key !in s.ctxs
    ensures Inv(ResumeReserved(s, c, key))
  {
    CallFacts(s, c);
    if s.closeErr.Some? {
      ReleaseKeeps(s, c, Failed(s.closeErr.value));
    } else {
      ReopenKeeps(s, c, key);
    }
  }

  lemma ReopenKeeps(s: State, c: Call, key: nat)
    requires Inv(s) && At(s, c, ReservedAnnounced) && key !in s.ctxs && s.closeErr.None?
    ensures Inv(StartOpening(s, c, key))
  {
    hide LineOk, CreditOk, TokensOk, OrderOk, KnownOk, BlockedOk, PendingOk, StreamsOk, ContextsOk,
      NoDuplicates, TokensPre, HoldsToken;
    CallFacts(s, c);
    var pc := Opening(key);
    LineStays(s.past.line, s.calls, c, pc);
    CreditSame(true, s.num, s.max, s.streams.created, s.calls, c, pc);
    TokensSame(s.queue, s.full, s.calls, s.num < s.max, c, pc);
    KnownStays(s.past.arrivals, s.calls, c, pc);
    PendingSame(s.blocked, s.calls, c, pc);
    ContextsStart(s.ctxs, s.cancelled, s.calls, c, key);
  }

  lemma FinishOkKeeps(s: State, c: Call, id: StreamId)
    requires Inv(s) && c in s.calls && s.calls[c].Opening? && id !in s.streams.created
    ensures Inv(Finish(s, c, QuicOk(id)))
  {
    hide LineOk, CreditOk, TokensOk, OrderOk, KnownOk, BlockedOk, PendingOk, StreamsOk, ContextsOk,
      NoDuplicates, TokensPre, HoldsToken;
    CallFacts(s, c);
    var pc := Finish(s, c, QuicOk(id)).calls[c];
    LineStays(s.past.line, s.calls, c, pc);
    CreditOpened(s.closeErr.None?, s.num, s.max, s.streams.created, s.calls, c, pc, id);
    TokensSame(s.queue, s.full, s.calls, s.num < s.max, c, pc);
    KnownStays(s.past.arrivals, s.calls, c, pc);
    PendingSame(s.blocked, s.calls, c, pc);
    ContextsEnd(s.ctxs, s.cancelled, s.closeErr.Some?, s.calls, c, pc);
    StreamsOpened(s.streams, s.closeErr, id);
  }

  /** The reservation is rolled back, and the next waiter may go. */
  lemma RollbackKeeps(s: State, c: Call, err: Error)
    requires Inv(s) && c in s.calls && s.calls[c].Opening? && s.closeErr.None?
    ensures Inv(Finish(s, c, QuicErr(err)))
  {
    hide LineOk, CreditOk, TokensOk, OrderOk, KnownOk, BlockedOk, PendingOk, StreamsOk, ContextsOk,
      NoDuplicates, TokensPre, HoldsToken;
    CallFacts(s, c);
    var pc := Returned(Failed(err));
    LineStays(s.past.line, s.calls, c, pc);
    CreditReleased(true, s.num, s.max, s.streams.created, s.calls, c, pc);
    TokensSame(s.queue, s.full, s.calls, s.num < s.max, c, pc);
    TokensMoreCredit(s.queue, s.full, s.calls[c := pc], s.num < s.max);
    TokensUnblocked(s.queue, s.full, s.calls[c := pc], true);
    KnownStays(s.past.arrivals, s.calls, c, pc);
    PendingSame(s.blocked, s.calls, c, pc);
    ContextsEnd(s.ctxs, s.cancelled, false, s.calls, c, pc);
  }

  lemma FinishKeeps(s: State, c: Call, q: QuicOpen)
    requires Inv(s) && c in s.calls && s.calls[c].Opening? && Fresh(s, q)
    ensures Inv(Finish(s, c, q))
  {
    match q
    case QuicOk(id) => FinishOkKeeps(s, c, id);
    case QuicErr(err) =>
      if s.closeErr.Some? {
        ReleaseKeeps(s, c, Failed(s.closeErr.value));
      } else {
        RollbackKeeps(s, c, err);
      }
  }

  lemma LimitRaised(s: State, limit: nat)
    requires CreditOk(true, s.num, s.max, s.streams.created, s.calls) && BlockedOk(s.blocked, s.max) && PendingOk(s.blocked, s.calls)
    requires s.max < limit
    ensures CreditOk(true, s.num, limit, s.streams.created, s.calls) && s.num < limit
    ensures BlockedOk(s.blocked.(sent := false), limit) && PendingOk(s.blocked.(sent := false), s.calls)
  {
  }

  lemma UpdateStreamLimitKeeps(s: State, limit: nat)
    requires Inv(s)
    ensures Inv(UpdateStreamLimit(s, limit))
  {
    hide LineOk, CreditOk, TokensOk, OrderOk, KnownOk, BlockedOk, PendingOk, StreamsOk, ContextsOk,
      NoDuplicates, TokensPre, HoldsToken;
    CallFacts(s, 0);
    if s.closeErr.None? && limit > s.max {
      LimitRaised(s, limit);
      TokensMoreCredit(s.queue, s.full, s.calls, s.num < s.max);
      TokensUnblocked(s.queue, s.full, s.calls, true);
    }
  }

  lemma RemoveStreamKeeps(s: State, id: StreamId)
    requires Inv(s)
    ensures Inv(RemoveStream(s, id))
  {
    assert StreamsOk(RemoveStream(s, id).streams, s.closeErr);
    hide LineOk, CreditOk, TokensOk, OrderOk, KnownOk, BlockedOk, PendingOk, StreamsOk, ContextsOk,
      NoDuplicates, TokensPre, HoldsToken;
  }

  lemma ContextsClosed(ctxs: map<nat, Call>, cancelled: set<Call>, calls: map<Call, Pc>)
    requires ContextsOk(ctxs, cancelled, false, calls)
    ensures ContextsOk(ctxs, cancelled + ctxs.Values, true, calls)
  {
    forall c | c in calls && calls[c].Opening?
      ensures c in ctxs.Values
    {
      assert ctxs[calls[c].key] == c;
    }
  }

  lemma StreamsClosed(t: Streams, err: Error)
    requires StreamsOk(t, None)
    ensures StreamsOk(t.(errs := t.errs + (map id | id in t.m :: err), m := {}), Some(err))
  {
  }

  lemma RestCloses(num: int, max: nat, created: set<StreamId>, queue: seq<Call>, full: set<Call>, calls: map<Call, Pc>)
    requires CreditOk(true, num, max, created, calls) && TokensOk(queue, full, calls, num < max)
    ensures CreditOk(false, num, max, created, calls) && TokensOk([], full, calls, num < max)
  {
  }

  lemma CloseSessionKeeps(s: State, err: Error)
    requires Inv(s)
    ensures Inv(CloseSession(s, err))
  {
    hide LineOk, CreditOk, TokensOk, OrderOk, KnownOk, BlockedOk, PendingOk, StreamsOk, ContextsOk,
      NoDuplicates, TokensPre, HoldsToken;
    if s.closeErr.None? {
      ContextsClosed(s.ctxs, s.cancelled, s.calls);
      StreamsClosed(s.streams, err);
      RestCloses(s.num, s.max, s.streams.created, s.queue, s.full, s.calls);
    }
  }

  lemma StepKeeps(s: State, a: Action)
    requires Inv(s) && Enabled(s, a)
    ensures Inv(Next(s, a))
  {
    match a
    case DoOpen(c, q) => OpenStreamKeeps(s, c, q);
    case DoSyncEnter(c, ctxErr, key) => SyncEnterKeeps(s, c, ctxErr, key);
    case DoAnnounce(c) => AnnounceKeeps(s, c);
    case DoResumeQueued(c) => ResumeQueuedKeeps(s, c);
    case DoReceive(c) => ReceiveKeeps(s, c);
    case DoContextEnds(c) => MoveKeeps(s, c, Cancelling);
    case DoCancel(c) => CancelKeeps(s, c);
    case DoWake(c, ctxErr, key) => WakeKeeps(s, c, ctxErr, key);
    case DoResumeReserved(c, key) => ResumeReservedKeeps(s, c, key);
    case DoFinish(c, q) => FinishKeeps(s, c, q);
    case DoRemove(id) => RemoveStreamKeeps(s, id);
    case DoUpdate(limit) => UpdateStreamLimitKeeps(s, limit);
    case DoClose(err) => CloseSessionKeeps(s, err);
  }

  // ---------- what a call's step leaves alone ----------

  /** Only one call moves; limit and error stay, and no stream is forgotten. */
  ghost predicate OnlyMoves(s: State, r: State, c: Call) {
    && r.max == s.max && r.closeErr == s.closeErr && s.streams.created <= r.streams.created
    && forall d :: d != c ==> (d in r.calls <==> d in s.calls) && (d in s.calls ==> r.calls[d] == s.calls[d])
  }

  lemma OpenMoves(s: State, c: Call, q: QuicOpen)
    ensures OnlyMoves(s, OpenStream(s, c, q), c)
  {
  }

  lemma SyncEnterMoves(s: State, c: Call, ctxErr: bool, key: nat)
    ensures OnlyMoves(s, SyncEnter(s, c, ctxErr, key), c)
  {
  }

  lemma CancelMoves(s: State, c: Call)
    ensures OnlyMoves(s, Cancel(s, c), c)
  {
    hide Without;
  }

  lemma WakeMoves(s: State, c: Call, ctxErr: bool, key: nat)
    ensures OnlyMoves(s, Wake(s, c, ctxErr, key), c)
  {
    CancelMoves(s, c);
    hide Without, Cancel;
  }

  lemma FinishMoves(s: State, c: Call, q: QuicOpen)
    requires c in s.calls && s.calls[c].Opening?
    ensures OnlyMoves(s, Finish(s, c, q), c)
  {
  }

  lemma RestMoves(s: State, a: Action)
    requires Enabled(s, a) && (a.DoAnnounce? || a.DoResumeQueued? || a.DoReceive? || a.DoContextEnds? || a.DoResumeReserved?)
    ensures OnlyMoves(s, Next(s, a), a.c)
  {
    hide Without;
  }

  predicate IsCall(a: Action) {
    !a.DoRemove? && !a.DoUpdate? && !a.DoClose?
  }

  lemma CallMoves(s: State, a: Action)
    requires Enabled(s, a) && IsCall(a)
    ensures OnlyMoves(s, Next(s, a), a.c)
  {
    hide OpenStream, SyncEnter, Cancel, Wake, Finish, OnlyMoves;
    match a
    case DoOpen(c, q) => OpenMoves(s, c, q);
    case DoSyncEnter(c, ctxErr, key) => SyncEnterMoves(s, c, ctxErr, key);
    case DoCancel(c) => CancelMoves(s, c);
    case DoWake(c, ctxErr, key) => WakeMoves(s, c, ctxErr, key);
    case DoFinish(c, q) => FinishMoves(s, c, q);
    case _ => RestMoves(s, a);
  }

  // ---------- every run ----------

  lemma InitOk(limit: nat)
    ensures Inv(Init(limit))
  {
    assert Reserving(Init(limit).calls) == {};
  }

  /** The invariant holds in every state of every run. */
  lemma {:induction false} RunKeeps(states: seq<State>, actions: seq<Action>, i: nat)
    requires IsRun(states, actions) && i < |states|
    ensures Inv(states[i])
  {
    if i == 0 {
      var limit: nat :| states[0] == Init(limit);
      InitOk(limit);
    } else {
      RunKeeps(states, actions, i - 1);
      StepKeeps(states[i - 1], actions[i - 1]);
    }
  }

  /**
   In every state of every run the streams counted stay within the limit, though
   the woken waiter counts without looking at it; while the map is open they are
   the streams opened plus the reservations in flight, so that rolling one back
   never goes below zero; and no channel operation panics.
   */
  lemma CreditIsSafe(states: seq<State>, actions: seq<Action>, i: nat)
    requires IsRun(states, actions) && i < |states|
    ensures
      var s := states[i];
      && 0 <= s.num <= s.max
      && (s.closeErr.None? ==> s.num == |s.streams.created| + |Reserving(s.calls)|)
      && |s.streams.created| <= s.num
      && (forall c :: c in s.calls && s.calls[c].Opening? && s.closeErr.None? ==> s.num >= 1)
      && !s.panicked
  {
    RunKeeps(states, actions, i);
    var s := states[i];
    forall c | c in s.calls && s.calls[c].Opening? && s.closeErr.None?
      ensures s.num >= 1
    {
      assert c in Reserving(s.calls);
    }
  }

  /**
   No wake-up is lost: an open map with callers in the queue and credit left has
   given its head a token. And only the head is ever given one.
   */
  lemma NoLostWakeUp(states: seq<State>, actions: seq<Action>, i: nat)
    requires IsRun(states, actions) && i < |states| && states[i].closeErr.None?
    ensures
      var s := states[i];
      && (s.queue != [] && s.num < s.max ==> s.queue[0] in s.full || At(s, s.queue[0], Woken))
      && (forall c :: c in s.queue && (c in s.full || At(s, c, Woken)) ==> c == s.queue[0] && s.num < s.max)
  {
    RunKeeps(states, actions, i);
    var s := states[i];
    forall c | c in s.queue && (c in s.full || At(s, c, Woken))
      ensures c == s.queue[0] && s.num < s.max
    {
      assert HoldsToken(s.full, s.calls, c);
    }
  }

  /**
   No overtaking: the calls that took credit, followed by those still in line, are
   the calls that asked for it, in the order they asked, without those that left.
   While the map is open the line is its queue.
   */
  lemma NoOvertaking(states: seq<State>, actions: seq<Action>, i: nat)
    requires IsRun(states, actions) && i < |states|
    ensures
      var s := states[i];
      && s.past.reserved + s.past.line == Excluding(s.past.arrivals, s.past.left)
      && (s.closeErr.None? ==> s.queue == s.past.line)
      && (forall c :: c in s.past.line <==> c in s.calls && s.calls[c].InLine())
  {
    RunKeeps(states, actions, i);
  }

  ghost predicate SameAnnouncement(s: State, c: Call, d: Call) {
    && c in s.calls && d in s.calls
    && s.calls[c].Announces() && s.calls[d].Announces()
    && s.calls[c].limit == s.calls[d].limit
  }

  /**
   Each limit is announced at most once, by the one call that took it on; while
   callers are queued and no credit is left, the current limit has been taken on.
   */
  lemma AnnouncedOnce(states: seq<State>, actions: seq<Action>, i: nat)
    requires IsRun(states, actions) && i < |states|
    ensures
      var s := states[i];
      && NoDuplicates(s.blocked.announced)
      && (s.queue != [] && s.num >= s.max ==>
            s.max in s.blocked.announced || exists c :: c in s.calls && s.calls[c].Announces() && s.calls[c].limit == s.max)
      && (forall c :: c in s.calls && s.calls[c].Announces() ==> s.calls[c].limit !in s.blocked.announced)
      && (forall c, d :: SameAnnouncement(s, c, d) ==> c == d)
  {
    RunKeeps(states, actions, i);
  }

  /**
   Once the map is closed, every stream ever opened through it and not removed
   before has been closed with that error, whether it was registered by then or
   opened by a call still under way; those calls have had their context cancelled;
   nobody is left in the queue; and later calls fail with the error.
   */
  lemma CloseLeavesNone(states: seq<State>, actions: seq<Action>, i: nat)
    requires IsRun(states, actions) && i < |states| && states[i].closeErr.Some?
    ensures
      var s := states[i];
      && s.streams.m == {} && s.queue == []
      && (forall id :: id in s.streams.created && id !in s.streams.removed ==>
            id in s.streams.errs && s.streams.errs[id] == s.closeErr.value)
      && (forall c :: c in s.calls && s.calls[c].Opening? ==> c in s.cancelled)
      && (forall c, q :: OpenStream(s, c, q).calls[c] == Returned(Failed(s.closeErr.value)))
      && (forall c, ctxErr, key :: SyncEnter(s, c, ctxErr, key).calls[c] == Returned(Failed(s.closeErr.value)))
  {
    RunKeeps(states, actions, i);
  }

  // ---------- what becomes of a call ----------

  lemma FreshKey(ctxs: map<nat, Call>) returns (key: nat)
    ensures key !in ctxs
  {
    key := Bound(ctxs.Keys);
  }

  /** A number above all of a set. */
  lemma {:induction false} Bound(keys: set<nat>) returns (above: nat)
    ensures forall k :: k in keys ==> k < above
    decreases |keys|
  {
    if keys == {} {
      above := 0;
    } else {
      var k :| k in keys;
      var rest := Bound(keys - {k});
      above := if k < rest then rest else k + 1;
      assert forall x :: x in keys ==> x == k || x in keys - {k};
    }
  }

  /**
   No call is stuck: it can go on by itself, unless it waits in the queue of an open map
   for the credit or for the calls before it. A close lets all of them go on.
   */
  lemma NobodyStuck(states: seq<State>, actions: seq<Action>, i: nat, c: Call) returns (a: Action)
    requires IsRun(states, actions) && i < |states| && c in states[i].calls && !states[i].calls[c].Returned?
    ensures
      var s := states[i];
      || (IsCall(a) && a.c == c && Enabled(s, a))
      || (s.calls[c].Waiting? && s.closeErr.None? && c in s.queue && (c != s.queue[0] || s.num >= s.max))
  {
    hide Inv;
    RunKeeps(states, actions, i);
    var s := states[i];
    WaiterFacts(s, c);
    var key := FreshKey(s.ctxs);
    a := match s.calls[c]
      case OpenBlocked(_) => DoAnnounce(c)
      case QueuedBlocked(_) => DoAnnounce(c)
      case ReservedBlocked(_) => DoAnnounce(c)
      case QueuedAnnounced => DoResumeQueued(c)
      case Waiting => DoReceive(c)
      case Cancelling => DoCancel(c)
      case Woken => DoWake(c, false, key)
      case ReservedAnnounced => DoResumeReserved(c, key)
      case _ => DoFinish(c, QuicErr(ContextDone));
  }

  /** A waiter's channel is closed with the map; while the map is open it waits in the queue, and has a token at its head if there is credit. */
  lemma WaiterFacts(s: State, c: Call)
    requires Inv(s)
    ensures At(s, c, Waiting) && s.closeErr.Some? ==> c in s.closedChans
    ensures At(s, c, Waiting) && s.closeErr.None? ==> c in s.queue && (c == s.queue[0] && s.num < s.max ==> c in s.full)
  {
    hide CreditOk, OrderOk, KnownOk, BlockedOk, PendingOk, StreamsOk, ContextsOk, NoDuplicates;
    if At(s, c, Waiting) {
      assert c in s.past.line;
      assert HoldsToken(s.full, s.calls, c) <==> c in s.full;
    }
  }

  /** The call's context ended before it took credit. */
  predicate EndsContext(a: Action) {
    a.DoCancel? || (a.DoSyncEnter? && a.ctxErr) || (a.DoWake? && a.ctxErr)
  }

  lemma CloseErrStays(s: State, a: Action)
    requires Enabled(s, a) && s.closeErr.Some?
    ensures Next(s, a).closeErr == s.closeErr
  {
    if IsCall(a) {
      CallMoves(s, a);
      hide Next;
    }
  }

  lemma OtherCallsStay(s: State, a: Action, c: Call)
    requires Enabled(s, a) && c in s.calls && (IsCall(a) ==> a.c != c)
    ensures c in Next(s, a).calls && Next(s, a).calls[c] == s.calls[c]
  {
    if IsCall(a) {
      CallMoves(s, a);
      hide Next;
    }
  }

  /** What a step of an OpenStreamSync call can make it return. */
  ghost predicate StepExplains(s: State, a: Action, pc: Pc)
    requires IsCall(a)
  {
    && !pc.OpenBlocked?
    && (pc.Returned? ==>
          match pc.outcome
          case Opened(id) => a == DoFinish(a.c, QuicOk(id))
          case Failed(err) =>
            || s.closeErr == Some(err)
            || (err == ContextDone && EndsContext(a))
            || a == DoFinish(a.c, QuicErr(err)))
  }

  lemma CallExplained(s: State, a: Action)
    requires Enabled(s, a) && IsCall(a) && !a.DoOpen? && (a.c in s.calls ==> !s.calls[a.c].OpenBlocked?)
    ensures a.c in Next(s, a).calls && StepExplains(s, a, Next(s, a).calls[a.c])
  {
    hide Without;
    match a
    case DoWake(c, ctxErr, key) => hide Unblock; WakeExplained(s, c, ctxErr, key);
    case _ =>
  }

  lemma WakeExplained(s: State, c: Call, ctxErr: bool, key: nat)
    requires At(s, c, Woken)
    ensures c in Wake(s, c, ctxErr, key).calls && StepExplains(s, DoWake(c, ctxErr, key), Wake(s, c, ctxErr, key).calls[c])
  {
    hide Without;
  }

  ghost predicate Entered(actions: seq<Action>, i: nat, c: Call)
    requires i <= |actions|
  {
    exists j :: 0 <= j < i && actions[j].DoSyncEnter? && actions[j].c == c
  }

  /** Why a call returned what it did, by the error of the map and the actions so far. */
  ghost predicate Explained(closeErr: Option<Error>, actions: seq<Action>, i: nat, c: Call, o: Outcome)
    requires i <= |actions|
  {
    match o
    case Opened(id) => exists j :: 0 <= j < i && actions[j] == DoFinish(c, QuicOk(id))
    case Failed(err) =>
      || closeErr == Some(err)
      || (err == ContextDone && exists j :: 0 <= j < i && IsCall(actions[j]) && actions[j].c == c && EndsContext(actions[j]))
      || exists j :: 0 <= j < i && actions[j] == DoFinish(c, QuicErr(err))
  }

  /**
   An OpenStreamSync call returns a stream only if QUIC opened it, and otherwise only the
   close error, its context's end, or QUIC's error: without credit it waits.
   */
  lemma {:induction false} SyncOutcomes(states: seq<State>, actions: seq<Action>, i: nat, c: Call)
    requires IsRun(states, actions) && i < |states| && Entered(actions, i, c)
    ensures c in states[i].calls && !states[i].calls[c].OpenBlocked?
    ensures states[i].calls[c].Returned? ==> Explained(states[i].closeErr, actions, i, c, states[i].calls[c].outcome)
  {
    hide Next, Enabled, Init;
    var s, a := states[i - 1], actions[i - 1];
    assert Enabled(s, a) && states[i] == Next(s, a);
    if s.closeErr.Some? {
      CloseErrStays(s, a);
    }
    if IsCall(a) && a.c == c {
      if !a.DoSyncEnter? {
        SyncOutcomes(states, actions, i - 1, c);
        OpensOnce(s, a);
        CallExplained(s, a);
      } else {
        OpensOnce(s, a);
        CallExplained(s, a);
      }
      CallMoves(s, a);
    } else {
      SyncOutcomes(states, actions, i - 1, c);
      OtherCallsStay(s, a, c);
    }
  }

  lemma OpensOnce(s: State, a: Action)
    requires Enabled(s, a)
    ensures a.DoOpen? || a.DoSyncEnter? ==> a.c !in s.calls
  {
  }

  lemma Extend(states: seq<State>, actions: seq<Action>, a: Action) returns (more: seq<State>, done: seq<Action>)
    requires IsRun(states, actions) && Enabled(states[|states| - 1], a)
    ensures IsRun(more, done) && more != [] && more[|more| - 1] == Next(states[|states| - 1], a)
    ensures done == actions + [a]
  {
    hide Next, Enabled, Init;
    more, done := states + [Next(states[|states| - 1], a)], actions + [a];
  }

  /** A run in which a call that found no credit waits, and opens its stream after the next limit. */
  lemma WaiterOpens() returns (states: seq<State>, actions: seq<Action>)
    ensures IsRun(states, actions) && |actions| == 7
    ensures actions[0] == DoSyncEnter(1, false, 0) && actions[3] == DoUpdate(1)
    ensures
      var s := states[|states| - 1];
      At(s, 1, Returned(Opened(4))) && s.streams.m == {4} && s.blocked.announced == [0]
  {
    hide IsRun;
    states, actions := WokenRun();
    states, actions := Extend(states, actions, DoWake(1, false, 0));
    states, actions := Extend(states, actions, DoFinish(1, QuicOk(4)));
  }

  lemma WokenRun() returns (states: seq<State>, actions: seq<Action>)
    ensures IsRun(states, actions) && |actions| == 5 && actions[0] == DoSyncEnter(1, false, 0) && actions[3] == DoUpdate(1)
    ensures
      var s := states[|states| - 1];
      && At(s, 1, Woken) && s.queue == [1] && s.closeErr.None? && s.num == 0 && s.max == 1 && s.ctxs == map[]
      && s.streams == Streams({}, map[], {}, {}) && s.blocked.announced == [0] && s.past.line == [1]
  {
    hide IsRun;
    states, actions := QueuedRun();
    states, actions := Extend(states, actions, DoUpdate(1));
    states, actions := Extend(states, actions, DoReceive(1));
  }

  lemma QueuedRun() returns (states: seq<State>, actions: seq<Action>)
    ensures IsRun(states, actions) && |actions| == 3 && actions[0] == DoSyncEnter(1, false, 0)
    ensures
      var s := states[|states| - 1];
      && At(s, 1, Waiting) && s.queue == [1] && s.closeErr.None? && s.num == 0 && s.max == 0 && s.ctxs == map[] && s.closedChans == {}
      && s.full == {} && s.streams == Streams({}, map[], {}, {}) && s.blocked.announced == [0] && s.past.line == [1]
  {
    states, actions := [Init(0)], [];
    assert IsRun(states, actions);
    hide IsRun;
    states, actions := Extend(states, actions, DoSyncEnter(1, false, 0));
    states, actions := Extend(states, actions, DoAnnounce(1));
    states, actions := Extend(states, actions, DoResumeQueued(1));
  }

  /** The steps that calls take without the lock. */
  lemma UnlockedSteps(states: seq<State>, actions: seq<Action>, i: nat)
    requires IsRun(states, actions) && i < |actions|
    ensures
      var s, r, a := states[i], states[i + 1], actions[i];
      && (a.DoAnnounce? ==>
            && r.blocked.announced == s.blocked.announced + [s.calls[a.c].limit]
            && At(r, a.c, match s.calls[a.c]
                          case OpenBlocked(_) => Returned(Failed(StreamLimitReached))
                          case QueuedBlocked(_) => QueuedAnnounced
                          case _ => ReservedAnnounced))
      && (a.DoReceive? ==> At(r, a.c, Woken) && r.full == s.full - {a.c})
      && (a.DoContextEnds? ==> At(r, a.c, Cancelling) && r.full == s.full)
      && (a.DoAnnounce? || a.DoReceive? || a.DoContextEnds? ==>
            r.num == s.num && r.max == s.max && r.queue == s.queue && r.streams == s.streams && r.ctxs == s.ctxs)
  {
    assert states[i + 1] == Next(states[i], actions[i]);
  }
}
