/**
 The session's close lock: OpenStream and OpenUniStream hold it around the map's call,
 which may queue a capsule, and queueing a capsule closes the session if the queue is
 full. Closing takes the same lock.
 */
module SessionLock {
  import opened Common
  import Out = OutgoingStreams
  import W = CapsuleWriter

  const EXCESSIVE_LOAD := Http3Error(0x107)

  datatype State = State(
    closeErr: Option<Error>,
    holder: Option<Out.Call>,            // the OpenStream call that holds closeMx
    wants: map<Out.Call, Error>,         // goroutines in closeWithError that wait for closeMx
    out: Out.State,                      // the map that OpenStream works on
    queued: nat,                         // the length of capsuleQueue
    ctxDone: bool
  )

  function Init(limit: nat): (s: State) {
    State(None, None, map[], Out.Init(limit), 0, false)
  }

  datatype Action =
    | Lock(c: Out.Call)                  // OpenStream takes the lock and looks at closeErr
    | MapOpen(q: Out.QuicOpen)           // the map's OpenStream, up to its unlock
    | QueueBlocked                       // queueCapsule, called by the map on the same goroutine
    | Unlock                             // OpenStream returns
    | Queue(c: Out.Call)                 // any other goroutine queues a capsule
    | Close(c: Out.Call, err: Error)     // any other goroutine calls closeWithError
    | TakeLock(c: Out.Call)              // closeWithError gets the lock, and leaves it
    | ClearQueue
    | WriterPop
    | CancelContext
    | OnMap(out: Out.Action)             // any other step on the map

  predicate Idle(s: State, c: Out.Call) {
    s.holder != Some(c) && c !in s.wants
  }

  predicate Enabled(s: State, a: Action) {
    match a
    case Lock(c) => s.holder.None? && c !in s.out.calls && Idle(s, c)
    case MapOpen(q) => s.holder.Some? && s.holder.value !in s.out.calls && Out.Fresh(s.out, q)
    case QueueBlocked =>
      s.holder.Some? && s.holder.value in s.out.calls && s.out.calls[s.holder.value].OpenBlocked? && s.holder.value !in s.wants
    case Unlock => s.holder.Some? && s.holder.value in s.out.calls && s.out.calls[s.holder.value].Returned?
    case Queue(c) => Idle(s, c)
    case Close(c, _) => Idle(s, c)
    case TakeLock(c) => c in s.wants && s.holder.None?
    case ClearQueue => s.closeErr.Some?
    case WriterPop => s.queued > 0
    case CancelContext => true
    case OnMap(out) =>
      && !out.DoOpen? && Out.Enabled(s.out, out) && !ByHolder(s, out)
      && (out.DoClose? ==> s.closeErr == Some(out.err))
  }

  /** Steps that only the goroutine holding the lock could take. */
  predicate ByHolder(s: State, out: Out.Action) {
    (out.DoAnnounce? || out.DoSyncEnter?) && s.holder == Some(out.c)
  }

  function MayQueue(s: State, c: Out.Call): (r: State) {
    if s.ctxDone then s
    else if s.queued >= W.MAX_QUEUED then s.(wants := s.wants[c := EXCESSIVE_LOAD])
    else s.(queued := s.queued + 1)
  }

  function Next(s: State, a: Action): (r: State)
    requires Enabled(s, a)
  {
    match a
    case Lock(c) => if s.closeErr.Some? then s else s.(holder := Some(c))
    case MapOpen(q) => s.(out := Out.OpenStream(s.out, s.holder.value, q))
    case QueueBlocked =>
      var t := MayQueue(s, s.holder.value);
      if s.holder.value in t.wants then t else t.(out := Out.Announce(s.out, s.holder.value))
    case Unlock => s.(holder := None)
    case Queue(c) => MayQueue(s, c)
    case Close(c, err) => s.(wants := s.wants[c := err])
    case TakeLock(c) => s.(wants := s.wants - {c}, closeErr := if s.closeErr.None? then Some(s.wants[c]) else s.closeErr)
    case ClearQueue => s.(queued := 0)
    case WriterPop => s.(queued := s.queued - 1)
    case CancelContext => s.(ctxDone := true)
    case OnMap(out) => s.(out := Out.Next(s.out, out))
  }

  ghost predicate IsRun(states: seq<State>, actions: seq<Action>) {
    && |states| == |actions| + 1
    && (exists limit: nat :: states[0] == Init(limit))
    && forall i :: 0 <= i < |actions| ==> Enabled(states[i], actions[i]) && states[i + 1] == Next(states[i], actions[i])
  }

  /** The goroutine that holds the lock waits for it. */
  predicate Deadlocked(s: State) {
    s.holder.Some? && s.holder.value in s.wants
  }

  /** The lock is held only by a session that is open, by a call that announces or is about to return. */
  ghost predicate Inv(s: State) {
    s.holder.Some? ==>
      && s.closeErr.None?
      && (s.holder.value in s.out.calls ==> s.out.calls[s.holder.value].OpenBlocked? || s.out.calls[s.holder.value].Returned?)
      && (s.holder.value in s.wants ==> s.holder.value in s.out.calls && s.out.calls[s.holder.value].OpenBlocked?)
  }

  /** Other calls leave a call alone that announces or has returned. */
  lemma OthersFrame(s: Out.State, a: Out.Action, c: Out.Call)
    requires Out.Enabled(s, a) && !a.DoOpen? && (a.DoAnnounce? || a.DoSyncEnter? ==> a.c != c)
    requires c in s.calls ==> s.calls[c].OpenBlocked? || s.calls[c].Returned?
    ensures c in Out.Next(s, a).calls <==> c in s.calls
    ensures c in s.calls ==> Out.Next(s, a).calls[c] == s.calls[c]
  {
    if Out.IsCall(a) {
      Out.CallMoves(s, a);
      hide Out.Next;
    }
  }

  lemma OpensOrBlocks(s: Out.State, c: Out.Call, q: Out.QuicOpen)
    ensures
      var r := Out.OpenStream(s, c, q);
      && c in r.calls && (r.calls[c].OpenBlocked? || r.calls[c].Returned?)
      && (r.calls[c].OpenBlocked? <==> s.closeErr.None? && s.queue == [] && s.num >= s.max && !s.blocked.sent)
  {
  }

  lemma StepKeeps(s: State, a: Action)
    requires Inv(s) && Enabled(s, a)
    ensures Inv(Next(s, a))
    ensures Deadlocked(s) ==> Deadlocked(Next(s, a)) && Next(s, a).holder == s.holder
  {
    hide Out.OpenStream, Out.Next;
    match a
    case MapOpen(q) => OpensOrBlocks(s.out, s.holder.value, q);
    case OnMap(out) =>
      if s.holder.Some? {
        OthersFrame(s.out, out, s.holder.value);
      }
    case _ =>
  }

  lemma {:induction false} RunKeeps(states: seq<State>, actions: seq<Action>, i: nat)
    requires IsRun(states, actions) && i < |states|
    ensures Inv(states[i])
  {
    hide Next, Inv;
    if i == 0 {
      assert Inv(states[0]) by { StartOk(states[0]); }
    } else {
      RunKeeps(states, actions, i - 1);
      StepKeeps(states[i - 1], actions[i - 1]);
    }
  }

  lemma StartOk(s: State)
    requires s.holder.None?
    ensures Inv(s)
  {
  }

  /**
   Exactly one step leads into the deadlock: an OpenStream call that took on an
   announcement finds the context alive and the capsule queue full.
   */
  lemma DeadlockIff(states: seq<State>, actions: seq<Action>, i: nat)
    requires IsRun(states, actions) && i < |actions| && !Deadlocked(states[i])
    ensures Deadlocked(states[i + 1]) <==>
      actions[i] == QueueBlocked && !states[i].ctxDone && states[i].queued >= W.MAX_QUEUED
  {
    RunKeeps(states, actions, i);
    hide Out.OpenStream, Out.Next, Out.Announce;
    var s, a := states[i], actions[i];
    assert states[i + 1] == Next(s, a);
  }

  /** Without it the call that holds the lock can always go on. */
  lemma HolderGoesOn(states: seq<State>, actions: seq<Action>, i: nat)
    requires IsRun(states, actions) && i < |states| && states[i].holder.Some? && !Deadlocked(states[i])
    ensures
      var s := states[i];
      Enabled(s, MapOpen(Out.QuicErr(ContextDone))) || Enabled(s, QueueBlocked) || Enabled(s, Unlock)
  {
    RunKeeps(states, actions, i);
  }

  /** The deadlock lasts, and the session can never be closed any more: no closeWithError gets the lock. */
  lemma {:induction false} DeadlockForever(states: seq<State>, actions: seq<Action>, i: nat, j: nat)
    requires IsRun(states, actions) && i <= j < |states| && Deadlocked(states[i])
    ensures Deadlocked(states[j]) && states[j].holder == states[i].holder && states[j].closeErr.None?
  {
    RunKeeps(states, actions, j);
    if i < j {
      DeadlockForever(states, actions, i, j - 1);
      RunKeeps(states, actions, j - 1);
      hide Next;
      StepKeeps(states[j - 1], actions[j - 1]);
    }
  }

  /** A closeWithError call that gets the lock sets the error, unless there is one; an open then takes the lock no more. */
  lemma CloseTakesLock(states: seq<State>, actions: seq<Action>, i: nat)
    requires IsRun(states, actions) && i < |actions|
    ensures
      var s, r, a := states[i], states[i + 1], actions[i];
      && (a.TakeLock? ==> a.c !in r.wants && r.closeErr == Some(if s.closeErr.Some? then s.closeErr.value else s.wants[a.c]))
      && (a.Close? ==> a.c in r.wants && r.wants[a.c] == a.err)
      && (a.Lock? ==> r.holder == if s.closeErr.Some? then None else Some(a.c))
      && (a == Unlock ==> r.holder == None)
      && (a.Queue? && !s.ctxDone && s.queued >= 4096 ==> a.c in r.wants)
  {
    assert states[i + 1] == Next(states[i], actions[i]);
  }

  // ---------- one call ----------

  /** Session.OpenStream, undisturbed. */
  function OpenAlone(s: State, c: Out.Call, q: Out.QuicOpen): (r: State)
    requires Inv(s) && Enabled(s, Lock(c)) && Out.Fresh(s.out, q)
  {
    var locked := Next(s, Lock(c));
    if locked.holder.None? then locked
    else
      var called := Next(locked, MapOpen(q));
      OpensOrBlocks(s.out, c, q);
      var queued := if called.out.calls[c].OpenBlocked? then Next(called, QueueBlocked) else called;
      if Deadlocked(queued) then queued else Next(queued, Unlock)
  }

  /** What a caller can tell before the call: it never returns exactly if it has to announce and the queue is full. */
  lemma OpenDeadlocksIff(s: State, c: Out.Call, q: Out.QuicOpen)
    requires Inv(s) && Enabled(s, Lock(c)) && Out.Fresh(s.out, q)
    ensures Deadlocked(OpenAlone(s, c, q)) <==>
      && s.closeErr.None? && s.out.closeErr.None?
      && s.out.queue == [] && s.out.num >= s.out.max && !s.out.blocked.sent
      && !s.ctxDone && s.queued >= W.MAX_QUEUED
    ensures !Deadlocked(OpenAlone(s, c, q)) ==> OpenAlone(s, c, q).holder.None?
  {
    OpensOrBlocks(s.out, c, q);
  }

  lemma {:induction false} Fill(n: nat) returns (states: seq<State>, actions: seq<Action>)
    requires n <= W.MAX_QUEUED
    ensures IsRun(states, actions) && states[|states| - 1] == Init(0).(queued := n)
  {
    if n == 0 {
      states, actions := [Init(0)], [];
    } else {
      var states', actions' := Fill(n - 1);
      states, actions := Extend(states', actions', Queue(0));
    }
  }

  lemma Extend(states: seq<State>, actions: seq<Action>, a: Action) returns (more: seq<State>, done: seq<Action>)
    requires IsRun(states, actions) && Enabled(states[|states| - 1], a)
    ensures IsRun(more, done) && more[|more| - 1] == Next(states[|states| - 1], a)
  {
    hide Next, Enabled;
    more, done := states + [Next(states[|states| - 1], a)], actions + [a];
  }

  /** A run into the deadlock: no credit, a full queue, and the first OpenStream that finds no credit. */
  lemma FullQueueDeadlocks() returns (states: seq<State>, actions: seq<Action>)
    ensures IsRun(states, actions) && Deadlocked(states[|states| - 1])
  {
    states, actions := Fill(W.MAX_QUEUED);
    hide IsRun;
    states, actions := Extend(states, actions, Lock(1));
    states, actions := Extend(states, actions, MapOpen(Out.QuicErr(ContextDone)));
    states, actions := Extend(states, actions, QueueBlocked);
  }
}
