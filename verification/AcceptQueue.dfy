/**
 The accept queue: a slice and a one-slot channel that tells consumers about new
 items. Items are added under the lock and announced after it was released.
 */
module AcceptQueue {
  import opened Common

  type Item = nat
  type Acceptor = nat

  /** Where an AcceptStream call stands in its loop. */
  datatype Pc = Checking | Sleeping

  datatype State = State(
    queue: seq<Item>,
    token: bool,                     // the channel holds a notification
    signals: nat,                    // add calls between appending and notifying
    acceptors: map<Acceptor, Pc>,    // AcceptStream calls in progress
    added: seq<Item>,                // history
    accepted: seq<Item>              // history
  )

  const EMPTY := State([], false, 0, map[], [], [])

  datatype Action =
    | Append(x: Item)
    | Notify
    | Start(a: Acceptor)
    | Check(a: Acceptor)
    | Wake(a: Acceptor)
    | GiveUp(a: Acceptor)

  predicate Enabled(s: State, act: Action, k: nat) {
    match act
    case Append(_) => true
    case Notify => s.signals > 0
    case Start(a) => a !in s.acceptors && |s.acceptors| < k
    case Check(a) => a in s.acceptors && s.acceptors[a] == Checking
    case Wake(a) => a in s.acceptors && s.acceptors[a] == Sleeping && s.token
    case GiveUp(a) => a in s.acceptors && s.acceptors[a] == Sleeping
  }

  function Next(s: State, act: Action): (r: State) {
    match act
    case Append(x) => s.(queue := s.queue + [x], added := s.added + [x], signals := s.signals + 1)
    case Notify => s.(signals := if s.signals > 0 then s.signals - 1 else 0, token := true)
    case Start(a) => s.(acceptors := s.acceptors[a := Checking])
    case Check(a) =>
      if s.queue == [] then s.(acceptors := s.acceptors[a := Sleeping])
      else s.(queue := s.queue[1..], accepted := s.accepted + [s.queue[0]], acceptors := s.acceptors - {a})
    case Wake(a) => s.(token := false, acceptors := s.acceptors[a := Checking])
    case GiveUp(a) => s.(acceptors := s.acceptors - {a})
  }

  /** A run with at most `k` AcceptStream calls at a time. */
  ghost predicate IsRun(states: seq<State>, actions: seq<Action>, k: nat) {
    && |states| == |actions| + 1
    && states[0] == EMPTY
    && forall i :: 0 <= i < |actions| ==> Enabled(states[i], actions[i], k) && states[i + 1] == Next(states[i], actions[i])
  }

  /** A caller sleeps beside a waiting item, and nothing is under way to wake it. */
  ghost predicate LostWakeUp(s: State) {
    && s.queue != [] && !s.token && s.signals == 0
    && (exists a :: a in s.acceptors && s.acceptors[a] == Sleeping)
    && (forall a :: a in s.acceptors ==> s.acceptors[a] == Sleeping)
  }

  ghost predicate Ordered(s: State) {
    s.added == s.accepted + s.queue
  }

  lemma StepKeepsOrder(s: State, act: Action, k: nat)
    requires Ordered(s) && Enabled(s, act, k)
    ensures Ordered(Next(s, act))
  {
    match act
    case Append(x) => assert (s.accepted + s.queue) + [x] == s.accepted + (s.queue + [x]);
    case Check(_) =>
      if s.queue != [] {
        assert s.queue == [s.queue[0]] + s.queue[1..];
      }
    case _ =>
  }

  /** Items are accepted in the order they were added, each once. */
  lemma {:induction false} Fifo(states: seq<State>, actions: seq<Action>, k: nat, i: nat)
    requires IsRun(states, actions, k) && i < |states|
    ensures states[i].added == states[i].accepted + states[i].queue
  {
    if i > 0 {
      Fifo(states, actions, k, i - 1);
      StepKeepsOrder(states[i - 1], actions[i - 1], k);
    }
  }

  lemma {:induction false} OneAcceptor(states: seq<State>, actions: seq<Action>, i: nat)
    requires IsRun(states, actions, 1) && i < |states|
    ensures |states[i].acceptors| <= 1
    ensures forall a :: a in states[i].acceptors && states[i].acceptors[a] == Sleeping ==>
      states[i].queue == [] || states[i].token || states[i].signals > 0
  {
    if i > 0 {
      OneAcceptor(states, actions, i - 1);
      var s := states[i - 1];
      assert states[i] == Next(s, actions[i - 1]);
      match actions[i - 1]
      case Start(a) => Single(s.acceptors, a, Checking);
      case Check(a) => Single(s.acceptors, a, Sleeping);
      case Wake(a) => Single(s.acceptors, a, Checking);
      case _ =>
    }
  }

  lemma Single(m: map<Acceptor, Pc>, a: Acceptor, pc: Pc)
    requires |m| <= 1 && (a in m || |m| == 0)
    ensures m[a := pc] == map[a := pc]
  {
    if |m| == 1 {
      assert |m.Keys - {a}| == 0;
      assert m.Keys == {a};
    }
    assert m[a := pc].Keys == {a};
  }

  lemma Extend(states: seq<State>, actions: seq<Action>, k: nat, a: Action) returns (more: seq<State>, done: seq<Action>)
    requires IsRun(states, actions, k) && Enabled(states[|states| - 1], a, k)
    ensures IsRun(more, done, k) && more != [] && more[|more| - 1] == Next(states[|states| - 1], a)
  {
    hide Next, Enabled;
    more, done := states + [Next(states[|states| - 1], a)], actions + [a];
  }

  lemma TwoAsleep() returns (states: seq<State>, actions: seq<Action>)
    ensures IsRun(states, actions, 2)
    ensures states[|states| - 1] == State([], false, 0, map[1 := Sleeping, 2 := Sleeping], [], [])
  {
    states, actions := [EMPTY], [];
    assert IsRun(states, actions, 2);
    hide IsRun;
    states, actions := Extend(states, actions, 2, Start(1));
    states, actions := Extend(states, actions, 2, Check(1));
    assert states[|states| - 1].acceptors == map[1 := Sleeping];
    assert |states[|states| - 1].acceptors| == 1;
    states, actions := Extend(states, actions, 2, Start(2));
    states, actions := Extend(states, actions, 2, Check(2));
  }

  /** Two callers: both sleep, two items are added before either wakes, one notification is dropped. */
  lemma TwoAcceptorsLoseOne() returns (states: seq<State>, actions: seq<Action>)
    ensures IsRun(states, actions, 2) && LostWakeUp(states[|states| - 1])
  {
    states, actions := TwoAsleep();
    hide IsRun;
    states, actions := Extend(states, actions, 2, Append(7));
    states, actions := Extend(states, actions, 2, Notify);
    states, actions := Extend(states, actions, 2, Append(8));
    states, actions := Extend(states, actions, 2, Notify);
    states, actions := Extend(states, actions, 2, Wake(1));
    states, actions := Extend(states, actions, 2, Check(1));
    assert states[|states| - 1].acceptors[2] == Sleeping;
  }

  lemma MoreAllowed(states: seq<State>, actions: seq<Action>, j: nat, k: nat)
    requires IsRun(states, actions, j) && j <= k
    ensures IsRun(states, actions, k)
  {
  }

  /** The one-slot channel never loses a wake-up exactly if at most one goroutine accepts at a time. */
  lemma NoLostWakeUpIff(k: nat)
    ensures (forall states, actions :: IsRun(states, actions, k) ==>
               forall i :: 0 <= i < |states| ==> !LostWakeUp(states[i])) <==> k <= 1
  {
    if k <= 1 {
      forall states, actions | IsRun(states, actions, k)
        ensures forall i :: 0 <= i < |states| ==> !LostWakeUp(states[i])
      {
        MoreAllowed(states, actions, k, 1);
        forall i | 0 <= i < |states| ensures !LostWakeUp(states[i]) {
          OneAcceptor(states, actions, i);
        }
      }
    } else {
      var states, actions := TwoAcceptorsLoseOne();
      MoreAllowed(states, actions, 2, k);
      assert LostWakeUp(states[|states| - 1]);
    }
  }

  /**
   The queue as the program updates it. Every method is one step of `now`, a state of
   the specification in which what was added is what was accepted and what is queued.
   */
  class Queue {
    var c: bool
    var queue: seq<Item>

    ghost var now: State

    ghost predicate Valid()
      reads this
    {
      now.queue == queue && now.token == c && Ordered(now)
    }

    constructor ()
      ensures Valid() && now == EMPTY
      ensures !c && queue == [] && now.acceptors == map[] && now.signals == 0
    {
      c, queue, now := false, [], EMPTY;
    }

    /** add, under the lock */
    method Add(x: Item)
      requires Valid()
      modifies this
      ensures Valid() && now == Next(old(now), Append(x))
      ensures queue == old(queue) + [x] && c == old(c) && now.added == old(now).added + [x] && now.signals == old(now).signals + 1
    {
      StepKeepsOrder(now, Append(x), 0);
      now := Next(now, Append(x));
      queue := queue + [x];
    }

    /** add, after the lock: a full channel drops the notification. */
    method Signal()
      requires Valid() && now.signals > 0
      modifies this
      ensures Valid() && now == Next(old(now), Notify)
      ensures c && queue == old(queue) && now.signals == old(now).signals - 1
    {
      now := Next(now, Notify);
      if !c {
        c := true;
      }
    }

    /** next: the oldest item that was not accepted yet. */
    method TakeNext(ghost a: Acceptor) returns (x: Option<Item>)
      requires Valid() && Enabled(now, Check(a), 0)
      modifies this
      ensures Valid() && now == Next(old(now), Check(a))
      ensures x.Some? ==> now.accepted == old(now).accepted + [x.value] && x.value == now.added[|old(now).accepted|]
      ensures c == old(c) && old(queue) == (if x.Some? then [x.value] else []) + queue
      ensures x.None? ==> now.accepted == now.added && now.acceptors == old(now).acceptors[a := Sleeping]
    {
      StepKeepsOrder(now, Check(a), 0);
      now := Next(now, Check(a));
      if |queue| == 0 {
        return None;
      }
      x := Some(queue[0]);
      queue := queue[1..];
    }

    /** The receive from the channel. */
    method Receive(ghost a: Acceptor)
      requires Valid() && Enabled(now, Wake(a), 0)
      modifies this
      ensures Valid() && now == Next(old(now), Wake(a)) && !c && queue == old(queue)
    {
      now := Next(now, Wake(a));
      c := false;
    }

    /** AcceptStream's loop, undisturbed, until it returns or sleeps: it sleeps only with nothing to accept. */
    method AcceptStream(ghost a: Acceptor) returns (x: Option<Item>)
      requires Valid() && a in now.acceptors && now.acceptors[a] == Checking
      modifies this
      ensures Valid() && now.added == old(now).added && now.signals == old(now).signals
      ensures x.Some? <==> old(now).accepted != old(now).added
      ensures x.Some? ==> x.value == now.added[|old(now).accepted|] && now.accepted == old(now).accepted + [x.value]
      ensures x.Some? ==> a !in now.acceptors
      ensures x.None? ==> !c && queue == [] && a in now.acceptors && now.acceptors[a] == Sleeping
    {
      while true
        invariant Valid() && a in now.acceptors && now.acceptors[a] == Checking
        invariant now.added == old(now).added && now.accepted == old(now).accepted && now.signals == old(now).signals
        decreases c
      {
        x := TakeNext(a);
        if x.Some? || !c {
          return;
        }
        Receive(a);
      }
    }
  }
}
