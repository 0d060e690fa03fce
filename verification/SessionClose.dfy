/**
 Closing a session: the first error wins, and is then handed to the four stream
 maps one after the other while calls on them go on.
 */
module SessionClose {
  import opened Common
  import Out = OutgoingStreams
  import In = IncomingStreams

  datatype State = State(
    closeErr: Option<Error>,
    closedMaps: nat,             // how many of the four maps the closing goroutine has closed
    outBidi: Out.State,
    outUni: Out.State,
    inBidi: In.State,
    inUni: In.State
  )

  function Init(limits: (nat, nat, nat, nat)): (s: State) {
    State(None, 0, Out.Init(limits.0), Out.Init(limits.1), In.Init(limits.2, true), In.Init(limits.3, false))
  }

  datatype Action =
    | DoClose(err: Error)        // closeWithError up to its first unlock
    | DoFanOut                   // CloseSession on the next map
    | OnOutBidi(out: Out.Action)
    | OnOutUni(out: Out.Action)
    | OnInBidi(inc: In.Action)
    | OnInUni(inc: In.Action)

  /** The maps are closed by nobody else. */
  predicate Enabled(s: State, a: Action) {
    match a
    case DoClose(_) => true
    case DoFanOut => s.closeErr.Some? && s.closedMaps < 4
    case OnOutBidi(out) => !out.DoClose? && Out.Enabled(s.outBidi, out)
    case OnOutUni(out) => !out.DoClose? && Out.Enabled(s.outUni, out)
    case OnInBidi(inc) => !inc.DoClose? && In.Enabled(s.inBidi, inc)
    case OnInUni(inc) => !inc.DoClose? && In.Enabled(s.inUni, inc)
  }

  function FanOut(s: State, err: Error): (r: State) {
    var t := s.(closedMaps := s.closedMaps + 1);
    match s.closedMaps
    case 0 => t.(outBidi := Out.CloseSession(s.outBidi, err))
    case 1 => t.(outUni := Out.CloseSession(s.outUni, err))
    case 2 => t.(inBidi := In.CloseSession(s.inBidi, err))
    case _ => t.(inUni := In.CloseSession(s.inUni, err))
  }

  function Next(s: State, a: Action): (r: State)
    requires Enabled(s, a)
  {
    match a
    case DoClose(err) => if s.closeErr.Some? then s else s.(closeErr := Some(err))
    case DoFanOut => FanOut(s, s.closeErr.value)
    case OnOutBidi(out) => s.(outBidi := Out.Next(s.outBidi, out))
    case OnOutUni(out) => s.(outUni := Out.Next(s.outUni, out))
    case OnInBidi(inc) => s.(inBidi := In.Next(s.inBidi, inc))
    case OnInUni(inc) => s.(inUni := In.Next(s.inUni, inc))
  }

  ghost predicate IsRun(states: seq<State>, actions: seq<Action>) {
    && |states| == |actions| + 1
    && (exists limits: (nat, nat, nat, nat) :: states[0] == Init(limits))
    && forall i :: 0 <= i < |actions| ==> Enabled(states[i], actions[i]) && states[i + 1] == Next(states[i], actions[i])
  }

  /** The error a map was closed with, if it is among the first `closed`. */
  function ExpectedErr(s: State, position: nat): (r: Option<Error>) {
    if position < s.closedMaps then s.closeErr else None
  }

  ghost predicate Inv(s: State) {
    && s.closedMaps <= 4
    && (s.closedMaps > 0 ==> s.closeErr.Some?)
    && Out.Inv(s.outBidi) && s.outBidi.closeErr == ExpectedErr(s, 0)
    && Out.Inv(s.outUni) && s.outUni.closeErr == ExpectedErr(s, 1)
    && In.Inv(s.inBidi) && s.inBidi.closeErr == ExpectedErr(s, 2)
    && In.Inv(s.inUni) && s.inUni.closeErr == ExpectedErr(s, 3)
  }

  lemma OutKeepsErr(s: Out.State, a: Out.Action)
    requires !a.DoClose? && Out.Enabled(s, a)
    ensures Out.Next(s, a).closeErr == s.closeErr
  {
    if Out.IsCall(a) {
      Out.CallMoves(s, a);
      hide Out.Next;
    }
  }

  lemma InKeepsErr(s: In.State, a: In.Action)
    requires !a.DoClose? && In.Enabled(s, a)
    ensures In.Next(s, a).closeErr == s.closeErr
  {
  }

  lemma StepKeeps(s: State, a: Action)
    requires Inv(s) && Enabled(s, a)
    ensures Inv(Next(s, a))
    ensures s.closeErr.Some? ==> Next(s, a).closeErr == s.closeErr
  {
    hide Out.Inv, In.Inv, Out.Next, In.Next;
    match a
    case DoClose(err) =>
    case DoFanOut =>
      var err := s.closeErr.value;
      Out.CloseSessionKeeps(s.outBidi, err);
      Out.CloseSessionKeeps(s.outUni, err);
      In.CloseKeeps(s.inBidi, err);
      In.CloseKeeps(s.inUni, err);
    case OnOutBidi(out) =>
      Out.StepKeeps(s.outBidi, out);
      OutKeepsErr(s.outBidi, out);
    case OnOutUni(out) =>
      Out.StepKeeps(s.outUni, out);
      OutKeepsErr(s.outUni, out);
    case OnInBidi(inc) =>
      In.StepKeeps(s.inBidi, inc);
      InKeepsErr(s.inBidi, inc);
    case OnInUni(inc) =>
      In.StepKeeps(s.inUni, inc);
      InKeepsErr(s.inUni, inc);
  }

  lemma {:induction false} RunKeeps(states: seq<State>, actions: seq<Action>, i: nat)
    requires IsRun(states, actions) && i < |states|
    ensures Inv(states[i])
  {
    hide Out.Inv, In.Inv, Next;
    if i == 0 {
      var limits: (nat, nat, nat, nat) :| states[0] == Init(limits);
      Out.InitOk(limits.0);
      Out.InitOk(limits.1);
      In.InitOk(limits.2, true);
      In.InitOk(limits.3, false);
    } else {
      RunKeeps(states, actions, i - 1);
      StepKeeps(states[i - 1], actions[i - 1]);
    }
  }

  /** The first error wins: every later state of the run has it. */
  lemma {:induction false} FirstErrorWins(states: seq<State>, actions: seq<Action>, i: nat, j: nat)
    requires IsRun(states, actions) && i <= j < |states| && states[i].closeErr.Some?
    ensures states[j].closeErr == states[i].closeErr
  {
    hide Next, Inv;
    if i < j {
      FirstErrorWins(states, actions, i, j - 1);
      RunKeeps(states, actions, j - 1);
      StepKeeps(states[j - 1], actions[j - 1]);
    }
  }

  /** The first close sets its error, and its fan-out takes it to one map after the other. */
  lemma CloseTakesEffect(states: seq<State>, actions: seq<Action>, i: nat)
    requires IsRun(states, actions) && i < |actions|
    ensures actions[i].DoClose? && states[i].closeErr.None? ==> states[i + 1].closeErr == Some(actions[i].err)
    ensures actions[i] == DoFanOut ==>
      var s, r := states[i], states[i + 1];
      && r.closedMaps == s.closedMaps + 1
      && (if s.closedMaps == 0 then r.outBidi.closeErr == s.closeErr
          else if s.closedMaps == 1 then r.outUni.closeErr == s.closeErr
          else if s.closedMaps == 2 then r.inBidi.closeErr == s.closeErr
          else r.inUni.closeErr == s.closeErr)
  {
    RunKeeps(states, actions, i);
    hide Out.Inv, In.Inv;
    assert states[i + 1] == Next(states[i], actions[i]);
  }

  /** Every stream ever opened and not removed before was closed with `err`, and so will be one opened by a call under way. */
  ghost predicate OutNoSurvivor(s: Out.State, err: Error) {
    && s.streams.m == {}
    && (forall id :: id in s.streams.created && id !in s.streams.removed ==>
          id in s.streams.errs && s.streams.errs[id] == err)
    && (forall c, id :: c in s.calls && s.calls[c].Opening? ==>
          Out.Finish(s, c, Out.QuicOk(id)).streams.errs == s.streams.errs[id := err])
    && (forall c :: c in s.calls && s.calls[c].Opening? ==> c in s.cancelled)
  }

  /** Every later open fails with `err`, and so does every waiter that wakes up. */
  ghost predicate OpensFail(s: Out.State, err: Error) {
    && (forall c, q :: Out.OpenStream(s, c, q).calls[c] == Out.Returned(Out.Failed(err)))
    && (forall c, ctxErr, key :: Out.SyncEnter(s, c, ctxErr, key).calls[c] == Out.Returned(Out.Failed(err)))
    && (forall c, ctxErr, key :: Out.At(s, c, Out.Woken) ==> Out.Wake(s, c, ctxErr, key).calls[c] == Out.Returned(Out.Failed(err)))
  }

  lemma OpensClosed(s: Out.State)
    requires s.closeErr.Some?
    ensures OpensFail(s, s.closeErr.value)
  {
  }

  /** The same for streams the peer opened, those included that arrive after the close. */
  ghost predicate InNoSurvivor(s: In.State, err: Error) {
    && s.streams.m == {}
    && (forall id :: id in s.streams.arrived && id !in s.streams.released ==>
          id in s.streams.errs && s.streams.errs[id] == err)
    && (forall id :: id in s.streams.late ==> In.CloseLate(s, id).streams.errs == s.streams.errs[id := err])
    && (forall id :: In.AddStream(s, id).streams.late == s.streams.late[id := err])
  }

  lemma OutClosed(s: Out.State)
    requires Out.Inv(s) && s.closeErr.Some?
    ensures OutNoSurvivor(s, s.closeErr.value)
  {
  }

  lemma InClosed(s: In.State)
    requires In.Inv(s) && s.closeErr.Some?
    ensures InNoSurvivor(s, s.closeErr.value)
  {
  }

  /**
   Once the close has gone through all maps, in every run, no stream survives it:
   every one still registered, or registered later by a call that raced with the
   close, is closed with the session's error; and every later open fails with it.
   */
  lemma NoSurvivor(states: seq<State>, actions: seq<Action>, i: nat)
    requires IsRun(states, actions) && i < |states| && states[i].closedMaps == 4
    ensures
      var s := states[i];
      && s.closeErr.Some?
      && OutNoSurvivor(s.outBidi, s.closeErr.value)
      && OutNoSurvivor(s.outUni, s.closeErr.value)
      && OpensFail(s.outBidi, s.closeErr.value) && OpensFail(s.outUni, s.closeErr.value)
      && InNoSurvivor(s.inBidi, s.closeErr.value)
      && InNoSurvivor(s.inUni, s.closeErr.value)
  {
    hide Out.Inv, In.Inv, OutNoSurvivor, InNoSurvivor, OpensFail;
    RunKeeps(states, actions, i);
    var s := states[i];
    OutClosed(s.outBidi);
    OutClosed(s.outUni);
    OpensClosed(s.outBidi);
    OpensClosed(s.outUni);
    InClosed(s.inBidi);
    InClosed(s.inUni);
  }
}
