/**
 Flow-controlled writes: any number of Write calls share the session's credit. A
 call remembers the controller's update channel, writes what it is granted, and
 waits on that channel when QUIC reports that the limit was reached.
 */
module DataWriter {
  import opened Common
  import FC = FlowControl

  /** Where a writeData call stands in its loop. Channels are known by their generation. */
  datatype Pc =
    | Top
    | InWrite(generation: nat, granted: nat, short: bool) // in WriteWithLimit
    | Limited(generation: nat)                           // it reported that the limit was reached
    | Announcing(generation: nat, limit: int)            // about to queue WT_DATA_BLOCKED
    | Waiting(generation: nat)
    | Done

  datatype Call = Call(data: seq<Byte>, written: nat, handed: seq<Byte>, pc: Pc)

  datatype State = State(
    fc: FC.Outgoing,
    calls: seq<Call>,
    lost: nat,                    // history: bytes granted to writes that returned without handing them over
    decidedBy: map<int, nat>,     // history: limit -> call that takes on announcing it
    announced: seq<int>           // history: limits announced in WT_DATA_BLOCKED
  )

  function Init(maxData: nat): (s: State) {
    State(FC.NewOutgoing(maxData), [], 0, map[], [])
  }

  datatype Result = Ok | LimitReached | OtherError

  datatype Action =
    | Start(data: seq<Byte>)
    | Begin(c: nat)                       // NextUpdate
    | Grant(c: nat, want: nat)            // the callback of WriteWithLimit
    | Return(c: nat, n: nat, res: Result) // WriteWithLimit returns
    | Check(c: nat)                       // IsNewlyBlocked
    | Announce(c: nat)
    | Wake(c: nat)                        // the update channel was closed
    | GiveUp(c: nat)                      // deadline or stream context
    | Update(limit: int)                  // WT_MAX_DATA

  predicate At(s: State, c: nat) {
    c < |s.calls|
  }

  /** QUIC takes no more than it was granted, and reports the limit only after a short grant. */
  predicate Enabled(s: State, a: Action) {
    match a
    case Start(_) => true
    case Begin(c) => At(s, c) && s.calls[c].pc == Top
    case Grant(c, _) => At(s, c) && s.calls[c].pc.InWrite?
    case Return(c, n, res) =>
      && At(s, c) && s.calls[c].pc.InWrite?
      && n <= s.calls[c].pc.granted && s.calls[c].written + n <= |s.calls[c].data|
      && (res == LimitReached ==> s.calls[c].pc.short)
    case Check(c) => At(s, c) && s.calls[c].pc.Limited?
    case Announce(c) => At(s, c) && s.calls[c].pc.Announcing?
    case Wake(c) => At(s, c) && s.calls[c].pc.Waiting? && s.calls[c].pc.generation < s.fc.generation
    case GiveUp(c) => At(s, c) && s.calls[c].pc.Waiting?
    case Update(_) => true
  }

  function Move(s: State, c: nat, pc: Pc): (r: State)
    requires At(s, c)
  {
    s.(calls := s.calls[c := s.calls[c].(pc := pc)])
  }

  function Next(s: State, a: Action): (r: State)
    requires Enabled(s, a)
  {
    match a
    case Start(data) => s.(calls := s.calls + [Call(data, 0, [], Top)])
    case Begin(c) => Move(s, c, if s.calls[c].written == |s.calls[c].data| then Done else InWrite(s.fc.generation, 0, false))
    case Grant(c, want) =>
      var pc := s.calls[c].pc;
      var added := FC.Granted(s.fc, want);
      Move(s, c, InWrite(pc.generation, pc.granted + added, pc.short || added < want)).(fc := FC.AfterBytesSent(s.fc, want))
    case Return(c, n, res) =>
      var call := s.calls[c];
      var pc := match res case Ok => Top case LimitReached => Limited(call.pc.generation) case OtherError => Done;
      s.(calls := s.calls[c := Call(call.data, call.written + n, call.handed + call.data[call.written..call.written + n], pc)],
         lost := s.lost + call.pc.granted - n)
    case Check(c) =>
      var generation := s.calls[c].pc.generation;
      if FC.NewlyBlocked(s.fc) then
        Move(s, c, Announcing(generation, s.fc.maxData)).(fc := FC.MarkBlocked(s.fc), decidedBy := s.decidedBy[s.fc.maxData := c])
      else Move(s, c, Waiting(generation))
    case Announce(c) =>
      Move(s, c, Waiting(s.calls[c].pc.generation)).(announced := s.announced + [s.calls[c].pc.limit])
    case Wake(c) => Move(s, c, Top)
    case GiveUp(c) => Move(s, c, Done)
    case Update(limit) => s.(fc := FC.AfterUpdate(s.fc, limit))
  }

  ghost predicate IsRun(states: seq<State>, actions: seq<Action>) {
    && |states| == |actions| + 1
    && (exists maxData: nat :: states[0] == Init(maxData))
    && forall i :: 0 <= i < |actions| ==> Enabled(states[i], actions[i]) && states[i + 1] == Next(states[i], actions[i])
  }

  // ---------- invariant ----------

  /** Credit taken by a call: bytes handed over, and grants QUIC still holds. */
  ghost function Used(call: Call): nat {
    call.written + if call.pc.InWrite? then call.pc.granted else 0
  }

  ghost function UsedBy(calls: seq<Call>): seq<nat> {
    seq(|calls|, i requires 0 <= i < |calls| => Used(calls[i]))
  }

  ghost predicate CreditOk(fc: FC.Outgoing, calls: seq<Call>, lost: nat) {
    && Sum(UsedBy(calls)) + lost == fc.bytesSent <= fc.maxData
    && fc.lastBlockedAt <= fc.maxData
  }

  /** What a call knows as long as its update channel is the current one. */
  ghost predicate CallOk(call: Call, fc: FC.Outgoing) {
    && call.written <= |call.data|
    && call.handed == call.data[..call.written]
    && match call.pc
       case InWrite(g, _, short) => g <= fc.generation && (g == fc.generation && short ==> fc.bytesSent == fc.maxData)
       case Limited(g) => g <= fc.generation && (g == fc.generation ==> fc.bytesSent == fc.maxData)
       case Announcing(g, _) => g <= fc.generation && (g == fc.generation ==> fc.bytesSent == fc.maxData == fc.lastBlockedAt)
       case Waiting(g) => g <= fc.generation && (g == fc.generation ==> fc.bytesSent == fc.maxData == fc.lastBlockedAt)
       case _ => true
  }

  ghost predicate CallsOk(calls: seq<Call>, fc: FC.Outgoing) {
    forall c :: 0 <= c < |calls| ==> CallOk(calls[c], fc)
  }

  ghost predicate AnnouncedOk(s: State) {
    && (forall l :: l in s.decidedBy ==> l <= s.fc.lastBlockedAt)
    && NoDuplicates(s.announced)
    && (forall l :: l in s.announced ==> l in s.decidedBy)
    && (s.fc.lastBlockedAt >= 0 ==> s.fc.lastBlockedAt in s.decidedBy)
    && (forall l :: l in s.decidedBy && l !in s.announced ==> IsAnnouncing(s, s.decidedBy[l], l))
    && (forall c :: 0 <= c < |s.calls| && s.calls[c].pc.Announcing? ==> PendingOk(s, c, s.calls[c].pc.limit))
  }

  /** The call is about to announce the limit. */
  predicate IsAnnouncing(s: State, c: nat, limit: int) {
    c < |s.calls| && s.calls[c].pc.Announcing? && s.calls[c].pc.limit == limit
  }

  ghost predicate PendingOk(s: State, c: nat, limit: int) {
    limit in s.decidedBy && s.decidedBy[limit] == c && limit !in s.announced
  }

  ghost predicate Inv(s: State) {
    CreditOk(s.fc, s.calls, s.lost) && CallsOk(s.calls, s.fc) && AnnouncedOk(s)
  }

  // ---------- preservation ----------

  lemma UsedUpdate(calls: seq<Call>, c: nat, call: Call)
    requires c < |calls|
    ensures Sum(UsedBy(calls[c := call])) == Sum(UsedBy(calls)) - Used(calls[c]) + Used(call)
  {
    SumUpdate(UsedBy(calls), c, Used(call));
    assert UsedBy(calls[c := call]) == UsedBy(calls)[c := Used(call)];
  }

  lemma StartKeeps(s: State, data: seq<Byte>)
    requires Inv(s)
    ensures Inv(Next(s, Start(data)))
  {
    var call := Call(data, 0, [], Top);
    SumAppend(UsedBy(s.calls), 0);
    assert UsedBy(s.calls + [call]) == UsedBy(s.calls) + [0];
  }

  lemma CreditKept(s: State, a: Action)
    requires Inv(s) && Enabled(s, a) && !a.Start?
    ensures CreditOk(Next(s, a).fc, Next(s, a).calls, Next(s, a).lost)
  {
    hide AnnouncedOk;
    if !a.Update? {
      var r := Next(s, a);
      assert r.calls == s.calls[a.c := r.calls[a.c]];
      UsedUpdate(s.calls, a.c, r.calls[a.c]);
    }
  }

  /** Progress of the controller never takes away what a call knows. */
  lemma CallsFrame(calls: seq<Call>, fc: FC.Outgoing, fc': FC.Outgoing)
    requires CallsOk(calls, fc) && fc.bytesSent <= fc.maxData
    requires (fc' == fc.(bytesSent := fc'.bytesSent) && fc.bytesSent <= fc'.bytesSent <= fc.maxData)
      || fc' == FC.MarkBlocked(fc)
      || fc'.generation > fc.generation
    ensures CallsOk(calls, fc')
  {
    forall c | 0 <= c < |calls| ensures CallOk(calls[c], fc') {
      assert CallOk(calls[c], fc);
    }
  }

  lemma CallsKept(s: State, a: Action)
    requires Inv(s) && Enabled(s, a) && !a.Start?
    ensures CallsOk(Next(s, a).calls, Next(s, a).fc)
  {
    var r := Next(s, a);
    CallsFrame(s.calls, s.fc, r.fc);
    if !a.Update? {
      assert CallOk(s.calls[a.c], s.fc);
      assert CallOk(r.calls[a.c], r.fc) by {
        hide CallsOk, AnnouncedOk;
        if a.Return? {
          var call := s.calls[a.c];
          assert call.data[..call.written + a.n] == call.data[..call.written] + call.data[call.written..call.written + a.n];
        }
      }
      assert r.calls == s.calls[a.c := r.calls[a.c]];
    }
  }

  lemma AnnouncedKept(s: State, a: Action)
    requires Inv(s) && Enabled(s, a) && !a.Start?
    ensures AnnouncedOk(Next(s, a))
  {
    hide CallsOk;
  }

  lemma StepKeeps(s: State, a: Action)
    requires Inv(s) && Enabled(s, a)
    ensures Inv(Next(s, a))
  {
    if a.Start? {
      StartKeeps(s, a.data);
    } else {
      CreditKept(s, a);
      CallsKept(s, a);
      AnnouncedKept(s, a);
    }
  }

  lemma {:induction false} RunKeeps(states: seq<State>, actions: seq<Action>, i: nat)
    requires IsRun(states, actions) && i < |states|
    ensures Inv(states[i])
  {
    if i > 0 {
      RunKeeps(states, actions, i - 1);
      StepKeeps(states[i - 1], actions[i - 1]);
    }
  }

  /**
   In every run: what a call handed to QUIC over all its retries is exactly the first
   `written` bytes of its data; what all calls handed over, hold and lost is what the
   controller counted, within the limit; and each limit is announced as blocking at
   most once.
   */
  lemma WritesAreExact(states: seq<State>, actions: seq<Action>, i: nat)
    requires IsRun(states, actions) && i < |states|
    ensures
      var s := states[i];
      && (forall c :: 0 <= c < |s.calls| ==>
            s.calls[c].written <= |s.calls[c].data| && s.calls[c].handed == s.calls[c].data[..s.calls[c].written])
      && Sum(UsedBy(s.calls)) + s.lost == s.fc.bytesSent <= s.fc.maxData
      && NoDuplicates(s.announced)
  {
    RunKeeps(states, actions, i);
    var s := states[i];
    assert forall c :: 0 <= c < |s.calls| ==> CallOk(s.calls[c], s.fc);
  }

  /**
   No credit update is missed: a call that waits on the current channel waits while
   all credit is used, this limit was marked as blocking, and it was announced or a call
   is about to announce it; a call that waits on an older one can go on.
   */
  lemma NoUpdateMissed(states: seq<State>, actions: seq<Action>, i: nat, c: nat)
    requires IsRun(states, actions) && i < |states| && c < |states[i].calls| && states[i].calls[c].pc.Waiting?
    ensures
      var s := states[i];
      || Enabled(s, Wake(c))
      || (&& s.calls[c].pc.generation == s.fc.generation && s.fc.bytesSent == s.fc.maxData == s.fc.lastBlockedAt
          && (s.fc.maxData in s.announced || exists d :: IsAnnouncing(s, d, s.fc.maxData)))
  {
    RunKeeps(states, actions, i);
    assert CallOk(states[i].calls[c], states[i].fc);
  }

  // ---------- what becomes of a call ----------

  /** A call that does not wait for credit can go on. */
  lemma WriterGoesOn(states: seq<State>, actions: seq<Action>, i: nat, c: nat) returns (a: Action)
    requires IsRun(states, actions) && i < |states| && c < |states[i].calls|
    requires !states[i].calls[c].pc.Done? && !states[i].calls[c].pc.Waiting?
    ensures Enabled(states[i], a) && !a.Start? && !a.Update? && a.c == c
  {
    RunKeeps(states, actions, i);
    assert CallOk(states[i].calls[c], states[i].fc);
    a := match states[i].calls[c].pc
      case Top => Begin(c)
      case InWrite(_, _, _) => Return(c, 0, Ok)
      case Limited(_) => Check(c)
      case _ => Announce(c);
  }

  /** The call's write failed, or it gave up waiting. */
  predicate Fails(a: Action, c: nat) {
    a == GiveUp(c) || (a.Return? && a.c == c && a.res == Result.OtherError)
  }

  lemma StepEnds(s: State, a: Action, c: nat)
    requires Enabled(s, a) && c < |Next(s, a).calls| && Next(s, a).calls[c].pc == Done
    ensures c < |s.calls| && (s.calls[c].pc == Done || s.calls[c].written == |s.calls[c].data| || Fails(a, c))
    ensures Next(s, a).calls[c].written == s.calls[c].written || Fails(a, c)
    ensures Next(s, a).calls[c].data == s.calls[c].data
  {
  }

  /** A call ends with all its data written, or because QUIC failed or it gave up: a limit alone only makes it wait. */
  lemma {:induction false} EndsComplete(states: seq<State>, actions: seq<Action>, i: nat, c: nat)
    requires IsRun(states, actions) && i < |states| && c < |states[i].calls| && states[i].calls[c].pc == Done
    ensures states[i].calls[c].written == |states[i].calls[c].data| || exists j :: 0 <= j < i && Fails(actions[j], c)
  {
    hide Next, Enabled;
    if i > 0 {
      StepEnds(states[i - 1], actions[i - 1], c);
      if states[i - 1].calls[c].pc == Done && !Fails(actions[i - 1], c) {
        EndsComplete(states, actions, i - 1, c);
      }
    }
  }

  /** What each step does to its call and to the controller. */
  lemma StepFacts(states: seq<State>, actions: seq<Action>, i: nat)
    requires IsRun(states, actions) && i < |actions|
    ensures
      var s, r := states[i], states[i + 1];
      match actions[i]
      case Start(data) => r.calls == s.calls + [Call(data, 0, [], Top)] && r.fc == s.fc
      case Begin(c) => r.fc == s.fc && (s.calls[c].written < |s.calls[c].data| ==> r.calls[c].pc == InWrite(s.fc.generation, 0, false))
      case Grant(c, want) =>
        var credit := s.fc.maxData - s.fc.bytesSent;
        && r.fc.bytesSent == s.fc.bytesSent + (if want <= credit then want else credit)
        && r.calls[c].pc == InWrite(s.calls[c].pc.generation, s.calls[c].pc.granted + r.fc.bytesSent - s.fc.bytesSent, s.calls[c].pc.short || want > credit)
      case Return(c, n, _) =>
        && r.fc == s.fc && r.calls[c].written == s.calls[c].written + n
        && r.calls[c].handed == s.calls[c].data[..s.calls[c].written + n]
      case Announce(c) => r.announced == s.announced + [s.calls[c].pc.limit]
      case Wake(c) => r.calls[c].pc == Top
      case Update(limit) =>
        && r.fc.maxData == (if limit > s.fc.maxData then limit else s.fc.maxData)
        && (limit > s.fc.maxData ==> forall c :: 0 <= c < |r.calls| && r.calls[c].pc.Waiting? ==> Enabled(r, Wake(c)))
      case _ => r.fc.maxData == s.fc.maxData && r.fc.bytesSent == s.fc.bytesSent
  {
    RunKeeps(states, actions, i);
    assert states[i + 1] == Next(states[i], actions[i]);
    var s, a := states[i], actions[i];
    match a
    case Return(c, n, _) =>
      assert CallOk(s.calls[c], s.fc);
      assert s.calls[c].data[..s.calls[c].written + n]
          == s.calls[c].data[..s.calls[c].written] + s.calls[c].data[s.calls[c].written..s.calls[c].written + n];
    case Update(limit) =>
      assert forall c :: 0 <= c < |s.calls| ==> CallOk(s.calls[c], s.fc);
    case _ =>
  }

  // ---------- the loop ----------

  /** What happens in one turn of the loop: what QUIC asks for, takes and reports, and the limit that arrives while waiting. */
  datatype Turn = Turn(want: nat, take: nat, fails: bool, limited: bool, raised: Option<int>)

  datatype Outcome = Completed | Error | StillWaiting | StillWriting

  /** No turn fails, QUIC takes what it is granted and says when that was too little, and a higher limit comes each time. */
  ghost predicate Generous(turns: seq<Turn>, limit: int) {
    && (forall k :: 0 <= k < |turns| ==>
          && !turns[k].fails && turns[k].limited && 0 < turns[k].want <= turns[k].take
          && turns[k].raised.Some? && turns[k].raised.value > limit)
    && forall j, k :: 0 <= j < k < |turns| ==> turns[j].raised.value < turns[k].raised.value
  }

  /** One call of WriteWithLimit with one callback, and, if it met the limit, what precedes the wait: whether to wait. */
  method WriteTurn(fc: FC.OutgoingController, rest: seq<Byte>, turn: Turn) returns (n: nat, wait: bool, announce: Option<int>)
    requires fc.bytesSent <= fc.maxData
    modifies fc
    ensures
      var credit := fc.maxData - old(fc.bytesSent);
      var granted := if turn.want <= credit then turn.want else credit;
      && fc.bytesSent == old(fc.bytesSent) + granted <= fc.maxData
      && n == Min(turn.take, Min(granted, |rest|))
      && (wait <==> !turn.fails && turn.limited && turn.want > credit)
    ensures announce == if wait && old(fc.lastBlockedAt) != fc.maxData then Some(fc.maxData) else None
    ensures fc.lastBlockedAt == if announce.Some? then announce.value else old(fc.lastBlockedAt)
    ensures wait ==> fc.bytesSent == fc.maxData == fc.lastBlockedAt
    ensures fc.maxData == old(fc.maxData) && fc.updated == old(fc.updated)
  {
    var added := fc.AddBytesSent(turn.want);
    n, wait, announce := Min(turn.take, Min(added, |rest|)), false, None;
    if turn.fails || !turn.limited || added == turn.want {
      return;
    }
    wait := true;
    var blocked, limit := fc.IsNewlyBlocked();
    if blocked {
      announce := Some(limit);
    }
  }

  /** With limits that keep coming, at least every second turn writes something, and the next limit is higher. */
  ghost predicate OnCourse(turns: seq<Turn>, limit: int, used: nat, written: nat, sent: int, max: int) {
    Generous(turns, limit) ==>
      && used <= 2 * written + (if sent < max then 1 else 0)
      && (used < |turns| ==> max < turns[used].raised.value)
  }

  lemma CourseStarts(turns: seq<Turn>, sent: int, max: int)
    ensures OnCourse(turns, max, 0, 0, sent, max)
  {
  }

  lemma CourseSuffices(turns: seq<Turn>, limit: int, len: nat, written: nat, sent: int, max: int)
    requires OnCourse(turns, limit, |turns|, written, sent, max) && written < len
    ensures !(Generous(turns, limit) && |turns| > 2 * len)
  {
  }

  /** One turn, which sent more bytes and wrote `n` of them, and waits or not. */
  lemma CourseGoesOn(turns: seq<Turn>, limit: int, used: nat, written: nat, n: nat, left: nat, sent: int, sent': int, max: int, wait: bool)
    requires 0 < used <= |turns| && n <= written && sent <= max && (n > 0 || left > 0)
    requires OnCourse(turns, limit, used - 1, written - n, sent, max)
    requires var turn := turns[used - 1]; var granted := if turn.want <= max - sent then turn.want else max - sent;
      && sent' == sent + granted && n == Min(turn.take, Min(granted, n + left))
      && (wait <==> !turn.fails && turn.limited && turn.want > max - sent)
    ensures Generous(turns, limit) ==> !turns[used - 1].fails && turns[used - 1].raised.Some?
    ensures !wait ==> OnCourse(turns, limit, used, written, sent', max)
    ensures wait ==> Generous(turns, limit) ==>
      var raised := turns[used - 1].raised.value;
      raised > max && OnCourse(turns, limit, used, written, sent', raised)
  {
  }

  /** The last limit marked as blocking, by what was announced. */
  function LastMarked(before: int, announced: seq<int>): (r: int) {
    if announced == [] then before else announced[|announced| - 1]
  }

  /**
   writeData, for as many turns as `turns` describes; `used` are those it took. QUIC calls
   the callback once a turn, may report the limit only if the grant fell short, and takes
   at most the grant. Every limit it meets is announced, unless it was marked before; it
   fails only with QUIC, waits only when blocked, and completes if limits keep coming.
   */
  method WriteData(fc: FC.OutgoingController, b: seq<Byte>, turns: seq<Turn>)
    returns (written: nat, handed: seq<Byte>, announced: seq<int>, outcome: Outcome, used: nat)
    requires fc.bytesSent <= fc.maxData && fc.lastBlockedAt <= fc.maxData
    modifies fc
    ensures written <= |b| && handed == b[..written]
    ensures outcome == Completed ==> written == |b|
    ensures fc.bytesSent <= fc.maxData && fc.lastBlockedAt <= fc.maxData
    ensures old(fc.bytesSent) + written <= fc.bytesSent && old(fc.maxData) <= fc.maxData
    ensures Ascending(old(fc.lastBlockedAt), announced, fc.lastBlockedAt)
    ensures outcome == StillWaiting ==> fc.bytesSent == fc.maxData == fc.lastBlockedAt
    ensures used <= |turns|
    ensures forall k :: 0 <= k < used - 1 ==> !turns[k].fails
    ensures outcome == Error <==> used > 0 && turns[used - 1].fails
    ensures outcome == StillWriting ==> used == |turns| && written < |b|
    ensures outcome == StillWaiting ==>
      used > 0 && turns[used - 1].limited && (turns[used - 1].raised.None? || turns[used - 1].raised.value <= fc.maxData)
    ensures fc.lastBlockedAt == LastMarked(old(fc.lastBlockedAt), announced)
    ensures fc.maxData > old(fc.maxData) && old(fc.lastBlockedAt) < old(fc.maxData) ==>
      announced != [] && announced[0] == old(fc.maxData)
    ensures Generous(turns, old(fc.maxData)) && |turns| > 2 * |b| ==> outcome == Completed
  {
    assert Ascending(fc.lastBlockedAt, [], fc.lastBlockedAt);
    CourseStarts(turns, fc.bytesSent, fc.maxData);
    hide Ascending, Generous, OnCourse;
    var rest := b;
    written, handed, announced, used := 0, [], [], 0;
    while |rest| > 0
      invariant written <= |b| && handed == b[..written] && rest == b[written..]
      invariant used <= |turns| && forall k :: 0 <= k < used ==> !turns[k].fails
      invariant fc.bytesSent <= fc.maxData && fc.lastBlockedAt <= fc.maxData
      invariant old(fc.bytesSent) + written <= fc.bytesSent && old(fc.maxData) <= fc.maxData
      invariant Ascending(old(fc.lastBlockedAt), announced, fc.lastBlockedAt)
      invariant fc.lastBlockedAt == LastMarked(old(fc.lastBlockedAt), announced)
      invariant old(fc.lastBlockedAt) < old(fc.maxData) ==>
        if announced == [] then fc.maxData == old(fc.maxData) else announced[0] == old(fc.maxData)
      invariant OnCourse(turns, old(fc.maxData), used, written, fc.bytesSent, fc.maxData)
      decreases |turns| - used
    {
      if used == |turns| {
        CourseSuffices(turns, old(fc.maxData), |b|, written, fc.bytesSent, fc.maxData);
        return written, handed, announced, StillWriting, used;
      }
      var turn := turns[used];
      used := used + 1;
      ghost var before, sent := fc.lastBlockedAt, fc.bytesSent;
      var n, wait, announce := WriteTurn(fc, rest, turn);
      assert b[..written] + rest[..n] == b[..written + n];
      handed := handed + rest[..n];
      rest := rest[n..];
      written := written + n;
      CourseGoesOn(turns, old(fc.maxData), used, written, n, |rest|, sent, fc.bytesSent, fc.maxData, wait);
      if turn.fails {
        return written, handed, announced, Error, used;
      }
      if !wait {
        continue;
      }
      if announce.Some? {
        AscendingGrows(old(fc.lastBlockedAt), announced, before, announce.value);
        announced := announced + [announce.value];
      }
      if turn.raised.None? {
        return written, handed, announced, StillWaiting, used;
      }
      var ok := fc.UpdateMaxData(turn.raised.value);
      if !ok {
        return written, handed, announced, StillWaiting, used;
      }
    }
    return written, handed, announced, Completed, used;
  }
}
