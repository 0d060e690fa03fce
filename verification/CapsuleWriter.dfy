/**
 The CONNECT stream's writing side: a bounded queue of capsules, one goroutine that
 writes them, and closing, which any goroutine may start and the first one performs.

 A capsule is identified by its position among all capsules ever queued.
 */
module CapsuleWriter {
  import opened Common
  import C = Capsule

  const MAX_QUEUED: nat := 4096

  type Index = nat

  /** What the writer put on the stream. */
  datatype Entry =
    | Whole(i: Index)
    | Torn(i: Index, n: nat)          // a write that failed after n bytes
    | Close(c: C.Capsule)

  /** How the writing goroutine came to its end. */
  datatype Exit =
    | Stopped                         // it saw the context end
    | Missed                          // its write failed, and it found no close capsule
    | AfterTear                       // it tore a capsule, with the session's close under way
    | AfterClosing                    // it closed the session itself
    | AfterCapsule                    // it sent the close capsule, or failed to

  /** Where the writing goroutine stands. */
  datatype Writer =
    | Idle                            // in the select
    | Scan                            // about to look at the queue
    | Writing(i: Index)               // in Write, the queue unlocked
    | Pop(i: Index)                   // written, about to remove it from the queue
    | Failed                          // the write failed with nothing written: about to close the session
    | NotFirst                        // another close came first: about to look for its capsule
    | Tearing                         // the write failed midway: about to reset the stream
    | TornDown                           // reset; about to close the session
    | FinishClose                     // it is the one closing the session, and exits then
    | Closing(c: C.Capsule)           // about to send the close capsule
    | Exited(how: Exit)

  /** How far the first closeWithError has come. */
  datatype Closer =
    | NotClosing
    | FanOut(capsule: Option<C.Capsule>) // closeErr is set; closing the stream maps
    | Notifying                       // the close capsule is pending; about to wake the writer
    | Resetting                       // no capsule; about to reset the stream
    | Closed

  datatype Queue = Queue(
    items: seq<Index>,                // capsuleQueue
    pendingClose: Option<C.Capsule>,
    token: bool,                      // capsuleQueueUpdated holds a notification
    checked: nat,                     // queueCapsule calls that found the context alive
    signals: nat                      // queueCapsule calls between appending and notifying
  )

  datatype State = State(
    ctxDone: bool,
    closeErr: Option<Error>,
    queue: Queue,
    writer: Writer,
    closer: Closer,
    reset: bool,                      // the stream's sending side was reset
    readCanceled: bool,               // CancelRead was called on the stream
    finished: bool,                   // Close was called on the stream
    queued: seq<C.Capsule>,           // history: every capsule appended to the queue
    wire: seq<Entry>                  // history: what was handed to the stream
  )

  const FRESH := State(false, None, Queue([], None, false, 0, 0), Idle, NotClosing, false, false, false, [], [])

  // ---------- steps ----------

  function Append(s: State, c: C.Capsule): (r: State)
    requires s.queue.checked > 0
  {
    var q := s.queue.(checked := s.queue.checked - 1);
    if |q.items| >= MAX_QUEUED then s.(queue := q)
    else s.(queue := q.(items := q.items + [|s.queued|], signals := q.signals + 1), queued := s.queued + [c])
  }

  /** closeWithError up to its first unlock. */
  function TryClose(s: State, err: Error, capsule: Option<C.Capsule>): (r: State) {
    if s.closeErr.Some? then s else s.(closeErr := Some(err), closer := FanOut(capsule))
  }

  /** closeWithError under the queue's lock. */
  function CloseQueue(s: State): (r: State)
    requires s.closer.FanOut?
  {
    s.(queue := s.queue.(items := [], pendingClose := s.closer.capsule),
       closer := if s.closer.capsule.Some? then Notifying else Resetting)
  }

  function CloseEnd(s: State): (r: State) {
    if s.closer == Notifying then s.(queue := s.queue.(token := true), closer := Closed)
    else s.(reset := true, readCanceled := true, closer := Closed)
  }

  /** One turn of the inner loop, up to its unlock. */
  function Look(s: State): (r: State) {
    s.(writer := if s.queue.pendingClose.Some? then Closing(s.queue.pendingClose.value)
                 else if s.queue.items == [] then Idle
                 else Writing(s.queue.items[0]))
  }

  function PopHead(s: State): (r: State) {
    s.(writer := Scan, queue := if s.queue.items == [] then s.queue else s.queue.(items := s.queue.items[1..]))
  }

  /** The writer closes the session because its write failed; `otherwise` is where it goes if it is not the first. */
  function WriterCloses(s: State, err: Error, otherwise: Writer): (r: State) {
    if s.closeErr.Some? then s.(writer := otherwise, ctxDone := s.ctxDone || otherwise.Exited?)
    else TryClose(s, err, None).(writer := FinishClose)
  }

  /** The write failed midway: CancelRead and CancelWrite. */
  function Tear(s: State): (r: State) {
    s.(reset := true, readCanceled := true, writer := TornDown)
  }

  /** The write failed with nothing written, and another close came first. */
  function LookForCapsule(s: State): (r: State) {
    if s.queue.pendingClose.Some? then s.(writer := Scan) else s.(writer := Exited(Missed), ctxDone := true)
  }

  function SendClose(s: State, ok: bool): (r: State)
    requires s.writer.Closing?
  {
    s.(writer := Exited(AfterCapsule), ctxDone := true, readCanceled := true, finished := true,
       wire := if ok then s.wire + [Close(s.writer.c)] else s.wire,
       reset := s.reset || !ok)
  }

  datatype Action =
    | DoCheck                                          // queueCapsule looks at the context
    | DoAppend(c: C.Capsule)
    | DoSignal
    | DoTryClose(err: Error, capsule: Option<C.Capsule>)
    | DoCloseQueue
    | DoCloseEnd
    | DoCancelContext
    | DoStop                                           // the writer sees the context end
    | DoTake                                           // the writer takes the notification
    | DoLook
    | DoWritten                                        // Write succeeds
    | DoWriteFails
    | DoWriteTears(n: nat)                             // Write fails after n bytes
    | DoPop
    | DoFailedClose(err: Error)
    | DoLookForCapsule
    | DoTear
    | DoTornClose(err: Error)
    | DoFinishClose
    | DoSendClose(ok: bool)                            // TryWriteAll writes all or nothing

  predicate Enabled(s: State, a: Action) {
    match a
    case DoCheck => !s.ctxDone
    case DoAppend(_) => s.queue.checked > 0
    case DoSignal => s.queue.signals > 0
    case DoTryClose(_, capsule) => capsule.Some? ==> capsule.value.CloseSession?
    case DoCloseQueue => s.closer.FanOut?
    case DoCloseEnd => s.closer == Notifying || s.closer == Resetting
    case DoCancelContext => true
    case DoStop => s.writer == Idle && s.ctxDone
    case DoTake => s.writer == Idle && s.queue.token
    case DoLook => s.writer == Scan
    case DoWritten => s.writer.Writing? && !s.reset
    case DoWriteFails => s.writer.Writing?
    case DoWriteTears(n) => s.writer.Writing? && s.writer.i < |s.queued| && 0 < n <= |C.Append(s.queued[s.writer.i])| && !s.reset
    case DoPop => s.writer.Pop?
    case DoFailedClose(_) => s.writer == Failed
    case DoLookForCapsule => s.writer == NotFirst
    case DoTear => s.writer == Tearing
    case DoTornClose(_) => s.writer == TornDown
    case DoFinishClose => s.writer == FinishClose && s.closer == Closed
    case DoSendClose(ok) => s.writer.Closing? && (ok ==> !s.reset)
  }

  function Next(s: State, a: Action): (r: State)
    requires Enabled(s, a)
  {
    match a
    case DoCheck => s.(queue := s.queue.(checked := s.queue.checked + 1))
    case DoAppend(c) => Append(s, c)
    case DoSignal => s.(queue := s.queue.(signals := s.queue.signals - 1, token := true))
    case DoTryClose(err, capsule) => TryClose(s, err, capsule)
    case DoCloseQueue => CloseQueue(s)
    case DoCloseEnd => CloseEnd(s)
    case DoCancelContext => s.(ctxDone := true)
    case DoStop => s.(writer := Exited(Stopped))
    case DoTake => s.(queue := s.queue.(token := false), writer := Scan)
    case DoLook => Look(s)
    case DoWritten => s.(wire := s.wire + [Whole(s.writer.i)], writer := Pop(s.writer.i))
    case DoWriteFails => s.(writer := Failed)
    case DoWriteTears(n) => s.(wire := s.wire + [Torn(s.writer.i, n)], writer := Tearing)
    case DoPop => PopHead(s)
    case DoFailedClose(err) => WriterCloses(s, err, NotFirst)
    case DoLookForCapsule => LookForCapsule(s)
    case DoTear => Tear(s)
    case DoTornClose(err) => WriterCloses(s, err, Exited(AfterTear))
    case DoFinishClose => s.(writer := Exited(AfterClosing), ctxDone := true)
    case DoSendClose(ok) => SendClose(s, ok)
  }

  ghost predicate IsRun(states: seq<State>, actions: seq<Action>) {
    && |states| == |actions| + 1
    && states[0] == FRESH
    && forall i :: 0 <= i < |actions| ==> Enabled(states[i], actions[i]) && states[i + 1] == Next(states[i], actions[i])
  }

  // ---------- invariant ----------

  /** The positions of the capsules written whole. */
  function Wholes(wire: seq<Entry>): (r: seq<Index>) {
    if wire == [] then []
    else
      var rest := Wholes(wire[..|wire| - 1]);
      match wire[|wire| - 1]
      case Whole(i) => rest + [i]
      case _ => rest
  }

  /** What the queue holds and was not written yet. */
  function Unwritten(items: seq<Index>, w: Writer): (r: seq<Index>) {
    if w.Pop? && items != [] && items[0] <= w.i then items[1..] else items
  }

  predicate Before(whole: seq<Index>, i: Index) {
    whole == [] || whole[|whole| - 1] < i
  }

  /** Written and unwritten capsules are in the order they were queued, none twice. */
  ghost predicate OrderOk(whole: seq<Index>, items: seq<Index>, w: Writer, n: nat) {
    && StrictlyIncreasing(whole) && StrictlyIncreasing(items)
    && Before(whole, n) && Before(items, n)
    && (var left := Unwritten(items, w); left == [] || Before(whole, left[0]))
    && (w.Writing? ==> w.i < n && Before(whole, w.i) && (items == [] || w.i <= items[0]))
    && (w.Pop? ==> whole != [] && whole[|whole| - 1] == w.i && (items == [] || w.i <= items[0]))
  }

  /** Until a close empties the queue, they are all of them. */
  ghost predicate CompleteOk(whole: seq<Index>, items: seq<Index>, w: Writer, n: nat, open: bool) {
    open ==>
      && |whole| + |Unwritten(items, w)| == n
      && (Busy(w) ==> items != [] && items[0] == w.i)
  }

  predicate Busy(w: Writer) {
    w.Writing? || w.Pop?
  }

  /** Only the last entry can be a torn or a close capsule, and then nothing more is written. */
  ghost predicate ShapeOk(wire: seq<Entry>, w: Writer, reset: bool) {
    && (forall k :: 0 <= k < |wire| - 1 ==> wire[k].Whole?)
    && (wire != [] && wire[|wire| - 1].Torn? ==> w == Tearing || (EndsTorn(w) && reset))
    && (wire != [] && wire[|wire| - 1].Close? ==> w == Exited(AfterCapsule))
  }

  predicate EndsTorn(w: Writer) {
    w == TornDown || w == FinishClose || w == Exited(AfterTear) || w == Exited(AfterClosing)
  }

  /** A torn capsule is the one at the front of what is unwritten. */
  ghost predicate TornOk(wire: seq<Entry>, queued: seq<C.Capsule>, open: bool) {
    forall k :: 0 <= k < |wire| && wire[k].Torn? ==>
      && wire[k].i < |queued|
      && 0 < wire[k].n <= |C.Append(queued[wire[k].i])|
      && Before(Wholes(wire), wire[k].i)
      && (open ==> wire[k].i == |Wholes(wire)|)
  }

  ghost predicate CloseOk(s: State) {
    && (s.closer == NotClosing <==> s.closeErr.None?)
    && (s.queue.pendingClose.Some? ==> s.closer == Notifying || s.closer == Closed)
    && (s.queue.pendingClose.Some? ==> s.queue.pendingClose.value.CloseSession?)
    && (s.closer.FanOut? && s.closer.capsule.Some? ==> s.closer.capsule.value.CloseSession?)
    && (s.writer.Closing? ==> s.queue.pendingClose == Some(s.writer.c))
  }

  /** A close capsule on the stream is the pending one. */
  ghost predicate SentOk(wire: seq<Entry>, pendingClose: Option<C.Capsule>) {
    forall k :: 0 <= k < |wire| && wire[k].Close? ==> pendingClose == Some(wire[k].c)
  }

  /** A sleeping writer that has work will be woken. */
  ghost predicate WakeOk(s: State) {
    s.writer == Idle && (s.queue.items != [] || s.queue.pendingClose.Some?) ==>
      s.queue.token || s.queue.signals > 0 || s.closer == Notifying
  }

  /** How far the first close came, and what the writer made of it, decides what became of the stream. */
  ghost predicate OutcomeOk(w: Writer, closer: Closer, pendingClose: Option<C.Capsule>, reset: bool, readCanceled: bool) {
    && (closer == Notifying ==> pendingClose.Some?)
    && (closer == Resetting ==> pendingClose.None?)
    && (closer == Closed && pendingClose.None? ==> reset && readCanceled)
    && (w == TornDown || w == Exited(AfterTear) ==> reset && readCanceled)
    && (w == FinishClose ==> closer == FanOut(None) || closer == Resetting || (closer == Closed && pendingClose.None?))
    && (w == Exited(AfterClosing) ==> closer == Closed && pendingClose.None?)
    && (closer.FanOut? || closer == NotClosing ==> pendingClose.None?)
    && (reset ==>
          || w == TornDown || w == FinishClose || w == Exited(AfterTear) || w == Exited(AfterCapsule)
          || (closer == Closed && pendingClose.None?))
  }

  /** The close capsule went out, or the stream was reset. */
  ghost predicate CapsuleOk(w: Writer, reset: bool, readCanceled: bool, finished: bool, wire: seq<Entry>) {
    w == Exited(AfterCapsule) ==> readCanceled && finished && (reset || Sent(wire))
  }

  /** The last thing on the stream is a close capsule. */
  predicate Sent(wire: seq<Entry>) {
    wire != [] && wire[|wire| - 1].Close?
  }

  predicate Cleared(c: Closer) {
    c == Notifying || c == Resetting || c == Closed
  }

  ghost predicate Inv(s: State) {
    && |s.queue.items| <= MAX_QUEUED
    && OrderOk(Wholes(s.wire), s.queue.items, s.writer, |s.queued|)
    && CompleteOk(Wholes(s.wire), s.queue.items, s.writer, |s.queued|, !Cleared(s.closer))
    && ShapeOk(s.wire, s.writer, s.reset)
    && TornOk(s.wire, s.queued, !Cleared(s.closer))
    && CloseOk(s)
    && SentOk(s.wire, s.queue.pendingClose)
    && WakeOk(s)
    && OutcomeOk(s.writer, s.closer, s.queue.pendingClose, s.reset, s.readCanceled)
    && CapsuleOk(s.writer, s.reset, s.readCanceled, s.finished, s.wire)
  }

  // ---------- how steps affect the parts of the invariant ----------

  lemma WholesAppend(wire: seq<Entry>, e: Entry)
    ensures Wholes(wire + [e]) == if e.Whole? then Wholes(wire) + [e.i] else Wholes(wire)
  {
    assert (wire + [e])[..|wire|] == wire;
  }

  /** The writer moves on without touching the queue or the stream. */
  lemma OrderMove(whole: seq<Index>, items: seq<Index>, w: Writer, w': Writer, n: nat, open: bool)
    requires OrderOk(whole, items, w, n) && CompleteOk(whole, items, w, n, open) && !w.Pop? && !Busy(w')
    ensures OrderOk(whole, items, w', n) && CompleteOk(whole, items, w', n, open)
  {
  }

  lemma OrderAppend(whole: seq<Index>, items: seq<Index>, w: Writer, n: nat, open: bool)
    requires OrderOk(whole, items, w, n) && CompleteOk(whole, items, w, n, open)
    ensures OrderOk(whole, items + [n], w, n + 1) && CompleteOk(whole, items + [n], w, n + 1, open)
  {
    assert Unwritten(items + [n], w) == Unwritten(items, w) + [n];
  }

  lemma OrderClear(whole: seq<Index>, items: seq<Index>, w: Writer, n: nat)
    requires OrderOk(whole, items, w, n)
    ensures OrderOk(whole, [], w, n) && CompleteOk(whole, [], w, n, false)
  {
  }

  lemma OrderLook(whole: seq<Index>, items: seq<Index>, n: nat, open: bool)
    requires OrderOk(whole, items, Scan, n) && CompleteOk(whole, items, Scan, n, open) && items != []
    ensures OrderOk(whole, items, Writing(items[0]), n) && CompleteOk(whole, items, Writing(items[0]), n, open)
  {
  }

  lemma OrderWritten(whole: seq<Index>, items: seq<Index>, i: Index, n: nat, open: bool)
    requires OrderOk(whole, items, Writing(i), n) && CompleteOk(whole, items, Writing(i), n, open)
    ensures OrderOk(whole + [i], items, Pop(i), n) && CompleteOk(whole + [i], items, Pop(i), n, open)
  {
  }

  lemma OrderPop(whole: seq<Index>, items: seq<Index>, i: Index, n: nat, open: bool)
    requires OrderOk(whole, items, Pop(i), n) && CompleteOk(whole, items, Pop(i), n, open)
    ensures
      var items' := if items == [] then items else items[1..];
      OrderOk(whole, items', Scan, n) && CompleteOk(whole, items', Scan, n, open)
  {
    if items != [] {
      var rest := items[1..];
      assert StrictlyIncreasing(rest) && Before(rest, n);
      assert rest != [] ==> items[0] < rest[0];
    }
  }

  /** While nothing was cleared, the capsule being written is the next one. */
  lemma NextIsCount(whole: seq<Index>, items: seq<Index>, i: Index, n: nat, open: bool)
    requires OrderOk(whole, items, Writing(i), n) && CompleteOk(whole, items, Writing(i), n, open)
    ensures Before(whole, i) && (open ==> i == |whole|)
  {
    if open {
      OrderedIsAll(whole, items, Writing(i), n);
      assert (whole + items)[|whole|] == i;
    }
  }

  /** Written and unwritten together are every position from zero. */
  lemma OrderedIsAll(whole: seq<Index>, items: seq<Index>, w: Writer, n: nat)
    requires OrderOk(whole, items, w, n) && CompleteOk(whole, items, w, n, true)
    ensures whole + Unwritten(items, w) == seq(n, i => i)
  {
    var all := whole + Unwritten(items, w);
    Joined(whole, Unwritten(items, w), n);
    forall k | 0 <= k < n ensures all[k] == k {
      Identity(all, n, k);
    }
  }

  lemma Joined(s: seq<nat>, t: seq<nat>, n: nat)
    requires StrictlyIncreasing(s) && StrictlyIncreasing(t) && Before(s, n) && Before(t, n)
    requires t == [] || Before(s, t[0])
    ensures StrictlyIncreasing(s + t) && forall i :: 0 <= i < |s + t| ==> (s + t)[i] < n
  {
  }

  /** A strictly increasing sequence of n numbers below n counts up from zero. */
  lemma {:induction false} Identity(s: seq<nat>, n: nat, k: nat)
    requires StrictlyIncreasing(s) && |s| == n && k < n && forall i :: 0 <= i < n ==> s[i] < n
    ensures s[k] == k
  {
    AtLeast(s, k);
    AtMost(s, n, k);
  }

  lemma {:induction false} AtLeast(s: seq<nat>, k: nat)
    requires StrictlyIncreasing(s) && k < |s|
    ensures s[k] >= k
  {
    if k > 0 {
      AtLeast(s, k - 1);
    }
  }

  lemma {:induction false} AtMost(s: seq<nat>, n: nat, k: nat)
    requires StrictlyIncreasing(s) && |s| == n && k < n && forall i :: 0 <= i < n ==> s[i] < n
    ensures s[k] <= k
    decreases n - k
  {
    if k < n - 1 {
      AtMost(s, n, k + 1);
    }
  }

  lemma TornAppend(wire: seq<Entry>, queued: seq<C.Capsule>, c: C.Capsule, open: bool)
    requires TornOk(wire, queued, open)
    ensures TornOk(wire, queued + [c], open) && TornOk(wire, queued, false)
  {
  }

  lemma TornMore(wire: seq<Entry>, queued: seq<C.Capsule>, e: Entry, open: bool)
    requires TornOk(wire, queued, open)
    requires forall k :: 0 <= k < |wire| ==> wire[k].Whole?
    requires e.Torn? ==> e.i < |queued| && 0 < e.n <= |C.Append(queued[e.i])| && (open ==> e.i == |Wholes(wire)|)
    requires e.Torn? ==> Before(Wholes(wire), e.i)
    ensures TornOk(wire + [e], queued, open)
  {
    WholesAppend(wire, e);
  }

  lemma SentMore(wire: seq<Entry>, pendingClose: Option<C.Capsule>, e: Entry)
    requires SentOk(wire, pendingClose) && (e.Close? ==> pendingClose == Some(e.c))
    ensures SentOk(wire + [e], pendingClose)
  {
  }

  lemma SentNone(wire: seq<Entry>, pendingClose: Option<C.Capsule>)
    requires SentOk(wire, None)
    ensures SentOk(wire, pendingClose)
  {
  }

  lemma ShapeMore(wire: seq<Entry>, w: Writer, reset: bool, e: Entry, w': Writer)
    requires ShapeOk(wire, w, reset) && (w.Writing? || w.Closing?)
    requires (e.Torn? ==> w' == Tearing) && (e.Close? ==> w' == Exited(AfterCapsule))
    ensures ShapeOk(wire + [e], w', reset)
  {
  }

  lemma ShapeMove(wire: seq<Entry>, w: Writer, reset: bool, w': Writer, reset': bool)
    requires ShapeOk(wire, w, reset) && (reset ==> reset')
    requires w' != w ==> !w.Exited? && (w == Tearing ==> w' == TornDown && reset') && (EndsTorn(w) ==> EndsTorn(w'))
    ensures ShapeOk(wire, w', reset')
  {
  }

  lemma ShapeWhole(wire: seq<Entry>, w: Writer, reset: bool)
    requires ShapeOk(wire, w, reset) && (w.Writing? || w.Closing?)
    ensures forall k :: 0 <= k < |wire| ==> wire[k].Whole?
  {
  }

  ghost predicate OutcomesOk(s: State) {
    && OutcomeOk(s.writer, s.closer, s.queue.pendingClose, s.reset, s.readCanceled)
    && CapsuleOk(s.writer, s.reset, s.readCanceled, s.finished, s.wire)
  }

  /** The writer moves on to a place that says nothing about the outcome. */
  predicate Plain(w: Writer) {
    !EndsTorn(w) && w != Exited(AfterCapsule)
  }

  lemma OutcomePlain(s: State, w: Writer, wire: seq<Entry>)
    requires OutcomesOk(s) && Plain(s.writer) && Plain(w)
    ensures OutcomesOk(s.(writer := w, wire := wire))
  {
  }

  lemma ClosePlain(s: State, w: Writer, wire: seq<Entry>)
    requires CloseOk(s) && WakeOk(s) && !w.Closing? && w != Idle
    ensures CloseOk(s.(writer := w, wire := wire)) && WakeOk(s.(writer := w, wire := wire))
  {
  }

  lemma OutcomeLook(s: State)
    requires OutcomesOk(s) && s.writer == Scan
    ensures OutcomesOk(Look(s))
  {
    OutcomePlain(s, Look(s).writer, s.wire);
  }

  lemma OutcomePop(s: State)
    requires OutcomesOk(s) && s.writer.Pop?
    ensures OutcomesOk(PopHead(s))
  {
    OutcomePlain(s, Scan, s.wire);
  }

  lemma OutcomeSendClose(s: State, ok: bool)
    requires OutcomesOk(s) && s.writer.Closing? && s.queue.pendingClose.Some?
    ensures OutcomesOk(SendClose(s, ok))
  {
  }

  lemma OutcomeOthers(s: State, a: Action)
    requires OutcomesOk(s) && Enabled(s, a) && ByOthers(a) && (s.closer == NotClosing <==> s.closeErr.None?)
    ensures OutcomesOk(Next(s, a))
  {
  }

  lemma OutcomeCloseQueue(s: State)
    requires OutcomesOk(s) && s.closer.FanOut?
    ensures OutcomesOk(CloseQueue(s))
  {
  }

  lemma OutcomeMoves(s: State, a: Action)
    requires OutcomesOk(s) && Enabled(s, a) && !ChangesData(a) && !ByOthers(a) && (s.closer == NotClosing <==> s.closeErr.None?)
    ensures OutcomesOk(Next(s, a))
  {
    hide C.Append;
    if a.DoStop? || a.DoTake? || a.DoWriteFails? || a.DoLookForCapsule? {
      OutcomePlain(s, Next(s, a).writer, s.wire);
    }
  }

  lemma MovesFrame(s: State, a: Action)
    requires Enabled(s, a) && !ChangesData(a) && !ByOthers(a)
    ensures
      var r := Next(s, a);
      && r.wire == s.wire && r.queued == s.queued
      && r.queue == s.queue.(token := r.queue.token) && (r.queue.token == s.queue.token || r.writer == Scan)
      && !Busy(r.writer) && !s.writer.Pop? && !r.writer.Closing? && r.writer != Idle
      && ((r.closer == s.closer && r.closeErr == s.closeErr) || (s.closeErr.None? && r.closeErr.Some? && r.closer == FanOut(None)))
      && (s.reset ==> r.reset)
  {
    match a
    case DoFailedClose(err) => ClosesFrame(s, err, NotFirst);
    case DoTornClose(err) => ClosesFrame(s, err, Exited(AfterTear));
    case _ =>
  }

  lemma ClosesFrame(s: State, err: Error, otherwise: Writer)
    requires otherwise == NotFirst || otherwise.Exited?
    ensures
      var r := WriterCloses(s, err, otherwise);
      && r.wire == s.wire && r.queued == s.queued && r.queue == s.queue && r.reset == s.reset
      && (r.writer == otherwise || r.writer == FinishClose)
      && ((r.closer == s.closer && r.closeErr == s.closeErr)
          || (s.closeErr.None? && r.closeErr.Some? && r.closer == FanOut(None)))
  {
  }

  lemma CloseMoves(s: State, a: Action)
    requires CloseOk(s) && WakeOk(s) && Enabled(s, a) && !ChangesData(a) && !ByOthers(a)
    ensures
      var r := Next(s, a);
      CloseOk(r) && WakeOk(r) && Cleared(r.closer) == Cleared(s.closer)
  {
    MovesFrame(s, a);
    hide Next, Enabled;
  }

  // ---------- preservation ----------

  lemma AppendFrame(s: State, c: C.Capsule)
    requires s.queue.checked > 0 && CloseOk(s) && WakeOk(s)
    ensures
      var r := Append(s, c);
      && CloseOk(r) && WakeOk(r)
      && r.wire == s.wire && r.writer == s.writer && r.closer == s.closer && r.queue.pendingClose == s.queue.pendingClose
      && r.reset == s.reset && r.readCanceled == s.readCanceled && r.finished == s.finished
      && (|s.queue.items| < MAX_QUEUED ==> r.queue.items == s.queue.items + [|s.queued|] && r.queued == s.queued + [c])
      && (|s.queue.items| >= MAX_QUEUED ==> r.queue.items == s.queue.items && r.queued == s.queued)
  {
  }

  lemma AppendKeeps(s: State, c: C.Capsule)
    requires Inv(s) && s.queue.checked > 0
    ensures Inv(Append(s, c))
  {
    hide OrderOk, CompleteOk, ShapeOk, TornOk, SentOk, Before, OutcomeOk, CapsuleOk, CloseOk, WakeOk, Append;
    AppendFrame(s, c);
    OrderAppend(Wholes(s.wire), s.queue.items, s.writer, |s.queued|, !Cleared(s.closer));
    TornAppend(s.wire, s.queued, c, !Cleared(s.closer));
  }

  lemma CloseQueueKeeps(s: State)
    requires Inv(s) && s.closer.FanOut?
    ensures Inv(CloseQueue(s))
  {
    hide OrderOk, CompleteOk, ShapeOk, TornOk, SentOk, Before, OutcomeOk, CapsuleOk;
    OutcomeCloseQueue(s);
    OrderClear(Wholes(s.wire), s.queue.items, s.writer, |s.queued|);
    TornAppend(s.wire, s.queued, C.MaxData(0), true);
    SentNone(s.wire, s.closer.capsule);
  }

  lemma LookKeeps(s: State)
    requires Inv(s) && s.writer == Scan
    ensures Inv(Look(s))
  {
    var w := Look(s).writer;
    hide OrderOk, CompleteOk, ShapeOk, TornOk, SentOk, Before, OutcomeOk, CapsuleOk;
    OutcomeLook(s);
    ShapeMove(s.wire, s.writer, s.reset, w, s.reset);
    if w.Writing? {
      OrderLook(Wholes(s.wire), s.queue.items, |s.queued|, !Cleared(s.closer));
    } else {
      OrderMove(Wholes(s.wire), s.queue.items, Scan, w, |s.queued|, !Cleared(s.closer));
    }
  }

  lemma WrittenKeeps(s: State)
    requires Inv(s) && Enabled(s, DoWritten)
    ensures Inv(Next(s, DoWritten))
  {
    hide OrderOk, CompleteOk, ShapeOk, TornOk, SentOk, Before, OutcomeOk, CapsuleOk, CloseOk, WakeOk, Wholes, C.Append;
    ClosePlain(s, Pop(s.writer.i), s.wire + [Whole(s.writer.i)]);
    OutcomePlain(s, Pop(s.writer.i), s.wire + [Whole(s.writer.i)]);
    ShapeWhole(s.wire, s.writer, s.reset);
    ShapeMore(s.wire, s.writer, s.reset, Whole(s.writer.i), Pop(s.writer.i));
    SentMore(s.wire, s.queue.pendingClose, Whole(s.writer.i));
    WholesAppend(s.wire, Whole(s.writer.i));
    OrderWritten(Wholes(s.wire), s.queue.items, s.writer.i, |s.queued|, !Cleared(s.closer));
    TornMore(s.wire, s.queued, Whole(s.writer.i), !Cleared(s.closer));
  }

  lemma WriteTearsKeeps(s: State, n: nat)
    requires Inv(s) && Enabled(s, DoWriteTears(n))
    ensures Inv(Next(s, DoWriteTears(n)))
  {
    hide OrderOk, CompleteOk, ShapeOk, TornOk, SentOk, Before, OutcomeOk, CapsuleOk, CloseOk, WakeOk, Wholes, C.Append;
    ClosePlain(s, Tearing, s.wire + [Torn(s.writer.i, n)]);
    OutcomePlain(s, Tearing, s.wire + [Torn(s.writer.i, n)]);
    ShapeWhole(s.wire, s.writer, s.reset);
    ShapeMore(s.wire, s.writer, s.reset, Torn(s.writer.i, n), Tearing);
    SentMore(s.wire, s.queue.pendingClose, Torn(s.writer.i, n));
    NextIsCount(Wholes(s.wire), s.queue.items, s.writer.i, |s.queued|, !Cleared(s.closer));
    WholesAppend(s.wire, Torn(s.writer.i, n));
    OrderMove(Wholes(s.wire), s.queue.items, s.writer, Tearing, |s.queued|, !Cleared(s.closer));
    TornMore(s.wire, s.queued, Torn(s.writer.i, n), !Cleared(s.closer));
  }

  lemma PopKeeps(s: State)
    requires Inv(s) && s.writer.Pop?
    ensures Inv(PopHead(s))
  {
    hide OrderOk, CompleteOk, ShapeOk, TornOk, SentOk, Before, OutcomeOk, CapsuleOk;
    OutcomePop(s);
    ShapeMove(s.wire, s.writer, s.reset, Scan, s.reset);
    OrderPop(Wholes(s.wire), s.queue.items, s.writer.i, |s.queued|, !Cleared(s.closer));
  }

  lemma SendCloseKeeps(s: State, ok: bool)
    requires Inv(s) && s.writer.Closing?
    ensures Inv(SendClose(s, ok))
  {
    hide OrderOk, CompleteOk, ShapeOk, TornOk, SentOk, Before, OutcomeOk, CapsuleOk;
    OutcomeSendClose(s, ok);
    ShapeWhole(s.wire, s.writer, s.reset);
    ShapeMore(s.wire, s.writer, s.reset, Close(s.writer.c), Exited(AfterCapsule));
    ShapeMove(s.wire, s.writer, s.reset, Exited(AfterCapsule), s.reset || !ok);
    SentMore(s.wire, s.queue.pendingClose, Close(s.writer.c));
    OrderMove(Wholes(s.wire), s.queue.items, s.writer, Exited(AfterCapsule), |s.queued|, !Cleared(s.closer));
    if ok {
      WholesAppend(s.wire, Close(s.writer.c));
      TornMore(s.wire, s.queued, Close(s.writer.c), !Cleared(s.closer));
    }
  }

  predicate ChangesData(a: Action) {
    a.DoAppend? || a.DoCloseQueue? || a.DoLook? || a.DoWritten? || a.DoWriteTears? || a.DoPop? || a.DoSendClose?
  }

  predicate ByOthers(a: Action) {
    a.DoCheck? || a.DoSignal? || a.DoTryClose? || a.DoCloseEnd? || a.DoCancelContext?
  }

  /** Steps of other goroutines that leave the queue's items alone. */
  lemma OthersKeep(s: State, a: Action)
    requires Inv(s) && Enabled(s, a) && ByOthers(a)
    ensures Inv(Next(s, a))
  {
    hide OrderOk, CompleteOk, ShapeOk, TornOk, SentOk, Before, OutcomeOk, CapsuleOk;
    OutcomeOthers(s, a);
    ShapeMove(s.wire, s.writer, s.reset, s.writer, Next(s, a).reset);
  }

  /** Steps that only move the writer on. */
  lemma WriterMoves(s: State, a: Action)
    requires Inv(s) && Enabled(s, a) && !ChangesData(a) && !ByOthers(a)
    ensures Inv(Next(s, a))
  {
    var r := Next(s, a);
    hide OrderOk, CompleteOk, ShapeOk, TornOk, SentOk, Before, OutcomeOk, CapsuleOk;
    OutcomeMoves(s, a);
    MovesFrame(s, a);
    CloseMoves(s, a);
    hide CloseOk, WakeOk;
    ShapeMove(s.wire, s.writer, s.reset, r.writer, r.reset);
    OrderMove(Wholes(s.wire), s.queue.items, s.writer, r.writer, |s.queued|, !Cleared(s.closer));
  }

  lemma StepKeeps(s: State, a: Action)
    requires Inv(s) && Enabled(s, a)
    ensures Inv(Next(s, a))
  {
    hide Inv;
    match a
    case DoAppend(c) => AppendKeeps(s, c);
    case DoCloseQueue => CloseQueueKeeps(s);
    case DoLook => LookKeeps(s);
    case DoWritten => WrittenKeeps(s);
    case DoWriteTears(n) => WriteTearsKeeps(s, n);
    case DoPop => PopKeeps(s);
    case DoSendClose(ok) => SendCloseKeeps(s, ok);
    case _ =>
      if ByOthers(a) {
        OthersKeep(s, a);
      } else {
        WriterMoves(s, a);
      }
  }

  // ---------- every run ----------

  lemma OrderFresh()
    ensures Wholes([]) == [] && OrderOk([], [], Idle, 0) && CompleteOk([], [], Idle, 0, true)
  {
  }

  lemma WireFresh()
    ensures ShapeOk([], Idle, false) && TornOk([], [], true) && SentOk([], None)
  {
  }

  lemma FreshOk()
    ensures Inv(FRESH)
  {
    hide OrderOk, CompleteOk, Wholes, ShapeOk, TornOk, SentOk;
    OrderFresh();
    WireFresh();
  }

  lemma {:induction false} RunKeeps(states: seq<State>, actions: seq<Action>, i: nat)
    requires IsRun(states, actions) && i < |states|
    ensures Inv(states[i])
  {
    if i == 0 {
      FreshOk();
    } else {
      hide Inv, Next;
      RunKeeps(states, actions, i - 1);
      StepKeeps(states[i - 1], actions[i - 1]);
    }
  }

  /**
   In every interleaving the stream carries whole capsules in the order they were
   queued, each at most once, then at most one more thing: a torn capsule, after
   which the writer resets the stream and exits, or the close capsule that the
   session's first close left, after which the writer has exited. Until a close
   empties the queue, what was written and what is queued are all capsules ever
   queued. The queue stays within its bound, and a sleeping writer with work to do
   has a notification coming.
   */
  lemma Framing(states: seq<State>, actions: seq<Action>, i: nat)
    requires IsRun(states, actions) && i < |states|
    ensures
      var s := states[i];
      && |s.queue.items| <= MAX_QUEUED
      && (forall k :: 0 <= k < |s.wire| - 1 ==> s.wire[k].Whole?)
      && StrictlyIncreasing(Wholes(s.wire))
      && (s.wire != [] && s.wire[|s.wire| - 1].Torn? ==> s.reset || s.writer == Tearing)
      && (s.wire != [] && s.wire[|s.wire| - 1].Torn? ==> s.writer == Tearing || EndsTorn(s.writer))
      && (s.wire != [] && s.wire[|s.wire| - 1].Close? ==>
            s.writer == Exited(AfterCapsule) && s.queue.pendingClose == Some(s.wire[|s.wire| - 1].c))
      && (!Cleared(s.closer) ==> Wholes(s.wire) + Unwritten(s.queue.items, s.writer) == seq(|s.queued|, k => k))
      && (s.writer == Idle && (s.queue.items != [] || s.queue.pendingClose.Some?) ==>
            s.queue.token || s.queue.signals > 0 || s.closer == Notifying)
  {
    RunKeeps(states, actions, i);
    var s := states[i];
    if !Cleared(s.closer) {
      OrderedIsAll(Wholes(s.wire), s.queue.items, s.writer, |s.queued|);
    }
  }

  /** Once the writer has left the session to its close, nothing is written any more. */
  lemma NothingFollows(s: State, a: Action)
    requires Inv(s) && Enabled(s, a) && s.wire != [] && !s.wire[|s.wire| - 1].Whole?
    ensures Next(s, a).wire == s.wire
  {
    hide OrderOk, CompleteOk, TornOk, CloseOk, SentOk, WakeOk, OutcomeOk, CapsuleOk, Wholes;
    assert !s.writer.Writing? && !s.writer.Closing?;
    hide ShapeOk, C.Append;
    match a
    case DoFailedClose(err) => ClosesFrame(s, err, NotFirst);
    case DoTornClose(err) => ClosesFrame(s, err, Exited(AfterTear));
    case _ =>
  }

  // ---------- what becomes of a close ----------

  /** The writer ends without looking for a close capsule, or before one is pending. */
  predicate EndsUnsettled(s: State, a: Action) {
    a == DoStop || (a == DoLookForCapsule && s.queue.pendingClose.None?)
  }

  predicate LeftUnsettled(w: Writer) {
    w == Exited(Stopped) || w == Exited(Missed)
  }

  lemma ExitStep(s: State, a: Action)
    requires Enabled(s, a)
    ensures LeftUnsettled(Next(s, a).writer) <==> LeftUnsettled(s.writer) || EndsUnsettled(s, a)
    ensures (s.writer.Exited? ==> s.ctxDone) && Next(s, a).writer.Exited? ==> Next(s, a).ctxDone
  {
    hide C.Append;
    match a
    case DoFailedClose(err) => ClosesFrame(s, err, NotFirst);
    case DoTornClose(err) => ClosesFrame(s, err, Exited(AfterTear));
    case _ =>
  }

  lemma {:induction false} LeftUnsettledIff(states: seq<State>, actions: seq<Action>, i: nat)
    requires IsRun(states, actions) && i < |states|
    ensures LeftUnsettled(states[i].writer) <==> exists j :: 0 <= j < i && EndsUnsettled(states[j], actions[j])
    ensures states[i].writer.Exited? ==> states[i].ctxDone
  {
    hide Next, Enabled, EndsUnsettled;
    if i > 0 {
      LeftUnsettledIff(states, actions, i - 1);
      ExitStep(states[i - 1], actions[i - 1]);
    }
  }

  /**
   When the first close is through and the writer has ended, the stream carries the close
   capsule or was reset, and its receiving side was canceled, in all cases but one: the
   close left a capsule, and the writer ended on seeing the context done, or because no
   capsule was pending when it looked for one.
   */
  lemma CloseOutcome(states: seq<State>, actions: seq<Action>, i: nat)
    requires IsRun(states, actions) && i < |states| && states[i].closer == Closed && states[i].writer.Exited?
    ensures
      var s := states[i];
      var abandoned := s.queue.pendingClose.Some? && exists j :: 0 <= j < i && EndsUnsettled(states[j], actions[j]);
      && (Sent(s.wire) || s.reset <==> !abandoned)
      && (!abandoned ==> s.readCanceled)
      && (Sent(s.wire) ==> s.finished && s.queue.pendingClose == Some(s.wire[|s.wire| - 1].c))
  {
    hide Inv, IsRun, EndsUnsettled;
    RunKeeps(states, actions, i);
    LeftUnsettledIff(states, actions, i);
    OutcomeOf(states[i]);
  }

  lemma OutcomeOf(s: State)
    requires Inv(s) && s.closer == Closed && s.writer.Exited?
    ensures
      var abandoned := s.queue.pendingClose.Some? && LeftUnsettled(s.writer);
      && (Sent(s.wire) || s.reset <==> !abandoned)
      && (!abandoned ==> s.readCanceled)
      && (Sent(s.wire) ==> s.finished && s.queue.pendingClose == Some(s.wire[|s.wire| - 1].c))
  {
    hide OrderOk, CompleteOk, TornOk, WakeOk;
    match s.writer.how
    case Stopped => assert !Sent(s.wire);
    case Missed => assert !Sent(s.wire);
    case AfterTear => assert s.reset;
    case AfterClosing => assert s.reset;
    case AfterCapsule =>
  }

  // ---------- the wait of CloseWithError ----------

  predicate IsWriterStep(a: Action) {
    !ByOthers(a) && !a.DoAppend? && !a.DoCloseQueue?
  }

  /** How many steps a writer has left at most once a close capsule is pending. */
  function StepsLeft(w: Writer): (n: nat) {
    match w
    case Exited(_) => 0
    case Closing(_) => 1
    case TornDown => 1
    case FinishClose => 1
    case Scan => 2
    case Tearing => 2
    case Idle => 3
    case Pop(_) => 3
    case NotFirst => 3
    case Failed => 4
    case Writing(_) => 5
  }

  /** With a close capsule pending every step of the writer brings it closer to its end, and no other step takes it back. */
  lemma WriterComesToItsEnd(s: State, a: Action)
    requires Inv(s) && Enabled(s, a) && s.closer == Closed && s.queue.pendingClose.Some?
    ensures
      var r := Next(s, a);
      && r.closer == Closed && r.queue.pendingClose == s.queue.pendingClose
      && (if IsWriterStep(a) then StepsLeft(r.writer) < StepsLeft(s.writer) else r.writer == s.writer)
  {
    hide OrderOk, CompleteOk, TornOk, ShapeOk, SentOk, WakeOk, CapsuleOk, Wholes, C.Append;
    assert s.closeErr.Some?;
    match a
    case DoFailedClose(err) => ClosesFrame(s, err, NotFirst);
    case DoTornClose(err) => ClosesFrame(s, err, Exited(AfterTear));
    case _ =>
  }

  /**
   CloseWithError waits for the context. Once its close is through with the capsule
   pending, the wait is over or a step is enabled that brings it about: one of the writer,
   or the notification that lets a sleeping writer take one.
   */
  lemma CloseCanEnd(states: seq<State>, actions: seq<Action>, i: nat) returns (a: Action)
    requires IsRun(states, actions) && i < |states| && states[i].closer == Closed && states[i].queue.pendingClose.Some?
    ensures
      var s := states[i];
      || (s.writer.Exited? && s.ctxDone)
      || (Enabled(s, a) && IsWriterStep(a))
      || (Enabled(s, a) && a == DoSignal && Enabled(Next(s, a), DoTake))
  {
    hide Inv, IsRun, Enabled, Next;
    RunKeeps(states, actions, i);
    LeftUnsettledIff(states, actions, i);
    if states[i].writer.Exited? {
      a := DoCheck;
    } else if states[i].writer == Idle {
      a := IdleWakes(states[i]);
    } else {
      a := WriterGoesOn(states[i]);
    }
  }

  lemma IdleWakes(s: State) returns (a: Action)
    requires Inv(s) && s.closer == Closed && s.queue.pendingClose.Some? && s.writer == Idle
    ensures (a == DoTake && Enabled(s, a)) || (a == DoSignal && Enabled(s, a) && Enabled(Next(s, a), DoTake))
  {
    hide OrderOk, CompleteOk, TornOk, ShapeOk, SentOk, OutcomeOk, CapsuleOk, CloseOk, Wholes;
    a := if s.queue.token then DoTake else DoSignal;
  }

  lemma WriterGoesOn(s: State) returns (a: Action)
    requires s.closer == Closed && s.writer != Idle && !s.writer.Exited?
    ensures Enabled(s, a) && IsWriterStep(a)
  {
    a := match s.writer
      case Scan => DoLook
      case Writing(_) => DoWriteFails
      case Pop(_) => DoPop
      case Failed => DoFailedClose(ContextDone)
      case NotFirst => DoLookForCapsule
      case Tearing => DoTear
      case TornDown => DoTornClose(ContextDone)
      case FinishClose => DoFinishClose
      case _ => DoSendClose(false);
  }

  lemma Extend(states: seq<State>, actions: seq<Action>, a: Action) returns (more: seq<State>, done: seq<Action>)
    requires IsRun(states, actions) && Enabled(states[|states| - 1], a)
    ensures IsRun(more, done) && more[|more| - 1] == Next(states[|states| - 1], a)
  {
    hide Next, Enabled;
    more, done := states + [Next(states[|states| - 1], a)], actions + [a];
  }

  /** A capsule is in the writer's hands. */
  lemma OneInHand(c: C.Capsule) returns (states: seq<State>, actions: seq<Action>)
    ensures IsRun(states, actions)
    ensures
      var s := states[|states| - 1];
      s == FRESH.(queue := Queue([0], None, false, 0, 0), writer := Writing(0), queued := [c])
  {
    states, actions := [FRESH], [];
    assert IsRun(states, actions);
    hide IsRun, C.Append;
    states, actions := Extend(states, actions, DoCheck);
    states, actions := Extend(states, actions, DoAppend(c));
    states, actions := Extend(states, actions, DoSignal);
    states, actions := Extend(states, actions, DoTake);
    states, actions := Extend(states, actions, DoLook);
  }

  /**
   A run in which nobody settles the stream: while a close with a capsule is still closing
   the stream maps, a write fails, and the writer ends because no capsule is pending yet.
   */
  lemma WriterMissesClose(c: C.Capsule, err: Error, failure: Error, capsule: C.Capsule) returns (states: seq<State>, actions: seq<Action>)
    requires capsule.CloseSession?
    ensures IsRun(states, actions)
    ensures
      var s := states[|states| - 1];
      s.closer == Closed && s.writer == Exited(Missed) && s.queue.pendingClose == Some(capsule) && s.wire == [] && !s.reset
  {
    hide IsRun, C.Append;
    states, actions := WriterGivesUp(c, err, failure, capsule);
    states, actions := Extend(states, actions, DoCloseQueue);
    states, actions := Extend(states, actions, DoCloseEnd);
  }

  lemma WriterGivesUp(c: C.Capsule, err: Error, failure: Error, capsule: C.Capsule) returns (states: seq<State>, actions: seq<Action>)
    requires capsule.CloseSession?
    ensures IsRun(states, actions)
    ensures
      var s := states[|states| - 1];
      && s.closer == FanOut(Some(capsule)) && s.writer == Exited(Missed) && s.queue.pendingClose == None
      && s.wire == [] && !s.reset
  {
    hide IsRun, C.Append;
    states, actions := OneInHand(c);
    states, actions := Extend(states, actions, DoTryClose(err, Some(capsule)));
    states, actions := Extend(states, actions, DoWriteFails);
    states, actions := Extend(states, actions, DoFailedClose(failure));
    states, actions := Extend(states, actions, DoLookForCapsule);
  }

  /** Another one: the context ends before the writer takes the notification. */
  lemma WriterStopsBeforeClose(err: Error, capsule: C.Capsule) returns (states: seq<State>, actions: seq<Action>)
    requires capsule.CloseSession?
    ensures IsRun(states, actions)
    ensures
      var s := states[|states| - 1];
      s.closer == Closed && s.writer == Exited(Stopped) && s.queue.pendingClose == Some(capsule) && s.wire == [] && !s.reset
  {
    states, actions := [FRESH], [];
    assert IsRun(states, actions);
    hide IsRun, C.Append;
    states, actions := Extend(states, actions, DoTryClose(err, Some(capsule)));
    states, actions := Extend(states, actions, DoCloseQueue);
    states, actions := Extend(states, actions, DoCloseEnd);
    states, actions := Extend(states, actions, DoCancelContext);
    states, actions := Extend(states, actions, DoStop);
  }
}
