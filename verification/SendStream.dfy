/**
 The sending side of a stream: the stream header goes out before any payload, from
 Write, or from a goroutine that Close or CancelWrite starts. Writing the header can
 fail partway and is then resumed.
 */
module SendStream {
  import opened Common

  /** A goroutine started by CancelWrite, or by Close, with the rest of the header. */
  datatype Async =
    | NoAsync
    | Sending(rest: seq<Byte>, cancel: bool)
    | Marking(n: nat, cancel: bool) // n bytes were written; about to set the reliable boundary
    | Ended

  /** A Write call that holds streamHdrMu between writing n bytes of the header and setting the reliable boundary. */
  datatype HeaderWrite = NoWrite | AboutToMark(ok: bool, n: nat)

  datatype State = State(
    header: seq<Byte>,        // the whole stream header; empty on the answering side of a bidirectional stream
    streamHdr: seq<Byte>,     // what is left to send
    sending: HeaderWrite,
    writeErr: bool,           // Close or CancelWrite took over a pending header
    async: Async,
    passed: nat,              // Write calls past the header, about to write payload
    ended: bool,              // the QUIC stream was reset or closed: it takes no more bytes
    kept: Option<nat>,        // the stream was reset, and this many bytes are delivered all the same
    wire: seq<Byte>,          // history: bytes QUIC took
    payload: seq<Byte>,       // history: those of them that are payload
    boundary: nat             // where SetReliableBoundary was called last; a reset carries it
  )

  function Init(header: seq<Byte>): (s: State) {
    State(header, header, NoWrite, false, NoAsync, 0, false, None, [], [], 0)
  }

  /** write up to its first step that others can interleave with: QUIC takes `n` bytes of the header, `ok` if it reports no error. */
  function AfterSendHeader(s: State, n: nat, ok: bool): (r: State)
    requires n <= |s.streamHdr|
  {
    if s.writeErr then s
    else if |s.streamHdr| == 0 then s.(passed := s.passed + 1)
    else s.(wire := s.wire + s.streamHdr[..n], streamHdr := s.streamHdr[n..], sending := AboutToMark(ok, n))
  }

  /** SetReliableBoundary, and on to the payload if the header is out. */
  function AfterMark(s: State): (r: State)
    requires s.sending.AboutToMark?
  {
    var t := s.(boundary := |s.wire|, sending := NoWrite);
    if s.sending.ok then t.(streamHdr := [], passed := t.passed + 1) else t
  }

  /** QUIC takes payload bytes from a call past the header. */
  function Payload(s: State, b: seq<Byte>): (r: State) {
    s.(wire := s.wire + b, payload := s.payload + b)
  }

  /** The first reset carries the boundary of that moment; setting it later changes nothing. */
  function Reset(s: State): (r: State) {
    s.(ended := true, kept := if s.kept.None? then Some(s.boundary) else s.kept)
  }

  /** CancelWrite and Close: a pending header is handed to a goroutine. */
  function AfterTakeOver(s: State, cancel: bool): (r: State) {
    if s.writeErr then s
    else if |s.streamHdr| > 0 then s.(writeErr := true, async := Sending(s.streamHdr, cancel), streamHdr := [])
    else if cancel then Reset(s)
    else s.(ended := true)
  }

  function AsyncSend(s: State, n: nat): (r: State)
    requires s.async.Sending? && n <= |s.async.rest|
  {
    s.(wire := s.wire + s.async.rest[..n], async := Marking(n, s.async.cancel))
  }

  function AsyncMark(s: State): (r: State)
    requires s.async.Marking?
  {
    var t := s.(boundary := |s.wire|, async := Ended);
    if s.async.cancel then Reset(t) else t.(ended := true)
  }

  datatype Action =
    | DoSendHeader(n: nat, ok: bool)
    | DoMark
    | DoPayload(b: seq<Byte>)
    | DoEndWrite
    | DoTakeOver(cancel: bool)
    | DoAsyncSend(n: nat)
    | DoAsyncMark
    | DoCloseWithSession      // closeWithSession resets the stream

  /**
   Write takes at most what it is given, all of it if it reports no error, and nothing
   once the stream was reset or closed. Write, Close and CancelWrite wait for streamHdrMu; a payload
   write and the session's close do not.
   */
  predicate Enabled(s: State, a: Action) {
    match a
    case DoSendHeader(n, ok) =>
      && s.sending == NoWrite && n <= |s.streamHdr| && (ok ==> n == |s.streamHdr|)
      && (s.ended ==> n == 0 && (ok ==> s.streamHdr == []))
    case DoMark => s.sending.AboutToMark?
    case DoPayload(b) => s.passed > 0 && (s.ended ==> b == [])
    case DoEndWrite => s.passed > 0
    case DoTakeOver(_) => s.sending == NoWrite
    case DoAsyncSend(n) => s.async.Sending? && n <= |s.async.rest| && (s.ended ==> n == 0)
    case DoAsyncMark => s.async.Marking?
    case DoCloseWithSession => true
  }

  function Next(s: State, a: Action): (r: State)
    requires Enabled(s, a)
  {
    match a
    case DoSendHeader(n, ok) => AfterSendHeader(s, n, ok)
    case DoMark => AfterMark(s)
    case DoPayload(b) => Payload(s, b)
    case DoEndWrite => s.(passed := s.passed - 1)
    case DoTakeOver(cancel) => AfterTakeOver(s, cancel)
    case DoAsyncSend(n) => AsyncSend(s, n)
    case DoAsyncMark => AsyncMark(s)
    case DoCloseWithSession => Reset(s)
  }

  ghost predicate IsRun(states: seq<State>, actions: seq<Action>) {
    && |states| == |actions| + 1
    && (exists header :: states[0] == Init(header))
    && forall i :: 0 <= i < |actions| ==> Enabled(states[i], actions[i]) && states[i + 1] == Next(states[i], actions[i])
  }

  // ---------- invariant ----------

  /** How much of the header is not left in streamHdr. */
  function Done(s: State): (r: int) {
    |s.header| - |s.streamHdr|
  }

  ghost predicate Inv(s: State) {
    match s.async
    case NoAsync =>
      && !s.writeErr
      && |s.streamHdr| <= |s.header|
      && s.wire == s.header[..Done(s)] + s.payload
      && s.streamHdr == s.header[Done(s)..]
      && (s.payload != [] || s.passed > 0 ==> s.streamHdr == [] && s.sending == NoWrite)
      && (match s.sending
          case NoWrite => s.boundary == Done(s)
          case AboutToMark(ok, n) => s.boundary + n == Done(s) && (ok ==> s.streamHdr == []))
    case Sending(rest, _) =>
      TakenOver(s) && s.wire + rest == s.header && s.boundary == |s.wire|
    case Marking(n, _) =>
      TakenOver(s) && s.wire <= s.header && s.boundary + n == |s.wire|
    case Ended =>
      TakenOver(s) && s.wire <= s.header && s.boundary == |s.wire|
  }

  /** No Write call gets past the header any more. */
  ghost predicate TakenOver(s: State) {
    s.writeErr && s.streamHdr == [] && s.payload == [] && s.passed == 0 && s.sending == NoWrite
  }

  lemma SendHeaderKeeps(s: State, n: nat, ok: bool)
    requires Inv(s) && Enabled(s, DoSendHeader(n, ok))
    ensures Inv(AfterSendHeader(s, n, ok))
  {
    if !s.writeErr && |s.streamHdr| > 0 {
      var r := AfterSendHeader(s, n, ok);
      assert s.header[..Done(s) + n] == s.header[..Done(s)] + s.streamHdr[..n];
      assert r.wire == s.header[..Done(s) + n] + [];
    }
  }

  lemma MarkKeeps(s: State)
    requires Inv(s) && s.sending.AboutToMark?
    ensures Inv(AfterMark(s))
  {
  }

  lemma TakeOverKeeps(s: State, cancel: bool)
    requires Inv(s) && s.sending == NoWrite
    ensures Inv(AfterTakeOver(s, cancel))
  {
    if !s.writeErr && |s.streamHdr| > 0 {
      assert s.header == s.header[..Done(s)] + s.header[Done(s)..];
    }
  }

  lemma StepKeeps(s: State, a: Action)
    requires Inv(s) && Enabled(s, a)
    ensures Inv(Next(s, a))
  {
    match a
    case DoSendHeader(n, ok) => SendHeaderKeeps(s, n, ok);
    case DoMark => MarkKeeps(s);
    case DoPayload(b) => assert (s.header[..Done(s)] + s.payload) + b == s.header[..Done(s)] + (s.payload + b);
    case DoTakeOver(cancel) => TakeOverKeeps(s, cancel);
    case _ =>
  }

  lemma {:induction false} RunKeeps(states: seq<State>, actions: seq<Action>, i: nat)
    requires IsRun(states, actions) && i < |states|
    ensures Inv(states[i])
  {
    if i > 0 {
      RunKeeps(states, actions, i - 1);
      StepKeeps(states[i - 1], actions[i - 1]);
    }
  }

  /**
   Nothing is held back: a Write that was not taken over goes on to its payload as soon as
   the header is out and covered, every payload byte it hands over goes out, and a header
   that was taken over goes out as far as QUIC takes it, is covered, and ends the stream.
   */
  lemma WritesGoOn(states: seq<State>, actions: seq<Action>, i: nat)
    requires IsRun(states, actions) && i < |actions|
    ensures
      var s, r, a := states[i], states[i + 1], actions[i];
      && (a.DoSendHeader? && !s.writeErr && s.streamHdr == [] ==> r.passed == s.passed + 1)
      && (a.DoSendHeader? && !s.writeErr && s.streamHdr != [] ==> r.wire == s.wire + s.streamHdr[..a.n] && Enabled(r, DoMark))
      && (a == DoMark && s.sending.ok ==>
            r.passed == s.passed + 1 && forall b :: (r.ended ==> b == []) ==> Enabled(r, DoPayload(b)))
      && (a.DoPayload? ==> r.wire == s.wire + a.b && r.payload == s.payload + a.b)
      && (a.DoTakeOver? && !s.writeErr && s.streamHdr != [] ==> r.async == Sending(s.streamHdr, a.cancel))
      && (a.DoAsyncSend? ==>
            |s.wire| + a.n <= |s.header| && r.wire == s.header[..|s.wire| + a.n] && Enabled(r, DoAsyncMark))
      && (a == DoAsyncMark ==> r.boundary == |r.wire| && r.ended && (s.async.cancel ==> r.kept.Some?))
  {
    RunKeeps(states, actions, i);
    assert states[i + 1] == Next(states[i], actions[i]);
    var s, a := states[i], actions[i];
    if a.DoAsyncSend? {
      assert s.wire + s.async.rest == s.header;
      assert s.header[..|s.wire| + a.n] == s.wire + s.async.rest[..a.n];
    }
  }

  /** A header write took bytes and has not come to setting the boundary yet. */
  predicate Unmarked(s: State) {
    (s.sending.AboutToMark? && s.sending.n > 0) || (s.async.Marking? && s.async.n > 0)
  }

  /** The header bytes that QUIC took. */
  function HeaderSent(s: State): (r: nat) {
    Min(|s.wire|, |s.header|)
  }

  /**
   Over any sequence of writes, failed and partial header writes, Close, CancelWrite
   and the session's close: QUIC takes the header's bytes in order, each once, and no
   payload byte before all of them; the reliable boundary never covers payload, and
   is at the header's end once payload was sent. It leaves out header bytes that were
   sent exactly if a header write that took some has not come to setting it yet.
   */
  lemma HeaderBeforePayload(states: seq<State>, actions: seq<Action>, i: nat)
    requires IsRun(states, actions) && i < |states|
    ensures
      var s := states[i];
      && (s.wire <= s.header || s.wire == s.header + s.payload)
      && (s.payload != [] ==> s.wire == s.header + s.payload && s.boundary == |s.header|)
      && (s.passed > 0 ==> s.wire == s.header + s.payload && s.boundary == |s.header|)
      && s.boundary <= |s.header| && s.boundary <= |s.wire|
      && (s.boundary < HeaderSent(s) <==> Unmarked(s))
  {
    RunKeeps(states, actions, i);
    CoveredIffMarked(states[i]);
    var s := states[i];
    if s.async == NoAsync {
      if s.payload == [] {
        assert s.wire == s.header[..Done(s)];
      }
      assert s.streamHdr == [] ==> s.header[..Done(s)] == s.header;
    }
  }

  lemma CoveredIffMarked(s: State)
    requires Inv(s)
    ensures s.boundary < HeaderSent(s) <==> Unmarked(s)
    ensures s.payload != [] ==> s.boundary == |s.header|
  {
  }

  /**
   The step that resets the stream drops header bytes that were sent exactly if it is the
   session's close, and comes between a header write that took some and its boundary. A
   stream that carried payload keeps its whole header.
   */
  lemma ResetDropsHeaderIff(states: seq<State>, actions: seq<Action>, i: nat)
    requires IsRun(states, actions) && i < |actions| && states[i].kept.None? && states[i + 1].kept.Some?
    ensures
      var s, r := states[i], states[i + 1];
      && (r.kept.value < HeaderSent(r) <==> actions[i] == DoCloseWithSession && Unmarked(s))
      && r.kept.value <= HeaderSent(r)
      && (r.payload != [] ==> r.kept.value == |r.header|)
  {
    RunKeeps(states, actions, i);
    hide Inv, Next, Enabled;
    StepKeeps(states[i], actions[i]);
    CoveredIffMarked(states[i]);
    CoveredIffMarked(states[i + 1]);
    ResetStep(states[i], actions[i]);
  }

  /** A reset other than the session's close comes right after the boundary was set, or with nothing of the header pending. */
  lemma ResetStep(s: State, a: Action)
    requires Inv(s) && Enabled(s, a) && s.kept.None? && Next(s, a).kept.Some?
    ensures
      var r := Next(s, a);
      && r.kept.value == r.boundary
      && (a == DoCloseWithSession ==> r.boundary == s.boundary && r.sending == s.sending && r.async == s.async)
      && (a != DoCloseWithSession ==> !Unmarked(r))
      && r.wire == s.wire && r.header == s.header
  {
  }

  lemma ResetStays(s: State, a: Action)
    requires Enabled(s, a) && s.kept.Some? && s.ended
    ensures Next(s, a).kept == s.kept && Next(s, a).wire == s.wire
  {
    match a
    case DoSendHeader(n, _) => assert s.wire + s.streamHdr[..0] == s.wire;
    case DoAsyncSend(n) => assert s.wire + s.async.rest[..0] == s.wire;
    case DoPayload(b) => assert s.wire + [] == s.wire;
    case _ =>
  }

  /** A reset is final: what it keeps and what was sent never changes, wherever the boundary is set later. */
  lemma {:induction false} ResetIsFinal(states: seq<State>, actions: seq<Action>, i: nat, j: nat)
    requires IsRun(states, actions) && i <= j < |states| && states[i].kept.Some?
    ensures states[j].kept == states[i].kept && states[j].wire == states[i].wire
  {
    hide Next, Enabled;
    if i < j {
      ResetIsFinal(states, actions, i, j - 1);
      EndedIfReset(states, actions, j - 1);
      ResetStays(states[j - 1], actions[j - 1]);
    }
  }

  lemma {:induction false} EndedIfReset(states: seq<State>, actions: seq<Action>, i: nat)
    requires IsRun(states, actions) && i < |states|
    ensures states[i].kept.Some? ==> states[i].ended
  {
    if i > 0 {
      EndedIfReset(states, actions, i - 1);
      assert states[i] == Next(states[i - 1], actions[i - 1]);
    }
  }

  /**
   A run in which the session's close comes between writing the header and covering it: the
   reset drops all of it, though the boundary is set to the header's end afterwards.
   */
  lemma CloseBeforeBoundary() returns (states: seq<State>, actions: seq<Action>)
    ensures IsRun(states, actions)
    ensures
      var s := states[|states| - 1];
      s.header != [] && s.wire == s.header && s.boundary == |s.header| && s.kept == Some(0)
  {
    var s0 := Init([0x41, 0]);
    var s1 := AfterSendHeader(s0, 2, true);
    var s2 := Reset(s1);
    var s3 := AfterMark(s2);
    states, actions := [s0, s1, s2, s3], [DoSendHeader(2, true), DoCloseWithSession, DoMark];
  }

  /** The header's fields, as the program updates them under streamHdrMu. */
  class Stream {
    var streamHdr: seq<Byte>
    var writeErr: bool

    ghost var now: State

    ghost predicate Valid()
      reads this
    {
      Inv(now) && now.streamHdr == streamHdr && now.writeErr == writeErr
    }

    constructor (header: seq<Byte>)
      ensures Valid() && now == Init(header)
      ensures streamHdr == header && !writeErr && now.wire == [] && !now.ended
    {
      streamHdr, writeErr, now := header, false, Init(header);
    }

    /** What Write does after the part of it that may send the header. */
    method SendHeader(n: nat, ok: bool) returns (mark: bool, mayWrite: bool)
      requires Valid() && Enabled(now, DoSendHeader(n, ok))
      modifies this
      ensures Valid() && now == AfterSendHeader(old(now), n, ok)
      ensures mark <==> now.sending.AboutToMark?
      ensures mark ==> now.sending == AboutToMark(ok, n) && !mayWrite
      ensures mayWrite <==> now.passed == old(now).passed + 1
      ensures mayWrite ==> now.wire == now.header + now.payload
      ensures mayWrite <==> !old(writeErr) && old(streamHdr) == []
      ensures mark <==> !old(writeErr) && old(streamHdr) != []
      ensures writeErr == old(writeErr) && streamHdr == (if mark then old(streamHdr)[n..] else old(streamHdr))
      ensures now.wire == old(now).wire + (if mark then old(streamHdr)[..n] else [])
    {
      SendHeaderKeeps(now, n, ok);
      now := AfterSendHeader(now, n, ok);
      if writeErr {
        return false, false;
      }
      if |streamHdr| == 0 {
        assert now.header[..Done(now)] == now.header;
        return false, true;
      }
      if n > 0 {
        streamHdr := streamHdr[n..];
      }
      return true, false;
    }

    /** The rest of maybeSendStreamHeader, after its write. */
    method MarkBoundary(ok: bool) returns (mayWrite: bool)
      requires Valid() && now.sending.AboutToMark? && now.sending.ok == ok
      modifies this
      ensures Valid() && now == AfterMark(old(now))
      ensures mayWrite <==> now.passed == old(now).passed + 1
      ensures mayWrite ==> now.wire == now.header + now.payload && now.boundary == |now.header|
      ensures mayWrite <==> ok
      ensures now.boundary == |now.wire| && now.sending == NoWrite && now.wire == old(now).wire
      ensures writeErr == old(writeErr) && streamHdr == old(streamHdr) && (ok ==> streamHdr == [])
    {
      MarkKeeps(now);
      now := AfterMark(now);
      if !ok {
        return false;
      }
      streamHdr := [];
      assert now.header[..Done(now)] == now.header;
      return true;
    }

    /** Close and CancelWrite: the header that a goroutine is to send, if one is pending. */
    method TakeOver(ghost cancel: bool) returns (pending: Option<seq<Byte>>)
      requires Valid() && now.sending == NoWrite
      modifies this
      ensures Valid() && now == AfterTakeOver(old(now), cancel)
      ensures streamHdr == (if old(writeErr) then old(streamHdr) else []) && writeErr == (old(writeErr) || old(streamHdr) != [])
      ensures pending == None && !old(writeErr) ==> now.ended && (cancel ==> now.kept.Some?)
      ensures pending.Some? <==> !old(writeErr) && old(streamHdr) != []
      ensures pending.Some? ==> now.async == Sending(pending.value, cancel) && pending.value == old(streamHdr)
    {
      TakeOverKeeps(now, cancel);
      now := AfterTakeOver(now, cancel);
      if writeErr {
        return None;
      }
      if |streamHdr| > 0 {
        writeErr := true;
        pending := Some(streamHdr);
        streamHdr := [];
        return;
      }
      return None;
    }
  }
}
