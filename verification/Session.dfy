/**
 The session's capsule queue and closing, as the program updates them. Each method
 is one critical section; the writing goroutine runs WriterLook, a write and
 WriterPop in a loop.
 */
module Session {
  import opened Common
  import C = Capsule
  import Spec = CapsuleWriter
  import Stream = CapsuleStream

  /** What the writer does next. */
  datatype Turn = SendClose(capsule: C.Capsule) | Sleep | Write(c: C.Capsule)

  /** What a write on the CONNECT stream comes to. */
  datatype WriteResult = Written | Refused | Broken(n: nat)

  /** QUIC takes nothing once the stream is reset, and no more than it is given. */
  function Answer(result: WriteResult, reset: bool, len: nat): (r: WriteResult) {
    if reset then Refused
    else if result.Broken? && (result.n == 0 || result.n > len) then Refused
    else result
  }

  ghost predicate AllWritten(results: seq<WriteResult>) {
    forall k :: 0 <= k < |results| ==> results[k].Written?
  }

  function StepOf(result: WriteResult): (a: Spec.Action) {
    match result
    case Written => Spec.DoWritten
    case Refused => Spec.DoWriteFails
    case Broken(n) => Spec.DoWriteTears(n)
  }

  /** Where the writer goes if its close is not the first. */
  function AfterFailure(w: Spec.Writer): (r: Spec.Writer) {
    if w == Spec.Failed then Spec.NotFirst else Spec.Exited(Spec.AfterTear)
  }

  function AppendAll(cs: seq<C.Capsule>): (b: seq<Byte>) {
    if cs == [] then [] else AppendAll(cs[..|cs| - 1]) + C.Append(cs[|cs| - 1])
  }

  lemma AppendNone()
    ensures AppendAll([]) == []
  {
  }

  lemma AppendOneMore(cs: seq<C.Capsule>, c: C.Capsule)
    ensures AppendAll(cs + [c]) == AppendAll(cs) + C.Append(c)
  {
    hide C.Append;
    assert (cs + [c])[..|cs|] == cs;
  }

  lemma WrittenOneMore(all: seq<C.Capsule>, written: seq<C.Capsule>, c: C.Capsule, rest: seq<C.Capsule>)
    requires all == written + ([c] + rest)
    ensures all == (written + [c]) + rest
  {
  }

  class Session {
    var closeErr: Option<Error>              // under closeMx
    var capsuleQueue: seq<C.Capsule>         // under capsuleQueueMx
    var pendingCloseCapsule: Option<C.Capsule>
    var capsuleQueueUpdated: bool            // the one-slot channel
    var reset: bool                          // str: its sending side was reset
    var readCanceled: bool                   // str: CancelRead was called
    var finished: bool                       // str: Close was called
    var sent: seq<Byte>                      // str: the bytes it took

    ghost var now: Spec.State

    ghost predicate Valid()
      reads this
    {
      && Spec.Inv(now)
      && now.closeErr == closeErr
      && now.queue.pendingClose == pendingCloseCapsule
      && now.queue.token == capsuleQueueUpdated
      && now.reset == reset && now.readCanceled == readCanceled && now.finished == finished
      && Holds(capsuleQueue, now.queue.items, now.queued)
      && sent == Stream.Bytes(now.queued, now.wire)
    }

    /** The queue's capsules are the ones at its positions. */
    static ghost predicate Holds(q: seq<C.Capsule>, items: seq<nat>, queued: seq<C.Capsule>) {
      && |q| == |items|
      && forall k :: 0 <= k < |items| ==> items[k] < |queued| && q[k] == queued[items[k]]
    }

    constructor ()
      ensures Valid() && now == Spec.FRESH
      ensures closeErr == None && capsuleQueue == [] && pendingCloseCapsule == None && !capsuleQueueUpdated
      ensures !reset && !readCanceled && !finished && sent == []
    {
      hide Spec.Inv;
      closeErr, capsuleQueue, pendingCloseCapsule, capsuleQueueUpdated := None, [], None, false;
      reset, readCanceled, finished, sent := false, false, false, [];
      now := Spec.FRESH;
      Spec.FreshOk();
    }

    /** queueCapsule after it found the context alive; a full queue is reported, and closes the session. */
    method QueueCapsule(c: C.Capsule) returns (full: bool)
      requires Valid() && now.queue.checked > 0
      modifies this
      ensures Valid() && now == Spec.Append(old(now), c)
      ensures full <==> old(|capsuleQueue|) >= Spec.MAX_QUEUED
      ensures closeErr == old(closeErr)
      ensures capsuleQueue == (if full then old(capsuleQueue) else old(capsuleQueue) + [c]) && sent == old(sent)
    {
      hide Spec.Inv, Stream.Bytes;
      Spec.AppendKeeps(now, c);
      Stream.EntriesInRange(now);
      Stream.BytesFrame(now.queued, c, now.wire);
      now := Spec.Append(now, c);
      if |capsuleQueue| >= Spec.MAX_QUEUED {
        return true;
      }
      capsuleQueue := capsuleQueue + [c];
      return false;
    }

    /** queueCapsule, undisturbed: a full queue closes the session, unless it is closed already. */
    method QueueOrClose(c: C.Capsule) returns (full: bool)
      requires Valid() && now.queue.checked > 0
      modifies this
      ensures Valid() && (full <==> old(|capsuleQueue|) >= Spec.MAX_QUEUED)
      ensures capsuleQueue == if full then old(capsuleQueue) else old(capsuleQueue) + [c]
      ensures closeErr == if full && old(closeErr).None? then Some(Http3Error(0x107)) else old(closeErr)
    {
      hide Spec.Inv, Valid;
      full := QueueCapsule(c);
      if full {
        var first := CloseWithError(Http3Error(0x107), None);
      }
    }

    /** The notification after the lock was released; a full channel drops it. */
    method Notify()
      requires Valid() && now.queue.signals > 0
      modifies this
      ensures Valid() && now == Spec.Next(old(now), Spec.DoSignal)
      ensures capsuleQueueUpdated && capsuleQueue == old(capsuleQueue) && pendingCloseCapsule == old(pendingCloseCapsule)
    {
      hide Spec.Inv;
      Spec.OthersKeep(now, Spec.DoSignal);
      now := Spec.Next(now, Spec.DoSignal);
      if !capsuleQueueUpdated {
        capsuleQueueUpdated := true;
      }
    }

    /** closeWithError under closeMx: only the first error is kept. */
    method CloseWithError(err: Error, closeCapsule: Option<C.Capsule>) returns (first: bool)
      requires Valid() && (closeCapsule.Some? ==> closeCapsule.value.CloseSession?)
      modifies this
      ensures Valid() && now == Spec.TryClose(old(now), err, closeCapsule)
      ensures first <==> old(closeErr).None?
      ensures closeErr == if first then Some(err) else old(closeErr)
      ensures capsuleQueue == old(capsuleQueue)
    {
      hide Spec.Inv;
      Spec.OthersKeep(now, Spec.DoTryClose(err, closeCapsule));
      now := Spec.TryClose(now, err, closeCapsule);
      if closeErr.Some? {
        return false;
      }
      closeErr := Some(err);
      return true;
    }

    /** closeWithError under capsuleQueueMx: what was queued is dropped. */
    method ClearQueue(closeCapsule: Option<C.Capsule>)
      requires Valid() && now.closer == Spec.FanOut(closeCapsule)
      modifies this
      ensures Valid() && now == Spec.CloseQueue(old(now))
      ensures capsuleQueue == [] && pendingCloseCapsule == closeCapsule
    {
      hide Spec.Inv;
      Spec.CloseQueueKeeps(now);
      now := Spec.CloseQueue(now);
      capsuleQueue := [];
      pendingCloseCapsule := closeCapsule;
    }

    /** closeWithError after that: the writer is woken to send the close capsule, or the stream is reset. */
    method EndClose(closeCapsule: Option<C.Capsule>)
      requires Valid() && now.closer == if closeCapsule.Some? then Spec.Notifying else Spec.Resetting
      modifies this
      ensures Valid() && now == Spec.CloseEnd(old(now))
      ensures if closeCapsule.Some? then capsuleQueueUpdated && reset == old(reset) else reset && readCanceled
    {
      hide Spec.Inv;
      Spec.OthersKeep(now, Spec.DoCloseEnd);
      now := Spec.CloseEnd(now);
      if closeCapsule.Some? {
        capsuleQueueUpdated := true;
        return;
      }
      readCanceled := true;
      reset := true;
    }

    /** The writer under the lock: a pending close goes before anything queued. */
    method WriterLook() returns (turn: Turn)
      requires Valid() && now.writer == Spec.Scan
      modifies this`now
      ensures Valid() && now == Spec.Look(old(now))
      ensures turn.Sleep? <==> capsuleQueue == [] && pendingCloseCapsule.None?
      ensures turn.Write? ==> capsuleQueue != [] && turn.c == capsuleQueue[0] && pendingCloseCapsule.None?
      ensures match turn
        case SendClose(capsule) => now.writer == Spec.Closing(capsule)
        case Sleep => now.writer == Spec.Idle
        case Write(c) => now.writer.Writing? && now.writer.i < |now.queued| && c == now.queued[now.writer.i]
    {
      hide Spec.Inv;
      Spec.LookKeeps(now);
      now := Spec.Look(now);
      if pendingCloseCapsule.Some? {
        return SendClose(pendingCloseCapsule.value);
      }
      if |capsuleQueue| == 0 {
        return Sleep;
      }
      return Write(capsuleQueue[0]);
    }

    /** The writer after a successful write. */
    method WriterPop()
      requires Valid() && now.writer.Pop?
      modifies this
      ensures Valid() && now == Spec.PopHead(old(now))
      ensures capsuleQueue == (if old(capsuleQueue) == [] then [] else old(capsuleQueue)[1..])
      ensures pendingCloseCapsule == old(pendingCloseCapsule) && reset == old(reset) && sent == old(sent)
    {
      hide Spec.Inv;
      Spec.PopKeeps(now);
      now := Spec.PopHead(now);
      if |capsuleQueue| > 0 {
        capsuleQueue := capsuleQueue[1..];
      }
    }

    /** The writer outside the lock: str.Write. */
    method WriteHead(c: C.Capsule, result: WriteResult) returns (answer: WriteResult)
      requires Valid() && now.writer.Writing? && now.writer.i < |now.queued| && c == now.queued[now.writer.i]
      modifies this`now, this`sent
      ensures Valid() && answer == Answer(result, reset, |C.Append(c)|)
      ensures Spec.Enabled(old(now), StepOf(answer)) && now == Spec.Next(old(now), StepOf(answer))
      ensures sent == old(sent) + match answer
        case Written => C.Append(c)
        case Refused => []
        case Broken(n) => C.Append(c)[..n]
    {
      hide Spec.Inv, Stream.Bytes, C.Append;
      answer := Answer(result, reset, |C.Append(c)|);
      var i := now.writer.i;
      Spec.StepKeeps(now, StepOf(answer));
      if answer.Written? {
        Stream.BytesMore(now.queued, now.wire, Spec.Whole(i));
        sent := sent + C.Append(c);
      } else if answer.Broken? {
        Stream.BytesMore(now.queued, now.wire, Spec.Torn(i, answer.n));
        sent := sent + C.Append(c)[..answer.n];
      }
      now := Spec.Next(now, StepOf(answer));
    }

    /** closeSessionStream: the close capsule goes out as a whole, or the stream is reset. */
    method CloseSessionStream(c: C.Capsule, ok: bool)
      requires Valid() && now.writer == Spec.Closing(c) && (ok ==> !reset)
      modifies this
      ensures Valid() && now == Spec.SendClose(old(now), ok)
      ensures sent == old(sent) + (if ok then C.Append(c) else []) && (reset <==> old(reset) || !ok)
      ensures readCanceled && finished
    {
      hide Spec.Inv, Stream.Bytes, C.Append;
      Spec.SendCloseKeeps(now, ok);
      if ok {
        Stream.BytesMore(now.queued, now.wire, Spec.Close(c));
        sent := sent + C.Append(c);
      } else {
        reset := true;
      }
      readCanceled := true;
      finished := true;
      now := Spec.SendClose(now, ok);
    }

    /** The writer after a write that failed midway: the stream is given up before the session is closed. */
    method CancelStream()
      requires Valid() && now.writer == Spec.Tearing
      modifies this
      ensures Valid() && now == Spec.Tear(old(now))
      ensures readCanceled && reset
    {
      hide Spec.Inv, Stream.Bytes;
      Spec.StepKeeps(now, Spec.DoTear);
      now := Spec.Tear(now);
      readCanceled := true;
      reset := true;
    }

    /** The writer closes the session because of a failed write, unless another close came first. */
    method CloseAfterFailure(err: Error) returns (first: bool)
      requires Valid() && (now.writer == Spec.Failed || now.writer == Spec.TornDown)
      modifies this
      ensures Valid() && now == Spec.WriterCloses(old(now), err, AfterFailure(old(now.writer)))
      ensures first <==> old(closeErr).None?
      ensures closeErr == if first then Some(err) else old(closeErr)
    {
      hide Spec.Inv, Stream.Bytes;
      Spec.StepKeeps(now, if now.writer == Spec.Failed then Spec.DoFailedClose(err) else Spec.DoTornClose(err));
      now := Spec.WriterCloses(now, err, AfterFailure(now.writer));
      if closeErr.Some? {
        return false;
      }
      closeErr := Some(err);
      return true;
    }

    /** The writer after a write that failed with nothing written, when another close came first: whether it goes on. */
    method HasClose() returns (hasClose: bool)
      requires Valid() && now.writer == Spec.NotFirst
      modifies this`now
      ensures Valid() && now == Spec.LookForCapsule(old(now))
      ensures hasClose <==> now.writer == Spec.Scan
    {
      hide Spec.Inv, Stream.Bytes;
      Spec.StepKeeps(now, Spec.DoLookForCapsule);
      now := Spec.LookForCapsule(now);
      hasClose := pendingCloseCapsule.Some?;
    }

    /** One turn of the inner loop: the capsule it wrote, unless the loop ends with it. */
    method WriteTurn(result: WriteResult) returns (c: Option<C.Capsule>, tail: seq<Byte>)
      requires Valid() && now.writer == Spec.Scan
      modifies this
      ensures Valid() && pendingCloseCapsule == old(pendingCloseCapsule) && reset == old(reset)
      ensures sent == old(sent) + (if c.Some? then C.Append(c.value) else tail)
      ensures c.Some? ==> old(capsuleQueue) == [c.value] + capsuleQueue && now.writer == Spec.Scan && tail == []
      ensures c.None? ==> capsuleQueue == old(capsuleQueue) && now.writer != Spec.Scan
      ensures pendingCloseCapsule.Some? ==> c.None? && now.writer == Spec.Closing(pendingCloseCapsule.value)
      ensures tail != [] <==> now.writer == Spec.Tearing
      ensures tail != [] ==> capsuleQueue != [] && tail <= C.Append(capsuleQueue[0])
      ensures now.writer == Spec.Idle <==> capsuleQueue == [] && pendingCloseCapsule.None? && c.None?
      ensures result.Written? && !reset && pendingCloseCapsule.None? && old(capsuleQueue) != [] ==> c.Some?
    {
      hide Spec.Inv, Stream.Bytes, C.Append, Holds;
      c, tail := None, [];
      var turn := WriterLook();
      if !turn.Write? {
        return;
      }
      var answer := WriteHead(turn.c, result);
      if answer.Refused? {
        return;
      }
      if answer.Broken? {
        tail := C.Append(turn.c)[..answer.n];
        return;
      }
      WriterPop();
      c := Some(turn.c);
    }

    /**
     The writer's inner loop, undisturbed, for as many turns as `results` describes: the
     queued capsules go out in order, `tail` is what a write left that failed midway,
     and with every write succeeding the whole queue goes out before the writer sleeps.
     */
    method WriteQueue(results: seq<WriteResult>) returns (written: seq<C.Capsule>, tail: seq<Byte>)
      requires Valid() && now.writer == Spec.Scan
      modifies this
      ensures Valid() && pendingCloseCapsule == old(pendingCloseCapsule) && reset == old(reset)
      ensures pendingCloseCapsule.Some? && results != [] ==> now.writer == Spec.Closing(pendingCloseCapsule.value)
      ensures pendingCloseCapsule.Some? ==> written == []
      ensures old(capsuleQueue) == written + capsuleQueue
      ensures sent == old(sent) + AppendAll(written) + tail
      ensures tail != [] <==> now.writer == Spec.Tearing
      ensures tail != [] ==> capsuleQueue != [] && tail <= C.Append(capsuleQueue[0])
      ensures now.writer == Spec.Idle ==> capsuleQueue == [] && pendingCloseCapsule.None?
      ensures pendingCloseCapsule.None? && !reset && |results| > |old(capsuleQueue)| && AllWritten(results) ==>
        now.writer == Spec.Idle && written == old(capsuleQueue)
    {
      hide Spec.Inv, Stream.Bytes, C.Append, Valid, AppendAll;
      written, tail := [], [];
      AppendNone();
      for k := 0 to |results|
        invariant Valid() && now.writer == Spec.Scan && tail == []
        invariant pendingCloseCapsule == old(pendingCloseCapsule) && reset == old(reset)
        invariant old(capsuleQueue) == written + capsuleQueue
        invariant sent == old(sent) + AppendAll(written)
        invariant pendingCloseCapsule.Some? ==> k == 0 && written == []
        invariant AllWritten(results) && !reset && pendingCloseCapsule.None? ==> |written| == k
      {
        var c;
        c, tail := WriteTurn(results[k]);
        if c.None? {
          return;
        }
        AppendOneMore(written, c.value);
        WrittenOneMore(old(capsuleQueue), written, c.value, capsuleQueue);
        written := written + [c.value];
      }
    }
  }
}
