/** The incoming stream map as the program updates it: each method is one critical section. */
module IncomingStreamsMap {
  import opened Common
  import Spec = IncomingStreams

  class StreamsMap {
    const maxOpenStreams: nat

    var closeErr: Option<Error>    // cause of ctx
    var m: set<StreamId>
    var numStreams: nat
    var maxStreams: nat
    var queuedMaxStreams: nat      // under maxStreamsMx

    var streamErrs: map<StreamId, Error> // closeErr of the streams closed with the session
    var published: seq<nat>        // limits passed to queueMaxStreams

    ghost var now: Spec.State

    ghost predicate Valid()
      reads this
    {
      && Spec.MapOk(now)
      && now.closeErr == closeErr && now.streams.m == m && now.num == numStreams && now.max == maxStreams
      && now.maxOpen == maxOpenStreams && now.pub.queued == queuedMaxStreams
      && now.streams.errs == streamErrs && now.pub.published == published
    }

    constructor (maxOpen: nat, ghost bidi: bool)
      ensures Valid() && now == Spec.Init(maxOpen, bidi)
      ensures closeErr == None && m == {} && numStreams == 0 && streamErrs == map[] && published == []
      ensures maxOpenStreams == maxStreams == queuedMaxStreams == Min(maxOpen, 0x1000_0000_0000_0000) && now.bidi == bidi
    {
      var limit := Min(maxOpen, MAX_STREAMS_LIMIT);
      maxOpenStreams, maxStreams, queuedMaxStreams := limit, limit, limit;
      closeErr, m, numStreams, streamErrs, published := None, {}, 0, map[], [];
      now := Spec.Init(maxOpen, bidi);
      Spec.InitOk(maxOpen, bidi);
    }

    /**
     `late` holds the error with which the caller still has to close the stream;
     `ok` is false when the peer opened too many streams.
     */
    method AddStream(id: StreamId) returns (ok: bool, late: Option<Error>)
      requires Valid() && id !in now.streams.arrived
      modifies this
      ensures Valid() && now == Spec.AddStream(old(now), id)
      ensures ok <==> !Spec.TooMany(old(now))
      ensures late.Some? <==> id in now.streams.late && old(closeErr).Some?
      ensures late.Some? ==> late.value == now.streams.late[id]
      ensures closeErr.Some? ==> ok && late == closeErr && m == old(m) && numStreams == old(numStreams)
      ensures closeErr.None? && old(numStreams) < maxStreams ==>
        ok && late == None && m == old(m) + {id} && numStreams == old(numStreams) + 1
      ensures closeErr.None? && old(numStreams) >= maxStreams ==> !ok && late == None && m == old(m) && numStreams == old(numStreams)
      ensures unchanged(`closeErr, `maxStreams, `queuedMaxStreams, `streamErrs, `published)
    {
      hide Spec.MapOk;
      Spec.AddStreamKeeps(now, id);
      now := Spec.AddStream(now, id);
      if closeErr.Some? {
        return true, Some(closeErr.value);
      }
      if numStreams >= maxStreams {
        return false, None;
      }
      numStreams := numStreams + 1;
      m := m + {id};
      return true, None;
    }

    /** The part before the first unlock: the limit to publish, if it was raised. */
    method RemoveStream(id: StreamId) returns (shouldQueue: Option<nat>)
      requires Valid()
      modifies this
      ensures Valid() && now == Spec.RemoveStream(old(now), id)
      ensures id !in old(m) ==> shouldQueue == None && m == old(m) && maxStreams == old(maxStreams)
      ensures id in old(m) ==>
        && m == old(m) - {id} && maxStreams == Min(old(maxStreams) + 1, MAX_STREAMS_LIMIT)
        && shouldQueue == if old(maxStreams) < MAX_STREAMS_LIMIT then Some(maxStreams) else None
      ensures unchanged(`closeErr, `numStreams, `queuedMaxStreams, `streamErrs, `published)
      ensures now.pub.pending == old(now).pub.pending + (if shouldQueue.Some? then multiset{shouldQueue.value} else multiset{})
    {
      hide Spec.MapOk, Spec.RaisedLimit;
      Spec.RemoveEffect(now, id);
      Spec.RemoveStreamKeeps(now, id);
      now := Spec.RemoveStream(now, id);
      if id !in m {
        return None;
      }
      m := m - {id};
      shouldQueue := None;
      if |m| < maxOpenStreams && maxStreams < MAX_STREAMS_LIMIT {
        var limit := Min(numStreams + maxOpenStreams - |m|, MAX_STREAMS_LIMIT);
        if limit > maxStreams {
          maxStreams := limit;
          shouldQueue := Some(limit);
        }
      }
    }

    /** The part under the second lock. */
    method PublishMaxStreams(limit: nat)
      requires Valid() && limit in now.pub.pending
      modifies this
      ensures Valid() && now == old(now).(pub := Spec.Publish(old(now).pub, limit))
      ensures queuedMaxStreams == if limit > old(queuedMaxStreams) then limit else old(queuedMaxStreams)
      ensures published == if limit > old(queuedMaxStreams) then old(published) + [limit] else old(published)
    {
      Spec.PublishKeeps(now.pub, now.max, now.maxOpen, limit);
      now := now.(pub := Spec.Publish(now.pub, limit));
      if limit > queuedMaxStreams {
        queuedMaxStreams := limit;
        published := published + [limit];
      }
    }

    method CloseSession(err: Error)
      requires Valid()
      modifies this
      ensures Valid() && now == Spec.CloseSession(old(now), err)
      ensures old(closeErr).Some? ==> unchanged(`closeErr, `m, `streamErrs)
      ensures old(closeErr).None? ==>
        closeErr == Some(err) && m == {} && streamErrs == old(streamErrs) + (map id | id in old(m) :: err)
    {
      hide Spec.MapOk;
      Spec.CloseSessionKeeps(now, err);
      now := Spec.CloseSession(now, err);
      if closeErr.Some? {
        return;
      }
      closeErr := Some(err);
      CloseStreams(err);
    }

    method CloseStreams(err: Error)
      modifies this`streamErrs, this`m
      ensures m == {} && streamErrs == old(streamErrs) + (map id | id in old(m) :: err)
    {
      var todo := m;
      while todo != {}
        invariant todo <= m && m == old(m)
        invariant streamErrs == old(streamErrs) + (map id | id in m - todo :: err)
        decreases todo
      {
        var id :| id in todo;
        streamErrs := streamErrs[id := err];
        todo := todo - {id};
      }
      m := {};
    }
  }

  /** A bidirectional stream's two halves, and the map its close callback reaches. */
  class Stream {
    const id: StreamId
    const streams: StreamsMap
    var sendSideClosed: bool
    var recvSideClosed: bool

    ghost predicate Valid()
      reads this, streams
    {
      && streams.Valid() && Spec.HalvesOk(streams.now) && streams.now.bidi
      && (sendSideClosed <==> id in streams.now.sendClosed)
      && (recvSideClosed <==> id in streams.now.recvClosed)
    }

    constructor (id: StreamId, streams: StreamsMap)
      requires streams.Valid() && Spec.HalvesOk(streams.now) && streams.now.bidi
      requires id !in streams.now.sendClosed && id !in streams.now.recvClosed
      ensures Valid() && this.id == id && this.streams == streams && !sendSideClosed && !recvSideClosed
    {
      this.id, this.streams := id, streams;
      sendSideClosed, recvSideClosed := false, false;
    }

    /** registerClose, under the lock: whether the close callback is to run. */
    method RegisterClose(isSendSide: bool) returns (isClosed: bool)
      requires Valid() && (id in streams.now.streams.arrived || streams.closeErr.Some?)
      modifies this, streams`now
      ensures Valid() && streams.now == Spec.RegisterClose(old(streams.now), id, isSendSide)
      ensures sendSideClosed == (old(sendSideClosed) || isSendSide)
      ensures recvSideClosed == (old(recvSideClosed) || !isSendSide)
      ensures isClosed <==> sendSideClosed && recvSideClosed
      ensures streams.now.callbacks == if isClosed then old(streams.now.callbacks) + multiset{id} else old(streams.now.callbacks)
    {
      hide Spec.HalvesOk, Spec.CreditOk, Spec.PublicationOk, Spec.StreamsOk;
      Spec.RegisterCloseKeeps(streams.now, id, isSendSide);
      streams.now := Spec.RegisterClose(streams.now, id, isSendSide);
      if isSendSide {
        sendSideClosed := true;
      } else {
        recvSideClosed := true;
      }
      isClosed := sendSideClosed && recvSideClosed;
    }

    /**
     registerClose with the callback it runs: while the map is open, the stream has given
     back its credit afterwards exactly if both halves are closed.
     */
    method Close(isSendSide: bool) returns (shouldQueue: Option<nat>)
      requires Valid() && id in streams.now.streams.arrived && id !in streams.now.callbacks
      modifies this, streams
      ensures Valid() && id !in streams.now.callbacks
      ensures streams.closeErr.None? ==> (id in streams.now.streams.released <==> sendSideClosed && recvSideClosed)
      ensures sendSideClosed == (old(sendSideClosed) || isSendSide)
      ensures recvSideClosed == (old(recvSideClosed) || !isSendSide)
      ensures shouldQueue.Some? ==> id !in old(streams.now.streams.released) && id in streams.now.streams.released
    {
      hide Spec.MapOk, Spec.HalvesOk, Spec.RemoveStream;
      shouldQueue := None;
      var isClosed := RegisterClose(isSendSide);
      if isClosed {
        Spec.RemoveKeepsHalves(streams.now, id);
        Spec.RaisedIsReleased(streams.now, id);
        Spec.RemovalFrame(streams.now, id);
        shouldQueue := streams.RemoveStream(id);
      }
      if streams.closeErr.None? {
        Spec.ReleasedIffClosed(streams.now, id);
      }
    }
  }
}
