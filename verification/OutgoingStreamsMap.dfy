/**
 The outgoing stream map as the program updates it. Each method is one critical
 section, from taking the lock to releasing it. `now` is the state of the
 specification; `Valid` says that the fields are that state's data.
 */
module OutgoingStreamsMap {
  import opened Common
  import Spec = OutgoingStreams

  /** What the fields show of a state. */
  datatype Fields = Fields(
    closeErr: Option<Error>, ctxs: map<nat, Spec.Call>, queue: seq<Spec.Call>, num: int, max: nat, sent: bool,
    m: set<StreamId>, full: set<Spec.Call>, closedChans: set<Spec.Call>, cancelled: set<Spec.Call>, errs: map<StreamId, Error>)

  ghost function Shown(s: Spec.State): Fields {
    Fields(s.closeErr, s.ctxs, s.queue, s.num, s.max, s.blocked.sent, s.streams.m, s.full, s.closedChans, s.cancelled, s.streams.errs)
  }

  /** A token for the head, if there is one and credit. */
  function Unblocked(f: Fields): (r: Fields) {
    if f.queue != [] && f.num < f.max then f.(full := f.full + {f.queue[0]}) else f
  }

  lemma FinishEffect(s: Spec.State, c: Spec.Call, key: nat, q: Spec.QuicOpen)
    requires Spec.At(s, c, Spec.Opening(key))
    ensures
      var r, f := Spec.Finish(s, c, q), Shown(s).(ctxs := s.ctxs - {key});
      match q
      case QuicOk(id) =>
        && (s.closeErr.Some? ==>
              && Shown(r) == f.(errs := s.streams.errs[id := s.closeErr.value])
              && r.calls[c] == Spec.Returned(Spec.Failed(s.closeErr.value)))
        && (s.closeErr.None? ==> Shown(r) == f.(m := s.streams.m + {id}) && r.calls[c] == Spec.Returned(Spec.Opened(id)))
      case QuicErr(err) =>
        && (s.closeErr.Some? ==> Shown(r) == f && r.calls[c] == Spec.Returned(Spec.Failed(s.closeErr.value)))
        && (s.closeErr.None? ==> Shown(r) == Unblocked(f.(num := s.num - 1)) && r.calls[c] == Spec.Returned(Spec.Failed(err)))
  {
  }

  lemma OpenEffect(s: Spec.State, c: Spec.Call, q: Spec.QuicOpen)
    requires s.closeErr.None? && s.queue == [] && s.num < s.max
    ensures
      var r := Spec.OpenStream(s, c, q);
      match q
      case QuicOk(id) => Shown(r) == Shown(s).(num := s.num + 1, m := s.streams.m + {id}) && r.calls[c] == Spec.Returned(Spec.Opened(id))
      case QuicErr(err) => Shown(r) == Shown(s) && r.calls[c] == Spec.Returned(Spec.Failed(err))
  {
  }

  lemma RefuseEffect(s: Spec.State, c: Spec.Call, q: Spec.QuicOpen)
    requires s.closeErr.Some? || s.queue != [] || s.num >= s.max
    ensures
      var r := Spec.OpenStream(s, c, q);
      var decides := s.closeErr.None? && s.queue == [] && !s.blocked.sent;
      && Shown(r) == Shown(s).(sent := s.blocked.sent || decides)
      && r.calls[c] == if decides then Spec.OpenBlocked(s.max)
                       else Spec.Returned(Spec.Failed(if s.closeErr.Some? then s.closeErr.value else StreamLimitReached))
  {
  }

  lemma SyncEffect(s: Spec.State, c: Spec.Call, ctxErr: bool, key: nat)
    ensures
      var r, f := Spec.SyncEnter(s, c, ctxErr, key), Shown(s);
      var decides := s.num >= s.max && !s.blocked.sent;
      && (s.closeErr.Some? ==> Shown(r) == f && r.calls[c] == Spec.Returned(Spec.Failed(s.closeErr.value)))
      && (s.closeErr.None? && ctxErr ==> Shown(r) == f && r.calls[c] == Spec.Returned(Spec.Failed(ContextDone)))
      && (s.closeErr.None? && !ctxErr && s.queue == [] && s.num < s.max ==>
            Shown(r) == f.(num := s.num + 1, ctxs := s.ctxs[key := c]) && r.calls[c] == Spec.Opening(key))
      && (s.closeErr.None? && !ctxErr && (s.queue != [] || s.num >= s.max) ==>
            && Shown(r) == f.(queue := s.queue + [c], sent := s.blocked.sent || decides)
            && r.calls[c] == if decides then Spec.QueuedBlocked(s.max) else Spec.Waiting)
  {
  }

  lemma CancelEffect(s: Spec.State, c: Spec.Call)
    ensures
      var r := Spec.Cancel(s, c);
      && Shown(r) == Unblocked(Shown(s).(queue := Without(s.queue, c)))
      && c in r.calls && r.calls[c] == Spec.Returned(Spec.Failed(ContextDone))
  {
    hide Without;
  }

  lemma ResumeEffect(s: Spec.State, c: Spec.Call, key: nat)
    ensures
      var r := Spec.ResumeQueued(s, c);
      Shown(r) == Shown(s) && r.calls[c] == if s.closeErr.Some? then Spec.Returned(Spec.Failed(s.closeErr.value)) else Spec.Waiting
    ensures
      var r := Spec.ResumeReserved(s, c, key);
      && (s.closeErr.Some? ==> Shown(r) == Shown(s) && r.calls[c] == Spec.Returned(Spec.Failed(s.closeErr.value)))
      && (s.closeErr.None? ==> Shown(r) == Shown(s).(ctxs := s.ctxs[key := c]) && r.calls[c] == Spec.Opening(key))
  {
    hide Without;
  }

  lemma UpdateEffect(s: Spec.State, limit: nat)
    ensures
      var r := Spec.UpdateStreamLimit(s, limit);
      && (s.closeErr.Some? || limit <= s.max ==> Shown(r) == Shown(s))
      && (s.closeErr.None? && limit > s.max ==> Shown(r) == Unblocked(Shown(s).(max := limit, sent := false)))
  {
  }

  lemma CloseEffect(s: Spec.State, err: Error)
    ensures
      var r := Spec.CloseSession(s, err);
      && (s.closeErr.Some? ==> Shown(r) == Shown(s))
      && (s.closeErr.None? ==>
            Shown(r) == Shown(s).(closeErr := Some(err), queue := [], closedChans := s.closedChans + (set c | c in s.queue),
                                  cancelled := s.cancelled + s.ctxs.Values, m := {},
                                  errs := s.streams.errs + (map id | id in s.streams.m :: err)))
  {
  }

  lemma WakeLeaves(s: Spec.State, c: Spec.Call, ctxErr: bool, key: nat)
    ensures s.closeErr.Some? ==> Spec.Wake(s, c, ctxErr, key) == Spec.Leave(s, c, s.closeErr.value)
    ensures s.closeErr.None? && ctxErr ==> Spec.Wake(s, c, ctxErr, key) == Spec.Cancel(s, c)
    ensures c in Spec.Cancel(s, c).calls && Spec.Cancel(s, c).calls[c] == Spec.Returned(Spec.Failed(ContextDone))
  {
  }

  lemma WakeEffect(s: Spec.State, c: Spec.Call, key: nat)
    requires s.closeErr.None? && s.queue != []
    ensures
      var r := Spec.Wake(s, c, false, key);
      var f := Shown(s).(num := s.num + 1, queue := s.queue[1..]);
      var last := f.queue != [] && f.num >= f.max;
      && (last && !s.blocked.sent ==> Shown(r) == f.(sent := true) && r.calls[c] == Spec.ReservedBlocked(s.max))
      && (last && s.blocked.sent ==> Shown(r) == f.(ctxs := s.ctxs[key := c]) && r.calls[c] == Spec.Opening(key))
      && (!last ==> Shown(r) == Unblocked(f).(ctxs := s.ctxs[key := c]) && r.calls[c] == Spec.Opening(key))
  {
  }

  class StreamsMap {
    var closeErr: Option<Error>
    var streamCtxs: map<nat, Spec.Call>
    var openQueue: seq<Spec.Call>
    var numStreams: int
    var maxStreams: nat
    var blockedSent: bool
    var m: set<StreamId>

    // What the map reaches through its references: the waiters' channels, the
    // cancel functions of the contexts, the streams.
    var full: set<Spec.Call>
    var closedChans: set<Spec.Call>
    var cancelled: set<Spec.Call>
    var streamErrs: map<StreamId, Error>

    ghost var now: Spec.State

    ghost function View(): Fields
      reads this
    {
      Fields(closeErr, streamCtxs, openQueue, numStreams, maxStreams, blockedSent, m, full, closedChans, cancelled, streamErrs)
    }

    ghost predicate Valid()
      reads this
    {
      Spec.Inv(now) && Shown(now) == View()
    }

    constructor (limit: nat)
      ensures Valid() && now == Spec.Init(limit)
      ensures View() == Fields(None, map[], [], 0, limit, false, {}, {}, {}, {}, map[])
    {
      closeErr, streamCtxs, openQueue := None, map[], [];
      numStreams, maxStreams, blockedSent, m := 0, limit, false, {};
      full, closedChans, cancelled, streamErrs := {}, {}, {}, map[];
      now := Spec.Init(limit);
      assert Spec.Reserving(map[]) == {};
    }

    /** The send never hits a closed channel; a full one drops it. */
    method MaybeUnblockOpenSync()
      requires openQueue != [] ==> openQueue[0] !in closedChans
      modifies this`full
      ensures full == if openQueue != [] && numStreams < maxStreams then old(full) + {openQueue[0]} else old(full)
    {
      if |openQueue| == 0 {
        return;
      }
      if numStreams >= maxStreams {
        return;
      }
      assert openQueue[0] !in closedChans;
      full := full + {openQueue[0]};
    }

    /** The outcome, or the limit to announce once the lock is released. */
    method OpenStream(ghost c: Spec.Call, q: Spec.QuicOpen) returns (o: Spec.Outcome, blocked: Option<nat>)
      requires Valid() && c !in now.calls && Spec.Fresh(now, q)
      modifies this
      ensures Valid() && now == Spec.OpenStream(old(now), c, q)
      ensures now.calls[c] == if blocked.Some? then Spec.OpenBlocked(blocked.value) else Spec.Returned(o)
      ensures closeErr.Some? ==> View() == old(View()) && o == Spec.Failed(closeErr.value) && blocked == None
      ensures closeErr.None? && (old(openQueue) != [] || old(numStreams) >= maxStreams) ==>
        var decides := old(openQueue) == [] && !old(blockedSent);
        && View() == old(View()).(sent := old(blockedSent) || decides)
        && o == Spec.Failed(StreamLimitReached) && blocked == if decides then Some(maxStreams) else None
      ensures closeErr.None? && old(openQueue) == [] && old(numStreams) < maxStreams ==>
        match q
        case QuicOk(id) => View() == old(View()).(num := old(numStreams) + 1, m := old(m) + {id}) && o == Spec.Opened(id)
        case QuicErr(err) => View() == old(View()) && o == Spec.Failed(err)
    {
      hide Spec.Inv, NoDuplicates, Spec.OpenStream;
      Spec.OpenStreamKeeps(now, c, q);
      if closeErr.Some? || openQueue != [] || numStreams >= maxStreams {
        RefuseEffect(now, c, q);
      } else {
        OpenEffect(now, c, q);
      }
      now := Spec.OpenStream(now, c, q);
      if closeErr.Some? {
        return Spec.Failed(closeErr.value), None;
      }
      if |openQueue| > 0 {
        return Spec.Failed(StreamLimitReached), None;
      }
      if numStreams >= maxStreams {
        if blockedSent {
          return Spec.Failed(StreamLimitReached), None;
        }
        blockedSent := true;
        return Spec.Failed(StreamLimitReached), Some(maxStreams);
      }
      numStreams := numStreams + 1;
      if q.QuicErr? {
        numStreams := numStreams - 1;
        MaybeUnblockOpenSync();
        return Spec.Failed(q.err), None;
      }
      m := m + {q.id};
      return Spec.Opened(q.id), None;
    }

    /** OpenStreamSync up to the first unlock: where the call goes on from there. */
    method OpenStreamSync(c: Spec.Call, ctxErr: bool, key: nat) returns (pc: Spec.Pc)
      requires Valid() && c !in now.calls && key !in streamCtxs
      modifies this
      ensures Valid() && now == Spec.SyncEnter(old(now), c, ctxErr, key) && now.calls[c] == pc
      ensures closeErr.Some? ==> View() == old(View()) && pc == Spec.Returned(Spec.Failed(closeErr.value))
      ensures closeErr.None? && ctxErr ==> View() == old(View()) && pc == Spec.Returned(Spec.Failed(ContextDone))
      ensures closeErr.None? && !ctxErr && old(openQueue) == [] && old(numStreams) < maxStreams ==>
        View() == old(View()).(num := old(numStreams) + 1, ctxs := old(streamCtxs)[key := c]) && pc == Spec.Opening(key)
      ensures closeErr.None? && !ctxErr && (old(openQueue) != [] || old(numStreams) >= maxStreams) ==>
        var decides := old(numStreams) >= maxStreams && !old(blockedSent);
        && View() == old(View()).(queue := old(openQueue) + [c], sent := old(blockedSent) || decides)
        && pc == if decides then Spec.QueuedBlocked(maxStreams) else Spec.Waiting
    {
      hide Spec.Inv, NoDuplicates, Spec.SyncEnter;
      Spec.SyncEnterKeeps(now, c, ctxErr, key);
      SyncEffect(now, c, ctxErr, key);
      now := Spec.SyncEnter(now, c, ctxErr, key);
      if closeErr.Some? {
        return Spec.Returned(Spec.Failed(closeErr.value));
      }
      if ctxErr {
        return Spec.Returned(Spec.Failed(ContextDone));
      }
      if |openQueue| == 0 && numStreams < maxStreams {
        numStreams := numStreams + 1;
        streamCtxs := streamCtxs[key := c];
        return Spec.Opening(key);
      }
      openQueue := openQueue + [c];
      if numStreams >= maxStreams && !blockedSent {
        blockedSent := true;
        return Spec.QueuedBlocked(maxStreams);
      }
      return Spec.Waiting;
    }

    /** The section after an announcement made by a call in the queue. */
    method ResumeQueued(c: Spec.Call) returns (pc: Spec.Pc)
      requires Valid() && Spec.At(now, c, Spec.QueuedAnnounced)
      modifies this`now
      ensures Valid() && now == Spec.ResumeQueued(old(now), c) && now.calls[c] == pc
      ensures pc == if closeErr.Some? then Spec.Returned(Spec.Failed(closeErr.value)) else Spec.Waiting
    {
      hide Spec.Inv, NoDuplicates, Spec.ResumeQueued;
      Spec.ResumeQueuedKeeps(now, c);
      ResumeEffect(now, c, 0);
      now := Spec.ResumeQueued(now, c);
      if closeErr.Some? {
        return Spec.Returned(Spec.Failed(closeErr.value));
      }
      return Spec.Waiting;
    }

    /** What a waiter does when it finds its context ended, before or after it was woken. */
    method CancelWait(c: Spec.Call)
      requires Valid() && (Spec.At(now, c, Spec.Cancelling) || Spec.At(now, c, Spec.Woken))
      modifies this
      ensures Valid() && now == Spec.Cancel(old(now), c)
      ensures openQueue == Without(old(openQueue), c)
      ensures full == if openQueue != [] && numStreams < maxStreams then old(full) + {openQueue[0]} else old(full)
      ensures View() == old(View()).(queue := openQueue, full := full)
    {
      hide Spec.Inv, NoDuplicates, Without, Spec.Cancel;
      Spec.ChannelsOpen(now);
      Spec.CancelKeeps(now, c);
      CancelEffect(now, c);
      now := Spec.Cancel(now, c);
      openQueue := Without(openQueue, c);
      MaybeUnblockOpenSync();
    }

    /** The section after the waiter received from its channel. */
    method WakeUp(c: Spec.Call, ctxErr: bool, key: nat) returns (pc: Spec.Pc)
      requires Valid() && Spec.At(now, c, Spec.Woken) && key !in streamCtxs
      modifies this
      ensures Valid() && now == Spec.Wake(old(now), c, ctxErr, key) && now.calls[c] == pc
      ensures closeErr.Some? ==> View() == old(View()) && pc == Spec.Returned(Spec.Failed(closeErr.value))
      ensures closeErr.None? && ctxErr ==> openQueue == Without(old(openQueue), c) && pc == Spec.Returned(Spec.Failed(ContextDone))
      ensures closeErr.None? && !ctxErr ==>
        && old(openQueue) == [c] + openQueue && numStreams == old(numStreams) + 1
        && pc == if openQueue != [] && numStreams >= maxStreams && !old(blockedSent) then Spec.ReservedBlocked(maxStreams)
                 else Spec.Opening(key)
    {
      hide Spec.Inv, Spec.Wake, Spec.Cancel, Without;
      WakeLeaves(now, c, ctxErr, key);
      if closeErr.Some? {
        pc := LeaveClosed(c);
      } else if ctxErr {
        CancelWait(c);
        pc := Spec.Returned(Spec.Failed(ContextDone));
      } else {
        pc := TakeTurn(c, key);
      }
    }

    /** A waiter finds the map closed. */
    method LeaveClosed(c: Spec.Call) returns (pc: Spec.Pc)
      requires Valid() && Spec.At(now, c, Spec.Woken) && closeErr.Some?
      modifies this`now
      ensures Valid() && now == Spec.Leave(old(now), c, closeErr.value) && now.calls[c] == pc
      ensures pc == Spec.Returned(Spec.Failed(closeErr.value))
    {
      hide Spec.Inv;
      Spec.CallFacts(now, c);
      Spec.LeaveKeeps(now, c, closeErr.value);
      now := Spec.Leave(now, c, closeErr.value);
      pc := Spec.Returned(Spec.Failed(closeErr.value));
    }

    /** A waiter with a token takes credit. */
    method TakeTurn(c: Spec.Call, key: nat) returns (pc: Spec.Pc)
      requires Valid() && Spec.At(now, c, Spec.Woken) && key !in streamCtxs && closeErr.None?
      modifies this
      ensures Valid() && now == Spec.Wake(old(now), c, false, key) && now.calls[c] == pc
      ensures old(openQueue) == [c] + openQueue && numStreams == old(numStreams) + 1 && closeErr.None?
      ensures pc == if openQueue != [] && numStreams >= maxStreams && !old(blockedSent) then Spec.ReservedBlocked(maxStreams)
                    else Spec.Opening(key)
    {
      hide Spec.Inv, NoDuplicates, Spec.Wake;
      Spec.ChannelsOpen(now);
      Spec.WokenIsHead(now, c);
      Spec.WakeKeeps(now, c, false, key);
      WakeEffect(now, c, key);
      now := Spec.Wake(now, c, false, key);
      pc := TakeCredit(c, key);
    }

    /** The woken waiter counts its stream without looking at the limit again. */
    method TakeCredit(c: Spec.Call, key: nat) returns (pc: Spec.Pc)
      requires openQueue != [] && closedChans == {}
      modifies this`numStreams, this`openQueue, this`blockedSent, this`full, this`streamCtxs
      ensures numStreams == old(numStreams) + 1 && openQueue == old(openQueue)[1..]
      ensures var last := openQueue != [] && numStreams >= maxStreams;
        && blockedSent == (old(blockedSent) || last)
        && full == (if openQueue != [] && !last then old(full) + {openQueue[0]} else old(full))
        && pc == (if last && !old(blockedSent) then Spec.ReservedBlocked(maxStreams) else Spec.Opening(key))
        && streamCtxs == if pc.Opening? then old(streamCtxs)[key := c] else old(streamCtxs)
    {
      numStreams := numStreams + 1;
      openQueue := openQueue[1..];
      if |openQueue| > 0 && numStreams >= maxStreams {
        if !blockedSent {
          blockedSent := true;
          return Spec.ReservedBlocked(maxStreams);
        }
      } else {
        MaybeUnblockOpenSync();
      }
      streamCtxs := streamCtxs[key := c];
      return Spec.Opening(key);
    }

    /** The section after an announcement made by a call that already holds its credit. */
    method ResumeReserved(c: Spec.Call, key: nat) returns (pc: Spec.Pc)
      requires Valid() && Spec.At(now, c, Spec.ReservedAnnounced) && key !in streamCtxs
      modifies this
      ensures Valid() && now == Spec.ResumeReserved(old(now), c, key) && now.calls[c] == pc
      ensures closeErr.Some? ==> View() == old(View()) && pc == Spec.Returned(Spec.Failed(closeErr.value))
      ensures closeErr.None? ==> View() == old(View()).(ctxs := old(streamCtxs)[key := c]) && pc == Spec.Opening(key)
    {
      hide Spec.Inv, NoDuplicates, Spec.ResumeReserved;
      Spec.ResumeReservedKeeps(now, c, key);
      ResumeEffect(now, c, key);
      now := Spec.ResumeReserved(now, c, key);
      if closeErr.Some? {
        pc := Spec.Returned(Spec.Failed(closeErr.value));
      } else {
        streamCtxs := streamCtxs[key := c];
        pc := Spec.Opening(key);
      }
    }

    /** OpenStreamSync after the attempt to open the QUIC stream. */
    method FinishOpen(ghost c: Spec.Call, key: nat, q: Spec.QuicOpen) returns (o: Spec.Outcome)
      requires Valid() && Spec.At(now, c, Spec.Opening(key)) && Spec.Fresh(now, q)
      modifies this
      ensures Valid() && now == Spec.Finish(old(now), c, q) && now.calls[c] == Spec.Returned(o)
      ensures key !in streamCtxs
      ensures closeErr.Some? ==>
        && o == Spec.Failed(closeErr.value) && m == old(m) && numStreams == old(numStreams)
        && streamErrs == if q.QuicOk? then old(streamErrs)[q.id := closeErr.value] else old(streamErrs)
      ensures closeErr.None? && q.QuicOk? ==> o == Spec.Opened(q.id) && m == old(m) + {q.id} && numStreams == old(numStreams)
      ensures closeErr.None? && q.QuicErr? ==>
        && o == Spec.Failed(q.err) && m == old(m) && numStreams == old(numStreams) - 1
        && full == if openQueue != [] && numStreams < maxStreams then old(full) + {openQueue[0]} else old(full)
    {
      hide Spec.Inv, NoDuplicates, Spec.Finish;
      Spec.ChannelsOpen(now);
      Spec.FinishKeeps(now, c, q);
      FinishEffect(now, c, key, q);
      now := Spec.Finish(now, c, q);
      streamCtxs := streamCtxs - {key};
      if q.QuicOk? && closeErr.Some? {
        streamErrs := streamErrs[q.id := closeErr.value];
        return Spec.Failed(closeErr.value);
      }
      if q.QuicErr? {
        if closeErr.Some? {
          return Spec.Failed(closeErr.value);
        }
        numStreams := numStreams - 1;
        MaybeUnblockOpenSync();
        return Spec.Failed(q.err);
      }
      m := m + {q.id};
      return Spec.Opened(q.id);
    }

    method RemoveStream(id: StreamId)
      requires Valid()
      modifies this
      ensures Valid() && now == Spec.RemoveStream(old(now), id)
      ensures View() == old(View()).(m := old(m) - {id})
    {
      hide Spec.Inv, NoDuplicates;
      Spec.ChannelsOpen(now);
      Spec.RemoveStreamKeeps(now, id);
      now := Spec.RemoveStream(now, id);
      m := m - {id};
    }

    method UpdateStreamLimit(limit: nat) returns (ok: bool)
      requires Valid()
      modifies this
      ensures Valid() && now == Spec.UpdateStreamLimit(old(now), limit)
      ensures ok <==> Spec.LimitAccepted(old(now), limit)
      ensures closeErr.Some? ==> ok && View() == old(View())
      ensures closeErr.None? && limit <= old(maxStreams) ==> !ok && View() == old(View())
      ensures closeErr.None? && limit > old(maxStreams) ==>
        && ok && maxStreams == limit && !blockedSent
        && full == (if openQueue != [] && numStreams < limit then old(full) + {openQueue[0]} else old(full))
        && View() == old(View()).(max := limit, sent := false, full := full)
    {
      hide Spec.Inv, NoDuplicates, Spec.UpdateStreamLimit;
      Spec.ChannelsOpen(now);
      Spec.UpdateStreamLimitKeeps(now, limit);
      UpdateEffect(now, limit);
      now := Spec.UpdateStreamLimit(now, limit);
      if closeErr.Some? {
        return true;
      }
      if limit <= maxStreams {
        return false;
      }
      maxStreams := limit;
      blockedSent := false;
      MaybeUnblockOpenSync();
      return true;
    }

    method CloseSession(err: Error)
      requires Valid()
      modifies this
      ensures Valid() && now == Spec.CloseSession(old(now), err)
      ensures old(closeErr).Some? ==> View() == old(View())
      ensures old(closeErr).None? ==>
        && closeErr == Some(err) && openQueue == [] && m == {}
        && cancelled == old(cancelled) + streamCtxs.Values
        && (forall c :: c in closedChans <==> c in old(closedChans) || c in old(openQueue))
        && streamErrs == old(streamErrs) + (map id | id in old(m) :: err)
        && streamCtxs == old(streamCtxs) && numStreams == old(numStreams)
    {
      hide Spec.Inv, NoDuplicates, Spec.CloseSession;
      Spec.ChannelsOpen(now);
      Spec.CloseSessionKeeps(now, err);
      CloseEffect(now, err);
      now := Spec.CloseSession(now, err);
      if closeErr.Some? {
        return;
      }
      closeErr := Some(err);
      CancelContexts();
      CloseChannels();
      CloseStreams(err);
    }

    method CancelContexts()
      modifies this`cancelled
      ensures cancelled == old(cancelled) + streamCtxs.Values
    {
      var todo := streamCtxs.Keys;
      while todo != {}
        invariant todo <= streamCtxs.Keys
        invariant old(cancelled) <= cancelled <= old(cancelled) + streamCtxs.Values
        invariant forall k :: k in streamCtxs.Keys - todo ==> streamCtxs[k] in cancelled
        decreases todo
      {
        var k :| k in todo;
        cancelled := cancelled + {streamCtxs[k]};
        todo := todo - {k};
      }
      assert forall k :: k in streamCtxs ==> streamCtxs[k] in cancelled;
    }

    /** Closes every waiter's channel, each open until then, and empties the queue. */
    method CloseChannels()
      requires NoDuplicates(openQueue) && forall c :: c in openQueue ==> c !in closedChans
      modifies this`closedChans, this`openQueue
      ensures openQueue == []
      ensures forall c :: c in closedChans <==> c in old(closedChans) || c in old(openQueue)
    {
      for i := 0 to |openQueue|
        invariant openQueue == old(openQueue)
        invariant forall c :: c in closedChans <==> c in old(closedChans) || c in openQueue[..i]
      {
        assert openQueue[i] !in closedChans;
        closedChans := closedChans + {openQueue[i]};
        assert openQueue[..i + 1] == openQueue[..i] + [openQueue[i]];
      }
      assert openQueue[..|openQueue|] == openQueue;
      openQueue := [];
    }

    method CloseStreams(err: Error)
      modifies this`streamErrs, this`m
      ensures m == {} && streamErrs == old(streamErrs) + (map id | id in old(m) :: err)
    {
      var todo := m;
      while todo != {}
        invariant todo <= m && m == old(m)
        invariant streamErrs == old(streamErrs) + (map id | id in m - todo :: err)
        decreases todo
      {
        var id :| id in todo;
        streamErrs := streamErrs[id := err];
        todo := todo - {id};
      }
      m := {};
    }
  }
}
