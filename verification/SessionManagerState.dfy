/** The session manager as the program updates it: each method is one critical section. */
module SessionManagerState {
  import opened Common
  import Spec = SessionManager

  class Manager {
    var sessions: map<Spec.SessionId, Spec.Entry>
    var recentlyClosedSessions: seq<Spec.SessionId>

    ghost var now: Spec.State

    ghost predicate Valid()
      reads this
    {
      Spec.Inv(now) && now.sessions == sessions && now.recentlyClosed == recentlyClosedSessions
    }

    constructor (ghost guarded: bool)
      ensures Valid() && now == Spec.Init(guarded)
      ensures sessions == map[] && recentlyClosedSessions == []
    {
      sessions, recentlyClosedSessions := map[], [];
      now := Spec.Init(guarded);
    }

    /** AddStream and AddUniStream: whether the stream was canceled, passed on, or kept. */
    method AddStream(id: StreamId, key: Spec.Key) returns (fate: Spec.Fate)
      requires Valid() && id !in now.fates.owner
      modifies this
      ensures Valid() && now == Spec.AddStream(old(now), id, key)
      ensures fate == Spec.Disposition(old(now), key.session)
      ensures recentlyClosedSessions == old(recentlyClosedSessions)
      ensures key.session in old(sessions) && old(sessions)[key.session].Established? ==>
        fate == Spec.IsDelivered && sessions == old(sessions)
      ensures key.session !in old(sessions) && key.session in recentlyClosedSessions ==>
        fate == Spec.IsRejected && sessions == old(sessions)
      ensures key.session !in old(sessions) && key.session !in recentlyClosedSessions ==>
        && fate == Spec.IsBuffered
        && sessions == old(sessions)[key.session := if key.uni then Spec.Unestablished([], [id]) else Spec.Unestablished([id], [])]
      ensures key.session in old(sessions) && old(sessions)[key.session].Unestablished? ==>
        var e := old(sessions)[key.session];
        && fate == Spec.IsBuffered
        && sessions == old(sessions)[key.session := if key.uni then e.(uniStreams := e.uniStreams + [id]) else e.(streams := e.streams + [id])]
    {
      hide Spec.Inv;
      Spec.StepKeeps(now, Spec.DoAddStream(id, key));
      now := Spec.AddStream(now, id, key);
      var entry := Spec.Unestablished([], []);
      if key.session !in sessions {
        if key.session in recentlyClosedSessions {
          return Spec.IsRejected;
        }
        sessions := sessions[key.session := entry];
      } else {
        entry := sessions[key.session];
      }
      if entry.Established? {
        return Spec.IsDelivered;
      }
      entry := if key.uni then entry.(uniStreams := entry.uniStreams + [id]) else entry.(streams := entry.streams + [id]);
      sessions := sessions[key.session := entry];
      assert sessions == old(sessions)[key.session := entry];
      assert [] + [id] == [id];
      return Spec.IsBuffered;
    }

    /** The streams to cancel: none if the session is gone or was established in the meantime. */
    method OnTimer(id: Spec.SessionId) returns (cancel: seq<StreamId>)
      requires Valid()
      modifies this
      ensures Valid() && now == Spec.OnTimer(old(now), id)
      ensures now.fates.rejected == old(now).fates.rejected + Spec.Elements(cancel)
      ensures recentlyClosedSessions == old(recentlyClosedSessions)
      ensures if id in old(sessions) && old(sessions)[id].Unestablished?
        then cancel == old(sessions)[id].streams + old(sessions)[id].uniStreams && sessions == old(sessions) - {id}
        else cancel == [] && sessions == old(sessions)
    {
      hide Spec.Inv;
      Spec.StepKeeps(now, Spec.DoTimer(id));
      now := Spec.OnTimer(now, id);
      if id !in sessions {
        return [];
      }
      if sessions[id].Established? {
        return [];
      }
      cancel := sessions[id].streams + sessions[id].uniStreams;
      sessions := sessions - {id};
    }

    /** The buffered streams to deliver, in order, before any other. */
    method AddSession(id: Spec.SessionId) returns (streams: seq<StreamId>, uniStreams: seq<StreamId>)
      requires Valid() && Spec.Enabled(now, Spec.DoAddSession(id))
      modifies this
      ensures Valid() && now == Spec.AddSession(old(now), id)
      ensures streams == Spec.Buffered(old(now).sessions, Spec.Key(id, false))
      ensures uniStreams == Spec.Buffered(old(now).sessions, Spec.Key(id, true))
      ensures sessions == old(sessions)[id := Spec.Established] && recentlyClosedSessions == old(recentlyClosedSessions)
      ensures if id in old(sessions) && old(sessions)[id].Unestablished?
        then streams == old(sessions)[id].streams && uniStreams == old(sessions)[id].uniStreams
        else streams == [] && uniStreams == []
    {
      hide Spec.Inv;
      Spec.StepKeeps(now, Spec.DoAddSession(id));
      now := Spec.AddSession(now, id);
      streams, uniStreams := [], [];
      if id in sessions && sessions[id].Unestablished? {
        streams, uniStreams := sessions[id].streams, sessions[id].uniStreams;
      }
      sessions := sessions[id := Spec.Established];
    }

    method DeleteSession(id: Spec.SessionId)
      requires Valid() && id in now.running
      modifies this
      ensures Valid() && now == Spec.DeleteSession(old(now), id)
      ensures sessions == old(sessions) - {id}
      ensures
        var recent := old(recentlyClosedSessions) + [id];
        recentlyClosedSessions == if |recent| > 16 then recent[1..] else recent
    {
      hide Spec.Inv;
      Spec.StepKeeps(now, Spec.DoDeleteSession(id));
      now := Spec.DeleteSession(now, id);
      sessions := sessions - {id};
      recentlyClosedSessions := recentlyClosedSessions + [id];
      if |recentlyClosedSessions| > Spec.MAX_RECENTLY_CLOSED {
        recentlyClosedSessions := recentlyClosedSessions[1..];
      }
    }

    method Close()
      requires Valid()
      modifies this
      ensures Valid() && now == Spec.CloseManager(old(now))
      ensures sessions == map[] && recentlyClosedSessions == old(recentlyClosedSessions)
    {
      hide Spec.Inv;
      Spec.StepKeeps(now, Spec.DoClose);
      now := Spec.CloseManager(now);
      sessions := map[];
    }

    /** Upgrade's loop over the sessions of a connection without flow control. */
    method HasEstablished() returns (found: bool)
      requires Valid()
      ensures found <==> exists id :: Spec.IsEstablished(sessions, id)
    {
      var todo := sessions.Keys;
      while todo != {}
        invariant todo <= sessions.Keys
        invariant forall id :: id in sessions && id !in todo ==> !Spec.IsEstablished(sessions, id)
        decreases todo
      {
        var id :| id in todo;
        if sessions[id].Established? {
          assert Spec.IsEstablished(sessions, id);
          return true;
        }
        todo := todo - {id};
      }
      return false;
    }

    /** Upgrade: a second session without flow control is refused; an accepted one is registered. */
    method Upgrade(id: Spec.SessionId, flowControl: bool) returns (accepted: bool)
      requires Valid() && id !in now.added && now.guarded == !flowControl
      modifies this
      ensures Valid()
      ensures accepted <==> flowControl || !(exists x :: Spec.IsEstablished(old(sessions), x))
      ensures now == if accepted then Spec.AddSession(old(now), id) else old(now)
    {
      if !flowControl {
        var found := HasEstablished();
        if found {
          return false;
        }
        assert forall x :: x in sessions && sessions[x].Established? ==> Spec.IsEstablished(sessions, x);
      }
      var streams, uniStreams := AddSession(id);
      return true;
    }
  }
}
