/**
 The session manager: streams that arrive before their session are buffered, and
 delivered, rejected or dropped later. The functions are its critical sections.
 */
module SessionManager {
  import opened Common

  type SessionId = nat

  const MAX_RECENTLY_CLOSED: nat := 16

  datatype Entry = Unestablished(streams: seq<StreamId>, uniStreams: seq<StreamId>) | Established

  /** Streams of one kind that belong to one session. */
  datatype Key = Key(session: SessionId, uni: bool)

  /** What became of the streams. */
  datatype Fates = Fates(
    owner: map<StreamId, Key>,            // every stream that arrived
    arrivals: map<Key, seq<StreamId>>,    // in the order they arrived
    delivered: map<Key, seq<StreamId>>,   // passed to their session, in order
    rejected: set<StreamId>,              // canceled with WT_BUFFERED_STREAM_REJECTED
    dropped: set<StreamId>                // forgotten
  )

  datatype State = State(
    sessions: map<SessionId, Entry>,
    recentlyClosed: seq<SessionId>,
    guarded: bool,                        // a server connection without flow control
    fates: Fates,
    added: set<SessionId>,                // history: sessions ever added
    running: set<SessionId>,              // sessions added whose end was not handled yet
    closures: seq<SessionId>,             // history: sessions whose end was handled
    closed: bool                          // history: the manager was closed
  )

  function Init(guarded: bool): (s: State) {
    State(map[], [], guarded, Fates(map[], map[], map[], {}, {}), {}, {}, [], false)
  }

  function Get(m: map<Key, seq<StreamId>>, key: Key): (r: seq<StreamId>) {
    if key in m then m[key] else []
  }

  /** The streams buffered for a session. */
  function Buffered(sessions: map<SessionId, Entry>, key: Key): (r: seq<StreamId>) {
    if key.session in sessions && sessions[key.session].Unestablished? then
      if key.uni then sessions[key.session].uniStreams else sessions[key.session].streams
    else []
  }

  // ---------- critical sections ----------

  function Arrive(f: Fates, id: StreamId, key: Key): (r: Fates) {
    f.(owner := f.owner[id := key], arrivals := f.arrivals[key := Get(f.arrivals, key) + [id]])
  }

  function Deliver(f: Fates, key: Key, ids: seq<StreamId>): (r: Fates) {
    f.(delivered := f.delivered[key := Get(f.delivered, key) + ids])
  }

  datatype Fate = IsBuffered | IsDelivered | IsRejected | IsDropped

  /** What happens to a stream that arrives for a session. */
  function Disposition(s: State, id: SessionId): (r: Fate) {
    if id !in s.sessions then (if id in s.recentlyClosed then IsRejected else IsBuffered)
    else if s.sessions[id].Established? then IsDelivered
    else IsBuffered
  }

  function Buffer(sessions: map<SessionId, Entry>, id: StreamId, key: Key): (r: map<SessionId, Entry>) {
    var e := if key.session in sessions && sessions[key.session].Unestablished? then sessions[key.session]
             else Unestablished([], []);
    sessions[key.session := if key.uni then e.(uniStreams := e.uniStreams + [id]) else e.(streams := e.streams + [id])]
  }

  /** AddStream and AddUniStream */
  function AddStream(s: State, id: StreamId, key: Key): (r: State) {
    var f := Arrive(s.fates, id, key);
    match Disposition(s, key.session)
    case IsRejected => s.(fates := f.(rejected := f.rejected + {id}))
    case IsDelivered => s.(fates := Deliver(f, key, [id]))
    case _ => s.(fates := f, sessions := Buffer(s.sessions, id, key))
  }

  function Elements(ids: seq<StreamId>): (r: set<StreamId>)
    ensures forall x :: x in r <==> x in ids
  {
    set i | 0 <= i < |ids| :: ids[i]
  }

  /** Everything buffered for a session, of both kinds. */
  function BufferedFor(s: State, id: SessionId): (r: set<StreamId>) {
    Elements(Buffered(s.sessions, Key(id, false))) + Elements(Buffered(s.sessions, Key(id, true)))
  }

  /** onTimer */
  function OnTimer(s: State, id: SessionId): (r: State) {
    if id !in s.sessions || s.sessions[id].Established? then s
    else s.(sessions := s.sessions - {id}, fates := s.fates.(rejected := s.fates.rejected + BufferedFor(s, id)))
  }

  function AddSession(s: State, id: SessionId): (r: State) {
    var f := Deliver(s.fates, Key(id, false), Buffered(s.sessions, Key(id, false)));
    s.(sessions := s.sessions[id := Established],
       fates := Deliver(f, Key(id, true), Buffered(s.sessions, Key(id, true))),
       added := s.added + {id}, running := s.running + {id})
  }

  /** deleteSession, once the session's context has ended; an entry it finds for buffered streams goes with them. */
  function DeleteSession(s: State, id: SessionId): (r: State) {
    var recent := s.recentlyClosed + [id];
    s.(sessions := s.sessions - {id},
       recentlyClosed := if |recent| > MAX_RECENTLY_CLOSED then recent[1..] else recent,
       fates := s.fates.(dropped := s.fates.dropped + BufferedFor(s, id)),
       running := s.running - {id}, closures := s.closures + [id])
  }

  /** Everything buffered. */
  function AllBuffered(s: State): (r: set<StreamId>) {
    set x | x in s.fates.owner && x in Buffered(s.sessions, s.fates.owner[x])
  }

  function CloseManager(s: State): (r: State) {
    s.(sessions := map[], fates := s.fates.(dropped := s.fates.dropped + AllBuffered(s)), closed := true)
  }

  // ---------- runs ----------

  datatype Action =
    | DoAddStream(id: StreamId, key: Key)
    | DoTimer(session: SessionId)
    | DoAddSession(session: SessionId)
    | DoDeleteSession(session: SessionId)
    | DoClose

  /** Upgrade's guard: without flow control a connection gets a session only if it has none. */
  predicate MayEstablish(s: State) {
    s.guarded ==> forall id :: id in s.sessions ==> s.sessions[id].Unestablished?
  }

  /** Stream and session IDs are fresh; a timer may fire late, at any time. */
  predicate Enabled(s: State, a: Action) {
    match a
    case DoAddStream(id, _) => id !in s.fates.owner
    case DoTimer(_) => true
    case DoAddSession(id) => id !in s.added && MayEstablish(s)
    case DoDeleteSession(id) => id in s.running
    case DoClose => true
  }

  function Next(s: State, a: Action): (r: State)
    requires Enabled(s, a)
  {
    match a
    case DoAddStream(id, key) => AddStream(s, id, key)
    case DoTimer(id) => OnTimer(s, id)
    case DoAddSession(id) => AddSession(s, id)
    case DoDeleteSession(id) => DeleteSession(s, id)
    case DoClose => CloseManager(s)
  }

  ghost predicate IsRun(states: seq<State>, actions: seq<Action>) {
    && |states| == |actions| + 1
    && (exists guarded :: states[0] == Init(guarded))
    && forall i :: 0 <= i < |actions| ==> Enabled(states[i], actions[i]) && states[i + 1] == Next(states[i], actions[i])
  }

  // ---------- invariant ----------

  ghost function Gone(f: Fates): set<StreamId> {
    f.rejected + f.dropped
  }

  /** Of one session's streams of one kind: what was delivered, then what is buffered, is what arrived without what is gone. */
  ghost predicate KeyOk(f: Fates, sessions: map<SessionId, Entry>, key: Key) {
    && Get(f.delivered, key) + Buffered(sessions, key) == Excluding(Get(f.arrivals, key), Gone(f))
    && NoDuplicates(Get(f.arrivals, key))
    && (forall x :: x in Get(f.arrivals, key) <==> x in f.owner && f.owner[x] == key)
  }

  ghost predicate FatesOk(f: Fates, sessions: map<SessionId, Entry>) {
    && (forall key :: KeyOk(f, sessions, key))
    && f.rejected !! f.dropped
    && (forall x :: x in Gone(f) ==> x in f.owner)
  }

  predicate IsEstablished(sessions: map<SessionId, Entry>, id: SessionId) {
    id in sessions && sessions[id].Established?
  }

  ghost predicate SessionsOk(s: State) {
    && (forall id :: id in s.sessions && s.sessions[id].Established? ==> id in s.running)
    && s.running <= s.added
    && (!s.closed ==> forall id :: id in s.running ==> id in s.sessions && s.sessions[id].Established?)
    && (!s.closed ==> s.fates.dropped == {})
    && (s.guarded ==> forall a, b :: IsEstablished(s.sessions, a) && IsEstablished(s.sessions, b) ==> a == b)
  }

  ghost predicate RecentOk(s: State) {
    s.recentlyClosed == if |s.closures| <= MAX_RECENTLY_CLOSED then s.closures else s.closures[|s.closures| - MAX_RECENTLY_CLOSED..]
  }

  ghost predicate Inv(s: State) {
    FatesOk(s.fates, s.sessions) && SessionsOk(s) && RecentOk(s)
  }

  // ---------- Excluding ----------

  lemma {:induction false} ExcludingConcat(s: seq<StreamId>, t: seq<StreamId>, gone: set<StreamId>)
    ensures Excluding(s + t, gone) == Excluding(s, gone) + Excluding(t, gone)
  {
    if t == [] {
      assert s + t == s;
    } else {
      assert (s + t)[..|s + t| - 1] == s + t[..|t| - 1];
      ExcludingConcat(s, t[..|t| - 1], gone);
    }
  }

  lemma {:induction false} ExcludingMore(s: seq<StreamId>, gone: set<StreamId>, more: set<StreamId>)
    ensures Excluding(s, gone + more) == Excluding(Excluding(s, gone), more)
  {
    if s != [] {
      var front, last := s[..|s| - 1], s[|s| - 1];
      ExcludingMore(front, gone, more);
      if last !in gone {
        ExcludingAppend(Excluding(front, gone), last, more);
      }
    }
  }

  lemma {:induction false} ExcludingNone(s: seq<StreamId>, gone: set<StreamId>)
    requires forall x :: x in s ==> x !in gone
    ensures Excluding(s, gone) == s
  {
    if s != [] {
      ExcludingNone(s[..|s| - 1], gone);
    }
  }

  lemma {:induction false} ExcludingAll(s: seq<StreamId>, gone: set<StreamId>)
    requires forall x :: x in s ==> x in gone
    ensures Excluding(s, gone) == []
  {
    if s != [] {
      ExcludingAll(s[..|s| - 1], gone);
    }
  }

  lemma {:induction false} ExcludingNoDuplicates(s: seq<StreamId>, gone: set<StreamId>)
    requires NoDuplicates(s)
    ensures NoDuplicates(Excluding(s, gone))
  {
    if s != [] {
      ExcludingNoDuplicates(s[..|s| - 1], gone);
      assert s[|s| - 1] !in s[..|s| - 1];
    }
  }

  // ---------- preservation ----------

  /** Delivered and buffered streams are distinct, arrived, and not gone. */
  lemma KeyFacts(f: Fates, sessions: map<SessionId, Entry>, key: Key)
    requires KeyOk(f, sessions, key)
    ensures NoDuplicates(Get(f.delivered, key) + Buffered(sessions, key))
    ensures forall x :: x in Get(f.delivered, key) || x in Buffered(sessions, key) ==>
      x in f.owner && f.owner[x] == key && x !in Gone(f)
    ensures forall x :: x in Get(f.delivered, key) ==> x !in Buffered(sessions, key)
  {
    ExcludingNoDuplicates(Get(f.arrivals, key), Gone(f));
    var all := Get(f.delivered, key) + Buffered(sessions, key);
    assert forall x :: x in Get(f.delivered, key) || x in Buffered(sessions, key) <==> x in all;
    forall x | x in Get(f.delivered, key) ensures x !in Buffered(sessions, key) {
      var i :| 0 <= i < |Get(f.delivered, key)| && Get(f.delivered, key)[i] == x;
      assert all[i] == x;
      assert forall j :: 0 <= j < |Buffered(sessions, key)| ==> all[|Get(f.delivered, key)| + j] == Buffered(sessions, key)[j];
    }
  }

  /** Streams of `key` did not arrive and were not delivered in between. */
  ghost predicate SameKey(f: Fates, f': Fates, key: Key) {
    && Get(f'.arrivals, key) == Get(f.arrivals, key)
    && Get(f'.delivered, key) == Get(f.delivered, key)
    && forall x :: (x in f'.owner && f'.owner[x] == key) <==> (x in f.owner && f.owner[x] == key)
  }

  /** More streams are gone: none of `key`, or exactly its buffered ones, which the entry loses. */
  lemma KeyForgets(f: Fates, sessions: map<SessionId, Entry>, f': Fates, sessions': map<SessionId, Entry>, key: Key, more: set<StreamId>, all: bool)
    requires KeyOk(f, sessions, key) && SameKey(f, f', key) && Gone(f') == Gone(f) + more
    requires forall x :: x in more && x in f.owner && f.owner[x] == key ==> all && x in Buffered(sessions, key)
    requires all ==> Buffered(sessions', key) == [] && forall x :: x in Buffered(sessions, key) ==> x in more
    requires !all ==> Buffered(sessions', key) == Buffered(sessions, key)
    ensures KeyOk(f', sessions', key)
  {
    KeyFacts(f, sessions, key);
    var delivered, buffered := Get(f.delivered, key), Buffered(sessions, key);
    ExcludingMore(Get(f.arrivals, key), Gone(f), more);
    ExcludingConcat(delivered, buffered, more);
    ExcludingNone(delivered, more);
    if all {
      ExcludingAll(buffered, more);
    } else {
      ExcludingNone(buffered, more);
    }
  }

  /** A stream of `key` arrives: it joins the arrivals, and those that remain. */
  lemma KeyArrives(f: Fates, sessions: map<SessionId, Entry>, id: StreamId, key: Key)
    requires KeyOk(f, sessions, key) && id !in f.owner && id !in Gone(f)
    ensures
      var arrivals := Get(Arrive(f, id, key).arrivals, key);
      && Excluding(arrivals, Gone(f)) == Get(f.delivered, key) + Buffered(sessions, key) + [id]
      && Excluding(arrivals, Gone(f) + {id}) == Get(f.delivered, key) + Buffered(sessions, key)
      && NoDuplicates(arrivals)
      && (forall x :: x in arrivals <==> x in f.owner[id := key] && f.owner[id := key][x] == key)
  {
    var arrivals := Get(f.arrivals, key);
    ExcludingAppend(arrivals, id, Gone(f));
    ExcludingMore(arrivals, Gone(f), {id});
    ExcludingNone(Excluding(arrivals, Gone(f)), {id});
    ExcludingAppend(arrivals, id, Gone(f) + {id});
  }

  lemma BufferEffect(sessions: map<SessionId, Entry>, id: StreamId, key: Key, k: Key)
    requires key.session in sessions ==> sessions[key.session].Unestablished?
    ensures Buffered(Buffer(sessions, id, key), k) == if k == key then Buffered(sessions, k) + [id] else Buffered(sessions, k)
  {
  }

  /** The stream is gone at once. */
  lemma KeyRejects(f: Fates, sessions: map<SessionId, Entry>, id: StreamId, key: Key)
    requires KeyOk(f, sessions, key) && id !in f.owner && id !in Gone(f)
    ensures
      var g := Arrive(f, id, key);
      KeyOk(g.(rejected := g.rejected + {id}), sessions, key)
  {
    KeyArrives(f, sessions, id, key);
    hide Excluding, NoDuplicates, Buffered;
    var g := Arrive(f, id, key);
    assert Gone(g.(rejected := g.rejected + {id})) == Gone(f) + {id};
  }

  lemma KeyDelivers(f: Fates, sessions: map<SessionId, Entry>, id: StreamId, key: Key)
    requires KeyOk(f, sessions, key) && id !in f.owner && id !in Gone(f) && Buffered(sessions, key) == []
    ensures KeyOk(Deliver(Arrive(f, id, key), key, [id]), sessions, key)
  {
    KeyArrives(f, sessions, id, key);
    hide Excluding, NoDuplicates, Buffered;
    var delivered := Get(f.delivered, key);
    assert delivered + [] + [id] == (delivered + [id]) + [];
  }

  lemma KeyBuffers(f: Fates, sessions: map<SessionId, Entry>, sessions': map<SessionId, Entry>, id: StreamId, key: Key)
    requires KeyOk(f, sessions, key) && id !in f.owner && id !in Gone(f)
    requires Buffered(sessions', key) == Buffered(sessions, key) + [id]
    ensures KeyOk(Arrive(f, id, key), sessions', key)
  {
    KeyArrives(f, sessions, id, key);
    hide Excluding, NoDuplicates, Buffered;
    var delivered, buffered := Get(f.delivered, key), Buffered(sessions, key);
    assert delivered + buffered + [id] == delivered + (buffered + [id]);
  }

  lemma KeyAdds(s: State, id: StreamId, key: Key)
    requires KeyOk(s.fates, s.sessions, key) && id !in s.fates.owner && id !in Gone(s.fates)
    ensures KeyOk(AddStream(s, id, key).fates, AddStream(s, id, key).sessions, key)
  {
    hide KeyOk, Buffer;
    match Disposition(s, key.session)
    case IsRejected => KeyRejects(s.fates, s.sessions, id, key);
    case IsDelivered => KeyDelivers(s.fates, s.sessions, id, key);
    case _ =>
      BufferEffect(s.sessions, id, key, key);
      KeyBuffers(s.fates, s.sessions, Buffer(s.sessions, id, key), id, key);
  }

  /** Streams of other keys are not affected. */
  lemma KeyUntouched(s: State, id: StreamId, key: Key, k: Key)
    requires KeyOk(s.fates, s.sessions, k) && id !in s.fates.owner && k != key
    ensures KeyOk(AddStream(s, id, key).fates, AddStream(s, id, key).sessions, k)
  {
    hide KeyOk, Excluding, Buffer;
    var r := AddStream(s, id, key);
    if Disposition(s, key.session) == IsBuffered {
      BufferEffect(s.sessions, id, key, k);
    }
    var more := if Disposition(s, key.session) == IsRejected then {id} else {};
    assert Gone(r.fates) == Gone(s.fates) + more;
    hide Buffered, Gone;
    KeyForgets(s.fates, s.sessions, r.fates, r.sessions, k, more, false);
  }

  lemma AddStreamKeepsFates(s: State, id: StreamId, key: Key)
    requires FatesOk(s.fates, s.sessions) && id !in s.fates.owner
    ensures FatesOk(AddStream(s, id, key).fates, AddStream(s, id, key).sessions)
  {
    forall k ensures KeyOk(AddStream(s, id, key).fates, AddStream(s, id, key).sessions, k) {
      assert KeyOk(s.fates, s.sessions, k);
      hide KeyOk, Excluding, AddStream;
      if k == key {
        KeyAdds(s, id, key);
      } else {
        KeyUntouched(s, id, key, k);
      }
    }
    hide KeyOk;
  }

  lemma TimerKeepsFates(s: State, id: SessionId)
    requires FatesOk(s.fates, s.sessions)
    ensures FatesOk(OnTimer(s, id).fates, OnTimer(s, id).sessions)
  {
    if id in s.sessions && !s.sessions[id].Established? {
      hide FatesOk;
      ForgetSession(s, OnTimer(s, id), id);
    }
  }

  /** `r` comes from `s` by forgetting what is buffered for one session. */
  ghost predicate Forgets(s: State, r: State, id: SessionId) {
    && r.fates == s.fates.(rejected := r.fates.rejected, dropped := r.fates.dropped)
    && r.sessions == s.sessions - {id}
    && (|| (r.fates.rejected == s.fates.rejected + BufferedFor(s, id) && r.fates.dropped == s.fates.dropped)
        || (r.fates.dropped == s.fates.dropped + BufferedFor(s, id) && r.fates.rejected == s.fates.rejected))
  }

  lemma KeyForgotten(s: State, r: State, id: SessionId, k: Key)
    requires FatesOk(s.fates, s.sessions) && Forgets(s, r, id)
    ensures KeyOk(r.fates, r.sessions, k)
  {
    var more := BufferedFor(s, id);
    assert Gone(r.fates) == Gone(s.fates) + more;
    assert KeyOk(s.fates, s.sessions, k);
    forall x | x in more && x in s.fates.owner && s.fates.owner[x] == k
      ensures k.session == id && x in Buffered(s.sessions, k)
    {
      BufferedFacts(s, id, x);
    }
    hide KeyOk, Excluding, FatesOk, Gone;
    KeyForgets(s.fates, s.sessions, r.fates, r.sessions, k, more, k.session == id);
  }

  /** A section that forgets what is buffered for one session. */
  lemma ForgetSession(s: State, r: State, id: SessionId)
    requires FatesOk(s.fates, s.sessions) && Forgets(s, r, id)
    ensures FatesOk(r.fates, r.sessions)
  {
    forall x | x in BufferedFor(s, id) ensures x in s.fates.owner && x !in Gone(s.fates) {
      BufferedFacts(s, id, x);
    }
    forall k ensures KeyOk(r.fates, r.sessions, k) {
      KeyForgotten(s, r, id, k);
    }
    hide KeyOk;
  }

  /** A stream buffered for a session arrived for it, is buffered under its kind, and is not gone. */
  lemma BufferedFacts(s: State, id: SessionId, x: StreamId)
    requires FatesOk(s.fates, s.sessions) && x in BufferedFor(s, id)
    ensures x in s.fates.owner && s.fates.owner[x].session == id && x !in Gone(s.fates)
    ensures x in Buffered(s.sessions, s.fates.owner[x])
  {
    assert KeyOk(s.fates, s.sessions, Key(id, false));
    assert KeyOk(s.fates, s.sessions, Key(id, true));
    hide KeyOk;
    KeyFacts(s.fates, s.sessions, Key(id, false));
    KeyFacts(s.fates, s.sessions, Key(id, true));
  }

  lemma AddSessionKeepsFates(s: State, id: SessionId)
    requires FatesOk(s.fates, s.sessions)
    ensures FatesOk(AddSession(s, id).fates, AddSession(s, id).sessions)
  {
    var r := AddSession(s, id);
    forall k ensures KeyOk(r.fates, r.sessions, k) {
      assert KeyOk(s.fates, s.sessions, k);
    }
  }

  lemma CloseKeepsFates(s: State)
    requires FatesOk(s.fates, s.sessions)
    ensures FatesOk(CloseManager(s).fates, CloseManager(s).sessions)
  {
    var r := CloseManager(s);
    var more := AllBuffered(s);
    forall x | x in more ensures x !in Gone(s.fates) {
      var k := s.fates.owner[x];
      assert KeyOk(s.fates, s.sessions, k);
      KeyFacts(s.fates, s.sessions, k);
    }
    forall k ensures KeyOk(r.fates, r.sessions, k) {
      assert KeyOk(s.fates, s.sessions, k);
      KeyFacts(s.fates, s.sessions, k);
      hide KeyOk, Excluding;
      KeyForgets(s.fates, s.sessions, r.fates, r.sessions, k, more, true);
    }
  }

  lemma StepKeepsFates(s: State, a: Action)
    requires FatesOk(s.fates, s.sessions) && Enabled(s, a)
    ensures FatesOk(Next(s, a).fates, Next(s, a).sessions)
  {
    hide FatesOk;
    match a
    case DoAddStream(id, key) => AddStreamKeepsFates(s, id, key);
    case DoTimer(id) => TimerKeepsFates(s, id);
    case DoAddSession(id) => AddSessionKeepsFates(s, id);
    case DoDeleteSession(id) => ForgetSession(s, DeleteSession(s, id), id);
    case DoClose => CloseKeepsFates(s);
  }

  lemma StepKeepsSessions(s: State, a: Action)
    requires SessionsOk(s) && Enabled(s, a)
    ensures SessionsOk(Next(s, a))
  {
    var r := Next(s, a);
    forall x | IsEstablished(r.sessions, x)
      ensures IsEstablished(s.sessions, x) || (a.DoAddSession? && x == a.session)
    {
    }
  }

  lemma StepKeepsRecent(s: State, a: Action)
    requires RecentOk(s) && Enabled(s, a)
    ensures RecentOk(Next(s, a))
  {
    hide Arrive, Deliver, Buffer, BufferedFor, AllBuffered;
    match a
    case DoDeleteSession(id) =>
      var r := DeleteSession(s, id);
      assert |r.closures| == |s.closures| + 1;
    case _ =>
  }

  lemma StepKeeps(s: State, a: Action)
    requires Inv(s) && Enabled(s, a)
    ensures Inv(Next(s, a))
  {
    hide FatesOk, SessionsOk, RecentOk;
    StepKeepsFates(s, a);
    StepKeepsSessions(s, a);
    StepKeepsRecent(s, a);
  }

  lemma {:induction false} RunKeeps(states: seq<State>, actions: seq<Action>, i: nat)
    requires IsRun(states, actions) && i < |states|
    ensures Inv(states[i])
  {
    if i > 0 {
      RunKeeps(states, actions, i - 1);
      StepKeeps(states[i - 1], actions[i - 1]);
    }
  }

  ghost predicate HasFate(s: State, x: StreamId, fate: Fate)
    requires x in s.fates.owner
  {
    var key := s.fates.owner[x];
    match fate
    case IsBuffered => x in Buffered(s.sessions, key)
    case IsDelivered => x in Get(s.fates.delivered, key)
    case IsRejected => x in s.fates.rejected
    case IsDropped => x in s.fates.dropped
  }

  /**
   In every run each stream that arrived has exactly one of four fates: buffered,
   delivered, rejected, or dropped, the last only after the manager was closed. Of
   each session and kind, what was delivered followed by what is buffered is what
   arrived, in that order, without what was rejected or dropped.
   */
  lemma Conservation(states: seq<State>, actions: seq<Action>, i: nat, x: StreamId)
    requires IsRun(states, actions) && i < |states| && x in states[i].fates.owner
    ensures
      var s := states[i];
      var key := s.fates.owner[x];
      && (exists fate :: HasFate(s, x, fate))
      && (forall c, d :: HasFate(s, x, c) && HasFate(s, x, d) ==> c == d)
      && (s.fates.dropped != {} ==> s.closed)
      && Get(s.fates.delivered, key) + Buffered(s.sessions, key)
         == Excluding(Get(s.fates.arrivals, key), s.fates.rejected + s.fates.dropped)
      && NoDuplicates(Get(s.fates.arrivals, key)) && x in Get(s.fates.arrivals, key)
  {
    RunKeeps(states, actions, i);
    var s := states[i];
    var key := s.fates.owner[x];
    assert KeyOk(s.fates, s.sessions, key);
    KeyFacts(s.fates, s.sessions, key);
    assert x in Get(s.fates.delivered, key) + Buffered(s.sessions, key) || x in Gone(s.fates);
    assert HasFate(s, x, IsBuffered) || HasFate(s, x, IsDelivered) || HasFate(s, x, IsRejected) || HasFate(s, x, IsDropped);
  }

  /** What a step does to a stream that is buffered for `session`. */
  function BufferedBecomes(a: Action, session: SessionId): (r: Fate) {
    match a
    case DoTimer(id) => if id == session then IsRejected else IsBuffered
    case DoAddSession(id) => if id == session then IsDelivered else IsBuffered
    case DoDeleteSession(id) => if id == session then IsDropped else IsBuffered
    case DoClose => IsDropped
    case _ => IsBuffered
  }

  lemma InBufferedFor(s: State, x: StreamId, key: Key)
    requires x in Buffered(s.sessions, key)
    ensures x in BufferedFor(s, key.session)
    ensures key.session in s.sessions && s.sessions[key.session].Unestablished?
  {
  }

  lemma OwnerStays(s: State, a: Action, x: StreamId)
    requires Enabled(s, a) && x in s.fates.owner
    ensures x in Next(s, a).fates.owner && Next(s, a).fates.owner[x] == s.fates.owner[x]
  {
  }

  /** A stream that is not buffered keeps its fate for good. */
  lemma SettledFateStays(s: State, a: Action, x: StreamId, fate: Fate)
    requires Enabled(s, a) && x in s.fates.owner && HasFate(s, x, fate) && fate != IsBuffered
    ensures x in Next(s, a).fates.owner && HasFate(Next(s, a), x, fate)
  {
    OwnerStays(s, a, x);
    hide BufferedFor, AllBuffered, Buffered;
  }

  lemma StaysBuffered(s: State, a: Action, x: StreamId)
    requires Enabled(s, a) && x in s.fates.owner && HasFate(s, x, IsBuffered) && BufferedBecomes(a, s.fates.owner[x].session) == IsBuffered
    ensures x in Next(s, a).fates.owner && HasFate(Next(s, a), x, IsBuffered)
  {
    OwnerStays(s, a, x);
    if a.DoAddStream? {
      hide Arrive, Deliver;
      if Disposition(s, a.key.session) == IsBuffered {
        BufferEffect(s.sessions, a.id, a.key, s.fates.owner[x]);
        hide Buffer;
      }
    }
  }

  lemma BufferedMoves(s: State, a: Action, x: StreamId)
    requires Enabled(s, a) && x in s.fates.owner && HasFate(s, x, IsBuffered)
    ensures x in Next(s, a).fates.owner && HasFate(Next(s, a), x, BufferedBecomes(a, s.fates.owner[x].session))
  {
    OwnerStays(s, a, x);
    InBufferedFor(s, x, s.fates.owner[x]);
    if BufferedBecomes(a, s.fates.owner[x].session) == IsBuffered {
      StaysBuffered(s, a, x);
    } else {
      hide BufferedFor;
      match a
      case DoTimer(_) =>
      case DoAddSession(_) =>
      case DoDeleteSession(_) =>
      case DoClose =>
      case _ =>
    }
  }

  /** What becomes of a stream as it arrives, by the sessions of that moment. */
  lemma ArrivalMoves(s: State, id: StreamId, key: Key)
    requires id !in s.fates.owner
    ensures
      var r := AddStream(s, id, key);
      && id in r.fates.owner && r.fates.owner[id] == key
      && (key.session in s.sessions && s.sessions[key.session].Established? ==> HasFate(r, id, IsDelivered))
      && (key.session in s.sessions && s.sessions[key.session].Unestablished? ==> HasFate(r, id, IsBuffered))
      && (key.session !in s.sessions && key.session in s.recentlyClosed ==> HasFate(r, id, IsRejected))
      && (key.session !in s.sessions && key.session !in s.recentlyClosed ==> HasFate(r, id, IsBuffered))
  {
    if key.session !in s.sessions || s.sessions[key.session].Unestablished? {
      BufferEffect(s.sessions, id, key, key);
    }
    hide Buffer;
  }

  /**
   What each step does to each stream: the timer cancels exactly what is buffered for its
   session, establishing a session delivers exactly that, and the fate of every other
   stream stays. A stream that arrives is passed on to an established session, canceled if
   its session is one of the last sixteen closed and not known again, and else buffered.
   */
  lemma FatesMove(states: seq<State>, actions: seq<Action>, i: nat, x: StreamId)
    requires IsRun(states, actions) && i < |actions|
    ensures
      var s, r, a := states[i], states[i + 1], actions[i];
      && (x in s.fates.owner && HasFate(s, x, IsBuffered) ==>
            && x in r.fates.owner
            && match a
               case DoTimer(id) => HasFate(r, x, if id == s.fates.owner[x].session then IsRejected else IsBuffered)
               case DoAddSession(id) => HasFate(r, x, if id == s.fates.owner[x].session then IsDelivered else IsBuffered)
               case DoDeleteSession(id) => HasFate(r, x, if id == s.fates.owner[x].session then IsDropped else IsBuffered)
               case DoClose => HasFate(r, x, IsDropped)
               case DoAddStream(_, _) => HasFate(r, x, IsBuffered))
      && (forall fate :: x in s.fates.owner && HasFate(s, x, fate) && fate != IsBuffered ==>
            x in r.fates.owner && HasFate(r, x, fate))
      && (a.DoAddStream? && a.id == x ==>
            var id := a.key.session;
            && x in r.fates.owner && r.fates.owner[x] == a.key
            && HasFate(r, x, if id in s.sessions && s.sessions[id].Established? then IsDelivered
                             else if id !in s.sessions && id in LastClosures(s.closures) then IsRejected
                             else IsBuffered))
  {
    RunKeeps(states, actions, i);
    var s, a := states[i], actions[i];
    assert Enabled(s, a) && states[i + 1] == Next(s, a);
    hide Inv, Enabled, Next, HasFate;
    if x in s.fates.owner {
      forall fate | HasFate(s, x, fate) && fate != IsBuffered ensures x in states[i + 1].fates.owner && HasFate(states[i + 1], x, fate) {
        SettledFateStays(s, a, x, fate);
      }
      if HasFate(s, x, IsBuffered) {
        BufferedMoves(s, a, x);
      }
    }
    if a.DoAddStream? && a.id == x {
      ArrivalIs(s, a.id, a.key);
    }
  }

  /** The last sixteen closures. */
  function LastClosures(closures: seq<SessionId>): (r: seq<SessionId>) {
    if |closures| <= 16 then closures else closures[|closures| - 16..]
  }

  lemma ArrivalIs(s: State, id: StreamId, key: Key)
    requires Inv(s) && Enabled(s, DoAddStream(id, key))
    ensures
      var r := Next(s, DoAddStream(id, key));
      && id in r.fates.owner && r.fates.owner[id] == key
      && HasFate(r, id, if key.session in s.sessions && s.sessions[key.session].Established? then IsDelivered
                        else if key.session !in s.sessions && key.session in LastClosures(s.closures) then IsRejected
                        else IsBuffered)
  {
    hide FatesOk, SessionsOk, AddStream, HasFate;
    ArrivalMoves(s, id, key);
  }

  /**
   In every run: a timer that fires late leaves an established session alone; the
   closed list is exactly the last sixteen closures; and a server connection without
   flow control never has two sessions at once.
   */
  lemma SessionsAreKept(states: seq<State>, actions: seq<Action>, i: nat)
    requires IsRun(states, actions) && i < |states|
    ensures
      var s := states[i];
      && (forall id :: id in s.sessions && s.sessions[id].Established? ==> OnTimer(s, id) == s)
      && RecentOk(s)
      && (!s.closed ==> forall id :: id in s.running <==> id in s.sessions && s.sessions[id].Established?)
      && (s.guarded ==> forall a, b :: IsEstablished(s.sessions, a) && IsEstablished(s.sessions, b) ==> a == b)
  {
    RunKeeps(states, actions, i);
  }

  lemma Extend(states: seq<State>, actions: seq<Action>, a: Action) returns (more: seq<State>, done: seq<Action>)
    requires IsRun(states, actions) && Enabled(states[|states| - 1], a)
    ensures IsRun(more, done) && more[|more| - 1] == Next(states[|states| - 1], a)
  {
    hide Next;
    more, done := states + [Next(states[|states| - 1], a)], actions + [a];
  }

  /**
   Closing the manager is what makes dropping possible: a stream that arrives between
   the manager's close and the end of its session is buffered, and dropped without
   being canceled when that end is handled.
   */
  lemma DroppedAfterClose() returns (states: seq<State>, actions: seq<Action>)
    ensures IsRun(states, actions) && 7 in states[|states| - 1].fates.dropped
  {
    states, actions := [Init(false)], [];
    assert IsRun(states, actions);
    hide IsRun;
    states, actions := Extend(states, actions, DoAddSession(4));
    states, actions := Extend(states, actions, DoClose);
    states, actions := Extend(states, actions, DoAddStream(7, Key(4, false)));
    assert Buffered(states[|states| - 1].sessions, Key(4, false)) == [7];
    states, actions := Extend(states, actions, DoDeleteSession(4));
  }

  /**
   Exactly when handling a session's end drops streams: when an entry with buffered
   streams has taken the session's place, which takes a close of the manager.
   */
  lemma DeletionDropsIff(states: seq<State>, actions: seq<Action>, i: nat, id: SessionId)
    requires IsRun(states, actions) && i < |states| && id in states[i].running
    ensures
      var s := states[i];
      && (DeleteSession(s, id).fates == s.fates <==> BufferedFor(s, id) == {})
      && (!s.closed ==> BufferedFor(s, id) == {})
      && (BufferedFor(s, id) != {} ==> id in s.sessions && s.sessions[id].Unestablished?)
  {
    RunKeeps(states, actions, i);
    var s := states[i];
    if BufferedFor(s, id) != {} {
      var x :| x in BufferedFor(s, id);
      BufferedFacts(s, id, x);
    }
  }
}
