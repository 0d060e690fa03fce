/** The session's data flow controllers: credit to send, and credit given to the peer. */
module FlowControl {
  import opened Common

  // ---------- sending ----------

  /** A channel that UpdateMaxData closes and replaces is known by its generation. */
  datatype Outgoing = Outgoing(maxData: int, bytesSent: int, lastBlockedAt: int, generation: nat)

  function NewOutgoing(maxData: int): (f: Outgoing) {
    Outgoing(maxData, 0, -1, 0)
  }

  /** How many of `n` bytes AddBytesSent grants. */
  function Granted(f: Outgoing, n: nat): (added: nat) {
    if f.bytesSent < f.maxData then Min(n, f.maxData - f.bytesSent) else 0
  }

  function AfterBytesSent(f: Outgoing, n: nat): (r: Outgoing) {
    f.(bytesSent := f.bytesSent + Granted(f, n))
  }

  predicate NewlyBlocked(f: Outgoing) {
    !(f.bytesSent < f.maxData || f.maxData == f.lastBlockedAt)
  }

  function MarkBlocked(f: Outgoing): (r: Outgoing) {
    if NewlyBlocked(f) then f.(lastBlockedAt := f.maxData) else f
  }

  predicate Increases(f: Outgoing, maxData: int) {
    maxData > f.maxData
  }

  function AfterUpdate(f: Outgoing, maxData: int): (r: Outgoing) {
    if Increases(f, maxData) then f.(maxData := maxData, generation := f.generation + 1) else f
  }

  /** Grants never exceed the limit; a grant that falls short has used it up. */
  lemma GrantWithinLimit(f: Outgoing, n: nat)
    requires f.bytesSent <= f.maxData
    ensures AfterBytesSent(f, n).bytesSent <= f.maxData
    ensures Granted(f, n) <= n
    ensures Granted(f, n) < n ==> AfterBytesSent(f, n).bytesSent == f.maxData
  {
  }

  class OutgoingController {
    var maxData: int
    var bytesSent: int
    var lastBlockedAt: int
    var updated: nat         // the generation of the channel handed out by NextUpdate

    ghost function State(): Outgoing
      reads this
    {
      Outgoing(maxData, bytesSent, lastBlockedAt, updated)
    }

    constructor (limit: int)
      ensures State() == NewOutgoing(limit)
      ensures maxData == limit && bytesSent == 0 && lastBlockedAt == -1
    {
      maxData, bytesSent, lastBlockedAt, updated := limit, 0, -1, 0;
    }

    method AddBytesSent(n: nat) returns (added: nat)
      modifies this
      ensures State() == AfterBytesSent(old(State()), n)
      ensures added == Granted(old(State()), n)
      ensures added == if old(bytesSent) >= maxData then 0 else if n <= maxData - old(bytesSent) then n else maxData - old(bytesSent)
      ensures bytesSent == old(bytesSent) + added && unchanged(`maxData, `lastBlockedAt, `updated)
    {
      added := 0;
      if bytesSent < maxData {
        added := Min(n, maxData - bytesSent);
      }
      bytesSent := bytesSent + added;
    }

    method IsNewlyBlocked() returns (blocked: bool, limit: int)
      modifies this
      ensures State() == MarkBlocked(old(State()))
      ensures blocked == NewlyBlocked(old(State())) && (blocked ==> limit == maxData)
      ensures blocked <==> bytesSent >= maxData && old(lastBlockedAt) != maxData
      ensures lastBlockedAt == (if blocked then maxData else old(lastBlockedAt)) && unchanged(`maxData, `bytesSent, `updated)
    {
      if bytesSent < maxData || maxData == lastBlockedAt {
        return false, 0;
      }
      lastBlockedAt := maxData;
      return true, maxData;
    }

    method UpdateMaxData(limit: int) returns (ok: bool)
      modifies this
      ensures State() == AfterUpdate(old(State()), limit)
      ensures ok == Increases(old(State()), limit)
      ensures ok <==> limit > old(maxData)
      ensures maxData == (if ok then limit else old(maxData)) && updated == (if ok then old(updated) + 1 else old(updated))
      ensures unchanged(`bytesSent, `lastBlockedAt)
    {
      if limit <= maxData {
        return false;
      }
      maxData := limit;
      updated := updated + 1;
      return true;
    }
  }

  // ---------- receiving ----------

  datatype Incoming = Incoming(
    bytesRead: nat,
    maxData: int,
    receiveWindow: int,
    updates: seq<int>        // history: limits passed to queueWindowUpdate
  )

  function NewIncoming(bytesRead: nat, maxData: int): (f: Incoming) {
    Incoming(bytesRead, maxData, maxData - bytesRead, [])
  }

  /** Whether AddBytesRead accepts the bytes. */
  predicate Accepts(f: Incoming, n: nat) {
    n <= f.maxData - f.bytesRead
  }

  /** The window is at least 0, so dividing it rounds the way the program's division does. */
  function AfterBytesRead(f: Incoming, n: nat): (r: Incoming) {
    if !Accepts(f, n) then f
    else
      var t := f.(bytesRead := f.bytesRead + n);
      if t.maxData - t.bytesRead > t.receiveWindow - t.receiveWindow / 4 then t
      else if t.bytesRead + t.receiveWindow == t.maxData then t
      else t.(maxData := t.bytesRead + t.receiveWindow, updates := t.updates + [t.bytesRead + t.receiveWindow])
  }

  /** The credit left for the peer stays between three quarters of the window, rounded up, and the window. */
  ghost predicate WindowOk(f: Incoming) {
    && f.receiveWindow >= 0
    && f.receiveWindow - f.receiveWindow / 4 <= f.maxData - f.bytesRead <= f.receiveWindow
    && StrictlyIncreasing(f.updates)
    && (f.updates != [] ==> f.updates[|f.updates| - 1] == f.maxData)
  }

  /** Every accepted read leaves the window in its bounds; an update, if any, is one more, and larger than the limit before. */
  lemma WindowKept(f: Incoming, n: nat)
    requires WindowOk(f)
    ensures WindowOk(AfterBytesRead(f, n))
    ensures f.maxData <= AfterBytesRead(f, n).maxData
    ensures
      var r := AfterBytesRead(f, n);
      || (r.updates == f.updates && r.maxData == f.maxData)
      || (r.updates == f.updates + [r.maxData] && f.maxData < r.maxData)
  {
    var r := AfterBytesRead(f, n);
    if r.updates != f.updates {
      assert forall i :: 0 <= i < |f.updates| ==> f.updates[i] <= f.maxData;
    }
  }

  /**
   The new limit is not capped: exactly when a read that is accepted uses up a quarter of
   the window, and bytes read and window together are too large for a varint, so is it.
   */
  lemma LimitTooLargeIff(f: Incoming, n: nat)
    requires WindowOk(f) && f.maxData <= VARINT_MAX
    ensures AfterBytesRead(f, n).maxData > VARINT_MAX <==>
      && n <= f.maxData - f.bytesRead
      && f.maxData - f.bytesRead - n <= f.receiveWindow - f.receiveWindow / 4
      && f.bytesRead + n + f.receiveWindow > VARINT_MAX
  {
  }

  /** A quarter of the largest window. */
  const QUARTER_WINDOW: nat := (VARINT_MAX + 1) / 4

  /** With the largest window that can be configured, a quarter of it read asks for a limit that no varint holds. */
  lemma LargestWindowOverflows()
    ensures
      var f := NewIncoming(0, VARINT_MAX);
      WindowOk(f) && Accepts(f, QUARTER_WINDOW) && AfterBytesRead(f, QUARTER_WINDOW).maxData > VARINT_MAX
  {
  }

  class IncomingController {
    var bytesRead: nat
    var maxData: int
    const receiveWindow: int
    var updates: seq<int>    // limits passed to queueWindowUpdate

    ghost function State(): Incoming
      reads this
    {
      Incoming(bytesRead, maxData, receiveWindow, updates)
    }

    constructor (read: nat, limit: int)
      ensures State() == NewIncoming(read, limit)
      ensures bytesRead == read && maxData == limit && receiveWindow == limit - read && updates == []
    {
      bytesRead, maxData, receiveWindow, updates := read, limit, limit - read, [];
    }

    method AddBytesRead(n: nat) returns (ok: bool)
      modifies this
      ensures State() == AfterBytesRead(old(State()), n)
      ensures ok == Accepts(old(State()), n)
      ensures ok <==> n <= old(maxData) - old(bytesRead)
      ensures bytesRead == old(bytesRead) + if ok then n else 0
      ensures
        var raises := ok && old(maxData) - bytesRead <= receiveWindow - receiveWindow / 4 && bytesRead + receiveWindow != old(maxData);
        && maxData == (if raises then bytesRead + receiveWindow else old(maxData))
        && updates == (if raises then old(updates) + [maxData] else old(updates))
    {
      if n > maxData - bytesRead {
        return false;
      }
      bytesRead := bytesRead + n;
      if maxData - bytesRead > receiveWindow - receiveWindow / 4 {
        return true;
      }
      var limit := bytesRead + receiveWindow;
      if limit == maxData {
        return true;
      }
      maxData := limit;
      updates := updates + [limit];
      return true;
    }
  }
}
