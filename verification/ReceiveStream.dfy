/**
 What a receiving stream charges to the session's flow control: bytes as they are
 read, or everything at once when QUIC learns the stream's final size. Reads and the
 final-size callback race.
 */
module ReceiveStream {
  import opened Common

  datatype State = State(
    header: nat,             // the stream header's length
    bytesRead: nat,          // QUIC bytes accounted for, header included
    finalSizeKnown: bool,
    consumed: nat,           // QUIC bytes handed out so far, header included
    inRead: seq<nat>,        // Read calls that got bytes from QUIC and have not locked yet
    charges: seq<nat>,       // amounts about to be passed to AddBytesRead
    charged: nat             // history: amounts passed to AddBytesRead
  )

  function Init(header: nat): (s: State) {
    State(header, header, false, header, [], [], 0)
  }

  /** str.Read returns n bytes. */
  function Consume(s: State, n: nat): (r: State) {
    s.(consumed := s.consumed + n, inRead := s.inRead + [n])
  }

  /** addBytesRead ignores an empty amount. */
  function Owe(s: State, n: nat): (r: State) {
    if n == 0 then s else s.(charges := s.charges + [n])
  }

  /** Read's critical section. */
  function Account(s: State, i: nat): (r: State)
    requires i < |s.inRead|
  {
    var n := s.inRead[i];
    var t := s.(inRead := Drop(s.inRead, i));
    if s.finalSizeKnown then t else Owe(t.(bytesRead := t.bytesRead + n), n)
  }

  /** onReceiveFinalSize's critical section. */
  function FinalSize(s: State, size: nat): (r: State)
    requires size >= s.bytesRead
  {
    Owe(s.(bytesRead := size, finalSizeKnown := true), size - s.bytesRead)
  }

  /** AddBytesRead for an amount owed. */
  function Charge(s: State, i: nat): (r: State)
    requires i < |s.charges|
  {
    s.(charges := Drop(s.charges, i), charged := s.charged + s.charges[i])
  }

  datatype Action = DoConsume(n: nat) | DoAccount(i: nat) | DoFinalSize(size: nat) | DoCharge(i: nat)

  /** QUIC reports a final size no smaller than what it handed out, and never a different one (section 4.5 of RFC 9000). */
  predicate Enabled(s: State, a: Action) {
    match a
    case DoConsume(n) => s.finalSizeKnown ==> s.consumed + n <= s.bytesRead
    case DoAccount(i) => i < |s.inRead|
    case DoFinalSize(size) => size >= s.consumed && (s.finalSizeKnown ==> size == s.bytesRead) && size >= s.bytesRead
    case DoCharge(i) => i < |s.charges|
  }

  function Next(s: State, a: Action): (r: State)
    requires Enabled(s, a)
  {
    match a
    case DoConsume(n) => Consume(s, n)
    case DoAccount(i) => Account(s, i)
    case DoFinalSize(size) => FinalSize(s, size)
    case DoCharge(i) => Charge(s, i)
  }

  /** Charged plus still owed is what was accounted for; what is not accounted for is in Read calls, or settled by the final size. */
  ghost predicate Inv(s: State) {
    && s.header <= s.bytesRead
    && s.charged + Sum(s.charges) == s.bytesRead - s.header
    && (!s.finalSizeKnown ==> s.bytesRead + Sum(s.inRead) == s.consumed)
    && (s.finalSizeKnown ==> s.consumed <= s.bytesRead)
  }

  lemma OweKeeps(s: State, n: nat)
    ensures Sum(Owe(s, n).charges) == Sum(s.charges) + n
  {
    SumAppend(s.charges, n);
  }

  lemma StepKeeps(s: State, a: Action)
    requires Inv(s) && Enabled(s, a)
    ensures Inv(Next(s, a))
  {
    match a
    case DoConsume(n) => SumAppend(s.inRead, n);
    case DoAccount(i) =>
      SumDrop(s.inRead, i);
      OweKeeps(s, s.inRead[i]);
    case DoFinalSize(size) => OweKeeps(s, size - s.bytesRead);
    case DoCharge(i) => SumDrop(s.charges, i);
  }

  ghost predicate IsRun(states: seq<State>, actions: seq<Action>) {
    && |states| == |actions| + 1
    && (exists header: nat :: states[0] == Init(header))
    && forall i :: 0 <= i < |actions| ==> Enabled(states[i], actions[i]) && states[i + 1] == Next(states[i], actions[i])
  }

  lemma {:induction false} RunKeeps(states: seq<State>, actions: seq<Action>, i: nat)
    requires IsRun(states, actions) && i < |states|
    ensures Inv(states[i])
  {
    if i > 0 {
      RunKeeps(states, actions, i - 1);
      StepKeeps(states[i - 1], actions[i - 1]);
    }
  }

  /**
   In every interleaving: charged plus owed is what was accounted for without the
   header, and never more than the bytes that left QUIC or will. After the final
   size is known and the charges are through, the stream has contributed exactly
   its final size without the header, whatever Read calls were under way.
   */
  lemma ChargedExactlyOnce(states: seq<State>, actions: seq<Action>, i: nat)
    requires IsRun(states, actions) && i < |states|
    ensures
      var s := states[i];
      && s.charged + Sum(s.charges) == s.bytesRead - s.header
      && (s.finalSizeKnown && s.charges == [] ==> s.charged == s.bytesRead - s.header)
      && (!s.finalSizeKnown && s.charges == [] && s.inRead == [] ==> s.charged == s.consumed - s.header)
  {
    RunKeeps(states, actions, i);
  }

  /** What Read calls got from QUIC, by the actions. */
  ghost function ConsumedBy(actions: seq<Action>): nat {
    if actions == [] then 0
    else
      var last := actions[|actions| - 1];
      ConsumedBy(actions[..|actions| - 1]) + if last.DoConsume? then last.n else 0
  }

  /**
   Until the final size is known, what Read calls got is what is charged, owed, or about
   to be accounted for.
   */
  lemma {:induction false} ReadsAreCharged(states: seq<State>, actions: seq<Action>, i: nat)
    requires IsRun(states, actions) && i < |states|
    ensures states[i].consumed == states[i].header + ConsumedBy(actions[..i])
    ensures !states[i].finalSizeKnown ==>
      states[i].charged + Sum(states[i].charges) + Sum(states[i].inRead) == ConsumedBy(actions[..i])
  {
    RunKeeps(states, actions, i);
    if i > 0 {
      ReadsAreCharged(states, actions, i - 1);
      assert actions[..i][..i - 1] == actions[..i - 1];
      assert states[i] == Next(states[i - 1], actions[i - 1]);
    }
  }

  /** Once the final size was reported, the stream's contribution is settled, whatever comes later. */
  lemma {:induction false} FinalSizeSettles(states: seq<State>, actions: seq<Action>, i: nat, j: nat)
    requires IsRun(states, actions) && i < j < |states| && actions[i].DoFinalSize?
    ensures
      var s := states[j];
      && s.finalSizeKnown && s.bytesRead == actions[i].size
      && s.charged + Sum(s.charges) == actions[i].size - s.header
  {
    RunKeeps(states, actions, j);
    assert states[j] == Next(states[j - 1], actions[j - 1]);
    if i < j - 1 {
      FinalSizeSettles(states, actions, i, j - 1);
    }
  }

  /** The stream's accounting fields, as the program updates them under flowControlMx. */
  class Stream {
    var bytesRead: nat
    var finalSizeKnown: bool

    ghost var now: State

    ghost predicate Valid()
      reads this
    {
      Inv(now) && now.bytesRead == bytesRead && now.finalSizeKnown == finalSizeKnown
    }

    constructor (headerLen: nat)
      ensures Valid() && now == Init(headerLen)
      ensures bytesRead == headerLen && !finalSizeKnown
    {
      bytesRead, finalSizeKnown := headerLen, false;
      now := Init(headerLen);
    }

    /** Read, after n bytes came from QUIC: the amount to charge. */
    method Read(n: nat, ghost i: nat) returns (newlyRead: nat)
      requires Valid() && i < |now.inRead| && now.inRead[i] == n
      modifies this
      ensures Valid() && now == Account(old(now), i)
      ensures now.charges == Owe(old(now), newlyRead).charges
      ensures newlyRead == if old(finalSizeKnown) then 0 else n
      ensures bytesRead == old(bytesRead) + newlyRead && finalSizeKnown == old(finalSizeKnown)
    {
      StepKeeps(now, DoAccount(i));
      now := Account(now, i);
      newlyRead := n;
      if !finalSizeKnown {
        bytesRead := bytesRead + newlyRead;
      } else {
        newlyRead := 0;
      }
    }

    method OnReceiveFinalSize(size: nat) returns (n: nat)
      requires Valid() && Enabled(now, DoFinalSize(size))
      modifies this
      ensures Valid() && now == FinalSize(old(now), size)
      ensures now.charges == Owe(old(now), n).charges
      ensures n == size - old(bytesRead) && bytesRead == size && finalSizeKnown
    {
      StepKeeps(now, DoFinalSize(size));
      now := FinalSize(now, size);
      n := size - bytesRead;
      bytesRead := size;
      finalSizeKnown := true;
    }
  }
}
