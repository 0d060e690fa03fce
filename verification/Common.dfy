/** Types shared by the models of the session's components. */
module Common {

  datatype Option<+T> = None | Some(value: T)

  type Byte = x: nat | x < 256

  /** The errors that travel through the session: what closes it and what calls return. */
  datatype Error =
    | SessionError(remote: bool, sessionCode: nat, message: seq<Byte>)
    | Http3Error(httpCode: nat)
    | QuicStreamError(quicCode: nat, fromPeer: bool)
    | ContextDone
    | StreamLimitReached
    | OtherError(tag: nat)

  type StreamId = nat

  /** 2^60: the largest stream count a WT_MAX_STREAMS capsule may carry. */
  const MAX_STREAMS_LIMIT: nat := 0x1000_0000_0000_0000

  /** 2^62 - 1: the largest integer a QUIC varint can carry. */
  const VARINT_MAX: nat := 0x3FFF_FFFF_FFFF_FFFF

  const WT_FLOW_CONTROL_ERROR: nat := 0x045d4487

  function Min(a: int, b: int): (r: int) {
    if a <= b then a else b
  }

  ghost predicate NoDuplicates<T>(s: seq<T>) {
    forall i, j :: 0 <= i < j < |s| ==> s[i] != s[j]
  }

  ghost predicate StrictlyIncreasing(s: seq<int>) {
    forall i, j :: 0 <= i < j < |s| ==> s[i] < s[j]
  }

  /** `s` without the occurrences of `x`, in order. */
  function Without<T(==, !new)>(s: seq<T>, x: T): (r: seq<T>)
    ensures forall y :: y in r <==> y in s && y != x
    ensures |r| <= |s|
  {
    if s == [] then []
    else if s[|s| - 1] == x then Without(s[..|s| - 1], x)
    else Without(s[..|s| - 1], x) + [s[|s| - 1]]
  }

  /** `s` without the members of `gone`, in order. */
  ghost function Excluding<T(!new)>(s: seq<T>, gone: set<T>): (r: seq<T>)
    ensures forall y :: y in r <==> y in s && y !in gone
  {
    if s == [] then []
    else if s[|s| - 1] in gone then Excluding(s[..|s| - 1], gone)
    else Excluding(s[..|s| - 1], gone) + [s[|s| - 1]]
  }

  lemma {:induction false} WithoutAbsent<T(!new)>(s: seq<T>, x: T)
    requires x !in s
    ensures Without(s, x) == s
  {
    if s != [] {
      WithoutAbsent(s[..|s| - 1], x);
    }
  }

  lemma {:induction false} WithoutConcat<T(!new)>(s: seq<T>, t: seq<T>, x: T)
    ensures Without(s + t, x) == Without(s, x) + Without(t, x)
  {
    if t == [] {
      assert s + t == s;
    } else {
      assert (s + t)[..|s + t| - 1] == s + t[..|t| - 1];
      WithoutConcat(s, t[..|t| - 1], x);
    }
  }

  lemma {:induction false} WithoutHead<T(!new)>(s: seq<T>)
    requires s != [] && NoDuplicates(s)
    ensures Without(s, s[0]) == s[1..]
  {
    assert s == [s[0]] + s[1..];
    WithoutConcat([s[0]], s[1..], s[0]);
    WithoutAbsent(s[1..], s[0]);
  }

  lemma {:induction false} WithoutKeepsNoDuplicates<T(!new)>(s: seq<T>, x: T)
    requires NoDuplicates(s)
    ensures NoDuplicates(Without(s, x))
  {
    if s != [] {
      var rest := s[..|s| - 1];
      WithoutKeepsNoDuplicates(rest, x);
      assert s[|s| - 1] !in rest;
      assert s[|s| - 1] !in Without(rest, x);
    }
  }

  /** Removing an element other than the first leaves the first where it is. */
  lemma {:induction false} WithoutKeepsHead<T(!new)>(s: seq<T>, x: T)
    requires s != [] && s[0] != x
    ensures Without(s, x) != [] && Without(s, x)[0] == s[0]
  {
    assert s == [s[0]] + s[1..];
    WithoutConcat([s[0]], s[1..], x);
    WithoutAbsent([s[0]], x);
  }

  lemma ExcludingAppend<T(!new)>(s: seq<T>, x: T, gone: set<T>)
    ensures Excluding(s + [x], gone) == if x in gone then Excluding(s, gone) else Excluding(s, gone) + [x]
  {
    assert (s + [x])[..|s|] == s;
  }

  /** Excluding one more element is removing it from what was left. */
  lemma {:induction false} ExcludingOneMore<T(!new)>(s: seq<T>, x: T, gone: set<T>)
    ensures Excluding(s, gone + {x}) == Without(Excluding(s, gone), x)
  {
    if s != [] {
      ExcludingOneMore(s[..|s| - 1], x, gone);
      var rest := Excluding(s[..|s| - 1], gone);
      var last := s[|s| - 1];
      WithoutConcat(rest, [last], x);
      assert Without([last], x) == if last == x then [] else [last] by {
        assert [last][..0] == [];
      }
    }
  }

  // ---------- limits that only grow ----------

  /** Limits, such as those on their way to a peer: each above the one before, above `arrived`, up to `published`. */
  ghost predicate Ascending(arrived: int, flight: seq<int>, published: int) {
    && StrictlyIncreasing(flight)
    && (forall l :: l in flight ==> arrived < l <= published)
    && arrived <= published
  }

  lemma AscendingGrows(arrived: int, flight: seq<int>, published: int, limit: int)
    requires Ascending(arrived, flight, published) && published < limit
    ensures Ascending(arrived, flight + [limit], limit)
  {
    assert forall i :: 0 <= i < |flight| ==> flight[i] in flight;
  }

  lemma AscendingShrinks(arrived: int, flight: seq<int>, published: int)
    requires Ascending(arrived, flight, published) && flight != []
    ensures arrived < flight[0]
    ensures Ascending(flight[0], flight[1..], published) && Ascending(arrived, flight[1..], published)
    ensures Ascending(arrived, flight[..|flight| - 1], published)
  {
    assert forall i :: 0 <= i < |flight| ==> flight[i] in flight;
  }

  // ---------- sums ----------

  ghost function Sum(s: seq<nat>): nat {
    if s == [] then 0 else s[0] + Sum(s[1..])
  }

  /** `s` without the element at position `i`. */
  function Drop<T>(s: seq<T>, i: nat): (r: seq<T>)
    requires i < |s|
  {
    s[..i] + s[i + 1..]
  }

  lemma {:induction false} SumConcat(s: seq<nat>, t: seq<nat>)
    ensures Sum(s + t) == Sum(s) + Sum(t)
  {
    if s == [] {
      assert s + t == t;
    } else {
      assert (s + t)[1..] == s[1..] + t;
      SumConcat(s[1..], t);
    }
  }

  lemma SumDrop(s: seq<nat>, i: nat)
    requires i < |s|
    ensures Sum(Drop(s, i)) == Sum(s) - s[i]
  {
    var front, x, rest := s[..i], s[i], s[i + 1..];
    assert s == front + ([x] + rest);
    SumSingle(x);
    hide Sum;
    SumConcat(front, [x] + rest);
    SumConcat([x], rest);
    SumConcat(front, rest);
  }

  lemma SumSingle(x: nat)
    ensures Sum([x]) == x
  {
    assert [x][1..] == [];
  }

  lemma SumUpdate(s: seq<nat>, i: nat, x: nat)
    requires i < |s|
    ensures Sum(s[i := x]) == Sum(s) - s[i] + x
  {
    SumDrop(s, i);
    SumDrop(s[i := x], i);
    assert Drop(s[i := x], i) == Drop(s, i);
  }

  lemma {:induction false} SumMonotone(s: seq<nat>, t: seq<nat>)
    requires |s| == |t| && forall i :: 0 <= i < |s| ==> s[i] <= t[i]
    ensures Sum(s) <= Sum(t)
  {
    if s != [] {
      SumMonotone(s[1..], t[1..]);
    }
  }

  lemma SumAppend(s: seq<nat>, x: nat)
    ensures Sum(s + [x]) == Sum(s) + x
  {
    SumConcat(s, [x]);
  }
}
