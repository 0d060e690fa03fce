/**
 The capsules of the CONNECT stream: encoding (section 3.2 of RFC 9297) and parsing,
 which skips unknown capsules.
 */
module Capsule {
  import opened Common
  import Varint
  import Utf8

  const CLOSE_SESSION: nat := 0x2843
  const MAX_DATA: nat := 0x190b4d3d
  const MAX_STREAM_DATA: nat := 0x190b4d3e
  const MAX_STREAMS_BIDI: nat := 0x190b4d3f
  const MAX_STREAMS_UNI: nat := 0x190b4d40
  const DATA_BLOCKED: nat := 0x190b4d41
  const STREAM_DATA_BLOCKED: nat := 0x190b4d42
  const STREAMS_BLOCKED_BIDI: nat := 0x190b4d43
  const STREAMS_BLOCKED_UNI: nat := 0x190b4d44

  const MAX_CLOSE_MESSAGE_LEN: nat := 1024

  type ErrorCode = n: nat | n < 0x1_0000_0000
  type StreamCount = n: nat | n <= MAX_STREAMS_LIMIT

  datatype Capsule =
    | CloseSession(code: ErrorCode, message: seq<Byte>)
    | MaxData(maxData: Varint.VarInt)
    | MaxStreamsBidi(maxStreams: StreamCount)
    | MaxStreamsUni(maxStreams: StreamCount)
    | DataBlocked(maxData: Varint.VarInt)
    | StreamsBlockedBidi(maxStreams: StreamCount)
    | StreamsBlockedUni(maxStreams: StreamCount)

  // ---------- encoding ----------

  function TypeOf(c: Capsule): (t: nat) {
    match c
    case CloseSession(_, _) => CLOSE_SESSION
    case MaxData(_) => MAX_DATA
    case MaxStreamsBidi(_) => MAX_STREAMS_BIDI
    case MaxStreamsUni(_) => MAX_STREAMS_UNI
    case DataBlocked(_) => DATA_BLOCKED
    case StreamsBlockedBidi(_) => STREAMS_BLOCKED_BIDI
    case StreamsBlockedUni(_) => STREAMS_BLOCKED_UNI
  }

  function Payload(c: Capsule): (b: seq<Byte>)
    ensures |b| <= 4 + MAX_CLOSE_MESSAGE_LEN
  {
    match c
    case CloseSession(code, message) =>
      Varint.BigEndian(code, 4) + Utf8.Truncated(message, MAX_CLOSE_MESSAGE_LEN)
    case MaxData(v) => Varint.Encode(v)
    case DataBlocked(v) => Varint.Encode(v)
    case MaxStreamsBidi(v) => Varint.Encode(v)
    case MaxStreamsUni(v) => Varint.Encode(v)
    case StreamsBlockedBidi(v) => Varint.Encode(v)
    case StreamsBlockedUni(v) => Varint.Encode(v)
  }

  function Frame(typ: Varint.VarInt, payload: seq<Byte>): (b: seq<Byte>)
    requires |payload| <= VARINT_MAX
  {
    Varint.Encode(typ) + Varint.Encode(|payload|) + payload
  }

  /** Append to an empty slice. */
  function Append(c: Capsule): (b: seq<Byte>) {
    Frame(TypeOf(c), Payload(c))
  }

  /** What is left of a capsule on the wire: a close message is cut to its limit. */
  function AsSent(c: Capsule): (r: Capsule) {
    match c
    case CloseSession(code, message) => CloseSession(code, Utf8.Truncated(message, MAX_CLOSE_MESSAGE_LEN))
    case _ => c
  }

  // ---------- parsing ----------

  datatype Content = Known(c: Capsule) | Skip | Bad

  function OneVarint(payload: seq<Byte>): (r: Option<Varint.VarInt>) {
    match Varint.Decode(payload)
    case None => None
    case Some((v, n)) =>
      if |payload| != n then None
      else
        Varint.DecodedInRange(payload);
        Some(v)
  }

  function OneCount(payload: seq<Byte>): (r: Option<StreamCount>) {
    match OneVarint(payload)
    case None => None
    case Some(v) => if v > MAX_STREAMS_LIMIT then None else Some(v)
  }

  function ParseClose(payload: seq<Byte>): (r: Content) {
    if |payload| < 4 then Bad
    else
      Varint.Powers();
      Varint.FirstByte(payload[..4]);
      var message := payload[4..];
      Known(CloseSession(Varint.Value(payload[..4]),
                         if |message| <= MAX_CLOSE_MESSAGE_LEN then message else message[..MAX_CLOSE_MESSAGE_LEN]))
  }

  /** The switch of parseNextCapsule. */
  function ParseContent(typ: nat, payload: seq<Byte>): (r: Content) {
    var v := OneVarint(payload);
    var n := OneCount(payload);
    if typ == CLOSE_SESSION then ParseClose(payload)
    else if typ == MAX_DATA then (if v.Some? then Known(MaxData(v.value)) else Bad)
    else if typ == MAX_STREAM_DATA then Bad
    else if typ == MAX_STREAMS_BIDI then (if n.Some? then Known(MaxStreamsBidi(n.value)) else Bad)
    else if typ == MAX_STREAMS_UNI then (if n.Some? then Known(MaxStreamsUni(n.value)) else Bad)
    else if typ == DATA_BLOCKED then (if v.Some? then Known(DataBlocked(v.value)) else Bad)
    else if typ == STREAM_DATA_BLOCKED then Bad
    else if typ == STREAMS_BLOCKED_BIDI then (if n.Some? then Known(StreamsBlockedBidi(n.value)) else Bad)
    else if typ == STREAMS_BLOCKED_UNI then (if n.Some? then Known(StreamsBlockedUni(n.value)) else Bad)
    else Skip
  }

  datatype Unframed = Unframed(typ: nat, payload: seq<Byte>, rest: seq<Byte>)

  /** The capsule the input begins with, if the input holds all of it. */
  function NextFrame(input: seq<Byte>): (r: Option<Unframed>)
    ensures r.Some? ==> |r.value.rest| < |input|
  {
    match Varint.Decode(input)
    case None => None
    case Some((typ, n)) =>
      match Varint.Decode(input[n..])
      case None => None
      case Some((len, k)) =>
        var body := input[n..][k..];
        if |body| < len then None else Some(Unframed(typ, body[..len], body[len..]))
  }

  datatype Parsed = Capsule(c: Capsule, rest: seq<Byte>) | Failure

  /** parseNextCapsule */
  function ParseNext(input: seq<Byte>): (r: Parsed)
    ensures r.Capsule? ==> |r.rest| < |input|
    decreases |input|
  {
    match NextFrame(input)
    case None => Failure
    case Some(f) =>
      match ParseContent(f.typ, f.payload)
      case Known(c) => Capsule(c, f.rest)
      case Skip => ParseNext(f.rest)
      case Bad => Failure
  }

  /** The capsules readFromConnectStream sees before its parser fails. */
  function ParseAll(input: seq<Byte>): (r: seq<Capsule>)
    decreases |input|
  {
    match ParseNext(input)
    case Failure => []
    case Capsule(c, rest) => [c] + ParseAll(rest)
  }

  /** The parser as the program runs it: a loop over a reader that it advances. */
  class Parser {
    var input: seq<Byte>

    constructor (bytes: seq<Byte>)
      ensures input == bytes
    {
      input := bytes;
    }

    method ParseNextCapsule() returns (c: Option<Capsule>)
      modifies this
      ensures c.Some? <==> ParseNext(old(input)).Capsule?
      ensures c.Some? ==> ParseNext(old(input)) == Capsule(c.value, input)
    {
      while true
        invariant ParseNext(input) == ParseNext(old(input))
        decreases |input|
      {
        var frame := NextFrame(input);
        if frame.None? {
          return None;
        }
        input := frame.value.rest;
        match ParseContent(frame.value.typ, frame.value.payload)
        case Known(k) => return Some(k);
        case Bad => return None;
        case Skip =>
      }
    }
  }

  // ---------- round trip ----------

  lemma FrameReadBack(typ: Varint.VarInt, payload: seq<Byte>, rest: seq<Byte>)
    requires |payload| <= VARINT_MAX
    ensures NextFrame(Frame(typ, payload) + rest) == Some(Unframed(typ, payload, rest))
  {
    var head, len := Varint.Encode(typ), Varint.Encode(|payload|);
    var input := Frame(typ, payload) + rest;
    assert input == head + (len + payload + rest);
    Varint.RoundTrip(typ, len + payload + rest);
    assert input[|head|..] == len + (payload + rest);
    Varint.RoundTrip(|payload|, payload + rest);
    assert input[|head|..][|len|..] == payload + rest;
  }

  lemma PayloadReadBack(c: Capsule)
    ensures ParseContent(TypeOf(c), Payload(c)) == Known(AsSent(c))
  {
    if c.CloseSession? {
      var message := Utf8.Truncated(c.message, MAX_CLOSE_MESSAGE_LEN);
      Varint.Powers();
      Varint.BigEndianRoundTrip(c.code, 4);
      assert Payload(c)[..4] == Varint.BigEndian(c.code, 4);
      assert Payload(c)[4..] == message;
    } else {
      var v: Varint.VarInt := if c.MaxData? || c.DataBlocked? then c.maxData else c.maxStreams;
      Varint.RoundTrip(v, []);
      assert Varint.Encode(v) + [] == Varint.Encode(v);
    }
  }

  lemma CapsuleReadBack(c: Capsule, rest: seq<Byte>)
    ensures ParseNext(Append(c) + rest) == Capsule(AsSent(c), rest)
  {
    FrameReadBack(TypeOf(c), Payload(c), rest);
    PayloadReadBack(c);
  }

  /** A close message of any length is read up to 1024 bytes, and what is left of it is skipped. */
  lemma LongCloseIsCut(code: ErrorCode, message: seq<Byte>, rest: seq<Byte>)
    requires |message| <= VARINT_MAX - 4
    ensures
      var kept := if |message| <= MAX_CLOSE_MESSAGE_LEN then message else message[..MAX_CLOSE_MESSAGE_LEN];
      ParseNext(Frame(CLOSE_SESSION, Varint.BigEndian(code, 4) + message) + rest) == Capsule(CloseSession(code, kept), rest)
  {
    var payload := Varint.BigEndian(code, 4) + message;
    FrameReadBack(CLOSE_SESSION, payload, rest);
    Varint.Powers();
    Varint.BigEndianRoundTrip(code, 4);
    assert payload[..4] == Varint.BigEndian(code, 4);
    assert payload[4..] == message;
    hide Frame, NextFrame, Varint.BigEndian, Varint.Value, Varint.Pow256;
  }

  /** What a peer may put on the CONNECT stream: capsules this code knows, and others. */
  datatype Item = Of(c: Capsule) | Foreign(typ: Varint.VarInt, payload: seq<Byte>)

  predicate WellFormed(i: Item) {
    i.Foreign? ==> |i.payload| <= VARINT_MAX && ParseContent(i.typ, i.payload) == Skip
  }

  function ItemBytes(i: Item): (b: seq<Byte>)
    requires WellFormed(i)
  {
    match i
    case Of(c) => Append(c)
    case Foreign(typ, payload) => Frame(typ, payload)
  }

  function Wire(items: seq<Item>): (b: seq<Byte>)
    requires forall i :: 0 <= i < |items| ==> WellFormed(items[i])
  {
    if items == [] then []
    else ItemBytes(items[0]) + Wire(items[1..])
  }

  function KnownIn(i: Item): (r: seq<Capsule>) {
    if i.Of? then [AsSent(i.c)] else []
  }

  function KnownOf(items: seq<Item>): (r: seq<Capsule>) {
    if items == [] then [] else KnownIn(items[0]) + KnownOf(items[1..])
  }

  lemma ForeignSkipped(typ: Varint.VarInt, payload: seq<Byte>, rest: seq<Byte>)
    requires WellFormed(Foreign(typ, payload))
    ensures ParseNext(Frame(typ, payload) + rest) == ParseNext(rest)
  {
    FrameReadBack(typ, payload, rest);
  }

  lemma ParseItem(i: Item, rest: seq<Byte>)
    requires WellFormed(i)
    ensures ParseAll(ItemBytes(i) + rest) == KnownIn(i) + ParseAll(rest)
  {
    hide ParseNext, ParseContent, Frame, Append, NextFrame, AsSent;
    match i
    case Of(c) => CapsuleReadBack(c, rest);
    case Foreign(t, p) => ForeignSkipped(t, p, rest);
  }

  /**
   Parsing a concatenation of capsules, interleaved with unknown ones, yields exactly
   the known ones in order, and then whatever the rest of the input holds.
   */
  lemma {:induction false} ParseWire(items: seq<Item>, rest: seq<Byte>)
    requires forall i :: 0 <= i < |items| ==> WellFormed(items[i])
    ensures ParseAll(Wire(items) + rest) == KnownOf(items) + ParseAll(rest)
  {
    hide WellFormed, ParseAll, ItemBytes, KnownIn;
    if items == [] {
      assert Wire(items) + rest == rest;
    } else {
      var tail := Wire(items[1..]) + rest;
      ParseWire(items[1..], rest);
      assert Wire(items) + rest == ItemBytes(items[0]) + tail;
      ParseItem(items[0], tail);
    }
  }

  /** Only the types this code knows are not skipped. */
  lemma ForeignIsUnknown(typ: nat, payload: seq<Byte>)
    ensures ParseContent(typ, payload) == Skip <==>
      typ != CLOSE_SESSION && !(MAX_DATA <= typ <= STREAMS_BLOCKED_UNI)
  {
  }

  /**
   What is refused: the two capsules that belong to HTTP/2, a close without a whole code, a
   number that is cut off or has anything behind it, and a stream count above 2^60.
   */
  lemma MalformedIsBad(typ: nat, v: Varint.VarInt, k: nat, extra: seq<Byte>, payload: seq<Byte>)
    ensures ParseContent(0x190b4d3e, payload) == Bad && ParseContent(0x190b4d42, payload) == Bad
    ensures |payload| < 4 ==> ParseContent(0x2843, payload) == Bad
    ensures MAX_DATA <= typ <= STREAMS_BLOCKED_UNI && extra != [] ==> ParseContent(typ, Varint.Encode(v) + extra) == Bad
    ensures MAX_DATA <= typ <= STREAMS_BLOCKED_UNI && k < Varint.Len(v) ==> ParseContent(typ, Varint.Encode(v)[..k]) == Bad
    ensures typ in {0x190b4d3f, 0x190b4d40, 0x190b4d43, 0x190b4d44} && v > MAX_STREAMS_LIMIT ==>
      ParseContent(typ, Varint.Encode(v)) == Bad
  {
    Varint.RoundTrip(v, extra);
    Varint.RoundTrip(v, []);
    assert Varint.Encode(v) + [] == Varint.Encode(v);
    if k < Varint.Len(v) {
      Varint.CutOff(v, k);
    }
    hide Varint.Encode, Varint.Decode, Varint.Value, Varint.BigEndian, Varint.Pow256;
  }

  lemma CutOffFrame(typ: Varint.VarInt, payload: seq<Byte>, k: nat)
    requires |payload| <= VARINT_MAX && k < |Frame(typ, payload)|
    ensures NextFrame(Frame(typ, payload)[..k]) == None
  {
    var head, len := Varint.Encode(typ), Varint.Encode(|payload|);
    assert Frame(typ, payload) == head + (len + payload);
    hide Frame, Varint.Encode, Varint.Decode;
    if k < |head| {
      assert (head + (len + payload))[..k] == head[..k];
      Varint.CutOff(typ, k);
    } else {
      var j := k - |head|;
      CutConcat(head, len + payload, k);
      Varint.RoundTrip(typ, (len + payload)[..j]);
      assert (head + (len + payload)[..j])[|head|..] == (len + payload)[..j];
      if j < |len| {
        assert (len + payload)[..j] == len[..j];
        Varint.CutOff(|payload|, j);
      } else {
        var body := payload[..j - |len|];
        CutConcat(len, payload, j);
        Varint.RoundTrip(|payload|, body);
        assert (len + body)[|len|..] == body;
      }
    }
  }

  lemma CutConcat(a: seq<Byte>, b: seq<Byte>, k: nat)
    requires |a| <= k <= |a + b|
    ensures (a + b)[..k] == a + b[..k - |a|]
  {
  }

  /** A capsule cut off anywhere yields nothing. */
  lemma CutOffYieldsNothing(c: Capsule, k: nat)
    requires k < |Append(c)|
    ensures ParseAll(Append(c)[..k]) == []
  {
    CutOffFrame(TypeOf(c), Payload(c), k);
  }

  /**
   The close message: a valid one arrives as its longest prefix of whole characters
   that fits into 1024 bytes, unchanged if it fits; sending it again changes nothing.
   */
  lemma CloseMessageSurvives(code: ErrorCode, message: seq<Byte>, rest: seq<Byte>)
    ensures
      var sent := Utf8.Truncated(message, MAX_CLOSE_MESSAGE_LEN);
      && ParseNext(Append(CloseSession(code, message)) + rest) == Capsule(CloseSession(code, sent), rest)
      && (|message| <= MAX_CLOSE_MESSAGE_LEN ==> sent == message)
      && AsSent(CloseSession(code, sent)) == CloseSession(code, sent)
      && (Utf8.Valid(message) ==>
            && Utf8.Valid(sent)
            && forall j :: |sent| < j <= MAX_CLOSE_MESSAGE_LEN && j <= |message| ==> !Utf8.Valid(message[..j]))
  {
    CapsuleReadBack(CloseSession(code, message), rest);
    if Utf8.Valid(message) {
      Utf8.TruncatedIsLongest(message, MAX_CLOSE_MESSAGE_LEN);
    }
  }
}
