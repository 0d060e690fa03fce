/** The header in front of every WebTransport stream: its type and its session. */
module StreamHeader {
  import opened Common
  import Varint

  const FRAME_TYPE: nat := 0x41       // bidirectional streams
  const UNI_STREAM_TYPE: nat := 0x54

  /** newOutgoingStreamHeader */
  function Header(streamType: Varint.VarInt, sessionID: Varint.VarInt): (hdr: seq<Byte>) {
    Varint.Encode(streamType) + Varint.Encode(sessionID)
  }

  /** What becomes of an incoming stream, by its first bytes. */
  datatype Disposition =
    | NoType                                  // it ended before its type: ignored
    | ToHttp3                                 // another type
    | ResetStream                             // it ended before the session ID
    | CloseConnection                         // no request stream has this ID
    | ToSession(id: nat, headerLen: nat)

  /** Counts the bytes that are read through it. */
  class CountingReader {
    var input: seq<Byte>
    var bytesRead: nat

    constructor (bytes: seq<Byte>)
      ensures input == bytes && bytesRead == 0
    {
      input, bytesRead := bytes, 0;
    }

    method ReadByte() returns (b: Option<Byte>)
      modifies this
      ensures b.None? <==> old(input) == []
      ensures b.None? ==> input == old(input) && bytesRead == old(bytesRead)
      ensures b.Some? ==> old(input) == [b.value] + input && bytesRead == old(bytesRead) + 1
    {
      if |input| == 0 {
        return None;
      }
      b := Some(input[0]);
      input := input[1..];
      bytesRead := bytesRead + 1;
    }

    /** quicvarint.Read: the first byte tells how many follow. */
    method ReadVarint() returns (x: Option<nat>)
      modifies this
      ensures x.Some? <==> Varint.Decode(old(input)).Some?
      ensures x.Some? ==>
        var (v, n) := Varint.Decode(old(input)).value;
        x.value == v && input == old(input)[n..] && bytesRead == old(bytesRead) + n
    {
      var first := ReadByte();
      if first.None? {
        return None;
      }
      var n := Varint.LenOfFirst(first.value);
      var b := [first.value];
      while |b| < n
        invariant 1 <= |b| <= n
        invariant old(input) == b + input && bytesRead == old(bytesRead) + |b| && b[0] == first.value
      {
        var next := ReadByte();
        if next.None? {
          return None;
        }
        b := b + [next.value];
      }
      assert old(input)[..n] == b;
      Varint.MarkerBelow(b);
      return Some(Varint.Value(b) - Varint.Marker(n));
    }

    /** What the accept loops read off a stream: the session it belongs to and the header's length. */
    method ReadHeader(streamType: nat) returns (d: Disposition)
      requires bytesRead == 0
      modifies this
      ensures d == ParseHeader(old(input), streamType)
      ensures d.ToSession? ==> bytesRead == d.headerLen && input == old(input)[bytesRead..]
      ensures d.NoType? || d.ToHttp3? ==> input == old(input)
    {
      var peeked := Varint.Decode(input);
      if peeked.None? {
        return NoType;
      }
      if peeked.value.0 != streamType {
        return ToHttp3;
      }
      var typ := ReadVarint();
      var id := ReadVarint();
      if id.None? {
        return ResetStream;
      }
      if id.value % 4 != 0 {
        return CloseConnection;
      }
      return ToSession(id.value, bytesRead);
    }
  }

  /** The number of bytes before the payload goes with the stream to its session. */
  function ParseHeader(input: seq<Byte>, streamType: nat): (d: Disposition) {
    match Varint.Decode(input)
    case None => NoType
    case Some((typ, n)) =>
      if typ != streamType then ToHttp3
      else
        match Varint.Decode(input[n..])
        case None => ResetStream
        case Some((id, k)) => if id % 4 != 0 then CloseConnection else ToSession(id, n + k)
  }

  /**
   The receiver reads the session the sender wrote, and measures exactly the header
   that the sender put in front of the payload. The buffer the sender reserves, two
   bytes and the session ID's, is what the header takes.
   */
  lemma HeaderReadBack(streamType: nat, sessionID: Varint.VarInt, payload: seq<Byte>)
    requires streamType == FRAME_TYPE || streamType == UNI_STREAM_TYPE
    ensures
      var hdr := Header(streamType, sessionID);
      && |hdr| == 2 + Varint.Len(sessionID)
      && ParseHeader(hdr + payload, streamType) == (if sessionID % 4 == 0 then ToSession(sessionID, |hdr|) else CloseConnection)
      && (hdr + payload)[|hdr|..] == payload
  {
    var t, id := Varint.Encode(streamType), Varint.Encode(sessionID);
    assert Header(streamType, sessionID) + payload == t + (id + payload);
    Varint.RoundTrip(streamType, id + payload);
    assert (t + (id + payload))[|t|..] == id + payload;
    Varint.RoundTrip(sessionID, payload);
  }

  /** The other outcomes: a stream of another type, and one that ends within its type or its session ID. */
  lemma OtherStreams(streamType: Varint.VarInt, other: Varint.VarInt, sessionID: Varint.VarInt, k: nat, rest: seq<Byte>)
    ensures other != streamType ==> ParseHeader(Varint.Encode(other) + rest, streamType) == ToHttp3
    ensures k < Varint.Len(other) ==> ParseHeader(Varint.Encode(other)[..k], streamType) == NoType
    ensures k < Varint.Len(sessionID) ==>
      ParseHeader(Varint.Encode(streamType) + Varint.Encode(sessionID)[..k], streamType) == ResetStream
  {
    hide Varint.Encode, Varint.Decode;
    Varint.RoundTrip(other, rest);
    if k < Varint.Len(other) {
      Varint.CutOff(other, k);
    }
    if k < Varint.Len(sessionID) {
      var t, cut := Varint.Encode(streamType), Varint.Encode(sessionID)[..k];
      Varint.RoundTrip(streamType, cut);
      assert (t + cut)[|t|..] == cut;
      Varint.CutOff(sessionID, k);
    }
  }
}
