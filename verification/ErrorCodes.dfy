/**
 The mapping between WebTransport stream error codes and HTTP/3 error codes
 (section 4.4 of draft-ietf-webtrans-http3), which skips the codes that section 8.1
 of RFC 9114 reserves.
 */
module ErrorCodes {
  import opened Common

  const FIRST_ERROR_CODE: nat := 0x52e4a40fa8db
  const LAST_ERROR_CODE: nat := 0x52e5ac983162
  const UINT32_SIZE: nat := 0x1_0000_0000

  type StreamErrorCode = n: nat | n < UINT32_SIZE

  /** Section 8.1 of RFC 9114: error codes of the form 0x1f * N + 0x21 are reserved. */
  ghost predicate Reserved(h: nat) {
    exists n: nat :: h == 0x1f * n + 0x21
  }

  function WebtransportCodeToHttpCode(n: StreamErrorCode): (h: nat) {
    FIRST_ERROR_CODE + n + n / 0x1e
  }

  /** The conversion of the difference to 32 bits is written out. */
  function HttpCodeToWebtransportCode(h: nat): (r: Option<StreamErrorCode>) {
    if h < FIRST_ERROR_CODE || h > LAST_ERROR_CODE then None
    else if (h - 0x21) % 0x1f == 0 then None
    else
      var shifted := h - FIRST_ERROR_CODE;
      Some((shifted - shifted / 0x1f) % UINT32_SIZE)
  }

  lemma ReservedRemainder(h: nat)
    requires h >= 0x21
    ensures Reserved(h) <==> (h - 0x21) % 0x1f == 0
  {
    if (h - 0x21) % 0x1f == 0 {
      var n := (h - 0x21) / 0x1f;
      assert h == 0x1f * n + 0x21;
    }
  }

  /** In terms of quotient and remainder: every block of thirty codes is followed by a reserved one. */
  lemma Decompose(n: StreamErrorCode)
    ensures
      var q := n / 0x1e;
      var r := n % 0x1e;
      && WebtransportCodeToHttpCode(n) == FIRST_ERROR_CODE + 0x1f * q + r
      && (WebtransportCodeToHttpCode(n) - FIRST_ERROR_CODE) / 0x1f == q
      && (WebtransportCodeToHttpCode(n) - 0x21) % 0x1f == r + 1
  {
    var q := n / 0x1e;
    var r := n % 0x1e;
    assert FIRST_ERROR_CODE - 0x21 == 0x1f * ((FIRST_ERROR_CODE - 0x21) / 0x1f) + 1;
    var k := (FIRST_ERROR_CODE - 0x21) / 0x1f + q;
    assert WebtransportCodeToHttpCode(n) - 0x21 == 0x1f * k + (r + 1);
  }

  lemma StrictlyMonotone(m: StreamErrorCode, n: StreamErrorCode)
    requires m < n
    ensures WebtransportCodeToHttpCode(m) < WebtransportCodeToHttpCode(n)
  {
    Decompose(m);
    Decompose(n);
  }

  /** Codes map into the range, onto its first and last code, and never to a reserved one; and back to themselves. */
  lemma RoundTrip(n: StreamErrorCode)
    ensures FIRST_ERROR_CODE <= WebtransportCodeToHttpCode(n) <= LAST_ERROR_CODE
    ensures !Reserved(WebtransportCodeToHttpCode(n))
    ensures HttpCodeToWebtransportCode(WebtransportCodeToHttpCode(n)) == Some(n)
    ensures WebtransportCodeToHttpCode(0) == FIRST_ERROR_CODE
    ensures WebtransportCodeToHttpCode(UINT32_SIZE - 1) == LAST_ERROR_CODE
  {
    Decompose(n);
    ReservedRemainder(WebtransportCodeToHttpCode(n));
  }

  /** The other way round: exactly the codes in the range that are not reserved convert, each to the code it came from. */
  lemma Inverse(h: nat)
    ensures HttpCodeToWebtransportCode(h).Some? <==> FIRST_ERROR_CODE <= h <= LAST_ERROR_CODE && !Reserved(h)
    ensures HttpCodeToWebtransportCode(h).Some? ==>
      WebtransportCodeToHttpCode(HttpCodeToWebtransportCode(h).value) == h
  {
    if FIRST_ERROR_CODE <= h <= LAST_ERROR_CODE {
      ReservedRemainder(h);
      var shifted := h - FIRST_ERROR_CODE;
      var q, r := shifted / 0x1f, shifted % 0x1f;
      assert FIRST_ERROR_CODE - 0x21 == 0x1f * ((FIRST_ERROR_CODE - 0x21) / 0x1f) + 1;
      assert h - 0x21 == 0x1f * ((FIRST_ERROR_CODE - 0x21) / 0x1f + q) + (r + 1);
      if (h - 0x21) % 0x1f != 0 {
        assert r + 1 < 0x1f;
        assert shifted - q == 0x1e * q + r;
        assert (shifted - q) / 0x1e == q;
      }
    }
  }

  /** The two together: the mapping is a bijection onto the codes of the range that are not reserved. */
  lemma Bijection(h: nat)
    ensures FIRST_ERROR_CODE <= h <= LAST_ERROR_CODE && !Reserved(h) <==>
      exists n: StreamErrorCode :: WebtransportCodeToHttpCode(n) == h
  {
    Inverse(h);
    if FIRST_ERROR_CODE <= h <= LAST_ERROR_CODE && !Reserved(h) {
      var n := HttpCodeToWebtransportCode(h).value;
      assert WebtransportCodeToHttpCode(n) == h;
    }
    forall n: StreamErrorCode | WebtransportCodeToHttpCode(n) == h
      ensures FIRST_ERROR_CODE <= h <= LAST_ERROR_CODE && !Reserved(h)
    {
      RoundTrip(n);
    }
  }

  /** What the application sees of a QUIC error. */
  datatype StreamResult =
    | NoError
    | StreamCanceled(code: StreamErrorCode, remote: bool)
    | Unconvertible(quicCode: nat)
    | Unchanged(err: Error)

  function MaybeConvertStreamError(err: Option<Error>): (r: StreamResult) {
    match err
    case None => NoError
    case Some(QuicStreamError(quicCode, fromPeer)) =>
      (match HttpCodeToWebtransportCode(quicCode)
       case None => Unconvertible(quicCode)
       case Some(code) => StreamCanceled(code, fromPeer))
    case Some(other) => Unchanged(other)
  }

  /** A stream canceled with a code is reported with that code to the peer's reader. */
  lemma CancellationCodeSurvives(n: StreamErrorCode, fromPeer: bool)
    ensures MaybeConvertStreamError(Some(QuicStreamError(WebtransportCodeToHttpCode(n), fromPeer)))
      == StreamCanceled(n, fromPeer)
  {
    RoundTrip(n);
  }

  /** Any other QUIC error is reported as one that cannot be converted, and any other error as it is. */
  lemma OtherErrorsPass(err: Option<Error>)
    ensures err.None? ==> MaybeConvertStreamError(err) == NoError
    ensures err.Some? && err.value.QuicStreamError? ==>
      var code := err.value.quicCode;
      && (MaybeConvertStreamError(err) == Unconvertible(code) <==> code < FIRST_ERROR_CODE || code > LAST_ERROR_CODE || Reserved(code))
      && (MaybeConvertStreamError(err) != Unconvertible(code) ==>
            exists n: StreamErrorCode :: WebtransportCodeToHttpCode(n) == code
                                      && MaybeConvertStreamError(err) == StreamCanceled(n, err.value.fromPeer))
    ensures err.Some? && !err.value.QuicStreamError? ==> MaybeConvertStreamError(err) == Unchanged(err.value)
  {
    if err.Some? && err.value.QuicStreamError? {
      Inverse(err.value.quicCode);
    }
  }
}
