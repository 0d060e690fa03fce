/** Flow control limits: what an endpoint announces in SETTINGS and what it derives from its peer's. */
module Config {
  import opened Common

  const SETTINGS_INITIAL_MAX_STREAMS_UNI: nat := 0x2b64
  const SETTINGS_INITIAL_MAX_STREAMS_BIDI: nat := 0x2b65
  const SETTINGS_INITIAL_MAX_DATA: nat := 0x2b61

  type Settings = map<nat, nat>

  /** The fields are 64-bit signed integers. */
  datatype Config = Config(maxIncomingStreams: int, maxIncomingUniStreams: int, maxIncomingData: int)

  datatype FlowControl = FlowControl(
    enabled: bool,
    maxIncomingStreams: nat,
    maxIncomingUniStreams: nat,
    maxOutgoingStreams: nat,
    maxOutgoingUniStreams: nat,
    maxIncomingData: nat,
    maxOutgoingData: nat
  )

  const DISABLED := FlowControl(false, 0, 0, 0, 0, 0, 0)

  function StreamLimit(limit: int): (r: nat) {
    if limit <= 0 then 0 else Min(limit, MAX_STREAMS_LIMIT)
  }

  function DataLimit(limit: int): (r: nat) {
    Min(if limit <= 0 then 0 else limit, VARINT_MAX)
  }

  predicate IsLimitKey(key: nat) {
    key == SETTINGS_INITIAL_MAX_STREAMS_BIDI || key == SETTINGS_INITIAL_MAX_STREAMS_UNI || key == SETTINGS_INITIAL_MAX_DATA
  }

  function Put(settings: Settings, key: nat, send: bool, value: nat): (r: Settings) {
    if send then settings[key := value] else settings
  }

  /** The settings map that addSettings changes in place. */
  class SettingsMap {
    var entries: Settings

    constructor (settings: Settings)
      ensures entries == settings
    {
      entries := settings;
    }

    method AddSettings(c: Config)
      modifies this
      ensures entries == WithLimits(c, old(entries))
    {
      entries := entries - {SETTINGS_INITIAL_MAX_STREAMS_BIDI};
      entries := entries - {SETTINGS_INITIAL_MAX_STREAMS_UNI};
      entries := entries - {SETTINGS_INITIAL_MAX_DATA};
      assert entries == old(entries)
        - {SETTINGS_INITIAL_MAX_STREAMS_BIDI, SETTINGS_INITIAL_MAX_STREAMS_UNI, SETTINGS_INITIAL_MAX_DATA};
      Announce(SETTINGS_INITIAL_MAX_STREAMS_BIDI, c.maxIncomingStreams != 0, StreamLimit(c.maxIncomingStreams));
      Announce(SETTINGS_INITIAL_MAX_STREAMS_UNI, c.maxIncomingUniStreams != 0, StreamLimit(c.maxIncomingUniStreams));
      Announce(SETTINGS_INITIAL_MAX_DATA, c.maxIncomingData != 0, DataLimit(c.maxIncomingData));
    }

    method Announce(key: nat, send: bool, value: nat)
      modifies this
      ensures entries == Put(old(entries), key, send, value)
    {
      if send {
        entries := entries[key := value];
      }
    }
  }

  /** addSettings: a zero limit is not announced, a negative one is announced as zero. */
  function WithLimits(c: Config, settings: Settings): (r: Settings) {
    var s0 := settings - {SETTINGS_INITIAL_MAX_STREAMS_BIDI, SETTINGS_INITIAL_MAX_STREAMS_UNI, SETTINGS_INITIAL_MAX_DATA};
    var s1 := Put(s0, SETTINGS_INITIAL_MAX_STREAMS_BIDI, c.maxIncomingStreams != 0, StreamLimit(c.maxIncomingStreams));
    var s2 := Put(s1, SETTINGS_INITIAL_MAX_STREAMS_UNI, c.maxIncomingUniStreams != 0, StreamLimit(c.maxIncomingUniStreams));
    Put(s2, SETTINGS_INITIAL_MAX_DATA, c.maxIncomingData != 0, DataLimit(c.maxIncomingData))
  }

  function Get(settings: Settings, key: nat): (r: nat) {
    if key in settings then settings[key] else 0
  }

  /** sessionFlowControl: flow control needs both endpoints to announce a positive limit. */
  function SessionFlowControl(c: Config, remote: Option<Settings>): (fc: FlowControl) {
    var localEnabled := c.maxIncomingStreams > 0 || c.maxIncomingUniStreams > 0 || c.maxIncomingData > 0;
    if !localEnabled || remote.None? then DISABLED
    else
      var bidi := Get(remote.value, SETTINGS_INITIAL_MAX_STREAMS_BIDI);
      var uni := Get(remote.value, SETTINGS_INITIAL_MAX_STREAMS_UNI);
      var data := Get(remote.value, SETTINGS_INITIAL_MAX_DATA);
      if bidi > 0 || uni > 0 || data > 0 then
        FlowControl(true, StreamLimit(c.maxIncomingStreams), StreamLimit(c.maxIncomingUniStreams), bidi, uni,
                    DataLimit(c.maxIncomingData), data)
      else DISABLED
  }

  /** newSession: without flow control, streams are only limited by the protocol's cap. */
  function SessionLimits(fc: FlowControl): (r: FlowControl) {
    if fc.enabled then fc
    else fc.(maxIncomingStreams := MAX_STREAMS_LIMIT, maxIncomingUniStreams := MAX_STREAMS_LIMIT,
             maxOutgoingStreams := MAX_STREAMS_LIMIT, maxOutgoingUniStreams := MAX_STREAMS_LIMIT)
  }

  /** What an endpoint configured with `c` works with against a peer configured with `peer`. */
  function Negotiated(c: Config, peer: Config, peerSettings: Settings): (fc: FlowControl) {
    SessionLimits(SessionFlowControl(c, Some(WithLimits(peer, peerSettings))))
  }

  /** The announced settings read back: what was there before under these keys does not matter. */
  lemma SettingsReadBack(c: Config, settings: Settings)
    ensures
      var s := WithLimits(c, settings);
      && Get(s, SETTINGS_INITIAL_MAX_STREAMS_BIDI) == StreamLimit(c.maxIncomingStreams)
      && Get(s, SETTINGS_INITIAL_MAX_STREAMS_UNI) == StreamLimit(c.maxIncomingUniStreams)
      && Get(s, SETTINGS_INITIAL_MAX_DATA) == DataLimit(c.maxIncomingData)
    ensures forall key :: !IsLimitKey(key) ==>
      && (key in WithLimits(c, settings) <==> key in settings)
      && (key in settings ==> WithLimits(c, settings)[key] == settings[key])
  {
  }

  /**
   Both endpoints agree, for any two configurations: either both use flow control or
   neither does, and what one may open or send is what the other lets it, within
   the protocol's caps.
   */
  lemma EndpointsAgree(a: Config, b: Config, aSettings: Settings, bSettings: Settings)
    ensures
      var fa := Negotiated(a, b, bSettings);
      var fb := Negotiated(b, a, aSettings);
      && fa.enabled == fb.enabled
      && fa.maxOutgoingStreams == fb.maxIncomingStreams <= MAX_STREAMS_LIMIT
      && fa.maxOutgoingUniStreams == fb.maxIncomingUniStreams <= MAX_STREAMS_LIMIT
      && fa.maxIncomingStreams == fb.maxOutgoingStreams <= MAX_STREAMS_LIMIT
      && fa.maxIncomingUniStreams == fb.maxOutgoingUniStreams <= MAX_STREAMS_LIMIT
      && (fa.enabled ==> fa.maxOutgoingData == fb.maxIncomingData <= VARINT_MAX)
      && (fa.enabled ==> fa.maxIncomingData == fb.maxOutgoingData <= VARINT_MAX)
  {
    SettingsReadBack(a, aSettings);
    SettingsReadBack(b, bSettings);
  }

  /** Flow control is used exactly if both endpoints ask for a positive limit of some kind. */
  lemma EnabledIff(c: Config, peer: Config, peerSettings: Settings)
    ensures Negotiated(c, peer, peerSettings).enabled <==>
      && (c.maxIncomingStreams > 0 || c.maxIncomingUniStreams > 0 || c.maxIncomingData > 0)
      && (peer.maxIncomingStreams > 0 || peer.maxIncomingUniStreams > 0 || peer.maxIncomingData > 0)
    ensures !SessionFlowControl(c, None).enabled
  {
    SettingsReadBack(peer, peerSettings);
  }

  /** What a limit is clamped to; without flow control streams are limited by the cap alone. */
  lemma LimitsClamped(c: Config, peer: Config, peerSettings: Settings)
    ensures
      var fc := Negotiated(c, peer, peerSettings);
      && (!fc.enabled ==> fc.maxIncomingStreams == fc.maxIncomingUniStreams == fc.maxOutgoingStreams == fc.maxOutgoingUniStreams == MAX_STREAMS_LIMIT)
      && (fc.enabled ==>
            && (c.maxIncomingStreams <= 0 ==> fc.maxIncomingStreams == 0)
            && (0 <= c.maxIncomingStreams <= MAX_STREAMS_LIMIT ==> fc.maxIncomingStreams == c.maxIncomingStreams)
            && (c.maxIncomingStreams >= MAX_STREAMS_LIMIT ==> fc.maxIncomingStreams == MAX_STREAMS_LIMIT)
            && (c.maxIncomingUniStreams <= 0 ==> fc.maxIncomingUniStreams == 0)
            && (0 <= c.maxIncomingUniStreams <= MAX_STREAMS_LIMIT ==> fc.maxIncomingUniStreams == c.maxIncomingUniStreams)
            && (c.maxIncomingUniStreams >= MAX_STREAMS_LIMIT ==> fc.maxIncomingUniStreams == MAX_STREAMS_LIMIT)
            && (c.maxIncomingData <= 0 ==> fc.maxIncomingData == 0)
            && (0 <= c.maxIncomingData <= VARINT_MAX ==> fc.maxIncomingData == c.maxIncomingData)
            && (c.maxIncomingData >= VARINT_MAX ==> fc.maxIncomingData == VARINT_MAX))
    ensures
      var s := WithLimits(c, peerSettings);
      && (SETTINGS_INITIAL_MAX_STREAMS_BIDI in s <==> c.maxIncomingStreams != 0)
      && (SETTINGS_INITIAL_MAX_STREAMS_UNI in s <==> c.maxIncomingUniStreams != 0)
      && (SETTINGS_INITIAL_MAX_DATA in s <==> c.maxIncomingData != 0)
  {
  }
}
