/**
 * Short runs of the service as the Bluetooth stack and the host drive it,
 * each checked against the writes and calls the service should issue.
 */
module Scenarios {
  import opened Wrappers
  import opened Java
  import opened Codec
  import opened Chunker
  import opened Ticker
  import opened Commands
  import opened Session

  /** A message of 1 to 20 octets fits one frame. */
  lemma SentShort(m: string)
    requires 0 < |m| <= FrameSize
    ensures Sent(true, [m]) == [GetBytes(m)]
  {
    WireOne(m);
  }

  /**
   * One 'V' octet from a level below the top raises it by one and reports the
   * new level. The octets arrive as a parameter fixed by the precondition
   * rather than as a literal, which keeps the solver's work small.
   */
  lemma RunOneUp(online: bool, level: int, up: seq<octet>)
    requires 0 <= level < MaxVolume && up == ['V' as int]
    ensures var d := Run(Dispatch(online, level, [], []), up);
      d.online == online && d.volume == level + 1 &&
      d.replies == [VolumeMessage(level + 1)] && d.media == [SetStreamVolume(level + 1)]
  {
    var start := Dispatch(online, level, [], []);
    assert up[..0] == [];
    assert Run(start, up) == Step(start, 'V' as int);
    assert Decode('V' as int) == VolumeUp;
  }

  /**
   * A stored device is connected at start-up: the stack is asked for a
   * connection object, then for discovery, then for notifications, and the
   * session goes live at the host's volume without having sent anything.
   */
  method ConnectStored(address: string, hostVolume: int) returns (s: RblService)
    requires 0 <= hostVolume <= MaxVolume
    ensures fresh(s) && s.Valid() && s.Live()
    ensures s.volume == hostVolume && s.frames == [] && s.media == []
    ensures s.transport == [GattConnect(address, 0), GattDiscoverServices(0), GattEnableNotifications(0)]
  {
    s := new RblService(Some(address));
    s.OnConnectionStateChange(StateConnected);
    s.OnServicesDiscovered(true, hostVolume);
  }

  /**
   * Once connected, a 'V' from the peripheral raises the volume to the top
   * and the service answers "vfe" in one frame.
   */
  method ConnectThenVolumeUp() returns (level: int, ghost frames: seq<seq<octet>>, ghost media: seq<MediaCommand>)
    ensures level == MaxVolume
    ensures frames == [GetBytes("vfe")] && media == [SetStreamVolume(MaxVolume)]
  {
    var s := ConnectStored("AA:BB", 126);
    var up: seq<octet> := ['V' as int];
    ghost var d := Run(Dispatch(s.online, 126, [], []), up);
    RunOneUp(s.online, 126, up);
    s.OnCharacteristicChanged(true, up);
    assert s.media == [] + d.media == [SetStreamVolume(127)];
    VolumeMessageExamples();
    SentShort("vfe");
    assert s.frames == [] + Sent(true, d.replies) == [GetBytes("vfe")];
    level, frames, media := s.volume, s.frames, s.media;
  }

  /**
   * Without a connection a song change is still recorded, but nothing goes
   * out on the link.
   */
  method SongWhileDisconnected() returns (track: string, artist: string, ghost frames: seq<seq<octet>>, ghost transport: seq<TransportCall>)
    ensures track == "Foo" && artist == "Bar"
    ensures frames == [] && transport == []
  {
    var s := new RblService(None);
    ParseTickerExamples();
    s.OnReceive(SongChanged("Foo \U{2014} Bar"));
    track, artist, frames, transport := s.track, s.artist, s.frames, s.transport;
  }

  /**
   * Forgetting the device only asks the stack to disconnect; a discovery
   * that completes afterwards still marks the session connected, and only
   * the disconnect callback clears it.
   */
  method LateDiscovery() returns (connectedAfterDiscovery: bool, connectedAtEnd: bool)
    ensures connectedAfterDiscovery && !connectedAtEnd
  {
    var s := new RblService(Some("AA:BB"));
    s.OnConnectionStateChange(StateConnected);
    s.OnReceive(ForgetRequested);
    assert s.storedDevice.None? && s.gatt == Some(0);
    assert s.transport == [GattConnect("AA:BB", 0), GattDiscoverServices(0), GattDisconnect(0)];
    s.OnServicesDiscovered(true, 64);
    connectedAfterDiscovery := s.connected;
    s.OnConnectionStateChange(StateDisconnected);
    connectedAtEnd := s.connected;
  }
}
