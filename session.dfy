/**
 * The link session of `RBLService`: one object that owns the connection to
 * the peripheral and the host state it reports, driven by the Bluetooth
 * stack's callbacks and by the intents the service receives.
 *
 * What leaves the session is recorded in three ghost logs: the frames
 * the service asks the stack to write to the TX characteristic, the calls into the media
 * player and audio manager, and the calls into the Bluetooth stack.
 */
module Session {
  import opened Wrappers
  import opened Java
  import opened Codec
  import opened Chunker
  import opened Ticker
  import opened Commands

  /** The connection states `onConnectionStateChange` can report. */
  datatype ProfileState = StateDisconnected | StateConnecting | StateConnected | StateDisconnecting

  /** A connection object (`BluetoothGatt`), named by the order in which it was created. */
  type ConnectionId = nat

  /** Calls into the Bluetooth stack. */
  datatype TransportCall =
    | GattConnect(address: string, conn: ConnectionId)  // device.connectGatt, creating object conn
    | GattReconnect(conn: ConnectionId)                  // connect() on an existing object
    | GattDiscoverServices(conn: ConnectionId)
    | GattEnableNotifications(conn: ConnectionId)        // notifications armed on RX, descriptor written
    | GattDisconnect(conn: ConnectionId)
    | GattClose(conn: ConnectionId)

  /** The intents the service's receiver acts on or is registered for. */
  datatype HostIntent =
    | SongChanged(tickerText: string)
    | DeviceChosen(address: Option<string>)
    | ForgetRequested
    | PlayStateChanged(playing: Option<bool>)
    | NotificationPosted

  /** The session's fields as one value. */
  datatype Snapshot = Snapshot(
    connected: bool, playing: bool, online: bool, volume: int, artist: string, track: string,
    storedDevice: Option<string>, deviceAddress: Option<string>,
    gatt: Option<ConnectionId>, handles: Option<ConnectionId>, created: nat)

  /**
   * What sending a run of messages writes: their frames, or nothing while
   * not connected or without a connection object.
   */
  function Sent(live: bool, messages: seq<string>): (r: seq<seq<octet>>)
    ensures forall i :: 0 <= i < |r| ==> 0 < |r[i]| <= FrameSize
    ensures !live ==> r == []
  {
    if live then Wire(messages) else []
  }

  lemma SentAppend(live: bool, a: seq<string>, b: seq<string>)
    ensures Sent(live, a + b) == Sent(live, a) + Sent(live, b)
  {
    WireAppend(a, b);
  }

  /** One more octet handled: its replies and media calls extend the logs of those before it. */
  lemma LogsStep(live: bool, f0: seq<seq<octet>>, m0: seq<MediaCommand>, d: Dispatch, b: octet)
    ensures f0 + Sent(live, d.replies) + Sent(live, React(d.online, d.volume, b).replies) ==
      f0 + Sent(live, Step(d, b).replies)
    ensures m0 + d.media + React(d.online, d.volume, b).media == m0 + Step(d, b).media
  {
    var r := React(d.online, d.volume, b);
    SentAppend(live, d.replies, r.replies);
    AppendAssoc(f0, Sent(live, d.replies), Sent(live, r.replies));
    AppendAssoc(m0, d.media, r.media);
  }

  /** Two messages sent one after another land as the frames of the two in a row. */
  lemma SentPair(live: bool, log: seq<seq<octet>>, a: string, t: string)
    ensures log + Sent(live, [a, t]) == log + Sent(live, [a]) + Sent(live, [t])
  {
    SentAppend(live, [a], [t]);
    assert [a] + [t] == [a, t];
  }

  /** Four messages sent one after another land as the frames of the four in a row. */
  lemma SentInTurn(live: bool, log: seq<seq<octet>>, v: string, p: string, a: string, t: string)
    ensures log + Sent(live, [v, p, a, t]) ==
      log + Sent(live, [v]) + Sent(live, [p]) + Sent(live, [a]) + Sent(live, [t])
  {
    SentAppend(live, [v], [p]);
    assert [v] + [p] == [v, p];
    SentAppend(live, [v, p], [a]);
    assert [v, p] + [a] == [v, p, a];
    SentAppend(live, [v, p, a], [t]);
    assert [v, p, a] + [t] == [v, p, a, t];
  }

  /**
   * How the connection fields hang together: a session marked connected has
   * its characteristics resolved, a connection object was made for an
   * address, and every object named was created.
   */
  predicate Linked(connected: bool, deviceAddress: Option<string>, gatt: Option<ConnectionId>,
                   handles: Option<ConnectionId>, created: nat)
  {
    && (connected ==> handles.Some?)
    && (gatt.Some? ==> deviceAddress.Some? && gatt.value < created)
    && (handles.Some? ==> handles.value < created)
  }

  class RblService {
    /** `mConnected`: services discovered and the TX characteristic usable. */
    var connected: bool
    var playing: bool
    var online: bool
    /** `mVolume`, on the service's own 0..127 scale. */
    var volume: int
    var artist: string
    var track: string
    /** The "device" entry of the shared preferences. */
    var storedDevice: Option<string>
    /** `mBluetoothDeviceAddress`: the address the current connection object was made for. */
    var deviceAddress: Option<string>
    /** `mBluetoothGatt`. */
    var gatt: Option<ConnectionId>
    /** `mTX` and `mRX`, by the connection whose discovery resolved them. */
    var handles: Option<ConnectionId>
    /** How many connection objects have been created; the next one's name. */
    var created: nat

    ghost var frames: seq<seq<octet>>
    ghost var media: seq<MediaCommand>
    ghost var transport: seq<TransportCall>

    ghost predicate Valid()
      reads this`volume, this`artist, this`track, this`connected, this`handles, this`gatt,
        this`deviceAddress, this`created
    {
      && 0 <= volume <= MaxVolume
      && |artist| <= FieldLimit && |track| <= FieldLimit
      && Linked(connected, deviceAddress, gatt, handles, created)
    }

    ghost function View(): Snapshot
      reads this
    {
      Snapshot(connected, playing, online, volume, artist, track,
               storedDevice, deviceAddress, gatt, handles, created)
    }

    /** Whether a send issues writes: connected, with a connection object. */
    ghost predicate Live()
      reads this`connected, this`gatt
    {
      connected && gatt.Some?
    }

    /** Whether `connectToDevice` would reuse the connection object it holds. */
    ghost predicate Reuses()
      reads this
    {
      storedDevice.Some? && deviceAddress == storedDevice && gatt.Some?
    }

    /**
     * The state change of `connectToDevice`: nothing without a stored
     * address; reuse of the held object for the address it was made for;
     * otherwise a new object for the stored address.
     */
    twostate predicate ConnectEffect()
      reads this
    {
      if storedDevice.None? then
        gatt == old(gatt) && deviceAddress == old(deviceAddress) && created == old(created) &&
        transport == old(transport)
      else if old(deviceAddress) == storedDevice && old(gatt).Some? then
        gatt == old(gatt) && deviceAddress == old(deviceAddress) && created == old(created) &&
        transport == old(transport) + [GattReconnect(old(gatt).value)]
      else
        gatt == Some(old(created)) && deviceAddress == storedDevice && created == old(created) + 1 &&
        transport == old(transport) + [GattConnect(storedDevice.value, old(created))]
    }

    /**
     * `onCreate`: the default host state, the stored address read back, and a
     * first connection attempt.
     */
    constructor (savedDevice: Option<string>)
      ensures Valid()
      ensures !connected && !playing && online && volume == MaxVolume
      ensures artist == "Artist" && track == "Track"
      ensures storedDevice == savedDevice && handles.None?
      ensures frames == [] && media == []
      ensures savedDevice.None? ==> gatt.None? && deviceAddress.None? && created == 0 && transport == []
      ensures savedDevice.Some? ==>
        gatt == Some(0) && deviceAddress == savedDevice && created == 1 &&
        transport == [GattConnect(savedDevice.value, 0)]
    {
      connected, playing, online, volume := false, false, true, MaxVolume;
      artist, track := "Artist", "Track";
      storedDevice, deviceAddress, gatt, handles, created := savedDevice, None, None, None, 0;
      frames, media, transport := [], [], [];
      new;
      // No connection object exists yet, so the driver's answer to a reuse is never asked for.
      var _ := ConnectToDevice(true);
    }

    /** `writeCharacteristic(mTX)`: dropped without a connection object. */
    method WriteCharacteristic(frame: seq<octet>)
      modifies this`frames
      ensures frames == old(frames) + (if gatt.Some? then [frame] else [])
    {
      if gatt.None? {
        return;
      }
      frames := frames + [frame];
    }

    /** `sendBytes`: a silent no-op unless connected; otherwise the payload's frames, in order. */
    method SendBytes(bytes: seq<octet>)
      requires Valid()
      modifies this`frames
      ensures Valid()
      ensures frames == old(frames) + (if connected && gatt.Some? then Chunks(bytes) else [])
    {
      if !connected {
        return;
      }
      var bytesRead := 0;
      while bytesRead < |bytes| - FrameSize
        invariant 0 <= bytesRead <= |bytes|
        invariant gatt.Some? ==> frames + Chunks(bytes[bytesRead..]) == old(frames) + Chunks(bytes)
        invariant gatt.None? ==> frames == old(frames)
      {
        ChunksFrom(bytes, bytesRead);
        AppendAssoc(frames, [bytes[bytesRead..bytesRead + FrameSize]], Chunks(bytes[bytesRead + FrameSize..]));
        WriteCharacteristic(bytes[bytesRead..bytesRead + FrameSize]);
        bytesRead := bytesRead + FrameSize;
      }
      ChunksLast(bytes, bytesRead);
      if bytesRead < |bytes| {
        WriteCharacteristic(bytes[bytesRead..]);
      }
    }

    /** `sendString`: the string's octets, sent as one payload. */
    method SendString(s: string)
      requires Valid()
      modifies this`frames
      ensures Valid()
      ensures frames == old(frames) + Sent(Live(), [s])
    {
      SendBytes(GetBytes(s));
      WireOne(s);
    }

    method SendVolume()
      requires Valid()
      modifies this`frames
      ensures Valid()
      ensures frames == old(frames) + Sent(Live(), [VolumeMessage(volume)])
    {
      SendString(VolumeMessage(volume));
    }

    method SendPlaying()
      requires Valid()
      modifies this`frames
      ensures Valid()
      ensures frames == old(frames) + Sent(Live(), [PlayingMessage(playing)])
    {
      SendString(PlayingMessage(playing));
    }

    method SendNetwork()
      requires Valid()
      modifies this`frames
      ensures Valid()
      ensures frames == old(frames) + Sent(Live(), [NetworkMessage(online)])
    {
      SendString(NetworkMessage(online));
    }

    method SendArtist()
      requires Valid()
      modifies this`frames
      ensures Valid()
      ensures frames == old(frames) + Sent(Live(), [ArtistMessage(artist)])
    {
      SendString(ArtistMessage(artist));
    }

    method SendTrack()
      requires Valid()
      modifies this`frames
      ensures Valid()
      ensures frames == old(frames) + Sent(Live(), [TrackMessage(track)])
    {
      SendString(TrackMessage(track));
    }

    /** `sendState`: the full-state push. */
    method SendState()
      requires Valid()
      modifies this`frames
      ensures Valid()
      ensures frames == old(frames) + Sent(Live(), StateMessages(volume, playing, artist, track))
    {
      SentInTurn(Live(), frames, VolumeMessage(volume), PlayingMessage(playing), ArtistMessage(artist), TrackMessage(track));
      SendVolume();
      SendPlaying();
      SendArtist();
      SendTrack();
    }

    /** `adjustVolume`: one step within 0..127, handed on to the audio manager. */
    method AdjustVolume(up: bool)
      requires Valid()
      modifies this`volume, this`media
      ensures Valid()
      ensures volume == Commands.AdjustVolume(old(volume), up)
      ensures media == old(media) + [SetStreamVolume(volume)]
    {
      volume := Commands.AdjustVolume(volume, up);
      media := media + [SetStreamVolume(volume)];
    }

    /** The 'v' and 'V' arms of `handleBtByte`: one step, then the new level reported. */
    method VolumeStep(up: bool)
      requires Valid()
      modifies this`volume, this`frames, this`media
      ensures Valid()
      ensures volume == Commands.AdjustVolume(old(volume), up)
      ensures media == old(media) + [SetStreamVolume(volume)]
      ensures frames == old(frames) + Sent(Live(), [VolumeMessage(volume)])
    {
      AdjustVolume(up);
      SendVolume();
    }

    /** `handleBtByte`: one inbound command octet. */
    method HandleBtByte(b: octet)
      requires Valid()
      modifies this`online, this`volume, this`frames, this`media
      ensures Valid()
      ensures var r := React(old(online), old(volume), b);
        online == r.online && volume == r.volume &&
        frames == old(frames) + Sent(Live(), r.replies) && media == old(media) + r.media
    {
      match Decode(b)
      case ToggleOnline =>
        online := !online;
        SendNetwork();
      case PlayPause =>
        media := media + [Toggle];
      case PreviousTrack =>
        media := media + [Previous];
      case NextTrack =>
        media := media + [Next];
      case VolumeDown =>
        VolumeStep(false);
      case VolumeUp =>
        VolumeStep(true);
      case Unknown =>
    }

    /** The state after a run of octets: its flags, and its replies and media calls after the given logs. */
    ghost predicate Replays(f0: seq<seq<octet>>, m0: seq<MediaCommand>, d: Dispatch)
      reads this`online, this`volume, this`frames, this`media, this`connected, this`gatt
    {
      online == d.online && volume == d.volume && frames == f0 + Sent(Live(), d.replies) && media == m0 + d.media
    }

    /** One more octet of a notification, handled on top of those before it. */
    method HandleNext(ghost f0: seq<seq<octet>>, ghost m0: seq<MediaCommand>, ghost d: Dispatch, b: octet)
      requires Valid() && Replays(f0, m0, d)
      modifies this`online, this`volume, this`frames, this`media
      ensures Valid() && Replays(f0, m0, Step(d, b))
    {
      HandleBtByte(b);
      LogsStep(Live(), f0, m0, d, b);
    }

    /**
     * `broadcastUpdate(ACTION_RX, characteristic)`: every octet of a value on
     * the RX characteristic, handled in order; values of other
     * characteristics are only passed on to the user interface.
     */
    method HandleRx(fromRx: bool, value: seq<octet>)
      requires Valid()
      modifies this`online, this`volume, this`frames, this`media
      ensures Valid()
      ensures var d := Run(Dispatch(old(online), old(volume), [], []), if fromRx then value else []);
        online == d.online && volume == d.volume &&
        frames == old(frames) + Sent(Live(), d.replies) && media == old(media) + d.media
    {
      if !fromRx {
        return;
      }
      ghost var start := Dispatch(online, volume, [], []);
      ghost var d := start;
      var i := 0;
      while i < |value|
        invariant 0 <= i <= |value| && Valid()
        invariant d == Run(start, value[..i])
        invariant Replays(old(frames), old(media), d)
      {
        HandleNext(old(frames), old(media), d, value[i]);
        RunStep(start, value, i);
        d := Step(d, value[i]);
        i := i + 1;
      }
      assert value[..|value|] == value;
    }

    /** `onCharacteristicChanged`: a notification from the peripheral. */
    method OnCharacteristicChanged(fromRx: bool, value: seq<octet>)
      requires Valid()
      modifies this`online, this`volume, this`frames, this`media
      ensures Valid()
      ensures var d := Run(Dispatch(old(online), old(volume), [], []), if fromRx then value else []);
        online == d.online && volume == d.volume &&
        frames == old(frames) + Sent(Live(), d.replies) && media == old(media) + d.media
    {
      HandleRx(fromRx, value);
    }

    /** `onCharacteristicRead`: a completed read, handled like a notification when it succeeded. */
    method OnCharacteristicRead(success: bool, fromRx: bool, value: seq<octet>)
      requires Valid()
      modifies this`online, this`volume, this`frames, this`media
      ensures Valid()
      ensures var d := Run(Dispatch(old(online), old(volume), [], []), if success && fromRx then value else []);
        online == d.online && volume == d.volume &&
        frames == old(frames) + Sent(Live(), d.replies) && media == old(media) + d.media
    {
      if success {
        HandleRx(fromRx, value);
      } else {
        assert Run(Dispatch(online, volume, [], []), []) == Dispatch(online, volume, [], []);
      }
    }

    /**
     * `handleNotificationAction`: a ticker holding the delimiter sets track
     * and artist and sends the artist before the track; any other ticker
     * changes and sends nothing.
     */
    method HandleNotificationAction(tickerText: string)
      requires Valid()
      modifies this`track, this`artist, this`frames
      ensures Valid()
      ensures ParseTicker(tickerText).None? ==>
        View() == old(View()) && frames == old(frames)
      ensures ParseTicker(tickerText).Some? ==>
        View() == old(View()).(track := ParseTicker(tickerText).value.track, artist := ParseTicker(tickerText).value.artist) &&
        frames == old(frames) + Sent(Live(), [ArtistMessage(artist), TrackMessage(track)])
    {
      var song := ParseTicker(tickerText);
      if song.Some? {
        track := song.value.track;
        artist := song.value.artist;
        SentPair(Live(), frames, ArtistMessage(artist), TrackMessage(track));
        SendArtist();
        SendTrack();
      }
    }

    /** `connectToDevice`. */
    method ConnectToDevice(reconnectAccepted: bool) returns (ok: bool)
      requires Valid()
      modifies this`gatt, this`deviceAddress, this`created, this`transport
      ensures Valid()
      ensures ConnectEffect()
      ensures ok == (storedDevice.Some? && (old(Reuses()) ==> reconnectAccepted))
    {
      if storedDevice.None? {
        return false;
      }
      var address := storedDevice.value;
      if deviceAddress == Some(address) && gatt.Some? {
        // `reconnectAccepted` is what the existing object's connect() answers.
        transport := transport + [GattReconnect(gatt.value)];
        return reconnectAccepted;
      }
      gatt := Some(created);
      transport := transport + [GattConnect(address, created)];
      created := created + 1;
      deviceAddress := Some(address);
      return true;
    }

    /** `disconnect`: asks the held connection object to disconnect, if there is one. */
    method Disconnect()
      requires Valid()
      modifies this`transport
      ensures Valid()
      ensures transport == old(transport) + (if gatt.Some? then [GattDisconnect(gatt.value)] else [])
    {
      if gatt.None? {
        return;
      }
      transport := transport + [GattDisconnect(gatt.value)];
    }

    /** `close`: releases the held connection object, if there is one. */
    method Close()
      requires Valid()
      modifies this`gatt, this`transport
      ensures Valid()
      ensures gatt.None?
      ensures transport == old(transport) + (if old(gatt).Some? then [GattClose(old(gatt).value)] else [])
    {
      if gatt.None? {
        return;
      }
      transport := transport + [GattClose(gatt.value)];
      gatt := None;
    }

    /** `chooseDevice`: stores the address (possibly none) and connects to it. */
    method ChooseDevice(address: Option<string>)
      requires Valid()
      modifies this`storedDevice, this`gatt, this`deviceAddress, this`created, this`transport
      ensures Valid()
      ensures storedDevice == address
      ensures View() == old(View()).(storedDevice := address, gatt := gatt, deviceAddress := deviceAddress, created := created)
      ensures ConnectEffect()
    {
      storedDevice := address;
      // The result is discarded, so the driver's answer to a reuse does not matter.
      var _ := ConnectToDevice(true);
    }

    /** `forgetDevice`: clears the stored address, then disconnects. */
    method ForgetDevice()
      requires Valid()
      modifies this`storedDevice, this`transport
      ensures Valid()
      ensures storedDevice.None?
      ensures View() == old(View()).(storedDevice := None)
      ensures transport == old(transport) + (if gatt.Some? then [GattDisconnect(gatt.value)] else [])
    {
      storedDevice := None;
      Disconnect();
    }

    /** `onConnectionStateChange`. */
    method OnConnectionStateChange(newState: ProfileState)
      requires Valid()
      requires newState == StateConnected ==> gatt.Some?
      modifies this`connected, this`transport
      ensures Valid()
      ensures newState == StateConnected ==>
        connected == old(connected) && transport == old(transport) + [GattDiscoverServices(gatt.value)]
      ensures newState == StateDisconnected ==> !connected && transport == old(transport)
      ensures newState in {StateConnecting, StateDisconnecting} ==>
        connected == old(connected) && transport == old(transport)
    {
      if newState == StateConnected {
        transport := transport + [GattDiscoverServices(gatt.value)];
      } else if newState == StateDisconnected {
        connected := false;
      }
    }

    /**
     * `onServicesDiscovered`: on success the characteristics are resolved,
     * notifications armed, the host's volume taken as the baseline and the
     * session marked connected; a failure changes nothing.
     */
    method OnServicesDiscovered(success: bool, hostVolume: int)
      requires Valid()
      requires 0 <= hostVolume <= MaxVolume
      requires success ==> gatt.Some?
      modifies this`connected, this`volume, this`handles, this`transport
      ensures Valid()
      ensures success ==>
        connected && handles == gatt && volume == hostVolume &&
        transport == old(transport) + [GattEnableNotifications(gatt.value)]
      ensures !success ==>
        connected == old(connected) && handles == old(handles) && volume == old(volume) &&
        transport == old(transport)
    {
      if success {
        handles := gatt;
        transport := transport + [GattEnableNotifications(gatt.value)];
        volume := hostVolume;
        connected := true;
      }
    }

    /** The play-state broadcast: the flag recorded, then reported. */
    method SetPlaying(now: bool)
      requires Valid()
      modifies this`playing, this`frames
      ensures Valid()
      ensures View() == old(View()).(playing := now)
      ensures frames == old(frames) + Sent(Live(), [PlayingMessage(now)])
    {
      playing := now;
      SendPlaying();
    }

    /**
     * `mReceiver.onReceive`: dispatch on the intent's action. A posted
     * notification is registered for but not acted on.
     */
    method OnReceive(intent: HostIntent)
      requires Valid()
      modifies this
      ensures Valid()
      ensures intent.SongChanged? ==>
        var song := ParseTicker(intent.tickerText);
        media == old(media) && transport == old(transport) &&
        if song.None? then View() == old(View()) && frames == old(frames)
        else
          View() == old(View()).(track := song.value.track, artist := song.value.artist) &&
          frames == old(frames) + Sent(Live(), [ArtistMessage(artist), TrackMessage(track)])
      ensures intent.DeviceChosen? ==>
        View() == old(View()).(storedDevice := intent.address, gatt := gatt, deviceAddress := deviceAddress, created := created) &&
        ConnectEffect() && frames == old(frames) && media == old(media)
      ensures intent.ForgetRequested? ==>
        View() == old(View()).(storedDevice := None) && frames == old(frames) && media == old(media) &&
        transport == old(transport) + (if gatt.Some? then [GattDisconnect(gatt.value)] else [])
      ensures intent.PlayStateChanged? ==>
        var now := if intent.playing.Some? then intent.playing.value else false;
        View() == old(View()).(playing := now) && media == old(media) && transport == old(transport) &&
        frames == old(frames) + Sent(Live(), [PlayingMessage(now)])
      ensures intent.NotificationPosted? ==>
        View() == old(View()) && frames == old(frames) && media == old(media) && transport == old(transport)
    {
      match intent
      case SongChanged(tickerText) =>
        HandleNotificationAction(tickerText);
      case DeviceChosen(address) =>
        ChooseDevice(address);
      case ForgetRequested =>
        ForgetDevice();
      case PlayStateChanged(extra) =>
        // getBooleanExtra("playing", false)
        SetPlaying(if extra.Some? then extra.value else false);
      case NotificationPosted =>
    }
  }
}
