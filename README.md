# BTRemote link service, modelled in Dafny

This project models `RBLService`, the Android service of BTRemoteAndroid. The
service keeps a Bluetooth Low Energy peripheral (a RedBearLab shield) informed
of the host's media state: volume, play state, network flag, artist and track.
It also acts on the one-letter commands the peripheral sends back.

The model has three layers.

- **Outbound wire protocol** (`Codec`, `Chunker`, `Java`):
  - the ASCII strings `sendVolume`, `sendPlaying`, `sendNetwork`, `sendArtist` and `sendTrack` build;
  - the `toHex` nibble table;
  - the Java semantics these depend on: the signed `(byte)` cast, `>> 4`, `& 0xF`, `(char)` of a byte and `String.getBytes()`;
  - the 20-octet framing of `sendBytes`.

  As the partner of these builders, `Codec.Parse` is an inverse defined in this model that reads each message back to the state it encodes. Round trips are proved in both directions. The peripheral's firmware is not part of this model, so this is not a claim about how the peripheral reads the messages.
- **Inbound commands and the song ticker** (`Commands`, `Ticker`):
  - the `switch` of `handleBtByte`;
  - the integer clamp of `adjustVolume`;
  - the " — " split and 24-character truncation of `handleNotificationAction`;

  each as a pure function with lemmas about it.
- **The session** (`Session.RblService`): a class with the service's fields and
  one method per callback, request and helper. What leaves the service is
  appended to three ghost logs:
  - `frames` holds every `writeCharacteristic` request on the TX characteristic;
  - `media` holds the calls into the media player and the audio manager;
  - `transport` holds the calls into the Bluetooth stack.

  Each method's contract gives its state change and its log entries exactly,
  in terms of the pure layers. `Valid()` is the invariant every method keeps:
  - volume is in 0..127;
  - artist and track are at most 24 characters;
  - a session marked connected has resolved characteristics;
  - a connection object exists only for an address.

`Scenarios` drives the class through short event sequences: start-up and
connection, a 'V' after connecting answered with "vfe", a song change while
disconnected, and a forget racing a discovery.

The connection object (`mBluetoothGatt`) is an abstract identifier, numbered in
order of creation. The stored-device preference is the field `storedDevice`.

Behaviour a reader might expect that the code does not have (the model follows
the code):

- 'x' from the peripheral only asks the media player to toggle. It neither flips the playing flag nor sends a reply.
- There is no header-byte framing mode.
- `sendState` exists but nothing calls it. Its scheduled call after discovery is commented out.
- `mTX`/`mRX` are never cleared.
- A forget or disconnect request does not cancel a discovery in flight. A later successful discovery still marks the session connected (`Scenarios.LateDiscovery`).

## Model

| member | source | states |
|---|---|---|
| Java.Min | src/com/redbear/chat/RBLService.java:297 | `Math.min`: at most both arguments and equal to one of them |
| Java.Max | src/com/redbear/chat/RBLService.java:373-377 | `Math.max`: at least both arguments and equal to one of them |
| Java.ToByte | src/com/redbear/chat/RBLService.java:297 | `(byte)` cast: result in -128..127, identity on -128..127, minus 256 on 128..383 |
| Java.ToByteLowBits | src/com/redbear/chat/RBLService.java:297 | the cast changes its argument only by a multiple of 256 |
| Java.ShiftRight4 | src/com/redbear/chat/RBLService.java:299 | `>> 4` is floor division by 16, also for negative values |
| Java.LowNibble | src/com/redbear/chat/RBLService.java:299-300 | `& 0xF` yields 0..15 and is the identity on 0..15 |
| Java.LowNibbleLowBits | src/com/redbear/chat/RBLService.java:299-300 | the mask changes its argument only by a multiple of 16 |
| Java.SignedNibbles | src/com/redbear/chat/RBLService.java:297-300 | for 0 <= u < 256, the shift-and-mask of the signed cast still gives u / 16 and u % 16 |
| Java.CharOfByte | src/com/redbear/chat/RBLService.java:330 | `(char) b`: ASCII octets map to themselves, octets from 128 up to 0xFF80..0xFFFF |
| Java.CharOfByteCast | src/com/redbear/chat/RBLService.java:330 | that value is the sign-extended byte taken modulo 2^16 |
| Java.AsciiByte | src/com/redbear/chat/RBLService.java:418 | one character's octet is below 128, and is the character's own code exactly when that code is ASCII |
| Java.GetBytes | src/com/redbear/chat/RBLService.java:417-419 | one octet per character: the code itself for ASCII, '?' otherwise |
| Java.GetBytesAppend | src/com/redbear/chat/RBLService.java:417-419 | encoding distributes over concatenation |
| Java.AsciiText | src/com/redbear/chat/RBLService.java:417-419 | reading octets back as text preserves length |
| Java.AsciiTextGetBytes | src/com/redbear/chat/RBLService.java:417-419 | ASCII text survives the encode/read-back round trip |
| Codec.ToHex | src/com/redbear/chat/RBLService.java:273-294 | '0'..'9' for 0..9, 'a'..'f' for 10..15, '*' for every other int |
| Codec.HexValueToHex | src/com/redbear/chat/RBLService.java:273-294 | every nibble is recovered from its digit |
| Codec.ToHexHexValue | src/com/redbear/chat/RBLService.java:273-294 | every digit the inverse accepts is the `toHex` of its value |
| Codec.VolumeMessage | src/com/redbear/chat/RBLService.java:296-303 | the volume string is three characters and starts with 'v' |
| Codec.VolumeMessageDigits | src/com/redbear/chat/RBLService.java:296-303 | for 0..127, the digits are the high and low nibbles of twice the volume, despite the signed cast |
| Codec.VolumeWireValue | src/com/redbear/chat/RBLService.java:296-303 | the two digits decode to twice the volume |
| Codec.VolumeMessageExamples | src/com/redbear/chat/RBLService.java:296-303 | 127 gives "vfe", 64 gives "v80", 0 gives "v00" |
| Codec.ParseVolume | src/com/redbear/chat/RBLService.java:296-303 | a volume message is read back as its level |
| Codec.EncodeVolume | src/com/redbear/chat/RBLService.java:296-303 | every even "v" + hex-pair string is the message of half its value |
| Codec.PlayingMessage | src/com/redbear/chat/RBLService.java:305-307 | the playing message reads back as the playing flag |
| Codec.NetworkMessage | src/com/redbear/chat/RBLService.java:309-311 | the network message reads back as the online flag |
| Codec.ArtistMessage | src/com/redbear/chat/RBLService.java:313-315 | the artist message reads back as the artist, for every string |
| Codec.TrackMessage | src/com/redbear/chat/RBLService.java:317-319 | the track message reads back as the track, for every string |
| Codec.StateMessages | src/com/redbear/chat/RBLService.java:321-327 | four messages: the volume message, then ones that read back as the playing flag, the artist and the track |
| Codec.ParseEncode | src/com/redbear/chat/RBLService.java:296-319 | every volume, playing, network, artist and track message reads back as what it encodes |
| Codec.EncodeParse | src/com/redbear/chat/RBLService.java:296-319 | every string the reader accepts is exactly the encoding of what it read |
| Chunker.Chunks | src/com/redbear/chat/RBLService.java:397-414 | every frame holds 1 to 20 octets; there are no frames exactly when the payload is empty |
| Chunker.ChunksFrom | src/com/redbear/chat/RBLService.java:399-405 | one pass of the `sendBytes` loop takes exactly the next 20 octets |
| Chunker.ChunksLast | src/com/redbear/chat/RBLService.java:407-412 | after the loop, at most one frame with the rest remains, none if nothing is left |
| Chunker.FlattenChunks | src/com/redbear/chat/RBLService.java:397-414 | the frames concatenate back to the payload |
| Chunker.ChunkSizes | src/com/redbear/chat/RBLService.java:397-414 | all frames but the last are 20 octets, the last 1..20; ceil(n/20) frames; none for an empty payload |
| Chunker.Wire | src/com/redbear/chat/RBLService.java:417-419 | every frame written for a run of messages holds 1 to 20 octets |
| Chunker.WireAppend | src/com/redbear/chat/RBLService.java:417-419 | the frames of successive messages are those of each in turn |
| Chunker.FlattenWire | src/com/redbear/chat/RBLService.java:417-419 | the octets written grow by exactly the next message's `getBytes` octets |
| Ticker.Truncate | src/com/redbear/chat/RBLService.java:216-217 | `substring(0, min(len, 24))`: a prefix of length min(n, 24) |
| Ticker.FindDelimiter | src/com/redbear/chat/RBLService.java:211 | the first occurrence of " — " at or after a position, or none at all |
| Ticker.ParseTicker | src/com/redbear/chat/RBLService.java:211-217 | a song's track and artist are at most 24 characters, and the track is a prefix of the ticker |
| Ticker.ParseTickerDefined | src/com/redbear/chat/RBLService.java:211-215 | the split has two parts exactly when the ticker contains the delimiter |
| Ticker.ParseTickerSplits | src/com/redbear/chat/RBLService.java:211-217 | track is the text before the first delimiter, artist the text after, each cut to 24 |
| Ticker.ParseTickerJoin | src/com/redbear/chat/RBLService.java:211-217 | round trip: a joined track and artist of at most 24 characters are recovered |
| Ticker.ParseTickerExamples | src/com/redbear/chat/RBLService.java:211-217 | "Foo — Bar" gives track Foo and artist Bar; "FooBar" is no song change |
| Commands.Decode | src/com/redbear/chat/RBLService.java:330-356 | only ASCII octets are commands: a high octet's sign-extended `(char)` never matches a case |
| Commands.DecodeKnown | src/com/redbear/chat/RBLService.java:329-357 | exactly o, x, P, N, v and V are commands |
| Commands.AdjustVolume | src/com/redbear/chat/RBLService.java:371-378 | result in 0..127; up adds 1 unless at 127, down subtracts 1 unless at 0 |
| Commands.React | src/com/redbear/chat/RBLService.java:333-356 | a volume in 0..127 stays there; at most one reply and one media call; no reply means online flag and volume unchanged |
| Commands.Step | src/com/redbear/chat/RBLService.java:264-266 | one octet appends at most one reply and one media call to those before it |
| Commands.Run | src/com/redbear/chat/RBLService.java:264-266 | handling n octets adds at most n replies and n media calls |
| Commands.ReactCases | src/com/redbear/chat/RBLService.java:329-357 | 'o' flips online and reports it; x/P/N only issue a media command; v/V step, set and report the volume; others do nothing |
| Commands.RunAppend | src/com/redbear/chat/RBLService.java:264-266 | handling two runs of octets is handling their concatenation |
| Commands.RunVolumeInRange | src/com/redbear/chat/RBLService.java:264-266 | no octet sequence takes the volume out of 0..127 |
| Commands.RunExtends | src/com/redbear/chat/RBLService.java:264-266 | replies and media calls only accumulate |
| Commands.RunToggleTwice | src/com/redbear/chat/RBLService.java:334-336 | two 'o' restore the flag and report two opposite values, the flipped one first |
| Commands.RunVolumeUps | src/com/redbear/chat/RBLService.java:351-353 | n 'V' raise the volume by n, capped at 127 |
| Commands.RunVolumeDowns | src/com/redbear/chat/RBLService.java:347-349 | n 'v' lower the volume by n, floored at 0 |
| Session.Sent | src/com/redbear/chat/RBLService.java:389-395 | what a run of sends writes: frames of 1 to 20 octets, and nothing when not connected |
| Session.RblService.constructor | src/com/redbear/chat/RBLService.java:427-470 | the field defaults of lines 94-99 (not connected, online, volume 127, "Artist", "Track"), then a first connection attempt to the stored address |
| Session.RblService.WriteCharacteristic | src/com/redbear/chat/RBLService.java:632-639 | a frame is logged if and only if a connection object exists |
| Session.RblService.SendBytes | src/com/redbear/chat/RBLService.java:389-415 | frames of the payload, in order, when connected with an object; nothing otherwise |
| Session.RblService.SendString | src/com/redbear/chat/RBLService.java:417-419 | the frames of the string's octets |
| Session.RblService.SendVolume | src/com/redbear/chat/RBLService.java:296-303 | the frames of the volume message for the current level |
| Session.RblService.SendPlaying | src/com/redbear/chat/RBLService.java:305-307 | the frames of "X" or "x" |
| Session.RblService.SendNetwork | src/com/redbear/chat/RBLService.java:309-311 | the frames of "O" or "o" |
| Session.RblService.SendArtist | src/com/redbear/chat/RBLService.java:313-315 | the frames of "a" + artist + newline |
| Session.RblService.SendTrack | src/com/redbear/chat/RBLService.java:317-319 | the frames of "t" + track + newline |
| Session.RblService.SendState | src/com/redbear/chat/RBLService.java:321-327 | volume, playing, artist and track messages, in that order |
| Session.RblService.AdjustVolume | src/com/redbear/chat/RBLService.java:371-387 | the clamped step, then one audio-manager call with the new level |
| Session.RblService.VolumeStep | src/com/redbear/chat/RBLService.java:347-353 | a step, its audio-manager call and its volume report |
| Session.RblService.HandleBtByte | src/com/redbear/chat/RBLService.java:329-357 | fields and logs change exactly as `Commands.React` says |
| Session.RblService.HandleRx | src/com/redbear/chat/RBLService.java:259-271 | every octet of an RX value is handled in order, as the fold `Commands.Run`; other characteristics change nothing |
| Session.RblService.OnCharacteristicChanged | src/com/redbear/chat/RBLService.java:199-203 | a notification is an RX value handled in full |
| Session.RblService.OnCharacteristicRead | src/com/redbear/chat/RBLService.java:190-197 | a successful read is handled like a notification; a failed one changes nothing |
| Session.RblService.HandleNotificationAction | src/com/redbear/chat/RBLService.java:205-228 | with the delimiter: track and artist set from the split, artist frames then track frames; without it nothing changes |
| Session.RblService.ConnectToDevice | src/com/redbear/chat/RBLService.java:527-576 | no stored address: nothing, false; same address with an object: reuse it; otherwise a new object for the address |
| Session.RblService.Disconnect | src/com/redbear/chat/RBLService.java:582-591 | one disconnect call on the held object; nothing without one |
| Session.RblService.Close | src/com/redbear/chat/RBLService.java:597-603 | the held object is closed and dropped |
| Session.RblService.ChooseDevice | src/com/redbear/chat/RBLService.java:483-498 | the address is stored, then connected to; nothing else changes |
| Session.RblService.ForgetDevice | src/com/redbear/chat/RBLService.java:503-517 | the stored address is cleared, then a disconnect; nothing else changes |
| Session.RblService.OnConnectionStateChange | src/com/redbear/chat/RBLService.java:124-146 | connected: discovery requested, flag unchanged; disconnected: flag cleared; other states change nothing |
| Session.RblService.OnServicesDiscovered | src/com/redbear/chat/RBLService.java:157-188 | success: characteristics resolved, notifications armed, host volume taken, connected; failure changes nothing |
| Session.RblService.SetPlaying | src/com/redbear/chat/RBLService.java:242-243 | the flag is recorded and its frames sent; nothing else changes |
| Session.RblService.OnReceive | src/com/redbear/chat/RBLService.java:230-246 | song, choose, forget and play-state intents, each with exactly its handler's effect; the posted-notification intent changes nothing |
| Scenarios.ConnectStored | src/com/redbear/chat/RBLService.java:124-188 | start-up with a stored address, then connection and discovery: live, nothing sent, three stack calls |
| Scenarios.ConnectThenVolumeUp | src/com/redbear/chat/RBLService.java:347-353 | a 'V' at level 126 gives 127, one audio-manager call and the single frame "vfe" |
| Scenarios.SongWhileDisconnected | src/com/redbear/chat/RBLService.java:205-228 | a song change without a connection updates the fields; no frame is written and no stack call made |
| Scenarios.LateDiscovery | src/com/redbear/chat/RBLService.java:157-188 | a discovery completing after a forget still sets connected; only the disconnect callback clears it |

`mConnected` (`connected`) is listed in the modifies clauses of only two
methods: `OnConnectionStateChange`, which can only clear it, and
`OnServicesDiscovered`, which sets it on success and leaves it alone on failure.
`OnReceive` may modify the whole object, but its contract keeps `connected`
unchanged in every case. So the flag becomes true only through a successful
discovery.

## Left out

- The volume index mapping (`fromVolumeIndex`, `toVolumeIndex`) uses floating-point scaling against the audio manager's maximum. The host volume at discovery is a parameter in 0..127. `setStreamVolume` is logged with the service's own level, not the converted index.
- Out of scope as platform I/O:
  - intents broadcast to the user interface (`broadcastUpdate` beyond the RX dispatch, ACTION_READY and the others);
  - the receiver's registration;
  - the wake lock;
  - the `Timer` and post-connect task, which is commented out;
  - RSSI reads (`readRssi`, `onReadRemoteRssi`);
  - `readCharacteristic`;
  - `onBind` and `onDestroy`, the latter only calling `close`.
- `onCreate`'s early returns when the Bluetooth manager or adapter is missing are not modelled: the adapter is assumed present. For the same reason the adapter test in `connectToDevice`, `disconnect` and `writeCharacteristic` is not modelled either.
- `getRemoteDevice` returning null or throwing on a malformed address is not modelled: a device object is always obtained.
- The shield service being absent after a successful discovery (a null `service` in the source) is not modelled.
- `Session.RblService.OnConnectionStateChange` requires a connection object on a connected report, and `Session.RblService.OnServicesDiscovered` requires one on success. In both cases the source dereferences `mBluetoothGatt` and would fail without it.
- `Java.GetBytes` assumes US-ASCII as the platform charset. Characters outside ASCII become '?', and multi-byte charsets are not modelled.
- A null ticker text (the `tickerText` extra) is not modelled: the ticker is always a string. A missing "playing" extra is modelled, and defaults to false. A null device address in the choose intent is modelled, and clears the stored device.
- `mSource`, the queue-changed action and the reconnect interval are declared but never used in the service's logic.
- The gatt object's `connect()` result on reuse is an input of `ConnectToDevice`. Where the source discards the result, the model passes an arbitrary value.
- Descriptor contents and the notification-enable write inside `setCharacteristicNotification` are logged as a single transport call.
- Callbacks and intents are modelled as serialised, atomic events. In the source the GATT callbacks run on the Bluetooth binder thread (`connectGatt` at line 570 passes no handler), while `mReceiver.onReceive` runs on the main thread, and nothing synchronises them. The races between these threads on `mTX` (two `setValue`/`writeCharacteristic` pairs interleaving, so a frame carries another message's octets), on `mConnected` and on `mVolume` are not modelled.
- `Ticker.Truncate` counts Unicode code points: a Dafny string is a sequence of scalar values, while Java's `length()` and `substring(0, 24)` count UTF-16 code units. Text with characters outside the Basic Multilingual Plane is therefore cut later than in the source, and it is never cut in the middle of a surrogate pair, as the source can be.
- The boolean result of `writeCharacteristic` is not modelled. The source ignores it, and the platform refuses a write while an earlier one is still pending. So `frames` records the write requests issued, not the octets the peripheral receives.
- Main.java, Device.java, Chat.java and NLService.java are not part of this model. They are user-interface activities and a notification listener that only forwards the ticker text.
