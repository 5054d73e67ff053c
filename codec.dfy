/**
 * The outbound wire protocol: the ASCII strings the service sends to the
 * peripheral for each piece of host state, and, as their partner, an inverse
 * reading defined here that recovers the state from such a string.
 */
module Codec {
  import opened Wrappers
  import opened Java

  /** `toHex`: a nibble as a lowercase hexadecimal digit, and '*' for anything else. */
  function ToHex(b: int): (c: char)
    ensures 0 <= b < 10 ==> c as int == '0' as int + b
    ensures 10 <= b < 16 ==> c as int == 'a' as int + (b - 10)
    ensures !(0 <= b < 16) ==> c == '*'
  {
    match b
    case 0 => '0'
    case 1 => '1'
    case 2 => '2'
    case 3 => '3'
    case 4 => '4'
    case 5 => '5'
    case 6 => '6'
    case 7 => '7'
    case 8 => '8'
    case 9 => '9'
    case 10 => 'a'
    case 11 => 'b'
    case 12 => 'c'
    case 13 => 'd'
    case 14 => 'e'
    case 15 => 'f'
    case _ => '*'
  }

  /** The value of a lowercase hexadecimal digit: the inverse of `ToHex` on nibbles. */
  function HexValue(c: char): Option<int> {
    if '0' <= c <= '9' then Some(c as int - '0' as int)
    else if 'a' <= c <= 'f' then Some(c as int - 'a' as int + 10)
    else None
  }

  /** Every nibble survives the trip through a hex digit. */
  lemma HexValueToHex(n: int)
    requires 0 <= n < 16
    ensures HexValue(ToHex(n)) == Some(n)
  {
  }

  /** And every digit `HexValue` accepts is the one `ToHex` produces for its value. */
  lemma ToHexHexValue(c: char)
    requires HexValue(c).Some?
    ensures 0 <= HexValue(c).value < 16
    ensures ToHex(HexValue(c).value) == c
  {
  }

  /**
   * `sendVolume`: "v" and two hex digits of `(byte) Math.min(255, volume * 2)`,
   * the high nibble taken as `(volume >> 4) & 0xF` and the low one as
   * `volume & 0xF` on the sign-extended byte.
   */
  function VolumeMessage(volume: int): (s: string)
    ensures |s| == 3 && s[0] == 'v'
  {
    var wire := ToByte(Min(255, volume * 2));
    ['v', ToHex(LowNibble(ShiftRight4(wire))), ToHex(LowNibble(wire))]
  }

  /**
   * For every volume the service can hold, the signed cast does no harm: the
   * two digits are the high and low nibbles of twice the volume.
   */
  lemma VolumeMessageDigits(volume: int)
    requires 0 <= volume <= 127
    ensures VolumeMessage(volume) == ['v', ToHex(2 * volume / 16), ToHex(2 * volume % 16)]
  {
    assert Min(255, 2 * volume) == 2 * volume;
    SignedNibbles(2 * volume);
  }

  /** Round trip: the hex pair of a volume message decodes to twice the volume. */
  lemma VolumeWireValue(volume: int)
    requires 0 <= volume <= 127
    ensures var s := VolumeMessage(volume);
      HexValue(s[1]).Some? && HexValue(s[2]).Some? &&
      16 * HexValue(s[1]).value + HexValue(s[2]).value == 2 * volume
  {
    VolumeMessageDigits(volume);
    HexValueToHex(2 * volume / 16);
    HexValueToHex(2 * volume % 16);
  }

  lemma VolumeMessageExamples()
    ensures VolumeMessage(127) == "vfe"
    ensures VolumeMessage(64) == "v80"
    ensures VolumeMessage(0) == "v00"
  {
    VolumeMessageDigits(127);
    VolumeMessageDigits(64);
    VolumeMessageDigits(0);
  }

  /** `sendPlaying`. */
  function PlayingMessage(playing: bool): (s: string)
    ensures Parse(s) == Some(Playing(playing))
  {
    if playing then "X" else "x"
  }

  /** `sendNetwork`. */
  function NetworkMessage(online: bool): (s: string)
    ensures Parse(s) == Some(Network(online))
  {
    if online then "O" else "o"
  }

  /** `sendArtist`. */
  function ArtistMessage(artist: string): (s: string)
    ensures Parse(s) == Some(Artist(artist))
  {
    var s := "a" + artist + "\n";
    assert s[1..|s| - 1] == artist;
    s
  }

  /** `sendTrack`. */
  function TrackMessage(track: string): (s: string)
    ensures Parse(s) == Some(Track(track))
  {
    var s := "t" + track + "\n";
    assert s[1..|s| - 1] == track;
    s
  }

  /** `sendState`: volume, playing flag, artist and track, in that order. */
  function StateMessages(volume: int, playing: bool, artist: string, track: string): (r: seq<string>)
    ensures |r| == 4 && r[0] == VolumeMessage(volume)
    ensures Parse(r[1]) == Some(Playing(playing))
    ensures Parse(r[2]) == Some(Artist(artist)) && Parse(r[3]) == Some(Track(track))
  {
    [VolumeMessage(volume), PlayingMessage(playing), ArtistMessage(artist), TrackMessage(track)]
  }

  /** What one outbound message says. */
  datatype Message =
    | Volume(level: int)
    | Playing(on: bool)
    | Network(on: bool)
    | Artist(name: string)
    | Track(name: string)

  predicate WellFormed(m: Message) {
    m.Volume? ==> 0 <= m.level <= 127
  }

  function Encode(m: Message): string {
    match m
    case Volume(level) => VolumeMessage(level)
    case Playing(on) => PlayingMessage(on)
    case Network(on) => NetworkMessage(on)
    case Artist(name) => ArtistMessage(name)
    case Track(name) => TrackMessage(name)
  }

  /** An inverse of the builders defined here: the reference they are checked against. */
  function Parse(s: string): Option<Message> {
    if s == "X" then Some(Playing(true))
    else if s == "x" then Some(Playing(false))
    else if s == "O" then Some(Network(true))
    else if s == "o" then Some(Network(false))
    else if |s| == 3 && s[0] == 'v' && HexValue(s[1]).Some? && HexValue(s[2]).Some? then
      var wire := 16 * HexValue(s[1]).value + HexValue(s[2]).value;
      if wire % 2 == 0 then Some(Volume(wire / 2)) else None
    else if |s| >= 2 && s[0] == 'a' && s[|s| - 1] == '\n' then Some(Artist(s[1..|s| - 1]))
    else if |s| >= 2 && s[0] == 't' && s[|s| - 1] == '\n' then Some(Track(s[1..|s| - 1]))
    else None
  }

  /** A volume message reads back as its level. */
  lemma ParseVolume(level: int)
    requires 0 <= level <= 127
    ensures Parse(VolumeMessage(level)) == Some(Volume(level))
  {
    var s := VolumeMessage(level);
    VolumeWireValue(level);
    var wire := 16 * HexValue(s[1]).value + HexValue(s[2]).value;
    assert wire % 2 == 0 && wire / 2 == level;
    assert s != "X" && s != "x" && s != "O" && s != "o" by { assert |s| == 3; }
  }

  /** Every message the service builds is read back as the message it encodes. */
  lemma ParseEncode(m: Message)
    requires WellFormed(m)
    ensures Parse(Encode(m)) == Some(m)
  {
    match m
    case Volume(level) =>
      ParseVolume(level);
    case Playing(on) =>
    case Network(on) =>
    case Artist(name) =>
      var s := ArtistMessage(name);
      assert s[1..|s| - 1] == name;
    case Track(name) =>
      var s := TrackMessage(name);
      assert s[1..|s| - 1] == name;
  }

  /** An even value of two hex digits is twice a volume, and those digits are its nibbles. */
  lemma HalfOfPair(h: int, l: int)
    requires 0 <= h < 16 && 0 <= l < 16 && (16 * h + l) % 2 == 0
    ensures 0 <= (16 * h + l) / 2 <= 127
    ensures 2 * ((16 * h + l) / 2) / 16 == h && 2 * ((16 * h + l) / 2) % 16 == l
  {
    assert 2 * ((16 * h + l) / 2) == 16 * h + l;
  }

  /** A three-character volume string with an even hex pair is the message for half its value. */
  lemma EncodeVolume(s: string)
    requires |s| == 3 && s[0] == 'v' && HexValue(s[1]).Some? && HexValue(s[2]).Some?
    requires (16 * HexValue(s[1]).value + HexValue(s[2]).value) % 2 == 0
    ensures 0 <= (16 * HexValue(s[1]).value + HexValue(s[2]).value) / 2 <= 127
    ensures VolumeMessage((16 * HexValue(s[1]).value + HexValue(s[2]).value) / 2) == s
  {
    var h, l := HexValue(s[1]).value, HexValue(s[2]).value;
    ToHexHexValue(s[1]);
    ToHexHexValue(s[2]);
    HalfOfPair(h, l);
    var level := (16 * h + l) / 2;
    VolumeMessageDigits(level);
    assert s == ['v', ToHex(h), ToHex(l)];
  }

  /** Conversely, every string `Parse` accepts is exactly the encoding of what it read. */
  lemma EncodeParse(s: string)
    requires Parse(s).Some?
    ensures WellFormed(Parse(s).value)
    ensures Encode(Parse(s).value) == s
  {
    if |s| == 3 && s[0] == 'v' && HexValue(s[1]).Some? && HexValue(s[2]).Some? && !(s in {"X", "x", "O", "o"}) {
      EncodeVolume(s);
    } else if |s| >= 2 && s[0] == 'a' && s[|s| - 1] == '\n' && !(s in {"X", "x", "O", "o"}) {
      assert "a" + s[1..|s| - 1] + "\n" == s;
    } else if |s| >= 2 && s[0] == 't' && s[|s| - 1] == '\n' && !(s in {"X", "x", "O", "o"}) {
      assert "t" + s[1..|s| - 1] + "\n" == s;
    }
  }
}
