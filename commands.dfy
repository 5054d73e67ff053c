/**
 * The inbound protocol of `handleBtByte`: each octet the peripheral notifies
 * is one command, and the service answers some of them with a state frame.
 */
module Commands {
  import opened Java
  import opened Codec

  /** The immediate step of the volume buttons, `VOLUME_DELTA`. */
  const VolumeDelta: int := 1

  /** The top of the service's internal volume scale. */
  const MaxVolume: int := 127

  datatype Command =
    | ToggleOnline
    | PlayPause
    | PreviousTrack
    | NextTrack
    | VolumeDown
    | VolumeUp
    | Unknown

  /** The `switch` on `(char) b`. */
  function Decode(b: octet): (r: Command)
    ensures r != Unknown ==> b < 128
  {
    var c := CharOfByte(b);
    if c == 'o' as int then ToggleOnline
    else if c == 'x' as int then PlayPause
    else if c == 'P' as int then PreviousTrack
    else if c == 'N' as int then NextTrack
    else if c == 'v' as int then VolumeDown
    else if c == 'V' as int then VolumeUp
    else Unknown
  }

  /** Exactly the six ASCII letters o, x, P, N, v and V mean anything. */
  lemma DecodeKnown(b: octet)
    ensures Decode(b) != Unknown <==> b in ['o' as int, 'x' as int, 'P' as int, 'N' as int, 'v' as int, 'V' as int]
  {
  }

  /** The calls the service makes into the media player and the audio manager. */
  datatype MediaCommand =
    | Toggle
    | Previous
    | Next
    | SetStreamVolume(level: int)

  /**
   * The integer part of `adjustVolume`: one step up or down, clamped to
   * 0..127, then cast back to a byte.
   */
  function AdjustVolume(volume: int, up: bool): (r: int)
    ensures 0 <= r <= MaxVolume
    ensures 0 <= volume <= MaxVolume && up ==> r == (if volume == MaxVolume then volume else volume + 1)
    ensures 0 <= volume <= MaxVolume && !up ==> r == (if volume == 0 then volume else volume - 1)
  {
    ToByte(Min(MaxVolume, Max(0, volume + (if up then VolumeDelta else -VolumeDelta))))
  }

  /**
   * The part of the session that inbound commands read and change, with the
   * replies and media calls they have produced so far.
   */
  datatype Dispatch = Dispatch(online: bool, volume: int, replies: seq<string>, media: seq<MediaCommand>)

  /** One octet's effect, starting from no replies and no media calls. */
  function React(online: bool, volume: int, b: octet): (r: Dispatch)
    ensures 0 <= volume <= MaxVolume ==> 0 <= r.volume <= MaxVolume
    ensures |r.replies| <= 1 && |r.media| <= 1
    ensures r.replies == [] ==> r.online == online && r.volume == volume
  {
    match Decode(b)
    case ToggleOnline => Dispatch(!online, volume, [NetworkMessage(!online)], [])
    case PlayPause => Dispatch(online, volume, [], [Toggle])
    case PreviousTrack => Dispatch(online, volume, [], [Previous])
    case NextTrack => Dispatch(online, volume, [], [Next])
    case VolumeDown =>
      var v := AdjustVolume(volume, false);
      Dispatch(online, v, [VolumeMessage(v)], [SetStreamVolume(v)])
    case VolumeUp =>
      var v := AdjustVolume(volume, true);
      Dispatch(online, v, [VolumeMessage(v)], [SetStreamVolume(v)])
    case Unknown => Dispatch(online, volume, [], [])
  }

  /** One more octet handled: its reply and media call, if any, are appended. */
  function Step(d: Dispatch, b: octet): (r: Dispatch)
    ensures d.replies <= r.replies && |r.replies| <= |d.replies| + 1
    ensures d.media <= r.media && |r.media| <= |d.media| + 1
  {
    var r := React(d.online, d.volume, b);
    Dispatch(r.online, r.volume, d.replies + r.replies, d.media + r.media)
  }

  /** The octets of one notification, handled in order. */
  function Run(d: Dispatch, bytes: seq<octet>): (r: Dispatch)
    ensures |r.replies| <= |d.replies| + |bytes| && |r.media| <= |d.media| + |bytes|
  {
    if bytes == [] then d else Step(Run(d, bytes[..|bytes| - 1]), bytes[|bytes| - 1])
  }

  /**
   * What each command does: 'o' flips the online flag and reports the new
   * value; 'x', 'P' and 'N' only call the media player; 'v' and 'V' move the
   * volume one step within 0..127, set it and report it; anything else does
   * nothing at all.
   */
  lemma ReactCases(online: bool, volume: int, b: octet)
    requires 0 <= volume <= MaxVolume
    ensures var r := React(online, volume, b);
      && 0 <= r.volume <= MaxVolume
      && (Decode(b) == ToggleOnline ==> r == Dispatch(!online, volume, [NetworkMessage(!online)], []))
      && (Decode(b) == PlayPause ==> r == Dispatch(online, volume, [], [Toggle]))
      && (Decode(b) == PreviousTrack ==> r == Dispatch(online, volume, [], [Previous]))
      && (Decode(b) == NextTrack ==> r == Dispatch(online, volume, [], [Next]))
      && (Decode(b) == VolumeUp ==>
            r.online == online && r.volume == Min(MaxVolume, volume + 1) &&
            r.replies == [VolumeMessage(r.volume)] && r.media == [SetStreamVolume(r.volume)])
      && (Decode(b) == VolumeDown ==>
            r.online == online && r.volume == Max(0, volume - 1) &&
            r.replies == [VolumeMessage(r.volume)] && r.media == [SetStreamVolume(r.volume)])
      && (Decode(b) == Unknown ==> r == Dispatch(online, volume, [], []))
  {
    match Decode(b)
    case VolumeUp =>
      assert React(online, volume, b).volume == Min(MaxVolume, volume + 1);
    case VolumeDown =>
      assert React(online, volume, b).volume == Max(0, volume - 1);
    case _ =>
  }

  lemma RunStep(d: Dispatch, bytes: seq<octet>, i: nat)
    requires i < |bytes|
    ensures Run(d, bytes[..i + 1]) == Step(Run(d, bytes[..i]), bytes[i])
  {
    assert bytes[..i + 1][..i] == bytes[..i];
  }

  lemma {:induction false} RunAppend(d: Dispatch, a: seq<octet>, b: seq<octet>)
    ensures Run(d, a + b) == Run(Run(d, a), b)
    decreases |b|
  {
    if b == [] {
      assert a + b == a;
    } else {
      assert (a + b)[..|a + b| - 1] == a + b[..|b| - 1];
      RunAppend(d, a, b[..|b| - 1]);
    }
  }

  /** Whatever the peripheral sends, the volume stays within 0..127. */
  lemma {:induction false} RunVolumeInRange(d: Dispatch, bytes: seq<octet>)
    requires 0 <= d.volume <= MaxVolume
    ensures 0 <= Run(d, bytes).volume <= MaxVolume
  {
    if bytes != [] {
      RunVolumeInRange(d, bytes[..|bytes| - 1]);
    }
  }

  /** Replies and media calls only accumulate. */
  lemma {:induction false} RunExtends(d: Dispatch, bytes: seq<octet>)
    ensures d.replies <= Run(d, bytes).replies && d.media <= Run(d, bytes).media
  {
    if bytes != [] {
      RunExtends(d, bytes[..|bytes| - 1]);
    }
  }

  /**
   * Two 'o' octets restore the online flag and produce two opposite reports,
   * the flipped value first.
   */
  lemma RunToggleTwice(d: Dispatch)
    ensures var o := 'o' as int;
      var e := Run(d, [o, o]);
      e.online == d.online && e.volume == d.volume && e.media == d.media &&
      e.replies == d.replies + [NetworkMessage(!d.online), NetworkMessage(d.online)]
  {
    var o := 'o' as int;
    assert Decode(o) == ToggleOnline;
    assert [o][..0] == [];
    assert Run(d, [o]) == Step(d, o);
    assert [o, o][..1] == [o];
    assert Run(d, [o, o]) == Step(Step(d, o), o);
  }

  /** n 'V' octets raise the volume by n, but never past 127. */
  lemma {:induction false} RunVolumeUps(d: Dispatch, n: nat)
    requires 0 <= d.volume <= MaxVolume
    ensures Run(d, seq(n, _ => 'V' as int)).volume == Min(MaxVolume, d.volume + n)
  {
    if n > 0 {
      var ups := seq(n, _ => 'V' as int);
      assert ups[..n - 1] == seq(n - 1, _ => 'V' as int);
      RunVolumeUps(d, n - 1);
      var prev := Run(d, ups[..n - 1]);
      assert Decode('V' as int) == VolumeUp;
      assert Run(d, ups) == Step(prev, 'V' as int);
    }
  }

  /** n 'v' octets lower the volume by n, but never below 0. */
  lemma {:induction false} RunVolumeDowns(d: Dispatch, n: nat)
    requires 0 <= d.volume <= MaxVolume
    ensures Run(d, seq(n, _ => 'v' as int)).volume == Max(0, d.volume - n)
  {
    if n > 0 {
      var downs := seq(n, _ => 'v' as int);
      assert downs[..n - 1] == seq(n - 1, _ => 'v' as int);
      RunVolumeDowns(d, n - 1);
      var prev := Run(d, downs[..n - 1]);
      assert Decode('v' as int) == VolumeDown;
      assert Run(d, downs) == Step(prev, 'v' as int);
    }
  }
}
