/**
 * The song-change path of `handleNotificationAction`: the music player's
 * ticker reads "<track> — <artist>", split at the first em-dash delimiter,
 * each half cut to 24 characters.
 */
module Ticker {
  import opened Wrappers
  import opened Java

  /** A space, U+2014 EM DASH, a space. */
  const Delimiter: string := " \U{2014} "

  /** The longest artist or track name the service keeps and sends. */
  const FieldLimit: nat := 24

  datatype Song = Song(track: string, artist: string)

  predicate DelimiterAt(t: string, j: int) {
    0 <= j && j + |Delimiter| <= |t| && t[j..j + |Delimiter|] == Delimiter
  }

  predicate HasDelimiter(t: string) {
    exists j :: 0 <= j < |t| && DelimiterAt(t, j)
  }

  /** `s.substring(0, Math.min(s.length(), 24))`. */
  function Truncate(s: string): (r: string)
    ensures |r| == Min(|s|, FieldLimit)
    ensures r <= s
  {
    s[..Min(|s|, FieldLimit)]
  }

  /** The first place at or after `from` where the delimiter starts, if any. */
  function FindDelimiter(t: string, from: nat): (r: Option<nat>)
    requires from <= |t|
    ensures r.Some? ==> from <= r.value && DelimiterAt(t, r.value)
    ensures r.Some? ==> forall j :: from <= j < r.value ==> !DelimiterAt(t, j)
    ensures r.None? ==> forall j :: from <= j ==> !DelimiterAt(t, j)
    decreases |t| - from
  {
    if from + |Delimiter| > |t| then None
    else if t[from..from + |Delimiter|] == Delimiter then Some(from)
    else FindDelimiter(t, from + 1)
  }

  /**
   * `tickerText.split(" — ", 2)` followed by the length test: two parts
   * exactly when the delimiter occurs, the first being everything before its
   * first occurrence and the second everything after it.
   */
  function ParseTicker(t: string): (r: Option<Song>)
    ensures r.Some? ==> |r.value.track| <= FieldLimit && |r.value.artist| <= FieldLimit
    ensures r.Some? ==> r.value.track <= t
  {
    match FindDelimiter(t, 0)
    case None => None
    case Some(i) => Some(Song(Truncate(t[..i]), Truncate(t[i + |Delimiter|..])))
  }

  /** A ticker is a song change exactly when it contains the delimiter. */
  lemma ParseTickerDefined(t: string)
    ensures ParseTicker(t).Some? <==> HasDelimiter(t)
  {
    if HasDelimiter(t) {
      var j :| DelimiterAt(t, j);
      assert FindDelimiter(t, 0).Some?;
    }
  }

  /**
   * What a song change keeps: the track is the text before the first
   * delimiter and the artist the text after it, each cut to 24 characters.
   */
  lemma ParseTickerSplits(t: string)
    requires ParseTicker(t).Some?
    ensures var song := ParseTicker(t).value;
      exists i :: DelimiterAt(t, i) && !HasDelimiter(t[..i + |Delimiter| - 1]) &&
        song.track == Truncate(t[..i]) && song.artist == Truncate(t[i + |Delimiter|..])
    ensures |ParseTicker(t).value.track| <= FieldLimit && |ParseTicker(t).value.artist| <= FieldLimit
  {
    var i := FindDelimiter(t, 0).value;
    var p := t[..i + |Delimiter| - 1];
    forall j | DelimiterAt(p, j) ensures false {
      assert t[j..j + |Delimiter|] == p[j..j + |Delimiter|];
      assert DelimiterAt(t, j);
    }
  }

  /**
   * Round trip: a ticker assembled from a track and an artist of at most 24
   * characters gives them back, provided the track (with the dash that
   * follows it) does not already contain the delimiter.
   */
  lemma {:induction false} ParseTickerJoin(track: string, artist: string)
    requires |track| <= FieldLimit && |artist| <= FieldLimit
    requires !HasDelimiter(track + Delimiter[..|Delimiter| - 1])
    ensures ParseTicker(track + Delimiter + artist) == Some(Song(track, artist))
  {
    var t := track + Delimiter + artist;
    var p := track + Delimiter[..|Delimiter| - 1];
    forall j | 0 <= j < |track| ensures !DelimiterAt(t, j) {
      if DelimiterAt(t, j) {
        assert t[j..j + |Delimiter|] == p[j..j + |Delimiter|];
        assert DelimiterAt(p, j);
      }
    }
    assert t[|track|..|track| + |Delimiter|] == Delimiter;
    assert DelimiterAt(t, |track|);
    var i := FindDelimiter(t, 0).value;
    assert i == |track|;
    assert t[..i] == track;
    assert t[i + |Delimiter|..] == artist;
    assert Truncate(track) == track && Truncate(artist) == artist;
  }

  /** The delimiter cannot start where the character after is not the dash. */
  lemma NoDelimiterWithoutDash(t: string, j: int)
    requires 0 <= j && j + 1 < |t| && t[j + 1] != '\U{2014}'
    ensures !DelimiterAt(t, j)
  {
  }

  lemma ParseTickerExamples()
    ensures ParseTicker("Foo \U{2014} Bar") == Some(Song("Foo", "Bar"))
    ensures ParseTicker("FooBar") == None
  {
    var t := "Foo \U{2014} Bar";
    assert t[3..6] == Delimiter;
    NoDelimiterWithoutDash(t, 0);
    NoDelimiterWithoutDash(t, 1);
    NoDelimiterWithoutDash(t, 2);
    assert FindDelimiter(t, 0) == Some(3);
    assert t[..3] == "Foo" && t[6..] == "Bar";
    assert Truncate("Foo") == "Foo" && Truncate("Bar") == "Bar";
    var u := "FooBar";
    forall j | 0 <= j < |u| ensures !DelimiterAt(u, j) {
      if j + 1 < |u| {
        NoDelimiterWithoutDash(u, j);
      }
    }
    ParseTickerDefined(u);
  }
}
