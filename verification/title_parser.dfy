/**
 * Reading the playing song off the NetEase Cloud Music window title
 * ("song - artist"), as `get_current_netease_song` does in
 * desktop_assistant.py (an optional pair) and in netease_client.py (a pair of
 * result and error message). The window lookup is an input.
 */
module TitleParser {
  import opened Wrappers
  import opened Text

  const SEP := " - "

  const CLIENT_NOT_FOUND := "NetEase Music client not found. Is it running?"
  const NO_SONG := "Could not detect song. Is a song currently playing?"
  const DETECT_FAILED := "An error occurred while detecting the song."

  /** What the `win32gui` lookup produced: it raised, found no window (handle 0), or found a
      window with this title. */
  datatype WindowProbe = LookupRaised | NoWindow | Window(title: string)

  /** `title.split(' - ', 1)` with both halves stripped; None when the title has no separator. */
  function ParseTitle(title: string): (r: Option<(string, string)>)
    ensures r.Some? <==> Contains(title, SEP)
    ensures r.Some? ==> IsStripped(r.value.0) && IsStripped(r.value.1)
    ensures r.Some? ==> var i := FindFirst(title, SEP).value;
      r.value == (Strip(title[..i]), Strip(title[i + |SEP|..]))
  {
    match SplitFirst(title, SEP)
    case None => None
    case Some((song, artist)) =>
      StripIsStripped(song);
      StripIsStripped(artist);
      Some((Strip(song), Strip(artist)))
  }

  /** desktop_assistant.py's `get_current_netease_song`. */
  function AssistantDetect(probe: WindowProbe): (r: Option<(string, string)>)
    ensures r.Some? <==> probe.Window? && Contains(probe.title, SEP)
    ensures probe.Window? ==> r == ParseTitle(probe.title)
  {
    match probe
    case Window(title) => ParseTitle(title)
    case _ => None
  }

  /** netease_client.py's `get_current_netease_song`: the song pair or an error message. */
  function ClientDetect(probe: WindowProbe): (r: (Option<(string, string)>, Option<string>))
    ensures r.0.Some? != r.1.Some?
    ensures r.0 == (if probe.Window? then ParseTitle(probe.title) else None)
    ensures r.1 == Some(CLIENT_NOT_FOUND) <==> probe.NoWindow?
    ensures r.1 == Some(NO_SONG) <==> probe.Window? && !Contains(probe.title, SEP)
    ensures r.1 == Some(DETECT_FAILED) <==> probe.LookupRaised?
  {
    match probe
    case LookupRaised => (None, Some(DETECT_FAILED))
    case NoWindow => (None, Some(CLIENT_NOT_FOUND))
    case Window(title) =>
      match ParseTitle(title)
      case Some(pair) => (Some(pair), None)
      case None => (None, Some(NO_SONG))
  }

  /** Both detectors read the same song off the same window. */
  lemma DetectorsAgree(probe: WindowProbe)
    ensures ClientDetect(probe).0 == AssistantDetect(probe)
  {
  }

  /** The title the publishers format from a song pair. */
  function FormatTitle(song: string, artist: string): (r: string)
    ensures |r| == |song| + |SEP| + |artist|
    ensures r[..|song|] == song && r[|song| + |SEP|..] == artist
    ensures r[|song|..|song| + |SEP|] == SEP
  {
    song + SEP + artist
  }

  /** The first separator of a formatted title is the one `FormatTitle` put there, as long as
      the song has no separator of its own and does not end in " -" (which would make
      " - " appear one position too early). */
  lemma FirstSeparatorOfTitle(song: string, artist: string)
    requires !Contains(song, SEP) && !EndsWith(song, " -")
    ensures SplitFirst(FormatTitle(song, artist), SEP) == Some((song, artist))
  {
    var t := FormatTitle(song, artist);
    var n := |song|;
    assert OccursAt(t, SEP, n);
    forall k: nat | k < n
      ensures !OccursAt(t, SEP, k)
    {
      if k + 3 <= n {
        assert t[k..k + 3] == song[k..k + 3];
        assert k <= |song| && !OccursAt(song, SEP, k);
      } else if k + 2 == n {
        assert song[n - 2..] == [song[n - 2], song[n - 1]];
        assert t[k] == song[n - 2] && t[k + 1] == song[n - 1];
        assert t[k..k + 3][0] == t[k] && t[k..k + 3][1] == t[k + 1];
      } else {
        assert t[k + 1] == ' ';
        assert t[k..k + 3][1] == t[k + 1];
      }
    }
    var f := FindFirst(t, SEP);
    assert f == Some(n);
  }

  /** Round trip: parsing a formatted title gives back the pair, for a stripped song with no
      separator that does not end in " -", and a stripped artist (which may itself contain
      the separator). */
  lemma ParseFormatRoundTrip(song: string, artist: string)
    requires IsStripped(song) && IsStripped(artist)
    requires !Contains(song, SEP) && !EndsWith(song, " -")
    ensures ParseTitle(FormatTitle(song, artist)) == Some((song, artist))
  {
    FirstSeparatorOfTitle(song, artist);
    StripOfStripped(song);
    StripOfStripped(artist);
  }

  /** Without the " -" condition the round trip fails: song "a -" by "b" is read back as
      song "a" by "- b". */
  lemma TrailingDashBreaksRoundTrip()
    ensures ParseTitle(FormatTitle("a -", "b")) == Some(("a", "- b"))
  {
    TrailingDashSplit();
    assert Strip("a") == "a" by { StripOfStripped("a"); }
    assert Strip("- b") == "- b" by {
      var s := "- b";
      assert s[0] == '-' && s[|s| - 1] == 'b';
      StripOfStripped(s);
    }
  }

  lemma TrailingDashSplit()
    ensures SplitFirst(FormatTitle("a -", "b"), SEP) == Some(("a", "- b"))
  {
    var t := FormatTitle("a -", "b");
    assert t == "a - - b";
    assert OccursAt(t, SEP, 1);
    assert !OccursAt(t, SEP, 0);
    assert FindFirst(t, SEP) == Some(1);
    assert t[..1] == "a" && t[4..] == "- b";
  }

  /** The title is split at the first separator only: the artist keeps any later ones. */
  lemma ArtistKeepsLaterSeparators()
    ensures ParseTitle("x - y - z") == Some(("x", "y - z"))
  {
    assert FormatTitle("x", "y - z") == "x - y - z";
    assert !Contains("x", SEP);
    ParseFormatRoundTrip("x", "y - z");
  }
}
