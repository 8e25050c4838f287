/**
 * The polling loop of MusicFriend.py: once per cycle it reads the NetEase
 * window through netease_client, and when the song name changed it looks the
 * track up and shows a four-line commentary and the album cover. The window
 * lookup and the service answers are inputs; the tag and the picture are
 * state the loop rewrites.
 */
module MusicFriend {
  import opened Wrappers
  import opened Text
  import opened TitleParser
  import opened Catalog

  /** What the loop remembers and shows: `currently_displayed_song` and the commentary text. */
  datatype Display = Display(shown: Option<string>, text: string)

  /** What happens to the album-cover tag in a cycle: nothing, the placeholder, or the
      placeholder followed by a download of this URL on a separate thread. */
  datatype Cover = Keep | Placeholder | PlaceholderThenFetch(url: string)

  const WELCOME := "Welcome to MusicFriend! Initializing..."
  const WAITING := "Waiting for a song to play..."
  const WELCOME_WORD := "Welcome"

  /** The window as the GUI sets it up, before the first cycle. */
  const Initial := Display(None, WELCOME)

  const SONG_TAG := "Song: "
  const ARTIST_TAG := "Artist(s): "
  const ALBUM_TAG := "Album: "
  const RELEASED_TAG := "Released: "
  const BREAK := "\n"

  /** The commentary shown for the details of a track. */
  function Commentary(d: TrackDetails): string {
    (SONG_TAG + d.name) + BREAK + (ARTIST_TAG + d.artist) + BREAK + (ALBUM_TAG + d.album) + BREAK + (RELEASED_TAG + d.releaseYear)
  }

  /** Python's `error_message or "Waiting for a song to play..."`. */
  function ErrorOrWaiting(err: Option<string>): (r: string)
    ensures err.Some? && err.value != "" ==> r == err.value
    ensures err.None? || err.value == "" ==> r == WAITING
  {
    if err.Some? && err.value != "" then err.value else WAITING
  }

  /** The display is reset when nothing is detected: a song is shown, or the text still holds
      the word "Welcome". */
  predicate NeedsReset(d: Display) {
    d.shown.Some? || Contains(d.text, WELCOME_WORD)
  }

  /** One cycle of `polling_loop`. The track lookup is only made when the song name changed;
      `search` and `info` are the answers it would get. */
  function Step(d: Display, probe: WindowProbe, search: SearchReply, info: AlbumInfo): (r: (Display, Cover))
    ensures r.0.shown == (if ClientDetect(probe).0.Some? then Some(ClientDetect(probe).0.value.0) else None)
    ensures ClientDetect(probe).0.Some? && Some(ClientDetect(probe).0.value.0) == d.shown ==> r == (d, Keep)
    ensures ClientDetect(probe).0.Some? && Some(ClientDetect(probe).0.value.0) != d.shown ==>
              var (song, artist) := ClientDetect(probe).0.value;
              var (details, err) := TrackInfo(song, artist, search, info);
              && (details.Some? ==> r.0.text == Commentary(details.value) && r.1 == PlaceholderThenFetch(details.value.coverUrl))
              && (details.None? ==> r.0.text == err.value && r.1 == Placeholder)
    ensures ClientDetect(probe).0.None? && NeedsReset(d) ==> r == (Display(None, ErrorOrWaiting(ClientDetect(probe).1)), Placeholder)
    ensures ClientDetect(probe).0.None? && !NeedsReset(d) ==> r == (d, Keep)
  {
    var (found, err) := ClientDetect(probe);
    match found
    case Some((song, artist)) =>
      if Some(song) != d.shown then
        var (details, detailErr) := TrackInfo(song, artist, search, info);
        if details.Some? then (Display(Some(song), Commentary(details.value)), PlaceholderThenFetch(details.value.coverUrl))
        else (Display(Some(song), detailErr.value), Placeholder)
      else (d, Keep)
    case None =>
      if NeedsReset(d) then (Display(None, ErrorOrWaiting(err)), Placeholder)
      else (d, Keep)
  }

  /** Only the song name decides a change: the same song under another artist string changes
      nothing on screen. */
  lemma ArtistChangeIgnored(d: Display, title: string, search: SearchReply, info: AlbumInfo)
    requires ParseTitle(title).Some? && d.shown == Some(ParseTitle(title).value.0)
    ensures Step(d, Window(title), search, info) == (d, Keep)
  {
  }

  /** The errors netease_client reports never contain "Welcome". */
  lemma ErrorsLackWelcome(probe: WindowProbe)
    requires ClientDetect(probe).1.Some?
    ensures !Contains(ClientDetect(probe).1.value, WELCOME_WORD)
  {
    var msg := ClientDetect(probe).1.value;
    assert msg == CLIENT_NOT_FOUND || msg == NO_SONG || msg == DETECT_FAILED;
    MessagesLackCapitalW();
    assert WELCOME_WORD[0] == 'W';
    LacksFirstChar(msg, WELCOME_WORD);
  }

  /** None of netease_client's error messages has a capital W. */
  lemma MessagesLackCapitalW()
    ensures 'W' !in CLIENT_NOT_FOUND && 'W' !in NO_SONG && 'W' !in DETECT_FAILED
  {
    NotFoundLacksCapitalW();
    NoSongLacksCapitalW();
    FailedLacksCapitalW();
  }

  lemma NotFoundLacksCapitalW()
    ensures 'W' !in CLIENT_NOT_FOUND
  {
    NoCapitalW("NetEase Music client ", "not found. Is it running?");
  }

  lemma NoSongLacksCapitalW()
    ensures 'W' !in NO_SONG
  {
    NoCapitalW("Could not detect song. ", "Is a song currently playing?");
  }

  lemma FailedLacksCapitalW()
    ensures 'W' !in DETECT_FAILED
  {
    NoCapitalW("An error occurred ", "while detecting the song.");
  }

  lemma NoCapitalW(a: string, b: string)
    requires 'W' !in a && 'W' !in b
    ensures 'W' !in a + b
  {
  }

  /** The first cycle that detects nothing shows netease_client's error message, and the
      "Waiting for a song to play..." fallback is never shown. Every later cycle that detects
      nothing leaves the display alone, even when the error has changed. */
  lemma ResetIsFinal(d: Display, p: WindowProbe, q: WindowProbe, search: SearchReply, info: AlbumInfo)
    requires ClientDetect(p).0.None? && NeedsReset(d) && ClientDetect(q).0.None?
    ensures var d' := Step(d, p, search, info).0;
      && d' == Display(None, ClientDetect(p).1.value)
      && d'.text != WAITING
      && Step(d', q, search, info) == (d', Keep)
  {
    ErrorsLackWelcome(p);
    var e := ClientDetect(p).1.value;
    assert e in {CLIENT_NOT_FOUND, NO_SONG, DETECT_FAILED};
    assert |e| != |WAITING|;
  }

  /** From the welcome screen the first silent cycle resets the display. */
  lemma WelcomeIsReset()
    ensures NeedsReset(Initial)
  {
    assert OccursAt(WELCOME, WELCOME_WORD, 0);
  }

  /** When no field holds a line break, the commentary reads back line by line: splitting at
      each line break in turn gives the song, the artists, the album and the year. */
  lemma CommentaryLines(d: TrackDetails)
    requires !Contains(d.name, BREAK) && !Contains(d.artist, BREAK) && !Contains(d.album, BREAK)
    ensures var l1, l2, l3, l4 := SONG_TAG + d.name, ARTIST_TAG + d.artist, ALBUM_TAG + d.album, RELEASED_TAG + d.releaseYear;
      && SplitFirst(Commentary(d), BREAK) == Some((l1, l2 + BREAK + l3 + BREAK + l4))
      && SplitFirst(l2 + BREAK + l3 + BREAK + l4, BREAK) == Some((l2, l3 + BREAK + l4))
      && SplitFirst(l3 + BREAK + l4, BREAK) == Some((l3, l4))
  {
    NoBreakAfterTag(SONG_TAG, d.name);
    NoBreakAfterTag(ARTIST_TAG, d.artist);
    NoBreakAfterTag(ALBUM_TAG, d.album);
    FourLines(SONG_TAG + d.name, ARTIST_TAG + d.artist, ALBUM_TAG + d.album, RELEASED_TAG + d.releaseYear);
  }

  lemma FourLines(l1: string, l2: string, l3: string, l4: string)
    requires !Contains(l1, BREAK) && !Contains(l2, BREAK) && !Contains(l3, BREAK)
    ensures SplitFirst(l1 + BREAK + l2 + BREAK + l3 + BREAK + l4, BREAK) == Some((l1, l2 + BREAK + l3 + BREAK + l4))
    ensures SplitFirst(l2 + BREAK + l3 + BREAK + l4, BREAK) == Some((l2, l3 + BREAK + l4))
    ensures SplitFirst(l3 + BREAK + l4, BREAK) == Some((l3, l4))
  {
    assert l1 + BREAK + l2 + BREAK + l3 + BREAK + l4 == l1 + BREAK + (l2 + BREAK + l3 + BREAK + l4);
    assert l2 + BREAK + l3 + BREAK + l4 == l2 + BREAK + (l3 + BREAK + l4);
    SplitAtFirstChar(l1, '\n', l2 + BREAK + l3 + BREAK + l4);
    SplitAtFirstChar(l2, '\n', l3 + BREAK + l4);
    SplitAtFirstChar(l3, '\n', l4);
  }

  lemma NoBreakAfterTag(tag: string, field: string)
    requires '\n' !in tag && !Contains(field, BREAK)
    ensures !Contains(tag + field, BREAK)
  {
    forall i: nat | i <= |tag + field|
      ensures !OccursAt(tag + field, BREAK, i)
    {
      if i < |tag| {
        assert (tag + field)[i] == tag[i];
      } else if i + 1 <= |tag + field| {
        assert (tag + field)[i..i + 1] == field[i - |tag|..i - |tag| + 1];
        assert !OccursAt(field, BREAK, i - |tag|);
      }
    }
  }
}
