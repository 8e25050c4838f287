/**
 * Shaping the answers of the music services into what the clients use:
 * the album-art URL of netease_api_utils.py (with its http-to-https upgrade),
 * the track details of netease_client.py `get_track_info`, and the
 * (song, artists, art URL) triple of spotify_detector.py. The service calls
 * themselves are inputs; a field the service left out is None, and reading it
 * raises in Python, which each function catches.
 */
module Catalog {
  import opened Wrappers
  import opened Text

  // ---------------------------------------------------------------------------
  // Service answers

  /** The `al` record of a NetEase search hit. */
  datatype Album = Album(id: Option<int>, name: Option<string>, picUrl: Option<string>)

  /** One NetEase search hit: `name`, the `name` of each entry of `ar`, and `al`. */
  datatype Track = Track(name: Option<string>, artists: Option<seq<Option<string>>>, album: Option<Album>)

  /** The body of a search answer; `songs` is None when `result` or `result.songs` is missing. */
  datatype SearchBody = SearchBody(songs: Option<seq<Track>>)

  /** `cloudsearch.GetSearchResult`: it raised, or answered with a body (None for an empty or
      null answer, which Python reads as false). */
  datatype SearchReply = SearchRaised | Answered(body: Option<SearchBody>)

  /** `album.GetAlbumInfo`: it raised, or answered, with the formatted publish year when the
      answer has `album.publishTime`. */
  datatype AlbumInfo = AlbumInfoRaised | AlbumInfo(publishYear: Option<string>)

  /** One Spotify `item`: its name, the `name` of each artist, and the `url` of each entry of
      `album.images` (the list is None when `album` or `images` is missing). */
  datatype SpotifyItem = SpotifyItem(name: Option<string>, artists: Option<seq<Option<string>>>, images: Option<seq<Option<string>>>)

  /** `current_user_playing_track`: it raised, returned nothing (None or an empty record), or
      returned a record with `is_playing` and `item`. */
  datatype PlaybackReply = PlaybackRaised | NoPlayback | Playback(isPlaying: Option<bool>, item: Option<SpotifyItem>)

  /** The module-level client: never initialised, or initialised and answering this call. */
  datatype SpotifyClient = Uninitialized | Initialized(reply: PlaybackReply)

  // ---------------------------------------------------------------------------
  // Shared pieces

  /** The names of a list of records, or None when one of them has no name (a KeyError). */
  function AllNames(xs: seq<Option<string>>): (r: Option<seq<string>>)
    ensures r.Some? <==> forall i :: 0 <= i < |xs| ==> xs[i].Some?
    ensures r.Some? ==> |r.value| == |xs| && forall i :: 0 <= i < |xs| ==> r.value[i] == xs[i].value
    decreases |xs|
  {
    if |xs| == 0 then Some([])
    else
      match AllNames(xs[..|xs| - 1])
      case None => None
      case Some(init) =>
        match xs[|xs| - 1]
        case None => None
        case Some(last) => Some(init + [last])
  }

  const ARTIST_SEP := ", "

  /** `', '.join(names)`. */
  function JoinArtists(names: seq<string>): string {
    Join(names, ARTIST_SEP)
  }

  /** Joining a longer artist list appends ", " and the new names: the order of the service's
      list is kept. */
  lemma JoinArtistsAppend(names: seq<string>, more: seq<string>)
    requires |names| > 0 && |more| > 0
    ensures JoinArtists(names + more) == JoinArtists(names) + ARTIST_SEP + JoinArtists(more)
  {
    JoinConcat(names, more, ARTIST_SEP);
  }

  // ---------------------------------------------------------------------------
  // netease_api_utils.get_netease_album_art_url

  const HTTP := "http://"
  const HTTPS := "https://"

  /** `if url.startswith('http://'): url = url.replace('http://', 'https://', 1)`. */
  function UpgradeScheme(url: string): (r: string)
    ensures StartsWith(url, HTTP) ==> r == HTTPS + url[|HTTP|..]
    ensures !StartsWith(url, HTTP) ==> r == url
  {
    if StartsWith(url, HTTP) then
      ReplaceFirstAtStart(url, HTTP, HTTPS);
      ReplaceFirst(url, HTTP, HTTPS)
    else url
  }

  /** An upgraded URL never starts with "http://". */
  lemma UpgradedIsNotPlain(url: string)
    ensures !StartsWith(UpgradeScheme(url), HTTP)
  {
    var r := UpgradeScheme(url);
    if StartsWith(url, HTTP) {
      assert r[4] == 's' != HTTP[4];
    }
  }

  /** Upgrading twice is upgrading once. */
  lemma UpgradeIdempotent(url: string)
    ensures UpgradeScheme(UpgradeScheme(url)) == UpgradeScheme(url)
  {
    UpgradedIsNotPlain(url);
  }

  /** The album-art URL of the first search hit, upgraded to https; None when the search
      raised, found nothing, or the hit has no `al.picUrl`. */
  function AlbumArtUrl(reply: SearchReply): (r: Option<string>)
    ensures r.Some? <==>
              && reply.Answered? && reply.body.Some? && reply.body.value.songs.Some?
              && |reply.body.value.songs.value| > 0
              && var first := reply.body.value.songs.value[0];
                 first.album.Some? && first.album.value.picUrl.Some?
    ensures r.Some? ==>
              && var pic := reply.body.value.songs.value[0].album.value.picUrl.value;
                 && !StartsWith(r.value, HTTP)
                 && (StartsWith(pic, HTTP) ==> r.value == HTTPS + pic[|HTTP|..])
                 && (!StartsWith(pic, HTTP) ==> r.value == pic)
  {
    match reply
    case SearchRaised => None
    case Answered(body) =>
      if body.None? || body.value.songs.None? || |body.value.songs.value| == 0 then None
      else
        var first := body.value.songs.value[0];
        if first.album.Some? && first.album.value.picUrl.Some? then
          UpgradedIsNotPlain(first.album.value.picUrl.value);
          Some(UpgradeScheme(first.album.value.picUrl.value))
        else None
  }

  // ---------------------------------------------------------------------------
  // netease_client.get_track_info

  /** The dict `get_track_info` returns. */
  datatype TrackDetails = TrackDetails(name: string, artist: string, album: string, releaseYear: string, coverUrl: string)

  const UNKNOWN_YEAR := "an unknown year"
  const COVER_SIZE := "?param=200y200"
  const SEARCH_FAILED := "An error occurred during the search."

  function NotFound(song: string, artist: string): string {
    "Could not find '" + song + "' by " + artist + "."
  }

  /** The first hit has every field the details read. */
  predicate Complete(track: Track) {
    && track.name.Some? && track.artists.Some? && AllNames(track.artists.value).Some?
    && track.album.Some? && track.album.value.id.Some? && track.album.value.name.Some?
    && track.album.value.picUrl.Some?
  }

  /** `get_track_info(song, artist)` given the search answer and the album-info answer. */
  function TrackInfo(song: string, artist: string, search: SearchReply, info: AlbumInfo): (r: (Option<TrackDetails>, Option<string>))
    ensures r.0.Some? != r.1.Some?
    ensures r.1 == Some(NotFound(song, artist)) <==>
              search.Answered? && (search.body.None? || search.body.value.songs == Some([]))
    ensures r.0.Some? <==>
              && search.Answered? && search.body.Some? && search.body.value.songs.Some?
              && |search.body.value.songs.value| > 0 && Complete(search.body.value.songs.value[0])
              && info.AlbumInfo?
    ensures r.0.Some? ==>
              && var track := search.body.value.songs.value[0];
                 && r.0.value.name == track.name.value
                 && r.0.value.artist == JoinArtists(AllNames(track.artists.value).value)
                 && r.0.value.album == track.album.value.name.value
                 && r.0.value.releaseYear == info.publishYear.GetOr(UNKNOWN_YEAR)
                 && r.0.value.coverUrl == track.album.value.picUrl.value + COVER_SIZE
  {
    NotFoundIsNotFailure(song, artist);
    match search
    case SearchRaised => (None, Some(SEARCH_FAILED))
    case Answered(body) =>
      if body.None? then (None, Some(NotFound(song, artist)))
      else if body.value.songs.None? then (None, Some(SEARCH_FAILED))
      else if |body.value.songs.value| == 0 then (None, Some(NotFound(song, artist)))
      else
        var track := body.value.songs.value[0];
        if !Complete(track) || info.AlbumInfoRaised? then (None, Some(SEARCH_FAILED))
        else
          var details := TrackDetails(
            track.name.value,
            JoinArtists(AllNames(track.artists.value).value),
            track.album.value.name.value,
            info.publishYear.GetOr(UNKNOWN_YEAR),
            track.album.value.picUrl.value + COVER_SIZE);
          (Some(details), None)
  }

  lemma NotFoundIsNotFailure(song: string, artist: string)
    ensures NotFound(song, artist) != SEARCH_FAILED
  {
    assert NotFound(song, artist)[0] == 'C' != SEARCH_FAILED[0];
  }

  /** The cover URL asks for the 200x200 rendition of the album picture: stripping the size
      suffix gives back `picUrl`. */
  lemma CoverUrlKeepsPicture(song: string, artist: string, search: SearchReply, info: AlbumInfo)
    requires TrackInfo(song, artist, search, info).0.Some?
    ensures var cover := TrackInfo(song, artist, search, info).0.value.coverUrl;
      && EndsWith(cover, COVER_SIZE)
      && cover[..|cover| - |COVER_SIZE|] == search.body.value.songs.value[0].album.value.picUrl.value
  {
    var cover := TrackInfo(song, artist, search, info).0.value.coverUrl;
    var pic := search.body.value.songs.value[0].album.value.picUrl.value;
    assert cover == pic + COVER_SIZE;
    assert cover[|cover| - |COVER_SIZE|..] == COVER_SIZE;
    assert cover[..|cover| - |COVER_SIZE|] == pic;
  }

  // ---------------------------------------------------------------------------
  // spotify_detector.get_current_spotify_song

  /** The playing item has every field the triple reads. */
  predicate Readable(item: SpotifyItem) {
    && item.name.Some? && item.artists.Some? && AllNames(item.artists.value).Some?
    && item.images.Some? && (|item.images.value| > 0 ==> item.images.value[0].Some?)
  }

  /** `get_current_spotify_song`: (song, artists joined with ", ", first image URL or None),
      or None when the client is not initialised, nothing is playing, or the call or a field
      read fails. */
  function SpotifySong(client: SpotifyClient): (r: Option<(string, string, Option<string>)>)
    ensures r.Some? <==>
              && client.Initialized? && client.reply.Playback?
              && client.reply.isPlaying == Some(true) && client.reply.item.Some?
              && Readable(client.reply.item.value)
    ensures r.Some? ==>
              && var item := client.reply.item.value;
                 && r.value.0 == item.name.value
                 && r.value.1 == JoinArtists(AllNames(item.artists.value).value)
                 && (r.value.2.Some? <==> |item.images.value| > 0)
                 && (r.value.2.Some? ==> r.value.2 == item.images.value[0])
  {
    match client
    case Uninitialized => None
    case Initialized(reply) =>
      match reply
      case Playback(isPlaying, item) =>
        if isPlaying == Some(true) && item.Some? && Readable(item.value) then
          var it := item.value;
          var art := if |it.images.value| > 0 then it.images.value[0] else None;
          Some((it.name.value, JoinArtists(AllNames(it.artists.value).value), art))
        else None
      case _ => None
  }
}
