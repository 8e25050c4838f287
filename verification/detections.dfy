/**
 * What one detector call hands a publishing client: nothing, the NetEase
 * (song, artist) pair, or the Spotify (song, artists, art URL) triple.
 */
module Detections {
  import opened Wrappers
  import opened TitleParser

  datatype Detection =
    | Nothing
    | Pair(song: string, artist: string)
    | Triple(song: string, artist: string, artUrl: Option<string>)

  /** The NetEase detectors' optional pair. */
  function FromNetease(o: Option<(string, string)>): (r: Detection)
    ensures r.Nothing? <==> o.None?
    ensures o.Some? ==> r == Pair(o.value.0, o.value.1)
  {
    match o
    case None => Nothing
    case Some((s, a)) => Pair(s, a)
  }

  /** `get_current_spotify_song`'s optional triple. */
  function FromSpotify(o: Option<(string, string, Option<string>)>): (r: Detection)
    ensures r.Nothing? <==> o.None?
    ensures o.Some? ==> r == Triple(o.value.0, o.value.1, o.value.2)
  {
    match o
    case None => Nothing
    case Some((s, a, u)) => Triple(s, a, u)
  }

  /** `f"{song} - {artist}"` of a detection that found something. */
  function Title(d: Detection): string
    requires !d.Nothing?
  {
    FormatTitle(d.song, d.artist)
  }
}
