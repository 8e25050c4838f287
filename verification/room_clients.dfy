/**
 * The publishing half of the two room clients (pure_desktop_app.py and
 * pure_desktop_app_mac.py): the settings dialog, the detector cycle and the
 * payload the state updater posts.
 */
module RoomClients {
  import opened Wrappers
  import opened Text
  import opened Json
  import Server
  import opened Detections
  import Dedup

  // ---------------------------------------------------------------------------
  // Settings dialogs

  const SPOTIFY := "spotify"
  const NETEASE := "netease"

  /** `SettingsDialog.accept` of the Windows client: the nickname and platform it closes with,
      or None when it stays open because the stripped nickname is empty. */
  function AcceptSettings(text: string, spotifyChecked: bool): (r: Option<(string, string)>)
    ensures r.Some? <==> Strip(text) != ""
    ensures r.Some? ==> r.value.0 == Strip(text) && IsStripped(r.value.0)
    ensures r.Some? ==> (r.value.1 == SPOTIFY <==> spotifyChecked) && (r.value.1 == SPOTIFY || r.value.1 == NETEASE)
  {
    var name := Strip(text);
    StripIsStripped(text);
    if name == "" then None
    else Some((name, if spotifyChecked then SPOTIFY else NETEASE))
  }

  /** `SettingsDialog.accept` of the macOS client, which has no platform choice. */
  function AcceptMacSettings(text: string): (r: Option<string>)
    ensures r.Some? <==> Strip(text) != ""
    ensures r.Some? ==> r.value == Strip(text)
  {
    var name := Strip(text);
    if name == "" then None else Some(name)
  }

  /** Typing the accepted nickname again is accepted with the same nickname. */
  lemma AcceptedNameIsStable(text: string, spotifyChecked: bool)
    requires AcceptSettings(text, spotifyChecked).Some?
    ensures var name := AcceptSettings(text, spotifyChecked).value.0;
      AcceptSettings(name, spotifyChecked) == AcceptSettings(text, spotifyChecked)
      && AcceptMacSettings(name) == AcceptMacSettings(text)
  {
    StripIdempotent(text);
  }

  // ---------------------------------------------------------------------------
  // Windows detector (SongDetectorWorker.run)

  /** The title the detector formats: `song_info[0] - song_info[1]`, or "" when nothing plays. */
  function DetectorTitle(d: Detection): string {
    if d.Nothing? then "" else Title(d)
  }

  /** One detector cycle: the new last title and the title emitted, if any. */
  function DetectorStep(last: Option<string>, d: Detection): (r: (Option<string>, Option<string>))
    ensures r.0 == Some(DetectorTitle(d))
    ensures r.1.Some? <==> last != Some(DetectorTitle(d))
    ensures r.1.Some? ==> r.1.value == DetectorTitle(d)
  {
    var t := DetectorTitle(d);
    if Some(t) != last then (Some(t), Some(t)) else (last, None)
  }

  /** The cycles over `ds`, from `last`: the final last title and the titles emitted. */
  function DetectorLoop(last: Option<string>, ds: seq<Detection>): (r: (Option<string>, seq<string>))
    decreases |ds|
  {
    if |ds| == 0 then (last, [])
    else
      var (l, out) := DetectorLoop(last, ds[..|ds| - 1]);
      var (l', e) := DetectorStep(l, ds[|ds| - 1]);
      (l', if e.Some? then out + [e.value] else out)
  }

  /** The titles the detector sees, cycle by cycle ("" when nothing plays). */
  function DetectorTitles(ds: seq<Detection>): (r: seq<Option<string>>)
    ensures |r| == |ds| && forall i :: 0 <= i < |ds| ==> r[i] == Some(DetectorTitle(ds[i]))
  {
    seq(|ds|, i requires 0 <= i < |ds| => Some(DetectorTitle(ds[i])))
  }

  /** `SongDetectorWorker.run`: nothing when Spotify was chosen and fails to initialise,
      otherwise the titles the loop emits. */
  function DetectorRun(platform: string, spotifyReady: bool, ds: seq<Detection>): (r: seq<string>)
    ensures platform == SPOTIFY && !spotifyReady ==> r == []
    ensures !(platform == SPOTIFY && !spotifyReady) ==> r == Dedup.Announced(DetectorTitles(ds))
  {
    if platform == SPOTIFY && !spotifyReady then []
    else
      DetectorLoopIsDedup(ds);
      Dedup.RunAnnounces(DetectorTitles(ds));
      DetectorLoop(None, ds).1
  }

  lemma {:induction false} DetectorLoopIsDedup(ds: seq<Detection>)
    ensures DetectorLoop(None, ds) == Dedup.Run(None, DetectorTitles(ds))
    decreases |ds|
  {
    if |ds| > 0 {
      var k := |ds| - 1;
      DetectorLoopIsDedup(ds[..k]);
      assert DetectorTitles(ds)[..k] == DetectorTitles(ds[..k]);
    }
  }

  /** The detector emits exactly the titles that differ from the previous cycle's, the first
      cycle always, and never the same title twice in a row; "nothing playing" is emitted as
      "" once per stretch of silence. */
  lemma DetectorEmitsChanges(ds: seq<Detection>)
    requires |ds| > 0
    ensures var out := DetectorLoop(None, ds).1;
      && out == Dedup.Announced(DetectorTitles(ds))
      && |out| > 0 && out[0] == DetectorTitle(ds[0])
      && forall i :: 0 <= i < |out| - 1 ==> out[i] != out[i + 1]
  {
    DetectorLoopIsDedup(ds);
    Dedup.RunAnnounces(DetectorTitles(ds));
    Dedup.AnnouncedNoRepeats(DetectorTitles(ds));
    FirstAnnounced(DetectorTitles(ds));
  }

  lemma {:induction false} FirstAnnounced(ts: seq<Option<string>>)
    requires |ts| > 0 && ts[0].Some?
    ensures |Dedup.Announced(ts)| > 0 && Dedup.Announced(ts)[0] == ts[0].value
    decreases |ts|
  {
    if |ts| > 1 {
      FirstAnnounced(ts[..|ts| - 1]);
    }
  }

  /** Silence for three cycles from the start is reported once, as "". */
  lemma SilenceEmittedOnce()
    ensures DetectorLoop(None, [Nothing, Nothing, Nothing]).1 == [""]
  {
    var e: seq<Detection> := [];
    DetectorLoopSnoc(e, Nothing);
    assert e + [Nothing] == [Nothing];
    DetectorLoopSnoc([Nothing], Nothing);
    assert [Nothing] + [Nothing] == [Nothing, Nothing];
    DetectorLoopSnoc([Nothing, Nothing], Nothing);
    assert [Nothing, Nothing] + [Nothing] == [Nothing, Nothing, Nothing];
  }

  lemma DetectorLoopSnoc(ds: seq<Detection>, d: Detection)
    ensures var (l, out) := DetectorLoop(None, ds);
      var (l', e) := DetectorStep(l, d);
      DetectorLoop(None, ds + [d]) == (l', if e.Some? then out + [e.value] else out)
  {
    assert (ds + [d])[..|ds|] == ds;
  }

  // ---------------------------------------------------------------------------
  // Windows state updater (StateUpdaterWorker.update_song)

  /** The posted body: exactly user, song and platform. */
  function UpdatePayload(user: string, song: string, platform: string): (r: Json)
    ensures r.JObj? && r.fields.Keys == {"user", "song", "platform"}
    ensures r.fields["user"] == JStr(user) && r.fields["song"] == JStr(song) && r.fields["platform"] == JStr(platform)
  {
    JObj(map["user" := JStr(user), "song" := JStr(song), "platform" := JStr(platform)])
  }

  /** The payload has the shape `update_song` broadcasts: that handler would accept it and
      emit it unchanged. */
  lemma UpdatePayloadIsBroadcastShape(user: string, song: string, platform: string)
    ensures Server.IsBroadcast(UpdatePayload(user, song, platform))
    ensures Server.UpdateSong(Some(UpdatePayload(user, song, platform))).emitted
              == [Server.Event(Server.SONG_UPDATE, UpdatePayload(user, song, platform))]
  {
    var p := UpdatePayload(user, song, platform);
    var q := Server.UpdateSong(Some(p)).emitted[0].payload;
    assert q.fields == p.fields;
  }

  // ---------------------------------------------------------------------------
  // macOS detector and state updater

  /** The dict the macOS detector emits. */
  datatype SongData = SongData(song: string, artUrl: Option<string>)

  /** One macOS detector cycle: `{"song": "", "art_url": None}` unless something plays. */
  function MacSongData(info: Option<(string, string, Option<string>)>): (r: SongData)
    ensures info.None? ==> r == SongData("", None)
    ensures info.Some? ==> r.song == Title(FromSpotify(info)) && r.artUrl == info.value.2
  {
    match info
    case None => SongData("", None)
    case Some((song, artist, art)) => SongData(Title(Triple(song, artist, art)), art)
  }

  /** The macOS `SongDetectorWorker.run`: nothing when Spotify fails to initialise, otherwise
      one emission per cycle, repeated titles included. */
  function MacDetectorRun(spotifyReady: bool, infos: seq<Option<(string, string, Option<string>)>>): (r: seq<SongData>)
    ensures !spotifyReady ==> r == []
    ensures spotifyReady ==> |r| == |infos| && forall i :: 0 <= i < |infos| ==> r[i] == MacSongData(infos[i])
  {
    if !spotifyReady then [] else seq(|infos|, i requires 0 <= i < |infos| => MacSongData(infos[i]))
  }

  /** The macOS posted body: platform is always "spotify", and the art URL is sent along
      (JSON null when there is none). */
  function MacPayload(user: string, data: SongData): (r: Json)
    ensures r.JObj? && r.fields.Keys == {"user", "song", "platform", "art_url"}
    ensures r.fields["platform"] == JStr(SPOTIFY)
    ensures r.fields["art_url"] == (if data.artUrl.Some? then JStr(data.artUrl.value) else JNull)
  {
    JObj(map[
      "user" := JStr(user),
      "song" := JStr(data.song),
      "platform" := JStr(SPOTIFY),
      "art_url" := if data.artUrl.Some? then JStr(data.artUrl.value) else JNull])
  }

  /** Through `update_song` the macOS body loses its art URL and becomes the Windows body. */
  lemma MacArtNotBroadcast(user: string, data: SongData)
    ensures var r := Server.UpdateSong(Some(MacPayload(user, data)));
      r.status == 200 && r.emitted[0].payload == UpdatePayload(user, data.song, SPOTIFY)
  {
    var r := Server.UpdateSong(Some(MacPayload(user, data)));
    assert r.emitted[0].payload.fields == UpdatePayload(user, data.song, SPOTIFY).fields;
  }
}
