/**
 * The background `Worker` of desktop_app.py: it starts the chosen detector,
 * then once per cycle posts the "song - artist" title when it changed, and
 * reports the outcome of each post on its status and error signals.
 *
 * `CycleAsWritten` is the loop body as the file has it, where
 * `song, artist = song_info` cannot unpack the Spotify triple; `Cycle` is the
 * loop body with the pair taken from the first two components, which is what
 * the rest of the model uses.
 */
module DesktopApp {
  import opened Wrappers
  import opened Text
  import opened Json
  import Server
  import opened Detections
  import Dedup

  /** A signal the worker emits, or a call of `post_to_server` with a title. */
  datatype Event = Status(text: string) | Failure(text: string) | Posted(title: string)

  /** One cycle of the loop: what the detector returned and what the post, if one is made,
      returns. */
  datatype Cycle = Cycle(detection: Detection, outcome: Server.PostOutcome)

  const SPOTIFY := "spotify"
  const SENT := "Update sent successfully."
  const SERVER_ERROR := "Server Error: "
  const CONNECTION_FAILED := "Connection Failed: "
  const INIT_FAILED := "Spotify initialization failed."
  const STOPPED := "Playback stopped."
  /** What the error signal carries when the Spotify triple meets the two-name unpack
      (Python 3.11 wording). */
  const UNPACK_FAILED := "Error in main loop: too many values to unpack (expected 2)"

  // ---------------------------------------------------------------------------
  // post_to_server

  /** The body `post_to_server` sends. */
  function Payload(user: string, title: string, platform: string): (r: Json)
    ensures Server.IsBroadcast(r)
    ensures r.fields["user"] == JStr(user) && r.fields["song"] == JStr(title) && r.fields["platform"] == JStr(platform)
  {
    JObj(map["user" := JStr(user), "song" := JStr(title), "platform" := JStr(platform)])
  }

  /** The signal `post_to_server` emits for the outcome of the post. */
  function PostStatus(outcome: Server.PostOutcome): (r: Event)
    ensures r == Status(SENT) <==> outcome == Server.HttpStatus(200)
    ensures outcome.HttpStatus? && outcome.code != 200 ==>
              r.Status? && StartsWith(r.text, SERVER_ERROR) && r.text[|SERVER_ERROR|..] == NatToString(outcome.code)
    ensures outcome.RequestFailed? ==> r == Failure(CONNECTION_FAILED + outcome.detail)
  {
    match outcome
    case HttpStatus(code) =>
      if code == 200 then Status(SENT)
      else
        var text := SERVER_ERROR + NatToString(code);
        assert text[0] == 'S' != SENT[0];
        assert text[..|SERVER_ERROR|] == SERVER_ERROR;
        Status(text)
    case RequestFailed(detail) => Failure(CONNECTION_FAILED + detail)
  }

  /** The status line names the status code: two posts that report the same line got the
      same code. */
  lemma StatusNamesTheCode(a: Server.PostOutcome, b: Server.PostOutcome)
    requires a.HttpStatus? && b.HttpStatus? && PostStatus(a) == PostStatus(b)
    ensures a == b
  {
    if a.code != 200 && b.code != 200 {
      NatToStringInjective(a.code, b.code);
    }
  }

  /** The posted body is accepted by `update_song` and broadcast unchanged. */
  lemma PayloadBroadcastUnchanged(user: string, title: string, platform: string)
    ensures var p := Payload(user, title, platform);
      var r := Server.UpdateSong(Some(p));
      r.status == 200 && r.emitted == [Server.Event(Server.SONG_UPDATE, p)]
  {
    var p := Payload(user, title, platform);
    assert Server.UpdateSong(Some(p)).emitted[0].payload.fields == p.fields;
  }

  // ---------------------------------------------------------------------------
  // Worker.run

  /** The start of `run`: the signal emitted and whether the loop is entered. */
  function Start(platform: string, spotifyReady: bool): (r: (seq<Event>, bool))
    ensures r.1 <==> platform != SPOTIFY || spotifyReady
    ensures !r.1 ==> r.0 == [Failure(INIT_FAILED)]
    ensures r.1 ==> r.0 == [Status("Monitoring " + platform + "...")]
  {
    if platform == SPOTIFY && !spotifyReady then ([Failure(INIT_FAILED)], false)
    else ([Status("Monitoring " + platform + "...")], true)
  }

  /** The part of a cycle after the pair is unpacked, or with nothing detected. */
  function React(last: Option<string>, title: Option<string>, outcome: Server.PostOutcome): (r: (Option<string>, seq<Event>))
    ensures r.0 == title
    ensures title.Some? && title != last ==> r.1 == [Posted(title.value), PostStatus(outcome)]
    ensures title.Some? && title == last ==> r.1 == []
    ensures title.None? ==> r.1 == (if last.Some? then [Status(STOPPED)] else [])
  {
    match title
    case Some(t) => if title != last then (title, [Posted(t), PostStatus(outcome)]) else (last, [])
    case None => (None, if last.Some? then [Status(STOPPED)] else [])
  }

  /** The loop body as written: a triple reaches `song, artist = song_info`, which raises,
      and the except branch reports it and leaves `last_song_title` alone. */
  function CycleAsWritten(last: Option<string>, c: Cycle): (r: (Option<string>, seq<Event>))
    ensures c.detection.Triple? ==> r == (last, [Failure(UNPACK_FAILED)])
    ensures !c.detection.Triple? ==> r == React(last, if c.detection.Nothing? then None else Some(Title(c.detection)), c.outcome)
  {
    match c.detection
    case Nothing => React(last, None, c.outcome)
    case Pair(song, artist) => React(last, Some(Title(c.detection)), c.outcome)
    case Triple(_, _, _) => (last, [Failure(UNPACK_FAILED)])
  }

  /** The title a cycle detects: its first two components formatted, None when nothing plays. */
  function DetectedTitle(d: Detection): (r: Option<string>)
    ensures r.None? <==> d.Nothing?
  {
    if d.Nothing? then None else Some(Title(d))
  }

  /** The loop body reading the song and artist from the first two components, so that the
      Spotify triple is posted like the NetEase pair. */
  function CycleFixed(last: Option<string>, c: Cycle): (r: (Option<string>, seq<Event>))
    ensures r.0 == DetectedTitle(c.detection)
    ensures (exists t :: Posted(t) in r.1) <==> c.detection != Nothing && DetectedTitle(c.detection) != last
  {
    var r := React(last, DetectedTitle(c.detection), c.outcome);
    assert forall t :: Posted(t) in r.1 ==> r.1[0] == Posted(t);
    r
  }

  /** The loop as written over a sequence of cycles, from `last`. */
  function RunAsWritten(last: Option<string>, cs: seq<Cycle>): (r: (Option<string>, seq<Event>))
    decreases |cs|
  {
    if |cs| == 0 then (last, [])
    else
      var (l, evs) := RunAsWritten(last, cs[..|cs| - 1]);
      var (l', more) := CycleAsWritten(l, cs[|cs| - 1]);
      (l', evs + more)
  }

  /** The corrected loop over a sequence of cycles, from `last`. */
  function RunFixed(last: Option<string>, cs: seq<Cycle>): (r: (Option<string>, seq<Event>))
    decreases |cs|
  {
    if |cs| == 0 then (last, [])
    else
      var (l, evs) := RunFixed(last, cs[..|cs| - 1]);
      var (l', more) := CycleFixed(l, cs[|cs| - 1]);
      (l', evs + more)
  }

  /** The titles handed to `post_to_server`, in order. */
  function PostedTitles(evs: seq<Event>): (r: seq<string>)
    ensures |r| <= |evs|
    decreases |evs|
  {
    if |evs| == 0 then []
    else PostedTitles(evs[..|evs| - 1]) + (if evs[|evs| - 1].Posted? then [evs[|evs| - 1].title] else [])
  }

  lemma PostedTitlesAppend(a: seq<Event>, b: seq<Event>)
    ensures PostedTitles(a + b) == PostedTitles(a) + PostedTitles(b)
    decreases |b|
  {
    if |b| > 0 {
      assert (a + b)[..|a + b| - 1] == a + b[..|b| - 1];
      PostedTitlesAppend(a, b[..|b| - 1]);
    } else {
      assert a + b == a;
    }
  }

  /** What the Spotify detector can hand the loop: nothing, or a triple. */
  predicate FromSpotifyDetector(cs: seq<Cycle>) {
    forall i :: 0 <= i < |cs| ==> cs[i].detection.Nothing? || cs[i].detection.Triple?
  }

  /** As written, a Spotify worker never calls `post_to_server`: every playing cycle ends in
      the unpack error, and the last title stays None. */
  lemma {:induction false} SpotifyNeverPosts(cs: seq<Cycle>)
    requires FromSpotifyDetector(cs)
    ensures RunAsWritten(None, cs).0 == None
    ensures PostedTitles(RunAsWritten(None, cs).1) == []
    decreases |cs|
  {
    if |cs| > 0 {
      var k := |cs| - 1;
      SpotifyNeverPosts(cs[..k]);
      var (l, evs) := RunAsWritten(None, cs[..k]);
      var (l', more) := CycleAsWritten(l, cs[k]);
      PostedTitlesAppend(evs, more);
      if cs[k].detection.Triple? {
        assert more == [Failure(UNPACK_FAILED)];
        assert PostedTitles(more) == PostedTitles(more[..0]);
      } else {
        assert more == [];
      }
    }
  }

  /** Concretely: Spotify playing one song for two cycles posts nothing and reports the
      unpack error twice. */
  lemma SpotifyExample(song: string, artist: string, art: Option<string>, o: Server.PostOutcome)
    ensures var c := Cycle(Triple(song, artist, art), o);
      RunAsWritten(None, [c, c]) == (None, [Failure(UNPACK_FAILED), Failure(UNPACK_FAILED)])
  {
    var c := Cycle(Triple(song, artist, art), o);
    var e: seq<Cycle> := [];
    assert RunAsWritten(None, e) == (None, []);
    assert CycleAsWritten(None, c) == (None, [Failure(UNPACK_FAILED)]);
    RunAsWrittenSnoc(e, c);
    assert e + [c] == [c];
    assert [] + [Failure(UNPACK_FAILED)] == [Failure(UNPACK_FAILED)];
    assert RunAsWritten(None, [c]) == (None, [Failure(UNPACK_FAILED)]);
    RunAsWrittenSnoc([c], c);
    assert [c] + [c] == [c, c];
    assert [Failure(UNPACK_FAILED)] + [Failure(UNPACK_FAILED)] == [Failure(UNPACK_FAILED), Failure(UNPACK_FAILED)];
  }

  lemma RunAsWrittenSnoc(cs: seq<Cycle>, c: Cycle)
    ensures var (l, evs) := RunAsWritten(None, cs);
      var (l', more) := CycleAsWritten(l, c);
      RunAsWritten(None, cs + [c]) == (l', evs + more)
  {
    assert (cs + [c])[..|cs|] == cs;
  }

  /** The titles the detector reports, cycle by cycle. */
  function Titles(cs: seq<Cycle>): (r: seq<Option<string>>)
    ensures |r| == |cs| && forall i :: 0 <= i < |cs| ==> r[i] == DetectedTitle(cs[i].detection)
  {
    seq(|cs|, i requires 0 <= i < |cs| => DetectedTitle(cs[i].detection))
  }

  /** The corrected loop posts exactly the titles that differ from the previous cycle's
      (a cycle with nothing playing forgets the last title), on either platform. */
  lemma {:induction false} FixedPostsChanges(cs: seq<Cycle>)
    ensures RunFixed(None, cs).0 == Dedup.Run(None, Titles(cs)).0
    ensures PostedTitles(RunFixed(None, cs).1) == Dedup.Run(None, Titles(cs)).1
    decreases |cs|
  {
    if |cs| > 0 {
      var k := |cs| - 1;
      FixedPostsChanges(cs[..k]);
      assert Titles(cs)[..k] == Titles(cs[..k]);
      var (l, evs) := RunFixed(None, cs[..k]);
      var (l', more) := CycleFixed(l, cs[k]);
      PostedTitlesAppend(evs, more);
      var t := DetectedTitle(cs[k].detection);
      if t.Some? && t != l {
        assert more == [Posted(t.value), PostStatus(cs[k].outcome)];
        assert more[..1] == [Posted(t.value)] && more[..1][..0] == [];
      } else if t.Some? {
        assert more == [];
      } else {
        assert more == [] || more == [Status(STOPPED)];
        assert more != [] ==> more[..0] == [];
      }
    }
  }

  /** With the correction, a Spotify worker posts the first song it sees. */
  lemma FixedSpotifyPosts(song: string, artist: string, art: Option<string>, o: Server.PostOutcome)
    ensures PostedTitles(RunFixed(None, [Cycle(Triple(song, artist, art), o)]).1) == [Title(Pair(song, artist))]
  {
    var cs := [Cycle(Triple(song, artist, art), o)];
    FixedPostsChanges(cs);
    assert cs[..0] == [];
    assert Titles(cs) == [Some(Title(Pair(song, artist)))];
    assert Titles(cs)[..0] == [];
  }
}
