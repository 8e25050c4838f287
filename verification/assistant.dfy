/**
 * The console assistant of desktop_assistant.py: it asks for a username, then
 * once per cycle reads the NetEase window title and posts `{"user", "song"}`
 * when the "song - artist" title changed. Console output is modelled as lines
 * in order, and a post as the body it carries; the window lookup and the
 * outcome of each post are inputs.
 */
module Assistant {
  import opened Wrappers
  import opened Text
  import opened Json
  import Server
  import opened TitleParser
  import Dedup

  /** A line printed to the console, or a call of `requests.post` with this JSON body. */
  datatype Line = Say(text: string) | Post(body: Json)

  /** One cycle of the loop: what the window lookup found, and what the post, if one is made,
      returns. */
  datatype Cycle = Cycle(probe: WindowProbe, outcome: Server.PostOutcome)

  const EMPTY_NAME := "Username cannot be empty. Exiting."
  const CTRL_C := "Press Ctrl+C to stop."
  const NEW_SONG := "New song detected: "
  const SENT := "Successfully sent update to the server."
  const REFUSED := "Failed to send update. Server responded with: "
  const CONNECT_ERROR := "Error connecting to the server: "
  const STOPPED := "Playback stopped or NetEase Music closed."

  /** The start of `main`: the lines printed and whether the loop is entered. */
  function Start(username: string): (r: (seq<Line>, bool))
    ensures r.1 <==> username != ""
    ensures !r.1 ==> r.0 == [Say(EMPTY_NAME)]
    ensures r.1 ==> |r.0| == 2 && r.0[0] == Say("Welcome, " + username + "! Starting song reporting...")
    ensures r.1 ==> r.0[1] == Say(CTRL_C)
  {
    if username == "" then ([Say(EMPTY_NAME)], false)
    else ([Say("Welcome, " + username + "! Starting song reporting..."), Say(CTRL_C)], true)
  }

  /** The body the assistant posts: user and song only, no platform. */
  function Payload(user: string, title: string): (r: Json)
    ensures r.JObj? && r.fields.Keys == {"user", "song"}
    ensures r.fields["user"] == JStr(user) && r.fields["song"] == JStr(title)
  {
    JObj(map["user" := JStr(user), "song" := JStr(title)])
  }

  /** The line printed for the outcome of a post. */
  function Report(outcome: Server.PostOutcome): (r: Line)
    ensures r == Say(SENT) <==> outcome == Server.HttpStatus(200)
    ensures outcome.HttpStatus? && outcome.code != 200 ==> r == Say(REFUSED + NatToString(outcome.code))
    ensures outcome.RequestFailed? ==> r == Say(CONNECT_ERROR + outcome.detail)
  {
    match outcome
    case HttpStatus(code) =>
      if code == 200 then Say(SENT)
      else
        var text := REFUSED + NatToString(code);
        assert |text| > |SENT|;
        Say(text)
    case RequestFailed(detail) =>
      var text := CONNECT_ERROR + detail;
      assert text[0] == CONNECT_ERROR[0] != SENT[0];
      Say(text)
  }

  /** The title a cycle detects, None when no song is read off the window. */
  function DetectedTitle(probe: WindowProbe): (r: Option<string>)
    ensures r.Some? <==> AssistantDetect(probe).Some?
    ensures r.Some? ==> r.value == FormatTitle(AssistantDetect(probe).value.0, AssistantDetect(probe).value.1)
  {
    match AssistantDetect(probe)
    case None => None
    case Some((song, artist)) => Some(FormatTitle(song, artist))
  }

  /** One pass of the loop body: the new `last_song_title` and the lines it produces. */
  function Step(user: string, last: Option<string>, c: Cycle): (r: (Option<string>, seq<Line>))
    ensures var t := DetectedTitle(c.probe);
      && r.0 == t
      && Posts(r.1) == (if t.Some? && t != last then [Payload(user, t.value)] else [])
      && (t.None? ==> r.1 == (if last.Some? then [Say(STOPPED)] else []))
  {
    StepFor(user, last, DetectedTitle(c.probe), c.outcome)
  }

  /** `Step` once the title `t` has been read off the window. */
  function StepFor(user: string, last: Option<string>, t: Option<string>, outcome: Server.PostOutcome): (r: (Option<string>, seq<Line>))
    ensures r.0 == t
    ensures Posts(r.1) == (if t.Some? && t != last then [Payload(user, t.value)] else [])
    ensures t.None? ==> r.1 == (if last.Some? then [Say(STOPPED)] else [])
  {
    match t
    case Some(title) =>
      if t != last then
        var lines := [Say(NEW_SONG + title), Post(Payload(user, title)), Report(outcome)];
        PostsOfAnnouncement(lines);
        (t, lines)
      else (last, [])
    case None => (None, if last.Some? then [Say(STOPPED)] else [])
  }

  /** A new song prints a line, posts once, and prints the outcome. */
  lemma PostsOfAnnouncement(lines: seq<Line>)
    requires |lines| == 3 && lines[0].Say? && lines[1].Post? && lines[2].Say?
    ensures Posts(lines) == [lines[1].body]
  {
    var one, two := lines[..1], lines[..2];
    assert one[..0] == [] && two[..1] == one && lines[..2] == two;
    assert Posts(one) == [];
    assert Posts(two) == [lines[1].body];
  }

  /** The loop over a sequence of cycles, from `last`. */
  function Run(user: string, last: Option<string>, cs: seq<Cycle>): (r: (Option<string>, seq<Line>))
    decreases |cs|
  {
    if |cs| == 0 then (last, [])
    else
      var (l, lines) := Run(user, last, cs[..|cs| - 1]);
      var (l', more) := Step(user, l, cs[|cs| - 1]);
      (l', lines + more)
  }

  /** The bodies posted, in order. */
  function Posts(lines: seq<Line>): (r: seq<Json>)
    ensures |r| <= |lines|
    decreases |lines|
  {
    if |lines| == 0 then []
    else Posts(lines[..|lines| - 1]) + (if lines[|lines| - 1].Post? then [lines[|lines| - 1].body] else [])
  }

  lemma {:induction false} PostsAppend(a: seq<Line>, b: seq<Line>)
    ensures Posts(a + b) == Posts(a) + Posts(b)
    decreases |b|
  {
    if |b| > 0 {
      assert (a + b)[..|a + b| - 1] == a + b[..|b| - 1];
      PostsAppend(a, b[..|b| - 1]);
    } else {
      assert a + b == a;
    }
  }

  /** The titles the window shows, cycle by cycle. */
  function Titles(cs: seq<Cycle>): (r: seq<Option<string>>)
    ensures |r| == |cs| && forall i :: 0 <= i < |cs| ==> r[i] == DetectedTitle(cs[i].probe)
  {
    seq(|cs|, i requires 0 <= i < |cs| => DetectedTitle(cs[i].probe))
  }

  /** The body posted for each title, in order. */
  function Payloads(user: string, titles: seq<string>): (r: seq<Json>)
    ensures |r| == |titles| && forall i :: 0 <= i < |titles| ==> r[i] == Payload(user, titles[i])
  {
    seq(|titles|, i requires 0 <= i < |titles| => Payload(user, titles[i]))
  }

  lemma PayloadsSnoc(user: string, titles: seq<string>, t: string)
    ensures Payloads(user, titles + [t]) == Payloads(user, titles) + [Payload(user, t)]
  {
    var a, b := Payloads(user, titles + [t]), Payloads(user, titles) + [Payload(user, t)];
    forall i | 0 <= i < |a|
      ensures a[i] == b[i]
    {
      if i < |titles| {
        assert (titles + [t])[i] == titles[i];
      }
    }
  }

  lemma {:induction false} RunIsDedup(user: string, cs: seq<Cycle>)
    ensures Run(user, None, cs).0 == Dedup.Run(None, Titles(cs)).0
    ensures Posts(Run(user, None, cs).1) == Payloads(user, Dedup.Run(None, Titles(cs)).1)
    decreases |cs|
  {
    if |cs| > 0 {
      var k := |cs| - 1;
      RunIsDedup(user, cs[..k]);
      assert Titles(cs)[..k] == Titles(cs[..k]);
      var (l, lines) := Run(user, None, cs[..k]);
      var (l', more) := Step(user, l, cs[k]);
      PostsAppend(lines, more);
      var t := DetectedTitle(cs[k].probe);
      var out := Dedup.Run(None, Titles(cs[..k])).1;
      if t.Some? && t != l {
        PayloadsSnoc(user, out, t.value);
      } else {
        assert Payloads(user, out) + [] == Payloads(user, out);
      }
    }
  }

  /** The assistant posts `{"user": username, "song": title}` for exactly the titles that
      differ from the previous cycle's, in order; a cycle that reads no song forgets the last
      title, so the same song is posted again after a pause. */
  lemma PostsAnnouncedTitles(user: string, cs: seq<Cycle>)
    ensures Posts(Run(user, None, cs).1) == Payloads(user, Dedup.Announced(Titles(cs)))
  {
    RunIsDedup(user, cs);
    Dedup.RunAnnounces(Titles(cs));
  }

  /** Posted to `update_song`, the body is accepted and broadcast with platform "unknown". */
  lemma PayloadBroadcastAsUnknown(user: string, title: string)
    ensures var r := Server.UpdateSong(Some(Payload(user, title)));
      && r.status == 200
      && r.emitted[0].payload.fields == map["user" := JStr(user), "song" := JStr(title), "platform" := Server.DEFAULT_PLATFORM]
  {
  }
}
