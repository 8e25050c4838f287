/**
 * The server of app.py: `update_song` validates a posted body, broadcasts one
 * `song_update` event and answers. It keeps nothing between requests, so a
 * request is modelled as a pure function from the decoded body to the reply
 * and the events it emits.
 */
module Server {
  import opened Wrappers
  import opened Json

  /** One Socket.IO emit: event name and payload. */
  datatype Event = Event(name: string, payload: Json)

  /** The HTTP status, the JSON body when the handler returns one (a 500 carries Flask's
      error page instead), and the events emitted while handling the request. */
  datatype Reply = Reply(status: nat, body: Option<Json>, emitted: seq<Event>)

  /** What a client's `requests.post` did: answered with a status code, or raised a
      RequestException with this text. */
  datatype PostOutcome = HttpStatus(code: nat) | RequestFailed(detail: string)

  const SONG_UPDATE := "song_update"
  const DEFAULT_PLATFORM := JStr("unknown")
  const INVALID_DATA := JObj(map["status" := JStr("error"), "message" := JStr("Invalid data")])
  const SUCCESS := JObj(map["status" := JStr("success")])

  /** The body passes validation and reaches the broadcast: a JSON object holding both keys. */
  predicate Accepted(body: Option<Json>) {
    body.Some? && body.value.JObj? && "user" in body.value.fields && "song" in body.value.fields
  }

  /** A payload `update_song` broadcasts: exactly the keys user, song and platform. */
  predicate IsBroadcast(payload: Json) {
    payload.JObj? && payload.fields.Keys == {"user", "song", "platform"}
  }

  /** `update_song`. `body` is what `request.get_json()` returned, None when there was no
      JSON. An absent body or one without both keys gets the 400 reply; a body whose type
      makes `in` raise (a number, a boolean) or that passes `in` but has no `.get` (a list
      or a string naming both keys) ends in a 500. */
  function UpdateSong(body: Option<Json>): (r: Reply)
    ensures r.status == 200 <==> Accepted(body)
    ensures r.status in {200, 400, 500}
    ensures r.status != 200 ==> r.emitted == []
    ensures r.status == 400 ==> r.body == Some(INVALID_DATA)
    ensures r.status == 400 <==>
              (body.None? || Falsy(body.value) || PyIn("user", body.value) == Some(false)
               || PyIn("song", body.value) == Some(false))
    ensures Accepted(body) ==>
              && r.body == Some(SUCCESS)
              && |r.emitted| == 1 && r.emitted[0].name == SONG_UPDATE
              && IsBroadcast(r.emitted[0].payload)
              && var sent := r.emitted[0].payload.fields;
                 var got := body.value.fields;
                 && sent["user"] == got["user"] && sent["song"] == got["song"]
                 && sent["platform"] == (if "platform" in got then got["platform"] else DEFAULT_PLATFORM)
  {
    var data := if body.Some? then body.value else JNull;
    if Falsy(data) then Reply(400, Some(INVALID_DATA), [])
    else
      match PyIn("user", data)
      case None => Reply(500, None, [])
      case Some(hasUser) =>
        if !hasUser || PyIn("song", data) == Some(false) then Reply(400, Some(INVALID_DATA), [])
        else if !data.JObj? then Reply(500, None, [])
        else
          var fields := data.fields;
          var platform := if "platform" in fields then fields["platform"] else DEFAULT_PLATFORM;
          var payload := JObj(map["user" := fields["user"], "song" := fields["song"], "platform" := platform]);
          Reply(200, Some(SUCCESS), [Event(SONG_UPDATE, payload)])
  }

  /** Re-posting a broadcast payload broadcasts it unchanged: the event is a fixed point of
      the handler. */
  lemma BroadcastIsFixedPoint(body: Option<Json>)
    requires Accepted(body)
    ensures var p := UpdateSong(body).emitted[0].payload;
      UpdateSong(Some(p)).emitted == [Event(SONG_UPDATE, p)]
  {
    var p := UpdateSong(body).emitted[0].payload;
    assert "platform" in p.fields;
    var q := UpdateSong(Some(p)).emitted[0].payload;
    assert q.fields == p.fields;
  }

  /** Validation tests key presence only: empty user and song strings are broadcast. */
  lemma EmptyNamesAccepted()
    ensures UpdateSong(Some(JObj(map["user" := JStr(""), "song" := JStr("")]))).status == 200
  {
  }

  /** A field other than user, song and platform, such as the macOS client's art_url, is not
      broadcast; and with platform absent the broadcast says "unknown". */
  lemma ExtraFieldsDropped(user: Json, song: Json, art: Json)
    ensures var r := UpdateSong(Some(JObj(map["user" := user, "song" := song, "art_url" := art])));
      && r.status == 200
      && "art_url" !in r.emitted[0].payload.fields
      && r.emitted[0].payload.fields["platform"] == DEFAULT_PLATFORM
  {
  }

  /** Only the key test matters: an object lacking "song" is rejected whatever else it holds. */
  lemma MissingSongRejected(fields: map<string, Json>)
    requires "song" !in fields
    ensures UpdateSong(Some(JObj(fields))) == Reply(400, Some(INVALID_DATA), [])
  {
  }
}
