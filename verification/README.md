# ListeningTogether, modelled in Dafny

ListeningTogether is a "listening room". Each desktop client reads the song its
user is playing (from the NetEase Cloud Music window title or from Spotify) and
posts it to a Flask server. The room windows poll a room-state dict and show
every present user in one of twelve seats. The browser page reaches Qt objects
through a trimmed copy of the QWebChannel client library.

This project models the sequential logic of those programs as pure Dafny
functions and proves properties of them. The GUI toolkits, the network, the OS
window lookup and the music services are not modelled as code. Their answers
are inputs to the model:
- a `WindowProbe` for the window lookup;
- `PostOutcome` for a `requests.post`;
- `SearchReply`, `AlbumInfo` and `SpotifyClient` for the services.

One polling loop iteration is one step function. A loop over many iterations
is a fold of that step over a sequence of inputs.

The model follows the code wherever the code and the prose description differ:
- The server, app.py, keeps no state and has no expiry. `update_song`
  validates the posted body, emits one `song_update` event and answers. The
  model therefore has no store.
- The room clients post to `update_state` and poll `get_state`
  (pure_desktop_app.py:16-17), and app.py defines neither route.
  desktop_app.py posts to `update_song` (desktop_app.py:17-18), the route
  app.py:18 serves, so its body does reach `Server.UpdateSong`.
  desktop_assistant.py posts to the server's bare base URL
  (desktop_assistant.py:8), which only serves `GET /`. The model still gives
  the other clients' bodies to `Server.UpdateSong` to state what the handler
  would do with them. It does not claim that those bodies reach it.
- Placement in a room window depends on the dict's iteration order, and
  matching uses `label.endswith(user)`. The room state is therefore a sequence
  of (user, data) pairs, and each seat keeps its label string.

Modules:
- `Wrappers`, `Text` and `Json`: shared vocabulary. This covers `Option`, the
  Python string operations used (`split(' - ', 1)`, `strip`, `endswith`,
  `replace(..., 1)`, `', '.join`) and JSON values with Python truthiness.
- `Seats`: the seat widget, the twelve-seat grid, the "label ends with user"
  test and the lowest unclaimed seat.
- `SinglePass` and `TwoPass`: `RoomWindow.on_state_update` of the Windows and
  macOS room windows.
- `RoomClients`: the settings dialogs, the detector loops and the state
  updater payloads of both room clients.
- `Dedup`: the "post when the title changed" step that the publishers share.
- `TitleParser`: window-title parsing in desktop_assistant.py and
  netease_client.py.
- `Catalog`: NetEase search and album shaping, and Spotify playback shaping.
- `Detections`: what one detector call returns.
- `Server`: app.py's `update_song`.
- `DesktopApp`, `Assistant` and `MusicFriend`: the loops of the three
  single-user clients.
- `WebChannel`: static/qwebchannel.js. It covers:
  - the exec-id counter and the callback registry;
  - message dispatch;
  - method argument padding;
  - the property setter;
  - signal connect, disconnect and emit.

## Model

| member | source | states |
|---|---|---|
| Seats.InitialSeats | pure_desktop_app.py:120-125 | the window starts with exactly twelve fresh seats |
| Seats.GridCell | pure_desktop_app.py:123 | seat i is at row i div 4 and column i mod 4, inside a 3-by-4 grid |
| Seats.GridCellsDistinct | pure_desktop_app.py:120-125 | no two seats share a grid cell |
| Seats.FindHeldSeat | pure_desktop_app.py:133-138 | the seat found is the first one, in index order, that is occupied and whose label ends with the user name; None only when no seat qualifies |
| Seats.LowestUnclaimed | pure_desktop_app.py:140-144 | the seat chosen is unclaimed and every lower seat is claimed; None only when every seat is claimed |
| SinglePass.Icon | pure_desktop_app.py:44 | the green icon exactly when the platform is "spotify", the note icon otherwise, a missing platform included |
| SinglePass.LabelDetermines | pure_desktop_app.py:44-45 | a label this window writes determines the user and whether the platform is Spotify |
| SinglePass.Fold | pure_desktop_app.py:131-144 | the loop only adds claimed seats, and at most one per user; seats it does not claim keep their content; a newly claimed seat shows a present user with that user's data |
| SinglePass.ClearUnclaimed | pure_desktop_app.py:146-148 | every seat not claimed in this update is emptied and claimed seats are kept |
| SinglePass.OnStateUpdate | pure_desktop_app.py:128-149 | the seat count is unchanged; a seat left unoccupied is a `set_empty` seat; an occupied seat shows some present user with that user's data; no more seats are occupied than there are users, so extra users are dropped without error |
| SinglePass.StableWhenHeld | pure_desktop_app.py:131-138 | when every present user holds a seat of their own and no name is a suffix of another present user's label, each user is rewritten in their own seat and every other seat is emptied |
| SinglePass.FillsInOrder | pure_desktop_app.py:139-144 | into a window with no occupied seat, and when no present user's name is a suffix of another present user's label, the users take seats 0, 1, 2, ... in dict order, and the rest are emptied |
| SinglePass.NewcomerDisplacesPresentUser | pure_desktop_app.py:139-144 | a newcomer ordered before a present user takes that user's seat (the lowest unclaimed one), so the present user moves: placement is not stable |
| TwoPass.SongText | pure_desktop_app_mac.py:70 | an empty or missing song reads "Playback Paused"; any other song is shown as is |
| TwoPass.UpdateArt | pure_desktop_app_mac.py:72-82 | a download starts exactly when the URL is non-empty and differs from the cached one; the cache becomes the URL when it is non-empty and None otherwise |
| TwoPass.ArtRepeatIsQuiet | pure_desktop_app_mac.py:72 | showing the same URL again starts no second download |
| TwoPass.Put | pure_desktop_app_mac.py:183-185 | placing a user claims the seat, maps the user to it and shows the user there; every other seat is unchanged |
| TwoPass.Fill | pure_desktop_app_mac.py:190-196 | a pass-2 step changes only seats that now show the user and never a seat already claimed; the user is left unmapped only when every seat is claimed |
| TwoPass.KeepAll | pure_desktop_app_mac.py:179-187 | pass 1 only adds claimed seats, each of which now shows a present user with that user's data; seats it does not claim are unchanged |
| TwoPass.FillAll | pure_desktop_app_mac.py:189-196 | pass 2 never changes a seat claimed before it; every seat it claims shows a present user; a user is left without a seat only when every seat is claimed |
| TwoPass.OnStateUpdate | pure_desktop_app_mac.py:176-200 | the seat count is unchanged; an unoccupied seat is a `set_empty` seat; an occupied seat shows a present user; a seat claimed in pass 1 is not given away in pass 2; a user is left out of `user_to_seat_map` only when every seat is taken |
| TwoPass.ReturningUsersKeepSeats | pure_desktop_app_mac.py:179-187 | with no suffix collision, every user found in a seat is shown in that same seat and mapped to it, whatever newcomers arrive |
| TwoPass.FillAllSeatOf | pure_desktop_app_mac.py:189-196 | a user that pass 2 maps is from the room and gets a seat that was unclaimed before the pass; every lower seat is claimed afterwards |
| TwoPass.NewcomersInDictOrder | pure_desktop_app_mac.py:189-196 | pass 2 gives newcomers increasing seat numbers in dict order |
| TwoPass.SuffixCollisionSharesSeat | pure_desktop_app_mac.py:182-185 | "ab" and "b" both match the seat labelled for "ab"; both are mapped to seat 0, "b" overwrites it, and "ab" is shown nowhere |
| TwoPass.ReturningUserNotDisplaced | pure_desktop_app_mac.py:176-196 | on the input where the single pass moves "b", the two-pass update keeps "b" in seat 0 and puts "a" in seat 1 |
| RoomClients.AcceptSettings | pure_desktop_app.py:177-183 | the dialog closes exactly when the stripped nickname is non-empty; the nickname kept is the stripped text; the platform is "spotify" exactly when the Spotify button is checked, and "netease" otherwise |
| RoomClients.AcceptMacSettings | pure_desktop_app_mac.py:223-228 | the dialog closes exactly when the stripped nickname is non-empty, and it keeps the stripped text |
| RoomClients.AcceptedNameIsStable | pure_desktop_app.py:177-183 | typing back the accepted nickname is accepted with the same result |
| RoomClients.DetectorStep | pure_desktop_app.py:71-75 | a cycle emits exactly when the formatted title ("" for nothing playing) differs from the last one, and it emits that title |
| RoomClients.DetectorRun | pure_desktop_app.py:63-68 | a Spotify worker whose client fails to initialise emits nothing; any other worker emits exactly `Dedup.Announced` of the cycle titles, i.e. each title that differs from the previous cycle's, "" standing for nothing playing |
| RoomClients.DetectorEmitsChanges | pure_desktop_app.py:69-76 | the loop emits exactly the titles that differ from the previous cycle's; the first cycle always emits; no title is emitted twice in a row |
| RoomClients.SilenceEmittedOnce | pure_desktop_app.py:72-75 | three silent cycles from the start emit "" once |
| RoomClients.UpdatePayload | pure_desktop_app.py:87 | the body has exactly the keys user, song and platform, holding the given values |
| RoomClients.UpdatePayloadIsBroadcastShape | pure_desktop_app.py:87 | `update_song` would broadcast this body unchanged, as one event |
| RoomClients.MacSongData | pure_desktop_app_mac.py:115-119 | nothing playing gives song "" and no art; otherwise the "song - artist" title and the art URL of the triple |
| RoomClients.MacDetectorRun | pure_desktop_app_mac.py:110-122 | nothing when Spotify fails to initialise; otherwise exactly one emission per cycle, repeats included |
| RoomClients.MacPayload | pure_desktop_app_mac.py:132-137 | the body has the keys user, song, platform and art_url; platform is always "spotify"; art_url is null when there is no art |
| RoomClients.MacArtNotBroadcast | pure_desktop_app_mac.py:132-138 | through `update_song` the macOS body is accepted and loses its art URL |
| Dedup.Step | desktop_assistant.py:49-56 | the new last title is the detected one; a title is announced exactly when one is detected and it differs from the last |
| Dedup.RunAnnounces | desktop_assistant.py:43-78 | from a fresh start, the loop announces exactly the titles of the announcing cycles, and ends on the last cycle's title |
| Dedup.AnnouncedNoRepeats | pure_desktop_app.py:72-75 | when every cycle detects something, no title is announced twice in a row, and the last one announced is the last one detected |
| TitleParser.ParseTitle | desktop_assistant.py:22-26 | a pair exactly when the title contains " - "; the pair is the stripped text before and after the first " - " |
| TitleParser.AssistantDetect | desktop_assistant.py:10-29 | a song pair exactly when the lookup found a window whose title contains " - "; for a window, the pair `ParseTitle` reads off its title |
| TitleParser.ClientDetect | netease_client.py:6-26 | exactly one of the pair and the error is present; "client not found" exactly for no window, "could not detect" exactly for a title without separator, and the generic error exactly when the lookup raised; the pair is the one `ParseTitle` reads off the window's title |
| TitleParser.DetectorsAgree | netease_client.py:18-20 | both detectors read the same song and artist off the same window |
| TitleParser.FormatTitle | desktop_assistant.py:51 | the title is the song, the separator and the artist, in that order |
| TitleParser.ParseFormatRoundTrip | desktop_assistant.py:23-24 | for a stripped song with no " - " and not ending in " -", and a stripped artist, parsing the formatted title gives the pair back |
| TitleParser.TrailingDashBreaksRoundTrip | desktop_assistant.py:23-24 | song "a -" by "b" reads back as song "a" by "- b", so the round trip needs its extra condition |
| TitleParser.ArtistKeepsLaterSeparators | desktop_assistant.py:23 | the split is at the first separator only, so "x - y - z" reads as "x" by "y - z" |
| Catalog.AllNames | spotify_detector.py:50 | the names of every record, in order, or None when one record has no name |
| Catalog.JoinArtistsAppend | netease_client.py:51 | joining keeps the service's artist order, with ", " between the names |
| Catalog.UpgradeScheme | netease_api_utils.py:28-30 | a URL starting with "http://" has that prefix replaced by "https://"; any other URL is unchanged |
| Catalog.UpgradedIsNotPlain | netease_api_utils.py:29-30 | an upgraded URL never starts with "http://" |
| Catalog.UpgradeIdempotent | netease_api_utils.py:29-30 | upgrading twice is upgrading once |
| Catalog.AlbumArtUrl | netease_api_utils.py:18-39 | a URL exactly when the search answered with a first hit that has `al.picUrl`; that URL upgraded to https, and never starting with "http://" |
| Catalog.TrackInfo | netease_client.py:28-60 | exactly one of details and error; "could not find" exactly when the search answered with nothing; details exactly when the first hit is complete and the album lookup answered; the details carry the name, the joined artists, the album, the year or "an unknown year", and picUrl + "?param=200y200" |
| Catalog.NotFoundIsNotFailure | netease_client.py:37-38 | the not-found message differs from the failure message |
| Catalog.CoverUrlKeepsPicture | netease_client.py:54 | the cover URL ends with the 200x200 size suffix, and removing it gives back picUrl |
| Catalog.SpotifySong | spotify_detector.py:38-63 | a triple exactly when the client is initialised, a track is playing and its fields can be read; the song name, the artists joined in order, and the first image URL (None exactly when there is no image) |
| Detections.FromNetease | netease_client.py:20 | the pair, or nothing when there is none |
| Detections.FromSpotify | spotify_detector.py:58 | the triple, or nothing when there is none |
| Server.UpdateSong | app.py:18-34 | 200 exactly for a JSON object holding both user and song; 400 with "Invalid data" for a missing or falsy body or a missing key; a rejected request emits nothing; an accepted one emits exactly one `song_update` with user, song, and platform defaulting to "unknown" |
| Server.BroadcastIsFixedPoint | app.py:30 | posting a broadcast payload again broadcasts the same payload |
| Server.EmptyNamesAccepted | app.py:21 | empty user and song strings are accepted |
| Server.ExtraFieldsDropped | app.py:24-30 | an extra field such as art_url is not broadcast, and a missing platform becomes "unknown" |
| Server.MissingSongRejected | app.py:21-22 | an object without "song" gets a 400 with "Invalid data" and emits nothing, whatever else it holds |
| DesktopApp.Payload | desktop_app.py:64 | the body has exactly user, song and platform, holding the given values |
| DesktopApp.PostStatus | desktop_app.py:62-71 | "Update sent successfully." exactly for status 200; "Server Error: <code>" for any other status; "Connection Failed: ..." as an error when the request raised |
| DesktopApp.StatusNamesTheCode | desktop_app.py:66-69 | two status lines are equal only when the status codes are equal |
| DesktopApp.PayloadBroadcastUnchanged | desktop_app.py:64 | `update_song` would broadcast the body unchanged |
| DesktopApp.Start | desktop_app.py:32-41 | the loop is entered exactly unless Spotify was chosen and fails to initialise; the failure emits "Spotify initialization failed." |
| DesktopApp.React | desktop_app.py:47-56 | a new title is posted and its status reported; a repeated title does nothing; nothing detected reports "Playback stopped." only after a song, and forgets the last title |
| DesktopApp.CycleAsWritten | desktop_app.py:44-60 | a Spotify triple makes the two-name unpack raise: the loop reports the error and keeps its last title |
| DesktopApp.SpotifyNeverPosts | desktop_app.py:48 | as written, a Spotify worker never calls `post_to_server` and its last title stays None |
| DesktopApp.CycleFixed | desktop_app.py:44-60 | with the first two fields unpacked, a cycle posts exactly when something is detected and its title differs from the last one |
| DesktopApp.FixedPostsChanges | desktop_app.py:44-60 | the corrected loop posts exactly the titles that change from cycle to cycle, in order, for either platform |
| DesktopApp.FixedSpotifyPosts | desktop_app.py:48 | with the correction, a Spotify worker posts the first song it sees |
| Assistant.Start | desktop_assistant.py:35-41 | an empty username prints the exit line and the loop is not entered; otherwise the loop is entered after the "Welcome, <name>! Starting song reporting..." and Ctrl+C lines |
| Assistant.Payload | desktop_assistant.py:60-63 | the body has exactly user and song, and no platform |
| Assistant.Report | desktop_assistant.py:66-72 | the success line exactly for status 200; the refusal line with the code for any other status; the connection error line when the request raised |
| Assistant.Step | desktop_assistant.py:47-78 | the new last title is the one detected; a post is made exactly when a title is detected and it differs from the last one; nothing detected prints the stop line only after a song |
| Assistant.PostsAnnouncedTitles | desktop_assistant.py:43-78 | over any run, the bodies posted are exactly `{user, song}` for the titles that differ from the previous cycle's, in order; a pause forgets the title, so the song is posted again afterwards |
| Assistant.PayloadBroadcastAsUnknown | desktop_assistant.py:60-63 | `update_song` would accept the body and broadcast it with platform "unknown" |
| MusicFriend.ErrorOrWaiting | MusicFriend.py:78 | a non-empty error message is shown; a missing or empty one shows "Waiting for a song to play..." |
| MusicFriend.Step | MusicFriend.py:43-81 | the shown song becomes the detected song name, or None; the same name changes nothing; a new name shows the four-line commentary and fetches the cover, or shows the lookup error with the placeholder; nothing detected resets the display only when a song is shown or the text contains "Welcome" |
| MusicFriend.ArtistChangeIgnored | MusicFriend.py:49 | the same song under another artist changes nothing |
| MusicFriend.ErrorsLackWelcome | netease_client.py:14-26 | no detection error message contains "Welcome" |
| MusicFriend.ResetIsFinal | MusicFriend.py:75-79 | the first silent cycle shows the detector's error and never "Waiting for a song to play..."; every later silent cycle changes nothing |
| MusicFriend.WelcomeIsReset | MusicFriend.py:76 | the welcome screen is reset by the first silent cycle |
| MusicFriend.CommentaryLines | MusicFriend.py:62-67 | when no field holds a line break, the commentary splits into exactly the Song, Artist(s), Album and Released lines |
| WebChannel.Kind | static/qwebchannel.js:81-88 | every request the channel sends carries one of the request types 1, 4, 5, 6 or 7, never a server message type |
| WebChannel.Fresh | static/qwebchannel.js:8-11 | a channel right after construction is well-formed: every waiting callback and every sent request has an id below the counter, and sent ids increase |
| WebChannel.Send | static/qwebchannel.js:49-58 | without a callback function only an error is logged and the counter is unchanged; otherwise the request goes out under the current id, the callback is registered under it, the counter goes up by one, and ids stay fresh and increasing |
| WebChannel.HandleResponse | static/qwebchannel.js:65-71 | an unknown id does nothing; a known id runs its callback once and removes it |
| WebChannel.ResponseHandledOnce | static/qwebchannel.js:65-71 | a second response with the same id changes nothing |
| WebChannel.OnMessage | static/qwebchannel.js:13-32 | type 2 goes to the signal handler, 8 to the response handler and 3 to the property-update handler; any other type logs an error and changes nothing else |
| WebChannel.RequestKindsRejected | static/qwebchannel.js:18-31 | a message carrying a request type is an error and sends nothing |
| WebChannel.NormalizeArgs | static/qwebchannel.js:113-120 | exactly as many arguments as declared parameters: the given ones first, then undefined |
| WebChannel.NormalizeLoop | static/qwebchannel.js:113-120 | the `newArgs` loop computes the normalised arguments |
| WebChannel.NormalizeIdempotent | static/qwebchannel.js:113-120 | normalising twice is normalising once, and arguments past the declared ones are dropped |
| WebChannel.CallMethod | static/qwebchannel.js:106-146 | a call sends one InvokeMethod request carrying exactly as many arguments as parameters |
| WebChannel.SetProp | static/qwebchannel.js:154-163 | writing the current value changes nothing; a different value is stored and sends exactly one SetProperty |
| WebChannel.SetPropTwiceIsOnce | static/qwebchannel.js:155 | writing the same value twice sends one SetProperty |
| WebChannel.ConnectAsWritten | static/qwebchannel.js:178-193 | a non-function callback only logs an error; ConnectToSignal is sent only when the signal has no connection list; the callback is appended |
| WebChannel.Connect | static/qwebchannel.js:178-193 | corrected: ConnectToSignal is sent whenever the signal has no listener, including after its list was emptied; the callback is appended |
| WebChannel.IndexOf | static/qwebchannel.js:199 | the index of the first occurrence, or None when there is none |
| WebChannel.RemoveAt | static/qwebchannel.js:203 | one element fewer: the list loses exactly that element and keeps the order of the rest |
| WebChannel.Disconnect | static/qwebchannel.js:194-211 | an unknown callback changes nothing; otherwise its first occurrence is removed, and DisconnectFromSignal is sent exactly when the list becomes empty |
| WebChannel.ConnectKeepsSync | static/qwebchannel.js:183-192 | with the corrected connect, the server forwards a signal exactly when the page listens to it, before and after connecting |
| WebChannel.DisconnectKeepsSync | static/qwebchannel.js:194-211 | disconnecting keeps the server and the page in step |
| WebChannel.ReconnectIsNeverSent | static/qwebchannel.js:183-210 | as written, connect f, disconnect f, connect g leaves g listening but the server unsubscribed |
| WebChannel.ReconnectIsSent | static/qwebchannel.js:183-210 | with the corrected connect, the same sequence subscribes again |
| WebChannel.NotifyAllInOrder | static/qwebchannel.js:216-219 | the page functions of a connection list are called in list order, each with the signal's arguments |
| WebChannel.Emitted | static/qwebchannel.js:213-221 | a signal without a connection list does nothing; otherwise its connections run in order; nothing is sent |
| WebChannel.SignalEmitted | static/qwebchannel.js:223-227 | only a name that is a signal of the object is emitted |
| WebChannel.HandleSignal | static/qwebchannel.js:59-64 | a signal for an unknown object is ignored; otherwise it is emitted on that object; nothing is sent |
| WebChannel.PropertyUpdate | static/qwebchannel.js:228-239 | the update keeps the set of objects and the channel's well-formedness |
| WebChannel.HandlePropertyUpdate | static/qwebchannel.js:72-80 | a list of updates all for unknown objects leaves the channel unchanged; the set of objects and well-formedness are kept |
| WebChannel.UpdateIsEchoed | static/qwebchannel.js:228-233 | a property update from the server that changes a value goes through the setter, so it is stored and sent back as one SetProperty |

## Left out

- Widget construction, styling, `QApplication.processEvents`, QThread wiring and tkinter setup are not modelled. They are display and threading only.
- `time.sleep` and the endless loops are not modelled. One iteration is a step function, and a run is a finite sequence of iterations.
- The assistant's Ctrl+C exit (desktop_assistant.py:83-84), which prints "Stopping the assistant. Goodbye!" and ends the loop, is not modelled. A KeyboardInterrupt is an asynchronous signal, and a finite run of `Assistant.Run` stands for the cycles before it.
- `requests`, `win32gui`, spotipy and pyncm calls are not modelled as code. Their results are input datatypes, and a raised exception is one more case of each.
- Image download and decode (`ImageDownloader`, `update_album_art`, QPixmap, PIL) are not modelled. The model records which URL a cycle starts downloading, and nothing more.
- MusicFriend's intermediate "Now Playing ... Fetching details..." text is not modelled. It is overwritten in the same cycle.
- `datetime.fromtimestamp(...).strftime('%Y')` is not modelled, because it depends on floating-point time and the local time zone. The formatted year is an input of `AlbumInfo`.
- JSON null and non-string values inside service answers are not modelled. A missing key and a null value are both `None`.
- A request with no JSON body is `body == None` and gets the 400 "Invalid data" reply of `Server.UpdateSong`. Flask's own abort for a non-JSON or malformed body, which happens before `update_song` runs, is not modelled. Only a body on which `in` or `.get` raises reaches the 500 case.
- The Socket.IO fan-out, the connect and disconnect handlers and server start-up in app.py are not modelled. An emit is recorded as an event.
- `StateFetcherWorker` is not modelled. It only re-emits the polled JSON.
- spotify_client.py is not part of this model. No other file uses it.
- DesktopApp.UNPACK_FAILED: the exact wording of Python's unpack error depends on the interpreter version. The model fixes one wording.
- The QWebChannel constructor's init exchange is not modelled: building `QObject`s from the init response and `Object.defineProperty(global, ...)`. `WebChannel.Fresh` starts from given objects. As written, that constructor calls `createProperty` before `createSignal` (static/qwebchannel.js:97-104, 169), so `this[notifySignal]` is still undefined when `.connect` is called on it. Building an object with a notify property would therefore throw, and `initCallback` would never run. This defect is not modelled: objects are given with their notify listeners already connected, which stands for the evidently intended behaviour.
- Promise resolution for method results is not modelled. A method reply callback records nothing.
- `JSON.parse`, NaN and object identity, callbacks that re-enter the channel, and the ordering rules of `for ... in` over integer-like keys are not modelled. Property and signal updates are given as ordered sequences.
- Assigning to a name that is not a property of the object is not modelled, because in JavaScript it creates a plain field. `WebChannel.SetProp` changes nothing for such a name.
- `console.error` is modelled as a counter of errors.
- WebChannel.PropertyUpdate, WebChannel.HandlePropertyUpdate: the contract of `PropertyUpdate` states that the set of objects and the channel's well-formedness are kept. `WebChannel.UpdateIsEchoed` states the effect of a single-property update. `HandlePropertyUpdate` additionally states only that a list of updates all for unknown objects changes nothing. Longer update lists for known objects are not given a closed-form effect.
- SinglePass.OnStateUpdate: the placement of every user is stated only for the two cases `SinglePass.StableWhenHeld` and `SinglePass.FillsInOrder`, plus the example `SinglePass.NewcomerDisplacesPresentUser`. No closed form is given for arbitrary suffix collisions.
- TwoPass.OnStateUpdate: seat-by-seat outcomes of suffix collisions are stated by the example `TwoPass.SuffixCollisionSharesSeat` only.

## Findings

| source | as written | input that shows it | evidently intended | confidence | as-written member | corrected member |
|---|---|---|---|---|---|---|
| desktop_app.py:48 | `song, artist = song_info` unpacks two names, but `get_current_spotify_song` returns a triple (spotify_detector.py:58). The unpack raises, the `except` branch reports the error, and nothing is posted | platform "spotify" while a track plays, e.g. `("s", "a", None)` | read the first two fields, so that Spotify songs are posted like NetEase ones | high; not executed | DesktopApp.CycleAsWritten, DesktopApp.SpotifyNeverPosts | DesktopApp.CycleFixed, DesktopApp.FixedPostsChanges, DesktopApp.FixedSpotifyPosts |
| static/qwebchannel.js:183-192 | `connect` sends ConnectToSignal only when no connection list exists, and `disconnect` leaves an empty list behind after sending DisconnectFromSignal | connect handler f, disconnect f, connect handler g on the same signal | subscribe again whenever the list is empty, so that g receives the signal | medium; not executed | WebChannel.ConnectAsWritten, WebChannel.ReconnectIsNeverSent | WebChannel.Connect, WebChannel.ReconnectIsSent, WebChannel.ConnectKeepsSync |
