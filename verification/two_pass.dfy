/**
 * The macOS room window (`RoomWindow.on_state_update` in
 * pure_desktop_app_mac.py): pass 1 writes back every user found in a seat
 * whose label ends with the user's name; pass 2 gives each user pass 1 did
 * not map, in dict order, the lowest unclaimed seat; the last loop empties
 * every unclaimed seat. Seats here also cache the cover-art URL they last
 * started downloading.
 */
module TwoPass {
  import opened Wrappers
  import opened Text
  import opened Seats

  /** The seat icon as the file spells it: the UTF-8 bytes of a green circle read back as cp1252. */
  const MAC_ICON := "\U{F0}\U{178}\U{178}\U{A2}"
  const PAUSED := "Playback Paused"

  /** Python truthiness of an optional string: present and non-empty. */
  predicate Truthy(s: Option<string>) {
    s.Some? && s.value != ""
  }

  /** The song line of an occupied seat: an empty or missing song reads "Playback Paused". */
  function SongText(song: Option<string>): (r: string)
    ensures Truthy(song) ==> r == song.value
    ensures !Truthy(song) ==> r == PAUSED
  {
    if Truthy(song) then song.value else PAUSED
  }

  /** The art cache after `update_seat`, and the download it starts, if any. */
  datatype ArtChange = ArtChange(current: Option<string>, download: Option<string>)

  /** The cover-art branch of `update_seat`: a new non-empty URL starts a download and
      becomes the cached one; an empty or missing URL resets the cache (`set_default_art`);
      the URL already cached changes nothing. */
  function UpdateArt(current: Option<string>, artUrl: Option<string>): (r: ArtChange)
    ensures r.download.Some? <==> Truthy(artUrl) && artUrl != current
    ensures r.download.Some? ==> r.download == artUrl
    ensures r.current == if Truthy(artUrl) then artUrl else None
  {
    if Truthy(artUrl) && artUrl != current then ArtChange(artUrl, artUrl)
    else if !Truthy(artUrl) then ArtChange(None, None)
    else ArtChange(current, None)
  }

  /** Showing the same URL a second time starts no second download. */
  lemma ArtRepeatIsQuiet(current: Option<string>, artUrl: Option<string>)
    ensures var c := UpdateArt(current, artUrl).current;
      UpdateArt(c, artUrl) == ArtChange(c, None)
  {
  }

  /** `SeatWidget.update_seat`: the updated seat and the download it starts. The icon is the
      same for every platform. */
  function UpdateSeat(seat: Seat, user: string, data: UserData): (Seat, Option<string>) {
    var art := UpdateArt(seat.currentArtUrl, data.artUrl);
    (Seat(true, UserLabel(MAC_ICON, user), SongText(data.song), art.current), art.download)
  }

  /** `SeatWidget.set_empty`, which also forgets the cached art. */
  function SetEmpty(seat: Seat): Seat {
    Seat(false, EMPTY_LABEL, EMPTY_SONG, None)
  }

  /** `seat` displays `user` with `data`, its art cache holding that user's art URL. */
  predicate Shows(seat: Seat, user: string, data: UserData) {
    && seat.occupied
    && seat.userLabel == UserLabel(MAC_ICON, user)
    && seat.songLabel == SongText(data.song)
    && seat.currentArtUrl == (if Truthy(data.artUrl) then data.artUrl else None)
  }

  /** The work done so far: the seats, `occupied_seats`, `user_to_seat_map`, and the art
      downloads started, in order. */
  datatype Progress = Progress(seats: seq<Seat>, claimed: set<nat>, seatOf: map<string, nat>, downloads: seq<string>)

  /** Put `user` into seat `i`. */
  function Put(p: Progress, i: nat, user: string, data: UserData): (r: Progress)
    requires i < |p.seats|
    ensures |r.seats| == |p.seats| && r.claimed == p.claimed + {i} && r.seatOf == p.seatOf[user := i]
    ensures r.seats == p.seats[i := r.seats[i]] && Shows(r.seats[i], user, data)
  {
    var (seat, download) := UpdateSeat(p.seats[i], user, data);
    var downloads := if download.Some? then p.downloads + [download.value] else p.downloads;
    Progress(p.seats[i := seat], p.claimed + {i}, p.seatOf[user := i], downloads)
  }

  /** `r` differs from `p` only in seats that now show `user`, and those are claimed. */
  predicate OnlyShowsNew(p: Progress, r: Progress, user: string, data: UserData) {
    && |r.seats| == |p.seats|
    && p.claimed <= r.claimed
    && (forall i :: 0 <= i < |p.seats| && i !in r.claimed ==> r.seats[i] == p.seats[i])
    && (forall i :: i in r.claimed && (i !in p.claimed || (i < |p.seats| && r.seats[i] != p.seats[i])) ==>
          i < |r.seats| && Shows(r.seats[i], user, data))
  }

  /** One iteration of pass 1: a user found in a seat is written back into it. */
  function Keep(p: Progress, user: string, data: UserData): (r: Progress)
    ensures OnlyShowsNew(p, r, user, data)
  {
    match FindHeldSeat(p.seats, user)
    case Some(i) => Put(p, i, user, data)
    case None => p
  }

  /** One iteration of pass 2: a user pass 1 did not map takes the lowest unclaimed seat, if any. */
  function Fill(p: Progress, user: string, data: UserData): (r: Progress)
    ensures OnlyShowsNew(p, r, user, data)
    ensures forall i :: 0 <= i < |p.seats| && i in p.claimed ==> r.seats[i] == p.seats[i]
    ensures user in r.seatOf || forall i :: 0 <= i < |p.seats| ==> i in r.claimed
  {
    if user in p.seatOf then p
    else match LowestUnclaimed(|p.seats|, p.claimed)
      case Some(i) => Put(p, i, user, data)
      case None => p
  }

  /** A pass-2 step keeps every map entry and adds at most `user`, at the lowest unclaimed seat. */
  lemma FillSeatOf(p: Progress, user: string, data: UserData)
    ensures SeatPost(p, Fill(p, user, data), user)
  {
  }

  /** What a pass-2 step from `q` to `r` for `user` does to `seat_of`, without its definition:
      earlier entries are kept, and the only new one is `user`'s, at a seat newly claimed with
      every lower seat already claimed. */
  ghost predicate SeatPost(q: Progress, r: Progress, user: string) {
    && (forall u :: u in q.seatOf ==> u in r.seatOf && r.seatOf[u] == q.seatOf[u])
    && (forall u :: u in r.seatOf && u !in q.seatOf ==>
          u == user && r.seatOf[u] in r.claimed && r.seatOf[u] !in q.claimed
          && forall i :: 0 <= i < r.seatOf[u] ==> i in q.claimed)
  }

  /** Pass 1 over the room state, in dict order. */
  function KeepAll(p: Progress, room: Room): (r: Progress)
    ensures |r.seats| == |p.seats|
    ensures p.claimed <= r.claimed
    ensures forall i :: 0 <= i < |p.seats| && i !in r.claimed ==> r.seats[i] == p.seats[i]
    ensures forall i :: i in r.claimed && i !in p.claimed ==>
              i < |r.seats| && exists j :: 0 <= j < |room| && Shows(r.seats[i], room[j].0, room[j].1)
    decreases |room|
  {
    if |room| == 0 then p
    else
      var q := KeepAll(p, room[..|room| - 1]);
      var r := Keep(q, room[|room| - 1].0, room[|room| - 1].1);
      ShowsFromPrefix(q, r, p.claimed, room[..|room| - 1], room);
      r
  }

  /** What pass 2 over the users of `room` leaves, starting from `p`: the seat vector keeps its
      length and every seat claimed before; the claimed set only grows; a seat it leaves unclaimed
      is unchanged; a seat it claims shows a user of the room; and a user is left without a seat
      only when every seat is claimed. */
  ghost predicate FilledFrom(p: Progress, r: Progress, room: Room) {
    && |r.seats| == |p.seats|
    && p.claimed <= r.claimed
    && (forall i :: 0 <= i < |p.seats| && (i !in r.claimed || i in p.claimed) ==> r.seats[i] == p.seats[i])
    && (forall i :: i in r.claimed && i !in p.claimed ==>
          i < |r.seats| && exists j :: 0 <= j < |room| && Shows(r.seats[i], room[j].0, room[j].1))
    && (forall j :: 0 <= j < |room| && room[j].0 !in r.seatOf ==>
          forall i :: 0 <= i < |p.seats| ==> i in r.claimed)
  }

  /** Pass 2 over the room state, in dict order. It never touches a seat already claimed. */
  function FillAll(p: Progress, room: Room): (r: Progress)
    ensures FilledFrom(p, r, room)
    decreases |room|
  {
    if |room| == 0 then p
    else
      var q := FillAll(p, room[..|room| - 1]);
      var r := Fill(q, room[|room| - 1].0, room[|room| - 1].1);
      FillMeetsPost(q, room[|room| - 1].0, room[|room| - 1].1);
      FillStep(p, q, r, room);
      r
  }

  /** What a pass-2 step from `q` to `r` for `user` guarantees, without its definition. */
  ghost predicate FillPost(q: Progress, r: Progress, user: string, data: UserData) {
    && OnlyShowsNew(q, r, user, data)
    && (forall i :: 0 <= i < |q.seats| && i in q.claimed ==> r.seats[i] == q.seats[i])
    && (user in r.seatOf || forall i :: 0 <= i < |q.seats| ==> i in r.claimed)
    && (forall u :: u in q.seatOf ==> u in r.seatOf)
  }

  lemma FillMeetsPost(q: Progress, user: string, data: UserData)
    ensures FillPost(q, Fill(q, user, data), user, data)
  {
    FillSeatOf(q, user, data);
  }

  /** One more pass-2 step, for the last user of `room`, keeps `FilledFrom`. */
  lemma FillStep(p: Progress, q: Progress, r: Progress, room: Room)
    requires |room| > 0 && FilledFrom(p, q, room[..|room| - 1])
    requires FillPost(q, r, room[|room| - 1].0, room[|room| - 1].1)
    ensures FilledFrom(p, r, room)
  {
    ShowsFromPrefix(q, r, p.claimed, room[..|room| - 1], room);
    DroppedOnlyWhenFull(|p.seats|, q, r, room[..|room| - 1], room);
  }

  /** A pass-2 step keeps "a user is left without a seat only when all `n` seats are claimed". */
  lemma DroppedOnlyWhenFull(n: nat, q: Progress, r: Progress, init: Room, room: Room)
    requires |q.seats| == n && |room| > 0 && init == room[..|room| - 1]
    requires FillPost(q, r, room[|room| - 1].0, room[|room| - 1].1)
    requires forall j :: 0 <= j < |init| && init[j].0 !in q.seatOf ==> forall i :: 0 <= i < n ==> i in q.claimed
    ensures forall j :: 0 <= j < |room| && room[j].0 !in r.seatOf ==> forall i :: 0 <= i < n ==> i in r.claimed
  {
    forall j, i | 0 <= j < |room| && room[j].0 !in r.seatOf && 0 <= i < n
      ensures i in r.claimed
    {
      if j < |init| {
        assert init[j] == room[j];
      }
    }
  }

  /** The step both passes share: a seat claimed after the step for the last user of `room`,
      and not before the pass, shows some user of the room. */
  lemma ShowsFromPrefix(q: Progress, r: Progress, start: set<nat>, init: Room, room: Room)
    requires |room| > 0 && init == room[..|room| - 1] && OnlyShowsNew(q, r, room[|room| - 1].0, room[|room| - 1].1)
    requires forall i :: i in q.claimed && i !in start ==>
               i < |q.seats| && exists j :: 0 <= j < |init| && Shows(q.seats[i], init[j].0, init[j].1)
    ensures forall i :: i in r.claimed && i !in start ==>
              i < |r.seats| && exists j :: 0 <= j < |room| && Shows(r.seats[i], room[j].0, room[j].1)
  {
    forall i | i in r.claimed && i !in start
      ensures exists j :: 0 <= j < |room| && Shows(r.seats[i], room[j].0, room[j].1)
    {
      if i in q.claimed && r.seats[i] == q.seats[i] {
        var j :| 0 <= j < |init| && Shows(q.seats[i], init[j].0, init[j].1);
        assert init[j] == room[j];
      } else {
        assert Shows(r.seats[i], room[|room| - 1].0, room[|room| - 1].1);
      }
    }
  }

  /** The final loop: every seat not claimed in either pass is emptied, which on this window
      also forgets the seat's cached art URL. */
  function ClearUnclaimed(p: Progress): (r: seq<Seat>)
    ensures |r| == |p.seats|
    ensures forall i :: 0 <= i < |r| ==> r[i] == if i in p.claimed then p.seats[i] else SetEmpty(p.seats[i])
  {
    seq(|p.seats|, i requires 0 <= i < |p.seats| => if i in p.claimed then p.seats[i] else SetEmpty(p.seats[i]))
  }

  /** Pass 1 from a fresh update. */
  function Pass1(seats: seq<Seat>, room: Room): Progress {
    KeepAll(Progress(seats, {}, map[], []), room)
  }

  /** The outcome of one update: the seats, `user_to_seat_map`, and the art downloads started. */
  datatype Update = Update(seats: seq<Seat>, seatOf: map<string, nat>, downloads: seq<string>)

  /** `RoomWindow.on_state_update` of the macOS window. */
  function OnStateUpdate(seats: seq<Seat>, room: Room): (r: Update)
    ensures |r.seats| == |seats|
    ensures forall i :: 0 <= i < |r.seats| && !r.seats[i].occupied ==> r.seats[i] == SetEmpty(seats[i])
    ensures forall i :: 0 <= i < |r.seats| && r.seats[i].occupied ==>
              exists j :: 0 <= j < |room| && Shows(r.seats[i], room[j].0, room[j].1)
    // a seat claimed in pass 1 is not given to anybody in pass 2
    ensures forall i :: i in Pass1(seats, room).claimed && i < |seats| ==> r.seats[i] == Pass1(seats, room).seats[i]
    // a user is left out of `user_to_seat_map` only when every seat is taken
    ensures forall j :: 0 <= j < |room| && room[j].0 !in r.seatOf ==>
              forall i :: 0 <= i < |r.seats| ==> r.seats[i].occupied
  {
    var p1 := Pass1(seats, room);
    var p2 := FillAll(p1, room);
    var out := ClearUnclaimed(p2);
    PassesHold(seats, room);
    ClearedShows(seats, room, p1, p2, out);
    ClearedRest(seats, room, p1, p2, out);
    Update(out, p2.seatOf, p2.downloads)
  }

  /** What the two passes leave before the final loop: pass 1 only claims seats that now show a
      present user and leaves the others as they were, and pass 2 keeps `FilledFrom`. */
  ghost predicate Passed(seats: seq<Seat>, room: Room, p1: Progress, p2: Progress) {
    && |p1.seats| == |seats|
    && (forall i :: 0 <= i < |seats| && i !in p1.claimed ==> p1.seats[i] == seats[i])
    && (forall i :: i in p1.claimed ==>
          i < |seats| && exists j :: 0 <= j < |room| && Shows(p1.seats[i], room[j].0, room[j].1))
    && FilledFrom(p1, p2, room)
  }

  lemma PassesHold(seats: seq<Seat>, room: Room)
    ensures Passed(seats, room, Pass1(seats, room), FillAll(Pass1(seats, room), room))
  {
  }

  lemma ClearedShows(seats: seq<Seat>, room: Room, p1: Progress, p2: Progress, out: seq<Seat>)
    requires Passed(seats, room, p1, p2) && out == ClearUnclaimed(p2)
    ensures forall i :: 0 <= i < |out| && out[i].occupied ==>
              exists j :: 0 <= j < |room| && Shows(out[i], room[j].0, room[j].1)
  {
    forall i | 0 <= i < |out| && out[i].occupied
      ensures exists j :: 0 <= j < |room| && Shows(out[i], room[j].0, room[j].1)
    {
      assert i in p2.claimed;
      if i in p1.claimed {
        assert p2.seats[i] == p1.seats[i];
      }
    }
  }

  lemma ClearedRest(seats: seq<Seat>, room: Room, p1: Progress, p2: Progress, out: seq<Seat>)
    requires Passed(seats, room, p1, p2) && out == ClearUnclaimed(p2)
    ensures forall i :: 0 <= i < |out| && !out[i].occupied ==> out[i] == SetEmpty(seats[i])
    ensures forall i :: i in p1.claimed && i < |seats| ==> out[i] == p1.seats[i]
    ensures forall j :: 0 <= j < |room| && room[j].0 !in p2.seatOf ==>
              forall i :: 0 <= i < |out| ==> out[i].occupied
  {
    ClearedEmpty(seats, room, p1, p2, out);
    ClearedFull(seats, room, p1, p2, out);
  }

  /** A seat left unoccupied was claimed by neither pass, so it is the original seat emptied. */
  lemma ClearedEmpty(seats: seq<Seat>, room: Room, p1: Progress, p2: Progress, out: seq<Seat>)
    requires Passed(seats, room, p1, p2) && out == ClearUnclaimed(p2)
    ensures forall i :: 0 <= i < |out| && !out[i].occupied ==> out[i] == SetEmpty(seats[i])
  {
    forall i | 0 <= i < |out| && !out[i].occupied
      ensures out[i] == SetEmpty(seats[i])
    {
      if i !in p2.claimed {
        assert p2.seats[i] == p1.seats[i] == seats[i];
      }
    }
  }

  /** When a user is left without a seat, every seat is claimed and so shows somebody. */
  lemma ClearedFull(seats: seq<Seat>, room: Room, p1: Progress, p2: Progress, out: seq<Seat>)
    requires Passed(seats, room, p1, p2) && out == ClearUnclaimed(p2)
    ensures forall j :: 0 <= j < |room| && room[j].0 !in p2.seatOf ==>
              forall i :: 0 <= i < |out| ==> out[i].occupied
  {
    forall j, i | 0 <= j < |room| && room[j].0 !in p2.seatOf && 0 <= i < |out|
      ensures out[i].occupied
    {
      assert i in p2.claimed;
      if i in p1.claimed {
        assert p2.seats[i] == p1.seats[i];
      }
    }
  }

  // ---------------------------------------------------------------------------
  // Returning users keep their seats

  /** No present user's name is a suffix of another present user's label. */
  predicate SuffixFree(room: Room) {
    forall j, k :: 0 <= j < |room| && 0 <= k < |room| && j != k ==>
      !EndsWith(UserLabel(MAC_ICON, room[k].0), room[j].0)
  }

  /** No seat's label ends with the names of two different present users. */
  predicate Unambiguous(seats: seq<Seat>, room: Room) {
    forall i, j, k ::
      (0 <= i < |seats| && 0 <= j < |room| && 0 <= k < |room| && Holds(seats[i], room[j].0) && Holds(seats[i], room[k].0))
      ==> j == k
  }

  /** `found[j]` is the seat user `j` of `room` finds in the original `seats`. */
  ghost predicate FoundSeats(seats: seq<Seat>, room: Room, found: seq<Option<nat>>) {
    |found| == |room| && forall j :: 0 <= j < |room| ==> found[j] == FindHeldSeat(seats, room[j].0)
  }

  /** Two different users that find a seat find different seats and have different names. */
  ghost predicate Apart(room: Room, found: seq<Option<nat>>)
    requires |found| == |room|
  {
    forall j, k :: 0 <= j < |found| && 0 <= k < |found| && j != k && found[j].Some? && found[k].Some? ==>
      found[j].value != found[k].value && room[j].0 != room[k].0
  }

  lemma UnambiguousApart(seats: seq<Seat>, room: Room, found: seq<Option<nat>>)
    requires Unambiguous(seats, room) && FoundSeats(seats, room, found)
    ensures Apart(room, found)
  {
    forall j, k | 0 <= j < |found| && 0 <= k < |found| && j != k && found[j].Some? && found[k].Some?
      ensures found[j].value != found[k].value && room[j].0 != room[k].0
    {
      assert Holds(seats[found[j].value], room[j].0);
    }
  }

  /** Seat `i` is the one some of the first `k` users finds. */
  ghost predicate FoundBefore(found: seq<Option<nat>>, k: nat, i: nat)
    requires k <= |found|
    decreases k
  {
    k > 0 && (found[k - 1] == Some(i) || FoundBefore(found, k - 1, i))
  }

  /** The user behind `FoundBefore`. */
  lemma {:induction false} FoundBeforeWitness(found: seq<Option<nat>>, k: nat, i: nat) returns (j: nat)
    requires k <= |found| && FoundBefore(found, k, i)
    ensures j < k && found[j] == Some(i)
    decreases k
  {
    if found[k - 1] == Some(i) {
      j := k - 1;
    } else {
      j := FoundBeforeWitness(found, k - 1, i);
    }
  }

  /** What pass 1 leaves after `k` users when nobody collides: the claimed seats are those found
      in the original seats by the first `k` users, each such user has been written back into the
      seat it was found in and mapped to it, and nothing else changed. */
  ghost predicate KeepProgress(seats: seq<Seat>, room: Room, found: seq<Option<nat>>, k: nat, p: Progress)
    requires k <= |room| == |found|
  {
    && |p.seats| == |seats|
    && (forall i :: i in p.claimed ==> FoundBefore(found, k, i))
    && (forall j :: 0 <= j < k && found[j].Some? ==>
          var h := found[j].value;
          h < |seats| && h in p.claimed && p.seats[h] == UpdateSeat(seats[h], room[j].0, room[j].1).0
          && room[j].0 in p.seatOf && p.seatOf[room[j].0] == h)
    && (forall i :: 0 <= i < |seats| && i !in p.claimed ==> p.seats[i] == seats[i])
  }

  lemma KeepAllPrefix(p: Progress, room: Room, k: nat)
    requires 0 < k <= |room|
    ensures KeepAll(p, room[..k]) == Keep(KeepAll(p, room[..k - 1]), room[k - 1].0, room[k - 1].1)
  {
    assert room[..k][..k - 1] == room[..k - 1];
  }

  /** Seats written back earlier in pass 1 do not hold the next user, so it finds the same
      seat as in the original vector. */
  lemma KeepFindsOriginal(seats: seq<Seat>, room: Room, found: seq<Option<nat>>, k: nat, q: Progress)
    requires SuffixFree(room) && Unambiguous(seats, room) && FoundSeats(seats, room, found) && k < |room|
    requires KeepProgress(seats, room, found, k, q)
    ensures FindHeldSeat(q.seats, room[k].0) == found[k]
  {
    var user := room[k].0;
    forall i | 0 <= i < |seats|
      ensures Holds(q.seats[i], user) <==> Holds(seats[i], user)
    {
      if i in q.claimed {
        var j := FoundBeforeWitness(found, k, i);
        assert !EndsWith(UserLabel(MAC_ICON, room[j].0), room[k].0);
        assert Holds(seats[i], room[j].0);
      }
    }
    FindHeldSeatAgrees(q.seats, seats, user);
  }

  lemma KeepStep(seats: seq<Seat>, room: Room, found: seq<Option<nat>>, k: nat, q: Progress)
    requires SuffixFree(room) && Unambiguous(seats, room) && FoundSeats(seats, room, found) && k < |room|
    requires Apart(room, found) && KeepProgress(seats, room, found, k, q)
    ensures KeepProgress(seats, room, found, k + 1, Keep(q, room[k].0, room[k].1))
  {
    KeepFindsOriginal(seats, room, found, k, q);
    match found[k]
    case None =>
      assert Keep(q, room[k].0, room[k].1) == q;
    case Some(h) =>
      var r := Put(q, h, room[k].0, room[k].1);
      assert Keep(q, room[k].0, room[k].1) == r;
      assert r.seats == q.seats[h := UpdateSeat(seats[h], room[k].0, room[k].1).0];
      KeepWrittenBack(seats, room, found, k, q, h, r);
  }

  /** Writing the next user back into the seat `h` it found extends `KeepProgress` by one user. */
  lemma KeepWrittenBack(seats: seq<Seat>, room: Room, found: seq<Option<nat>>, k: nat, q: Progress, h: nat, r: Progress)
    requires k < |room| == |found| && Apart(room, found) && KeepProgress(seats, room, found, k, q)
    requires found[k] == Some(h) && h < |seats|
    requires r.claimed == q.claimed + {h} && r.seatOf == q.seatOf[room[k].0 := h]
    requires r.seats == q.seats[h := UpdateSeat(seats[h], room[k].0, room[k].1).0]
    ensures KeepProgress(seats, room, found, k + 1, r)
  {
    if h in q.claimed {
      var j := FoundBeforeWitness(found, k, h);
      assert false;
    }
    forall j | 0 <= j < k + 1 && found[j].Some?
      ensures var h' := found[j].value;
        h' < |seats| && h' in r.claimed && r.seats[h'] == UpdateSeat(seats[h'], room[j].0, room[j].1).0
        && room[j].0 in r.seatOf && r.seatOf[room[j].0] == h'
    {
      if j < k {
        assert found[j].value != h && room[j].0 != room[k].0;
      }
    }
  }

  lemma {:induction false} KeepHeld(seats: seq<Seat>, room: Room, found: seq<Option<nat>>, k: nat)
    requires SuffixFree(room) && Unambiguous(seats, room) && FoundSeats(seats, room, found) && k <= |room|
    requires Apart(room, found)
    ensures KeepProgress(seats, room, found, k, KeepAll(Progress(seats, {}, map[], []), room[..k]))
  {
    if k > 0 {
      KeepHeld(seats, room, found, k - 1);
      KeepAllPrefix(Progress(seats, {}, map[], []), room, k);
      KeepStep(seats, room, found, k - 1, KeepAll(Progress(seats, {}, map[], []), room[..k - 1]));
    }
  }

  /** When no name is a suffix of another present user's label and no seat matches two present
      users, every user found in a seat is shown in that very seat after the update and mapped to it. */
  lemma ReturningUsersKeepSeats(seats: seq<Seat>, room: Room)
    requires SuffixFree(room) && Unambiguous(seats, room)
    ensures var r := OnStateUpdate(seats, room);
      forall j, h :: 0 <= j < |room| && FindHeldSeat(seats, room[j].0) == Some(h) ==>
        Shows(r.seats[h], room[j].0, room[j].1) && room[j].0 in r.seatOf && r.seatOf[room[j].0] == h
  {
    var found := seq(|room|, j requires 0 <= j < |room| => FindHeldSeat(seats, room[j].0));
    UnambiguousApart(seats, room, found);
    KeepHeld(seats, room, found, |room|);
    assert room[..|room|] == room;
    var p1 := Pass1(seats, room);
    assert KeepProgress(seats, room, found, |room|, p1);
    FillAllSeatOf(p1, room);
    var r := OnStateUpdate(seats, room);
    assert r.seatOf == FillAll(p1, room).seatOf;
    forall j, h | 0 <= j < |room| && FindHeldSeat(seats, room[j].0) == Some(h)
      ensures Shows(r.seats[h], room[j].0, room[j].1) && room[j].0 in r.seatOf && r.seatOf[room[j].0] == h
    {
      assert found[j] == Some(h);
      assert h in p1.claimed;
      assert r.seats[h] == p1.seats[h];
    }
  }

  // ---------------------------------------------------------------------------
  // Newcomers fill free seats in dict order

  /** What pass 2 does to `user_to_seat_map`, from `p` over the users of `room`: every entry
      it finds is kept, and a user it adds comes from the room and gets a seat that was
      unclaimed before the pass, with every lower seat claimed by the end. */
  ghost predicate SeatedFrom(p: Progress, r: Progress, room: Room) {
    && p.claimed <= r.claimed
    && (forall u :: u in p.seatOf ==> u in r.seatOf && r.seatOf[u] == p.seatOf[u])
    && (forall u :: u in r.seatOf && u !in p.seatOf ==>
          (exists j :: 0 <= j < |room| && room[j].0 == u)
          && r.seatOf[u] in r.claimed && r.seatOf[u] !in p.claimed
          && forall i :: 0 <= i < r.seatOf[u] ==> i in r.claimed)
  }

  lemma {:induction false} FillAllSeatOf(p: Progress, room: Room)
    ensures SeatedFrom(p, FillAll(p, room), room)
    decreases |room|
  {
    if |room| > 0 {
      var q := FillAll(p, room[..|room| - 1]);
      FillAllSeatOf(p, room[..|room| - 1]);
      FillSeatOf(q, room[|room| - 1].0, room[|room| - 1].1);
      FillMeetsPost(q, room[|room| - 1].0, room[|room| - 1].1);
      SeatedStep(p, q, Fill(q, room[|room| - 1].0, room[|room| - 1].1), room);
    }
  }

  /** One more pass-2 step, for the last user of `room`, keeps `SeatedFrom`. */
  lemma SeatedStep(p: Progress, q: Progress, r: Progress, room: Room)
    requires |room| > 0 && SeatedFrom(p, q, room[..|room| - 1])
    requires SeatPost(q, r, room[|room| - 1].0)
    requires q.claimed <= r.claimed
    ensures SeatedFrom(p, r, room)
  {
    forall u | u in r.seatOf && u !in p.seatOf
      ensures exists j :: 0 <= j < |room| && room[j].0 == u
    {
      if u in q.seatOf {
        var j :| 0 <= j < |room| - 1 && room[..|room| - 1][j].0 == u;
        assert room[j] == room[..|room| - 1][j];
      } else {
        assert room[|room| - 1].0 == u;
      }
    }
  }

  /** A seat taken before the step by a pass-2 newcomer is below the seat the step gives the
      next newcomer. */
  lemma EarlierNewcomerLower(p: Progress, q: Progress, r: Progress, uj: string, uk: string)
    requires uj in q.seatOf && uj !in p.seatOf && q.seatOf[uj] in q.claimed
    requires forall i :: 0 <= i < q.seatOf[uj] ==> i in q.claimed
    requires uj in r.seatOf && r.seatOf[uj] == q.seatOf[uj]
    requires uk in r.seatOf && r.seatOf[uk] !in q.claimed
    ensures r.seatOf[uj] < r.seatOf[uk]
  {
  }

  /** Of two users of `room` that pass 2 seats, starting from `p`, the one earlier in dict
      order gets the lower seat. */
  ghost predicate OrderedFrom(p: Progress, r: Progress, room: Room) {
    forall j, k ::
      (0 <= j < k < |room| && room[j].0 !in p.seatOf && room[k].0 !in p.seatOf
       && room[j].0 in r.seatOf && room[k].0 in r.seatOf)
      ==> r.seatOf[room[j].0] < r.seatOf[room[k].0]
  }

  /** Pass 2 seats the users it places in increasing seat order, following dict order. */
  lemma {:induction false} NewcomersInDictOrder(p: Progress, room: Room)
    requires DistinctUsers(room)
    ensures OrderedFrom(p, FillAll(p, room), room)
    decreases |room|
  {
    if |room| > 0 {
      var init := room[..|room| - 1];
      assert forall j :: 0 <= j < |init| ==> init[j] == room[j];
      NewcomersInDictOrder(p, init);
      FillAllSeatOf(p, init);
      OrderStep(p, FillAll(p, init), room);
    }
  }

  /** One more pass-2 step, for the last user of `room`, keeps `OrderedFrom`. */
  lemma OrderStep(p: Progress, q: Progress, room: Room)
    requires |room| > 0 && DistinctUsers(room)
    requires SeatedFrom(p, q, room[..|room| - 1]) && OrderedFrom(p, q, room[..|room| - 1])
    ensures OrderedFrom(p, Fill(q, room[|room| - 1].0, room[|room| - 1].1), room)
  {
    var init, last := room[..|room| - 1], room[|room| - 1].0;
    var r := Fill(q, last, room[|room| - 1].1);
    FillSeatOf(q, last, room[|room| - 1].1);
    forall j, k | 0 <= j < k < |room| && room[j].0 !in p.seatOf && room[k].0 !in p.seatOf
      && room[j].0 in r.seatOf && room[k].0 in r.seatOf
      ensures r.seatOf[room[j].0] < r.seatOf[room[k].0]
    {
      var uj, uk := room[j].0, room[k].0;
      assert uj != last && room[j] == init[j];
      if k == |room| - 1 {
        EarlierNewcomerLower(p, q, r, uj, uk);
      } else {
        assert uk != last && room[k] == init[k];
      }
    }
  }

  // ---------------------------------------------------------------------------
  // Examples

  /** A suffix collision: seat 0 shows "ab"; "ab" and "b" are both present. Pass 1 maps both
      to seat 0, "b" overwrites it, and "ab" is shown nowhere. */
  lemma SuffixCollisionSharesSeat(seats: seq<Seat>, d: UserData)
    requires |seats| >= 1 && seats[0] == UpdateSeat(NewSeat(), "ab", d).0
    requires forall i :: 1 <= i < |seats| ==> !seats[i].occupied
    ensures var r := OnStateUpdate(seats, [("ab", d), ("b", d)]);
      && "ab" in r.seatOf && r.seatOf["ab"] == 0 && "b" in r.seatOf && r.seatOf["b"] == 0
      && Shows(r.seats[0], "b", d)
      && forall i :: 0 <= i < |r.seats| ==> r.seats[i].userLabel != UserLabel(MAC_ICON, "ab")
  {
    var room := [("ab", d), ("b", d)];
    var p2 := CollisionPass1(seats, d);
    FillAllMapped(p2, room);
    var r := OnStateUpdate(seats, room);
    assert r == Update(ClearUnclaimed(p2), p2.seatOf, p2.downloads);
    var ab := UserLabel(MAC_ICON, "ab");
    assert |ab| == 7 && |UserLabel(MAC_ICON, "b")| == 6 && |EMPTY_LABEL| == 10;
    forall i | 0 <= i < |r.seats|
      ensures r.seats[i].userLabel != ab
    {
      if i != 0 {
        assert r.seats[i] == SetEmpty(p2.seats[i]);
      }
    }
  }

  /** Pass 1 of the collision example, step by step. */
  lemma CollisionPass1(seats: seq<Seat>, d: UserData) returns (p2: Progress)
    requires |seats| >= 1 && seats[0] == UpdateSeat(NewSeat(), "ab", d).0
    ensures p2 == Pass1(seats, [("ab", d), ("b", d)])
    ensures p2.seatOf == map["ab" := 0, "b" := 0] && p2.claimed == {0}
    ensures |p2.seats| == |seats| && Shows(p2.seats[0], "b", d)
  {
    var room := [("ab", d), ("b", d)];
    var p0 := Progress(seats, {}, map[], []);
    assert UserLabel(MAC_ICON, "ab")[5..] == "ab";
    assert FindHeldSeat(seats, "ab") == Some(0);
    var p1 := Put(p0, 0, "ab", d);
    assert Keep(p0, "ab", d) == p1;
    assert UserLabel(MAC_ICON, "ab")[6..] == "b";
    assert Holds(p1.seats[0], "b");
    assert FindHeldSeat(p1.seats, "b") == Some(0);
    p2 := Put(p1, 0, "b", d);
    assert Keep(p1, "b", d) == p2;
    KeepAllTwo(p0, room);
  }

  /** Pass 2 changes nothing when every user is already mapped. */
  lemma {:induction false} FillAllMapped(p: Progress, room: Room)
    requires forall j :: 0 <= j < |room| ==> room[j].0 in p.seatOf
    ensures FillAll(p, room) == p
    decreases |room|
  {
    if |room| > 0 {
      FillAllMapped(p, room[..|room| - 1]);
    }
  }

  /** The input on which the single pass moves "b": seat 0 shows "b", "a" arrives first.
      Here "b" keeps seat 0 and "a" takes seat 1. */
  lemma ReturningUserNotDisplaced(seats: seq<Seat>, d: UserData)
    requires |seats| >= 2 && seats[0] == UpdateSeat(NewSeat(), "b", d).0
    requires forall i :: 1 <= i < |seats| ==> !seats[i].occupied
    ensures var r := OnStateUpdate(seats, [("a", d), ("b", d)]);
      Shows(r.seats[0], "b", d) && Shows(r.seats[1], "a", d)
  {
    var room := [("a", d), ("b", d)];
    var p2 := DisplacedPasses(seats, d);
    var r := OnStateUpdate(seats, room);
    assert r == Update(ClearUnclaimed(p2), p2.seatOf, p2.downloads);
  }

  /** Both passes of the contrast example, step by step. */
  lemma DisplacedPasses(seats: seq<Seat>, d: UserData) returns (p2: Progress)
    requires |seats| >= 2 && seats[0] == UpdateSeat(NewSeat(), "b", d).0
    requires forall i :: 1 <= i < |seats| ==> !seats[i].occupied
    ensures p2 == FillAll(Pass1(seats, [("a", d), ("b", d)]), [("a", d), ("b", d)])
    ensures |p2.seats| == |seats| && p2.claimed == {0, 1}
    ensures Shows(p2.seats[0], "b", d) && Shows(p2.seats[1], "a", d)
  {
    var room := [("a", d), ("b", d)];
    var p1 := DisplacedPass1(seats, d);
    FillAllTwo(p1, room);
    p2 := DisplacedPass2(p1, d);
  }

  /** Pass 2 of the contrast example: "a" takes seat 1, "b" is already mapped. */
  lemma DisplacedPass2(p1: Progress, d: UserData) returns (p2: Progress)
    requires |p1.seats| >= 2 && p1.claimed == {0} && p1.seatOf == map["b" := 0] && Shows(p1.seats[0], "b", d)
    ensures p2 == Fill(Fill(p1, "a", d), "b", d)
    ensures |p2.seats| == |p1.seats| && p2.claimed == {0, 1}
    ensures Shows(p2.seats[0], "b", d) && Shows(p2.seats[1], "a", d)
  {
    assert p1.claimed == Below(1);
    LowestUnclaimedOfBelow(|p1.seats|, 1);
    p2 := Put(p1, 1, "a", d);
    assert Fill(p1, "a", d) == p2;
  }

  lemma DisplacedPass1(seats: seq<Seat>, d: UserData) returns (p1: Progress)
    requires |seats| >= 2 && seats[0] == UpdateSeat(NewSeat(), "b", d).0
    requires forall i :: 1 <= i < |seats| ==> !seats[i].occupied
    ensures p1 == Pass1(seats, [("a", d), ("b", d)])
    ensures |p1.seats| == |seats| && p1.claimed == {0} && p1.seatOf == map["b" := 0]
    ensures Shows(p1.seats[0], "b", d) && p1.seats[1] == seats[1]
  {
    var room := [("a", d), ("b", d)];
    var p0 := Progress(seats, {}, map[], []);
    DisplacedFinds(seats, d);
    assert Keep(p0, "a", d) == p0;
    p1 := Put(p0, 0, "b", d);
    assert Keep(p0, "b", d) == p1;
    KeepAllTwo(p0, room);
  }

  /** In the contrast example "a" finds no seat and "b" finds seat 0. */
  lemma DisplacedFinds(seats: seq<Seat>, d: UserData)
    requires |seats| >= 2 && seats[0] == UpdateSeat(NewSeat(), "b", d).0
    requires forall i :: 1 <= i < |seats| ==> !seats[i].occupied
    ensures FindHeldSeat(seats, "a") == None && FindHeldSeat(seats, "b") == Some(0)
  {
    assert UserLabel(MAC_ICON, "a")[5..] == "a";
    assert !Holds(seats[0], "a");
    assert UserLabel(MAC_ICON, "b")[5..] == "b";
  }

  lemma KeepAllTwo(p: Progress, room: Room)
    requires |room| == 2
    ensures KeepAll(p, room) == Keep(Keep(p, room[0].0, room[0].1), room[1].0, room[1].1)
  {
    var init := room[..1];
    assert init[..0] == [] && init[0] == room[0];
    assert KeepAll(p, init) == Keep(KeepAll(p, []), room[0].0, room[0].1);
  }

  lemma FillAllTwo(p: Progress, room: Room)
    requires |room| == 2
    ensures FillAll(p, room) == Fill(Fill(p, room[0].0, room[0].1), room[1].0, room[1].1)
  {
    var init := room[..1];
    assert init[..0] == [] && init[0] == room[0];
    assert FillAll(p, init) == Fill(FillAll(p, []), room[0].0, room[0].1);
  }
}
