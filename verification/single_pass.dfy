/**
 * The Windows room window (`RoomWindow.on_state_update` in
 * pure_desktop_app.py): one pass over the room state in dict order. A user
 * whose name ends some occupied seat's label is written back into the first
 * such seat; any other user takes the lowest index not yet claimed in this
 * pass, whatever that seat currently shows. Seats left unclaimed are emptied.
 */
module SinglePass {
  import opened Wrappers
  import opened Text
  import opened Seats

  const SPOTIFY_ICON := "\U{1F7E2}"
  const NOTE_ICON := "\U{1F3B5}"

  /** The seat icon: green for Spotify, a note for anything else (including a missing platform). */
  function Icon(platform: Option<string>): (r: string)
    ensures r == SPOTIFY_ICON <==> platform == Some("spotify")
    ensures r == NOTE_ICON <==> platform != Some("spotify")
  {
    if platform == Some("spotify") then SPOTIFY_ICON else NOTE_ICON
  }

  function LabelFor(user: string, data: UserData): string {
    UserLabel(Icon(data.platform), user)
  }

  /** The song line of an occupied seat. A missing song is shown as empty text. */
  function SongText(song: Option<string>): string {
    song.GetOr("")
  }

  /** `SeatWidget.update_seat`. */
  function UpdateSeat(seat: Seat, user: string, data: UserData): Seat {
    seat.(occupied := true, userLabel := LabelFor(user, data), songLabel := SongText(data.song))
  }

  /** `SeatWidget.set_empty`. */
  function SetEmpty(seat: Seat): Seat {
    seat.(occupied := false, userLabel := EMPTY_LABEL, songLabel := EMPTY_SONG)
  }

  /** `seat` displays `user` with `data`, as `update_seat` leaves it. */
  predicate Shows(seat: Seat, user: string, data: UserData) {
    seat.occupied && seat.userLabel == LabelFor(user, data) && seat.songLabel == SongText(data.song)
  }

  /** A label written by this window names exactly one user and one kind of platform. */
  lemma LabelDetermines(u: string, d: UserData, u': string, d': UserData)
    requires LabelFor(u, d) == LabelFor(u', d')
    ensures u == u'
    ensures d.platform == Some("spotify") <==> d'.platform == Some("spotify")
  {
    var l, l' := LabelFor(u, d), LabelFor(u', d');
    assert l[0] == Icon(d.platform)[0] && l'[0] == Icon(d'.platform)[0];
    assert u == l[2..] && u' == l'[2..];
  }

  /** The work done so far in one update: the seats and the indices `occupied_seats` holds. */
  datatype Progress = Progress(seats: seq<Seat>, claimed: set<nat>)

  /** One iteration of the loop over `room_state.items()`. */
  function Place(p: Progress, user: string, data: UserData): (r: Progress)
    ensures PlacePost(p, r, user, data)
  {
    match FindHeldSeat(p.seats, user)
    case Some(i) => Claim(p, i, user, data)
    case None =>
      match LowestUnclaimed(|p.seats|, p.claimed)
      case Some(i) => Claim(p, i, user, data)
      case None => p
  }

  /** Write `user` into seat `i` and add `i` to `occupied_seats`. */
  function Claim(p: Progress, i: nat, user: string, data: UserData): (r: Progress)
    requires i < |p.seats|
    ensures PlacePost(p, r, user, data)
  {
    var r := Progress(p.seats[i := UpdateSeat(p.seats[i], user, data)], p.claimed + {i});
    assert |p.claimed + {i}| <= |p.claimed| + 1;
    r
  }

  /** The whole loop over the room state, in dict order. */
  function Fold(p: Progress, room: Room): (r: Progress)
    ensures Folded(p, r, room)
    decreases |room|
  {
    if |room| == 0 then p
    else
      var q := Fold(p, room[..|room| - 1]);
      var r := Place(q, room[|room| - 1].0, room[|room| - 1].1);
      FoldStep(p, q, r, room);
      r
  }

  /** What the loop over the users of `room` leaves, starting from `p`: the seat vector keeps its
      length; the claimed set only grows, by seats in range and at most one per user; a seat it
      leaves unclaimed is unchanged; and a seat it claims shows a user of the room. */
  ghost predicate Folded(p: Progress, r: Progress, room: Room) {
    && |r.seats| == |p.seats|
    && p.claimed <= r.claimed
    && (forall i :: i in r.claimed && i !in p.claimed ==> i < |p.seats|)
    && |r.claimed| <= |p.claimed| + |room|
    && (forall i :: 0 <= i < |p.seats| && i !in r.claimed ==> r.seats[i] == p.seats[i])
    && (forall i :: i in r.claimed && i !in p.claimed ==>
          exists j :: 0 <= j < |room| && Shows(r.seats[i], room[j].0, room[j].1))
  }

  /** What one iteration from `q` to `r` for `user` guarantees, without its definition: at most
      one seat is claimed, in range, and a seat that is new or changed shows `user`. */
  ghost predicate PlacePost(q: Progress, r: Progress, user: string, data: UserData) {
    && |r.seats| == |q.seats|
    && q.claimed <= r.claimed
    && (forall i :: i in r.claimed && i !in q.claimed ==> i < |q.seats|)
    && |r.claimed| <= |q.claimed| + 1
    && (forall i :: 0 <= i < |q.seats| && i !in r.claimed ==> r.seats[i] == q.seats[i])
    && (forall i :: i in r.claimed && (i !in q.claimed || (i < |q.seats| && r.seats[i] != q.seats[i])) ==>
          i < |r.seats| && Shows(r.seats[i], user, data))
  }

  /** One more iteration, for the last user of `room`, keeps `Folded`. */
  lemma FoldStep(p: Progress, q: Progress, r: Progress, room: Room)
    requires |room| > 0 && Folded(p, q, room[..|room| - 1])
    requires PlacePost(q, r, room[|room| - 1].0, room[|room| - 1].1)
    ensures Folded(p, r, room)
  {
    forall i | i in r.claimed && i !in p.claimed
      ensures exists j :: 0 <= j < |room| && Shows(r.seats[i], room[j].0, room[j].1)
    {
      if i in q.claimed && (i >= |q.seats| || r.seats[i] == q.seats[i]) {
        var j :| 0 <= j < |room| - 1 && Shows(q.seats[i], room[..|room| - 1][j].0, room[..|room| - 1][j].1);
        assert room[..|room| - 1][j] == room[j];
      } else {
        assert Shows(r.seats[i], room[|room| - 1].0, room[|room| - 1].1);
      }
    }
  }

  /** The final loop: every seat not claimed in this update is emptied. */
  function ClearUnclaimed(p: Progress): (r: seq<Seat>)
    ensures |r| == |p.seats|
    ensures forall i :: 0 <= i < |r| ==> r[i] == if i in p.claimed then p.seats[i] else SetEmpty(p.seats[i])
  {
    seq(|p.seats|, i requires 0 <= i < |p.seats| => if i in p.claimed then p.seats[i] else SetEmpty(p.seats[i]))
  }

  /** `RoomWindow.on_state_update`: the seats after one room-state update. It never fails:
      users for whom no seat is left are simply not shown. */
  function OnStateUpdate(seats: seq<Seat>, room: Room): (r: seq<Seat>)
    ensures |r| == |seats|
    ensures forall i :: 0 <= i < |r| && !r[i].occupied ==> r[i] == SetEmpty(seats[i])
    ensures forall i :: 0 <= i < |r| && r[i].occupied ==>
              exists j :: 0 <= j < |room| && Shows(r[i], room[j].0, room[j].1)
    ensures |OccupiedSeats(r)| <= |room|
  {
    var p := Fold(Progress(seats, {}), room);
    var r := ClearUnclaimed(p);
    Cleared(seats, room, p, r);
    r
  }

  /** Clearing the seats a full pass left unclaimed leaves only seats that show a present user,
      and no more of them than there are users. */
  lemma Cleared(seats: seq<Seat>, room: Room, p: Progress, r: seq<Seat>)
    requires Folded(Progress(seats, {}), p, room) && r == ClearUnclaimed(p)
    ensures |r| == |seats|
    ensures forall i :: 0 <= i < |r| && !r[i].occupied ==> r[i] == SetEmpty(seats[i])
    ensures forall i :: 0 <= i < |r| && r[i].occupied ==>
              exists j :: 0 <= j < |room| && Shows(r[i], room[j].0, room[j].1)
    ensures |OccupiedSeats(r)| <= |room|
  {
    assert OccupiedSeats(r) <= p.claimed;
    SubsetSize(OccupiedSeats(r), p.claimed);
  }

  // ---------------------------------------------------------------------------
  // Stability when nobody collides

  /** No present user's name is a suffix of the label this window writes for another present user. */
  predicate SuffixFree(room: Room) {
    forall j, k :: 0 <= j < |room| && 0 <= k < |room| && j != k ==>
      !EndsWith(LabelFor(room[k].0, room[k].1), room[j].0)
  }

  /** The seats claimed by the first `k` users, when each holds its own seat. */
  function HeldSet(pos: seq<nat>, k: nat): set<nat>
    requires k <= |pos|
  {
    if k == 0 then {} else HeldSet(pos, k - 1) + {pos[k - 1]}
  }

  /** Every seat of `HeldSet` is the seat of one of the first `k` users. */
  lemma {:induction false} HeldSetWitness(pos: seq<nat>, k: nat, i: nat) returns (j: nat)
    requires k <= |pos| && i in HeldSet(pos, k)
    ensures j < k && pos[j] == i
  {
    if pos[k - 1] == i {
      j := k - 1;
    } else {
      j := HeldSetWitness(pos, k - 1, i);
    }
  }

  /** The seat of each of the first `k` users is in `HeldSet`. */
  lemma {:induction false} HeldSetIncludes(pos: seq<nat>, k: nat, j: nat)
    requires j < k <= |pos|
    ensures pos[j] in HeldSet(pos, k)
  {
    if j < k - 1 {
      HeldSetIncludes(pos, k - 1, j);
    }
  }

  /** A seat none of the first `k` users holds is not in `HeldSet`. */
  lemma {:induction false} HeldSetExcludes(pos: seq<nat>, k: nat, i: nat)
    requires k <= |pos| && forall j :: 0 <= j < k ==> pos[j] != i
    ensures i !in HeldSet(pos, k)
  {
    if k > 0 {
      HeldSetExcludes(pos, k - 1, i);
    }
  }

  /** A user who holds seat `h`, and no earlier seat, is written back into `h`. */
  lemma PlaceHeld(q: Progress, user: string, data: UserData, h: nat)
    requires h < |q.seats| && Holds(q.seats[h], user)
    requires forall i :: 0 <= i < h ==> !Holds(q.seats[i], user)
    ensures Place(q, user, data) == Progress(q.seats[h := UpdateSeat(q.seats[h], user, data)], q.claimed + {h})
  {
    assert FindHeldSeat(q.seats, user) == Some(h);
  }

  /** The loop over the first `k` users is the loop over the first `k - 1` followed by one more iteration. */
  lemma FoldPrefix(p: Progress, room: Room, k: nat)
    requires 0 < k <= |room|
    ensures Fold(p, room[..k]) == Place(Fold(p, room[..k - 1]), room[k - 1].0, room[k - 1].1)
  {
    assert room[..k][..k - 1] == room[..k - 1];
  }

  /** What the first `k` users leave behind when each holds its own seat. */
  predicate HeldProgress(seats: seq<Seat>, room: Room, pos: seq<nat>, k: nat, p: Progress)
    requires k <= |pos| <= |room|
  {
    && |p.seats| == |seats|
    && p.claimed == HeldSet(pos, k)
    && (forall j :: 0 <= j < k ==> pos[j] < |seats| && p.seats[pos[j]] == UpdateSeat(seats[pos[j]], room[j].0, room[j].1))
    && (forall i :: 0 <= i < |seats| && i !in HeldSet(pos, k) ==> p.seats[i] == seats[i])
  }

  /** The `k`-th user, holding seat `pos[k - 1]`, is written back into it. */
  lemma HeldStep(seats: seq<Seat>, room: Room, pos: seq<nat>, k: nat, q: Progress)
    requires HeldAt(seats, room, pos) && SuffixFree(room) && 0 < k <= |room|
    requires HeldProgress(seats, room, pos, k - 1, q)
    ensures HeldProgress(seats, room, pos, k, Place(q, room[k - 1].0, room[k - 1].1))
  {
    HeldFirst(seats, room, pos, k - 1, q);
    PlaceHeld(q, room[k - 1].0, room[k - 1].1, pos[k - 1]);
    HeldGrows(seats, room, pos, k, q, Place(q, room[k - 1].0, room[k - 1].1));
  }

  /** Before user `n`'s turn, its seat is still unclaimed and still holds it, and no earlier
      seat holds it. */
  lemma HeldFirst(seats: seq<Seat>, room: Room, pos: seq<nat>, n: nat, q: Progress)
    requires HeldAt(seats, room, pos) && SuffixFree(room) && n < |room|
    requires HeldProgress(seats, room, pos, n, q)
    ensures pos[n] < |q.seats| && pos[n] !in q.claimed && Holds(q.seats[pos[n]], room[n].0)
    ensures forall i :: 0 <= i < pos[n] ==> !Holds(q.seats[i], room[n].0)
  {
    var user, h := room[n].0, pos[n];
    assert forall j :: 0 <= j < n ==> pos[j] != h;
    HeldSetExcludes(pos, n, h);
    forall i | 0 <= i < h
      ensures !Holds(q.seats[i], user)
    {
      if i in HeldSet(pos, n) {
        var j := HeldSetWitness(pos, n, i);
        assert !EndsWith(LabelFor(room[j].0, room[j].1), user);
      }
    }
  }

  /** Writing the `k`-th user back into its seat extends `HeldProgress` by one user. */
  lemma HeldGrows(seats: seq<Seat>, room: Room, pos: seq<nat>, k: nat, q: Progress, r: Progress)
    requires HeldAt(seats, room, pos) && 0 < k <= |room|
    requires HeldProgress(seats, room, pos, k - 1, q)
    requires pos[k - 1] < |q.seats| && pos[k - 1] !in q.claimed
    requires r == Progress(q.seats[pos[k - 1] := UpdateSeat(q.seats[pos[k - 1]], room[k - 1].0, room[k - 1].1)],
                           q.claimed + {pos[k - 1]})
    ensures HeldProgress(seats, room, pos, k, r)
  {
    forall j | 0 <= j < k
      ensures pos[j] < |seats| && r.seats[pos[j]] == UpdateSeat(seats[pos[j]], room[j].0, room[j].1)
    {
      if j < k - 1 {
        assert pos[j] != pos[k - 1];
      }
    }
  }

  lemma {:induction false} FoldHeld(seats: seq<Seat>, room: Room, pos: seq<nat>, k: nat)
    requires HeldAt(seats, room, pos) && SuffixFree(room) && k <= |room|
    ensures HeldProgress(seats, room, pos, k, Fold(Progress(seats, {}), room[..k]))
  {
    if k > 0 {
      FoldHeld(seats, room, pos, k - 1);
      FoldPrefix(Progress(seats, {}), room, k);
      HeldStep(seats, room, pos, k, Fold(Progress(seats, {}), room[..k - 1]));
    }
  }

  /** When every present user already holds its own seat and no name is a suffix of another
      present user's label, every user keeps its seat index and every other seat is emptied. */
  lemma StableWhenHeld(seats: seq<Seat>, room: Room, pos: seq<nat>)
    requires HeldAt(seats, room, pos) && SuffixFree(room)
    ensures var r := OnStateUpdate(seats, room);
      && (forall j :: 0 <= j < |room| ==> r[pos[j]] == UpdateSeat(seats[pos[j]], room[j].0, room[j].1))
      && (forall i :: 0 <= i < |seats| && (forall j :: 0 <= j < |room| ==> pos[j] != i) ==> r[i] == SetEmpty(seats[i]))
  {
    FoldHeld(seats, room, pos, |room|);
    assert room[..|room|] == room;
    var p := Fold(Progress(seats, {}), room);
    var r := OnStateUpdate(seats, room);
    assert r == ClearUnclaimed(p);
    forall j | 0 <= j < |room|
      ensures r[pos[j]] == UpdateSeat(seats[pos[j]], room[j].0, room[j].1)
    {
      HeldSetIncludes(pos, |room|, j);
    }
    forall i | 0 <= i < |seats| && (forall j :: 0 <= j < |room| ==> pos[j] != i)
      ensures r[i] == SetEmpty(seats[i])
    {
      HeldSetExcludes(pos, |room|, i);
    }
  }

  // ---------------------------------------------------------------------------
  // Filling an empty room

  /** A user who holds no seat takes the lowest unclaimed one. */
  lemma PlaceNew(q: Progress, user: string, data: UserData, m: nat)
    requires forall i :: 0 <= i < |q.seats| ==> !Holds(q.seats[i], user)
    requires q.claimed == Below(m)
    ensures m < |q.seats| ==>
      Place(q, user, data) == Progress(q.seats[m := UpdateSeat(q.seats[m], user, data)], Below(m + 1))
    ensures m >= |q.seats| ==> Place(q, user, data) == q
  {
    assert FindHeldSeat(q.seats, user) == None;
    LowestUnclaimedOfBelow(|q.seats|, m);
  }

  /** What the first `k` users leave behind in a window that had no occupied seat. */
  predicate FreshProgress(seats: seq<Seat>, room: Room, k: nat, p: Progress)
    requires k <= |room|
  {
    var m := if k < |seats| then k else |seats|;
    && |p.seats| == |seats|
    && p.claimed == Below(m)
    && (forall j :: 0 <= j < m ==> p.seats[j] == UpdateSeat(seats[j], room[j].0, room[j].1))
    && (forall i :: m <= i < |seats| ==> p.seats[i] == seats[i])
  }

  /** The `k`-th user, holding no seat, takes seat `k - 1` when there is one. */
  lemma FreshStep(seats: seq<Seat>, room: Room, k: nat, q: Progress)
    requires forall i :: 0 <= i < |seats| ==> !seats[i].occupied
    requires SuffixFree(room) && 0 < k <= |room|
    requires FreshProgress(seats, room, k - 1, q)
    ensures FreshProgress(seats, room, k, Place(q, room[k - 1].0, room[k - 1].1))
  {
    FreshNoneHolds(seats, room, k, q);
    var m := if k - 1 < |seats| then k - 1 else |seats|;
    PlaceNew(q, room[k - 1].0, room[k - 1].1, m);
    FreshGrows(seats, room, k, q, Place(q, room[k - 1].0, room[k - 1].1));
  }

  /** No seat holds the `k`-th user yet: earlier users' labels do not end with its name, and
      the other seats are unoccupied. */
  lemma FreshNoneHolds(seats: seq<Seat>, room: Room, k: nat, q: Progress)
    requires forall i :: 0 <= i < |seats| ==> !seats[i].occupied
    requires SuffixFree(room) && 0 < k <= |room|
    requires FreshProgress(seats, room, k - 1, q)
    ensures forall i :: 0 <= i < |q.seats| ==> !Holds(q.seats[i], room[k - 1].0)
  {
    var m := if k - 1 < |seats| then k - 1 else |seats|;
    forall i | 0 <= i < |q.seats|
      ensures !Holds(q.seats[i], room[k - 1].0)
    {
      if i < m {
        assert !EndsWith(LabelFor(room[i].0, room[i].1), room[k - 1].0);
      }
    }
  }

  /** Writing the `k`-th user into seat `k - 1`, or changing nothing when the seats are used up,
      extends `FreshProgress` by one user. */
  lemma FreshGrows(seats: seq<Seat>, room: Room, k: nat, q: Progress, r: Progress)
    requires 0 < k <= |room| && FreshProgress(seats, room, k - 1, q)
    requires k - 1 < |seats| ==>
      r == Progress(q.seats[k - 1 := UpdateSeat(q.seats[k - 1], room[k - 1].0, room[k - 1].1)], Below(k))
    requires k - 1 >= |seats| ==> r == q
    ensures FreshProgress(seats, room, k, r)
  {
  }

  lemma {:induction false} FoldFresh(seats: seq<Seat>, room: Room, k: nat)
    requires forall i :: 0 <= i < |seats| ==> !seats[i].occupied
    requires SuffixFree(room) && k <= |room|
    ensures FreshProgress(seats, room, k, Fold(Progress(seats, {}), room[..k]))
  {
    if k > 0 {
      FoldFresh(seats, room, k - 1);
      FoldPrefix(Progress(seats, {}), room, k);
      FreshStep(seats, room, k, Fold(Progress(seats, {}), room[..k - 1]));
    }
  }

  /** Into a window with no occupied seat, the users land in dict order on seats 0, 1, 2, ...;
      users beyond the last seat are dropped without any error. */
  lemma FillsInOrder(seats: seq<Seat>, room: Room)
    requires forall i :: 0 <= i < |seats| ==> !seats[i].occupied
    requires SuffixFree(room)
    ensures var r := OnStateUpdate(seats, room);
      && (forall j :: 0 <= j < |room| && j < |seats| ==> r[j] == UpdateSeat(seats[j], room[j].0, room[j].1))
      && (forall i :: |room| <= i < |seats| ==> r[i] == SetEmpty(seats[i]))
  {
    FoldFresh(seats, room, |room|);
    assert room[..|room|] == room;
    var p := Fold(Progress(seats, {}), room);
    FreshCleared(seats, room, p, OnStateUpdate(seats, room));
  }

  /** Clearing after the users have filled seats 0, 1, 2, ... in order empties exactly the
      seats past the last user. */
  lemma FreshCleared(seats: seq<Seat>, room: Room, p: Progress, r: seq<Seat>)
    requires FreshProgress(seats, room, |room|, p) && r == ClearUnclaimed(p)
    ensures forall j :: 0 <= j < |room| && j < |seats| ==> r[j] == UpdateSeat(seats[j], room[j].0, room[j].1)
    ensures forall i :: |room| <= i < |seats| ==> r[i] == SetEmpty(seats[i])
  {
  }

  // ---------------------------------------------------------------------------
  // Newcomers can displace present users

  /** Seat 0 shows "b" and no other seat is occupied; "a" arrives before "b" in dict order.
      The single pass gives seat 0, the lowest unclaimed index, to "a", and "b", no longer
      found, moves to seat 1. */
  lemma NewcomerDisplacesPresentUser(seats: seq<Seat>, d: UserData)
    requires |seats| >= 2 && seats[0] == UpdateSeat(NewSeat(), "b", d)
    requires forall i :: 1 <= i < |seats| ==> !seats[i].occupied
    ensures var r := OnStateUpdate(seats, [("a", d), ("b", d)]);
      Shows(r[0], "a", d) && Shows(r[1], "b", d)
  {
    var room := [("a", d), ("b", d)];
    var p2 := NewcomerSteps(seats, d);
    FoldTwo(Progress(seats, {}), room);
    assert OnStateUpdate(seats, room) == ClearUnclaimed(p2);
  }

  /** Both iterations of the displacement example. */
  lemma NewcomerSteps(seats: seq<Seat>, d: UserData) returns (p2: Progress)
    requires |seats| >= 2 && seats[0] == UpdateSeat(NewSeat(), "b", d)
    requires forall i :: 1 <= i < |seats| ==> !seats[i].occupied
    ensures p2 == Place(Place(Progress(seats, {}), "a", d), "b", d)
    ensures 0 in p2.claimed && 1 in p2.claimed && Shows(p2.seats[0], "a", d) && Shows(p2.seats[1], "b", d)
  {
    var p0 := Progress(seats, {});
    assert LabelFor("b", d)[2..] == "b";
    assert Below(0) == {};
    PlaceNew(p0, "a", d, 0);
    var p1 := Place(p0, "a", d);
    assert LabelFor("a", d)[2..] == "a";
    PlaceNew(p1, "b", d, 1);
    p2 := Place(p1, "b", d);
  }

  lemma FoldTwo(p: Progress, room: Room)
    requires |room| == 2
    ensures Fold(p, room) == Place(Place(p, room[0].0, room[0].1), room[1].0, room[1].1)
  {
    var init := room[..1];
    assert init[..0] == [] && init[0] == room[0];
    assert Fold(p, init) == Place(Fold(p, []), room[0].0, room[0].1);
  }
}
