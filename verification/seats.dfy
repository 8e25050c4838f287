/**
 * The seat grid both room windows draw: twelve `SeatWidget`s in rows of
 * four, each either showing a user (`occupied`) or "Empty Seat", and the
 * room state the windows receive from the server, kept in the server's dict
 * order because placement depends on it.
 */
module Seats {
  import opened Wrappers
  import opened Text

  const NUM_SEATS: nat := 12
  const COLUMNS: nat := 4
  const EMPTY_LABEL := "Empty Seat"
  const EMPTY_SONG := "..."

  /** What one seat widget displays. `currentArtUrl` is the macOS window's
      cover-art cache; the Windows window never writes it. */
  datatype Seat = Seat(occupied: bool, userLabel: string, songLabel: string, currentArtUrl: Option<string>)

  /** The value stored for one user in the room state: `data.get(...)` of each key, None when absent. */
  datatype UserData = UserData(song: Option<string>, platform: Option<string>, artUrl: Option<string>)

  /** The room state dict as its `items()` in iteration order. */
  type Room = seq<(string, UserData)>

  /** A freshly constructed seat widget. */
  function NewSeat(): Seat {
    Seat(false, EMPTY_LABEL, EMPTY_SONG, None)
  }

  /** The seats `_setup_seats` creates: twelve fresh widgets. */
  function InitialSeats(): (r: seq<Seat>)
    ensures |r| == NUM_SEATS
    ensures forall i :: 0 <= i < |r| ==> r[i] == NewSeat()
  {
    seq(NUM_SEATS, _ => NewSeat())
  }

  /** Row and column of seat `i` in the grid (`divmod(i, cols)`). */
  function GridCell(i: nat): (r: (nat, nat))
    requires i < NUM_SEATS
    ensures r.0 < NUM_SEATS / COLUMNS && r.1 < COLUMNS
    ensures r.0 * COLUMNS + r.1 == i
  {
    (i / COLUMNS, i % COLUMNS)
  }

  /** No two seats share a grid cell. */
  lemma GridCellsDistinct(i: nat, j: nat)
    requires i < NUM_SEATS && j < NUM_SEATS && i != j
    ensures GridCell(i) != GridCell(j)
  {
  }

  /** The user label a seat gets: `f"{icon} {user}"`. */
  function UserLabel(icon: string, user: string): string {
    icon + " " + user
  }

  /** The test both windows use to recognise a seat as `user`'s:
      `seat.property("occupied") and seat.user_label.text().endswith(user)`. */
  predicate Holds(seat: Seat, user: string) {
    seat.occupied && EndsWith(seat.userLabel, user)
  }

  /** The first seat, in index order, that `Holds` for `user`. */
  function FindHeldSeat(seats: seq<Seat>, user: string): (r: Option<nat>)
    ensures r.Some? ==> r.value < |seats| && Holds(seats[r.value], user)
    ensures r.Some? ==> forall i :: 0 <= i < r.value ==> !Holds(seats[i], user)
    ensures r.None? ==> forall i :: 0 <= i < |seats| ==> !Holds(seats[i], user)
    decreases |seats|
  {
    if |seats| == 0 then None
    else if Holds(seats[0], user) then Some(0)
    else match FindHeldSeat(seats[1..], user)
      case None => None
      case Some(i) => Some(i + 1)
  }

  /** Two seat vectors that agree on which seats hold `user` give the same first match. */
  lemma FindHeldSeatAgrees(a: seq<Seat>, b: seq<Seat>, user: string)
    requires |a| == |b|
    requires forall i :: 0 <= i < |a| ==> (Holds(a[i], user) <==> Holds(b[i], user))
    ensures FindHeldSeat(a, user) == FindHeldSeat(b, user)
  {
  }

  /** The lowest seat index below `n` not yet claimed in this update. */
  function LowestUnclaimed(n: nat, claimed: set<nat>): (r: Option<nat>)
    ensures r.Some? ==> r.value < n && r.value !in claimed
    ensures r.Some? ==> forall i :: 0 <= i < r.value ==> i in claimed
    ensures r.None? ==> forall i :: 0 <= i < n ==> i in claimed
  {
    LowestUnclaimedFrom(0, n, claimed)
  }

  function LowestUnclaimedFrom(from: nat, n: nat, claimed: set<nat>): (r: Option<nat>)
    requires forall i :: 0 <= i < from ==> i in claimed
    ensures r.Some? ==> r.value < n && r.value !in claimed
    ensures r.Some? ==> forall i :: 0 <= i < r.value ==> i in claimed
    ensures r.None? ==> forall i :: 0 <= i < n ==> i in claimed
    decreases n - from
  {
    if from >= n then None
    else if from !in claimed then Some(from)
    else LowestUnclaimedFrom(from + 1, n, claimed)
  }

  /** The seats below `m`. */
  function Below(m: nat): (r: set<nat>)
    ensures forall i: nat :: i in r <==> i < m
    ensures |r| == m
  {
    if m == 0 then {} else Below(m - 1) + {m - 1}
  }

  lemma LowestUnclaimedOfBelow(n: nat, m: nat)
    ensures LowestUnclaimed(n, Below(m)) == if m < n then Some(m) else None
  {
    assert m !in Below(m);
  }

  /** Indices of the seats that show a user. */
  function OccupiedSeats(seats: seq<Seat>): set<nat> {
    set i: nat | i < |seats| && seats[i].occupied
  }

  lemma SubsetSize<T>(a: set<T>, b: set<T>)
    requires a <= b
    ensures |a| <= |b|
  {
    assert b == a + (b - a);
  }

  /** Dict keys are distinct. */
  predicate DistinctUsers(room: Room) {
    forall j, k :: 0 <= j < k < |room| ==> room[j].0 != room[k].0
  }

  /** Every present user already holds exactly one seat, `pos[j]` for the
      j-th user, no other seat `Holds` for that user, and no two users share one. */
  predicate HeldAt(seats: seq<Seat>, room: Room, pos: seq<nat>) {
    && |pos| == |room|
    && (forall j :: 0 <= j < |room| ==> pos[j] < |seats| && Holds(seats[pos[j]], room[j].0))
    && (forall j, i :: 0 <= j < |room| && 0 <= i < |seats| && Holds(seats[i], room[j].0) ==> i == pos[j])
    && (forall j, k :: 0 <= j < k < |room| ==> pos[j] != pos[k])
  }
}
