/** The persistent records the responder reads, as plain values.
    Associations are resolved eagerly: a solution carries its owner, its
    exercise (which carries its track) and its iterations; the tables the
    responder queries are the rows of a `Db`. */
module Records {

  /** A track, identified by its slug. */
  datatype Track = Track(slug: string)

  /** An exercise, identified by its slug, on exactly one track. */
  datatype Exercise = Exercise(slug: string, track: Track)

  /** A user with a global display handle. */
  datatype User = User(id: int, handle: string)

  /** One revision of a solution; timestamps are opaque integers. */
  datatype Iteration = Iteration(createdAt: int)

  /** A user's solution to an exercise. `published` stands for the
      solution's own `published?` test. `iterations` are in the order
      the database returns them, oldest first. */
  datatype Solution = Solution(
    uuid: string,
    user: User,
    exercise: Exercise,
    published: bool,
    iterations: seq<Iteration>)

  /** A membership of a user on a track; `handle` is the alias shown
      while the member is anonymous there. */
  datatype UserTrack = UserTrack(userId: int, track: Track, anonymous: bool, handle: string)

  /** A grant of mentor rights to a user on a track. */
  datatype TrackMentorship = TrackMentorship(userId: int, track: Track)

  /** The tables around the responder, each in primary-key order. */
  datatype Db = Db(userTracks: seq<UserTrack>, mentorships: seq<TrackMentorship>)

  /** Row `m` is the membership of user `userId` on `track`. */
  predicate IsMembershipOf(m: UserTrack, userId: int, track: Track) {
    m.userId == userId && m.track == track
  }

  /** At most one membership row per (user, track) pair. */
  ghost predicate UniqueMemberships(rows: seq<UserTrack>) {
    forall i, j | 0 <= i < |rows| && 0 <= j < |rows| ::
      IsMembershipOf(rows[j], rows[i].userId, rows[i].track) ==> i == j
  }

  /** Index of the first row that is the membership of `userId` on
      `track`, or `|rows|` when there is none; this is what a `where`
      query followed by `first` selects. */
  function FirstMembershipIndex(rows: seq<UserTrack>, userId: int, track: Track): (k: nat)
    ensures k <= |rows|
    ensures forall j :: 0 <= j < k ==> !IsMembershipOf(rows[j], userId, track)
    ensures k < |rows| ==> IsMembershipOf(rows[k], userId, track)
  {
    if |rows| == 0 then 0
    else if IsMembershipOf(rows[0], userId, track) then 0
    else 1 + FirstMembershipIndex(rows[1..], userId, track)
  }

  /** Under the one-row-per-pair invariant, the first match is the row. */
  lemma FirstMembershipIsTheMembership(rows: seq<UserTrack>, k: nat)
    requires UniqueMemberships(rows)
    requires k < |rows|
    ensures FirstMembershipIndex(rows, rows[k].userId, rows[k].track) == k
  {
  }
}
