/** The solution responder: renders a solution, as seen by a requesting
    user, into the nested document the API serialises. */
module SolutionResponder {
  import opened Wrappers
  import opened Records
  import opened Routes

  /** The one way rendering fails: the owner has no membership row on the
      exercise's track, so there is no record to ask about anonymity. */
  datatype Error = MembershipNotFound

  datatype UserHash = UserHash(handle: string, isRequester: bool)
  datatype TrackHash = TrackHash(id: string)
  datatype ExerciseHash = ExerciseHash(id: string, instructionsUrl: string, track: TrackHash)
  datatype IterationSummary = IterationSummary(submittedAt: int)

  /** The `solution` entry of the document. */
  datatype SolutionHash = SolutionHash(
    id: string,
    url: string,
    user: UserHash,
    exercise: ExerciseHash,
    files: seq<string>,
    iteration: Option<IterationSummary>)

  /** The whole document: a single `solution` key. */
  datatype Document = Document(solution: SolutionHash)

  /** The requester owns the solution. Both ownership tests of the
      responder (by user id, and by comparing user records) compare ids. */
  predicate IsOwner(s: Solution, requester: User) {
    s.user.id == requester.id
  }

  /** The owner's membership row on the exercise's track: the first row
      that matches, if any. */
  function Membership(db: Db, s: Solution): (m: Option<UserTrack>)
    ensures m.None? <==>
      forall i :: 0 <= i < |db.userTracks| ==> !IsMembershipOf(db.userTracks[i], s.user.id, s.exercise.track)
    ensures m.Some? ==> m.value in db.userTracks && IsMembershipOf(m.value, s.user.id, s.exercise.track)
  {
    var k := FirstMembershipIndex(db.userTracks, s.user.id, s.exercise.track);
    if k < |db.userTracks| then Some(db.userTracks[k]) else None
  }

  /** The handle shown for the owner: the track alias while the owner is
      anonymous on the exercise's track, the global handle otherwise. */
  function UserHandle(db: Db, s: Solution): (r: Result<string, Error>)
    ensures r.Failure? <==> Membership(db, s).None?
    ensures r.Success? && Membership(db, s).value.anonymous ==> r.value == Membership(db, s).value.handle
    ensures r.Success? && !Membership(db, s).value.anonymous ==> r.value == s.user.handle
  {
    match Membership(db, s)
    case None => Failure(MembershipNotFound)
    case Some(m) => if m.anonymous then Success(m.handle) else Success(s.user.handle)
  }

  /** The route the requester is sent to; the first rule that applies wins. */
  function SolutionRoute(s: Solution, requester: User): Route {
    if IsOwner(s, requester) then MySolution(s.uuid)
    else if s.published then TrackExerciseSolution(s.exercise.track.slug, s.exercise.slug, s.uuid)
    else MentorSolution(s.uuid)
  }

  /** The URL of the solution as the requester sees it. */
  function SolutionUrl(s: Solution, requester: User): (url: string)
    ensures IsOwner(s, requester) ==> url == Url(MySolution(s.uuid))
    ensures !IsOwner(s, requester) && s.published ==>
      url == Url(TrackExerciseSolution(s.exercise.track.slug, s.exercise.slug, s.uuid))
    ensures !IsOwner(s, requester) && !s.published ==> url == Url(MentorSolution(s.uuid))
  {
    Url(SolutionRoute(s, requester))
  }

  /** The URL of the exercise's instructions: always the owner-scoped one. */
  function InstructionsUrl(s: Solution): string {
    Url(MySolution(s.uuid))
  }

  /** The solution's files: not populated yet. */
  function Files(): seq<string> {
    []
  }

  /** The last iteration's creation time, or nothing without iterations. */
  function IterationHash(s: Solution): (r: Option<IterationSummary>)
    ensures r.None? <==> s.iterations == []
    ensures r.Some? ==> r.value.submittedAt == s.iterations[|s.iterations| - 1].createdAt
  {
    if |s.iterations| == 0 then None
    else Some(IterationSummary(s.iterations[|s.iterations| - 1].createdAt))
  }

  /** The rendered document. */
  function ToHash(db: Db, s: Solution, requester: User): (r: Result<Document, Error>)
    ensures r.Failure? <==>
      forall i :: 0 <= i < |db.userTracks| ==> !IsMembershipOf(db.userTracks[i], s.user.id, s.exercise.track)
    ensures r.Success? ==>
      var h := r.value.solution;
      && h.id == s.uuid
      && h.url == SolutionUrl(s, requester)
      && h.user.handle == UserHandle(db, s).value
      && h.user.isRequester == (s.user.id == requester.id)
      && h.exercise.id == s.exercise.slug
      && h.exercise.instructionsUrl == Url(MySolution(s.uuid))
      && h.exercise.track.id == s.exercise.track.slug
      && h.files == []
      && h.iteration == IterationHash(s)
  {
    match UserHandle(db, s)
    case Failure(e) => Failure(e)
    case Success(handle) =>
      Success(Document(SolutionHash(
        s.uuid,
        SolutionUrl(s, requester),
        UserHash(handle, IsOwner(s, requester)),
        ExerciseHash(s.exercise.slug, InstructionsUrl(s), TrackHash(s.exercise.track.slug)),
        Files(),
        IterationHash(s))))
  }

  // ---------------------------------------------------------------------
  // Properties of the rendered document

  /** Slugs that can stand in a path. */
  predicate SlugsAreSegments(s: Solution) {
    IsSegment(s.exercise.track.slug) && IsSegment(s.exercise.slug)
  }

  /** The start of the URL tells which view the requester gets, whatever
      the slugs hold: the owner-scoped one exactly for the owner, the
      public one exactly for others when the solution is published, the
      mentor one exactly for others when it is not. */
  lemma UrlKindMatchesView(db: Db, s: Solution, requester: User)
    requires ToHash(db, s, requester).Success?
    ensures var url := ToHash(db, s, requester).value.solution.url;
      && (Host + MyPrefix <= url <==> IsOwner(s, requester))
      && (Host + TracksPrefix <= url <==> !IsOwner(s, requester) && s.published)
      && (Host + MentorPrefix <= url <==> !IsOwner(s, requester) && !s.published)
  {
    UrlKind(SolutionRoute(s, requester));
  }

  /** When the slugs are path segments, the URL also names the solution's
      own ids, and parsing it gives back the view chosen. */
  lemma UrlRevealsView(db: Db, s: Solution, requester: User)
    requires SlugsAreSegments(s)
    requires ToHash(db, s, requester).Success?
    ensures var parsed := ParseUrl(ToHash(db, s, requester).value.solution.url);
      && parsed.Some?
      && parsed.value.uuid == s.uuid
      && (parsed.value.MySolution? <==> IsOwner(s, requester))
      && (parsed.value.TrackExerciseSolution? <==> !IsOwner(s, requester) && s.published)
      && (parsed.value.MentorSolution? <==> !IsOwner(s, requester) && !s.published)
      && (parsed.value.TrackExerciseSolution? ==>
            parsed.value.track == s.exercise.track.slug && parsed.value.exercise == s.exercise.slug)
  {
    UrlRoundTrip(SolutionRoute(s, requester));
  }

  /** The instructions URL and the solution URL agree exactly when the
      requester owns the solution. */
  lemma InstructionsUrlMatchesUrlIffOwner(db: Db, s: Solution, requester: User)
    requires ToHash(db, s, requester).Success?
    ensures var h := ToHash(db, s, requester).value.solution;
      h.exercise.instructionsUrl == h.url <==> IsOwner(s, requester)
  {
  }

  /** Who asks does not change the instructions URL. */
  lemma InstructionsUrlIgnoresRequester(db: Db, s: Solution, r1: User, r2: User)
    requires ToHash(db, s, r1).Success?
    ensures ToHash(db, s, r2).Success?
    ensures ToHash(db, s, r1).value.solution.exercise == ToHash(db, s, r2).value.solution.exercise
  {
  }

  /** The owner is sent to the owner-scoped URL, published or not. */
  lemma OwnerSeesMySolution(db: Db, s: Solution, requester: User)
    requires IsOwner(s, requester)
    requires ToHash(db, s, requester).Success?
    ensures ToHash(db, s, requester).value.solution.url == Url(MySolution(s.uuid))
    ensures ToHash(db, s.(published := !s.published), requester).value.solution.url == Url(MySolution(s.uuid))
    ensures ToHash(db, s, requester).value.solution.user.isRequester
  {
  }

  /** Mentorship rows are never consulted: a requester sees the same
      document whichever mentorships exist. */
  lemma RenderIgnoresMentorships(db: Db, s: Solution, requester: User, mentorships: seq<TrackMentorship>)
    ensures ToHash(db.(mentorships := mentorships), s, requester) == ToHash(db, s, requester)
  {
  }

  /** With at most one membership per (user, track), the handle comes
      from the owner's membership row on the track, whichever it is. */
  lemma HandleFromMembership(db: Db, s: Solution, requester: User, k: nat)
    requires UniqueMemberships(db.userTracks)
    requires k < |db.userTracks|
    requires IsMembershipOf(db.userTracks[k], s.user.id, s.exercise.track)
    ensures ToHash(db, s, requester).Success?
    ensures ToHash(db, s, requester).value.solution.user.handle ==
      if db.userTracks[k].anonymous then db.userTracks[k].handle else s.user.handle
  {
  }

  /** A new iteration is what the summary reports next. */
  lemma NewIterationIsReported(s: Solution, it: Iteration)
    ensures IterationHash(s.(iterations := s.iterations + [it])) == Some(IterationSummary(it.createdAt))
  {
  }

  /** When iterations are in creation order, the summary holds the most
      recent creation time. */
  lemma SubmittedAtIsLatest(s: Solution)
    requires forall i, j :: 0 <= i < j < |s.iterations| ==> s.iterations[i].createdAt <= s.iterations[j].createdAt
    requires s.iterations != []
    ensures forall i :: 0 <= i < |s.iterations| ==>
      s.iterations[i].createdAt <= IterationHash(s).value.submittedAt
  {
  }
}
