/** The scenarios of the responder's unit tests, on concrete records: an
    owner, a second user, one exercise. */
module ResponderScenarios {
  import opened Wrappers
  import opened Records
  import opened SolutionResponder

  const Ruby := Track("ruby")
  const TwoFer := Exercise("two-fer", Ruby)
  const Owner := User(1, "alice")
  const Other := User(2, "bob")

  /** The owner is a member of the track, not anonymous; nobody mentors it. */
  const MemberDb := Db([UserTrack(1, Ruby, false, "")], [])

  /** As `MemberDb`, and the other user mentors the track. */
  const MentoredDb := Db([UserTrack(1, Ruby, false, "")], [TrackMentorship(2, Ruby)])

  function Draft(iterations: seq<Iteration>): Solution {
    Solution("abc-123", Owner, TwoFer, false, iterations)
  }

  const Published := Solution("abc-123", Owner, TwoFer, true, [])

  /** The owner asks for an unpublished solution without iterations. */
  lemma BasicDocument()
    ensures ToHash(MemberDb, Draft([]), Owner) == Success(Document(SolutionHash(
      "abc-123",
      "https://exercism.io/my/solutions/abc-123",
      UserHash("alice", true),
      ExerciseHash("two-fer", "https://exercism.io/my/solutions/abc-123", TrackHash("ruby")),
      [],
      None)))
  {
    assert Routes.Url(Routes.MySolution("abc-123")) == "https://exercism.io/my/solutions/abc-123";
  }

  /** Someone else asks: they are not the requester the document names. */
  lemma OtherRequesterIsNotRequester()
    ensures !ToHash(MemberDb, Draft([]), Other).value.solution.user.isRequester
  {
  }

  /** An owner anonymous on the track is shown under the track alias. */
  lemma AnonymousOwnerShowsAlias()
    ensures ToHash(Db([UserTrack(1, Ruby, true, "foosa1111")], []), Draft([]), Owner).value.solution.user.handle
      == "foosa1111"
  {
  }

  /** The summary carries the creation time of the last iteration. */
  lemma IterationIsSummarised()
    ensures ToHash(MemberDb, Draft([Iteration(100), Iteration(250)]), Owner).value.solution.iteration
      == Some(IterationSummary(250))
  {
  }

  /** A mentor asking for an unpublished solution gets the mentor URL. */
  lemma MentorSeesMentorUrl()
    ensures ToHash(MentoredDb, Draft([]), Other).value.solution.url == "https://exercism.io/mentor/solutions/abc-123"
  {
  }

  /** The owner of a published solution still gets the owner-scoped URL. */
  lemma OwnerOfPublishedSeesMyUrl()
    ensures ToHash(MemberDb, Published, Owner).value.solution.url == "https://exercism.io/my/solutions/abc-123"
  {
  }

  /** Anyone else, mentor or not, gets the public URL of a published
      solution. */
  lemma OthersOfPublishedSeePublicUrl(requester: User)
    requires requester.id != Owner.id
    ensures ToHash(MentoredDb, Published, requester).value.solution.url
      == "https://exercism.io/tracks/ruby/exercises/two-fer/solutions/abc-123"
  {
    assert Routes.Host + Routes.TracksPrefix + "ruby" == "https://exercism.io/tracks/ruby";
    assert "https://exercism.io/tracks/ruby" + Routes.ExercisesInfix + "two-fer"
      == "https://exercism.io/tracks/ruby/exercises/two-fer";
    assert "https://exercism.io/tracks/ruby/exercises/two-fer" + Routes.SolutionsInfix + "abc-123"
      == "https://exercism.io/tracks/ruby/exercises/two-fer/solutions/abc-123";
  }

  /** An owner without a membership row on the track cannot be rendered. */
  lemma MissingMembershipFails()
    ensures ToHash(Db([UserTrack(2, Ruby, false, "")], []), Draft([]), Owner) == Failure(MembershipNotFound)
  {
  }
}
