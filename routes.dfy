/** The three named routes the responder links to, and the absolute URLs
    the application's route helpers build for them (without the
    percent-encoding of parameters). `ParseUrl` inverts `Url` on routes
    whose track and exercise slugs hold no '/': it recovers the route and
    its ids from the string. */
module Routes {
  import opened Wrappers

  datatype Route =
    | MySolution(uuid: string)
    | TrackExerciseSolution(track: string, exercise: string, uuid: string)
    | MentorSolution(uuid: string)

  const Host: string := "https://exercism.io/"
  const MyPrefix: string := "my/solutions/"
  const MentorPrefix: string := "mentor/solutions/"
  const TracksPrefix: string := "tracks/"
  const ExercisesInfix: string := "/exercises/"
  const SolutionsInfix: string := "/solutions/"

  /** The absolute URL of a route. */
  function Url(route: Route): string {
    match route
    case MySolution(u) => Host + MyPrefix + u
    case TrackExerciseSolution(t, e, u) => Host + TracksPrefix + t + ExercisesInfix + e + SolutionsInfix + u
    case MentorSolution(u) => Host + MentorPrefix + u
  }

  /** A path segment: a slug that holds no '/'. */
  predicate IsSegment(s: string) {
    '/' !in s
  }

  /** The track and exercise slugs of a public route are path segments. */
  predicate WellFormed(route: Route) {
    route.TrackExerciseSolution? ==> IsSegment(route.track) && IsSegment(route.exercise)
  }

  /** Index of the first '/' in `s`, or `|s|` when there is none. */
  function FirstSlash(s: string): (k: nat)
    ensures k <= |s|
    ensures forall j :: 0 <= j < k ==> s[j] != '/'
    ensures k < |s| ==> s[k] == '/'
  {
    if |s| == 0 then 0
    else if s[0] == '/' then 0
    else 1 + FirstSlash(s[1..])
  }

  /** Splits `p` at its first '/', which must begin `infix`: the
      segment before it and what follows `infix`. */
  function SplitSegment(p: string, infix: string): (r: Option<(string, string)>)
    ensures r.Some? ==> IsSegment(r.value.0) && p == r.value.0 + infix + r.value.1
  {
    var i := FirstSlash(p);
    if infix <= p[i..] then
      assert p == p[..i] + infix + p[i..][|infix|..];
      assert forall j :: 0 <= j < i ==> p[..i][j] != '/';
      Some((p[..i], p[i..][|infix|..]))
    else None
  }

  /** Reads `<track>/exercises/<exercise>/solutions/<uuid>`. */
  function ParseTrackPath(p: string): (r: Option<Route>)
    ensures r.Some? ==> WellFormed(r.value) && r.value.TrackExerciseSolution?
    ensures r.Some? ==> Host + TracksPrefix + p == Url(r.value)
  {
    match SplitSegment(p, ExercisesInfix)
    case None => None
    case Some((t, q)) =>
      match SplitSegment(q, SolutionsInfix)
      case None => None
      case Some((e, u)) =>
        assert Host + TracksPrefix + p == Host + TracksPrefix + t + ExercisesInfix + e + SolutionsInfix + u;
        Some(TrackExerciseSolution(t, e, u))
  }

  /** The route a URL names, if it names one of the three. */
  function ParseUrl(url: string): (r: Option<Route>)
    ensures r.Some? ==> WellFormed(r.value) && Url(r.value) == url
  {
    if !(Host <= url) then None
    else
      var rest := url[|Host|..];
      assert url == Host + rest;
      if MyPrefix <= rest then
        assert rest == MyPrefix + rest[|MyPrefix|..];
        Some(MySolution(rest[|MyPrefix|..]))
      else if MentorPrefix <= rest then
        assert rest == MentorPrefix + rest[|MentorPrefix|..];
        Some(MentorSolution(rest[|MentorPrefix|..]))
      else if TracksPrefix <= rest then
        assert rest == TracksPrefix + rest[|TracksPrefix|..];
        ParseTrackPath(rest[|TracksPrefix|..])
      else None
  }

  /** The first '/' after a segment is the one that ends it. */
  lemma SplitSegmentOf(t: string, infix: string, rest: string)
    requires IsSegment(t)
    requires |infix| > 0 && infix[0] == '/'
    ensures SplitSegment(t + infix + rest, infix) == Some((t, rest))
  {
    var p := t + infix + rest;
    var i := FirstSlash(p);
    assert p[|t|] == '/';
    assert p[..i] == t;
    assert p[i..] == infix + rest;
  }

  /** Every well-formed route is recovered from its URL. */
  lemma UrlRoundTrip(route: Route)
    requires WellFormed(route)
    ensures ParseUrl(Url(route)) == Some(route)
  {
    match route
    case MySolution(u) => MySolutionRoundTrip(u);
    case MentorSolution(u) => MentorSolutionRoundTrip(u);
    case TrackExerciseSolution(t, e, u) => TrackExerciseSolutionRoundTrip(t, e, u);
  }

  lemma MySolutionRoundTrip(u: string)
    ensures ParseUrl(Url(MySolution(u))) == Some(MySolution(u))
  {
  }

  lemma MentorSolutionRoundTrip(u: string)
    ensures ParseUrl(Url(MentorSolution(u))) == Some(MentorSolution(u))
  {
    var url := Url(MentorSolution(u));
    assert url == Host + (MentorPrefix + u);
    var rest := url[|Host|..];
    assert rest == MentorPrefix + u;
    assert rest[1] != MyPrefix[1];
  }

  lemma TrackExerciseSolutionRoundTrip(t: string, e: string, u: string)
    requires IsSegment(t) && IsSegment(e)
    ensures ParseUrl(Url(TrackExerciseSolution(t, e, u))) == Some(TrackExerciseSolution(t, e, u))
  {
    var url := Url(TrackExerciseSolution(t, e, u));
    var q := e + SolutionsInfix + u;
    var p := t + ExercisesInfix + q;
    assert url == Host + (TracksPrefix + p);
    var rest := url[|Host|..];
    assert rest == TracksPrefix + p;
    assert Host <= url;
    assert rest[0] != MyPrefix[0] && rest[0] != MentorPrefix[0];
    assert !(MyPrefix <= rest) && !(MentorPrefix <= rest);
    assert TracksPrefix <= rest;
    assert rest[|TracksPrefix|..] == p;
    SplitSegmentOf(t, ExercisesInfix, q);
    SplitSegmentOf(e, SolutionsInfix, u);
    assert ParseTrackPath(p) == Some(TrackExerciseSolution(t, e, u));
  }

  /** Two well-formed routes with the same URL are the same route. */
  lemma UrlInjective(r1: Route, r2: Route)
    requires WellFormed(r1) && WellFormed(r2)
    requires Url(r1) == Url(r2)
    ensures r1 == r2
  {
    UrlRoundTrip(r1);
    UrlRoundTrip(r2);
  }

  /** Only the owner-scoped route of `u` has the owner-scoped URL of `u`,
      whatever the slugs hold. */
  lemma MySolutionUrlIsDistinct(u: string, route: Route)
    requires Url(route) == Url(MySolution(u))
    ensures route == MySolution(u)
  {
    var url := Url(MySolution(u));
    assert url[|Host|] == 'm' && url[|Host| + 1] == 'y';
    match route
    case MySolution(v) =>
      assert u == url[|Host + MyPrefix|..] == v;
    case MentorSolution(v) =>
    case TrackExerciseSolution(t, e, v) =>
  }

  /** The start of a URL tells its kind, whatever the slugs and the uuid
      hold. */
  lemma UrlKind(route: Route)
    ensures Host + MyPrefix <= Url(route) <==> route.MySolution?
    ensures Host + TracksPrefix <= Url(route) <==> route.TrackExerciseSolution?
    ensures Host + MentorPrefix <= Url(route) <==> route.MentorSolution?
  {
    var url := Url(route);
    match route
    case MySolution(u) =>
      assert url[|Host|] == 'm' && url[|Host| + 1] == 'y';
      assert (Host + TracksPrefix)[|Host|] == 't';
      assert (Host + MentorPrefix)[|Host| + 1] == 'e';
    case TrackExerciseSolution(t, e, u) =>
      assert url == Host + TracksPrefix + (t + ExercisesInfix + e + SolutionsInfix + u);
      assert url[|Host|] == 't';
      assert (Host + MyPrefix)[|Host|] == 'm';
      assert (Host + MentorPrefix)[|Host|] == 'm';
    case MentorSolution(u) =>
      assert url[|Host|] == 'm' && url[|Host| + 1] == 'e';
      assert (Host + TracksPrefix)[|Host|] == 't';
      assert (Host + MyPrefix)[|Host| + 1] == 'y';
  }
}
