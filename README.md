# Solution responder, modelled in Dafny

Exercism's API renders a learner's solution for whoever asks for it. It takes
a solution record and the requesting user and builds a nested document.
The document holds the solution's uuid and a URL that depends on who is
asking. It also holds the owner's display handle (a per-track alias while
the owner is anonymous on the exercise's track), whether the requester is the
owner, the exercise and track slugs, and the URL of the instructions. Last
come an empty `files` list and a summary of the last iteration (`nil`
without iterations).

The model is purely functional, as the Ruby class is. Its constructor only
stores the two arguments, and nothing mutates them afterwards.

- `records.dfy` (module `Records`): the records as plain datatypes. The
  tables the responder queries form a `Db`. `FirstMembershipIndex` is the
  `where(...).first` lookup of a membership row.
- `routes.dfy` (module `Routes`): the three named routes and the absolute
  URLs built for them under `https://exercism.io/`. `ParseUrl` inverts
  `Url` on routes whose track and exercise slugs hold no '/'.
- `solution_responder.dfy` (module `SolutionResponder`): `to_hash` and its
  helpers, and the properties of the rendered document.
- `scenarios.dfy` (module `ResponderScenarios`): the scenarios of the
  responder's unit tests, stated on concrete records.
- `wrappers.dfy` (module `Wrappers`): `Option` and `Result`.

Decisions:

- Ownership is tested in two places: `solution.user_id == requester.id` and
  `solution.user == requester`. Both compare user ids, so both are the one
  predicate `IsOwner`.
- The Ruby code reads the owner's membership row and calls `anonymous?` on
  it, so it fails when no such row exists. `ToHash` returns
  `Failure(MembershipNotFound)` exactly in that case.
- `IterationHash` takes the last element of `iterations`. That is what
  `iterations.last` returns in database order. `SubmittedAtIsLatest` shows
  that this is the most recently created iteration when the iterations are
  in creation order.

## Model

| member | source | states |
|---|---|---|
| `Records.FirstMembershipIndex` | app/models/api/solution_responder.rb:33 | picks the first row that is the owner's membership on the track; it returns `|rows|` exactly when no row matches |
| `Records.FirstMembershipIsTheMembership` | app/models/api/solution_responder.rb:33 | with at most one membership per (user, track), the first match is that user's only row |
| `Routes.ParseUrl` | app/models/api/solution_responder.rb:41-53 | every URL it accepts is the URL of the route it returns, and that route has slash-free slugs |
| `Routes.UrlRoundTrip` | app/models/api/solution_responder.rb:41-53 | every route whose track and exercise slugs hold no '/' is recovered from its URL |
| `Routes.UrlInjective` | app/models/api/solution_responder.rb:41-53 | two such routes with the same URL are the same route |
| `Routes.MySolutionUrlIsDistinct` | app/models/api/solution_responder.rb:43 | only the owner-scoped route of a uuid has that owner-scoped URL, whatever the slugs hold |
| `SolutionResponder.Membership` | app/models/api/solution_responder.rb:33 | returns nothing exactly when no row is the owner's membership on the exercise's track; otherwise it returns such a row |
| `SolutionResponder.UserHandle` | app/models/api/solution_responder.rb:32-39 | fails exactly when the membership is missing; otherwise it gives the alias when the membership is anonymous and the owner's global handle when it is not |
| `SolutionResponder.SolutionUrl` | app/models/api/solution_responder.rb:41-49 | first rule that applies: the owner gets the my-solution URL; otherwise a published solution gets the public track/exercise/solution URL; otherwise the mentor URL |
| `SolutionResponder.IterationHash` | app/models/api/solution_responder.rb:60-67 | nothing exactly when there are no iterations; otherwise it holds the last iteration's `created_at` |
| `SolutionResponder.ToHash` | app/models/api/solution_responder.rb:10-30 | fails exactly when the owner has no membership on the track; otherwise `id`, `exercise.id` and `exercise.track.id` are the uuid and slugs unchanged, and `is_requester` holds exactly when the ids are equal. `instructions_url` is the my-solution URL and `files` is empty; `url`, `handle` and `iteration` are as above |
| `Routes.UrlKind` | app/models/api/solution_responder.rb:43-47 | for any slugs and uuid, a URL starts with the my-solution, public or mentor prefix exactly when it is built from that route |
| `SolutionResponder.UrlKindMatchesView` | app/models/api/solution_responder.rb:41-49 | for any slugs, the URL's prefix tells the case exactly: my-solution iff owner, public iff non-owner and published, mentor iff non-owner and unpublished |
| `SolutionResponder.UrlRevealsView` | app/models/api/solution_responder.rb:41-49 | when the track and exercise slugs hold no '/', parsing the URL gives back the chosen route, with the solution's uuid and slugs |
| `SolutionResponder.InstructionsUrlMatchesUrlIffOwner` | app/models/api/solution_responder.rb:51-53 | `instructions_url` equals `url` exactly when the requester is the owner |
| `SolutionResponder.InstructionsUrlIgnoresRequester` | app/models/api/solution_responder.rb:51-53 | the exercise part, instructions URL included, is the same for every requester |
| `SolutionResponder.OwnerSeesMySolution` | app/models/api/solution_responder.rb:42-43 | the owner gets the my-solution URL whether or not the solution is published, and is flagged as the requester |
| `SolutionResponder.RenderIgnoresMentorships` | app/models/api/solution_responder.rb:41-49 | the document does not depend on which mentorships exist |
| `SolutionResponder.HandleFromMembership` | app/models/api/solution_responder.rb:32-39 | with one membership per (user, track), rendering succeeds and the handle is that row's alias if it is anonymous, else the owner's handle |
| `SolutionResponder.NewIterationIsReported` | app/models/api/solution_responder.rb:60-67 | after a new iteration is appended, the summary reports its creation time |
| `SolutionResponder.SubmittedAtIsLatest` | app/models/api/solution_responder.rb:61 | when iterations are in creation order, `submitted_at` is the latest creation time |
| `ResponderScenarios.BasicDocument` | test/models/api/solution_responder_test.rb:4-29 | the owner sees the full document: my-solution URLs, global handle, `is_requester` true, no files, no iteration |
| `ResponderScenarios.OtherRequesterIsNotRequester` | test/models/api/solution_responder_test.rb:31-38 | another user is not flagged as the requester |
| `ResponderScenarios.AnonymousOwnerShowsAlias` | test/models/api/solution_responder_test.rb:40-49 | an anonymous owner is shown under the track alias |
| `ResponderScenarios.IterationIsSummarised` | test/models/api/solution_responder_test.rb:51-59 | `submitted_at` is the last iteration's creation time |
| `ResponderScenarios.MentorSeesMentorUrl` | test/models/api/solution_responder_test.rb:61-68 | a mentor asking for an unpublished solution gets the mentor URL |
| `ResponderScenarios.OwnerOfPublishedSeesMyUrl` | test/models/api/solution_responder_test.rb:70-76 | the owner of a published solution gets the my-solution URL |
| `ResponderScenarios.OthersOfPublishedSeePublicUrl` | test/models/api/solution_responder_test.rb:78-94 | any other user, mentor or not, gets the public URL of a published solution |
| `ResponderScenarios.MissingMembershipFails` | app/models/api/solution_responder.rb:33-34 | rendering fails when the owner has no membership on the track |

## Left out

- Rails routing (`url_helpers` and the memoised `routes` accessor): replaced by the pure function `Routes.Url`. It uses the `https://exercism.io/` host that the test strings show. The memoisation cannot be observed.
- ActiveRecord: associations are resolved before the call. The membership query becomes a search of `Db.userTracks` in primary-key order. `iterations.last` becomes the last element of a sequence, and the database's ordering is taken as given.
- `published?`: its time comparison lives in a model that is not part of this model, so it is the boolean field `Solution.published`.
- Timestamps are opaque integers. The whole-second truncation in the iteration test is a database precision detail.
- A `nil` requester, or a solution without a user or exercise: these are not representable, because records are plain values.
- The crash on a missing membership is modelled as the error value `MembershipNotFound`, not as an exception.
- The blog posts controller: the controller and its query are not part of this model. Its behaviour is an HTTP filter and a framework 404.
- `Routes.Url` does not percent-encode route parameters as the URL helpers do, so it matches the real URLs only for slugs and uuids made of unreserved characters.
- `Routes.UrlRoundTrip`: holds only for track and exercise slugs without '/', because the model's unencoded public URL is ambiguous for any other slug.
- `SolutionResponder.UrlRevealsView`: recovers the slugs from the URL only when they hold no '/'. `SolutionResponder.UrlKindMatchesView` states the choice of view for every slug.
