# Gerege authorizer: a verified model

A Dafny model of the authorization service of the repository: the route compiler, the
decision pipeline behind Envoy's external authorization call, the relationship store with
its account console, the login sessions, the freshness floor of the permission client, and
hot reload. Objects the code updates in place are classes, loops are loops with invariants,
and each such method is proved equal to a specification function; what the system promises
is proved about those functions, over every input and every run.

`dafny verify dfyconfig.toml` checks the whole project.

## The parts

| files | what they hold |
|---|---|
| `Wrappers`, `Text` | options, results; ASCII case folding, splitting, prefixes |
| `Config`, `Hosts`, `Routes` | the configuration document and its validation; which host starts whose login; the route compiler and matcher |
| `Specificity`, `TableOrder`, `Parameters`, `Patterns`, `Probes` | what the route table means: the ambiguity test, most specific rule, order independence, parameter round trips, captured prefixes, rules that answer nothing |
| `Schema`, `SchemaTable`, `Derivations`, `Denials` | the permission schema as an evaluator, and as a table from which the evaluator's every answer is derived; who holds nothing |
| `Store`, `History` | the relationship store and its writer; the store as a last-writer-wins function of its history |
| `Catalogue`, `Console`, `Posts` | which capabilities an agent may be given; the account console and runs of the system; what each post changes, and that an identity ends only by its operator's |
| `Sessions`, `SessionWrites` | the TTL session store and its refinement to the last word on each id |
| `Decision`, `Policy`, `Pipeline` | the decision as a function of everything outside it, the declarative policy it equals, and the procedure with its gRPC adapter |
| `Authority`, `Delegated` | properties of decisions: actor binding, monotonicity, agents below their principals, delegation and consent over whole runs |
| `Admission` | which people, system principals and agents a rule can let in at all, read off the file, and what an authentication level decides |
| `Upstream`, `Replies` | what a permit tells the service behind about the caller; what every answer looks like |
| `Logins`, `LoginFlow` | the login machine over whole runs; a login from end to end, and the session that comes of it |
| `Freshness`, `Revocation` | overlapping permission calls, and decisions over their freshness floor |
| `Reload`, `InFlight` | hot reload and the edits it misses; requests in flight, stage by stage, while configurations are swapped |
| `ConfigCheck`, `Samples`, `Documents` | the configuration cross-check and what it would have to demand; valid documents on which a promise fails |

Everything outside the service is a parameter: clock, token verifier, identity provider,
random source, session store and permission backend are arbitrary functions (`World`), so
every theorem holds for every behaviour of theirs, errors and short answer lists included.
Theorems about stored grants add that the backend answers from the store's live
relationships; theorems about logins add that the random source never repeats an id.

## Where the code and its documentation disagree

The model follows the code. Each disagreement is a lemma.

- The routes package says a parameterised pattern can never capture a static prefix
  (`services/internal/routes/routes.go:10-12`). The prefix loses every request the two
  share whenever the pattern weighs more, which takes a literal of its own, a method or a
  host the prefix lacks, or enough parameters (`TableOrder.PrefixCapturedExactly`): `/{x}/logo` takes `/static/logo` from
  `/static/*` (`Patterns.StaticLogoTaken`), and so does `GET /{x}/{y}`
  (`Patterns.ScopedParametersCapture`). A rule keeps all its requests exactly when nothing
  that meets it weighs more (`TableOrder.KeepsItsRequestsExactly`).
- `Decommission` says an agent should not still appear on an account page
  (`services/internal/spicedb/writer.go:450-453`). The page lists `granted` relationships,
  which stay, so the agent appears exactly as before (`History.DecommissionedStillAppears`).
  Its requests are refused all the same (`Delegated.DecommissionedAgentRefused`).
- Decommissioning a system principal deletes relationships on it, not the device
  relationships that name it, so no answer about devices changes
  (`History.DecommissionedDeviceKeepsAnswers`); its principal may still push telemetry
  (`History.DecommissionedDeviceStillPushes`).
- A workload may present only its own agent, and an agent only from its own workload
  (`services/internal/decision/pipeline.go:400-408`). The gate compares objects, and the
  loader does not refuse entries that share one; the exact condition on the registry is
  `Authority.ActorBindingExactly`, and `Documents.SharedObjectBreaksBinding` is a valid
  document and a permit that break it.
- An absent authentication level is said to be refused on a step-up route
  (`services/internal/oidcauth/oidcauth.go:56-58`). A negative minimum lets it through
  (`Documents.NegativeMinimumLetsIn`), and step-up is not looked at on public and
  authenticated-only rules (`Documents.UncheckedStepUpLetsIn`). When only people with a level
  get through a rule, of all callers there are, is `ConfigCheck.ClosedExactly`.
- The cross-check is said to keep sensitive capabilities enforced
  (`services/cmd/configcheck/main.go:113-119`). One guarded rule satisfies it for every other
  rule of the same capability, so a person without an authentication level gets in by the
  other rule (`Documents.AgreementIsNotEnforcement`), and so does a system principal
  (`Documents.AgreementLetsSystemsIn`); a guard on an authenticated-only rule satisfies it
  too, which lets an agent in (`Documents.AgreementLetsAgentsIn`). What it would have to
  demand, of every kind of caller, is `ConfigCheck.EnforcedExactly`. Through a
  resource-checked rule no agent uses a sensitive capability while grants are written
  through the console (`ConfigCheck.SensitiveAgentExactly`).
- The permission client says its floor gives monotonic freshness
  (`services/internal/spicedb/spicedb.go:80-86`). Overlapping calls can lower it
  (`Freshness.OverlapRegresses`); calls that do not overlap cannot
  (`Freshness.NonOverlappingNeverDecreases`), so that there a revocation one call has seen
  binds every later decision (`Revocation.RevocationBinds`).
- Hot reload says a changed document is swapped in
  (`services/cmd/ext-authz/main.go:145`). A usable edit that the file settles on
  is served exactly when its fingerprint is not the last one read, or it serves already
  (`Reload.SettledServesExactly`). A tick reads the file twice and the process reads it
  before the loop does, so an edit can leave its fingerprint without being loaded:
  `Reload.TornTickMissesExactly` and `Reload.StartMissesExactly` say exactly when, and
  `Reload.EditsMissed` gives documents for each way.
- `Get` of the session store tests for expiry under one lock and deletes under another. A
  session put in between is lost (`Sessions.LateDeletionLoses`); `Sessions.LateDeletionExactly`
  says when the order shows.
- An application's hosts are the names it serves (`services/internal/config/config.go:80-82`), and
  validation refuses a host claimed twice. It compares hosts as written, the lookup folds case and
  drops the port: `Hosts.HostsServeExactly` says when every host starts its own application's login,
  and `Hosts.FoldedHostTaken` is a valid document in which one starts another's.


## Model

| member | source | states |
|---|---|---|
| `Routes.CompileRule` | services/internal/routes/routes.go:61-116 | the compile loop over hosts, methods and path pieces yields the pattern, wildcard bit and score of the rule, or the error for an empty parameter or a stray brace |
| `Routes.TrimPattern` | services/internal/routes/routes.go:70-80 | the path without its trailing slash and its wildcard piece, and whether it had one |
| `Routes.ParsePieces` | services/internal/routes/routes.go:82-113 | the segment loop yields the parsed segments and the sum of their weights, or the first malformed piece |
| `Routes.Intersects` | services/internal/routes/routes.go:157-179 | two host or method sets overlap: an empty one means any |
| `Routes.Overlaps` | services/internal/routes/routes.go:134-155 | the overlap loop decides the syntactic overlap relation |
| `Routes.SplitIntoParts` | services/internal/routes/routes.go:207-215 | the path loop yields the non-empty pieces between slashes |
| `Routes.MatchSegments` | services/internal/routes/routes.go:217-236 | the segment loop accepts exactly the parts the pattern accepts and extracts the parameters, later names overwriting earlier ones |
| `Routes.Insert` | services/internal/routes/routes.go:51-54 | insertion below everything that scores at least as much |
| `Routes.SortStable` | services/internal/routes/routes.go:51-54 | the stable descending sort |
| `Routes.Table.AppendAll` | services/internal/routes/routes.go:43-50 | compiles and appends every rule, or stops at the first malformed one with its error |
| `Routes.Table.SortByScore` | services/internal/routes/routes.go:51-54 | the table is sorted in place to the stable descending order |
| `Routes.Table.CheckAmbiguity` | services/internal/routes/routes.go:118-132 | no error exactly when no two entries conflict; an error names a conflicting pair and its score |
| `Routes.Table.Match` | services/internal/routes/routes.go:183-205 | the linear scan answers with the first entry that serves the request |
| `Routes.Compile` | services/internal/routes/routes.go:43-59 | success installs the sorted, conflict-free table of all the rules; failure means no such table exists, and reports the first malformed rule or else a conflicting pair |
| `Specificity.RenderSplits` | services/internal/routes/routes.go:207-215 | splitting a rendered path gives its parts back |
| `Specificity.RequestPartsClean` | services/internal/routes/routes.go:207-215 | no part of a request path holds a slash, a query or fragment mark, or is empty |
| `Specificity.BuiltRequest` | services/internal/routes/routes.go:183-205 | a request built from clean parts is served exactly when host, method and parts are in scope |
| `Specificity.CompiledIsCanonical` | services/internal/routes/routes.go:61-116 | what compilation produces carries the score its pattern weighs and lower- or upper-cased scopes |
| `Specificity.SegmentsScoreParity` | services/internal/routes/routes.go:82-113 | segments weigh multiples of ten |
| `Specificity.EqualScoresEqualWildcards` | services/internal/routes/routes.go:61-132 | equal scores imply equal wildcard bits |
| `Specificity.SharingImpliesOverlap` | services/internal/routes/routes.go:134-155 | two patterns that serve a common request always overlap |
| `Specificity.ServingIsReachable` | services/internal/routes/routes.go:183-236 | a pattern that serves some request has no query or fragment mark in a literal |
| `Specificity.OverlapExact` | services/internal/routes/routes.go:134-155 | for any two compiled rules: a common request exists exactly when the overlap test fires, neither wildcard overreaches, a common host can be asked for, and the literals can occur in a path; the witness is constructed |
| `Specificity.AmbiguityExact` | services/internal/routes/routes.go:118-155 | at equal score, for well-formed rules, the load-time test fires exactly on pairs that share a request |
| `Specificity.OverreachExists` | services/internal/routes/routes.go:136-146 | without the score test the overlap relation does over-report |
| `TableOrder.SortIsStable` | services/internal/routes/routes.go:51-54 | rules of one score keep their file order |
| `TableOrder.SortedTable` | services/internal/routes/routes.go:51-54 | the sorted table is descending and a permutation of its input |
| `TableOrder.CompileAllPermutes` | services/internal/routes/routes.go:43-50 | a permuted rule list compiles to a permutation, and fails exactly when the original does |
| `TableOrder.FirstMatchIs` | services/internal/routes/routes.go:191-204 | the answer is the first entry that serves, with its parameters, and none when none serves |
| `TableOrder.FirstIsBest` | services/internal/routes/routes.go:183-205 | in a sorted conflict-free table the first entry that serves scores strictly more than every other that serves |
| `TableOrder.MatchIsUniqueBest` | services/internal/routes/routes.go:43-59 | after a successful compile, for every request, the answer is the unique serving rule of greatest score |
| `TableOrder.TableHolds` | services/internal/routes/routes.go:43-50 | the table holds every rule of the file and nothing else |
| `TableOrder.EntriesToldApart` | services/internal/routes/routes.go:118-132 | under the distinct rule ids that validation demands, any two entries of a table have different ids, so an ambiguity error names two rules |
| `TableOrder.OrderIndependent` | services/internal/routes/routes.go:43-59 | permuting the rule list changes neither whether it compiles nor any answer |
| `TableOrder.SameAnswer` | services/internal/routes/routes.go:183-205 | two sorted conflict-free tables of the same rules answer every request alike |
| `TableOrder.InclusionRefines` | services/internal/routes/routes.go:134-236 | if every request of one pattern is a request of another, the first is a structural refinement of the second |
| `TableOrder.SegmentsDominate` | services/internal/routes/routes.go:82-113 | a longer, more literal pattern weighs at least as much |
| `TableOrder.MostSpecificWins` | services/internal/routes/routes.go:3-16 | if every request of rule x is a request of a different rule y, x scores more and y never answers a request of x |
| `TableOrder.CompiledWeighs` | services/internal/routes/routes.go:61-116 | the score is what the rule weighs as written: scopes, literals, parameters, wildcard |
| `TableOrder.PrefixCapturedExactly` | services/internal/routes/routes.go:10-12 | any parameterised pattern that shares a request with any static prefix comes before it, and takes that request from it, exactly when 10000 for hosts, 1000 for methods, 100 a literal, 10 a parameter, less 5 for a wildcard, add up to more; the package comment says never |
| `TableOrder.KeepsItsRequestsExactly` | services/internal/routes/routes.go:43-59 | any rule of a compiled table answers all its own requests exactly when no other rule that can share a request with it weighs more |
| `Probes.AliveExactly` | services/internal/routes/routes.go:183-236 | a rule of a compiled table answers some request if and only if it answers one of finitely many probes made of the table's own hosts, methods and literals and one name it does not mention |
| `Patterns.WrittenPatternCompiles` | services/internal/routes/routes.go:61-116 | a pattern compiles to the segments it writes |
| `Patterns.OneParameterCaptures` | services/internal/routes/routes.go:10-12 | for any directory and file name: a file of two rules that compiles and in which one parameter and one literal take the file from the rule of its directory |
| `Patterns.ScopedParametersCapture` | services/internal/routes/routes.go:10-12 | likewise two parameters and a method |
| `Patterns.StaticLogoTaken` | services/internal/routes/routes.go:10-12 | among them /static/logo, answered by /{x}/logo although /static/* is there |
| `Parameters.RoundTripExactly` | services/internal/routes/routes.go:217-236 | a pattern's extracted parameters rebuild every path it matches if and only if its parameter names are distinct |
| `Parameters.MatchedPathRebuilds` | services/internal/routes/routes.go:183-236 | for a matched rule the segments refilled with the parameters are the request's parts: all of them, or the prefix a wildcard covers |
| `Parameters.PathSpelling` | services/internal/routes/routes.go:207-215 | query, fragment, repeated and trailing slashes add no part |
| `Parameters.HostIgnoresPort` | services/internal/routes/routes.go:183-184 | the port is not part of the host that is matched |
| `Parameters.MatchReadsNormalForm` | services/internal/routes/routes.go:183-205 | two requests with one normal form get one answer |
| `Parameters.AnswerIgnoresSpelling` | services/internal/routes/routes.go:183-236 | the answer does not depend on host port, letter case of host and method, query, fragment, repeated or trailing slash |
| `Schema.HoldsMonotone` | spicedb/schema.zed:41-199 | more relationships never take a permission away |
| `Schema.LockImpliesOperateImpliesView` | spicedb/schema.zed:99-118 | for every set of relationships, operating a lock implies operating the device implies viewing it |
| `SchemaTable.RelationsAgree` | spicedb/schema.zed:41-199 | the evaluator knows exactly the relations of the schema's table, with their subject types |
| `SchemaTable.PermissionsAgree` | spicedb/schema.zed:41-199 | and answers exactly the permissions the table has terms for |
| `Derivations.HoldsExactly` | spicedb/schema.zed:41-199 | for every question: the evaluator says yes if and only if there is a derivation, a chain of live relationships each allowed at its place by the table of relations, unions and arrows |
| `Authority.BulkAnswersExactly` | services/internal/spicedb/spicedb.go:121-172 | a bulk check answers all its questions or none, each with a yes exactly when derivable |
| `Denials.LockExactly` | spicedb/schema.zed:110-114 | a lock opens to the device's operators and the owners of its home, and to nobody else |
| `Denials.StrangerHoldsNothing` | spicedb/validation.yaml:97-104 | whoever no live relationship names holds nothing |
| `Denials.GuestOnlyViews` | spicedb/validation.yaml:106-110 | whoever is named only as a guest holds nothing but viewing homes and their devices |
| `Denials.ResidentNeverUnlocks` | spicedb/validation.yaml:112-114 | whoever is named only as resident or guest views and operates, and opens no lock |
| `Denials.ReaderOnlyViews` | spicedb/validation.yaml:116-117 | whoever is named only as a reader views profiles and edits nothing |
| `Schema.TimeOnlyExpires` | spicedb/schema.zed:57-72 | waiting only removes live relationships |
| `Config.AgentByWorkload` | services/internal/config/config.go:336-346 | the first agent bound to a non-empty workload id |
| `Config.AgentByClient` | services/internal/config/config.go:349-356 | the first agent of that client name |
| `Config.AppByName` | services/internal/config/config.go:359-366 | the first application of that name |
| `Config.AppForHost` | services/internal/config/config.go:323-333 | the first application that lists the host, port and case aside |
| `Config.Document.Validate` | services/internal/config/config.go:215-320 | succeeds exactly on valid documents, and then has written exactly the defaults |
| `Config.ClaimHosts` | services/internal/config/config.go:241-256 | an application's hosts are claimed unless one is already claimed |
| `Config.ValidateApplications` | services/internal/config/config.go:241-256 | every application is well formed and no host is claimed twice |
| `Config.ValidateRule` | services/internal/config/config.go:257-318 | a rule is accepted exactly when well formed, with its defaults written in |
| `Config.ValidateRules` | services/internal/config/config.go:257-319 | all rules well formed with distinct ids, defaults written in |
| `Config.NormalisedIsFixpoint` | services/internal/config/config.go:215-320 | validating a validated document succeeds and changes nothing |
| `Config.DefaultsAre` | services/internal/config/config.go:223-313 | loading fills in eight hours, ten minutes, three seconds, either mode, the freshness floor and a minimum level of one, where the document is silent, and changes nothing else |
| `Config.NormalisedIsComplete` | services/internal/config/config.go:223-313 | what everything else relies on holds of a loaded document: positive durations, names, denial by default, and rules with a name, a path from the root, one purpose, a mode, a consistency and, where it is looked at, a minimum |
| `Hosts.HostsServeExactly` | services/internal/config/config.go:322-334 | every listed host starts its own application's login if and only if hosts are also listed without port and no earlier application lists one in other letter case |
| `Hosts.ValidHostsServe` | services/internal/config/config.go:242-255 | what validation checks suffices for hosts in lower case without port |
| `Hosts.FoldedHostTaken` | services/internal/config/config.go:250-253 | a valid document in which a listed host starts another application's login |
| `Store.Database.Write` | services/internal/spicedb/writer.go:193-210 | a touch upserts, a delete removes, in order |
| `Store.Database.DeleteMatching` | services/internal/spicedb/writer.go:436-466 | removes exactly what the filter selects |
| `Store.Database.Read` | services/internal/spicedb/writer.go:120-131 | streams each live relationship the filter selects once |
| `Store.ApplicationOf` | services/internal/spicedb/writer.go:157-164 | the part of a grant id after its last separator |
| `Store.PartyOfPair` | services/internal/spicedb/writer.go:155-164 | reading the party back out of an id is exact if and only if the party name has no separator |
| `Store.PrefixNamesUser` | services/internal/spicedb/writer.go:126-126 | the listing prefix selects one user's ids only, for separate user ids |
| `Store.PairIdsCollideExactly` | services/internal/spicedb/writer.go:155-155 | two users' grant ids can collide exactly when one user id continues the other after a separator |
| `Store.PairIdInjective` | services/internal/spicedb/writer.go:155-155 | for separate users the id determines user and party |
| `Store.PipeFreeSeparate` | services/internal/spicedb/writer.go:150-155 | ids without the separator are separate |
| `Store.Writer.Grant` | services/internal/spicedb/writer.go:59-75 | refuses an empty list; otherwise touches the grant's relationships, all or none |
| `Store.Writer.Revoke` | services/internal/spicedb/writer.go:82-111 | deletes the named capabilities, or the whole grant when none is named |
| `Store.Writer.Delegate` | services/internal/spicedb/writer.go:227-253 | refuses an empty list or a duration that is not positive; otherwise the expiring relationships and the time they end |
| `Store.Writer.Undelegate` | services/internal/spicedb/writer.go:260-293 | deletes the named capabilities, or the whole delegation when none is named |
| `Store.Writer.Decommission` | services/internal/spicedb/writer.go:436-468 | two deletions for an agent, one otherwise; a failed second one leaves the first in place |
| `Store.Writer.Check` | services/internal/spicedb/writer.go:394-428 | a fully consistent answer from the live relationships, none when unreachable |
| `Store.Writer.EnrolledFor` | services/internal/spicedb/writer.go:394-409 | whether the agent is enrolled for the user now |
| `Store.Writer.Operates` | services/internal/spicedb/writer.go:413-428 | whether the user administers the device or agent now |
| `Store.Writer.List` | services/internal/spicedb/writer.go:298-346 | the user's live delegations grouped by party, each party once, each capability with its expiry |
| `History.WriteFollowsVerdict` | services/internal/spicedb/writer.go:59-293 | one write changes a capability's standing as its verdict says, and leaves every other pair's alone |
| `History.StoreEqualsHistory` | services/internal/spicedb/writer.go:59-293 | after any sequence of writes a capability's standing is the last writer's word |
| `History.AnswerEqualsHistory` | spicedb/schema.zed:63-72 | the backend's answer to "includes" is the last word, if still running |
| `History.LastWordExists` | services/internal/spicedb/writer.go:59-293 | a standing grant has a write in the history that made it and none after it that speaks of it |
| `History.LastWordDecides` | services/internal/spicedb/writer.go:59-293 | a write that speaks of a grant, with none after it that does, decides its standing |
| `History.RegrantIsIdempotent` | services/internal/spicedb/writer.go:53-75 | granting again changes nothing |
| `History.PageAgreesWithAnswers` | services/internal/spicedb/writer.go:113-148 | the page shows a grant exactly when the next request would honour it |
| `History.WellNamedKept` | services/internal/spicedb/writer.go:59-293 | the naming the page relies on is kept by every write |
| `History.DecommissionEndsEnrolment` | services/internal/spicedb/writer.go:436-450 | no enrolment of the agent survives, even if the second deletion fails |
| `History.DecommissionedStillAppears` | services/internal/spicedb/writer.go:450-463 | a decommissioned agent appears on the page exactly as before; the comment promises it does not |
| `History.DecommissionedShownExample` | services/internal/spicedb/writer.go:450-463 | a run in which the promise fails |
| `History.DecommissionedDeviceKeepsAnswers` | services/internal/spicedb/writer.go:436-448 | decommissioning a system principal changes no answer about devices |
| `History.DecommissionedDeviceStillPushes` | services/internal/spicedb/writer.go:430-448 | a store in which the principal of a decommissioned device is still answered yes for pushing telemetry |
| `Catalogue.Validate` | services/internal/catalogue/catalogue.go:70-105 | succeeds exactly on valid catalogues |
| `Catalogue.ValidateCapabilities` | services/internal/catalogue/catalogue.go:70-88 | capability ids are present and distinct |
| `Catalogue.ValidateParties` | services/internal/catalogue/catalogue.go:89-104 | every requested capability is declared |
| `Catalogue.SensitiveExactly` | services/internal/catalogue/catalogue.go:118-125 | in a valid catalogue the lookup finds exactly the marked capabilities |
| `Catalogue.Delegatable` | services/internal/catalogue/catalogue.go:172-185 | the loop splits what an agent requests into offered and refused, in order |
| `Catalogue.AllowedExactly` | services/internal/catalogue/catalogue.go:166-185 | a capability is offered exactly when the first agent entry of that name requests it and no entry marks it sensitive |
| `Console.AllWithin` | services/cmd/account-app/main.go:330-338 | every posted capability is among those allowed |
| `Console.AccountApp.HandleGrant` | services/cmd/account-app/main.go:474-505 | the guards of the handler, its one write and its status |
| `Console.AccountApp.HandleRevoke` | services/cmd/account-app/main.go:507-529 | the guards of the handler, its one write and its status |
| `Console.AccountApp.HandleCreateDelegation` | services/cmd/account-app/main.go:314-377 | the guards in order (form, catalogue, enrolment), the duration, the write and the status |
| `Console.AccountApp.HandleWithdrawDelegation` | services/cmd/account-app/main.go:379-401 | the guards of the handler, its one write and its status |
| `Console.AccountApp.HandleDecommission` | services/cmd/account-app/main.go:414-453 | the guards in order (kind, operator), the write and the status; who may post it and what it leaves are `Posts.IdentityNeedsOperator` and `Posts.OperatorEndsIdentity` |
| `Console.EffectiveTtlBounded` | services/cmd/account-app/main.go:339-342 | every delegation lasts a positive time of at most the longer of a day and the catalogue's first duration |
| `Posts.AcceptedExactly` | services/cmd/account-app/main.go:314-530 | each console post is accepted if and only if it is complete and the backend answers; a delegation needs enrolment, and capabilities the agent requests that are not sensitive; a decommission needs the poster's live `operator` relationship on that identity |
| `Posts.GrantWritesExactly` | services/internal/spicedb/writer.go:59-80 | what an accepted consent changes, relationship by relationship, and that nothing else moves |
| `Posts.DelegationWritesExactly` | services/internal/spicedb/writer.go:227-258 | what an accepted delegation changes: capabilities until the chosen duration of at most a day ends, or the catalogue's first, both ends without end, and nothing else |
| `Posts.WithdrawalWritesExactly` | services/internal/spicedb/writer.go:82-110 | what an accepted withdrawal changes: the named capabilities, or the whole grant when none is named, and nothing else |
| `Posts.OperatorEndsIdentity` | services/internal/spicedb/writer.go:436-468 | an operator's post leaves no relationship of the identity and none that delegates to it, unless the backend is lost in between, and moves nothing else |
| `Posts.DecommissionNeedsOperator` | services/cmd/account-app/main.go:434-444 | whatever a decommission post changes, accepted or cut short, is the identity's, and the poster held `operator` on that very identity just before |
| `Posts.IdentityNeedsOperator` | services/cmd/account-app/main.go:405-413 | any post that changes a relationship on an agent or a system principal is its decommission by its operator |
| `Posts.DelegateNeedsOperator` | services/cmd/account-app/main.go:405-413 | the relationship of a delegation to its agent ends by that, or by a post of the delegation's own user |
| `Posts.IdentityEndsByOperator` | services/cmd/account-app/main.go:405-413 | over every run: what no other writer touched on an agent or a system principal changes only by a decommission posted by somebody who operated it just before |
| `Console.PostChangesItsOwn` | services/cmd/account-app/main.go:314-529 | a post that succeeds changes the poster's own grants and only what its action names; any other grant of any user stays as it was |
| `Console.RefusedWritesExactly` | services/cmd/account-app/main.go:314-529 | a post that does not succeed writes nothing, except an agent's decommission cut short between its two deletions |
| `Console.DelegatingWritesBounded` | services/cmd/account-app/main.go:330-363 | an accepted delegation holds no sensitive capability and ends within the longest duration |
| `Console.RunFollowsLog` | services/cmd/account-app/main.go:314-529 | the store after a run is the store after the log of its writes |
| `Console.LogAt` | services/cmd/account-app/main.go:314-529 | each entry of the log is what that event wrote in the state it met |
| `Console.RunsStayBounded` | services/cmd/account-app/main.go:330-363 | no run ever delegates a sensitive capability or makes a delegation without an end |
| `Console.LiveDelegationHasWitness` | services/cmd/account-app/main.go:314-377 | a live delegation was made in the run by that very user, for that agent and capability, is the latest word and has not lapsed |
| `Console.WordAtDecides` | services/internal/spicedb/writer.go:59-293 | the event with the last word on a capability decides what the store holds |
| `Console.DelegationLiveExactly` | services/cmd/account-app/main.go:314-401 | a delegation is live exactly when the run holds such a witness |
| `Console.ConsentLiveExactly` | services/cmd/account-app/main.go:474-529 | consent is live exactly when that very user gave it in the run and has not withdrawn it since |
| `Console.DecommissionUnenrols` | services/cmd/account-app/main.go:414-453 | an accepted decommission leaves the agent unenrolled |
| `Console.DecommissionIsFinal` | services/internal/spicedb/writer.go:436-468 | it stays so in every continuation until somebody enrols it again |
| `Sessions.MemStore.Put` | services/internal/session/session.go:101-111 | keeps its own stamped copy, independent of the caller's |
| `Sessions.MemStore.Get` | services/internal/session/session.go:113-128 | a fresh copy of the live session or nothing, dropping an expired one in the same step |
| `Sessions.LateDeletionExactly` | services/internal/session/session.go:113-128 | with other operations between the expiry test and the deletion, the deletion is invisible exactly when no live session is under the id by then, and one is there only if it was put in between |
| `Sessions.LateDeletionLoses` | services/internal/session/session.go:113-128 | a session put between the test and the deletion of an expired one: live, and then lost |
| `Sessions.MemStore.Delete` | services/internal/session/session.go:130-135 | removes the entry |
| `Sessions.MemStore.Reap` | services/internal/session/session.go:82-95 | removes exactly the expired entries |
| `Sessions.RunAgrees` | services/internal/session/session.go:82-135 | under a monotone clock the data agrees with the last word on each id, up to forgotten expired ones |
| `Sessions.TtlStoreRefines` | services/internal/session/session.go:82-135 | a lookup succeeds exactly when the last put has not passed its time and no delete followed |
| `Sessions.ReapingIsInvisible` | services/internal/session/session.go:82-95 | leaving out the reaper and the lazy deletions changes no answer |
| `SessionWrites.MadeForgets` | services/internal/session/session.go:82-135 | forgetting expired sessions before some writes is invisible after them |
| `SessionWrites.ForgetsLooksTheSame` | services/internal/session/session.go:113-128 | no lookup can tell a store that has forgotten expired sessions |
| `Decision.FromClaims` | services/internal/decision/identity.go:126-175 | identification of a verified token never permits, and the caller keeps the token it presented |
| `Decision.FromSession` | services/internal/decision/identity.go:111-121 | a caller known by session is known by that session's current, verified access token |
| `Decision.Redeem` | services/internal/decision/identity.go:238-312 | no outcome of a callback is a permit |
| `Pipeline.NewSnapshot` | services/internal/decision/pipeline.go:95-101 | a snapshot is made exactly when the rules compile, with the table its own rules compile to |
| `Pipeline.Pipeline.Swap` | services/internal/decision/pipeline.go:130-135 | installs a compiled snapshot |
| `Pipeline.Pipeline.BeginLogin` | services/internal/decision/identity.go:182-221 | keeps one pending session under the drawn id and redirects with the drawn state and nonce |
| `Pipeline.Pipeline.IdentifyCaller` | services/internal/decision/identity.go:47-122 | the identity stage of the decision, with the session writes it lists made on the store |
| `Pipeline.Pipeline.IdentifySession` | services/internal/decision/identity.go:72-122 | the session branch: lookup, refresh of a stale token, verification, or a new login |
| `Pipeline.Pipeline.IdentifyLive` | services/internal/decision/identity.go:83-109 | renews a stale session by changing it in place and keeping it again; drops one whose refresh fails |
| `Pipeline.Pipeline.Resume` | services/internal/decision/identity.go:111-121 | drops a session whose access token no longer verifies |
| `Pipeline.Pipeline.Callback` | services/internal/decision/identity.go:223-312 | the callback's guards in order, against the live session of the cookie |
| `Pipeline.Pipeline.CompleteLogin` | services/internal/decision/identity.go:238-312 | state, exchange, nonce, token, then the session replaced; what it keeps is `LoginFlow.CallbackKeepsTokens` |
| `Pipeline.Pipeline.ReplaceSession` | services/internal/decision/identity.go:278-300 | the pending session goes and the authenticated one comes under a new id |
| `Pipeline.Pipeline.Logout` | services/internal/decision/identity.go:314-335 | the cookie's session is dropped and the identity provider's session ended |
| `Pipeline.Pipeline.AskBackend` | services/internal/decision/pipeline.go:258-337 | the plan built by appending, asked in one bulk call; which questions it holds is `Authority.PlanAsksExactly`, when consent is one of them `Authority.ConsentAskedExactly` |
| `Pipeline.Pipeline.ScanAnswers` | services/internal/decision/pipeline.go:341-364 | the loop over outcomes: first refusal, permit, or a panic past the end of the answers |
| `Pipeline.Pipeline.Decided` | services/internal/decision/pipeline.go:207-252 | the gates in order: binding, route, workload, authenticated-only, step-up, resource, questions; which gate refuses when is `Authority.RefusalsNameTheirGate`, what a permit carries `Upstream.UpstreamLearnsCaller` |
| `Pipeline.Pipeline.CheckFound` | services/internal/decision/pipeline.go:180-196 | public permits before identity; otherwise identity first |
| `Pipeline.Pipeline.Check` | services/internal/decision/pipeline.go:166-365 | the whole procedure on the installed snapshot and the store's live sessions is the decision function, and the store holds its writes with at most expired sessions forgotten |
| `Pipeline.LowerHeaders` | services/internal/extauthz/server.go:54-57 | every header is found under its lower-case name, with the value of one of the names that fold to it |
| `Pipeline.Server.Check` | services/internal/extauthz/server.go:36-89 | a request without HTTP attributes is denied; otherwise the answer is OK exactly when the policy of the installed configuration allows the request |
| `Pipeline.OkExactlyPolicy` | services/internal/extauthz/server.go:36-89 | for every configuration, request and behaviour of verifier, session store and backend, OK if and only if the policy allows |
| `Policy.PermitsExactlyPolicy` | services/internal/decision/pipeline.go:166-365 | a permit with given upstream headers is decided if and only if the declarative policy allows it with those headers |
| `Policy.ScanPermits` | services/internal/decision/pipeline.go:341-364 | the scan permits exactly on as many plain yeses as there were questions |
| `Policy.ScanStopsAtFirst` | services/internal/decision/pipeline.go:341-361 | the first answer that is not a plain yes gives the refusal |
| `Policy.AskPermits` | services/internal/decision/pipeline.go:258-364 | asking permits exactly when every planned question is answered with a plain yes |
| `Policy.IdentifyKnows` | services/internal/decision/identity.go:47-122 | a caller is identified exactly when authenticated by a verified bearer token or by a live session with a current token |
| `Policy.BindingPasses` | services/internal/decision/pipeline.go:409-432 | the binding gate passes exactly the bound callers |
| `Policy.DecideForPermits` | services/internal/decision/pipeline.go:207-365 | the gates permit exactly what the policy for that identity allows |
| `Policy.PanicsExactly` | services/internal/decision/pipeline.go:341-342 | the scan runs off the end exactly on too few answers, all of them yes |
| `Policy.NeverPanics` | services/internal/decision/pipeline.go:332-364 | with a backend that answers each question or none, no decision panics |
| `Authority.PlanAsksExactly` | services/internal/decision/pipeline.go:258-325 | exactly the required questions are asked, one to three of them: the permission; consent, when the rule requires it of a person whose application is not first-party; enrolment and delegation of an agent |
| `Authority.ConsentAskedExactly` | services/internal/decision/pipeline.go:475-486 | a question about a capability of a consent grant is asked if and only if the rule requires consent, a person calls, and the first application of that name is not first-party |
| `Authority.LoadedQuestionsAreNamed` | services/internal/config/config.go:278-311 | under a loaded configuration no question and no step-up challenge is without a resource type, a permission or a capability |
| `Authority.RefusalsDiagnoseExactly` | services/internal/decision/pipeline.go:341-361 | each refusal is given exactly when its question is the first one not answered yes; consent or delegation is asked for only when everything before it holds |
| `Authority.RefusalsNameTheirGate` | services/internal/decision/pipeline.go:205-252 | each gate before the backend refuses in its own name exactly when it is the first that fails, step-up with the capability and level it wants |
| `Authority.PathNamesItsSegment` | services/internal/decision/pipeline.go:553-568 | a path rule asks about exactly the request segment its parameter stands for |
| `Authority.StoreAnswersBulk` | spicedb/schema.zed:41-199 | bulk answers from the store come for all questions or none; each is a yes exactly when the table of the schema derives it, and a no otherwise |
| `Authority.ActorBindingExactly` | services/internal/decision/pipeline.go:400-432 | each half of the binding holds for every obtainable identity if and only if the registry shares no object between the entries concerned |
| `Authority.DistinctAgentsAreHeld` | services/internal/config/config.go:336-356 | agents with distinct names and objects satisfy both halves |
| `Authority.PermitsAreBound` | services/internal/decision/pipeline.go:400-432 | a permit on a rule that is not public, from a workload bound to an agent, presents exactly that agent, and a bound agent is presented only from its workload |
| `Authority.AgentNeverExceedsPrincipal` | services/internal/decision/pipeline.go:258-286 | whatever an agent is permitted for a person, the same request carried by that person's first-party token from a registered unbound caller is permitted |
| `Authority.PermitsAreMonotone` | services/internal/decision/pipeline.go:258-364 | a backend that says yes at least as often keeps every permit |
| `Authority.StoreDecisionsMonotone` | spicedb/schema.zed:76-118 | adding relationships never turns a permit into a denial; deleting them or waiting never the reverse |
| `Authority.AgentPermitRests` | services/internal/decision/pipeline.go:288-326 | an agent's permit rests on no step-up, enrolment, delegation of the rule's capability and the person's own permission |
| `Authority.PermitsExactlyTheEntitled` | services/internal/decision/pipeline.go:207-365 | on a resource-checked rule an identified caller is permitted if and only if bound, from a registered workload, past step-up, with a resolved resource and every required question answered yes by the store |
| `Delegated.AgentPermittedExactly` | services/internal/decision/pipeline.go:288-365 | over every run of console posts, other writers, ticks and requests: an agent asking for a rule with a capability is permitted if and only if that very user delegated the capability to it in the run, as the latest word and not lapsed, it is enrolled, the user holds the permission, and binding, callers and step-up are met |
| `Delegated.SensitiveStaysOutOfReach` | services/internal/catalogue/catalogue.go:172-185 | over every run: no agent exercises a capability marked sensitive on any resource-checked rule, and every delegation in use ends within the longest duration |
| `Delegated.UnenrolledRefused` | services/internal/decision/pipeline.go:288-306 | an agent nobody enrolled is permitted nothing that is resource-checked |
| `Delegated.DecommissionedAgentRefused` | services/internal/spicedb/writer.go:436-468 | after an accepted decommission and until a new enrolment, the agent is refused on every resource-checked rule |
| `Delegated.AppPermittedExactly` | services/internal/decision/pipeline.go:270-286 | over every run: on a rule that requires consent, a person's request through a registered application that is not first-party is permitted if and only if that very person gave the consent in the run and has not withdrawn it, and the rest of the rule is met |
| `Delegated.PersonPermittedExactly` | services/internal/decision/pipeline.go:475-486 | where no consent is required, or the application is first-party, a person is permitted if and only if the rest of the rule is met |
| `Upstream.TokenNamesCaller` | services/internal/decision/identity.go:124-175 | whom a verified token stands for: an agent for its subject, a system as its registered principal, an application for its subject, and nobody else |
| `Upstream.ForwardedReadsTheSame` | services/internal/extauthz/server.go:119-133 | dropping empty header values changes nothing a reader sees |
| `Upstream.UpstreamLearnsCaller` | services/internal/decision/pipeline.go:365-381 | every permit on a rule that is not public carries, in the gRPC answer, the id of the subject that the backend was asked about and said yes to, which the verified token stands for; its display name; the client of the token; and the very token, after `Bearer ` |
| `Upstream.PublicNamesNobody` | services/internal/decision/pipeline.go:186-188 | a permit on a public rule names no caller |
| `Replies.EveryAnswerIsKnown` | services/internal/extauthz/server.go:68-117 | every decision is answered with 200, 302, 400, 401, 403 or, after a panic, 500, as its outcome says, and OK for a permit alone |
| `Logins.DecisionKeeps` | services/internal/decision/identity.go:47-312 | whatever a request keeps is a new pending session, a renewed one or a completed login |
| `Logins.SessionsAreAccountedFor` | services/internal/decision/identity.go:200-312 | in every reachable state an authenticated session has no state left and comes from a callback whose state was that of a live pending session begun earlier and whose code, nonce and token checked out |
| `Logins.StoredIdsWereDrawn` | services/internal/decision/identity.go:184-213 | every stored session is under its own id, drawn at an earlier step |
| `Logins.GoneForGood` | services/internal/decision/identity.go:278-284 | an id that left the store never comes back |
| `Logins.PendingStaysPending` | services/internal/decision/identity.go:278-300 | no id goes from pending to authenticated, and a pending session never changes |
| `Logins.CallbackBelongsToItsLogin` | services/internal/decision/identity.go:231-246 | a successful callback presents the session id and the state drawn together at one earlier step, within its time limit |
| `Logins.OneLoginPerSession` | services/internal/decision/identity.go:278-300 | each pending session yields at most one login |
| `Logins.LogoutIsFinal` | services/internal/decision/identity.go:314-335 | with atomic requests, a session that was logged out never comes back |
| `Logins.PermitRestsOnLogin` | services/internal/decision/identity.go:72-122 | a permit that rests on the cookie rests on a completed login |
| `LoginFlow.SentToLoginExactly` | services/internal/decision/identity.go:177-221 | a browser asking for a page of some application's host is sent to log in, everybody else is told 401 |
| `LoginFlow.LoginBegins` | services/internal/decision/identity.go:182-221 | the redirect carries the state, nonce and verifier of the session kept, its cookie that session's id; the session keeps the address first asked for |
| `LoginFlow.CallbackSucceedsExactly` | services/internal/decision/identity.go:223-312 | a callback logs its caller in if and only if the provider reports no error and state, code exchange, nonce and token all check out for the session under its cookie |
| `LoginFlow.CallbackKeepsTokens` | services/internal/decision/identity.go:287-312 | what it keeps and answers: the access, refresh and ID token exchanged, their expiry, the verified subject, under the id of the cookie it sets |
| `LoginFlow.ReturnLogsIn` | services/internal/decision/identity.go:182-312 | two requests: a browser sent to log in that returns in time with its cookie, state and code, exchanged for the client, address and verifier it was sent with, is logged in and sent back to where it first wanted to go |
| `LoginFlow.LoginIsUsable` | services/internal/decision/identity.go:71-122 | two requests: after a successful callback, the next request with the cookie it set, while session and token last, is identified by that very token, as whoever it stands for, and writes nothing |
| `LoginFlow.SessionTokenIsCurrent` | services/internal/decision/identity.go:84-108 | a caller known by the cookie brings a token good for fifteen more seconds, or one just renewed |
| `LoginFlow.FailedSessionIsGone` | services/internal/decision/identity.go:91-116 | a session whose token the provider will not renew, or the verifier refuses, is gone afterwards and its caller not known |
| `LoginFlow.TokensAreIssued` | services/internal/decision/identity.go:84-297 | in every reachable state the tokens and expiry of an authenticated session are what the provider handed out at its login or at a renewal with the refresh token it then held |
| `LoginFlow.CookieNamesItsLogin` | services/internal/decision/identity.go:278-312 | in every later state that holds a session under the cookie a callback set, that session is that callback's login |
| `LoginFlow.LogoutEndsItsLogin` | services/internal/decision/identity.go:314-335 | a logout hands the provider the ID token of the very login behind the session |
| `Freshness.Client.Observe` | services/internal/spicedb/spicedb.go:174-181 | an empty token is ignored, any other overwrites |
| `Freshness.Client.Consistency` | services/internal/spicedb/spicedb.go:183-197 | full consistency when asked for or while no token is known, otherwise the floor |
| `Freshness.Client.CheckBulk` | services/internal/spicedb/spicedb.go:121-172 | answers in the order of the questions or none; the token is kept even when the reply answers nothing |
| `Freshness.Client.Translate` | services/internal/spicedb/spicedb.go:153-171 | a wrong length or an item in error answers nothing; only a plain permission is a yes |
| `Freshness.NextSound` | services/internal/spicedb/spicedb.go:121-197 | each step keeps: the floor is a revision some call observed, and every answer respects its own floor |
| `Freshness.RunsAreSound` | services/internal/spicedb/spicedb.go:121-197 | so does every run, under any overlap |
| `Freshness.FloorHolds` | services/internal/spicedb/spicedb.go:174-197 | while only later-begun calls observe, the floor stays at or above what was observed |
| `Freshness.BegunAfterIsFresh` | services/internal/spicedb/spicedb.go:174-197 | a call begun after an observation, with nothing older observed in between, is answered at no older revision |
| `Freshness.AnswersNoOlder` | services/internal/spicedb/spicedb.go:183-197 | a call is answered at no revision older than the newest at its start or, when it takes the floor, than the floor |
| `Freshness.AnswersAnyAllowed` | services/internal/spicedb/spicedb.go:183-197 | and may be answered at every revision in between, or must be at the newest |
| `Freshness.NonOverlappingNeverDecreases` | services/internal/spicedb/spicedb.go:82-86 | calls that do not overlap are answered at revisions that never decrease |
| `Freshness.NextAnswerRegressesExactly` | services/internal/spicedb/spicedb.go:174-197 | the next call may be answered below a revision already observed exactly when it takes the floor and the floor is below it |
| `Freshness.OverlapRegresses` | services/internal/spicedb/spicedb.go:82-86 | a run of overlapping calls in which a later call is answered at an older revision; the comment promises monotonic freshness |
| `Revocation.DecisionRespectsFloor` | services/internal/spicedb/spicedb.go:183-197 | a decision reads no revision of the store older than the floor its call took or, without one, than the newest at its start |
| `Revocation.RevocationBinds` | services/internal/spicedb/spicedb.go:78-86 | once a call has observed a revision from which on a required permission, consent, enrolment or delegation is gone, no decision of a later call that does not overlap lets the caller in |
| `Revocation.OverlapUnbinds` | services/internal/spicedb/spicedb.go:82-86 | with overlapping calls a decision begun afterwards can read a revision before the one observed |
| `Reload.Load` | services/internal/config/config.go:198-213 | a configuration is loaded exactly when the document decodes and validates |
| `Reload.Watcher.Tick` | services/cmd/ext-authz/main.go:164-190 | one tick: nothing without a new fingerprint, then the new configuration if it loads and compiles, the old one if not |
| `Reload.Watcher.Watch` | services/cmd/ext-authz/main.go:158-191 | the loop over any sequence of ticks |
| `Reload.QuietTicksKeep` | services/cmd/ext-authz/main.go:164-168 | ticks that cannot read or find the known fingerprint change nothing |
| `Reload.SettledTicksOnce` | services/cmd/ext-authz/main.go:164-190 | of any number of ticks on a settled document only the first can do anything |
| `Reload.SettledServesExactly` | services/cmd/ext-authz/main.go:158-190 | a usable edit the file settles on is served in the end exactly when its fingerprint is not the last one read, or it serves already |
| `Reload.TornTickMissesExactly` | services/cmd/ext-authz/main.go:164-190 | which ticks whose two reads see different documents make the loop miss the edit the file settles on, exactly: those that leave its fingerprint behind without serving it, whatever was loaded in its place |
| `Reload.StartMissesExactly` | services/cmd/ext-authz/main.go:158-163 | the first fingerprint misses an edit the process did not load exactly when it already reads it |
| `Reload.EditsMissed` | services/cmd/ext-authz/main.go:158-190 | concrete documents, without hash collisions, for which a usable edit is missed in each of the three ways |
| `InFlight.ServedWasLoaded` | services/cmd/ext-authz/main.go:168-184 | beside any requests, what serves is what the process started with or a document some tick loaded |
| `InFlight.OnlySoundServes` | services/cmd/ext-authz/main.go:147-157 | under any interleaving only documents serve that validated, have every default filled in, and compiled |
| `InFlight.AdvancingKeepsOutlook` | services/internal/decision/pipeline.go:166-365 | one stage of a request (match, identify, gates, ask, one answer) leaves what it will decide as it was |
| `InFlight.AdvancingTakesATurn` | services/internal/decision/pipeline.go:166-365 | every request finishes within a bounded number of its own stages |
| `InFlight.FlightsStayOnCourse` | services/internal/decision/pipeline.go:109-168 | with polls and other requests between any two stages, a request stays on the course the snapshot it loaded on arrival set |
| `InFlight.FinishedUnderOneConfiguration` | services/internal/decision/pipeline.go:109-168 | the ruling and session writes of a finished request are the decision under the one configuration that served when it arrived |
| `InFlight.FinishedByPolicy` | services/cmd/ext-authz/main.go:147-157 | that configuration was validated and compiled, and the ruling is its policy |
| `ConfigCheck.CrossCheck` | services/cmd/configcheck/main.go:120-170 | passes exactly when the sensitive capabilities are those some step-up rule names |
| `Admission.WelcomeExactly` | services/internal/decision/pipeline.go:166-365 | a verified caller against a store is let in exactly when the rule is public, or the caller is bound, from a registered workload, and the rule asks nothing more or the store entitles the caller |
| `Admission.LevelDecidesExactly` | services/internal/decision/pipeline.go:498-521 | two runs that differ in a person's authentication level alone: if the first is let in, the second is exactly when the rule does not look at the level or the level suffices |
| `Admission.ResourceNamedExactly` | services/internal/decision/pipeline.go:553-568 | the resource of a request is the caller itself, the id written in the rule, or the part of the path under the last parameter of the name, as the rule says, and no other |
| `Admission.ResolvesExactly` | services/internal/decision/pipeline.go:553-568 | the resource is found in every request of the rule or in none, told from the pattern |
| `Admission.BearerRead` | services/internal/decision/identity.go:362-368 | a bearer token is read after its scheme in any letter case |
| `Admission.FirstCookieWins` | services/internal/decision/identity.go:370-378 | of several cookies of one name the first counts |
| `Admission.AdmitsPeopleExactly` | services/internal/decision/pipeline.go:166-365 | some person, under some token, store and session, gets through a rule if and only if the file allows it: the rule answers one of the probes, an application of people, a cookie name a cookie can carry, a caller that runs no agent, a resource and a permission a person can hold |
| `Admission.AdmitsSystemsExactly` | services/internal/decision/pipeline.go:166-365 | some system principal does if and only if the file allows it: likewise, with a registered client, no step-up and a permission a system principal can hold |
| `Admission.AdmitsAgentsExactly` | services/internal/decision/pipeline.go:166-365 | some agent does if and only if the file allows it: likewise, with an agent that some calling workload may present, no step-up and a permission a person can hold |
| `ConfigCheck.ClosedExactly` | services/internal/decision/pipeline.go:498-521 | of every request let in through a rule, by anybody or nobody, the caller is a person with an authentication level, if and only if the file says so: the rule is not public unless dead, admits no system principal and no agent, and admits people, if at all, only resource-checked with step-up and a minimum that is not negative |
| `ConfigCheck.EnforcedExactly` | services/cmd/configcheck/main.go:113-119 | nobody exercises a capability without showing presence if and only if the file closes every rule that names it |
| `ConfigCheck.SensitiveAgentExactly` | services/internal/catalogue/catalogue.go:166-185 | over every run whose grants are written through the console, a bound agent gets through a rule naming a sensitive capability if and only if the rule asks the backend nothing |
| `Documents.AgreementIsNotEnforcement` | services/cmd/configcheck/main.go:113-119 | a valid document passes the cross-check, and in one world a person without an authentication level is refused by the guarded rule and let in to the same lock by another |
| `Documents.AgreementLetsAgentsIn` | services/cmd/configcheck/main.go:113-119 | a valid document passes the cross-check with step-up on an authenticated-only rule alone, and an agent is let in |
| `Documents.AgreementLetsSystemsIn` | services/cmd/configcheck/main.go:113-119 | a valid document passes the cross-check, and a system principal exercises the capability through another rule with nobody present |
| `Documents.NegativeMinimumLetsIn` | services/internal/oidcauth/oidcauth.go:56-66 | a valid document whose step-up rule lets in a person without an authentication level |
| `Documents.UncheckedStepUpLetsIn` | services/internal/decision/pipeline.go:224-236 | a valid document whose authenticated-only step-up rule lets the same person in |
| `Documents.SharedObjectBreaksBinding` | services/internal/decision/pipeline.go:400-432 | a valid document with two agents that share an object, and a permit to the second from the workload registered to run the first |

## Left out

- Strings are ASCII for case folding and for trimming blanks; Unicode folding and blanks, URL decoding and YAML or JSON parsing are not modelled. Configuration, catalogue and the parsed query of a request are given as values.
- Token signatures, key sets, PKCE hashing, HTTP to the identity provider and the random source are arbitrary functions.
- Challenge text, bodies, locations, cookies as header text, `x-authz-reason`, logs, decision ids and the check on return addresses are display and I/O. A redirect carries its target and cookie as values.
- The permission backend is tuples, filters, expiry and revisions only: no caveats, no syntax of object ids, and no rejection of one tuple updated twice in one write. Types, relations and permissions are constructors, with `Undefined` for names outside the schema.
- `OwnedBy`, the display lookups of the catalogue, HTML pages and the debug and health listeners are not modelled.
- `sort.SliceStable` is library code; the stable sort it promises is done here by insertion.
- One request reads one clock instant and runs as one atomic step on the session store. `Get` or `Put` of one request between the steps of another is not modelled, so a logout is final only in that sense.
- The rejected document is modelled by its being rejected: the defaults that validation had already written into it are not stated, nor which of several errors is reported.
- That reload always reaches the file as it stands, and that decommissioning a device through the console takes effect, fail of the code; the disagreements above say when.
- A console write whose reply is lost is modelled as not having happened; in the source a write that times out may have landed.
- The enrolment or operator question of a console post and the write that follows are one step here and two calls in the source, so a change between them is not modelled.
- Routes.CompileRule: the source also writes the score into the rule, where only its accessor reads it; here the score is in the compiled entry alone.
- Sessions.MemStore.Get: tests and deletes in one step; `Sessions.LateDeletionExactly` says what a late deletion changes.
- InFlight.FinishedUnderOneConfiguration: what the verifier, the session store and the backend answer is fixed for each request when it arrives, whatever runs between its stages.
- Admission.AdmitsPeopleExactly: any token a registered client could carry may exist, and any well-typed store; which tokens the identity provider gives out is not modelled. The same holds for systems and agents.
- Revocation.RevocationBinds: the revision a decision reads is that of its own call, by assumption; revisions of the store are an arbitrary function.
- Pipeline.Server.Check: of two header names that fold to one, the value kept is any one of theirs, as map iteration in the source gives no order; of a denial's headers only those that are not display text are modelled.
- Reload.Watcher.Watch: any finite number of ticks; the endless loop itself is not modelled.
- Logins.OneLoginPerSession: assumes that the random source never repeats a session id, as does `LoginFlow.CookieNamesItsLogin`.
- Delegated.AgentPermittedExactly: assumes that no other poster's id continues the user's after a `|`, or the reverse; `Store.PairIdsCollideExactly` shows that grant ids collide otherwise.
