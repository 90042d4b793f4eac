# Verified model of drynn

This project models the world generator, the login rate limiter, the signing-key
store and the tester seeding of drynn, and proves what they keep on every run.

- **Hexes, Placement**: the axial metric, the disk, and the shuffled greedy loop
  that places, merges or discards systems, with its covering and packing bounds.
- **Prng**: the random source. A generator's remaining output is a finite tape
  of draws, after which every draw is a fixed calm one that all rejection loops
  accept. A run that stops uses finitely many draws, so it is the run on the tape
  of those draws, and a claim for every tape covers every run that stops.
- **Bodies, Atmosphere, GasMaps, Generator**: stars and planets from dice,
  random-step clamps, an ordering rule and normalised gas mixes. Loops over maps
  choose an arbitrary key at each turn, so their results hold for every order.
- **Templates, Viability, Driver**: home-star templates, their score, and the
  driver that fills seven slots from one candidate stream.
- **Clusters, Lookups, Deposits, Stages**: identifiers and references of the
  flat lists, the lookups over them, deposits, and the two stage orders.
- **RateLimit**: per-key token buckets with lazy eviction, refined against a
  limiter that never forgets.
- **SigningKeys**: the key table and any number of processes, one transaction a
  step; EnsureReady looks in one step and seeds in a later one.
- **Testers**: tester accounts over the user tables, one transaction a step.
- **Reach, Outcomes**: which gases, planets, stars and templates can be rolled:
  exactly those of a description by ranges, without dice.
- **Witnesses**: outcomes that happen although the documentation rules them out.
- **Arithmetic, Counting, Options, Text**: helpers.

Programs that change state are methods on classes and arrays. Each is proved
equal to a function of the tape or table it starts from (named `...On` or
`Step`), and the results are lemmas about those functions, for all inputs.

Units: density is in hundredths, a cluster planet's gravity is density times
diameter (1/7200 of Earth's), its mining difficulty is in fifths, yields are in
percent, times are whole ticks and the rate is in tokens per tick, so all
arithmetic is exact.

Where code and documentation differ, the code is modelled:

- The comment that gas giants have temperature class 3 to 7 holds exactly when
  the planet inside is no colder than 3 (`GiantTemperatureIff`), and a star on
  which it fails exists (`GiantCanBeCold`).
- `internal/worldgen/reference/home-system-templates.md`, lines 667-669, has an
  attempt without a home planet return nothing; the code returns a template of
  score 0. That happens exactly when the class reaching the override is at least
  12 at every orbit (`NoHomeIffAllWarm`, `ScoresZeroIffAllWarm`) and it does
  happen for every planet count (`NoHomeHappens`). Line 946 promises one home
  planet in a successful template; that fails on some run exactly when the window
  takes score 0 (`HomelessSlotIff`), which the default one does not.
- EnsureReady looks and seeds in two transactions. A key made active in between
  is retired with no grace; `LateSeedSafeIff`, `RotationSafeIff` and
  `SplitEnsureReadyStrands` say exactly when that strands a live token.
- Seeding testers fails when a name is refused (`SeedSucceedsIff`) and misses its
  target, and repeats itself, without the tester role (`SeedReachesTargetIff`,
  `RepeatCreatesNoneIff`, `SeedWithoutRole`). Migration
  `db/migrations/20260412011433_add_tester_role.sql` inserts that role, so tables
  without it are outside the migrated schema.

## Model

Rows that start with "link" tie a program to the function the results are about.

| member | source | states |
|---|---|---|
| Placement.RoomyAlwaysSucceeds | internal/worldgen/placement.go:54-82 | guaranteed placement: if (n-1) balls of radius d cannot cover the disk, every shuffle and every tie-break ends with exactly n systems and no error |
| Placement.PlacementsFit | internal/worldgen/placement.go:65-82 | packing bound: on every run the systems placed, times the size of a ball of radius d/2, are at most the size of the disk of radius r + d/2 |
| Placement.CrowdedAlwaysFails | internal/worldgen/placement.go:54-82 | asking for more systems than that packing bound allows always returns an error |
| Placement.MergeMovesNothing | internal/worldgen/placement.go:65-77 | with the same random stream, merging or not places the same hexes and succeeds alike; only star counts differ |
| Placement.LoopIsFirstFit | internal/worldgen/placement.go:65-77 | the merging, capping, tie-breaking loop picks exactly the hexes of a plain first-fit scan and is full exactly when there are n |
| Placement.PlaceIsFirstFit | internal/worldgen/placement.go:41-83 | for proper inputs the result is first fit over a shuffle of the disk; success exactly when n hexes are found, otherwise the error names how many were |
| Placement.PlacementsKeepDistance | internal/worldgen/placement.go:65-77 | placements are distinct hexes of the disk, pairwise more than the minimum distance apart |
| Placement.FirstFitCovers | internal/worldgen/placement.go:65-77 | when fewer than n are placed, every candidate is within d of a placement |
| Placement.CandidatesFeedNearest | internal/worldgen/placement.go:65-77 | on every run each candidate went to the system it opened, or to one within d that no system of that time was nearer than, and a system holds min(5, candidates that went to it) stars when merging, one when not |
| Placement.StepFeedsNearest | internal/worldgen/placement.go:65-73 | one candidate, by distances: it opens a system when none is within d, otherwise adds a star up to five to a nearest one when merging and changes nothing when not |
| Placement.PlaceFailsIff | internal/worldgen/placement.go:41-58 | each error is returned under exactly its condition, in order, and refused arguments draw nothing |
| Placement.StarsAreConserved | internal/worldgen/placement.go:63-77 | candidates consumed are total stars plus wasted ones; systems hold 1 to 5 stars, exactly one when not merging |
| Placement.NearestIsNearest | internal/worldgen/placement.go:88-115 | the search gives -1 exactly when no placement is within the limit, otherwise an index none is nearer than |
| Placement.EveryTieReachable | internal/worldgen/placement.go:108-114 | each placement tied for nearest is the one chosen on some draw |
| Placement.CoveringBound | internal/hexes/axial.go:54-60 | hexes whose balls cover the disk number at least its capacity divided by a ball |
| Placement.PackingBound | internal/hexes/axial.go:54-60 | hexes of a disk that keep their distance have disjoint half-distance balls inside a larger disk |
| Hexes.DistanceIsShortestWalk | internal/hexes/axial.go:16-33 | the distance is attained by a walk through neighbours and no walk is shorter |
| Hexes.DistanceIsMetric | internal/hexes/axial.go:16-21 | identity, symmetry and the triangle inequality |
| Hexes.HalfSum | internal/hexes/axial.go:16-21 | twice the distance is abs(dq) + abs(dr) + abs(ds) |
| Hexes.Toward | internal/hexes/axial.go:24-33 | some neighbour is exactly one nearer to any other hex |
| Hexes.DiskIsExact | internal/hexes/axial.go:38-65 | the disk lists exactly the contained hexes, in strict (q, r) order without repeats, Capacity(r) of them, for every r |
| Hexes.IncreasingIsUnique | internal/hexes/axial.go:36-52 | no other list has those members in that order |
| Hexes.DiskCount | internal/hexes/axial.go:54-60 | the column counts add up to the closed form 1 + 3r(r+1) |
| Hexes.BallCount | internal/hexes/axial.go:54-60 | a ball round any centre holds as many hexes as the disk |
| Prng.RollOn | internal/prng/prng.go:96-104 | the result is in range and one draw is consumed |
| Prng.RollReaches | internal/prng/prng.go:96-104 | every value of the range is rolled on some draw |
| Prng.DiceOn | internal/prng/prng.go:17-71 | n dice total between n and n times the sides, 0 for no dice |
| Prng.ShufflePermutes | internal/prng/prng.go:77-79 | a shuffle keeps the multiset of elements |
| Prng.EveryOrderReachable | internal/prng/prng.go:77-79 | every permutation is the shuffle of some stream |
| Bodies.WarmedIsRocky | internal/worldgen/generator.go:286-292 | the warm-up of the two inner orbits of small systems never meets a gas giant |
| Bodies.WobbleRange | internal/worldgen/generator.go:227-239 | n signed steps move a value by at most n dice |
| Bodies.RaiseOn | internal/worldgen/generator.go:240-243 | a clamp by random steps ends at the bound or less than a die past it, and terminates on every stream |
| Bodies.WobbleByDraws | internal/worldgen/generator.go:232-239 | one draw gives the length of a step and half of the next draws send it up |
| Bodies.TemperatureOn | internal/worldgen/generator.go:259-292 | temperature before ordering: 1..30, gas giants 3..7, warmed planets at least 12 |
| Bodies.PressureOn | internal/worldgen/generator.go:302-328 | pressure 0..12 for rocky planets, 11..29 for gas giants |
| Atmosphere.NormalizedIsWhole | internal/worldgen/generator.go:385-396 | normalised percents are non-negative and sum to exactly 100; the first gas gets a leftover smaller than the number of gases |
| Atmosphere.PickOn | internal/worldgen/templates.go:353-382 | the rejection loop ends with between one and the wanted number of gases |
| Atmosphere.PickPicks | internal/worldgen/templates.go:353-382 | picked gases ascend inside the five-gas window and include helium only when the class is at most 5 |
| Atmosphere.TryGasByDraw | internal/worldgen/generator.go:369-383 | a gas is passed over on one draw in three, helium on two |
| Reach.PassTape | internal/worldgen/templates.go:353-382 | every ascending choice of up to the wanted number of gases of the window, in the quantities each gas can have, is picked on some stream |
| Reach.PickRange | internal/worldgen/templates.go:353-382 | and no other choice ever is |
| Reach.NormalizedIff | internal/worldgen/generator.go:385-396 | a mix is the normalised quantities exactly when it sums to 100 and all but its first percentage are quotients rounded down |
| Atmosphere.CalmPassFinds | internal/worldgen/generator.go:361-384 | a pass that accepts always exists, whatever the window |
| GasMaps.NormalizeMix | internal/worldgen/generator.go:385-396 | normalising the map in any visiting order gives the map of the normalised slice |
| GasMaps.AddUp | internal/worldgen/generator.go:386-389 | the total is the same for every visiting order |
| GasMaps.ToPercent | internal/worldgen/generator.go:390-394 | the percents and the unallocated rest are the same for every visiting order |
| GasMaps.ListingIsUnique | internal/worldgen/jsonstate.go:224-229 | a mix has exactly one key order by percent descending, gas ascending |
| GasMaps.SortedKeys | internal/worldgen/jsonstate.go:220-229 | gathering keys in any order and sorting yields that order |
| GasMaps.SortGasMap | internal/worldgen/jsonstate.go:216-235 | the document lists the gases in that order with their percents |
| GasMaps.DocsAreUnique | internal/worldgen/jsonstate.go:213-235 | so two documents of one mix are equal |
| GasMaps.GasMixLabel | internal/worldgen/viewer.go:144-163 | the report label joins the gases in that order, a dash when there are none |
| GasMaps.LabelWritesDocs | internal/worldgen/viewer.go:144-163 | the label writes out the entries of the document |
| GasMaps.DocsDescend | internal/worldgen/jsonstate.go:224-234 | a document lists every gas of the mix once with its percentage, larger shares first and equal ones in gas order |
| GasMaps.DocsReadBack | internal/worldgen/jsonstate.go:216-235 | two mixes with the same document are equal |
| GasMaps.LabelIsUnique | internal/worldgen/viewer.go:144-163 | so two labels of one mix are equal |
| Outcomes.StarIff | internal/worldgen/generator.go:110-205 | a star with its planets is rolled on some stream exactly when its color and kind allow its planet count and each planet is possible at its orbit next to the one inside |
| Outcomes.PlanetIff | internal/worldgen/generator.go:209-411 | a planet is rolled at an orbit on some stream exactly when each of its values is in the range its seed entry, its kind and its other values allow: diameter, density, gravity, class after ordering, pressure, gases, mining difficulty |
| Outcomes.NineOrbits | internal/worldgen/generator.go:209-222 | the largest diameter and class a planet can have at each of nine orbits |
| Outcomes.StarKindAndColor | internal/worldgen/generator.go:113-143 | the first roll of ten decides the kind and the second of seven the color |
| Generator.StarIsSound | internal/worldgen/generator.go:110-205 | every rolled star has 1..9 planets, each sound for its orbit, none warmer than one inside it |
| Generator.PlanetIsSound | internal/worldgen/generator.go:209-411 | diameter, kind, temperature, pressure, gases and mining stay in their ranges and the planet is no warmer than the one before |
| Generator.GiantTemperatureIff | internal/worldgen/planets.go:18 | the documented 3..7 for gas giants holds exactly when the planet inside is not colder than 3 |
| Witnesses.GiantCanBeCold | internal/worldgen/planets.go:18 | some star has a gas giant of temperature class below 3 |
| Generator.MixListIsMix | internal/worldgen/generator.go:332-397 | a generated mix has one to four distinct gases adding up to 100 |
| Generator.MixIsSound | internal/worldgen/generator.go:332-397 | the same facts for the map form |
| Generator.CalmMiningAccepted | internal/worldgen/generator.go:401-406 | an accepting mining roll always exists |
| Generator.NumPlanetsOn | internal/worldgen/generator.go:148-194 | the biased dice and the two clamps end in 1..9 |
| Templates.PlanetsAreSound | internal/worldgen/templates.go:139-298 | in every template: never warmer outward though the override runs after the ordering; at most one special planet, class 10..12, everything inside it at least 12; gas giants strictly outside it |
| Outcomes.TemplateIff | internal/worldgen/templates.go:135-304 | a sequence of planets is a template of n planets on some stream exactly when each is possible where it stands: its body capped by the class inside, or the earth-like planet on the first class of 11 or less |
| Templates.NoHomeIffAllWarm | internal/worldgen/templates.go:228-231 | an attempt has no home planet exactly when the class reaching the override is at least 12 at every orbit |
| Viability.ScoresZeroIffAllWarm | internal/worldgen/templates.go:398-408 | and that is exactly when it scores 0 |
| Witnesses.NoHomeHappens | internal/worldgen/templates.go:228-231 | for every planet count from 1 to 9 some attempt has no home planet |
| Witnesses.HomeHappensIff | internal/worldgen/templates.go:217-241 | some attempt of n planets has a home planet exactly when n is at least 3, because smaller systems are warmed |
| Witnesses.HomelessSlotIff | internal/worldgen/templates.go:107-115 | for every planet count and budget some run fills the slot with a template that has no home planet exactly when the window takes score 0 |
| Templates.TemplatePlanetIsSound | internal/worldgen/templates.go:139-297 | one step of that: the override fires only on the first planet of class 11 or less |
| Templates.EarthLikeIsSound | internal/worldgen/templates.go:232-241 | the override yields a rocky planet of class 10..12, pressure 9..11, mining 210..230 and earth-like air |
| Templates.OrdinaryIsSound | internal/worldgen/templates.go:242-293 | any other planet is a vacuum exactly when its pressure is 0, with mining 30..1000 |
| Templates.MaybeGasByDraw | internal/worldgen/templates.go:313-323 | each optional gas of earth-like air is there on one draw in three |
| Templates.EarthAirIsMix | internal/worldgen/templates.go:309-334 | earth-like air is a mix with 11..30 oxygen and at least 10 nitrogen |
| Templates.OtherAirIsMix | internal/worldgen/templates.go:339-392 | rolled air is a mix, with helium only when the class is at most 5 |
| Templates.CalmMiningAccepted | internal/worldgen/templates.go:284-292 | an accepting mining roll always exists |
| Viability.AttemptIsSound | internal/worldgen/templates.go:129-304 | an attempt has n sound, arranged planets; its score is positive exactly when it has a home planet, and then 23 to 25 + 83(n-1) |
| Viability.AttemptIsScorable | internal/worldgen/templates.go:398-415 | no attempt divides by zero |
| Viability.ContributionBounds | internal/worldgen/templates.go:410-413 | the divisor is positive; a planet contributes at most 83, the home planet 23..25 |
| Viability.LSNIsNeeds | internal/worldgen/templates.go:421-440 | with distinct gases the estimate is two for each class of difference in temperature and pressure, two for missing oxygen and two for each gas the home planet does not have |
| Viability.ScoreAddsShares | internal/worldgen/templates.go:398-415 | the score is the sum over all planets of 20000 divided by 3 plus that estimate times 50 plus mining difficulty, rounded down |
| Viability.LSNIsEvenAndNonnegative | internal/worldgen/templates.go:421-440 | with distinct gases the estimate is even and non-negative |
| Viability.RepeatedOxygenGoesNegative | internal/worldgen/templates.go:431-438 | without distinct gases it falls without bound: k oxygen entries on a like world give 2 - 2k |
| Viability.HomeSupportsItself | internal/worldgen/templates.go:421-440 | it is 0 for the home planet against itself |
| Driver.DriverIsSound | internal/worldgen/templates.go:96-118 | for every stream, window and budget: filled counts the templates, attempts are within the candidates rolled, fewer than the budget are rolled only when all seven slots are filled, each best score is the maximum of 0 and the scores seen, filled slots hold an accepted sound template of their planet count, an unfilled tried slot has a best score the window rejects |
| Driver.DriverTellsHistory | internal/worldgen/templates.go:86-118 | every run is a history of candidates: one with 3 to 9 planets is attempted until one of its planet count was accepted; an empty slot counts all of its candidates, a filled one those up to the first accepted, which it holds; the run ends with the budget or when all seven are filled, neither before nor after |
| Driver.WindowTakes | internal/worldgen/templates.go:47-54 | both bounds of a window are outside it and the default takes exactly 54, 55 and 56 |
| Driver.StepKeepsInv | internal/worldgen/templates.go:97-116 | one candidate keeps all of that |
| Driver.FilledStays | internal/worldgen/templates.go:103-106 | a filled slot never changes again |
| Driver.FilledSlotHasOneHome | internal/worldgen/templates.go:107-115 | unless the window takes score 0, a filled slot has exactly one home planet and gas giants only outside it |
| Deposits.DepositsIff | internal/worldgen/deposits.go:87-131 | a list is the deposits of these planets on some stream exactly when it gives each planet in turn a possible number of them, numbered from 1, each found by some roll |
| Deposits.DepositIff | internal/worldgen/deposits.go:115-209 | for each first roll of a hundred, the deposits that can follow: one resource, quantities in steps of a range, a range of yields by kind and difficulty |
| Deposits.DepositIdsDecode | internal/worldgen/deposits.go:87-131 | deposit ids rise strictly and decode to planet and number, every planet has 1..40 deposits |
| Deposits.DepositIsSound | internal/worldgen/deposits.go:115-209 | quantities and yields stay in their documented ranges; gold is small and never on a gas giant |
| Deposits.NumDepositsOn | internal/worldgen/deposits.go:99-113 | 1..40 deposits for every kind |
| Deposits.TriangularOn | internal/worldgen/deposits.go:133-138 | between twice the step and twice the sides times the step |
| Clusters.ClusterIsIntegral | internal/worldgen/generator.go:71-105 | ids count 1..len, references resolve, each star owns one block of sound planets at orbits 1.., systems follow the placements, even after a placement error |
| Clusters.ClusterIsRolled | internal/worldgen/generator.go:71-105 | the stars of a cluster with their planets are, but for identifiers and orbits, those one stream rolls one after the other, listed by system |
| Clusters.AddStarsIsIntegral | internal/worldgen/generator.go:88-101 | adding the stars of a system keeps that and adds exactly its star count |
| Lookups.PlanetsForStarIsBlock | internal/worldgen/cluster.go:43-53 | a star's planets are exactly NumPlanets, in orbit order, with consecutive ids |
| Lookups.PlanetsForSystemIsByStar | internal/worldgen/cluster.go:55-71 | a system's planets are those of its stars, star by star |
| Lookups.MultiStarIsPlacements | internal/worldgen/cluster.go:94-108 | multi-star systems are the placements with more than one star |
| Stages.OrderDoesNotShow | cmd/drynn/simulate.go:45-89 | so both orders end with equal systems, stars, planets, deposits and templates |
| Stages.StreamsByDraws | internal/worldgen/generator.go:34-36 | the streams of templates, cluster and deposits are those of the first three seed pairs drawn |
| Stages.StagesAreIndependent | internal/worldgen/generator.go:17-19 | window and budget change only the templates; cluster options never do |
| Stages.WorldIsSound | internal/worldgen/generator.go:36-51 | every world: integral cluster, distance kept, sound slots, decodable deposits |
| RateLimit.LetThroughIff | internal/middleware/ratelimit.go:65-87 | a request is let through exactly when, counting it, no window of requests ending with it exceeds the burst plus the rate times the window |
| RateLimit.EvictionUnobservableIff | internal/middleware/ratelimit.go:65-87 | eviction changes no decision on any trace exactly when the rate times one tick more than the cleanup gap is at least the burst |
| RateLimit.StepStaysLinked | internal/middleware/ratelimit.go:65-87 | each request decides alike with and without eviction and keeps the two linked |
| RateLimit.TelltaleAllAllowed | internal/middleware/ratelimit.go:76-84 | below that rate, the limiter allows all of a telltale trace |
| RateLimit.TelltaleRefused | internal/middleware/ratelimit.go:76-84 | of which the limiter without eviction refuses a request |
| RateLimit.DefaultsAreTransparent | internal/middleware/ratelimit.go:12-18 | the default rate, burst and gap meet the condition |
| RateLimit.WindowBound | internal/middleware/ratelimit.go:19-21 | any window lets through at most the burst plus the rate times its length, even across evictions |
| RateLimit.EmptyLetsThroughIff | internal/middleware/ratelimit.go:72-86 | a key with an empty bucket is let through exactly when the burst is positive and the rate has brought a whole token |
| RateLimit.KeptIff | internal/middleware/ratelimit.go:76-84 | a visitor is dropped exactly when another key comes more than a gap after both the last cleanup and its own last request |
| RateLimit.VisitorsAreRecent | internal/middleware/ratelimit.go:74-84 | after every request all visitors kept were seen within the last two gaps |
| RateLimit.ServedIsKept | internal/middleware/ratelimit.go:70-84 | the visitor being served is never the one evicted |
| SigningKeys.RotationSafeIff | internal/auth/signing_keys.go:55-179 | a token signed with the active key verifies until it expires through every run that respects it, exactly when no process is between its empty look and its seed of that type at the signing |
| SigningKeys.RotationNeverStrands | internal/auth/signing_keys.go:123-179 | so with no seed pending it survives any steps of any processes whose rotations of its type give at least its lifetime of grace and that do not expire or delete its key: it verifies, with the secret it was signed with |
| SigningKeys.LateSeedSafeIff | internal/auth/signing_keys.go:55-70 | whatever other processes do between the empty look and the seed of EnsureReady, the seed leaves every live token of its type alone exactly when there is still no active key |
| SigningKeys.LateCreateSafeIff | internal/auth/signing_keys.go:149-171 | on every table a create with no grace leaves all live tokens of its type alone exactly when there is no active key |
| SigningKeys.SplitEnsureReadyStrands | internal/auth/signing_keys.go:55-70 | from every state without an active key two processes that both look can strand what the first one signs, whatever the times, identifiers and table |
| SigningKeys.RunHoldsIff | internal/auth/signing_keys.go:123-247 | a token holds all along a run exactly when every step keeps its key: grace past its expiry on rotation and expiry, no deletion |
| SigningKeys.SecretsNeverChange | internal/auth/signing_keys.go:123-247 | in every run a key that is still there keeps its secret and type |
| SigningKeys.CreateChanges | internal/auth/signing_keys.go:123-171 | a create succeeds exactly for a known type, a non-negative grace and a fresh identifier; it stores the given secret, retires the active key of its type and touches no other row |
| SigningKeys.ExpireChanges | internal/auth/signing_keys.go:181-216 | an expiry retires one row for its grace and touches nothing else |
| SigningKeys.DeleteChanges | internal/auth/signing_keys.go:218-247 | a delete takes away one row that is not active |
| SigningKeys.NormalizeIff | internal/auth/signing_keys.go:268-277 | a token type is meant by its name in any case with blanks around it, and by nothing else |
| SigningKeys.RotationKeepsTokenIff | internal/auth/signing_keys.go:149-160 | one rotation keeps a live token verifiable exactly when its grace covers the rest of the token's life |
| SigningKeys.HoldsIffVerifies | internal/auth/signing_keys.go:91-121 | what a key row must look like for a token to verify at every time before its expiry |
| SigningKeys.RunsKeepOneActive | internal/auth/signing_keys.go:143-171 | at most one active key per token type in every run of any number of processes, one transaction a step |
| SigningKeys.RetiredStaysRetired | internal/auth/signing_keys.go:181-247 | in such runs a retired key never becomes active again |
| SigningKeys.EnsureReadyMakesReady | internal/auth/signing_keys.go:55-70 | in runs without an explicit expiry, both types have an active key once any process has EnsureReady behind it |
| SigningKeys.RunsStayReady | internal/auth/signing_keys.go:123-247 | a type with an active key keeps one through every run without an explicit expiry |
| Testers.SeedIsSound | internal/service/user_service.go:436-475 | whatever the tables held, seeding only adds testers: exactly the shortfall, or it stops at an invalid name |
| Testers.SeedSucceedsIff | internal/service/user_service.go:436-475 | seeding succeeds exactly when its arguments are good and nobody is missing or the last name that will be tried is acceptable |
| Testers.NamesFitIff | internal/service/user_service.go:458-459 | tester k has acceptable names exactly when the domain is lower case, the numeral has at most 25 digits and the email at most 320 characters |
| Testers.LastTriedBounds | internal/service/user_service.go:455-471 | the last number tried is at least target and at most target plus the clashing names |
| Testers.ShortNumeralsFit | internal/service/user_service.go:455-471 | a lower-case domain with room for the numeral of target plus twice the users always has room |
| Testers.CommandSucceeds | cmd/db/main.go:159 | with the domain and hash of the command, seeding succeeds on every table while target plus twice the users has at most 25 digits |
| Testers.SeedTakesFirstFree | internal/service/user_service.go:455-471 | a successful call takes exactly the free numbers from the first tried to the last |
| Testers.SeedReachesTargetIff | internal/service/user_service.go:447-474 | afterwards max(target, current) users hold the role, exactly when none was missing, or the role exists and there was room |
| Testers.RepeatCreatesNoneIff | internal/service/user_service.go:447-453 | a repeated call succeeds and creates nobody under exactly the same condition |
| Testers.SeedWithoutRole | internal/service/user_service.go:477-504 | without the tester role seeding reports success and all its testers, and nobody holds the role |
| Testers.SeedWithoutRoleHappens | internal/service/user_service.go:477-504 | there are such tables: without users and with the two older roles, one tester is created and nobody holds the role |
| Testers.SetRolesExactly | internal/service/user_service.go:596-628 | afterwards the user has exactly the existing roles among user and those named, whatever it had before, and no other grant changes |
| Testers.NamedIff | internal/service/user_service.go:596-606 | a role is named by an entry that is its name in any case with blanks around it |
| Testers.ClashConsumed | internal/service/user_service.go:467-470 | each refused name leaves strictly fewer clashes ahead: the termination measure |
| Testers.MixedCaseDomainFails | internal/service/user_service.go:457-471 | a domain that is not lower case fails at the first tester and changes nothing |
| Text.AtoiItoa | internal/service/user_service.go:458-459 | a numeral reads back as its number, so tester names differ |
| Placement.NearestPlacementWithinDistance | internal/worldgen/placement.go:88-115 | link: the scan computes the tied-for-nearest choice and draws only on a real tie |
| Placement.PlaceHexSystems | internal/worldgen/placement.go:41-83 | link: the in-place shuffled program computes the placement function, with every error branch and the stream it leaves |
| Placement.PlaceCandidates | internal/worldgen/placement.go:63-77 | link: the candidate loop computes the recursive run: placements, fullness and stream |
| Hexes.Disk | internal/hexes/axial.go:38-52 | link: the nested loops build that list |
| Prng.PRNG.Roll | internal/prng/prng.go:96-104 | link: one draw, reduced to the inclusive range whichever way round the ends come |
| Prng.PRNG.Dice | internal/prng/prng.go:17-71 | link: the accumulating loop is the sum of n rolls |
| Prng.PRNG.Split | internal/prng/prng.go:81-86 | link: two draws seed a fresh child; the parent continues behind them |
| Prng.PRNG.Shuffle | internal/prng/prng.go:77-79 | link: shuffles the array in place as the shuffle function of the stream |
| Bodies.RollTemperature | internal/worldgen/templates.go:187-222 | link: the randomise, clamp and warm loops compute the temperature function |
| Bodies.RollPressure | internal/worldgen/templates.go:243-272 | link: the randomise and clamp loops compute the pressure function |
| Bodies.RollDiameter | internal/worldgen/templates.go:157-172 | link: the diameter loops compute the diameter function |
| Generator.RollPlanet | internal/worldgen/generator.go:209-411 | link: the program computes the planet function, branch by branch |
| Generator.RollStar | internal/worldgen/generator.go:110-205 | link: the program computes the star function and its planets |
| Generator.RollGases | internal/worldgen/generator.go:333-396 | link: the retry, pick and normalise loops over the map compute the slice mix |
| Generator.RollMining | internal/worldgen/generator.go:399-406 | link: the retry loop computes the first accepted roll |
| Templates.BuildEarthLikeAtmosphere | internal/worldgen/templates.go:309-334 | link: the slice with its nitrogen placeholder computes the recipe |
| Templates.RollNonEarthAtmosphere | internal/worldgen/templates.go:339-392 | link: the retry, pick and normalise loops compute the rolled mix |
| Templates.NormalizeSlice | internal/worldgen/templates.go:384-391 | link: percentages in place, leftover to the first gas |
| Templates.RollTemplatePlanet | internal/worldgen/templates.go:139-297 | link: the steps of one orbit compute the planet function |
| Templates.RollPlanets | internal/worldgen/templates.go:135-298 | link: the orbit loop threads the previous class and the one-shot override |
| Viability.ApproximateLSN | internal/worldgen/templates.go:421-440 | link: the map and loops compute the estimate |
| Viability.ComputeViabilityScore | internal/worldgen/templates.go:398-415 | link: the search for the home planet and the sum compute the score |
| Viability.GenerateHomeStarTemplateAttempt | internal/worldgen/templates.go:129-304 | link: the attempt computes the attempt function |
| Driver.GenerateHomeStarTemplates | internal/worldgen/templates.go:86-118 | link: the driver loop over the slot objects computes the driver function and rolls exactly the candidates it counts |
| Driver.RollCandidate | internal/worldgen/templates.go:98-115 | link: one turn of it updates at most the one matching slot |
| Deposits.RollDeposits | internal/worldgen/deposits.go:91-96 | link: the nested loops compute the deposits of all planets in order |
| Deposits.RollDeposit | internal/worldgen/deposits.go:115-131 | link: the table dispatch computes the deposit function |
| Clusters.Cluster.AppendStar | internal/worldgen/generator.go:89-100 | link: stamping and appending one star and its planets |
| Clusters.GenerateCluster | internal/worldgen/generator.go:71-105 | link: the program computes the cluster function and passes the placement error on |
| Clusters.Cluster.StarsForSystem | internal/worldgen/cluster.go:33-41 | link: the scan filters by system |
| Clusters.Cluster.PlanetsForStar | internal/worldgen/cluster.go:45-53 | link: the scan filters by star |
| Clusters.Cluster.PlanetsForSystem | internal/worldgen/cluster.go:57-71 | link: the two scans filter by the system's stars |
| Clusters.Cluster.CountMultiStarSystems | internal/worldgen/cluster.go:96-108 | link: counts, in whatever order the map is visited, the systems with more than one star |
| Clusters.Cluster.GroupStars | internal/worldgen/viewer.go:65-68 | link: the viewer's grouping agrees with the scan by system |
| Clusters.Cluster.GroupPlanets | internal/worldgen/viewer.go:69-72 | link: the viewer's grouping agrees with the scan by star |
| Stages.Generate | internal/worldgen/generator.go:36-50 | link: cluster, templates, deposits: each stage is a function of its own stream |
| Stages.RunSimulate | cmd/drynn/simulate.go:45-89 | link: templates, cluster, deposits: the same functions of the same streams |
| RateLimit.RateLimiter.Allow | internal/middleware/ratelimit.go:65-87 | link: the program on shared visitor objects takes exactly one step of the state machine |
| RateLimit.RateLimiter.Evict | internal/middleware/ratelimit.go:77-82 | link: the deleting loop keeps exactly the visitors seen within the gap |
| SigningKeys.AmongIsRun | internal/auth/signing_keys.go:55-70 | link: EnsureReady among other processes is a run in which its process takes its turns |
| SigningKeys.KeyStore.EnsureReady | internal/auth/signing_keys.go:55-70 | link: whatever others commit before each of its transactions, it takes exactly the turns of the phase machine, in order, until it is ready or fails |
| SigningKeys.KeyStore.ActiveSigningKey | internal/auth/signing_keys.go:72-89 | link: finds the active key of a type exactly when there is one |
| SigningKeys.KeyStore.CreateSigningKey | internal/auth/signing_keys.go:123-179 | link: retires the active key and inserts the new one, or changes nothing |
| SigningKeys.KeyStore.ExpireSigningKey | internal/auth/signing_keys.go:181-216 | link: retires a key by id, or changes nothing |
| SigningKeys.KeyStore.DeleteSigningKey | internal/auth/signing_keys.go:218-247 | link: deletes a key that is not active, or changes nothing |
| SigningKeys.KeyStore.VerificationKey | internal/auth/signing_keys.go:91-121 | link: accepts by type, state and time as its specification does |
| Testers.UserStore.SeedTesters | internal/service/user_service.go:436-475 | link: the loop terminates against every finite table and computes the seeding function |
| Testers.UserStore.CreateTesterRow | internal/service/user_service.go:477-504 | link: inserts a user with its roles, or changes nothing |
| Testers.UserStore.SetRoles | internal/service/user_service.go:616-628 | link: clears and re-adds a user's existing roles |
| Testers.NormalizeRoles | internal/service/user_service.go:596-614 | link: the known roles named, user always, in fixed order |

## Left out

- Prng.PRNG.Roll: does not model how a 64-bit word is reduced to a range, because that is library code; a draw stands for the outcome.
- Prng.PRNG.Split: does not model the PCG generator, because it is library code; the seed-to-output map is an arbitrary function.
- Endless runs: streams on which a rejection loop never accepts are not modelled, because such a run returns nothing.
- Machine integers: counts and coordinates are unbounded, so wrap-around for radii near the 64-bit limit is not modelled.
- Generator.RollPlanet: does not model floating-point rounding of density, gravity and mining difficulty, because exact scaled values are used.
- Clusters.GenerateCluster: does not model pointer identity of systems, stars and planets, because they are never changed after they are appended; only the cluster and the template slots are objects.
- Templates.RollTemplatePlanet: does not model more than nine planets, because the driver asks for 3 to 9.
- GasMaps.SortedKeys: does not model the sorting routine of the standard library, because its result is fixed by the order; an insertion sort stands for it.
- RateLimit.RateLimiter.Allow: does not model the mutex, the infinite rate or float rounding of the library's bucket, because the bucket is taken as ideal and the clock as a parameter.
- RateLimit.EvictionUnobservableIff: is about clocks that do not go back, because the monotonic clock of the program does not.
- SigningKeys.KeyStore.CreateSigningKey: does not model secret generation, row locks or isolation levels, because each transaction is one atomic step and identifiers and secrets are inputs; that two creates at once may fail on the unique index is part of that.
- SigningKeys.KeyStore.EnsureReady: is given what others commit as transactions on the table, because the turns of other processes are such transactions or leave the table alone.
- SigningKeys.EnsureReadyMakesReady: says nothing of runs in which a key is expired by hand, because then a type may end without an active key.
- Testers.UserStore.SeedTesters: does not model other sessions writing between its transactions or database failures other than constraints.
- Text.TrimSpace and Text.ToLower work on ASCII only.
- DepositsForPlanet and the viewer's grouping of deposits: the same scans as those for planets.
- JWT signing and parsing, password hashing, HTTP handlers, command-line wiring, configuration, email, HTML and SVG rendering and file output: plumbing around what is modelled.
- User, invitation, password-reset and game services apart from tester seeding: single-branch checks.
- The older cartesian generator: not called by the generator or the simulator.
- Distribution of the rolls: nothing is claimed about likelihood, only about every run.
