# TourGuide reward attribution and nearest-attractions query, in Dafny

This project models the sequential logic of two services in the TourGuide
application. It covers:

- **`RewardsService`**: two proximity predicates, and a catalog cache that is filled lazily.
  - The reward radius (`proximityBuffer`) starts at 10 miles and can be set or reset.
  - The display radius (`attractionProximityRange`) is fixed at 200 miles. Both are inclusive.
  - `calculateRewards` walks a snapshot of the user's visited locations against every catalog attraction.
  - It grants a reward for a pair only when the user holds no reward for an attraction of the same name, and the location is inside the reward radius.
- **`TourGuideService`**: the user registry, keyed by user name and insert-if-absent.
  - `trackUserLocation` appends one location and then runs the reward calculation.
  - The nearest-attractions query makes one entry per catalog attraction, stable-sorts the entries by distance and keeps the first `min(5, n)`.
  - The trip-deal quote sums the user's reward points.

These parts of the source are parameters of the model, not things it computes:
- The great-circle distance (`getDistance`): a function value `Distance`.
- The reward-points service (`RewardCentral`): a function value `PointsOracle`.
- The attraction catalog (`GpsUtil.getAttractions`): a constant sequence.
- The position that `GpsUtil.getUserLocation` returns: the argument `gpsUserLocation` of `TrackUserLocation` and `GetUserLocation`.
  - It is a function from user id to visit, given anew on each call, because the library's answer changes between calls.
- The pricer (`TripPricer`): a function value.

Files:
- `gps.dfy`: locations, visits, attractions and the oracle types.
- `users.dfy`: the user record and its rewards.
- `rewards.dfy`: the reward rules, their specification functions and lemmas, and the `RewardsService` class.
- `nearby.dfy`: the stable sort by distance and the five-closest selection.
- `tour_guide.dfy`: the `TourGuideService` class.
- `wrappers.dfy`: `Option`, which stands for Java's `null` and for a lookup that throws.

`calculateRewards` is specified by the function `CalculatedRewards`. This function folds the inner loop's step over the snapshot in loop order, so each granted reward is visible to the next check. The lemma `CalculatedRewardsSound` says the result is the old list followed only by sound new rewards:
- each new reward comes from a (location, attraction) pair of the snapshot inside the radius;
- it carries the oracle's points;
- it names an attraction that no earlier reward names.

The lemmas then prove:
- distinct names are preserved, so a user holds at most one reward per attraction name;
- every qualifying pair ends up rewarded;
- a second run adds nothing;
- a visit at an attraction's exact coordinates earns a reward.

## Model

| member | source | states |
|---|---|---|
| `Rewards.NearAttraction` | TourGuide/src/main/java/com/openclassrooms/tourguide/service/RewardsService.java:109-111 | a visit is near an attraction exactly when their distance is at most the reward radius; equality counts as near |
| `Rewards.RewardsService.IsWithinAttractionProximity` | TourGuide/src/main/java/com/openclassrooms/tourguide/service/RewardsService.java:105-107 | true exactly when the distance is at most the fixed range of 200; the boundary is inclusive |
| `Rewards.RewardsService.constructor` | TourGuide/src/main/java/com/openclassrooms/tourguide/service/RewardsService.java:26-41 | a new service has reward radius 10 (the default) and an empty catalog cache that has never been fetched |
| `Rewards.RewardsService.SetProximityBuffer` | TourGuide/src/main/java/com/openclassrooms/tourguide/service/RewardsService.java:43-45 | the reward radius becomes the argument and no other field changes |
| `Rewards.RewardsService.SetDefaultProximityBuffer` | TourGuide/src/main/java/com/openclassrooms/tourguide/service/RewardsService.java:47-49 | the reward radius goes back to 10 and no other field changes |
| `Rewards.RewardsService.GetAttractions` | TourGuide/src/main/java/com/openclassrooms/tourguide/service/RewardsService.java:83-90 | returns the catalog and leaves it cached; the fetch count grows by one only when the cache was empty, so the catalog is fetched at most once per service |
| `Rewards.ShouldAddReward` | TourGuide/src/main/java/com/openclassrooms/tourguide/service/RewardsService.java:93-96 | the element-by-element `noneMatch` is true exactly when no held reward names the attraction |
| `Rewards.NewReward` | TourGuide/src/main/java/com/openclassrooms/tourguide/service/RewardsService.java:99-102 | the reward `addReward` records holds the visit, the attraction, and the oracle's points asked with the attraction id first and the user id second |
| `Rewards.RewardsService.AddReward` | TourGuide/src/main/java/com/openclassrooms/tourguide/service/RewardsService.java:99-102 | appends exactly one reward recording the visit, the attraction and the oracle's points for (attraction id, user id) |
| `Rewards.RewardsService.GetRewardPoints` | TourGuide/src/main/java/com/openclassrooms/tourguide/service/RewardsService.java:113-118 | the points returned are the points a new reward records under this service's oracle, whatever the radius and the visit |
| `Rewards.RewardsAtLocation` | TourGuide/src/main/java/com/openclassrooms/tourguide/service/RewardsService.java:65-71 | the inner loop over the catalog for one visit keeps every reward held before it as a prefix: it only appends |
| `Rewards.CalculatedRewards` | TourGuide/src/main/java/com/openclassrooms/tourguide/service/RewardsService.java:64-72 | the outer loop over the history snapshot keeps every reward held before it as a prefix: it only appends |
| `Rewards.RewardsAtLocationSound` | TourGuide/src/main/java/com/openclassrooms/tourguide/service/RewardsService.java:65-71 | the inner loop over the catalog only appends; each appended reward is for this visit and a catalog attraction inside the radius, carries the oracle's points, and names an attraction no earlier reward names |
| `Rewards.CalculatedRewardsSound` | TourGuide/src/main/java/com/openclassrooms/tourguide/service/RewardsService.java:64-72 | the whole cross product of snapshot and catalog only appends; every new reward comes from a snapshot visit and a catalog attraction inside the radius, carries the oracle's points, and names an attraction no earlier reward names |
| `Rewards.RewardsService.CalculateRewards` | TourGuide/src/main/java/com/openclassrooms/tourguide/service/RewardsService.java:52-81 | the nested loops over a snapshot of the history and the cached catalog leave the rewards equal to `CalculatedRewards` of the old rewards; the history is not touched, the catalog is then cached, and distinct reward names stay distinct |
| `Rewards.SoundExtensionKeepsDistinct` | TourGuide/src/main/java/com/openclassrooms/tourguide/service/RewardsService.java:66 | appending only rewards whose names are new keeps all reward names distinct |
| `Rewards.CalculateRewardsKeepsDistinct` | TourGuide/src/main/java/com/openclassrooms/tourguide/service/RewardsService.java:93-96 | if a user starts with distinct reward attraction names, the names are still distinct after a sequential `calculateRewards`, so there is at most one reward per attraction name |
| `Rewards.RewardsAtLocationCovers` | TourGuide/src/main/java/com/openclassrooms/tourguide/service/RewardsService.java:65-71 | after the inner loop, every catalog attraction inside the radius of the visit has its name among the rewards |
| `Rewards.CalculatedRewardsCover` | TourGuide/src/main/java/com/openclassrooms/tourguide/service/RewardsService.java:64-72 | after `calculateRewards`, every (visit, attraction) pair of the snapshot inside the radius has the attraction's name among the rewards |
| `Rewards.RewardsAtLocationIdle` | TourGuide/src/main/java/com/openclassrooms/tourguide/service/RewardsService.java:66 | when every attraction inside the radius of the visit is already named by a reward, the inner loop changes nothing |
| `Rewards.CalculatedRewardsIdle` | TourGuide/src/main/java/com/openclassrooms/tourguide/service/RewardsService.java:64-72 | when every qualifying pair is already named by a reward, `calculateRewards` changes nothing |
| `Rewards.CalculateRewardsIdempotent` | TourGuide/src/main/java/com/openclassrooms/tourguide/service/RewardsService.java:64-72 | a second `calculateRewards` on the same history and catalog grants nothing new |
| `Rewards.VisitAtAttractionEarnsReward` | src/test/java/com/openclassrooms/tourguide/TestPerformance.java:95-106 | a user whose history holds a visit at a catalog attraction's own coordinates ends with at least one reward, naming that attraction. Assumes the self-distance is 0 and the radius is non-negative |
| `Nearby.Insert` | TourGuide/src/main/java/com/openclassrooms/tourguide/service/TourGuideService.java:126 | one insertion step of the sort: the result is the old list plus the new entry, as a multiset |
| `Nearby.InsertSorted` | TourGuide/src/main/java/com/openclassrooms/tourguide/service/TourGuideService.java:126 | inserting into a list sorted by distance leaves it sorted by distance |
| `Nearby.SortByDistance` | TourGuide/src/main/java/com/openclassrooms/tourguide/service/TourGuideService.java:126 | the sort by distance returns a permutation of its input in non-decreasing distance order |
| `Nearby.InsertKeepsTieOrder` | TourGuide/src/main/java/com/openclassrooms/tourguide/service/TourGuideService.java:126 | insertion puts the new entry before all entries already present at its distance |
| `Nearby.SortKeepsTieOrder` | TourGuide/src/main/java/com/openclassrooms/tourguide/service/TourGuideService.java:126 | the sort is stable: at every distance, the entries come out in their input order |
| `Nearby.GetFiveClosestAttraction` | TourGuide/src/main/java/com/openclassrooms/tourguide/service/TourGuideService.java:125-128 | returns exactly `min(5, n)` entries, in non-decreasing distance order, drawn from the input (multiset inclusion) |
| `Nearby.FiveClosestAreClosest` | TourGuide/src/main/java/com/openclassrooms/tourguide/service/TourGuideService.java:125-128 | no entry left out is strictly closer than any entry kept |
| `Nearby.FiveClosestKeepTieOrder` | TourGuide/src/main/java/com/openclassrooms/tourguide/service/TourGuideService.java:125-128 | at every distance, the kept entries are a prefix of the input's entries at that distance, in input order |
| `TourGuide.NearbyEntry` | TourGuide/src/main/java/com/openclassrooms/tourguide/service/TourGuideService.java:109-112 | an entry carries the attraction's name and coordinates, the distance from the attraction to the user's location, and the oracle's points for (attraction id, user id) |
| `TourGuide.NearbyEntries` | TourGuide/src/main/java/com/openclassrooms/tourguide/service/TourGuideService.java:107-114 | one entry per catalog attraction, in catalog order, with the attraction's name and coordinates, its distance from the user's location and the oracle's points |
| `TourGuide.TourGuideService.GetNearByAttractions` | TourGuide/src/main/java/com/openclassrooms/tourguide/service/TourGuideService.java:103-123 | the result list is the five closest of the per-attraction entries, so it has exactly `min(5, n)` entries, each built from a catalog attraction; the user's latitude and longitude are passed through unchanged |
| `TourGuide.TourGuideService.constructor` | TourGuide/src/main/java/com/openclassrooms/tourguide/service/TourGuideService.java:45-59 | a new service holds the given reward service, catalog and pricer, and an empty user map, so no internal test users |
| `TourGuide.TourGuideService.GetUser` | TourGuide/src/main/java/com/openclassrooms/tourguide/service/TourGuideService.java:71-73 | returns the user registered under the name, whose name is that name; returns nothing exactly when the name is not registered |
| `TourGuide.TourGuideService.GetAllUsers` | TourGuide/src/main/java/com/openclassrooms/tourguide/service/TourGuideService.java:75-77 | returns every registered user and nobody else, one entry per registered name, with no user name repeated |
| `TourGuide.TourGuideService.AddUser` | TourGuide/src/main/java/com/openclassrooms/tourguide/service/TourGuideService.java:79-83 | registers the user only when the name is free and never overwrites an entry; afterwards `GetUser(name)` returns the stored user |
| `TourGuide.TourGuideService.TrackUserLocation` | TourGuide/src/main/java/com/openclassrooms/tourguide/service/TourGuideService.java:94-101 | appends exactly the visit the library reports for the user's id (earlier entries unchanged) and returns that same visit; then the rewards equal `CalculatedRewards` over the grown history, with distinct names kept distinct |
| `TourGuide.CumulativeRewardPointsConcat` | TourGuide/src/main/java/com/openclassrooms/tourguide/service/TourGuideService.java:86 | the point total of a concatenation is the sum of the totals of its parts |
| `TourGuide.CumulativeRewardPoints` | TourGuide/src/main/java/com/openclassrooms/tourguide/service/TourGuideService.java:86 | the point total handed to the pricer; when every reward has non-negative points, the total is non-negative |
| `TourGuide.RewardPointsAfterCalculation` | TourGuide/src/main/java/com/openclassrooms/tourguide/service/TourGuideService.java:86 | after a reward calculation, the total grows by exactly the points of the newly granted rewards, each set by the oracle |
| `TourGuide.TourGuideService.GetTripDeals` | TourGuide/src/main/java/com/openclassrooms/tourguide/service/TourGuideService.java:85-92 | the pricer receives the API key, the user's id and preferences, and the sum of the `rewardPoints` of all the user's rewards; its answer is returned and stored on the user |
| `TourGuide.UserLocationAsWritten` | TourGuide/src/main/java/com/openclassrooms/tourguide/service/TourGuideService.java:66-69 | as written, the answer is missing exactly when the history is empty |
| `TourGuide.UserLocationAsWrittenFailsForNewUser` | TourGuide/src/main/java/com/openclassrooms/tourguide/service/TourGuideService.java:66-69 | a user with an empty history gets no location from the code as written |
| `TourGuide.UserLocationAsWrittenRetracksKnownUser` | TourGuide/src/main/java/com/openclassrooms/tourguide/service/TourGuideService.java:66-69 | as written, a user with a history is answered with a fresh observation, not with the last visit, whenever the two differ |
| `TourGuide.TourGuideService.GetUserLocation` | TourGuide/src/main/java/com/openclassrooms/tourguide/service/TourGuideService.java:66-69 | corrected: always answers, and the answer is the last entry of the history afterwards; a known location is returned without change, and a user with no history is tracked once with the library's visit for the user's id |

## Findings

| source | as written | input that shows it | evidently intended | confidence | as-written member | corrected member |
|---|---|---|---|---|---|---|
| TourGuide/src/main/java/com/openclassrooms/tourguide/service/TourGuideService.java:66-69 | the condition is inverted: an empty history is answered with `getLastVisitedLocation()`, and a non-empty history triggers a fresh `trackUserLocation` | a newly created user with no visited locations: the last-location lookup has nothing to return (the list lookup throws) | return the last visited location when there is one, and track a fresh location otherwise | medium, not executed (the `User` class is not part of this model) | `TourGuide.UserLocationAsWritten` | `TourGuide.TourGuideService.GetUserLocation` |

## Left out

- Concurrency.
  - The model does not include the executor pools, `CompletableFuture` fan-out, `allOf`/`join`, or the future that `calculateRewards` and `trackUserLocation` return.
  - Every reward is appended before the next pair is checked, and `trackUserLocation` runs to completion.
  - The race between `shouldAddReward` and an asynchronous `addReward`, which can admit duplicate names, is not modelled.
  - Because the model is sequential, the history snapshot taken on entry equals the history for the whole call.
- `getDistance`: its spherical-law-of-cosines trigonometry on doubles is not modelled. The distance is any function of type `Distance` that returns a `real`, so it is never NaN.
  - The source passes the cosine sum to `Math.acos` without clamping it to [-1, 1]. For a visit at or next to an attraction's coordinates, rounding can push the sum just above 1, and then the distance is NaN.
  - Symmetry and zero self-distance are not assumed.
  - `VisitAtAttractionEarnsReward` takes a zero self-distance as a precondition.
- Rewards.NearAttraction: does not model a NaN distance. With NaN, `NaN > proximityBuffer ? false : true` answers "near"; the contract `near <==> d <= buffer` covers real distances only.
- Rewards.RewardsService.IsWithinAttractionProximity: does not model a NaN distance. With NaN the source answers "within", for the same reason.
- Nearby.SortByDistance: does not model a NaN distance. `Comparator.comparingDouble` sorts NaN after every number, so the attraction the user stands on can drop out of `GetFiveClosestAttraction`'s five; the model would put it first.
- TourGuide.TourGuideService.TrackUserLocation: the visit appended is whatever `GpsUtil.getUserLocation` answers for the user's id. That this visit carries the user's own id is a promise of the GPS library, which is not part of this model, so it is not proved here.
- `getRewardPoints`: its asynchronous wrapper is not modelled. `RewardCentral`, `GpsUtil` and `TripPricer` are fixed functions and values, so repeated calls give the same answer, unlike the live services.
- `User`, `UserReward` and `UserPreferences` (package `com.openclassrooms.tourguide.user`) are not part of this model. The model assumes:
  - `addUserReward` and `addToVisitedLocations` are plain appends;
  - `getLastVisitedLocation` returns the last list entry and fails on an empty list;
  - users are registered under their own user names.
- The mapper: `NearAttractionMapper` is generated code, and its declared method name differs from the one called. The model takes its projection to copy the attraction's name, latitude and longitude.
- `getUserRewards` and the `getNearByAttractions` catalog call: `getUserRewards` (a plain getter) is not modelled. `getNearByAttractions` reads the catalog directly, not through the cache, and the model does the same.
- Integer width: reward points and their sum are unbounded integers. The Java `int` sum in `getTripDeals` would wrap past 2^31 - 1, which no realistic point total reaches.
- Start-up and test plumbing: `Locale.setDefault`, logging and timing, the `Tracker`, the shutdown hook, and random generation of internal test users and their histories. A new `TourGuideService` starts with an empty user map, as in the tests that set the internal user count to 0.
