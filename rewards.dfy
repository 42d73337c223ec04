/** Reward attribution: the two proximity predicates, the "no reward with this
    attraction name yet" rule, and `calculateRewards` run sequentially over a
    snapshot of the user's history and the cached attraction catalog. */
module Rewards {
  import opened Gps
  import opened Users
  import opened Wrappers

  /** The reward radius a service starts with and is reset to, in miles. */
  const DefaultProximityBuffer: int := 10
  /** The fixed display radius of `isWithinAttractionProximity`, in miles. */
  const AttractionProximityRange: int := 200

  /** What one `calculateRewards` call reads of its service: the reward
      radius in force, the distance function and the points oracle. */
  datatype RewardRule = RewardRule(proximityBuffer: int, distance: Distance, rewardPoints: PointsOracle)

  /** `nearAttraction`: written as "farther than the buffer ? false : true". */
  function NearAttraction(rule: RewardRule, visitedLocation: VisitedLocation, attraction: Attraction): (near: bool)
    ensures near <==> rule.distance(attraction.location, visitedLocation.location) <= rule.proximityBuffer as real
  {
    if rule.distance(attraction.location, visitedLocation.location) > rule.proximityBuffer as real then false else true
  }

  /** The attraction names a list of rewards already covers. */
  ghost function Names(rewards: seq<UserReward>): set<string>
  {
    set i | 0 <= i < |rewards| :: rewards[i].attraction.attractionName
  }

  lemma NamesAppend(rewards: seq<UserReward>, reward: UserReward)
    ensures Names(rewards + [reward]) == Names(rewards) + {reward.attraction.attractionName}
  {
    var s := rewards + [reward];
    forall n | n in Names(s) ensures n in Names(rewards) + {reward.attraction.attractionName} {
      var i :| 0 <= i < |s| && s[i].attraction.attractionName == n;
      if i < |rewards| { assert rewards[i] == s[i]; }
    }
    forall n | n in Names(rewards) ensures n in Names(s) {
      var i :| 0 <= i < |rewards| && rewards[i].attraction.attractionName == n;
      assert s[i] == rewards[i];
    }
    assert s[|rewards|] == reward;
  }

  /** `shouldAddReward`: the stream's `noneMatch` on attraction names, walked
      element by element. It holds exactly when no held reward has the name. */
  function ShouldAddReward(rewards: seq<UserReward>, attraction: Attraction): (b: bool)
    ensures b <==> attraction.attractionName !in Names(rewards)
  {
    if rewards == [] then true
    else
      var rest := rewards[1..];
      assert rewards == [rewards[0]] + rest;
      assert Names(rewards) == Names(rest) + {rewards[0].attraction.attractionName} by {
        forall n | n in Names(rewards) ensures n in Names(rest) + {rewards[0].attraction.attractionName} {
          var i :| 0 <= i < |rewards| && rewards[i].attraction.attractionName == n;
          if 0 < i { assert rest[i - 1] == rewards[i]; }
        }
        forall n | n in Names(rest) ensures n in Names(rewards) {
          var i :| 0 <= i < |rest| && rest[i].attraction.attractionName == n;
          assert rewards[i + 1] == rest[i];
        }
      }
      rewards[0].attraction.attractionName != attraction.attractionName && ShouldAddReward(rest, attraction)
  }

  /** `addReward`'s new record: the visit, the attraction, the oracle's points. */
  function NewReward(rule: RewardRule, userId: Uuid, visitedLocation: VisitedLocation, attraction: Attraction): (r: UserReward)
    ensures r.visitedLocation == visitedLocation && r.attraction == attraction
    ensures r.rewardPoints == rule.rewardPoints(attraction.attractionId, userId)
  {
    UserReward(visitedLocation, attraction, rule.rewardPoints(attraction.attractionId, userId))
  }

  /** One iteration of the inner loop: the reward list after the pair
      (visitedLocation, attraction) has been considered. */
  function Step(rule: RewardRule, userId: Uuid, rewards: seq<UserReward>,
                visitedLocation: VisitedLocation, attraction: Attraction): seq<UserReward>
  {
    if ShouldAddReward(rewards, attraction) && NearAttraction(rule, visitedLocation, attraction)
    then rewards + [NewReward(rule, userId, visitedLocation, attraction)]
    else rewards
  }

  /** `result` is `held` followed only by rewards that each come from a pair of
      `locations` x `attractions` inside the reward radius, carry the oracle's
      points, and name an attraction no earlier reward names. */
  ghost predicate SoundExtension(rule: RewardRule, userId: Uuid, locations: seq<VisitedLocation>,
                                 attractions: seq<Attraction>, held: seq<UserReward>, result: seq<UserReward>)
  {
    && |held| <= |result|
    && result[..|held|] == held
    && forall i :: |held| <= i < |result| ==>
         && result[i].visitedLocation in locations
         && result[i].attraction in attractions
         && NearAttraction(rule, result[i].visitedLocation, result[i].attraction)
         && result[i] == NewReward(rule, userId, result[i].visitedLocation, result[i].attraction)
         && result[i].attraction.attractionName !in Names(result[..i])
  }

  /** Every pair of `locations` x `attractions` inside the reward radius has its
      attraction's name among the rewards. */
  ghost predicate Covers(rule: RewardRule, locations: seq<VisitedLocation>, attractions: seq<Attraction>,
                         rewards: seq<UserReward>)
  {
    forall v, a :: v in locations && a in attractions && NearAttraction(rule, v, a) ==>
      a.attractionName in Names(rewards)
  }

  /** No two rewards name the same attraction. */
  ghost predicate DistinctNames(rewards: seq<UserReward>)
  {
    forall i, j :: 0 <= i < j < |rewards| ==>
      rewards[i].attraction.attractionName != rewards[j].attraction.attractionName
  }

  /** The inner loop over the catalog for one visited location. */
  function RewardsAtLocation(rule: RewardRule, userId: Uuid, visitedLocation: VisitedLocation,
                             attractions: seq<Attraction>, rewards: seq<UserReward>): (r: seq<UserReward>)
    ensures |rewards| <= |r| && r[..|rewards|] == rewards
    decreases |attractions|
  {
    if attractions == [] then rewards
    else
      var n := |attractions| - 1;
      Step(rule, userId, RewardsAtLocation(rule, userId, visitedLocation, attractions[..n], rewards),
           visitedLocation, attractions[n])
  }

  /** The outer loop over the history snapshot: the rewards a user holds after
      a sequential `calculateRewards`, starting from `rewards`. */
  function CalculatedRewards(rule: RewardRule, userId: Uuid, locations: seq<VisitedLocation>,
                             attractions: seq<Attraction>, rewards: seq<UserReward>): (r: seq<UserReward>)
    ensures |rewards| <= |r| && r[..|rewards|] == rewards
    decreases |locations|
  {
    if locations == [] then rewards
    else
      var n := |locations| - 1;
      RewardsAtLocation(rule, userId, locations[n], attractions,
                        CalculatedRewards(rule, userId, locations[..n], attractions, rewards))
  }

  /** One step is a sound extension for its single pair. */
  lemma StepSound(rule: RewardRule, userId: Uuid, rewards: seq<UserReward>,
                  visitedLocation: VisitedLocation, attraction: Attraction)
    ensures SoundExtension(rule, userId, [visitedLocation], [attraction], rewards,
                           Step(rule, userId, rewards, visitedLocation, attraction))
  {
    var after := Step(rule, userId, rewards, visitedLocation, attraction);
    if after != rewards {
      assert after[..|rewards|] == rewards;
    }
  }

  /** A sound extension of a sound extension is a sound extension, over the
      union of the pairs. */
  lemma SoundExtensionTrans(rule: RewardRule, userId: Uuid,
                            locations1: seq<VisitedLocation>, attractions1: seq<Attraction>,
                            locations2: seq<VisitedLocation>, attractions2: seq<Attraction>,
                            locations: seq<VisitedLocation>, attractions: seq<Attraction>,
                            a: seq<UserReward>, b: seq<UserReward>, c: seq<UserReward>)
    requires SoundExtension(rule, userId, locations1, attractions1, a, b)
    requires SoundExtension(rule, userId, locations2, attractions2, b, c)
    requires forall v :: v in locations1 || v in locations2 ==> v in locations
    requires forall x :: x in attractions1 || x in attractions2 ==> x in attractions
    ensures SoundExtension(rule, userId, locations, attractions, a, c)
  {
    assert c[..|a|] == a by {
      assert c[..|b|][..|a|] == c[..|a|];
    }
    forall i | |a| <= i < |b| ensures c[..i] == b[..i] {
      assert c[..|b|][..i] == c[..i];
    }
  }

  /** The inner loop only appends sound rewards for its visit and the catalog. */
  lemma {:induction false} RewardsAtLocationSound(rule: RewardRule, userId: Uuid, visitedLocation: VisitedLocation,
                                                  attractions: seq<Attraction>, rewards: seq<UserReward>)
    ensures SoundExtension(rule, userId, [visitedLocation], attractions, rewards,
                           RewardsAtLocation(rule, userId, visitedLocation, attractions, rewards))
    decreases |attractions|
  {
    if attractions == [] {
      assert rewards[..|rewards|] == rewards;
    } else {
      var n := |attractions| - 1;
      var before := RewardsAtLocation(rule, userId, visitedLocation, attractions[..n], rewards);
      RewardsAtLocationSound(rule, userId, visitedLocation, attractions[..n], rewards);
      StepSound(rule, userId, before, visitedLocation, attractions[n]);
      forall x | x in attractions[..n] || x in [attractions[n]] ensures x in attractions {
        if x in attractions[..n] {
          var k :| 0 <= k < n && attractions[..n][k] == x;
          assert attractions[k] == x;
        }
      }
      SoundExtensionTrans(rule, userId, [visitedLocation], attractions[..n], [visitedLocation], [attractions[n]],
                          [visitedLocation], attractions, rewards, before,
                          Step(rule, userId, before, visitedLocation, attractions[n]));
    }
  }

  /** The whole cross product only appends sound rewards for the snapshot and the catalog. */
  lemma {:induction false} CalculatedRewardsSound(rule: RewardRule, userId: Uuid, locations: seq<VisitedLocation>,
                                                  attractions: seq<Attraction>, rewards: seq<UserReward>)
    ensures SoundExtension(rule, userId, locations, attractions, rewards,
                           CalculatedRewards(rule, userId, locations, attractions, rewards))
    decreases |locations|
  {
    if locations == [] {
      assert rewards[..|rewards|] == rewards;
    } else {
      var n := |locations| - 1;
      var before := CalculatedRewards(rule, userId, locations[..n], attractions, rewards);
      CalculatedRewardsSound(rule, userId, locations[..n], attractions, rewards);
      RewardsAtLocationSound(rule, userId, locations[n], attractions, before);
      forall v | v in locations[..n] || v in [locations[n]] ensures v in locations {
        if v in locations[..n] {
          var k :| 0 <= k < n && locations[..n][k] == v;
          assert locations[k] == v;
        }
      }
      SoundExtensionTrans(rule, userId, locations[..n], attractions, [locations[n]], attractions,
                          locations, attractions, rewards, before,
                          RewardsAtLocation(rule, userId, locations[n], attractions, before));
    }
  }

  /** A sound extension of a list with distinct names has distinct names. */
  lemma SoundExtensionKeepsDistinct(rule: RewardRule, userId: Uuid, locations: seq<VisitedLocation>,
                                    attractions: seq<Attraction>, held: seq<UserReward>, result: seq<UserReward>)
    requires SoundExtension(rule, userId, locations, attractions, held, result)
    requires DistinctNames(held)
    ensures DistinctNames(result)
  {
    forall i, j | 0 <= i < j < |result|
      ensures result[i].attraction.attractionName != result[j].attraction.attractionName
    {
      if j < |held| {
        assert result[i] == held[i] && result[j] == held[j];
      } else {
        assert result[..j][i] == result[i];
        assert result[i].attraction.attractionName in Names(result[..j]);
      }
    }
  }

  /** Sequential `calculateRewards` keeps at most one reward per attraction name. */
  lemma CalculateRewardsKeepsDistinct(rule: RewardRule, userId: Uuid, locations: seq<VisitedLocation>,
                                      attractions: seq<Attraction>, rewards: seq<UserReward>)
    requires DistinctNames(rewards)
    ensures DistinctNames(CalculatedRewards(rule, userId, locations, attractions, rewards))
  {
    var r := CalculatedRewards(rule, userId, locations, attractions, rewards);
    CalculatedRewardsSound(rule, userId, locations, attractions, rewards);
    SoundExtensionKeepsDistinct(rule, userId, locations, attractions, rewards, r);
  }

  /** Names held are never lost: the result starts with the old rewards. */
  lemma NamesGrow(held: seq<UserReward>, result: seq<UserReward>)
    requires |held| <= |result| && result[..|held|] == held
    ensures Names(held) <= Names(result)
  {
    forall n | n in Names(held) ensures n in Names(result) {
      var i :| 0 <= i < |held| && held[i].attraction.attractionName == n;
      assert result[i] == held[i];
    }
  }

  /** After the inner loop, every attraction of the scanned catalog prefix that is
      inside the radius of the location has its name held. */
  lemma {:induction false} RewardsAtLocationCovers(rule: RewardRule, userId: Uuid, visitedLocation: VisitedLocation,
                                                   attractions: seq<Attraction>, rewards: seq<UserReward>)
    ensures forall a :: a in attractions && NearAttraction(rule, visitedLocation, a) ==>
              a.attractionName in Names(RewardsAtLocation(rule, userId, visitedLocation, attractions, rewards))
    decreases |attractions|
  {
    if attractions != [] {
      var n := |attractions| - 1;
      var before := RewardsAtLocation(rule, userId, visitedLocation, attractions[..n], rewards);
      var after := Step(rule, userId, before, visitedLocation, attractions[n]);
      RewardsAtLocationCovers(rule, userId, visitedLocation, attractions[..n], rewards);
      NamesGrow(before, after);
      if after != before {
        NamesAppend(before, NewReward(rule, userId, visitedLocation, attractions[n]));
      }
      forall a | a in attractions && NearAttraction(rule, visitedLocation, a)
        ensures a.attractionName in Names(after)
      {
        if a != attractions[n] {
          assert a in attractions[..n] by {
            var k :| 0 <= k < |attractions| && attractions[k] == a;
            assert attractions[..n][k] == a;
          }
        }
      }
    }
  }

  /** Completeness: after `calculateRewards`, every (location, attraction) pair of
      the snapshot inside the reward radius has its attraction's name rewarded. */
  lemma {:induction false} CalculatedRewardsCover(rule: RewardRule, userId: Uuid, locations: seq<VisitedLocation>,
                                                  attractions: seq<Attraction>, rewards: seq<UserReward>)
    ensures Covers(rule, locations, attractions, CalculatedRewards(rule, userId, locations, attractions, rewards))
    decreases |locations|
  {
    if locations != [] {
      var n := |locations| - 1;
      var before := CalculatedRewards(rule, userId, locations[..n], attractions, rewards);
      var after := RewardsAtLocation(rule, userId, locations[n], attractions, before);
      CalculatedRewardsCover(rule, userId, locations[..n], attractions, rewards);
      RewardsAtLocationCovers(rule, userId, locations[n], attractions, before);
      RewardsAtLocationSound(rule, userId, locations[n], attractions, before);
      NamesGrow(before, after);
      forall v, a | v in locations && a in attractions && NearAttraction(rule, v, a)
        ensures a.attractionName in Names(after)
      {
        if v != locations[n] {
          assert v in locations[..n] by {
            var k :| 0 <= k < |locations| && locations[k] == v;
            assert locations[..n][k] == v;
          }
        }
      }
    }
  }

  /** When every qualifying pair's name is already held, the inner loop adds nothing. */
  lemma {:induction false} RewardsAtLocationIdle(rule: RewardRule, userId: Uuid, visitedLocation: VisitedLocation,
                                                 attractions: seq<Attraction>, rewards: seq<UserReward>)
    requires Covers(rule, [visitedLocation], attractions, rewards)
    ensures RewardsAtLocation(rule, userId, visitedLocation, attractions, rewards) == rewards
    decreases |attractions|
  {
    if attractions != [] {
      var n := |attractions| - 1;
      assert attractions == attractions[..n] + [attractions[n]];
      RewardsAtLocationIdle(rule, userId, visitedLocation, attractions[..n], rewards);
    }
  }

  /** When every qualifying pair's name is already held, `calculateRewards` adds nothing. */
  lemma {:induction false} CalculatedRewardsIdle(rule: RewardRule, userId: Uuid, locations: seq<VisitedLocation>,
                                                 attractions: seq<Attraction>, rewards: seq<UserReward>)
    requires Covers(rule, locations, attractions, rewards)
    ensures CalculatedRewards(rule, userId, locations, attractions, rewards) == rewards
    decreases |locations|
  {
    if locations != [] {
      var n := |locations| - 1;
      assert locations == locations[..n] + [locations[n]];
      CalculatedRewardsIdle(rule, userId, locations[..n], attractions, rewards);
      RewardsAtLocationIdle(rule, userId, locations[n], attractions, rewards);
    }
  }

  /** Running `calculateRewards` a second time on the same state grants nothing new. */
  lemma CalculateRewardsIdempotent(rule: RewardRule, userId: Uuid, locations: seq<VisitedLocation>,
                                   attractions: seq<Attraction>, rewards: seq<UserReward>)
    ensures var once := CalculatedRewards(rule, userId, locations, attractions, rewards);
            CalculatedRewards(rule, userId, locations, attractions, once) == once
  {
    var once := CalculatedRewards(rule, userId, locations, attractions, rewards);
    CalculatedRewardsCover(rule, userId, locations, attractions, rewards);
    CalculatedRewardsIdle(rule, userId, locations, attractions, once);
  }

  /** A user who visited a catalog attraction's exact coordinates ends with at least
      one reward, given a zero self-distance and a non-negative buffer. */
  lemma VisitAtAttractionEarnsReward(rule: RewardRule, userId: Uuid, locations: seq<VisitedLocation>,
                                     attractions: seq<Attraction>, rewards: seq<UserReward>,
                                     visit: VisitedLocation, attraction: Attraction)
    requires visit in locations && attraction in attractions
    requires visit.location == attraction.location
    requires rule.distance(attraction.location, attraction.location) == 0.0
    requires 0 <= rule.proximityBuffer
    ensures var r := CalculatedRewards(rule, userId, locations, attractions, rewards);
            |r| > 0 && attraction.attractionName in Names(r)
  {
    CalculatedRewardsCover(rule, userId, locations, attractions, rewards);
  }

  /** `RewardsService`: the reward radius, the catalog cache, and the collaborators
      the service was built with. */
  class RewardsService {
    var proximityBuffer: int
    /** What `gpsUtil.getAttractions()` returns. */
    const gpsAttractions: seq<Attraction>
    const distance: Distance
    const rewardsCentral: PointsOracle
    /** The lazily filled catalog cache (`null` until the first fetch). */
    var attractionList: Option<seq<Attraction>>
    /** How many times the catalog has been fetched from the library. */
    ghost var catalogFetches: nat

    ghost predicate Valid()
      reads this
    {
      && catalogFetches <= 1
      && (attractionList.None? <==> catalogFetches == 0)
      && (attractionList.Some? ==> attractionList.value == gpsAttractions)
    }

    constructor (gpsAttractions: seq<Attraction>, distance: Distance, rewardsCentral: PointsOracle)
      ensures Valid()
      ensures proximityBuffer == DefaultProximityBuffer && attractionList == None && catalogFetches == 0
      ensures this.gpsAttractions == gpsAttractions && this.distance == distance
      ensures this.rewardsCentral == rewardsCentral
    {
      proximityBuffer := DefaultProximityBuffer;
      this.gpsAttractions := gpsAttractions;
      this.distance := distance;
      this.rewardsCentral := rewardsCentral;
      attractionList := None;
      catalogFetches := 0;
    }

    /** The rule a `calculateRewards` call applies, read from the current fields. */
    function Rule(): RewardRule
      reads this
    {
      RewardRule(proximityBuffer, distance, rewardsCentral)
    }

    method SetProximityBuffer(proximityBuffer: int)
      modifies this`proximityBuffer
      ensures this.proximityBuffer == proximityBuffer
    {
      this.proximityBuffer := proximityBuffer;
    }

    method SetDefaultProximityBuffer()
      modifies this`proximityBuffer
      ensures proximityBuffer == DefaultProximityBuffer
    {
      proximityBuffer := DefaultProximityBuffer;
    }

    /** The cached catalog; the library is asked only when the cache is empty. */
    method GetAttractions() returns (attractions: seq<Attraction>)
      requires Valid()
      modifies this`attractionList, this`catalogFetches
      ensures Valid()
      ensures attractions == gpsAttractions && attractionList == Some(gpsAttractions)
      ensures catalogFetches == 1
      ensures catalogFetches == old(catalogFetches) + (if old(attractionList).None? then 1 else 0)
    {
      if attractionList.None? {
        attractionList := Some(gpsAttractions);
        catalogFetches := catalogFetches + 1;
        attractions := gpsAttractions;
      } else {
        attractions := attractionList.value;
      }
    }

    /** `getRewardPoints`: the oracle's points for the attraction and the user. */
    function GetRewardPoints(attraction: Attraction, userId: Uuid): (points: int)
      ensures forall buffer, v :: NewReward(RewardRule(buffer, distance, rewardsCentral), userId, v, attraction).rewardPoints == points
    {
      rewardsCentral(attraction.attractionId, userId)
    }

    /** `isWithinAttractionProximity`: inclusive display radius of 200 miles. */
    function IsWithinAttractionProximity(attraction: Attraction, location: Location): (within: bool)
      ensures within <==> distance(attraction.location, location) <= AttractionProximityRange as real
    {
      if distance(attraction.location, location) > AttractionProximityRange as real then false else true
    }

    /** `addReward`: appends the visit, the attraction and the oracle's points. */
    method AddReward(user: User, visitedLocation: VisitedLocation, attraction: Attraction)
      modifies user`userRewards
      ensures user.userRewards == old(user.userRewards) + [NewReward(Rule(), user.userId, visitedLocation, attraction)]
    {
      var rewardPoints := GetRewardPoints(attraction, user.userId);
      user.AddUserReward(UserReward(visitedLocation, attraction, rewardPoints));
    }

    /** `calculateRewards`, each reward appended before the next pair is checked. */
    method CalculateRewards(user: User)
      requires Valid()
      modifies this`attractionList, this`catalogFetches, user`userRewards
      ensures Valid() && catalogFetches == 1
      ensures user.userRewards ==
                CalculatedRewards(Rule(), user.userId, user.visitedLocations, gpsAttractions, old(user.userRewards))
      ensures DistinctNames(old(user.userRewards)) ==> DistinctNames(user.userRewards)
    {
      var userLocationsCopy := user.visitedLocations;
      var attractions := GetAttractions();
      var rule := Rule();
      ghost var start := user.userRewards;
      var i := 0;
      while i < |userLocationsCopy|
        invariant 0 <= i <= |userLocationsCopy|
        invariant attractionList == Some(gpsAttractions) && catalogFetches == 1
        invariant user.userRewards == CalculatedRewards(rule, user.userId, userLocationsCopy[..i], attractions, start)
      {
        var visitedLocation := userLocationsCopy[i];
        ghost var before := user.userRewards;
        var j := 0;
        while j < |attractions|
          invariant 0 <= j <= |attractions|
          invariant attractionList == Some(gpsAttractions) && catalogFetches == 1
          invariant user.userRewards == RewardsAtLocation(rule, user.userId, visitedLocation, attractions[..j], before)
        {
          var attraction := attractions[j];
          ghost var next := Step(rule, user.userId, user.userRewards, visitedLocation, attraction);
          assert RewardsAtLocation(rule, user.userId, visitedLocation, attractions[..j + 1], before) == next by {
            assert attractions[..j + 1][..j] == attractions[..j];
          }
          if ShouldAddReward(user.userRewards, attraction) && NearAttraction(rule, visitedLocation, attraction) {
            AddReward(user, visitedLocation, attraction);
          }
          assert user.userRewards == next;
          j := j + 1;
        }
        assert user.userRewards == CalculatedRewards(rule, user.userId, userLocationsCopy[..i + 1], attractions, start) by {
          assert attractions[..j] == attractions;
          assert userLocationsCopy[..i + 1][..i] == userLocationsCopy[..i];
        }
        i := i + 1;
      }
      assert userLocationsCopy[..i] == userLocationsCopy;
      if DistinctNames(start) {
        CalculateRewardsKeepsDistinct(rule, user.userId, userLocationsCopy, attractions, start);
      }
    }
  }
}
