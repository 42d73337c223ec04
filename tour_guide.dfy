/** `TourGuideService`: the user registry, location tracking with reward
    calculation, the five-nearest-attractions query and the trip-deal quote. */
module TourGuide {
  import opened Gps
  import opened Users
  import opened Wrappers
  import opened Rewards
  import opened Nearby

  /** `TripPricer.getPrice(apiKey, attractionId, adults, children, nightsStay, rewardsPoints)`. */
  type TripPricer = (string, Uuid, int, int, int, int) -> seq<Provider>

  const TripPricerApiKey: string := "test-server-api-key"

  /** The sum of the reward points of a list of rewards, as `mapToInt(...).sum()`;
      non-negative points on every reward give a non-negative total. */
  function CumulativeRewardPoints(rewards: seq<UserReward>): (total: int)
    ensures (forall k :: 0 <= k < |rewards| ==> 0 <= rewards[k].rewardPoints) ==> 0 <= total
  {
    if rewards == [] then 0 else rewards[0].rewardPoints + CumulativeRewardPoints(rewards[1..])
  }

  /** The points of a concatenation are the points of its parts. */
  lemma {:induction false} CumulativeRewardPointsConcat(a: seq<UserReward>, b: seq<UserReward>)
    ensures CumulativeRewardPoints(a + b) == CumulativeRewardPoints(a) + CumulativeRewardPoints(b)
    decreases |a|
  {
    if a == [] {
      assert a + b == b;
    } else {
      assert (a + b)[1..] == a[1..] + b;
      CumulativeRewardPointsConcat(a[1..], b);
    }
  }

  /** After a reward calculation the points handed to the pricer grow by exactly
      the points of the newly granted rewards, each of which the oracle set. */
  lemma RewardPointsAfterCalculation(rule: RewardRule, userId: Uuid, locations: seq<VisitedLocation>,
                                     attractions: seq<Attraction>, rewards: seq<UserReward>)
    ensures var r := CalculatedRewards(rule, userId, locations, attractions, rewards);
      && r == rewards + r[|rewards|..]
      && CumulativeRewardPoints(r) == CumulativeRewardPoints(rewards) + CumulativeRewardPoints(r[|rewards|..])
      && (forall g :: g in r[|rewards|..] ==>
            g.rewardPoints == rule.rewardPoints(g.attraction.attractionId, userId))
  {
    var r := CalculatedRewards(rule, userId, locations, attractions, rewards);
    CalculatedRewardsSound(rule, userId, locations, attractions, rewards);
    assert r == r[..|rewards|] + r[|rewards|..];
    CumulativeRewardPointsConcat(rewards, r[|rewards|..]);
    forall g | g in r[|rewards|..]
      ensures g.rewardPoints == rule.rewardPoints(g.attraction.attractionId, userId)
    {
      var k :| 0 <= k < |r| - |rewards| && r[|rewards|..][k] == g;
      assert r[|rewards| + k] == g;
    }
  }

  /** The mapper's projection of one attraction, completed with its distance from
      the user's location and the oracle's points. */
  function NearbyEntry(distance: Distance, rewardPoints: PointsOracle, userId: Uuid,
                       location: Location, attraction: Attraction): (e: NearbyAttraction)
    ensures e.attractionName == attraction.attractionName
    ensures e.attractionLat == attraction.location.latitude && e.attractionLong == attraction.location.longitude
    ensures e.distance == distance(attraction.location, location)
    ensures e.rewardPoint == rewardPoints(attraction.attractionId, userId)
  {
    NearbyAttraction(attraction.attractionName, attraction.location.latitude, attraction.location.longitude,
                     distance(attraction.location, location), rewardPoints(attraction.attractionId, userId))
  }

  /** One entry per catalog attraction, in catalog order. */
  function NearbyEntries(distance: Distance, rewardPoints: PointsOracle, userId: Uuid,
                         location: Location, attractions: seq<Attraction>): (r: seq<NearbyAttraction>)
    ensures |r| == |attractions|
    ensures forall k :: 0 <= k < |r| ==> r[k] == NearbyEntry(distance, rewardPoints, userId, location, attractions[k])
  {
    seq(|attractions|, k requires 0 <= k < |attractions| =>
      NearbyEntry(distance, rewardPoints, userId, location, attractions[k]))
  }

  /** `getUserLocation` as written: an empty history is answered from the last
      visited location, which does not exist (`None`: the list lookup throws);
      a non-empty history is answered by tracking a fresh location. */
  function UserLocationAsWritten(visitedLocations: seq<VisitedLocation>, tracked: VisitedLocation): (r: Option<VisitedLocation>)
    ensures r.None? <==> visitedLocations == []
  {
    if visitedLocations == [] then LastVisitedLocation(visitedLocations) else Some(tracked)
  }

  /** A user with no history yet gets no location from the code as written. */
  lemma UserLocationAsWrittenFailsForNewUser(tracked: VisitedLocation)
    ensures UserLocationAsWritten([], tracked) == None
  {
  }

  /** A user with a history is re-tracked by the code as written instead of being
      answered with the last visit, so a fresh observation that differs from the
      last visit replaces it as the answer. */
  lemma UserLocationAsWrittenRetracksKnownUser(visitedLocations: seq<VisitedLocation>, tracked: VisitedLocation)
    requires visitedLocations != []
    requires tracked != visitedLocations[|visitedLocations| - 1]
    ensures UserLocationAsWritten(visitedLocations, tracked) != LastVisitedLocation(visitedLocations)
  {
  }

  /** `users` holds the users registered under the names in `seen`, one per
      name, and no other object. */
  ghost predicate ListsUsers(userMap: map<string, User>, seen: set<string>, users: seq<User>)
  {
    && seen <= userMap.Keys
    && |users| == |seen|
    && (forall i :: 0 <= i < |users| ==> users[i].userName in seen && users[i] == userMap[users[i].userName])
    && (forall name :: name in seen ==> userMap[name] in users)
    && (forall i, j :: 0 <= i < j < |users| ==> users[i].userName != users[j].userName)
  }

  lemma ListsOneMore(userMap: map<string, User>, seen: set<string>, users: seq<User>, name: string)
    requires ListsUsers(userMap, seen, users)
    requires forall n :: n in userMap ==> userMap[n].userName == n
    requires name in userMap && name !in seen
    ensures ListsUsers(userMap, seen + {name}, users + [userMap[name]])
  {
    var grown := users + [userMap[name]];
    assert forall i :: 0 <= i < |users| ==> grown[i] == users[i];
    assert grown[|users|] == userMap[name];
  }

  class TourGuideService {
    const rewardsService: RewardsService
    /** What this service's `gpsUtil.getAttractions()` returns. */
    const gpsAttractions: seq<Attraction>
    const tripPricer: TripPricer
    var internalUserMap: map<string, User>

    /** Every user is registered under its own user name. */
    ghost predicate Valid()
      reads this, rewardsService
    {
      && rewardsService.Valid()
      && forall name :: name in internalUserMap ==> internalUserMap[name].userName == name
    }

    /** A service with no internal test users. */
    constructor (rewardsService: RewardsService, gpsAttractions: seq<Attraction>, tripPricer: TripPricer)
      requires rewardsService.Valid()
      ensures Valid()
      ensures this.rewardsService == rewardsService && this.gpsAttractions == gpsAttractions
      ensures this.tripPricer == tripPricer && internalUserMap == map[]
    {
      this.rewardsService := rewardsService;
      this.gpsAttractions := gpsAttractions;
      this.tripPricer := tripPricer;
      internalUserMap := map[];
    }

    /** `getUser`: the user registered under the name, `None` for Java's `null`. */
    function GetUser(userName: string): (r: Option<User>)
      reads this, rewardsService
      requires Valid()
      ensures r.Some? <==> userName in internalUserMap
      ensures r.Some? ==> r.value == internalUserMap[userName] && r.value.userName == userName
    {
      if userName in internalUserMap then Some(internalUserMap[userName]) else None
    }

    /** `getAllUsers`: every registered user exactly once, and nobody else. */
    method GetAllUsers() returns (users: seq<User>)
      requires Valid()
      ensures |users| == |internalUserMap|
      ensures forall u :: u in users <==> u in internalUserMap.Values
      ensures forall i, j :: 0 <= i < j < |users| ==> users[i].userName != users[j].userName
    {
      var userMap := internalUserMap;
      users := [];
      var remaining := userMap.Keys;
      ghost var seen: set<string> := {};
      while remaining != {}
        invariant seen !! remaining && seen + remaining == userMap.Keys
        invariant ListsUsers(userMap, seen, users)
        decreases remaining
      {
        var name :| name in remaining;
        ListsOneMore(userMap, seen, users, name);
        users := users + [userMap[name]];
        seen := seen + {name};
        remaining := remaining - {name};
      }
      forall u | u in userMap.Values ensures u in users {
        var name :| name in userMap && userMap[name] == u;
      }
    }

    /** `addUser`: registers the user only when its name is free. */
    method AddUser(user: User)
      requires Valid()
      modifies this`internalUserMap
      ensures Valid()
      ensures internalUserMap == if user.userName in old(internalUserMap) then old(internalUserMap)
                                 else old(internalUserMap)[user.userName := user]
      ensures GetUser(user.userName) ==
                Some(if user.userName in old(internalUserMap) then old(internalUserMap)[user.userName] else user)
    {
      if user.userName !in internalUserMap {
        internalUserMap := internalUserMap[user.userName := user];
      }
    }

    /** `getTripDeals`: quotes the user's preferences with the sum of the user's
        reward points, and stores the quote on the user. */
    method GetTripDeals(user: User) returns (providers: seq<Provider>)
      modifies user`tripDeals
      ensures providers == tripPricer(TripPricerApiKey, user.userId, user.userPreferences.numberOfAdults,
                                      user.userPreferences.numberOfChildren, user.userPreferences.tripDuration,
                                      CumulativeRewardPoints(user.userRewards))
      ensures user.tripDeals == providers
    {
      var cumulativeRewardPoints := CumulativeRewardPoints(user.userRewards);
      providers := tripPricer(TripPricerApiKey, user.userId, user.userPreferences.numberOfAdults,
                              user.userPreferences.numberOfChildren, user.userPreferences.tripDuration,
                              cumulativeRewardPoints);
      user.SetTripDeals(providers);
    }

    /** `trackUserLocation`: appends the library's observation for the user's id
        to the history, returns it, then runs the reward calculation over the
        grown history. */
    method TrackUserLocation(user: User, gpsUserLocation: UserLocationOracle) returns (visitedLocation: VisitedLocation)
      requires Valid()
      modifies user`visitedLocations, user`userRewards, rewardsService`attractionList, rewardsService`catalogFetches
      ensures Valid()
      ensures visitedLocation == gpsUserLocation(user.userId)
      ensures user.visitedLocations == old(user.visitedLocations) + [visitedLocation]
      ensures user.userRewards == CalculatedRewards(rewardsService.Rule(), user.userId, user.visitedLocations,
                                                    rewardsService.gpsAttractions, old(user.userRewards))
      ensures DistinctNames(old(user.userRewards)) ==> DistinctNames(user.userRewards)
    {
      visitedLocation := gpsUserLocation(user.userId);
      user.AddToVisitedLocations(visitedLocation);
      rewardsService.CalculateRewards(user);
    }

    /** `getUserLocation` as evidently intended: the last known location when
        there is one, otherwise a freshly tracked one. Either way the answer is
        the last entry of the history afterwards. */
    method GetUserLocation(user: User, gpsUserLocation: UserLocationOracle) returns (visitedLocation: VisitedLocation)
      requires Valid()
      modifies user`visitedLocations, user`userRewards, rewardsService`attractionList, rewardsService`catalogFetches
      ensures Valid()
      ensures user.visitedLocations != [] && visitedLocation == user.visitedLocations[|user.visitedLocations| - 1]
      ensures old(user.visitedLocations) != [] ==>
                user.visitedLocations == old(user.visitedLocations) && user.userRewards == old(user.userRewards)
      ensures old(user.visitedLocations) == [] ==>
                && visitedLocation == gpsUserLocation(user.userId)
                && user.visitedLocations == [visitedLocation]
                && user.userRewards == CalculatedRewards(rewardsService.Rule(), user.userId, user.visitedLocations,
                                                         rewardsService.gpsAttractions, old(user.userRewards))
    {
      var last := user.GetLastVisitedLocation();
      if last.Some? {
        visitedLocation := last.value;
      } else {
        visitedLocation := TrackUserLocation(user, gpsUserLocation);
      }
    }

    /** `getNearByAttractions`: one entry per catalog attraction, then the five
        closest, with the user's coordinates carried through. */
    method GetNearByAttractions(visitedLocation: VisitedLocation, user: User) returns (result: NearAttractionResult)
      ensures result.nearbyAttractionList ==
                GetFiveClosestAttraction(NearbyEntries(rewardsService.distance, rewardsService.rewardsCentral,
                                                       user.userId, visitedLocation.location, gpsAttractions))
      ensures |result.nearbyAttractionList| == Min(ClosestCount, |gpsAttractions|)
      ensures forall e :: e in result.nearbyAttractionList ==>
                exists a :: a in gpsAttractions &&
                  e == NearbyEntry(rewardsService.distance, rewardsService.rewardsCentral, user.userId,
                                   visitedLocation.location, a)
      ensures result.userLat == visitedLocation.location.latitude
      ensures result.userLong == visitedLocation.location.longitude
    {
      var nearbyAttractionList: seq<NearbyAttraction> := [];
      var i := 0;
      while i < |gpsAttractions|
        invariant 0 <= i <= |gpsAttractions|
        invariant |nearbyAttractionList| == i
        invariant forall k :: 0 <= k < i ==>
                    nearbyAttractionList[k] == NearbyEntry(rewardsService.distance, rewardsService.rewardsCentral,
                                                           user.userId, visitedLocation.location, gpsAttractions[k])
      {
        var attraction := gpsAttractions[i];
        var nearbyAttraction := NearbyAttraction(attraction.attractionName, attraction.location.latitude,
                                                 attraction.location.longitude, 0.0, 0);
        nearbyAttraction := nearbyAttraction.(distance := rewardsService.distance(attraction.location, visitedLocation.location));
        nearbyAttraction := nearbyAttraction.(rewardPoint := rewardsService.GetRewardPoints(attraction, user.userId));
        nearbyAttractionList := nearbyAttractionList + [nearbyAttraction];
        i := i + 1;
      }
      ghost var entries := NearbyEntries(rewardsService.distance, rewardsService.rewardsCentral,
                                         user.userId, visitedLocation.location, gpsAttractions);
      assert nearbyAttractionList == entries;
      nearbyAttractionList := GetFiveClosestAttraction(nearbyAttractionList);
      forall e | e in nearbyAttractionList
        ensures exists a :: a in gpsAttractions &&
                  e == NearbyEntry(rewardsService.distance, rewardsService.rewardsCentral, user.userId,
                                   visitedLocation.location, a)
      {
        assert e in multiset(entries);
        var k :| 0 <= k < |entries| && entries[k] == e;
        assert gpsAttractions[k] in gpsAttractions;
      }
      result := NearAttractionResult(nearbyAttractionList, visitedLocation.location.latitude,
                                     visitedLocation.location.longitude);
    }
  }
}
