/** The user records the services read and update. */
module Users {
  import opened Gps
  import opened Wrappers

  /** A reward: the visit that triggered it, the attraction earned, its points. */
  datatype UserReward = UserReward(visitedLocation: VisitedLocation, attraction: Attraction, rewardPoints: int)

  /** The trip parameters handed to the pricer. */
  datatype UserPreferences = UserPreferences(numberOfAdults: int, numberOfChildren: int, tripDuration: int)

  /** One offer returned by the pricer. */
  datatype Provider = Provider(name: string, price: real, tripId: Uuid)

  /** The most recent visit of a history; `None` where the history is empty and
      the list lookup would throw. */
  function LastVisitedLocation(visitedLocations: seq<VisitedLocation>): (r: Option<VisitedLocation>)
    ensures r.Some? <==> visitedLocations != []
    ensures r.Some? ==> r.value == visitedLocations[|visitedLocations| - 1]
  {
    if visitedLocations == [] then None else Some(visitedLocations[|visitedLocations| - 1])
  }

  /** A tracked user: identity, append-only location history, rewards and
      the last quote list. */
  class User {
    const userId: Uuid
    const userName: string
    var visitedLocations: seq<VisitedLocation>
    var userRewards: seq<UserReward>
    var userPreferences: UserPreferences
    var tripDeals: seq<Provider>

    constructor (userId: Uuid, userName: string)
      ensures this.userId == userId && this.userName == userName
      ensures visitedLocations == [] && userRewards == [] && tripDeals == []
    {
      this.userId := userId;
      this.userName := userName;
      visitedLocations := [];
      userRewards := [];
      userPreferences := UserPreferences(1, 0, 1);
      tripDeals := [];
    }

    method AddToVisitedLocations(visitedLocation: VisitedLocation)
      modifies this`visitedLocations
      ensures visitedLocations == old(visitedLocations) + [visitedLocation]
    {
      visitedLocations := visitedLocations + [visitedLocation];
    }

    method AddUserReward(userReward: UserReward)
      modifies this`userRewards
      ensures userRewards == old(userRewards) + [userReward]
    {
      userRewards := userRewards + [userReward];
    }

    method SetTripDeals(deals: seq<Provider>)
      modifies this`tripDeals
      ensures tripDeals == deals
    {
      tripDeals := deals;
    }

    function GetLastVisitedLocation(): Option<VisitedLocation>
      reads this
    {
      LastVisitedLocation(visitedLocations)
    }
  }
}
