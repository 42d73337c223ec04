/** The value types of the GPS library the services are written against
    (`gpsUtil.location`), and the shapes of the external oracles. */
module Gps {
  /** Coordinates in degrees; the library does not range-check them. */
  datatype Location = Location(latitude: real, longitude: real)

  /** Identifier of a user or an attraction (a UUID in the library). */
  type Uuid = int

  /** One position observation of one user, with its timestamp. */
  datatype VisitedLocation = VisitedLocation(userId: Uuid, location: Location, timeVisited: int)

  /** A catalog attraction. In the library an attraction IS a location; here
      its coordinates are the `location` field. */
  datatype Attraction = Attraction(
    attractionName: string,
    city: string,
    state: string,
    attractionId: Uuid,
    location: Location)

  /** `RewardsService.getDistance(loc1, loc2)`: the great-circle distance in
      statute miles. Its trigonometry is not modelled; every operation takes
      the distance as a function value. */
  type Distance = (Location, Location) -> real

  /** `GpsUtil.getUserLocation(userId)`: the library's current observation for a
      user. Its answer changes from call to call, so each call that asks it takes
      the answer function as an argument. */
  type UserLocationOracle = Uuid -> VisitedLocation

  /** `RewardCentral.getAttractionRewardPoints(attractionId, userId)`. */
  type PointsOracle = (Uuid, Uuid) -> int
}
