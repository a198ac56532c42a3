/// Record shapes shared by the trip computer: position fixes, ride and refuel
/// log entries and the user's settings. Dates and timestamps are milliseconds
/// since the epoch; every length, volume and price is an exact real.
module Types {

  datatype Option<T> = None | Some(value: T)

  /// One fix from the positioning subsystem. The raw speed reported by the
  /// device is absent on many devices and is never used by the estimator.
  datatype Position = Position(
    latitude: real,
    longitude: real,
    accuracy: real,
    speed: Option<real>,
    timestamp: int)

  /// One saved ride (an entry of the rides table).
  datatype Ride = Ride(
    dateStart: int,
    dateEnd: int,
    distanceKm: real,
    avgSpeedKmH: real,
    fuelUsed: real)

  /// One refuel (an entry of the refuels table); the odometer is optional.
  datatype Refuel = Refuel(
    date: int,
    litres: real,
    pricePerLitre: real,
    totalCost: real,
    odometer: Option<int>)

  datatype Theme = Light | Dark

  datatype Settings = Settings(userAverageKmpl: real, theme: Theme)
}

/// The local database: its two logs are sequences in insertion order.
module Store {
  import opened Types

  class Tables {
    var rides: seq<Ride>
    var refuels: seq<Refuel>

    constructor ()
      ensures rides == [] && refuels == []
    {
      rides := [];
      refuels := [];
    }
  }
}
