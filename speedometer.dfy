/// The dashboard: starting and stopping a ride, the ride record saved at the
/// end of a meaningful ride, and the fuel and range figures derived from the
/// refuel and ride logs.
module Speedometer {
  import opened Types
  import opened Store
  import opened SpeedCalculator
  import opened FuelLog

  /// Rides of at most this many kilometres are GPS noise and are not saved.
  const MEANINGFUL_RIDE_KM: real := 0.01

  /// The top of the speed dial, in km/h.
  const DIAL_MAX_KMH: real := 150.0

  /// Circumference of the dial's arc in the drawing's units.
  const DIAL_ARC: real := 283.0

  // ---------------------------------------------------------------------
  // Fuel and range

  /// Range shown on the dashboard. Both inputs come from live queries and
  /// are absent until their query has answered; a zero fuel figure also
  /// shows a zero range.
  function EstimatedRange(settings: Option<Settings>, totalFuel: Option<real>): (r: real)
    ensures settings.None? || totalFuel.None? || totalFuel.value == 0.0 ==> r == 0.0
    ensures settings.Some? && totalFuel.Some? && totalFuel.value != 0.0
      ==> r == totalFuel.value * settings.value.userAverageKmpl
  {
    if settings.Some? && totalFuel.Some? && totalFuel.value != 0.0
    then totalFuel.value * settings.value.userAverageKmpl
    else 0.0
  }

  /// Once both queries have answered, the falsy guard is harmless: the range
  /// is exactly (litres refuelled - litres used) * km per litre.
  lemma RangeFromLogs(s: Settings, refuels: seq<Refuel>, rides: seq<Ride>)
    ensures EstimatedRange(Some(s), Some(TotalFuel(refuels, rides)))
      == (Sum(refuels, Litres) - Sum(rides, FuelUsed)) * s.userAverageKmpl
  {
  }

  // ---------------------------------------------------------------------
  // The dial

  /// How much of the dial is filled: speeds above the top fill all of it.
  function DialFraction(speedKmh: real): (r: real)
    ensures speedKmh >= 0.0 ==> 0.0 <= r <= 1.0
    ensures speedKmh >= DIAL_MAX_KMH ==> r == 1.0
    ensures r * DIAL_MAX_KMH == if speedKmh < DIAL_MAX_KMH then speedKmh else DIAL_MAX_KMH
  {
    (if speedKmh < DIAL_MAX_KMH then speedKmh else DIAL_MAX_KMH) / DIAL_MAX_KMH
  }

  /// Unfilled length of the dial's arc.
  function DialDashOffset(speedKmh: real): (r: real)
    ensures speedKmh >= 0.0 ==> 0.0 <= r <= DIAL_ARC
    ensures speedKmh == 0.0 ==> r == DIAL_ARC
  {
    DIAL_ARC - DialFraction(speedKmh) * DIAL_ARC
  }

  // ---------------------------------------------------------------------
  // The ride record

  /// 10^digits.
  function Scale(digits: nat): (r: real)
    ensures r >= 1.0
  {
    if digits == 0 then 1.0 else 10.0 * Scale(digits - 1)
  }

  /// The whole number of 1/scale units nearest to x, halves rounded away
  /// from zero. The bounds pin it down: a half-open interval of width 1
  /// holds exactly one integer.
  function Units(x: real, scale: real): (n: int)
    requires scale >= 1.0
    ensures x >= 0.0 ==> -0.5 < n as real - x * scale <= 0.5
    ensures x < 0.0 ==> -0.5 <= n as real - x * scale < 0.5
    ensures x >= 0.0 ==> n >= 0
    ensures x <= 0.0 ==> n <= 0
  {
    if x >= 0.0 then (x * scale + 0.5).Floor
    else
      assert (-x) * scale == -(x * scale);
      -((-x) * scale + 0.5).Floor
  }

  /// A number printed with `digits` decimals and read back: a whole number
  /// of 10^-digits units, the one nearest to x with halves rounded away from
  /// zero.
  function ToFixed(x: real, digits: nat): (r: real)
    ensures r * Scale(digits) == Units(x, Scale(digits)) as real
    ensures x >= 0.0 ==> -0.5 < r * Scale(digits) - x * Scale(digits) <= 0.5
    ensures x < 0.0 ==> -0.5 <= r * Scale(digits) - x * Scale(digits) < 0.5
    ensures x >= 0.0 ==> r >= 0.0
    ensures x <= 0.0 ==> r <= 0.0
  {
    var scale := Scale(digits);
    var n := Units(x, scale);
    assert n as real / scale * scale == n as real;
    n as real / scale
  }

  /// The rounding is pinned down: only one integer lies within half a unit
  /// of x * scale under the tie rule, so every candidate is Units' answer.
  lemma UnitsUnique(x: real, scale: real, k: int)
    requires scale >= 1.0
    requires x >= 0.0 ==> -0.5 < k as real - x * scale <= 0.5
    requires x < 0.0 ==> -0.5 <= k as real - x * scale < 0.5
    ensures k == Units(x, scale)
  {
    SameUnits(k, Units(x, scale), x * scale, x >= 0.0);
  }

  /// Only one integer lies within half a unit of v under a fixed tie rule.
  lemma SameUnits(k: int, n: int, v: real, tiesUp: bool)
    requires tiesUp ==> -0.5 < k as real - v <= 0.5 && -0.5 < n as real - v <= 0.5
    requires !tiesUp ==> -0.5 <= k as real - v < 0.5 && -0.5 <= n as real - v < 0.5
    ensures k == n
  {
  }

  /// Kilometres per litre used for a saved ride: the user's setting, or the
  /// default when there are no settings or the setting is zero.
  function UserAverage(settings: Option<Settings>, defaultKmpl: real): (r: real)
    requires defaultKmpl > 0.0
    ensures r != 0.0
    ensures settings.Some? && settings.value.userAverageKmpl != 0.0 ==> r == settings.value.userAverageKmpl
    ensures settings.None? || settings.value.userAverageKmpl == 0.0 ==> r == defaultKmpl
  {
    if settings.Some? && settings.value.userAverageKmpl != 0.0
    then settings.value.userAverageKmpl
    else defaultKmpl
  }

  /// Whether stopping a ride saves it.
  predicate ShouldSave(distanceKm: real, startTime: Option<int>)
  {
    distanceKm > MEANINGFUL_RIDE_KM && startTime.Some?
  }

  /// The ride record saved when a ride stops.
  function NewRide(dateStart: int, dateEnd: int, distanceKm: real, avgSpeedKmh: real, userAverage: real): (r: Ride)
    requires userAverage != 0.0
    ensures r.dateStart == dateStart && r.dateEnd == dateEnd
    ensures r.fuelUsed * userAverage == distanceKm
    ensures r.distanceKm * 100.0 == Units(distanceKm, 100.0) as real
    ensures r.avgSpeedKmH * 10.0 == Units(avgSpeedKmh, 10.0) as real
    ensures -0.5 <= r.distanceKm * 100.0 - distanceKm * 100.0 <= 0.5
    ensures -0.5 <= r.avgSpeedKmH * 10.0 - avgSpeedKmh * 10.0 <= 0.5
    ensures r.distanceKm == ToFixed(distanceKm, 2) && r.avgSpeedKmH == ToFixed(avgSpeedKmh, 1)
    ensures distanceKm >= 0.0 && userAverage > 0.0 ==> r.distanceKm >= 0.0 && r.fuelUsed >= 0.0
  {
    assert Scale(2) == 100.0 && Scale(1) == 10.0;
    Ride(dateStart, dateEnd, ToFixed(distanceKm, 2), ToFixed(avgSpeedKmh, 1), distanceKm / userAverage)
  }

  /// A saved ride takes distance / km-per-litre litres from the fuel left.
  lemma RideConsumesFuel(refuels: seq<Refuel>, rides: seq<Ride>, dateStart: int, dateEnd: int,
                         distanceKm: real, avgSpeedKmh: real, userAverage: real)
    requires userAverage != 0.0
    ensures var ride := NewRide(dateStart, dateEnd, distanceKm, avgSpeedKmh, userAverage);
      TotalFuel(refuels, rides + [ride]) == TotalFuel(refuels, rides) - distanceKm / userAverage
  {
    var ride := NewRide(dateStart, dateEnd, distanceKm, avgSpeedKmh, userAverage);
    TotalFuelAfterRides(refuels, rides, [ride]);
    assert [ride][..0] == [];
  }

  /// A trip of 5 metres is not a ride.
  lemma ShortTripNotSaved(startTime: Option<int>)
    ensures !ShouldSave(0.005, startTime)
  {
  }

  // ---------------------------------------------------------------------
  // The component's state

  class Dashboard {
    var isRiding: bool
    var startTime: Option<int>
    const calculator: Calculator
    const db: Tables
    /// The application's default mileage in km per litre.
    const defaultKmpl: real

    ghost predicate Valid()
      reads this, calculator
    {
      calculator.Valid() && defaultKmpl > 0.0
    }

    constructor (calculator: Calculator, db: Tables, defaultKmpl: real)
      requires calculator.Valid() && defaultKmpl > 0.0
      ensures Valid() && !isRiding && startTime == None
      ensures this.calculator == calculator && this.db == db && this.defaultKmpl == defaultKmpl
    {
      this.calculator := calculator;
      this.db := db;
      this.defaultKmpl := defaultKmpl;
      isRiding := false;
      startTime := None;
    }

    /// Starts a ride at wall-clock time `now`: a fresh trip, a start time
    /// and the riding flag.
    method StartRide(now: int)
      requires Valid()
      modifies this, calculator
      ensures Valid()
      ensures calculator.State() == Reset(old(calculator.State()), now)
      ensures startTime == Some(now) && isRiding
    {
      calculator.ResetTrip(now);
      startTime := Some(now);
      isRiding := true;
    }

    /// Stops the ride at wall-clock time `now`, saving a ride record when the
    /// ride was meaningful. `settings` is the settings query's current answer
    /// and `saveSucceeds` the outcome of the insert; a failed insert is only
    /// logged, and the stop completes either way.
    method StopRide(now: int, settings: Option<Settings>, saveSucceeds: bool)
      requires Valid()
      modifies this, db
      ensures Valid()
      ensures !isRiding && startTime == None
      ensures db.refuels == old(db.refuels)
      ensures db.rides ==
        if ShouldSave(calculator.distanceKm, old(startTime)) && saveSucceeds
        then old(db.rides) + [NewRide(old(startTime).value, now, calculator.distanceKm,
                                      calculator.avgSpeedKmh, UserAverage(settings, defaultKmpl))]
        else old(db.rides)
    {
      isRiding := false;
      if calculator.distanceKm > MEANINGFUL_RIDE_KM && startTime.Some? {
        var userAverage := UserAverage(settings, defaultKmpl);
        var ride := NewRide(startTime.value, now, calculator.distanceKm, calculator.avgSpeedKmh, userAverage);
        if saveSucceeds {
          db.rides := db.rides + [ride];
        }
      }
      startTime := None;
    }
  }
}
