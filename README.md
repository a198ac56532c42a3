# Motorcycle trip computer — verified model of the motion core

This project models the core of a personal motorcycle trip computer. The
core turns a stream of GPS position fixes into a smoothed speed, a trip
distance and a trip average speed. From the ride and refuel logs it then
derives the fuel left and the estimated range.

- `types.dfy` — module `Types` holds the record shapes (position fix, ride,
  refuel, settings). Module `Store` holds the two database tables as
  sequence fields of class `Tables`.
- `speed_calculator.dfy` — module `SpeedCalculator` holds the motion
  estimator of `hooks/useSpeedCalculator.ts`. Datatype `Estimator` is the
  hook's whole state. `Ingest` and `Reset` are one effect run and one
  `resetTrip` on that state. Class `Calculator` keeps the same state in
  mutable fields, and its methods `OnPosition` and `ResetTrip` are proved
  to do exactly `Ingest` and `Reset`. The lemmas beside them state the
  branch behaviour (null fix, first fix, noise gate, non-positive elapsed
  time, accepted move, average speed). They also state trip-wide facts over
  any series of fixes.
- `fuel_log.dfy` — module `FuelLog` holds the folds over the refuel and
  ride logs that give the fuel left (`components/Speedometer.tsx:17-22`).
  Both the dashboard and the refuel form use it.
- `speedometer.dfy` — module `Speedometer` holds the dashboard of
  `components/Speedometer.tsx`. It covers the estimated range, the dial
  fill and the ride record, with its decimal rounding. Class `Dashboard`
  has `StartRide` and `StopRide`.
- `fuel_tracker.dfy` — module `FuelTracker` holds the refuel form of
  `components/FuelTracker.tsx`. It covers amount validation, record
  construction and class `RefuelForm` with `AddRefuel`.

Arithmetic is exact real arithmetic. Times are integer milliseconds. Some
values come from outside the core, and the model takes each one as a
parameter:
- the wall clock (`Date.now()`, `new Date()`);
- the outcome of each database insert (`saveSucceeds`);
- the current answer of the settings query;
- the haversine distance. It is a constant of type `DistanceFn`: any total
  function on two fixes that is never negative.

The default mileage `DEFAULT_MILEAGE_KMPL` is defined in `constants.ts`,
which is not part of this model. It is the `Dashboard`'s `defaultKmpl`,
required to be positive.

The model keeps three details of the code:
- `resetTrip` does not reset the smoothed speed or the published speed.
  Both carry over into the next trip.
- Before the first reset the trip start time is 0.
- A saved ride's distance and average speed are rounded, to 2 and 1
  decimals.

## Model

| member | source | states |
|---|---|---|
| SpeedCalculator.Initial | hooks/useSpeedCalculator.ts:25-34 | the hook starts with no anchor, zero speed, distance and average, start time 0, and in a consistent state |
| SpeedCalculator.Seconds | hooks/useSpeedCalculator.ts:52 | the elapsed seconds are positive exactly when the later timestamp is greater |
| SpeedCalculator.Smooth | hooks/useSpeedCalculator.ts:22-59 | the α = 0.3 filter stays non-negative on non-negative inputs and always lies between the previous value and the raw reading |
| SpeedCalculator.Ingest | hooks/useSpeedCalculator.ts:43-78 | one effect run keeps the state consistent (published speed equals the smoothed speed, distanceKm = metres/1000, nothing negative), never decreases total distance and keeps the start time |
| SpeedCalculator.Reset | hooks/useSpeedCalculator.ts:36-41 | resetting the trip keeps the state consistent |
| SpeedCalculator.NullPositionUnchanged | hooks/useSpeedCalculator.ts:44 | a null position leaves the whole state unchanged |
| SpeedCalculator.FirstFixIsBaseline | hooks/useSpeedCalculator.ts:36-47 | after a reset the first fix becomes the anchor and changes neither distance nor speed; the average stays 0 |
| SpeedCalculator.NoiseGate | hooks/useSpeedCalculator.ts:51 | a move no larger than the fix's accuracy leaves smoothed speed, speedKmh, total distance and distanceKm unchanged, and still replaces the anchor |
| SpeedCalculator.NonPositiveElapsed | hooks/useSpeedCalculator.ts:52-54 | a non-positive elapsed time leaves speed and distance unchanged, and still replaces the anchor |
| SpeedCalculator.AcceptedStep | hooks/useSpeedCalculator.ts:55-64 | on an accepted move the new smoothed speed is 0.3·(d/t·3.6) + 0.7·old, which is non-negative when old is; total distance grows by exactly d; distanceKm = total/1000 |
| SpeedCalculator.AnchorAlwaysReplaced | hooks/useSpeedCalculator.ts:69-70 | the incoming fix is the next anchor, whichever branch ran |
| SpeedCalculator.AverageFromClock | hooks/useSpeedCalculator.ts:72-77 | when now > startTime the average is total/((now−startTime)/1000)·3.6; otherwise it is unchanged |
| SpeedCalculator.ResetClearsTrip | hooks/useSpeedCalculator.ts:36-41 | reset sets total distance, distanceKm and average to 0, startTime to now and the anchor to none, and leaves smoothed and published speed untouched |
| SpeedCalculator.ReplayNeverLosesDistance | hooks/useSpeedCalculator.ts:63 | no series of fixes decreases the total distance or moves the start time |
| SpeedCalculator.ReplayKeepsConsistent | hooks/useSpeedCalculator.ts:43-78 | from a consistent state every series of fixes keeps speed, distance and average non-negative and the published values in step |
| SpeedCalculator.DistanceKmMonotone | hooks/useSpeedCalculator.ts:63-64 | the published trip distance after any prefix of a trip is at most the distance after the whole trip |
| SpeedCalculator.OneStepFromRest | hooks/useSpeedCalculator.ts:55-64 | after a reset from rest, two fixes 1000 m and 100 s apart with 5 m accuracy give 10.8 km/h and 1 km |
| SpeedCalculator.TenKmInHalfAnHour | hooks/useSpeedCalculator.ts:73-77 | 10 km over 30 minutes of trip time averages 20 km/h |
| SpeedCalculator.StaleAnchorDropped | hooks/useSpeedCalculator.ts:52-70 | an out-of-order fix changes neither speed nor distance, and the next accepted fix is measured from it |
| SpeedCalculator.Calculator.constructor | hooks/useSpeedCalculator.ts:25-34 | the hook's refs and state start at the initial estimator state |
| SpeedCalculator.Calculator.ResetTrip | hooks/useSpeedCalculator.ts:36-41 | resetting in place produces exactly Reset of the previous state |
| SpeedCalculator.Calculator.OnPosition | hooks/useSpeedCalculator.ts:43-78 | the in-place effect produces exactly Ingest of the previous state and keeps the invariant |
| FuelLog.Sum | components/Speedometer.tsx:20-21 | the reduce over a log of non-negative amounts is non-negative |
| FuelLog.TotalFuel | components/Speedometer.tsx:17-22 | fuel left is the sum of refuel litres minus the sum of ride fuelUsed |
| FuelLog.SumAppend | components/Speedometer.tsx:20-21 | the reduce over two logs put together is the sum of the two reduces |
| Speedometer.EstimatedRange | components/Speedometer.tsx:25 | range is totalFuel·km-per-litre when settings and a non-zero fuel figure exist, and 0 otherwise |
| Speedometer.RangeFromLogs | components/Speedometer.tsx:17-25 | once both queries have answered, range is (litres refuelled − litres ridden)·km-per-litre, zero fuel included |
| FuelLog.TotalFuelAfterRefuels | components/Speedometer.tsx:17-22 | appending refuels adds their litres to the fuel left |
| FuelLog.TotalFuelAfterRides | components/Speedometer.tsx:17-22 | appending rides subtracts their fuel used from the fuel left |
| Speedometer.DialFraction | components/Speedometer.tsx:75 | the dial fill min(speed,150)/150 lies in [0,1] for non-negative speed and is 1 from 150 km/h up |
| Speedometer.DialDashOffset | components/Speedometer.tsx:75 | the unfilled arc 283 − fill·283 lies in [0,283] for non-negative speed and is the full arc at rest |
| Speedometer.Units | components/Speedometer.tsx:40-41 | the rounded count of 10^-n units lies within half a unit of x·10^n, ties going away from zero, and keeps the sign |
| Speedometer.UnitsUnique | components/Speedometer.tsx:40-41 | the count is pinned down: every integer meeting that tie rule equals Units' answer |
| Speedometer.ToFixed | components/Speedometer.tsx:40-41 | printing with n decimals and reading back gives exactly Units' count of 10^-n units: the n-decimal value nearest to x, halves away from zero, with the sign kept |
| Speedometer.UserAverage | components/Speedometer.tsx:36 | km-per-litre is the user's setting when present and non-zero, and the default otherwise; it is never zero |
| Speedometer.NewRide | components/Speedometer.tsx:37-43 | the ride record has fuelUsed·userAverage = distanceKm, the start and end dates given, and distance and average equal to ToFixed to 2 and 1 decimals, each a whole number of 0.01 and 0.1 units within half a unit |
| Speedometer.RideConsumesFuel | components/Speedometer.tsx:17-42 | a saved ride lowers the fuel left by exactly distanceKm / userAverage |
| Speedometer.ShouldSave | components/Speedometer.tsx:35 | a ride is saved only when distanceKm > 0.01 and a start time exists |
| Speedometer.ShortTripNotSaved | components/Speedometer.tsx:35 | a 0.005 km trip is never saved |
| Speedometer.Dashboard.constructor | components/Speedometer.tsx:11-12 | the dashboard starts not riding and without a start time |
| Speedometer.Dashboard.StartRide | components/Speedometer.tsx:27-31 | starting a ride resets the trip, records the start time and sets riding |
| Speedometer.Dashboard.StopRide | components/Speedometer.tsx:33-51 | stopping always clears riding and the start time; it appends the ride record exactly when distanceKm > 0.01, a start time exists and the insert succeeds, and otherwise leaves the rides log as it was |
| FuelTracker.ValidAmounts | components/FuelTracker.tsx:21 | amounts are valid exactly when litres and price are both numbers greater than zero |
| FuelTracker.BuildRefuel | components/FuelTracker.tsx:18-33 | a submission is accepted exactly when litres and price are numbers > 0; the record then has totalCost = litres·price > 0 and the entered odometer; otherwise the invalid-input message |
| FuelTracker.AcceptedLitresNonNegative | components/FuelTracker.tsx:21-31 | a log of accepted refuels holds a non-negative total of litres |
| FuelTracker.RefuelRaisesFuel | components/FuelTracker.tsx:27-36 | an accepted refuel raises the fuel left by exactly its litres |
| FuelTracker.RefuelForm.constructor | components/FuelTracker.tsx:8-11 | the form starts with empty fields and no error |
| FuelTracker.RefuelForm.AddRefuel | components/FuelTracker.tsx:16-44 | invalid amounts set the error and change nothing else; valid ones clear the error, then either append the record and clear all three fields, or set the save error and keep the fields; every record in the log stays accepted |

## Left out

- The haversine formula's trigonometry (`hooks/useSpeedCalculator.ts:6-19`)
  is floating-point numerics. The model keeps only that the distance is a
  fixed, non-negative function of the two fixes.
- Floating-point representation: NaN, infinities and rounding of `0.3`,
  `1 - 0.3`, `/ 1000` and `* 3.6` are not modelled. All arithmetic is exact.
- Text parsing (`parseFloat`, `parseInt`) is not modelled. The form fields
  hold what parsing gives. An odometer text that is not empty but does not
  parse (NaN in the source) is not represented.
- `Dashboard.StartRide` uses one clock reading for both `resetTrip` and the
  ride's start date. The source reads the clock twice, a moment apart.
- `Dashboard.StopRide` and `RefuelForm.AddRefuel` each run as one atomic
  step. In the source both handlers are asynchronous and await the database
  insert before their last writes. `stopRide` clears the start time only
  after `await db.rides.add` (`components/Speedometer.tsx:45-50`), but it
  has already cleared the riding flag. A ride started while that insert is
  pending gets its new start time erased. That ride then rides with no start
  time and is never saved. `handleAddRefuel` clears the fields only after
  `await db.refuels.add` (`components/FuelTracker.tsx:36-39`). A second submit
  while the insert is pending appends the same refuel twice, and anything
  typed meanwhile is wiped. The model does not capture these interleavings.
- React scheduling is not modelled. State setters take effect at once, and
  the effect runs once per new position value.
- Rendering, the input `onChange` handlers and the permission banner are not
  modelled.
- The geolocation wrapper (`hooks/useGeolocation.ts`) is not modelled: it is
  browser API plumbing with asynchronous callbacks.
- The storage engine is not modelled. Tables are sequences, an insert's
  outcome is a parameter, and the live queries' answers are parameters.
- The settings screen and theme hook (`components/Settings.tsx`,
  `hooks/useTheme.ts`) are not modelled: they are form and DOM plumbing.
- Error logging to the console on a failed insert is not modelled.
