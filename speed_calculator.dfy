/// The motion estimator: a reducer that takes one position fix at a time and
/// keeps a smoothed speed, the trip's total distance and its average speed.
/// `Estimator` is the abstract state and `Ingest`/`Reset` say what one step
/// does to it; class `Calculator` holds the same state in mutable fields and
/// its methods are proved to perform exactly those steps.
module SpeedCalculator {
  import opened Types

  /// Weight of the newest raw reading in the exponential smoothing filter.
  const SMOOTHING_FACTOR: real := 0.3

  /// Great-circle distance in metres between two fixes. Its trigonometric
  /// internals are not modelled; all the estimator relies on is that it is a
  /// fixed function of the two fixes and never negative.
  type DistanceFn = f: (Position, Position) -> real
    | forall p: Position, q: Position :: f(p, q) >= 0.0
    witness (p: Position, q: Position) => 0.0

  /// Everything the estimator holds: the anchor fix, the smoothed speed, the
  /// trip record (total metres and start time) and the three published values.
  datatype Estimator = Estimator(
    last: Option<Position>,
    smoothedSpeed: real,
    totalDistance: real,
    startTime: int,
    speedKmh: real,
    distanceKm: real,
    avgSpeedKmh: real)

  /// The state before any fix and before any reset.
  function Initial(): (e: Estimator)
    ensures Consistent(e) && e.last == None && e.startTime == 0
  {
    Estimator(None, 0.0, 0.0, 0, 0.0, 0.0, 0.0)
  }

  /// What every reachable state satisfies: the published speed and distance
  /// mirror the internal ones and nothing is negative.
  predicate Consistent(e: Estimator)
  {
    e.speedKmh == e.smoothedSpeed
    && e.distanceKm == e.totalDistance / 1000.0
    && e.smoothedSpeed >= 0.0
    && e.totalDistance >= 0.0
    && e.avgSpeedKmh >= 0.0
  }

  /// Seconds between two millisecond instants.
  function Seconds(fromMillis: int, toMillis: int): (s: real)
    ensures s > 0.0 <==> toMillis > fromMillis
  {
    (toMillis - fromMillis) as real / 1000.0
  }

  /// One step of the first-order filter.
  function Smooth(previous: real, rawKmh: real): (r: real)
    ensures previous >= 0.0 && rawKmh >= 0.0 ==> r >= 0.0
    ensures previous <= rawKmh ==> previous <= r <= rawKmh
    ensures rawKmh <= previous ==> rawKmh <= r <= previous
  {
    SMOOTHING_FACTOR * rawKmh + (1.0 - SMOOTHING_FACTOR) * previous
  }

  /// Whether a move from `anchor` to `fix` is real motion: it must exceed the
  /// fix's accuracy and take a positive amount of time.
  predicate Accepted(anchor: Position, fix: Position, dist: DistanceFn)
  {
    dist(anchor, fix) > fix.accuracy && Seconds(anchor.timestamp, fix.timestamp) > 0.0
  }

  /// The movement part of a step: speed and distance change only on an
  /// accepted move; the anchor always becomes the new fix.
  function Move(e: Estimator, fix: Position, dist: DistanceFn): Estimator
  {
    var e' :=
      if e.last.Some? && Accepted(e.last.value, fix, dist) then
        var meters := dist(e.last.value, fix);
        var rawKmh := meters / Seconds(e.last.value.timestamp, fix.timestamp) * 3.6;
        var smoothed := Smooth(e.smoothedSpeed, rawKmh);
        var total := e.totalDistance + meters;
        e.(smoothedSpeed := smoothed, speedKmh := smoothed,
           totalDistance := total, distanceKm := total / 1000.0)
      else e;
    e'.(last := Some(fix))
  }

  /// Trip average speed at wall-clock time `now`, if the trip has lasted a
  /// positive time; otherwise the previous average is kept.
  function Averaged(e: Estimator, now: int): Estimator
  {
    var duration := Seconds(e.startTime, now);
    if duration > 0.0 then e.(avgSpeedKmh := e.totalDistance / duration * 3.6) else e
  }

  /// The effect run for each new position value (null included).
  function Ingest(e: Estimator, position: Option<Position>, now: int, dist: DistanceFn): (r: Estimator)
    ensures Consistent(e) ==> Consistent(r)
    ensures r.totalDistance >= e.totalDistance
    ensures r.startTime == e.startTime
  {
    match position
    case None => e
    case Some(fix) => Averaged(Move(e, fix, dist), now)
  }

  /// Starting a new trip: distance, average, trip record and anchor are
  /// cleared; the smoothed and published speed are left as they were.
  function Reset(e: Estimator, now: int): (r: Estimator)
    ensures Consistent(e) ==> Consistent(r)
  {
    e.(distanceKm := 0.0, avgSpeedKmh := 0.0, totalDistance := 0.0,
       startTime := now, last := None)
  }

  /// A timed input to the estimator: a position value and the clock reading
  /// at the moment the effect runs.
  datatype Event = Event(position: Option<Position>, now: int)

  /// The estimator after a series of events, in order.
  function Replay(e: Estimator, events: seq<Event>, dist: DistanceFn): Estimator
    decreases |events|
  {
    if events == [] then e
    else Replay(Ingest(e, events[0].position, events[0].now, dist), events[1..], dist)
  }

  // ---------------------------------------------------------------------
  // Properties of one step

  lemma NullPositionUnchanged(e: Estimator, now: int, dist: DistanceFn)
    ensures Ingest(e, None, now, dist) == e
  {
  }

  /// After a reset the first fix only becomes the anchor.
  lemma FirstFixIsBaseline(e: Estimator, t0: int, fix: Position, now: int, dist: DistanceFn)
    ensures var r := Ingest(Reset(e, t0), Some(fix), now, dist);
      r.last == Some(fix) && r.totalDistance == 0.0 && r.distanceKm == 0.0
      && r.smoothedSpeed == e.smoothedSpeed && r.speedKmh == e.speedKmh
      && r.avgSpeedKmh == 0.0 && r.startTime == t0
  {
  }

  /// A move no larger than the fix's accuracy is noise.
  lemma NoiseGate(e: Estimator, fix: Position, now: int, dist: DistanceFn)
    requires e.last.Some? && dist(e.last.value, fix) <= fix.accuracy
    ensures var r := Ingest(e, Some(fix), now, dist);
      r.smoothedSpeed == e.smoothedSpeed && r.speedKmh == e.speedKmh
      && r.totalDistance == e.totalDistance && r.distanceKm == e.distanceKm
      && r.last == Some(fix)
  {
  }

  /// Duplicate or out-of-order timestamps skip the update.
  lemma NonPositiveElapsed(e: Estimator, fix: Position, now: int, dist: DistanceFn)
    requires e.last.Some? && Seconds(e.last.value.timestamp, fix.timestamp) <= 0.0
    ensures var r := Ingest(e, Some(fix), now, dist);
      r.smoothedSpeed == e.smoothedSpeed && r.speedKmh == e.speedKmh
      && r.totalDistance == e.totalDistance && r.distanceKm == e.distanceKm
      && r.last == Some(fix)
  {
  }

  /// An accepted move: the smoothed speed takes 30% of the raw speed in km/h
  /// and the total grows by exactly the distance covered.
  lemma AcceptedStep(e: Estimator, fix: Position, now: int, dist: DistanceFn)
    requires e.last.Some? && Accepted(e.last.value, fix, dist)
    ensures var r := Ingest(e, Some(fix), now, dist);
      var d := dist(e.last.value, fix);
      var t := (fix.timestamp - e.last.value.timestamp) as real / 1000.0;
      r.smoothedSpeed == 0.3 * (d / t * 3.6) + 0.7 * e.smoothedSpeed
      && r.speedKmh == r.smoothedSpeed
      && (e.smoothedSpeed >= 0.0 ==> r.smoothedSpeed >= 0.0)
      && r.totalDistance == e.totalDistance + d
      && r.distanceKm == r.totalDistance / 1000.0
      && r.last == Some(fix)
  {
  }

  /// Whatever branch was taken, the incoming fix is the next anchor.
  lemma AnchorAlwaysReplaced(e: Estimator, fix: Position, now: int, dist: DistanceFn)
    ensures Ingest(e, Some(fix), now, dist).last == Some(fix)
  {
  }

  /// The average is recomputed from the wall clock whenever the trip has
  /// lasted a positive time, and kept otherwise.
  lemma AverageFromClock(e: Estimator, fix: Position, now: int, dist: DistanceFn)
    ensures var r := Ingest(e, Some(fix), now, dist);
      if now > e.startTime
      then r.avgSpeedKmh == r.totalDistance / ((now - e.startTime) as real / 1000.0) * 3.6
      else r.avgSpeedKmh == e.avgSpeedKmh
  {
  }

  lemma ResetClearsTrip(e: Estimator, now: int)
    ensures var r := Reset(e, now);
      r.totalDistance == 0.0 && r.distanceKm == 0.0 && r.avgSpeedKmh == 0.0
      && r.startTime == now && r.last == None
      && r.smoothedSpeed == e.smoothedSpeed && r.speedKmh == e.speedKmh
  {
  }

  // ---------------------------------------------------------------------
  // Properties of whole trips

  /// No series of fixes ever decreases the trip distance.
  lemma {:induction false} ReplayNeverLosesDistance(e: Estimator, events: seq<Event>, dist: DistanceFn)
    ensures Replay(e, events, dist).totalDistance >= e.totalDistance
    ensures Replay(e, events, dist).startTime == e.startTime
    decreases |events|
  {
    if events != [] {
      var e1 := Ingest(e, events[0].position, events[0].now, dist);
      ReplayNeverLosesDistance(e1, events[1..], dist);
    }
  }

  /// Every state reached from a consistent one is consistent; in particular
  /// speed, distance and average are never negative.
  lemma {:induction false} ReplayKeepsConsistent(e: Estimator, events: seq<Event>, dist: DistanceFn)
    requires Consistent(e)
    ensures Consistent(Replay(e, events, dist))
    decreases |events|
  {
    if events != [] {
      var e1 := Ingest(e, events[0].position, events[0].now, dist);
      ReplayKeepsConsistent(e1, events[1..], dist);
    }
  }

  /// Splitting a series of events: replaying `a + b` is replaying `a`, then `b`.
  lemma {:induction false} ReplayAppend(e: Estimator, a: seq<Event>, b: seq<Event>, dist: DistanceFn)
    ensures Replay(e, a + b, dist) == Replay(Replay(e, a, dist), b, dist)
    decreases |a|
  {
    if a == [] {
      assert a + b == b;
    } else {
      var e1 := Ingest(e, a[0].position, a[0].now, dist);
      assert (a + b)[1..] == a[1..] + b;
      ReplayAppend(e1, a[1..], b, dist);
    }
  }

  /// The published trip distance is non-decreasing across every prefix of a
  /// trip that starts from a consistent state.
  lemma DistanceKmMonotone(e: Estimator, events: seq<Event>, k: nat, dist: DistanceFn)
    requires Consistent(e) && k <= |events|
    ensures Replay(e, events[..k], dist).distanceKm <= Replay(e, events, dist).distanceKm
  {
    var mid := Replay(e, events[..k], dist);
    assert events == events[..k] + events[k..];
    ReplayAppend(e, events[..k], events[k..], dist);
    ReplayKeepsConsistent(e, events[..k], dist);
    ReplayKeepsConsistent(mid, events[k..], dist);
    ReplayNeverLosesDistance(mid, events[k..], dist);
  }

  // ---------------------------------------------------------------------
  // Worked examples

  /// Two fixes 1000 m and 100 s apart with 5 m accuracy, right after a reset
  /// from rest: raw 36 km/h, one smoothing step gives 10.8 km/h.
  lemma OneStepFromRest(e: Estimator, p1: Position, p2: Position, dist: DistanceFn, t0: int, now: int)
    requires e.smoothedSpeed == 0.0
    requires dist(p1, p2) == 1000.0 && p2.accuracy == 5.0
    requires p2.timestamp == p1.timestamp + 100000
    ensures var e2 := Ingest(Ingest(Reset(e, t0), Some(p1), t0, dist), Some(p2), now, dist);
      e2.speedKmh == 10.8 && e2.distanceKm == 1.0
  {
    FirstFixIsBaseline(e, t0, p1, t0, dist);
    SecondFixFromRest(Ingest(Reset(e, t0), Some(p1), t0, dist), p2, now, dist);
  }

  lemma SecondFixFromRest(e0: Estimator, p2: Position, now: int, dist: DistanceFn)
    requires e0.last.Some? && e0.smoothedSpeed == 0.0 && e0.totalDistance == 0.0
    requires dist(e0.last.value, p2) == 1000.0 && p2.accuracy == 5.0
    requires p2.timestamp == e0.last.value.timestamp + 100000
    ensures var e := Ingest(e0, Some(p2), now, dist);
      e.speedKmh == 10.8 && e.distanceKm == 1.0
  {
    var t := Seconds(e0.last.value.timestamp, p2.timestamp);
    assert t == 100.0;
    var m := Move(e0, p2, dist);
    assert m.smoothedSpeed == Smooth(0.0, 1000.0 / t * 3.6);
    assert m.speedKmh == 10.8;
  }

  /// 10 km in 30 minutes of wall-clock trip time averages 20 km/h.
  lemma TenKmInHalfAnHour(e: Estimator, fix: Position, dist: DistanceFn)
    requires e.totalDistance == 10000.0 && e.last.Some?
    requires dist(e.last.value, fix) <= fix.accuracy
    ensures Ingest(e, Some(fix), e.startTime + 1800000, dist).avgSpeedKmh == 20.0
  {
  }

  /// After an out-of-order fix, the next fix is measured from the new anchor,
  /// not from the stale one.
  lemma StaleAnchorDropped(e: Estimator, late: Position, next: Position, now1: int, now2: int, dist: DistanceFn)
    requires e.last.Some? && late.timestamp <= e.last.value.timestamp
    requires Accepted(late, next, dist)
    ensures var e1 := Ingest(e, Some(late), now1, dist);
      var e2 := Ingest(e1, Some(next), now2, dist);
      e1.totalDistance == e.totalDistance && e1.speedKmh == e.speedKmh
      && e2.totalDistance == e.totalDistance + dist(late, next)
  {
  }

  // ---------------------------------------------------------------------
  // The hook's state held in place

  class Calculator {
    var lastPosition: Option<Position>
    var smoothedSpeed: real
    var totalDistance: real
    var startTime: int
    var speedKmh: real
    var distanceKm: real
    var avgSpeedKmh: real
    const haversine: DistanceFn

    function State(): Estimator
      reads this
    {
      Estimator(lastPosition, smoothedSpeed, totalDistance, startTime,
                speedKmh, distanceKm, avgSpeedKmh)
    }

    ghost predicate Valid()
      reads this
    {
      Consistent(State())
    }

    constructor (haversine: DistanceFn)
      ensures Valid() && State() == Initial() && this.haversine == haversine
    {
      this.haversine := haversine;
      lastPosition := None;
      smoothedSpeed := 0.0;
      totalDistance := 0.0;
      startTime := 0;
      speedKmh := 0.0;
      distanceKm := 0.0;
      avgSpeedKmh := 0.0;
    }

    /// Starts a new trip at wall-clock time `now`.
    method ResetTrip(now: int)
      requires Valid()
      modifies this
      ensures Valid() && State() == Reset(old(State()), now)
    {
      distanceKm := 0.0;
      avgSpeedKmh := 0.0;
      totalDistance := 0.0;
      startTime := now;
      lastPosition := None;
    }

    /// Runs the per-position effect with the wall clock reading `now`.
    method OnPosition(position: Option<Position>, now: int)
      requires Valid()
      modifies this
      ensures Valid() && State() == Ingest(old(State()), position, now, haversine)
    {
      if position.None? {
        return;
      }
      var fix := position.value;
      if lastPosition.Some? {
        var lastPos := lastPosition.value;
        var distanceMeters := haversine(lastPos, fix);
        if distanceMeters > fix.accuracy {
          var timeSeconds := (fix.timestamp - lastPos.timestamp) as real / 1000.0;
          if timeSeconds > 0.0 {
            var rawSpeedMps := distanceMeters / timeSeconds;
            var rawSpeedKmh := rawSpeedMps * 3.6;
            smoothedSpeed := SMOOTHING_FACTOR * rawSpeedKmh + (1.0 - SMOOTHING_FACTOR) * smoothedSpeed;
            speedKmh := smoothedSpeed;
            totalDistance := totalDistance + distanceMeters;
            distanceKm := totalDistance / 1000.0;
          }
        }
      }
      lastPosition := Some(fix);
      var tripDurationSeconds := (now - startTime) as real / 1000.0;
      if tripDurationSeconds > 0.0 {
        var avgMps := totalDistance / tripDurationSeconds;
        avgSpeedKmh := avgMps * 3.6;
      }
    }
  }
}
