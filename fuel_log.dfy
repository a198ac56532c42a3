/// The fuel logs' totals: the reduces over the refuel and ride tables that
/// give the fuel left in the tank.
module FuelLog {
  import opened Types

  /// Sum of `f` over a log, accumulated from the first entry to the last.
  function Sum<T>(s: seq<T>, f: T -> real): (r: real)
    ensures (forall i :: 0 <= i < |s| ==> f(s[i]) >= 0.0) ==> r >= 0.0
    decreases |s|
  {
    if s == [] then 0.0 else Sum(s[..|s| - 1], f) + f(s[|s| - 1])
  }

  function Litres(r: Refuel): real { r.litres }

  function FuelUsed(r: Ride): real { r.fuelUsed }

  /// Fuel left in the tank: everything refuelled minus everything ridden.
  function TotalFuel(refuels: seq<Refuel>, rides: seq<Ride>): real
  {
    Sum(refuels, Litres) - Sum(rides, FuelUsed)
  }

  lemma {:induction false} SumAppend<T>(a: seq<T>, b: seq<T>, f: T -> real)
    ensures Sum(a + b, f) == Sum(a, f) + Sum(b, f)
    decreases |b|
  {
    if b == [] {
      assert a + b == a;
    } else {
      var b' := b[..|b| - 1];
      assert (a + b)[..|a + b| - 1] == a + b';
      SumAppend(a, b', f);
    }
  }

  /// A new refuel adds its litres to the fuel left.
  lemma {:induction false} TotalFuelAfterRefuels(refuels: seq<Refuel>, added: seq<Refuel>, rides: seq<Ride>)
    ensures TotalFuel(refuels + added, rides) == TotalFuel(refuels, rides) + Sum(added, Litres)
  {
    SumAppend(refuels, added, Litres);
  }

  /// A saved ride takes its fuel away from the fuel left.
  lemma {:induction false} TotalFuelAfterRides(refuels: seq<Refuel>, rides: seq<Ride>, added: seq<Ride>)
    ensures TotalFuel(refuels, rides + added) == TotalFuel(refuels, rides) - Sum(added, FuelUsed)
  {
    SumAppend(rides, added, FuelUsed);
  }

}
