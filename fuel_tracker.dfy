/// The refuel form: checking the entered amounts, building the refuel record
/// and appending it to the refuel log.
///
/// Each numeric field is modelled by what reading it gives: litres and price
/// are `None` when the text is not a number (an empty field included); the
/// optional odometer is `None` when the field is empty and its integer
/// otherwise.
module FuelTracker {
  import opened Types
  import opened Store
  import opened FuelLog

  const INVALID_INPUT_MESSAGE: string := "Please enter valid positive numbers for litres and price."
  const SAVE_FAILED_MESSAGE: string := "Could not save refuel entry."

  datatype Result<T> = Ok(value: T) | Err(message: string)

  /// Whether both amounts are numbers greater than zero.
  predicate ValidAmounts(litres: Option<real>, price: Option<real>)
  {
    litres.Some? && price.Some? && litres.value > 0.0 && price.value > 0.0
  }

  /// The record a submission at time `now` adds, or the message it shows.
  function BuildRefuel(litres: Option<real>, price: Option<real>, odometer: Option<int>, now: int): (r: Result<Refuel>)
    ensures r.Ok? <==> ValidAmounts(litres, price)
    ensures r.Err? ==> r.message == INVALID_INPUT_MESSAGE
    ensures r.Ok? ==>
      r.value.date == now
      && r.value.litres == litres.value && r.value.pricePerLitre == price.value
      && r.value.litres > 0.0 && r.value.pricePerLitre > 0.0
      && r.value.totalCost == r.value.litres * r.value.pricePerLitre
      && r.value.totalCost > 0.0
      && r.value.odometer == odometer
  {
    if litres.None? || price.None? || litres.value <= 0.0 || price.value <= 0.0 then
      Err(INVALID_INPUT_MESSAGE)
    else
      Ok(Refuel(now, litres.value, price.value, litres.value * price.value, odometer))
  }

  /// Every refuel in the log was accepted by the form.
  predicate AllAccepted(refuels: seq<Refuel>)
  {
    forall i :: 0 <= i < |refuels| ==>
      refuels[i].litres > 0.0 && refuels[i].pricePerLitre > 0.0
      && refuels[i].totalCost == refuels[i].litres * refuels[i].pricePerLitre
  }

  /// A log of accepted refuels never holds a negative amount of fuel.
  lemma AcceptedLitresNonNegative(refuels: seq<Refuel>)
    requires AllAccepted(refuels)
    ensures Sum(refuels, Litres) >= 0.0
  {
    assert forall i :: 0 <= i < |refuels| ==> Litres(refuels[i]) >= 0.0;
  }

  class RefuelForm {
    var litres: Option<real>
    var price: Option<real>
    var odometer: Option<int>
    var error: string
    const db: Tables

    constructor (db: Tables)
      ensures litres == None && price == None && odometer == None && error == ""
      ensures this.db == db
    {
      this.db := db;
      litres := None;
      price := None;
      odometer := None;
      error := "";
    }

    /// Submits the form at wall-clock time `now`; `saveSucceeds` is the
    /// outcome of the insert. Invalid amounts only set the error; a valid
    /// entry clears it, then either is appended (and the fields are cleared)
    /// or fails to save (and the fields are kept).
    method AddRefuel(now: int, saveSucceeds: bool)
      modifies this, db
      ensures db.rides == old(db.rides)
      ensures AllAccepted(old(db.refuels)) ==> AllAccepted(db.refuels)
      ensures match BuildRefuel(old(litres), old(price), old(odometer), now)
        case Err(message) =>
          error == message && db.refuels == old(db.refuels)
          && litres == old(litres) && price == old(price) && odometer == old(odometer)
        case Ok(refuel) =>
          if saveSucceeds then
            error == "" && db.refuels == old(db.refuels) + [refuel]
            && litres == None && price == None && odometer == None
          else
            error == SAVE_FAILED_MESSAGE && db.refuels == old(db.refuels)
            && litres == old(litres) && price == old(price) && odometer == old(odometer)
    {
      var built := BuildRefuel(litres, price, odometer, now);
      if built.Err? {
        error := built.message;
        return;
      }
      error := "";
      var refuel := built.value;
      if saveSucceeds {
        db.refuels := db.refuels + [refuel];
        litres := None;
        price := None;
        odometer := None;
      } else {
        error := SAVE_FAILED_MESSAGE;
      }
    }
  }

  /// An accepted refuel adds exactly its litres to the fuel left.
  lemma RefuelRaisesFuel(refuels: seq<Refuel>, rides: seq<Ride>, litres: Option<real>, price: Option<real>, odometer: Option<int>, now: int)
    requires ValidAmounts(litres, price)
    ensures var refuel := BuildRefuel(litres, price, odometer, now).value;
      TotalFuel(refuels + [refuel], rides) == TotalFuel(refuels, rides) + litres.value
  {
    var refuel := BuildRefuel(litres, price, odometer, now).value;
    TotalFuelAfterRefuels(refuels, [refuel], rides);
    assert [refuel][..0] == [];
  }
}
